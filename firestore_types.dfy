/**
 * The data the document client works on: field values as the document
 * provider hands them over, records, query options and document snapshots.
 * Numbers are integers; arrays and nested maps as field values are not part
 * of this model.
 */
module FirestoreTypes {
  import opened Wrappers

  /** A field value. `Timestamp` is the provider's native time type and `Date`
      the host's own one; both carry integer milliseconds since the epoch. */
  datatype Value =
    | Null
    | Bool(b: bool)
    | Num(n: int)
    | Str(s: string)
    | Timestamp(millis: int)
    | Date(millis: int)

  /** A document's fields, keyed by field name. */
  type Record = map<string, Value>

  /** The operators a where-filter may use. */
  datatype Operator = Eq | Neq | Lt | Le | Gt | Ge | In | ArrayContains

  datatype Direction = Asc | Desc

  datatype WhereClause = WhereClause(field: string, operator: Operator, value: Value)

  datatype OrderSpec = OrderSpec(field: string, direction: Direction)

  /** Query options: filters in the order given, one optional sort key and an
      optional row cap. An absent `where` list is the empty list. */
  datatype QueryOptions = QueryOptions(
    where: seq<WhereClause>,
    orderBy: Option<OrderSpec>,
    limit: Option<int>)

  /** A document as a snapshot delivers it: its id and its stored fields. */
  datatype DocSnapshot = DocSnapshot(id: string, data: Record)

  /** What a provider read answers: the data, or the failure's message. */
  datatype Response<T> = Ok(value: T) | Failed(message: string)
}
