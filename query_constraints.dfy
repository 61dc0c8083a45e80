/**
 * Query composition shared by `getAll` and `subscribe`: the where-filters in
 * the order supplied, then at most one orderBy, then at most one limit; with
 * no constraint at all the bare collection is queried.
 */
module QueryConstraints {
  import opened Wrappers
  import opened FirestoreTypes

  /** One clause handed to the provider's `query(...)`. */
  datatype Constraint =
    | Where(field: string, operator: Operator, value: Value)
    | OrderBy(field: string, direction: Direction)
    | Limit(count: int)

  /** What is read: the whole collection, or a query over it. */
  datatype QueryTarget =
    | WholeCollection(collection: string)
    | Filtered(collection: string, constraints: seq<Constraint>)

  /** `if (options?.limit)`: zero (like an absent limit) is falsy. */
  predicate HasLimit(options: QueryOptions) {
    options.limit.Some? && options.limit.value != 0
  }

  function WhereConstraints(clauses: seq<WhereClause>): (r: seq<Constraint>)
    ensures |r| == |clauses|
  {
    if clauses == [] then []
    else [Where(clauses[0].field, clauses[0].operator, clauses[0].value)] + WhereConstraints(clauses[1..])
  }

  function OrderByConstraints(options: QueryOptions): seq<Constraint> {
    if options.orderBy.Some? then [OrderBy(options.orderBy.value.field, options.orderBy.value.direction)] else []
  }

  function LimitConstraints(options: QueryOptions): seq<Constraint> {
    if HasLimit(options) then [Limit(options.limit.value)] else []
  }

  /** The constraint list built from `options?` (absent options build none). */
  function BuildConstraints(options: Option<QueryOptions>): (r: seq<Constraint>)
    ensures options.None? ==> r == []
    ensures options.Some? ==>
      var o := options.value;
      var sorted := if o.orderBy.Some? then 1 else 0;
      && |r| == |o.where| + sorted + (if HasLimit(o) then 1 else 0)
      && (o.orderBy.Some? ==> r[|o.where|] == OrderBy(o.orderBy.value.field, o.orderBy.value.direction))
      && (HasLimit(o) ==> r[|r| - 1] == Limit(o.limit.value))
  {
    match options
    case None => []
    case Some(o) => WhereConstraints(o.where) + OrderByConstraints(o) + LimitConstraints(o)
  }

  /** `constraints.length > 0 ? query(collectionRef, ...constraints) : collectionRef` */
  function Target(collection: string, constraints: seq<Constraint>): (t: QueryTarget)
    ensures t.collection == collection
    ensures t.WholeCollection? <==> constraints == []
    ensures t.Filtered? ==> t.constraints == constraints
  {
    if |constraints| > 0 then Filtered(collection, constraints) else WholeCollection(collection)
  }

  /** The constraint assembly as the source writes it: push one where-clause
      per filter, then the orderBy, then the limit. */
  method AssembleConstraints(options: Option<QueryOptions>) returns (constraints: seq<Constraint>)
    ensures constraints == BuildConstraints(options)
  {
    constraints := [];
    if options.Some? {
      var o := options.value;
      var i := 0;
      while i < |o.where|
        invariant 0 <= i <= |o.where|
        invariant constraints + WhereConstraints(o.where[i..]) == WhereConstraints(o.where)
      {
        var w := o.where[i];
        assert o.where[i..] == [w] + o.where[i + 1..];
        constraints := constraints + [Where(w.field, w.operator, w.value)];
        i := i + 1;
      }
      assert o.where[i..] == [];
      if o.orderBy.Some? {
        constraints := constraints + [OrderBy(o.orderBy.value.field, o.orderBy.value.direction)];
      }
      if HasLimit(o) {
        constraints := constraints + [Limit(o.limit.value)];
      }
    }
  }

  // ---------------------------------------------------------------------------
  // The shape of a constraint list and its reading back into options.

  /** Where-clauses first, then at most one orderBy, then at most one limit,
      and never a limit of zero. */
  predicate WellShaped(cs: seq<Constraint>) {
    if cs == [] then true
    else if cs[0].Where? then WellShaped(cs[1..])
    else if cs[0].OrderBy? then cs[1..] == [] || (|cs| == 2 && cs[1].Limit? && cs[1].count != 0)
    else |cs| == 1 && cs[0].count != 0
  }

  /** Options with an absent limit in place of a zero one: the options as far
      as the constraint list can tell them apart. */
  function Canonical(options: Option<QueryOptions>): QueryOptions {
    match options
    case None => QueryOptions([], None, None)
    case Some(o) => if HasLimit(o) then o else o.(limit := None)
  }

  /** Reads a well-shaped constraint list back into the options it encodes. */
  function Decompose(cs: seq<Constraint>): QueryOptions
    requires WellShaped(cs)
  {
    if cs == [] then QueryOptions([], None, None)
    else match cs[0]
      case Where(f, op, v) =>
        var rest := Decompose(cs[1..]);
        rest.(where := [WhereClause(f, op, v)] + rest.where)
      case OrderBy(f, d) =>
        QueryOptions([], Some(OrderSpec(f, d)), if |cs| == 2 then Some(cs[1].count) else None)
      case Limit(n) => QueryOptions([], None, Some(n))
  }

  /** A where-constraint in front of a well-shaped list reads back as one
      more filter in front. */
  lemma ConsWhere(c: WhereClause, rest: seq<Constraint>)
    requires WellShaped(rest)
    ensures WellShaped([Where(c.field, c.operator, c.value)] + rest)
    ensures Decompose([Where(c.field, c.operator, c.value)] + rest) == Decompose(rest).(where := [c] + Decompose(rest).where)
  {
    var cs := [Where(c.field, c.operator, c.value)] + rest;
    assert cs[1..] == rest;
  }

  lemma {:induction false} WhereConstraintsShape(clauses: seq<WhereClause>, tail: seq<Constraint>)
    requires WellShaped(tail)
    ensures WellShaped(WhereConstraints(clauses) + tail)
    ensures Decompose(WhereConstraints(clauses) + tail) == Decompose(tail).(where := clauses + Decompose(tail).where)
  {
    if clauses != [] {
      WhereConstraintsShape(clauses[1..], tail);
      WhereConstraintsStep(clauses, tail);
    } else {
      assert WhereConstraints(clauses) + tail == tail;
      assert clauses + Decompose(tail).where == Decompose(tail).where;
    }
  }

  /** One filter in front of a list already known to decompose. */
  lemma WhereConstraintsStep(clauses: seq<WhereClause>, tail: seq<Constraint>)
    requires clauses != [] && WellShaped(tail)
    requires WellShaped(WhereConstraints(clauses[1..]) + tail)
    requires Decompose(WhereConstraints(clauses[1..]) + tail) == Decompose(tail).(where := clauses[1..] + Decompose(tail).where)
    ensures WellShaped(WhereConstraints(clauses) + tail)
    ensures Decompose(WhereConstraints(clauses) + tail) == Decompose(tail).(where := clauses + Decompose(tail).where)
  {
    var c := clauses[0];
    WhereConstraintsCons(clauses, tail);
    PrependWhere(c, clauses[1..], WhereConstraints(clauses[1..]) + tail, tail);
    assert [c] + clauses[1..] == clauses;
  }

  /** Unfolding `WhereConstraints` once, in front of a tail. */
  lemma WhereConstraintsCons(clauses: seq<WhereClause>, tail: seq<Constraint>)
    requires clauses != []
    ensures WhereConstraints(clauses) + tail
      == [Where(clauses[0].field, clauses[0].operator, clauses[0].value)] + (WhereConstraints(clauses[1..]) + tail)
  {
    var w := Where(clauses[0].field, clauses[0].operator, clauses[0].value);
    var ws := WhereConstraints(clauses[1..]);
    assert WhereConstraints(clauses) == [w] + ws;
    ConcatAssoc([w], ws, tail);
  }

  lemma ConcatAssoc<T>(a: seq<T>, b: seq<T>, c: seq<T>)
    ensures (a + b) + c == a + (b + c)
  {
    assert |(a + b) + c| == |a + (b + c)|;
  }

  /** A where-constraint in front of `inner` adds its filter in front of the
      filters `inner` decomposes to. */
  lemma PrependWhere(c: WhereClause, clauses: seq<WhereClause>, inner: seq<Constraint>, tail: seq<Constraint>)
    requires WellShaped(tail) && WellShaped(inner)
    requires Decompose(inner) == Decompose(tail).(where := clauses + Decompose(tail).where)
    ensures WellShaped([Where(c.field, c.operator, c.value)] + inner)
    ensures Decompose([Where(c.field, c.operator, c.value)] + inner) == Decompose(tail).(where := ([c] + clauses) + Decompose(tail).where)
  {
    ConsWhere(c, inner);
    assert [c] + (clauses + Decompose(tail).where) == ([c] + clauses) + Decompose(tail).where;
  }



  /** The i-th where-constraint is built from the i-th filter. */
  lemma {:induction false} WhereConstraintsAt(clauses: seq<WhereClause>, i: int)
    requires 0 <= i < |clauses|
    ensures WhereConstraints(clauses)[i] == Where(clauses[i].field, clauses[i].operator, clauses[i].value)
  {
    if i > 0 {
      WhereConstraintsAt(clauses[1..], i - 1);
    }
  }

  /** The built list starts with one where-constraint per filter, in the
      order supplied. */
  lemma BuiltShape(o: QueryOptions)
    ensures forall i :: 0 <= i < |o.where| ==>
      BuildConstraints(Some(o))[i] == Where(o.where[i].field, o.where[i].operator, o.where[i].value)
  {
    var cs := BuildConstraints(Some(o));
    assert cs == WhereConstraints(o.where) + (OrderByConstraints(o) + LimitConstraints(o));
    forall i | 0 <= i < |o.where|
      ensures cs[i] == Where(o.where[i].field, o.where[i].operator, o.where[i].value)
    {
      WhereConstraintsAt(o.where, i);
    }
  }

  /** Every list `BuildConstraints` makes is well shaped, and reading it back
      gives the options it was built from, up to a zero limit. */
  lemma BuildDecompose(options: Option<QueryOptions>)
    ensures WellShaped(BuildConstraints(options))
    ensures Decompose(BuildConstraints(options)) == Canonical(options)
  {
    if options.Some? {
      var o := options.value;
      var tail := OrderByConstraints(o) + LimitConstraints(o);
      WhereConstraintsShape(o.where, tail);
      assert BuildConstraints(options) == WhereConstraints(o.where) + tail;
      assert o.where + [] == o.where;
    }
  }

  lemma {:induction false} DecomposeBuild(cs: seq<Constraint>)
    requires WellShaped(cs)
    ensures BuildConstraints(Some(Decompose(cs))) == cs
  {
    if cs != [] && cs[0].Where? {
      DecomposeBuild(cs[1..]);
      var rest := Decompose(cs[1..]);
      var o := Decompose(cs);
      assert o.where == [WhereClause(cs[0].field, cs[0].operator, cs[0].value)] + rest.where;
      assert o.where[1..] == rest.where;
      assert WhereConstraints(o.where) == [cs[0]] + WhereConstraints(rest.where);
      assert cs == [cs[0]] + cs[1..];
    }
  }

  /** Two options build the same constraint list exactly when they agree on
      filters, sort key and (non-zero) limit: `getAll` and `subscribe` read
      the same query for the same options, and only for those. */
  lemma SameConstraintsIffSameCanonical(a: Option<QueryOptions>, b: Option<QueryOptions>)
    ensures BuildConstraints(a) == BuildConstraints(b) <==> Canonical(a) == Canonical(b)
  {
    BuildDecompose(a);
    BuildDecompose(b);
    if Canonical(a) == Canonical(b) {
      DecomposeBuild(BuildConstraints(a));
      DecomposeBuild(BuildConstraints(b));
      CanonicalBuild(a);
      CanonicalBuild(b);
    }
  }

  /** Building from the canonical options builds the same list. */
  lemma CanonicalBuild(options: Option<QueryOptions>)
    ensures BuildConstraints(Some(Canonical(options))) == BuildConstraints(options)
  {
  }

  /** The bare collection is queried exactly when the options carry no
      filter, no sort key and no non-zero limit; a limit of 0 adds nothing. */
  lemma BareCollectionIff(collection: string, options: Option<QueryOptions>)
    ensures Target(collection, BuildConstraints(options)).WholeCollection?
        <==> Canonical(options) == QueryOptions([], None, None)
  {
    BuildDecompose(options);
    if Canonical(options) == QueryOptions([], None, None) {
      DecomposeBuild(BuildConstraints(options));
    }
  }
}
