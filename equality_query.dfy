/**
 * An in-memory stand-in for the provider's query evaluation, restricted to
 * equality filters and a positive row cap (no ordering, no other operators).
 * Filters are conjunctive and applied in the order of the snapshot list
 * before the cap. Its only purpose is to state what a query built by the
 * document client returns under that restriction.
 */
module EqualityQuery {
  import opened Wrappers
  import opened FirestoreTypes
  import opened Timestamps
  import opened QueryConstraints

  /** A record meets every where-clause of the list. */
  predicate Satisfies(data: Record, cs: seq<Constraint>) {
    forall i :: 0 <= i < |cs| && cs[i].Where? ==> cs[i].field in data && data[cs[i].field] == cs[i].value
  }

  /** The snapshots that meet every filter, in their original order. */
  function Matching(snaps: seq<DocSnapshot>, cs: seq<Constraint>): (r: seq<DocSnapshot>)
    ensures |r| <= |snaps|
    ensures forall s :: s in r <==> s in snaps && Satisfies(s.data, cs)
  {
    if snaps == [] then []
    else if Satisfies(snaps[0].data, cs) then [snaps[0]] + Matching(snaps[1..], cs)
    else Matching(snaps[1..], cs)
  }

  /** The last limit of the list, if any. */
  function LimitOf(cs: seq<Constraint>): Option<int> {
    if cs == [] then None
    else if cs[|cs| - 1].Limit? then Some(cs[|cs| - 1].count)
    else LimitOf(cs[..|cs| - 1])
  }

  function Evaluate(snaps: seq<DocSnapshot>, cs: seq<Constraint>): seq<DocSnapshot> {
    var m := Matching(snaps, cs);
    match LimitOf(cs)
    case Some(n) => if 0 <= n < |m| then m[..n] else m
    case None => m
  }

  /** Options this evaluator understands: equality filters only, no sort key,
      and a positive limit if any. */
  predicate SupportedOptions(o: QueryOptions) {
    && (forall i :: 0 <= i < |o.where| ==> o.where[i].operator == Eq)
    && o.orderBy.None?
    && (o.limit.Some? ==> o.limit.value > 0)
  }

  /** A record satisfies the built list exactly when it satisfies every
      where-clause of the options. */
  lemma SatisfiesBuilt(data: Record, o: QueryOptions)
    requires SupportedOptions(o)
    ensures Satisfies(data, BuildConstraints(Some(o)))
        <==> forall i :: 0 <= i < |o.where| ==> o.where[i].field in data && data[o.where[i].field] == o.where[i].value
  {
    BuiltShape(o);
  }

  /** The built list's limit is the options' limit. */
  lemma LimitOfBuilt(o: QueryOptions)
    requires SupportedOptions(o)
    ensures LimitOf(BuildConstraints(Some(o))) == o.limit
  {
    BuiltShape(o);
    var cs := BuildConstraints(Some(o));
    if !HasLimit(o) {
      LimitOfWheres(cs);
    }
  }

  lemma {:induction false} LimitOfWheres(cs: seq<Constraint>)
    requires forall i :: 0 <= i < |cs| ==> cs[i].Where?
    ensures LimitOf(cs) == None
  {
    if cs != [] {
      LimitOfWheres(cs[..|cs| - 1]);
    }
  }

  /** `getAll` with equality filters over a fixture: every record it returns
      is the record of one of the fixture's documents that matches every
      filter, and its filtered fields hold the filter values (normalised).
      Without a limit it returns all K matching documents, with `limit: n`
      it returns min(n, K) of them. */
  lemma EqualityQueryResult(snaps: seq<DocSnapshot>, o: QueryOptions)
    requires SupportedOptions(o)
    ensures var cs := BuildConstraints(Some(o));
            var k := |Matching(snaps, cs)|;
            var result := DocumentRecords(Evaluate(snaps, cs));
            && (o.limit.None? ==> |result| == k)
            && (o.limit.Some? ==> |result| == if o.limit.value < k then o.limit.value else k)
            && (forall j :: 0 <= j < |result| ==>
                 exists s :: s in snaps && Satisfies(s.data, cs) && result[j] == DocumentRecord(s.id, s.data))
            && (o.limit.None? ==> forall s :: s in snaps && Satisfies(s.data, cs) ==> DocumentRecord(s.id, s.data) in result)
            && forall j, i :: 0 <= j < |result| && 0 <= i < |o.where| ==>
                 o.where[i].field in result[j] && result[j][o.where[i].field] == ConvertValue(o.where[i].value)
  {
    var cs := BuildConstraints(Some(o));
    var e := Evaluate(snaps, cs);
    var result := DocumentRecords(e);
    EvaluateSize(snaps, o);
    EvaluatedMatch(snaps, cs);
    if o.limit.None? {
      AllMatchingReturned(snaps, o);
    }
    forall j | 0 <= j < |result|
      ensures exists s :: s in snaps && Satisfies(s.data, cs) && result[j] == DocumentRecord(s.id, s.data)
    {
      assert result[j] == DocumentRecord(e[j].id, e[j].data);
    }
    forall j, i | 0 <= j < |result| && 0 <= i < |o.where|
      ensures o.where[i].field in result[j] && result[j][o.where[i].field] == ConvertValue(o.where[i].value)
    {
      MatchedFields(e[j], o);
    }
  }

  /** The evaluated list holds min(limit, K) of the K matching snapshots. */
  lemma EvaluateSize(snaps: seq<DocSnapshot>, o: QueryOptions)
    requires SupportedOptions(o)
    ensures var cs := BuildConstraints(Some(o));
            var k := |Matching(snaps, cs)|;
            var e := Evaluate(snaps, cs);
            && (o.limit.None? ==> |e| == k)
            && (o.limit.Some? ==> |e| == if o.limit.value < k then o.limit.value else k)
  {
    LimitOfBuilt(o);
  }

  /** Every evaluated snapshot is one of the input's and meets every filter. */
  lemma EvaluatedMatch(snaps: seq<DocSnapshot>, cs: seq<Constraint>)
    ensures forall j :: 0 <= j < |Evaluate(snaps, cs)| ==>
      Evaluate(snaps, cs)[j] in snaps && Satisfies(Evaluate(snaps, cs)[j].data, cs)
  {
    var m := Matching(snaps, cs);
    var e := Evaluate(snaps, cs);
    forall j | 0 <= j < |e|
      ensures e[j] in m
    {
    }
  }

  /** The record of a matching snapshot holds every filter's value,
      normalised, under the filter's field. */
  lemma MatchedFields(s: DocSnapshot, o: QueryOptions)
    requires SupportedOptions(o)
    requires Satisfies(s.data, BuildConstraints(Some(o)))
    ensures forall i :: 0 <= i < |o.where| ==>
      o.where[i].field in DocumentRecord(s.id, s.data)
      && DocumentRecord(s.id, s.data)[o.where[i].field] == ConvertValue(o.where[i].value)
  {
    SatisfiesBuilt(s.data, o);
  }

  /** Without a limit every matching snapshot's record is returned. */
  lemma AllMatchingReturned(snaps: seq<DocSnapshot>, o: QueryOptions)
    requires SupportedOptions(o) && o.limit.None?
    ensures var cs := BuildConstraints(Some(o));
            forall s :: s in snaps && Satisfies(s.data, cs) ==>
              DocumentRecord(s.id, s.data) in DocumentRecords(Evaluate(snaps, cs))
  {
    var cs := BuildConstraints(Some(o));
    var e := Evaluate(snaps, cs);
    var result := DocumentRecords(e);
    LimitOfBuilt(o);
    assert e == Matching(snaps, cs);
    forall s | s in snaps && Satisfies(s.data, cs)
      ensures DocumentRecord(s.id, s.data) in result
    {
      var j :| 0 <= j < |e| && e[j] == s;
      assert result[j] == DocumentRecord(s.id, s.data);
    }
  }
}
