/**
 * Timestamp normalisation (`convertTimestamp`) and the shape of a record as
 * the document client hands it to the application (`{ id, ...fields }`).
 */
module Timestamps {
  import opened FirestoreTypes

  /** `Timestamp.toDate()`: the same instant as a host date. */
  function ToDate(v: Value): Value
    requires v.Timestamp?
  {
    Date(v.millis)
  }

  /** One field as `convertTimestamp` leaves it. */
  function ConvertValue(v: Value): (r: Value)
    ensures !r.Timestamp?
    ensures v.Timestamp? ==> r == Date(v.millis)
    ensures !v.Timestamp? ==> r == v
  {
    if v.Timestamp? then ToDate(v) else v
  }

  /** What `convertTimestamp` computes: every top-level Timestamp field,
      whatever its name, becomes a date; nothing else changes. */
  function Normalized(data: Record): (r: Record)
    ensures r.Keys == data.Keys
    ensures forall k :: k in data && data[k].Timestamp? ==> r[k] == Date(data[k].millis)
    ensures forall k :: k in data && !data[k].Timestamp? ==> r[k] == data[k]
    ensures forall k :: k in r ==> !r[k].Timestamp?
  {
    map k | k in data :: ConvertValue(data[k])
  }

  /** `convertTimestamp`: copy the record, then visit its keys one by one and
      replace each Timestamp value by its date. */
  method ConvertTimestamp(data: Record) returns (converted: Record)
    ensures converted == Normalized(data)
  {
    converted := data;
    var keys := data.Keys;
    while keys != {}
      invariant keys <= data.Keys
      invariant converted.Keys == data.Keys
      invariant forall k :: k in keys ==> converted[k] == data[k]
      invariant forall k :: k in data.Keys - keys ==> converted[k] == ConvertValue(data[k])
      decreases keys
    {
      var key :| key in keys;
      if converted[key].Timestamp? {
        converted := converted[key := ToDate(converted[key])];
      }
      keys := keys - {key};
    }
  }

  /** Normalising twice is normalising once. */
  lemma NormalizedIdempotent(data: Record)
    ensures Normalized(Normalized(data)) == Normalized(data)
  {
    var once := Normalized(data);
    forall k | k in once
      ensures Normalized(once)[k] == once[k]
    {
      assert !once[k].Timestamp?;
    }
  }

  /** How the provider stores what it is given: a host date is kept as the
      provider's timestamp (top-level fields only in this model). */
  function Stored(data: Record): Record {
    map k | k in data :: if data[k].Date? then Timestamp(data[k].millis) else data[k]
  }

  /** Writing a record and reading it back through `convertTimestamp` gives the
      record as if it had been normalised directly: dates survive storage. */
  lemma StoredRoundTrip(data: Record)
    ensures Normalized(Stored(data)) == Normalized(data)
    ensures forall k :: k in data && data[k].Date? ==> Normalized(Stored(data))[k] == data[k]
  {
    var s := Stored(data);
    forall k | k in data
      ensures Normalized(s)[k] == Normalized(data)[k]
    {
      assert k in s;
    }
  }

  /** The record handed to the application for document `id`:
      `{ id: id, ...convertTimestamp(data) }`. The spread comes second, so a
      stored `id` field wins over the document id. */
  function DocumentRecord(id: string, data: Record): (r: Record)
    ensures r.Keys == data.Keys + {"id"}
    ensures r["id"] == if "id" in data then ConvertValue(data["id"]) else Str(id)
    ensures forall k :: k in data && k != "id" ==> r[k] == ConvertValue(data[k])
  {
    map["id" := Str(id)] + Normalized(data)
  }

  /** `querySnapshot.docs.map(...)`: one record per snapshot, in order. */
  function DocumentRecords(snaps: seq<DocSnapshot>): (rs: seq<Record>)
    ensures |rs| == |snaps|
    ensures forall i :: 0 <= i < |snaps| ==> rs[i] == DocumentRecord(snaps[i].id, snaps[i].data)
  {
    if snaps == [] then []
    else [DocumentRecord(snaps[0].id, snaps[0].data)] + DocumentRecords(snaps[1..])
  }
}
