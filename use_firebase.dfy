/**
 * The collection client (`useFirebase(collectionName)`): a local mirror
 * (`documents`, `document`, `loading`, `error`) over one named collection of
 * a remote document store, with one-shot reads and writes and push handlers
 * for live subscriptions. Every awaited provider call is one atomic step;
 * its failure is an explicit argument (`fault`) or the provider's answer.
 */
module UseFirebase {
  import opened Wrappers
  import opened FirestoreTypes
  import opened Timestamps
  import opened QueryConstraints

  /** The message `getById` records for an absent document. */
  const DocumentNotFound: string := "Document not found"
  /** The provider's refusal to update a document that does not exist
      (its exact wording belongs to the provider). */
  const NoDocumentToUpdate: string := "No document to update"

  /** The remote store: collection name, then document id, then stored fields. */
  class DocumentStore {
    var collections: map<string, map<string, Record>>

    constructor (initial: map<string, map<string, Record>>)
      ensures collections == initial
    {
      collections := initial;
    }

    /** The documents of one collection (a collection never written is empty). */
    function Documents(name: string): map<string, Record>
      reads this
    {
      if name in collections then collections[name] else map[]
    }
  }

  /** `{ ...data, createdAt: new Date(), updatedAt: new Date() }`: two client
      clock readings, taken in that order, override caller-supplied stamps. */
  function CreatePayload(data: Record, created: int, updated: int): (r: Record)
    ensures r.Keys == data.Keys + {"createdAt", "updatedAt"}
    ensures r["createdAt"] == Date(created) && r["updatedAt"] == Date(updated)
    ensures forall k :: k in data && k != "createdAt" && k != "updatedAt" ==> r[k] == data[k]
  {
    data["createdAt" := Date(created)]["updatedAt" := Date(updated)]
  }

  /** `{ ...data, updatedAt: new Date() }`: only the given fields plus the stamp. */
  function UpdatePayload(data: Record, now: int): (r: Record)
    ensures r.Keys == data.Keys + {"updatedAt"}
    ensures r["updatedAt"] == Date(now)
    ensures forall k :: k in data && k != "updatedAt" ==> r[k] == data[k]
  {
    data["updatedAt" := Date(now)]
  }

  /** A field-merging update: given fields replace stored ones, the others stay. */
  function Merge(stored: Record, changes: Record): (r: Record)
    ensures r.Keys == stored.Keys + changes.Keys
    ensures forall k :: k in changes ==> r[k] == changes[k]
    ensures forall k :: k in stored && k !in changes ==> r[k] == stored[k]
  {
    stored + changes
  }

  /** A live subscription: a query or a single document, and whether the
      caller passed a callback. */
  datatype Listener =
    | QueryListener(target: QueryTarget, hasCallback: bool)
    | DocumentListener(id: string, hasCallback: bool)

  /** One `useFirebase(collectionName)` instance. */
  class CollectionClient {
    const collectionName: string
    const db: DocumentStore
    var documents: seq<Record>
    var document: Option<Record>
    var loading: bool
    var error: Option<string>
    /** Live subscriptions by handle (the handle stands for `unsubscribe`). */
    var listeners: map<nat, Listener>
    var nextHandle: nat

    /** Between operations nothing is loading, and handles are never reused. */
    ghost predicate Valid()
      reads this
    {
      && !loading
      && forall h :: h in listeners ==> h < nextHandle
    }

    constructor (name: string, store: DocumentStore)
      ensures Valid()
      ensures collectionName == name && db == store
      ensures documents == [] && document == None && error == None && listeners == map[]
    {
      collectionName := name;
      db := store;
      documents := [];
      document := None;
      loading := false;
      error := None;
      listeners := map[];
      nextHandle := 0;
    }

    /** `{ id: snapshot.id, ...convertTimestamp(snapshot.data()) }` */
    static method SnapshotRecord(id: string, data: Record) returns (r: Record)
      ensures r == DocumentRecord(id, data)
    {
      var converted := ConvertTimestamp(data);
      r := map["id" := Str(id)] + converted;
    }

    /** `getAll(options?)`: on success the mirror becomes the returned list; on
        failure `[]` is returned, the message recorded and the mirror kept. */
    method GetAll(options: Option<QueryOptions>, provider: QueryTarget -> Response<seq<DocSnapshot>>)
      returns (docs: seq<Record>)
      requires Valid()
      modifies this`documents, this`loading, this`error
      ensures Valid()
      ensures provider(Target(collectionName, BuildConstraints(options))).Ok? ==>
        && docs == DocumentRecords(provider(Target(collectionName, BuildConstraints(options))).value)
        && documents == docs && error == None
      ensures provider(Target(collectionName, BuildConstraints(options))).Failed? ==>
        && docs == [] && documents == old(documents)
        && error == Some(provider(Target(collectionName, BuildConstraints(options))).message)
    {
      loading := true;
      error := None;
      var constraints := AssembleConstraints(options);
      var q := Target(collectionName, constraints);
      match provider(q) {
        case Ok(snaps) =>
          docs := DocumentRecords(snaps);
          documents := docs;
        case Failed(message) =>
          error := Some(message);
          docs := [];
      }
      loading := false;
    }

    /** `getById(id)`: three outcomes — found (the mirror takes the record),
        absent (not-found message, mirror kept), provider failure. */
    method GetById(id: string, fault: Option<string>) returns (result: Option<Record>)
      requires Valid()
      modifies this`document, this`loading, this`error
      ensures Valid()
      ensures fault.Some? ==> result == None && error == fault && document == old(document)
      ensures fault.None? && id in db.Documents(collectionName) ==>
        && result == Some(DocumentRecord(id, db.Documents(collectionName)[id]))
        && document == result && error == None
      ensures fault.None? && id !in db.Documents(collectionName) ==>
        result == None && error == Some(DocumentNotFound) && document == old(document)
    {
      loading := true;
      error := None;
      if fault.Some? {
        error := fault;
        result := None;
      } else if id in db.Documents(collectionName) {
        var data := SnapshotRecord(id, db.Documents(collectionName)[id]);
        document := Some(data);
        result := Some(data);
      } else {
        error := Some(DocumentNotFound);
        result := None;
      }
      loading := false;
    }

    /** `create(data)`: the store gains document `newId` (the fresh id the
        provider generates) holding the stamped payload; every existing
        document is kept and the mirrors are not touched. */
    method Create(data: Record, created: int, updated: int, newId: string, fault: Option<string>)
      returns (id: Option<string>)
      requires Valid()
      requires newId !in db.Documents(collectionName)
      modifies this`loading, this`error, db
      ensures Valid()
      ensures documents == old(documents) && document == old(document)
      ensures fault.Some? ==> id == None && error == fault && db.collections == old(db.collections)
      ensures fault.None? ==>
        && id == Some(newId) && error == None
        && db.collections == old(db.collections)[collectionName :=
             old(db.Documents(collectionName))[newId := Stored(CreatePayload(data, created, updated))]]
      ensures forall k :: k in old(db.Documents(collectionName)) ==>
        k in db.Documents(collectionName) && db.Documents(collectionName)[k] == old(db.Documents(collectionName))[k]
    {
      loading := true;
      error := None;
      var docData := CreatePayload(data, created, updated);
      if fault.Some? {
        error := fault;
        id := None;
      } else {
        db.collections := db.collections[collectionName := db.Documents(collectionName)[newId := Stored(docData)]];
        id := Some(newId);
      }
      loading := false;
    }

    /** `update(id, data)`: merges the given fields plus a fresh `updatedAt`
        into an existing document; true on success, false on failure. */
    method Update(id: string, data: Record, now: int, fault: Option<string>) returns (ok: bool)
      requires Valid()
      modifies this`loading, this`error, db
      ensures Valid()
      ensures documents == old(documents) && document == old(document)
      ensures ok <==> fault.None? && id in old(db.Documents(collectionName))
      ensures ok ==> error == None && db.collections == old(db.collections)[collectionName :=
        old(db.Documents(collectionName))[id := Merge(old(db.Documents(collectionName))[id], Stored(UpdatePayload(data, now)))]]
      ensures !ok ==> db.collections == old(db.collections)
      ensures fault.Some? ==> error == fault
      ensures fault.None? && !ok ==> error == Some(NoDocumentToUpdate)
    {
      loading := true;
      error := None;
      var updateData := UpdatePayload(data, now);
      var docs := db.Documents(collectionName);
      if fault.Some? {
        error := fault;
        ok := false;
      } else if id !in docs {
        error := Some(NoDocumentToUpdate);
        ok := false;
      } else {
        db.collections := db.collections[collectionName := docs[id := Merge(docs[id], Stored(updateData))]];
        ok := true;
      }
      loading := false;
    }

    /** `remove(id)`: deletes the document (deleting an absent one succeeds). */
    method Remove(id: string, fault: Option<string>) returns (ok: bool)
      requires Valid()
      modifies this`loading, this`error, db
      ensures Valid()
      ensures documents == old(documents) && document == old(document)
      ensures ok <==> fault.None?
      ensures ok ==> error == None && db.collections == old(db.collections)[collectionName :=
        old(db.Documents(collectionName)) - {id}]
      ensures !ok ==> error == fault && db.collections == old(db.collections)
    {
      loading := true;
      error := None;
      if fault.Some? {
        error := fault;
        ok := false;
      } else {
        db.collections := db.collections[collectionName := db.Documents(collectionName) - {id}];
        ok := true;
      }
      loading := false;
    }

    /** `subscribe(options?, callback?)`: registers a live query over the same
        target `getAll` would read; nothing else changes until a push. */
    method Subscribe(options: Option<QueryOptions>, hasCallback: bool) returns (handle: nat)
      requires Valid()
      modifies this`listeners, this`nextHandle
      ensures Valid()
      ensures handle !in old(listeners)
      ensures listeners == old(listeners)[handle := QueryListener(Target(collectionName, BuildConstraints(options)), hasCallback)]
    {
      var constraints := AssembleConstraints(options);
      var q := Target(collectionName, constraints);
      handle := nextHandle;
      listeners := listeners[handle := QueryListener(q, hasCallback)];
      nextHandle := nextHandle + 1;
    }

    /** `subscribeToDocument(id, callback?)`. */
    method SubscribeToDocument(id: string, hasCallback: bool) returns (handle: nat)
      requires Valid()
      modifies this`listeners, this`nextHandle
      ensures Valid()
      ensures handle !in old(listeners)
      ensures listeners == old(listeners)[handle := DocumentListener(id, hasCallback)]
    {
      handle := nextHandle;
      listeners := listeners[handle := DocumentListener(id, hasCallback)];
      nextHandle := nextHandle + 1;
    }

    /** Calling the handle returned by a subscription; calling it again does nothing more. */
    method Unsubscribe(handle: nat)
      requires Valid()
      modifies this`listeners
      ensures Valid()
      ensures listeners == old(listeners) - {handle}
    {
      listeners := listeners - {handle};
    }

    /** A query push: the list mirror is replaced wholesale and the callback,
        if any, receives the same list (the result). Pushes to a cancelled
        handle have no effect. */
    method OnQuerySnapshot(handle: nat, snaps: seq<DocSnapshot>) returns (delivered: Option<seq<Record>>)
      requires Valid()
      modifies this`documents
      ensures Valid()
      ensures handle in listeners && listeners[handle].QueryListener? ==>
        && documents == DocumentRecords(snaps)
        && delivered == if listeners[handle].hasCallback then Some(documents) else None
      ensures !(handle in listeners && listeners[handle].QueryListener?) ==>
        documents == old(documents) && delivered == None
    {
      delivered := None;
      if handle in listeners && listeners[handle].QueryListener? {
        var docs := DocumentRecords(snaps);
        documents := docs;
        if listeners[handle].hasCallback {
          delivered := Some(docs);
        }
      }
    }

    /** A document push: the single mirror takes the record, or null when the
        document no longer exists; the callback receives the same value. */
    method OnDocumentSnapshot(handle: nat, stored: Option<Record>) returns (delivered: Option<Option<Record>>)
      requires Valid()
      modifies this`document
      ensures Valid()
      ensures handle in listeners && listeners[handle].DocumentListener? ==>
        && document == (if stored.Some? then Some(DocumentRecord(listeners[handle].id, stored.value)) else None)
        && delivered == if listeners[handle].hasCallback then Some(document) else None
      ensures !(handle in listeners && listeners[handle].DocumentListener?) ==>
        document == old(document) && delivered == None
    {
      delivered := None;
      if handle in listeners && listeners[handle].DocumentListener? {
        var listener := listeners[handle];
        if stored.Some? {
          var data := SnapshotRecord(listener.id, stored.value);
          document := Some(data);
        } else {
          document := None;
        }
        if listener.hasCallback {
          delivered := Some(document);
        }
      }
    }

    /** A subscription's error callback: records the message and touches
        neither `loading` nor the mirrors. The provider sends nothing more on
        a listener after its error, so the listener ends. */
    method OnSubscriptionError(handle: nat, message: string)
      requires Valid()
      modifies this`error, this`listeners
      ensures Valid()
      ensures handle in old(listeners) ==> error == Some(message) && listeners == old(listeners) - {handle}
      ensures handle !in old(listeners) ==> error == old(error) && listeners == old(listeners)
    {
      if handle in listeners {
        error := Some(message);
        listeners := listeners - {handle};
      }
    }
  }

  // ---------------------------------------------------------------------------
  // Write-then-read properties of the stored records.

  /** A document written by `create` and read back by `getById`: every given
      field (normalised), the two creation-time clock readings as dates, and
      the id. */
  lemma CreateThenRead(data: Record, created: int, updated: int, id: string)
    requires "id" !in data
    ensures var r := DocumentRecord(id, Stored(CreatePayload(data, created, updated)));
      && r.Keys == data.Keys + {"id", "createdAt", "updatedAt"}
      && r["id"] == Str(id)
      && r["createdAt"] == Date(created) && r["updatedAt"] == Date(updated)
      && forall k :: k in data && k != "createdAt" && k != "updatedAt" ==> r[k] == ConvertValue(data[k])
  {
    var payload := CreatePayload(data, created, updated);
    StoredRoundTrip(payload);
    assert Normalized(Stored(payload))["createdAt"] == Date(created);
  }

  /** A document changed by `update` and read back: the given fields take
      their new values, every other stored field is unchanged, and
      `updatedAt` is the update time — later than a stored one taken earlier. */
  lemma UpdateThenRead(stored: Record, data: Record, now: int, id: string)
    ensures var r := DocumentRecord(id, Merge(stored, Stored(UpdatePayload(data, now))));
      && r["updatedAt"] == Date(now)
      && (forall k :: k in data && k != "updatedAt" ==> r[k] == ConvertValue(data[k]))
      && (forall k :: k in stored && k !in data && k != "updatedAt" ==> r[k] == ConvertValue(stored[k]))
      && ("updatedAt" in stored && stored["updatedAt"].Timestamp? && stored["updatedAt"].millis < now ==>
            r["updatedAt"].millis > ConvertValue(stored["updatedAt"]).millis)
  {
    var changes := Stored(UpdatePayload(data, now));
    StoredRoundTrip(UpdatePayload(data, now));
    assert changes["updatedAt"] == Timestamp(now);
  }
}
