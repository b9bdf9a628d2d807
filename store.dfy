/**
 * The document store behind the service, seen through the two adapter operations the
 * handlers call: `get_documents(collection, limit)` and `create_document(collection, data)`.
 * Each named collection is a sequence of schemaless documents in insertion order; the store
 * hands out a fresh identifier for every document it accepts. Whether the store accepts a
 * particular write is outside its callers' control, so `CreateDocument` takes that outcome
 * as a parameter.
 */
module Store {
  import opened Wrappers
  import opened Schemas

  /** A stored document: field names mapped to raw values. */
  type Document = map<string, Value>

  datatype StorageError =
    | Unavailable   // no database connection was established at startup
    | Rejected      // the store refused the write
    | BadLimit      // a read asked for a non-positive number of documents

  function Min(a: int, b: int): int {
    if a <= b then a else b
  }

  class DocumentStore {
    /** Whether the process-wide connection exists. */
    const connected: bool
    /** The documents of each collection, in insertion order; absent names are empty collections. */
    var collections: map<string, seq<Document>>
    /** How many identifiers the store has handed out; the next one is this number. */
    var issued: nat

    constructor (connected: bool)
      ensures this.connected == connected
      ensures collections == map[] && issued == 0
    {
      this.connected := connected;
      collections := map[];
      issued := 0;
    }

    /** The documents of collection `name`. */
    function Docs(name: string): seq<Document>
      reads this
    {
      if name in collections then collections[name] else []
    }

    /**
     * What `get_documents(name, limit)` returns: the first `limit` documents of the
     * collection (all of them when `limit` is None), or the storage error it raises.
     */
    function Fetch(name: string, limit: Option<int>): (r: Result<seq<Document>, StorageError>)
      reads this
      ensures !connected ==> r == Failure(Unavailable)
      ensures r.Success? ==> r.value <= Docs(name)
      ensures r.Success? && limit.Some? ==> |r.value| == Min(limit.value, |Docs(name)|)
      ensures connected && limit == None ==> r == Success(Docs(name))
      ensures connected && limit.Some? && limit.value > 0 ==> r.Success?
      ensures limit.Some? && limit.value <= 0 ==> r.Failure?
    {
      if !connected then Failure(Unavailable)
      else
        match limit
        case None => Success(Docs(name))
        case Some(n) =>
          if n <= 0 then Failure(BadLimit)
          else Success(Docs(name)[..Min(n, |Docs(name)|)])
    }

    /** `get_documents(name, limit)`. */
    method GetDocuments(name: string, limit: Option<int>) returns (r: Result<seq<Document>, StorageError>)
      ensures r == Fetch(name, limit)
    {
      r := Fetch(name, limit);
    }

    /**
     * `create_document(name, doc)`: appends `doc` to collection `name` and returns its new
     * identifier, unless there is no connection or the store rejects the write (`rejected`),
     * in which case nothing changes and the error is returned.
     */
    method CreateDocument(name: string, doc: Document, rejected: bool) returns (r: Result<nat, StorageError>)
      modifies this
      ensures !connected ==> r == Failure(Unavailable)
      ensures connected && rejected ==> r == Failure(Rejected)
      ensures r.Failure? ==> collections == old(collections) && issued == old(issued)
      ensures connected && !rejected ==> r == Success(old(issued))
      ensures r.Success? ==>
        issued == old(issued) + 1 && collections == old(collections)[name := old(Docs(name)) + [doc]]
      ensures Docs(name) == if r.Success? then old(Docs(name)) + [doc] else old(Docs(name))
    {
      if !connected {
        return Failure(Unavailable);
      }
      if rejected {
        return Failure(Rejected);
      }
      r := Success(issued);
      collections := collections[name := Docs(name) + [doc]];
      issued := issued + 1;
    }
  }
}
