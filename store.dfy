/**
 * The document store the mapper talks to, reduced to the operations the mapper
 * uses: a map from (collection, document id) paths to field maps, and a record of
 * the write calls made on it, in order.
 */
module DocumentStore {
  import opened Wrappers

  /** A field value; the mapper never looks inside one. */
  datatype Value = Null | Bool(b: bool) | Int(i: int) | Str(s: string)

  type FieldMap = map<string, Value>

  /** A document path. Either part may be None: the mapper builds paths from an
      unset collection or an unset identity without checking them. */
  datatype Path = Path(collection: Option<string>, id: Option<string>)

  /** One stored document as read back: its key and its body. */
  datatype Snapshot = Snapshot(key: string, body: FieldMap)

  datatype StoreCall =
    | CreateCall(path: Path, data: FieldMap)
    | UpdateCall(path: Path, data: FieldMap)
    | DeleteCall(path: Path)

  datatype WriteResult = Written | Conflict | NotFound

  /** What a read of `key` in `collection` yields: the snapshot, or nothing. */
  function SnapshotAt(docs: map<Path, FieldMap>, collection: Option<string>, key: string): Option<Snapshot>
  {
    var p := Path(collection, Some(key));
    if p in docs then Some(Snapshot(key, docs[p])) else None
  }

  class Store {
    var docs: map<Path, FieldMap>
    var calls: seq<StoreCall>

    constructor (docs: map<Path, FieldMap>)
      ensures this.docs == docs && calls == []
    {
      this.docs := docs;
      calls := [];
    }

    function Get(collection: Option<string>, key: string): Option<Snapshot>
      reads this
    {
      SnapshotAt(docs, collection, key)
    }

    /** Creates the document; fails with Conflict, changing nothing, when the path is occupied. */
    method Create(path: Path, data: FieldMap) returns (r: WriteResult)
      modifies this
      ensures calls == old(calls) + [CreateCall(path, data)]
      ensures path in old(docs) ==> r == Conflict && docs == old(docs)
      ensures path !in old(docs) ==> r == Written && docs == old(docs)[path := data]
    {
      calls := calls + [CreateCall(path, data)];
      if path in docs {
        r := Conflict;
      } else {
        docs := docs[path := data];
        r := Written;
      }
    }

    /** Patches the given top-level fields of an existing document; NotFound otherwise. */
    method Update(path: Path, data: FieldMap) returns (r: WriteResult)
      modifies this
      ensures calls == old(calls) + [UpdateCall(path, data)]
      ensures path in old(docs) ==> r == Written && docs == old(docs)[path := old(docs)[path] + data]
      ensures path !in old(docs) ==> r == NotFound && docs == old(docs)
    {
      calls := calls + [UpdateCall(path, data)];
      if path in docs {
        docs := docs[path := docs[path] + data];
        r := Written;
      } else {
        r := NotFound;
      }
    }

    /** Removes the document; succeeds whether or not it exists. */
    method Delete(path: Path)
      modifies this
      ensures calls == old(calls) + [DeleteCall(path)]
      ensures docs == old(docs) - {path}
    {
      calls := calls + [DeleteCall(path)];
      docs := docs - {path};
    }
  }
}
