/**
 * The create loop as written, reading `Conflict` as the store's create conflict: `while True`
 * with no exit after a successful write. (The name is never bound, so literally the first
 * conflict surfaces as a NameError instead.)
 * Each pass resolves the identity (drawing a new one only when `newId` is set or none is
 * held), writes, and on success simply goes round again. It can only end by raising the
 * conflict, or, in this model, when the supplied ids run out or `fuel` passes are spent.
 */
module Findings {
  import opened Wrappers
  import opened DocumentStore
  import opened Documents

  /** How the as-written loop stands after its passes. It has no normal return. */
  datatype LoopEnd = RaisedConflict(key: string) | IdsExhausted | StillLooping

  /** The end state, the store, the instance's identity, and every key written, in order. */
  datatype AsWrittenRun = AsWrittenRun(end: LoopEnd, docs: map<Path, FieldMap>, id: Option<string>, written: seq<string>)

  /** At most `fuel` passes of the create loop as written. */
  function CreateAsWritten(docs: map<Path, FieldMap>, collection: Option<string>, payload: FieldMap,
                           retry: bool, id: Option<string>, newId: bool, supply: seq<string>,
                           written: seq<string>, fuel: nat): AsWrittenRun
    decreases fuel
  {
    if fuel == 0 then AsWrittenRun(StillLooping, docs, id, written)
    else
      var generate := newId || id.None?;
      if generate && supply == [] then AsWrittenRun(IdsExhausted, docs, id, written)
      else
        var key := if generate then supply[0] else id.value;
        var rest := if generate then supply[1..] else supply;
        var path := Path(collection, Some(key));
        if path !in docs then
          CreateAsWritten(docs[path := payload], collection, payload, retry, Some(key), newId, rest, written + [key], fuel - 1)
        else if retry then
          CreateAsWritten(docs, collection, payload, retry, Some(key), true, rest, written, fuel - 1)
        else AsWrittenRun(RaisedConflict(key), docs, Some(key), written)
  }

  /** Without retry, a create whose first write succeeds goes round again and makes a second
      create at the same key, which conflicts, and the conflict is raised: the caller sees an
      error although the document was stored. */
  lemma AsWrittenRaisesAfterWriting(docs: map<Path, FieldMap>, collection: Option<string>,
                                     payload: FieldMap, key: string, supply: seq<string>, fuel: nat)
    requires Path(collection, Some(key)) !in docs
    requires fuel >= 2
    ensures CreateAsWritten(docs, collection, payload, false, Some(key), false, supply, [], fuel)
            == AsWrittenRun(RaisedConflict(key), docs[Path(collection, Some(key)) := payload], Some(key), [key])
  {
  }

  /** With retry, after the first write the next pass conflicts on that key; from then on
      every pass draws a new id and stores another document. The instance holding `doc-id`
      over an empty store, with ids `a` and `b` to draw, writes all three keys in four passes. */
  lemma AsWrittenWritesRepeatedly()
    ensures var run := CreateAsWritten(map[], Some("test-collection"), map["str_attr" := Str("foo")],
                                       true, Some("doc-id"), false, ["a", "b"], [], 4);
            && run.end == StillLooping && run.written == ["doc-id", "a", "b"] && |run.docs| == 3
  {
  }

  /** The corrected loop stops at the first successful write: one document, one attempted
      key, nothing drawn from the generator. */
  lemma CorrectedCreateStopsAfterWriting(docs: map<Path, FieldMap>, collection: Option<string>, payload: FieldMap,
                                         retry: bool, key: string, supply: seq<string>)
    requires Path(collection, Some(key)) !in docs
    ensures CreateLoop(docs, collection, payload, retry, Some(key), false, supply, [])
            == CreateRun(Created(key), docs[Path(collection, Some(key)) := payload], Some(key), supply, [key])
  {
  }

  /** Whatever the store, settings and supply, the corrected loop stores at most one
      document, at a key that was free, and never alters an existing one. */
  lemma CorrectedCreateWritesAtMostOne(docs: map<Path, FieldMap>, collection: Option<string>, payload: FieldMap,
                                       retry: bool, id: Option<string>, supply: seq<string>)
    ensures var run := CreateLoop(docs, collection, payload, retry, id, false, supply, []);
            && docs.Keys <= run.docs.Keys
            && (forall p | p in docs :: run.docs[p] == docs[p])
            && (run.result.Created? ==> run.docs.Keys == docs.Keys + {Path(collection, Some(run.result.key))})
            && (!run.result.Created? ==> run.docs == docs)
  {
    CreateLoopOutcome(docs, collection, payload, retry, id, false, supply, []);
  }
}
