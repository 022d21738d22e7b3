/**
 * Document instances: identity resolution, snapshot-to-instance construction,
 * and the create / update / delete operations against the store.
 */
module Documents {
  import opened Wrappers
  import opened DocumentStore
  import opened Config

  /** The value of a document instance: its declared fields other than the identity,
      and the identity itself. */
  datatype Instance = Instance(fields: FieldMap, id: Option<string>) {
    /** `dict()`: every field, the identity included (None while unset). */
    function Dict(idAttr: string): FieldMap {
      fields[idAttr := IdValue(id)]
    }

    /** The body written to the store: `dict()` with the identity popped. */
    function Payload(idAttr: string): FieldMap {
      Dict(idAttr) - {idAttr}
    }
  }

  function IdValue(id: Option<string>): Value {
    if id.Some? then Str(id.value) else Null
  }

  /** `_from_firestore_snapshot`: the body taken verbatim, the identity set to the snapshot's key. */
  function SnapshotToInstance(idAttr: string, s: Snapshot): (inst: Instance)
    ensures inst.Dict(idAttr) == s.body[idAttr := Str(s.key)]
    ensures inst.Payload(idAttr) == s.body - {idAttr}
  {
    Instance(s.body - {idAttr}, Some(s.key))
  }

  /** Writing an instance's payload under `key` and reading it back gives the same
      instance, now identified by `key`. */
  lemma PayloadRoundTrip(idAttr: string, inst: Instance, key: string)
    requires idAttr !in inst.fields
    ensures SnapshotToInstance(idAttr, Snapshot(key, inst.Payload(idAttr))) == Instance(inst.fields, Some(key))
  {
  }

  /** `args or tuple()`: the positional arguments the generator is called with. */
  function EffectiveArgs(args: Option<seq<Value>>): seq<Value> {
    if args.Some? then args.value else []
  }

  /** `kwargs or dict()`: the keyword arguments the generator is called with. */
  function EffectiveKwargs(kwargs: Option<map<string, Value>>): map<string, Value> {
    if kwargs.Some? then kwargs.value else map[]
  }

  datatype GeneratorCall = GeneratorCall(args: seq<Value>, kwargs: map<string, Value>)

  /** `n` identical generator calls. */
  function Repeat(c: GeneratorCall, n: nat): seq<GeneratorCall>
  {
    seq(n, _ => c)
  }

  /** The configured id generator as it behaves at run time: the ids it will return, in
      order, and the arguments of every call made to it. */
  class IdSupply {
    var ids: seq<string>
    var calls: seq<GeneratorCall>

    constructor (ids: seq<string>)
      ensures this.ids == ids && calls == []
    {
      this.ids := ids;
      calls := [];
    }

    method Next(args: seq<Value>, kwargs: map<string, Value>) returns (id: string)
      requires ids != []
      modifies this
      ensures id == old(ids)[0] && ids == old(ids)[1..]
      ensures calls == old(calls) + [GeneratorCall(args, kwargs)]
    {
      id := ids[0];
      ids := ids[1..];
      calls := calls + [GeneratorCall(args, kwargs)];
    }
  }

  /** Outcome of `create`: the key written, the key that conflicted (retry disabled), or
      the end of the supplied ids (the model's stand-in for a generator that never stops). */
  datatype CreateResult = Created(key: string) | Conflicted(key: string) | SupplyExhausted

  /** Everything a run of the create loop determines. `tried` lists the keys attempted, in order. */
  datatype CreateRun = CreateRun(
    result: CreateResult,
    docs: map<Path, FieldMap>,
    id: Option<string>,
    supply: seq<string>,
    tried: seq<string>)

  /** Specification of the create loop, from a state in which `tried` were already attempted
      and `newId` says whether the next attempt must draw a new id. */
  function CreateLoop(docs: map<Path, FieldMap>, collection: Option<string>, payload: FieldMap,
                      retry: bool, id: Option<string>, newId: bool, supply: seq<string>,
                      tried: seq<string>): CreateRun
    decreases |supply|, if newId then 0 else 1
  {
    var generate := newId || id.None?;
    if generate && supply == [] then CreateRun(SupplyExhausted, docs, id, supply, tried)
    else
      var key := if generate then supply[0] else id.value;
      var rest := if generate then supply[1..] else supply;
      var path := Path(collection, Some(key));
      if path !in docs then CreateRun(Created(key), docs[path := payload], Some(key), rest, tried + [key])
      else if retry then CreateLoop(docs, collection, payload, retry, Some(key), true, rest, tried + [key])
      else CreateRun(Conflicted(key), docs, Some(key), rest, tried + [key])
  }

  /** One create call per attempted key, each with the same payload. */
  function CreateCalls(collection: Option<string>, tried: seq<string>, payload: FieldMap): seq<StoreCall>
  {
    seq(|tried|, i requires 0 <= i < |tried| => CreateCall(Path(collection, Some(tried[i])), payload))
  }

  /** What a create run does to the store and the instance: success writes exactly the
      payload at one previously free key; a conflict without retry leaves the store alone;
      every key attempted before the last one was occupied. */
  lemma {:induction false} CreateLoopOutcome(docs: map<Path, FieldMap>, collection: Option<string>,
                                             payload: FieldMap, retry: bool, id: Option<string>,
                                             newId: bool, supply: seq<string>, tried: seq<string>)
    ensures var run := CreateLoop(docs, collection, payload, retry, id, newId, supply, tried);
            && |tried| <= |run.tried| && run.tried[..|tried|] == tried
            && (forall i | |tried| <= i < |run.tried| - 1 :: Path(collection, Some(run.tried[i])) in docs)
            && (run.result.Created? ==>
                  && |run.tried| > |tried| && run.result.key == run.tried[|run.tried| - 1]
                  && Path(collection, Some(run.result.key)) !in docs
                  && run.docs == docs[Path(collection, Some(run.result.key)) := payload]
                  && run.id == Some(run.result.key))
            && (run.result.Conflicted? ==>
                  && !retry && |run.tried| == |tried| + 1 && run.result.key == run.tried[|tried|]
                  && Path(collection, Some(run.result.key)) in docs
                  && run.docs == docs && run.id == Some(run.result.key))
            && (run.result.SupplyExhausted? ==> run.docs == docs && run.supply == [])
    decreases |supply|, if newId then 0 else 1
  {
    var generate := newId || id.None?;
    if generate && supply == [] {
    } else {
      var key := if generate then supply[0] else id.value;
      var rest := if generate then supply[1..] else supply;
      if Path(collection, Some(key)) in docs && retry {
        CreateLoopOutcome(docs, collection, payload, retry, Some(key), true, rest, tried + [key]);
        var run := CreateLoop(docs, collection, payload, retry, Some(key), true, rest, tried + [key]);
        assert run.tried[..|tried|] == (tried + [key])[..|tried|];
      }
    }
  }

  /** Once a new id is forced, every attempt draws the next id: the keys attempted are a
      prefix of the supply, and what is left is the rest of it. */
  lemma {:induction false} RetriesDrawInOrder(docs: map<Path, FieldMap>, collection: Option<string>,
                                              payload: FieldMap, retry: bool, id: Option<string>,
                                              supply: seq<string>, tried: seq<string>)
    ensures var run := CreateLoop(docs, collection, payload, retry, id, true, supply, tried);
            var drawn := |supply| - |run.supply|;
            && 0 <= drawn <= |supply| && run.supply == supply[drawn..]
            && run.tried == tried + supply[..drawn]
    decreases |supply|, 1
  {
    if supply == [] {
      assert supply[..0] == [];
    } else if Path(collection, Some(supply[0])) in docs && retry {
      RetryDrawsNext(docs, collection, payload, retry, id, supply, tried);
    } else {
      DrawOne(supply, 0);
    }
  }

  /** The retry step of `RetriesDrawInOrder`: a collision on the drawn id, then the rest. */
  lemma {:induction false} RetryDrawsNext(docs: map<Path, FieldMap>, collection: Option<string>,
                                          payload: FieldMap, retry: bool, id: Option<string>,
                                          supply: seq<string>, tried: seq<string>)
    requires supply != [] && Path(collection, Some(supply[0])) in docs && retry
    ensures var run := CreateLoop(docs, collection, payload, retry, id, true, supply, tried);
            var drawn := |supply| - |run.supply|;
            && 0 <= drawn <= |supply| && run.supply == supply[drawn..]
            && run.tried == tried + supply[..drawn]
    decreases |supply|, 0
  {
    var key := supply[0];
    RetriesDrawInOrder(docs, collection, payload, retry, Some(key), supply[1..], tried + [key]);
    var sub := CreateLoop(docs, collection, payload, retry, Some(key), true, supply[1..], tried + [key]);
    DrawOne(supply, |supply| - 1 - |sub.supply|);
  }

  /** Drawing one id and then `n` more is drawing `n + 1`. */
  lemma DrawOne(supply: seq<string>, n: nat)
    requires n < |supply|
    ensures supply[..n + 1] == [supply[0]] + supply[1..][..n]
    ensures supply[n + 1..] == supply[1..][n..]
  {
  }

  /** Which keys a create run attempts: first the identity already set (unless a new one is
      forced), then ids drawn from the generator in order: each retry draws the next supplied
      id instead of reusing the held one. */
  lemma CreateLoopDrawsFreshIds(docs: map<Path, FieldMap>, collection: Option<string>,
                                payload: FieldMap, retry: bool, id: Option<string>,
                                newId: bool, supply: seq<string>, tried: seq<string>)
    ensures var run := CreateLoop(docs, collection, payload, retry, id, newId, supply, tried);
            var drawn := |supply| - |run.supply|;
            && 0 <= drawn <= |supply| && run.supply == supply[drawn..]
            && run.tried == tried + (if !newId && id.Some? then [id.value] else []) + supply[..drawn]
  {
    if newId || id.None? {
      RetriesDrawInOrder(docs, collection, payload, retry, id, supply, tried);
      assert CreateLoop(docs, collection, payload, retry, id, newId, supply, tried)
             == CreateLoop(docs, collection, payload, retry, id, true, supply, tried);
    } else if Path(collection, Some(id.value)) in docs && retry {
      RetriesDrawInOrder(docs, collection, payload, retry, id, supply, tried + [id.value]);
      var run := CreateLoop(docs, collection, payload, retry, id, true, supply, tried + [id.value]);
      assert tried + [id.value] + supply[..|supply| - |run.supply|]
             == tried + ([id.value] + supply[..|supply| - |run.supply|]);
    } else {
      assert supply[..0] == [];
    }
  }

  /** What `create` writes, `get` reads back: the rebuilt instance has the created
      instance's fields and the key that was written. */
  lemma CreatedIsRetrievable(idAttr: string, inst: Instance, docs: map<Path, FieldMap>,
                             collection: Option<string>, retry: bool, supply: seq<string>)
    requires idAttr !in inst.fields
    ensures var run := CreateLoop(docs, collection, inst.Payload(idAttr), retry, inst.id, false, supply, []);
            run.result.Created? ==>
              var got := SnapshotAt(run.docs, collection, run.result.key);
              && got == Some(Snapshot(run.result.key, inst.fields))
              && SnapshotToInstance(idAttr, got.value) == Instance(inst.fields, run.id)
  {
    CreateLoopOutcome(docs, collection, inst.Payload(idAttr), retry, inst.id, false, supply, []);
    assert inst.Payload(idAttr) == inst.fields;
  }

  /** A document instance: the type's resolved settings, its field values and its identity. */
  class Document {
    const settings: Settings
    var fields: FieldMap
    var id: Option<string>

    /** `cls(client, **data)`, with the identity keyword given apart from the others. */
    constructor (settings: Settings, data: FieldMap, id: Option<string>)
      ensures this.settings == settings && fields == data - {settings.idAttr} && this.id == id
      ensures Valid()
    {
      this.settings := settings;
      fields := data - {settings.idAttr};
      this.id := id;
    }

    /** The identity is held apart from the other fields. */
    predicate Valid()
      reads this
    {
      settings.idAttr !in fields
    }

    function View(): Instance
      reads this
    {
      Instance(fields, id)
    }

    function Dict(): FieldMap
      reads this
    {
      View().Dict(settings.idAttr)
    }

    /** The path `doc_ref()` addresses when no identity is generated. */
    function CurrentPath(): Path
      reads this
    {
      Path(settings.collection, id)
    }

    /** `_from_firestore_snapshot`. */
    static method FromSnapshot(settings: Settings, s: Snapshot) returns (d: Document)
      ensures fresh(d) && d.settings == settings && d.Valid()
      ensures d.View() == SnapshotToInstance(settings.idAttr, s)
    {
      d := new Document(settings, s.body, Some(s.key));
    }

    /** `get`: the instance stored under `key`, or null when the store has no such document. */
    static method Get(settings: Settings, key: string, store: Store) returns (d: Document?)
      ensures d == null <==> Path(settings.collection, Some(key)) !in store.docs
      ensures d != null ==>
                && fresh(d) && d.settings == settings && d.Valid()
                && d.View() == SnapshotToInstance(settings.idAttr, Snapshot(key, store.docs[Path(settings.collection, Some(key))]))
    {
      var snapshot := store.Get(settings.collection, key);
      if snapshot.None? {
        d := null;
      } else {
        d := FromSnapshot(settings, snapshot.value);
      }
    }

    /** `_document_id`: the identity, read passively, or generated and assigned when
        `create` is set and there is none (or `newId` forces a new one). */
    method DocumentId(create: bool, newId: bool, gen: IdSupply) returns (r: Option<string>)
      requires Valid()
      requires create && (newId || id.None?) ==> gen.ids != []
      modifies this, gen
      ensures Valid() && fields == old(fields)
      ensures var generate := create && (newId || old(id).None?);
              && (generate ==>
                    && r == Some(old(gen.ids)[0]) && id == r && gen.ids == old(gen.ids)[1..]
                    && gen.calls == old(gen.calls)
                                    + [GeneratorCall(EffectiveArgs(settings.args), EffectiveKwargs(settings.kwargs))])
              && (!generate ==>
                    && r == (if newId then None else old(id)) && id == old(id)
                    && gen.ids == old(gen.ids) && gen.calls == old(gen.calls))
    {
      r := if newId then None else id;
      if r.None? && create {
        var args := EffectiveArgs(settings.args);
        var kwargs := EffectiveKwargs(settings.kwargs);
        var generated := gen.Next(args, kwargs);
        r := Some(generated);
        id := r;
      }
    }

    /** `doc_ref`: the path of the identity `_document_id` resolves. */
    method DocRef(create: bool, newId: bool, gen: IdSupply) returns (p: Path)
      requires Valid()
      requires create && (newId || id.None?) ==> gen.ids != []
      modifies this, gen
      ensures Valid() && fields == old(fields)
      ensures var generate := create && (newId || old(id).None?);
              && (generate ==>
                    && p == Path(settings.collection, Some(old(gen.ids)[0])) && id == p.id
                    && gen.ids == old(gen.ids)[1..]
                    && gen.calls == old(gen.calls)
                                    + [GeneratorCall(EffectiveArgs(settings.args), EffectiveKwargs(settings.kwargs))])
              && (!generate ==>
                    && p == Path(settings.collection, if newId then None else old(id)) && id == old(id)
                    && gen.ids == old(gen.ids) && gen.calls == old(gen.calls))
    {
      var docId := DocumentId(create, newId, gen);
      p := Path(settings.collection, docId);
    }

    /** One pass of the create loop's body: `doc_ref(create=True, new_id=newId)`, then a store create. */
    method TryCreate(store: Store, gen: IdSupply, newId: bool, data: FieldMap,
                     ghost base: seq<GeneratorCall>, ghost drawn: nat, ghost storeBase: seq<StoreCall>, ghost tried: seq<string>)
      returns (key: string, written: WriteResult)
      requires Valid()
      requires newId || id.None? ==> gen.ids != []
      requires gen.calls == base + Repeat(GeneratorCall(EffectiveArgs(settings.args), EffectiveKwargs(settings.kwargs)), drawn)
      requires store.calls == storeBase + CreateCalls(settings.collection, tried, data)
      modifies this, store, gen
      ensures Valid() && fields == old(fields)
      ensures var generate := newId || old(id).None?;
              && key == (if generate then old(gen.ids)[0] else old(id).value)
              && gen.ids == (if generate then old(gen.ids)[1..] else old(gen.ids))
              && gen.calls == base + Repeat(GeneratorCall(EffectiveArgs(settings.args), EffectiveKwargs(settings.kwargs)),
                                            if generate then drawn + 1 else drawn)
      ensures id == Some(key)
      ensures store.calls == storeBase + CreateCalls(settings.collection, tried + [key], data)
      ensures Path(settings.collection, Some(key)) in old(store.docs) ==> written == Conflict && store.docs == old(store.docs)
      ensures Path(settings.collection, Some(key)) !in old(store.docs) ==>
                written == Written && store.docs == old(store.docs)[Path(settings.collection, Some(key)) := data]
    {
      ghost var call := GeneratorCall(EffectiveArgs(settings.args), EffectiveKwargs(settings.kwargs));
      var path := DocRef(true, newId, gen);
      key := path.id.value;
      written := store.Create(path, data);
      assert Repeat(call, drawn + 1) == Repeat(call, drawn) + [call];
      assert CreateCalls(settings.collection, tried + [key], data)
             == CreateCalls(settings.collection, tried, data) + [CreateCall(path, data)];
    }

    /** `create`: write the payload at the instance's identity, generating one when unset;
        on a conflict, retry with a newly generated identity if the settings allow it. */
    method Create(store: Store, gen: IdSupply) returns (r: CreateResult)
      requires Valid()
      modifies this, store, gen
      ensures var run := CreateLoop(old(store.docs), settings.collection, old(View()).Payload(settings.idAttr),
                                    settings.retryCreateOnConflict, old(id), false, old(gen.ids), []);
              && r == run.result && store.docs == run.docs && id == run.id && gen.ids == run.supply
              && store.calls == old(store.calls)
                                + CreateCalls(settings.collection, run.tried, old(View()).Payload(settings.idAttr))
      ensures Valid() && fields == old(fields)
      ensures r.Created? ==> store.Get(settings.collection, r.key) == Some(Snapshot(r.key, fields))
      ensures |gen.ids| <= |old(gen.ids)|
      ensures gen.calls == old(gen.calls)
                           + Repeat(GeneratorCall(EffectiveArgs(settings.args), EffectiveKwargs(settings.kwargs)),
                                    |old(gen.ids)| - |gen.ids|)
    {
      var data := View().Payload(settings.idAttr);
      var call := GeneratorCall(EffectiveArgs(settings.args), EffectiveKwargs(settings.kwargs));
      var newId := false;
      ghost var target := CreateLoop(store.docs, settings.collection, data, settings.retryCreateOnConflict,
                                     id, false, gen.ids, []);
      ghost var tried: seq<string> := [];
      ghost var calls0, drawn := gen.calls, 0;
      var done := false;
      r := SupplyExhausted;
      while !done
        invariant fields == old(fields)
        invariant !done ==> CreateLoop(store.docs, settings.collection, data, settings.retryCreateOnConflict,
                                       id, newId, gen.ids, tried) == target
        invariant done ==> target == CreateRun(r, store.docs, id, gen.ids, tried)
        invariant store.calls == old(store.calls) + CreateCalls(settings.collection, tried, data)
        invariant |gen.ids| <= |old(gen.ids)|
        invariant drawn == |old(gen.ids)| - |gen.ids|
        invariant gen.calls == calls0 + Repeat(call, drawn)
        decreases if done then 0 else 1, |gen.ids|, if newId then 0 else 1
      {
        if (newId || id.None?) && gen.ids == [] {
          r, done := SupplyExhausted, true;
        } else {
          ghost var generate := newId || id.None?;
          var key, written := TryCreate(store, gen, newId, data, calls0, drawn, old(store.calls), tried);
          tried := tried + [key];
          if generate {
            drawn := drawn + 1;
          }
          if written == Written {
            r, done := Created(key), true;
          } else if !settings.retryCreateOnConflict {
            r, done := Conflicted(key), true;
          } else {
            newId := true;
          }
        }
      }
      assert target.tried == tried;
      CreatedIsRetrievable(settings.idAttr, old(View()), old(store.docs), settings.collection,
                           settings.retryCreateOnConflict, old(gen.ids));
      assert gen.calls == old(gen.calls) + Repeat(call, |old(gen.ids)| - |gen.ids|);
    }

    /** `update`: write the current fields, identity excluded, at the current identity's
        path (which may hold no identity: nothing is generated and nothing is checked). */
    method Update(store: Store) returns (r: WriteResult)
      modifies store
      ensures var path := CurrentPath();
              var data := View().Payload(settings.idAttr);
              && store.calls == old(store.calls) + [UpdateCall(path, data)]
              && (path in old(store.docs) ==> r == Written && store.docs == old(store.docs)[path := old(store.docs)[path] + data])
              && (path !in old(store.docs) ==> r == NotFound && store.docs == old(store.docs))
    {
      var path := CurrentPath();
      var data := View().Payload(settings.idAttr);
      r := store.Update(path, data);
    }

    /** `delete`: nothing when the identity is falsy (unset or empty); otherwise one delete
        of exactly the current path. */
    method Delete(store: Store)
      modifies store
      ensures id.None? || id == Some("") ==> store.docs == old(store.docs) && store.calls == old(store.calls)
      ensures id.Some? && id != Some("") ==>
                store.calls == old(store.calls) + [DeleteCall(CurrentPath())]
                && store.docs == old(store.docs) - {CurrentPath()}
    {
      if id.None? || id == Some("") {
        return;
      }
      store.Delete(CurrentPath());
    }
  }
}
