# pyrodantic document engine, modelled in Dafny

pyrodantic maps pydantic record types to Firestore documents. This project models its
document engine (`pyrodantic/document.py`) in three parts.

- **Configuration resolution** (`config.dfy`, module `Config`). A configuration class
  is modelled by the attributes found on its linearization before FirestoreConfig, as a
  map from attribute to value. FirestoreConfig's own class attributes are the fallback of
  every lookup (`Lookup`). `inherit_config` puts a child layer over a parent layer.
  `DocumentMeta.__new__` folds the configurations of the document-type bases in reverse
  order, starting from FirestoreConfig. It then adds the type's own `Firestore` entry:
  none, FirestoreConfig itself, or a block of the type's own. FirestoreConfig itself
  adds nothing when no base contributes, and has no consistent method resolution order
  over a configuration derived from it. Last, it applies the identity-field rule to the
  type's `__annotations__` dictionary, where a later annotation of a name replaces an
  earlier one. The root `Document` is declared with `rootDefined = false`.
- **Instances against a store** (`store.dfy`, `documents.dfy`; modules
  `DocumentStore` and `Documents`).
  - The store is a class holding a map from (collection, id) paths to field maps, plus a
    log of the write calls made on it. `create` on an occupied path yields `Conflict`.
  - The id generator is a class holding the ids it will return and a log of the
    arguments of every call.
  - A document is a class with its resolved settings, its fields (the identity
    excluded) and an optional identity.
  - `_document_id`, `doc_ref`, `create`, `update` and `delete` are methods on it. `get`
    and `_from_firestore_snapshot` are static methods.
  - `create` is proved against the specification function `CreateLoop`, whose
    properties are lemmas.
- **The query cursor** (`queries.dfy`, module `Queries`). It is an immutable value:
  the document type's settings, the store query (collection, filters, limit) and the
  client. `stream` is a map over the snapshot sequence the store returns.
- **Findings** (`findings.dfy`, module `Findings`). This file holds the create loop as
  written, with `Conflict` read as the store's conflict, and what it does that the
  corrected loop does not.

Why FirestoreConfig goes last: every configuration class `inherit_config` builds derives
from FirestoreConfig, and C3 linearization places a common base after every class that
derives from it. Attribute lookup on a configuration class is therefore lookup in the
merged map, then in FirestoreConfig's attributes. This holds as long as document-type
bases share no document-type ancestor and the type's own `Firestore` entry is not a class
already on a base's configuration chain (see Left out).

tests/test.py:121-128 expects `create` to return after one write, but the `while True` at
pyrodantic/document.py:147-156 never exits. The model follows the behaviour that test expects, and the loop as written is recorded under Findings.

## Model

| member | source | states |
|---|---|---|
| Config.InheritConfig | pyrodantic/document.py:20-28 | With no own block the result is the parent. Otherwise the result defines exactly the attributes of either layer; every attribute of the own block wins, and every attribute only the parent defines keeps the parent's value. |
| Config.LookupInherited | pyrodantic/document.py:20-28 | Looking an attribute up on a merged class gives the own block's value when it sets the attribute, and otherwise the parent's lookup, FirestoreConfig's values included. |
| Config.InheritConfigWellTyped | pyrodantic/document.py:20-28 | Merging two layers whose attributes hold values of the right kind gives a layer of the same sort. |
| Config.BaseConfigLookup | pyrodantic/document.py:51-58 | Folding the bases in reverse order means the folded configuration defines an attribute exactly when some document-type base does, with the value of the first such base in declaration order. |
| Config.BaseConfigWellTyped | pyrodantic/document.py:51-58 | Folding well-typed base configurations gives a well-typed configuration. |
| Config.LaterBaseSettingShows | pyrodantic/document.py:51-58 | With bases `(B2, B1)`, where only B1 sets the collection, the type's collection is B1's, and attributes neither sets come from FirestoreConfig. |
| Config.Annotate | pyrodantic/document.py:60 | Storing an annotation in the `__annotations__` dictionary: the name now maps to the new type, other names are unchanged, and each name stays present once. |
| Config.Annotations | pyrodantic/document.py:60 | The annotation dictionary holds each annotated name once, with the type of its last annotation. |
| Config.IdentityFields | pyrodantic/document.py:62 | The identity fields are exactly the dictionary's names whose type is FirestoreID, each listed once. |
| Config.IdentityMembership | pyrodantic/document.py:60-62 | A name is an own identity field exactly when its last annotation in the type body is FirestoreID. |
| Config.IdentityCount | pyrodantic/document.py:62-74 | The count the rule tests is a count of names. It is zero when no name is last annotated as FirestoreID. When it is one, that name is the only identity name. When it is two or more, two different names are identity names. |
| Config.RepeatedAnnotation | pyrodantic/document.py:60-62 | A name annotated as FirestoreID twice counts once. A later non-identity annotation of the name cancels the identity. |
| Config.DeclareType | pyrodantic/document.py:50-77 | The loop over the reversed bases, the own entry and the identity rule compute exactly the specification `Declare`, the configuration-order error included. |
| Config.DeclarationRule | pyrodantic/document.py:51-74 | Rejection happens exactly when the own entry is FirestoreConfig itself over a contributing base (the configuration-order error), or when the root is defined, the own identity-field count is not one, and lookup finds no `id_attr` (the identity error); the error names the type. A single own identity field sets `id_attr` and overrides an inherited one. Otherwise an inherited `id_attr` is kept. Every other attribute is looked up in the own block, else the first contributing base that sets it, else FirestoreConfig. |
| Config.ConfigRootUnderDocumentBaseRejected | pyrodantic/document.py:51-59 | A type declaring `Firestore = FirestoreConfig` under a document-type base is rejected with the configuration-order error, whatever its annotations. |
| Config.DeclaredTypeHasSettings | pyrodantic/document.py:62-75 | Every accepted non-root declaration over well-typed configurations has complete settings, an identity attribute included. |
| Config.RootDeclaration | pyrodantic/document.py:46-81 | `Document` itself, with FirestoreConfig as its `Firestore` entry, is accepted without an identity field, and its configuration adds nothing to FirestoreConfig's. |
| Documents.SnapshotToInstance | pyrodantic/document.py:94-99 | The rebuilt instance's `dict()` is the snapshot body with the identity field set to the snapshot key. Its payload is the body without the identity field. |
| Documents.PayloadRoundTrip | pyrodantic/document.py:94-99 | Storing an instance's payload under a key and rebuilding it from that snapshot gives the same fields, identified by the key. |
| Documents.CreateLoopOutcome | pyrodantic/document.py:143-156 | The keys attempted before the last were all occupied. Success writes exactly the payload at the last attempted key, which was free, and the instance takes that key. A conflict without retry follows a single attempt, leaves the store unchanged and gives the instance the colliding key. |
| Documents.CreateLoopDrawsFreshIds | pyrodantic/document.py:146-154 | The keys attempted are the identity already held (unless none is held), then the generator's ids in order. Each retry draws the next supplied id instead of reusing the held one. The unused ids are exactly the rest of the supply. |
| Documents.RetriesDrawInOrder | pyrodantic/document.py:149-154 | Once a new id is forced, every attempt draws the next supplied id. The keys attempted are a prefix of the supply, and the ids left are the rest of it. |
| Documents.CreatedIsRetrievable | pyrodantic/document.py:101-113 | After a successful create, `get` of the written key finds the payload and rebuilds an instance with the created instance's fields and identity. |
| Documents.IdSupply.Next | pyrodantic/document.py:132-134 | A generator call returns the next supplied id and records the arguments it was called with. |
| Documents.Document.constructor | pyrodantic/document.py:83-85 | An instance holds the given fields, with the identity apart, which establishes `Valid()`. |
| Documents.Document.FromSnapshot | pyrodantic/document.py:94-99 | The new instance is the snapshot's rebuilt instance, and it is valid. |
| Documents.Document.Get | pyrodantic/document.py:101-113 | The result is null exactly when the store has no document at (collection, key). Otherwise it is a new instance rebuilt from that document's snapshot. |
| Documents.Document.DocumentId | pyrodantic/document.py:127-136 | Without `create`, or with an identity held and no `new_id`, the result is the held identity (None under `new_id`) and nothing changes. Otherwise the generator is called once with the configured args and kwargs (None becomes empty), and its id is assigned and returned. |
| Documents.Document.DocRef | pyrodantic/document.py:138-141 | The path is the collection and the identity `_document_id` resolves, with the same effect on the instance and the generator. |
| Documents.Document.TryCreate | pyrodantic/document.py:148-150 | One pass resolves the key and makes exactly one store create of the payload there. The pass writes if the key is free and conflicts otherwise, and draws from the generator only when a new id is needed. |
| Documents.Document.Create | pyrodantic/document.py:143-156 | The store, the identity, the remaining ids and the outcome are exactly those of `CreateLoop` from the old state with the payload computed once. The store log holds one create of that payload per attempted key. The generator log holds one call, with the configured arguments, per id drawn. The fields are unchanged. After success, reading the written key gives back exactly the instance's fields. |
| Documents.Document.Update | pyrodantic/document.py:158-162 | Exactly one store update of the fields without the identity, at (collection, current identity), with the identity possibly None. Nothing is generated, and no other document changes. |
| Documents.Document.Delete | pyrodantic/document.py:164-167 | With an identity that is None or empty, no store call is made. Otherwise exactly one delete of (collection, identity), removing only that key. Nothing is generated. |
| Queries.Query.Where | pyrodantic/document.py:194-201 | The new cursor has the same document type, client, collection and limit, and exactly one filter appended. |
| Queries.Query.Limit | pyrodantic/document.py:184-186 | The new cursor has the same document type, client, collection and filters, and its limit is the count. |
| Queries.DocumentWhere | pyrodantic/document.py:115-125 | The cursor ranges over the type's collection, with exactly the one filter, no limit, and the given client. |
| Queries.Stream | pyrodantic/document.py:188-192 | One instance per snapshot, in store order, each rebuilt from its snapshot as `_from_firestore_snapshot` does. |
| Queries.StreamBatches | pyrodantic/document.py:188-192 | Streaming two batches of snapshots gives the two streams concatenated. |
| Queries.ChainKeepsBinding | pyrodantic/document.py:184-201 | Any chain of `where` and `limit` calls keeps the document type, client and collection. The filters become the original ones followed by the `where` filters in call order, and the last `limit` decides the limit. |
| Queries.ChainStreamsAlike | pyrodantic/document.py:184-201 | A refined cursor turns the same snapshots into the same instances as the cursor it came from. |
| Findings.AsWrittenRaisesAfterWriting | pyrodantic/document.py:147-156 | As written (with `Conflict` read as the store's conflict), with retry off, after a create whose first write succeeds, a second create at the same key conflicts and the conflict is raised, although the document was stored. |
| Findings.AsWrittenWritesRepeatedly | pyrodantic/document.py:147-156 | As written (with `Conflict` read as the store's conflict), with retry on, after the first write the next pass conflicts on that key; from then on every pass draws a new id and stores another document. |
| Findings.CorrectedCreateStopsAfterWriting | pyrodantic/document.py:147-156 | The corrected loop stops after the first successful write. |
| Findings.CorrectedCreateWritesAtMostOne | pyrodantic/document.py:143-156 | The corrected loop stores at most one new document, at a key that was free, and changes no existing document. |

## Left out

- The metaclass and dynamic `type(...)` synthesis are not modelled. Configuration layers are maps, merging is map override, and FirestoreConfig's attributes are looked up last.
- Config.BaseConfig: C3 linearization is modelled only for document-type bases that share no document-type ancestor. When two bases `B1(A)` and `B2(A)` share `A`, C3 places `A` after both, but the model folds each base's resolved layer, so a value `B1` inherits from `A` hides an override in `B2`.
- Config.InheritConfig: a `Firestore` entry that is a class already on a contributing base's configuration chain (such as `Firestore = B.Firestore` under base `B`) makes `type(...)` at pyrodantic/document.py:28 raise TypeError, because that class would come before a subclass of itself. Layers carry no class identity, so `Declare` accepts such a declaration, with the block's attributes over the bases' configuration. Only FirestoreConfig itself as the entry is rejected.
- A `Firestore` block is taken as a plain map of its attributes. A block with bases of its own other than FirestoreConfig is not modelled.
- `issubclass` on an annotation that is not a class (such as `Optional[str]`) raises a TypeError. This is not modelled: each annotation is given as identity or not.
- Pydantic validation and coercion (`BaseModel.__init__`, `dict()`) are not modelled. Field values are an opaque field map.
- `uuid4_hex` (randomness) is not modelled. The generator is a supplied sequence of ids. Which callable is configured is recorded but not interpreted.
- The client binding in `Document.__init__` and `collection_ref` are not modelled. The client is a parameter, and the collection is the configured one.
- The callable check on the generator builds an error it never raises (pyrodantic/document.py:130-131), so it has no effect and is not modelled.
- `Conflict` is never imported by the code. It is taken to be the store's create-conflict outcome (`Conflict`, surfaced as `Conflicted`). Literally, `except Conflict:` would raise a NameError when the store raises.
- Document.Get: the client is assumed to answer a missing document with no snapshot, which is the `snapshot is None` test at pyrodantic/document.py:108. A client that returns a snapshot with `exists` false and no body is not modelled. For such a snapshot the code would index an absent body at line 98 instead of returning None.
- Document.Create: the loop stops after the first successful write (see Findings). The result `SupplyExhausted` is a model artefact for a generator that has no more ids. The code retries without bound, for as long as the generated keys collide.
- Document.Update: a missing document is the store's `NotFound` outcome, returned rather than raised.
- Store evaluation of query filters, operators, limits, ordering and pagination belongs to Firestore and is not modelled. `stream` takes the store's snapshot sequence as given, and its laziness is not modelled.
- Transport errors (network, permissions) and path validation by the store are not modelled.

## Findings

| source | as written | input that shows it | evidently intended | confidence | as-written member | corrected member |
|---|---|---|---|---|---|---|
| pyrodantic/document.py:147-156 | `while True` has no exit after a successful `create`, so the loop goes round again after writing | empty store, identity `doc-id`, retry off: the document is written, then the second pass conflicts on `doc-id` and the conflict is raised; with retry on and ids `a`, `b` to draw, three documents are written by one call in four passes, the second of which conflicts on `doc-id`. Both readings take `Conflict` as the store's conflict; literally the name is unbound, so the second pass ends in a NameError after one write | stop after the first successful write, leaving the instance identified by the key written | high (not executed) | Findings.AsWrittenRaisesAfterWriting | Documents.Document.Create |
