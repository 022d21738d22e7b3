/**
 * Declaration-time resolution of a document type's storage configuration.
 *
 * A configuration is the set of FirestoreConfig attributes a class defines before
 * FirestoreConfig on its linearization, as a map from attribute to value; looking an
 * attribute up on a class looks in that map, then among FirestoreConfig's own attributes.
 */
module Config {
  import opened Wrappers
  import opened DocumentStore

  datatype Attr =
    | Collection
    | IdGenerator
    | IdGeneratorArgs
    | IdGeneratorKwargs
    | RetryCreateOnConflict
    | IdAttr

  /** Which callable produces fresh identities (its behaviour is supplied at run time). */
  datatype Generator = Uuid4Hex | Custom(name: string)

  datatype AttrValue =
    | CollectionName(collection: Option<string>)
    | GeneratorValue(generator: Generator)
    | ArgsValue(args: Option<seq<Value>>)
    | KwargsValue(kwargs: Option<map<string, Value>>)
    | FlagValue(flag: bool)
    | FieldName(name: string)

  /** The attributes one configuration class defines (itself or through its bases). */
  type Layer = map<Attr, AttrValue>

  predicate Fits(a: Attr, v: AttrValue) {
    match a
    case Collection => v.CollectionName?
    case IdGenerator => v.GeneratorValue?
    case IdGeneratorArgs => v.ArgsValue?
    case IdGeneratorKwargs => v.KwargsValue?
    case RetryCreateOnConflict => v.FlagValue?
    case IdAttr => v.FieldName?
  }

  predicate WellTyped(c: Layer) {
    forall a | a in c :: Fits(a, c[a])
  }

  /** The class attributes of FirestoreConfig; it defines no `id_attr`. */
  const Defaults: Layer := map[
    Collection := CollectionName(None),
    IdGenerator := GeneratorValue(Uuid4Hex),
    IdGeneratorArgs := ArgsValue(None),
    IdGeneratorKwargs := KwargsValue(None),
    RetryCreateOnConflict := FlagValue(true)]

  /** `getattr` on a configuration class. A class is modelled by the attributes found on its
      linearization before FirestoreConfig; FirestoreConfig itself is the empty layer. Every
      configuration class derives from FirestoreConfig, which C3 linearization therefore
      places after every other class, so its attributes are the fallback of every lookup. */
  function Lookup(c: Layer, a: Attr): Option<AttrValue> {
    if a in c then Some(c[a]) else if a in Defaults then Some(Defaults[a]) else None
  }

  /** `inherit_config`: a class over `own` (when given) and `parent`; `own` wins on lookup. */
  function InheritConfig(own: Option<Layer>, parent: Layer): (r: Layer)
    ensures own.None? ==> r == parent
    ensures forall a :: a in r <==> a in parent || (own.Some? && a in own.value)
    ensures forall a | own.Some? && a in own.value :: r[a] == own.value[a]
    ensures forall a | a in parent && (own.None? || a !in own.value) :: r[a] == parent[a]
  {
    if own.None? then parent
    else if own.value == parent then own.value
    else parent + own.value
  }

  /** Lookup on a class built by `inherit_config` finds the own block's value first and
      otherwise looks the attribute up on the parent, FirestoreConfig's values included. */
  lemma LookupInherited(own: Option<Layer>, parent: Layer, a: Attr)
    ensures Lookup(InheritConfig(own, parent), a)
            == if own.Some? && a in own.value then Some(own.value[a]) else Lookup(parent, a)
  {
  }

  lemma InheritConfigWellTyped(own: Option<Layer>, parent: Layer)
    requires own.Some? ==> WellTyped(own.value)
    requires WellTyped(parent)
    ensures WellTyped(InheritConfig(own, parent))
  {
  }

  /** One annotation statement of a type body, in source order: the name and whether its
      type is FirestoreID. */
  datatype FieldDecl = FieldDecl(name: string, isIdentity: bool)

  /** The entry for `n` in an annotation dictionary: whether its type is FirestoreID. */
  function Find(d: seq<FieldDecl>, n: string): Option<bool>
  {
    if d == [] then None
    else if d[0].name == n then Some(d[0].isIdentity)
    else Find(d[1..], n)
  }

  /** A dictionary holds each name once. */
  predicate DistinctNames(d: seq<FieldDecl>)
  {
    d == [] || (Find(d[1..], d[0].name).None? && DistinctNames(d[1..]))
  }

  /** What the last annotation statement for `n` says, if there is one. */
  function LastAnnotation(decls: seq<FieldDecl>, n: string): Option<bool>
  {
    if decls == [] then None
    else if decls[|decls| - 1].name == n then Some(decls[|decls| - 1].isIdentity)
    else LastAnnotation(decls[..|decls| - 1], n)
  }

  /** Storing one annotation in `__annotations__`: a name already present keeps its place
      and takes the new type; a new name goes last. */
  function Annotate(d: seq<FieldDecl>, f: FieldDecl): (r: seq<FieldDecl>)
    requires DistinctNames(d)
    ensures DistinctNames(r)
    ensures forall n :: Find(r, n) == if n == f.name then Some(f.isIdentity) else Find(d, n)
  {
    if d == [] then [f]
    else if d[0].name == f.name then [f] + d[1..]
    else [d[0]] + Annotate(d[1..], f)
  }

  /** `__annotations__` of a type body: later annotations of a name replace earlier ones. */
  function Annotations(decls: seq<FieldDecl>): (d: seq<FieldDecl>)
    ensures DistinctNames(d)
    ensures forall n :: Find(d, n) == LastAnnotation(decls, n)
  {
    if decls == [] then []
    else Annotate(Annotations(decls[..|decls| - 1]), decls[|decls| - 1])
  }

  /** The names whose type is FirestoreID, in dictionary order: each such name exactly once. */
  function IdentityFields(d: seq<FieldDecl>): (ids: seq<string>)
    requires DistinctNames(d)
    ensures forall n :: n in ids <==> Find(d, n) == Some(true)
    ensures forall i, j | 0 <= i < j < |ids| :: ids[i] != ids[j]
  {
    if d == [] then []
    else
      var rest := IdentityFields(d[1..]);
      (if d[0].isIdentity then [d[0].name] else []) + rest
  }

  /** The identity fields a type body declares. */
  function OwnIdentityFields(annotations: seq<FieldDecl>): seq<string> {
    IdentityFields(Annotations(annotations))
  }

  /** A name is an own identity field exactly when its last annotation is FirestoreID. */
  lemma IdentityMembership(annotations: seq<FieldDecl>, n: string)
    ensures n in OwnIdentityFields(annotations) <==> LastAnnotation(annotations, n) == Some(true)
  {
  }

  /** The own identity fields are counted by name: none when no name is last annotated as
      FirestoreID; one when exactly that name is; otherwise two different names are. */
  lemma IdentityCount(annotations: seq<FieldDecl>)
    ensures var ids := OwnIdentityFields(annotations);
            |ids| == 0 <==> forall m :: LastAnnotation(annotations, m) != Some(true)
    ensures var ids := OwnIdentityFields(annotations);
            |ids| == 1 ==> forall m :: LastAnnotation(annotations, m) == Some(true) <==> m == ids[0]
    ensures var ids := OwnIdentityFields(annotations);
            |ids| >= 2 ==> && ids[0] != ids[1]
                           && LastAnnotation(annotations, ids[0]) == Some(true)
                           && LastAnnotation(annotations, ids[1]) == Some(true)
  {
    var ids := OwnIdentityFields(annotations);
    forall m ensures m in ids <==> LastAnnotation(annotations, m) == Some(true) {
      IdentityMembership(annotations, m);
    }
    if |ids| > 0 {
      assert ids[0] in ids;
      assert LastAnnotation(annotations, ids[0]) == Some(true);
    }
    if |ids| >= 2 {
      assert ids[1] in ids;
    }
  }

  /** A name annotated twice counts once, with its last annotation deciding. */
  lemma RepeatedAnnotation()
    ensures OwnIdentityFields([FieldDecl("x", true), FieldDecl("x", true)]) == ["x"]
    ensures OwnIdentityFields([FieldDecl("x", true), FieldDecl("x", false)]) == []
  {
    var t, f := FieldDecl("x", true), FieldDecl("x", false);
    assert [t, t][..1] == [t] && [t, f][..1] == [t] && [t][..0] == [];
    assert Annotations([t]) == [t];
    assert Annotations([t, t]) == [t];
    assert Annotations([t, f]) == [f];
  }

  /** A base class named in a type declaration. */
  datatype Base =
    | RootDocument                  // `Document` itself
    | DocumentType(config: Layer)   // a declared document type, with its resolved configuration
    | OtherClass                    // a class that is not a document type

  /** The `Firestore` entry of a class body: none, FirestoreConfig itself (as `Document`
      declares it), or a block of the type's own. */
  datatype OwnConfig = NoBlock | ConfigRoot | Block(layer: Layer)

  /** The layer the own entry adds; FirestoreConfig itself adds nothing. */
  function OwnLayer(own: OwnConfig): Option<Layer> {
    match own
    case NoBlock => None
    case ConfigRoot => Some(map[])
    case Block(layer) => Some(layer)
  }

  /** A class statement: its name, bases, own `Firestore` entry and its annotation
      statements in source order. */
  datatype Declaration = Declaration(
    name: string,
    bases: seq<Base>,
    firestore: OwnConfig,
    annotations: seq<FieldDecl>)

  /** Why `DocumentMeta.__new__` raises TypeError: no consistent method resolution order for
      the merged configuration class, or not exactly one identity field. */
  datatype DeclarationError = InconsistentConfigOrder(typeName: string) | NotExactlyOneIdentity(typeName: string)

  /** Whether `b` contributes its configuration: document types do, once the root is defined. */
  predicate Contributes(b: Base, rootDefined: bool) {
    rootDefined && b.DocumentType?
  }

  /** Whether some base contributes, so that the folded configuration is a new class
      derived from FirestoreConfig rather than FirestoreConfig itself. */
  predicate InheritsConfig(bases: seq<Base>, rootDefined: bool) {
    exists i | 0 <= i < |bases| :: Contributes(bases[i], rootDefined)
  }

  /** An own entry that is FirestoreConfig itself, over a configuration derived from it:
      `type(...)` would list FirestoreConfig before its own subclass, which has no
      consistent method resolution order. */
  predicate ConfigOrderClash(decl: Declaration, rootDefined: bool) {
    decl.firestore.ConfigRoot? && InheritsConfig(decl.bases, rootDefined)
  }

  /** The configuration folded from `bases` visited in reverse, starting from FirestoreConfig. */
  function BaseConfig(bases: seq<Base>, rootDefined: bool): Layer
  {
    if bases == [] then map[]
    else
      var rest := BaseConfig(bases[1..], rootDefined);
      if Contributes(bases[0], rootDefined) then InheritConfig(Some(bases[0].config), rest) else rest
  }

  /** Reference lookup: the value of `a` in the first contributing base, in declaration
      order, that defines it. */
  function LookupInBases(bases: seq<Base>, rootDefined: bool, a: Attr): Option<AttrValue>
  {
    if bases == [] then None
    else if Contributes(bases[0], rootDefined) && a in bases[0].config then Some(bases[0].config[a])
    else LookupInBases(bases[1..], rootDefined, a)
  }

  /** Folding in reverse makes the earliest base that defines an attribute win. */
  lemma {:induction false} BaseConfigLookup(bases: seq<Base>, rootDefined: bool, a: Attr)
    ensures a in BaseConfig(bases, rootDefined) <==> LookupInBases(bases, rootDefined, a).Some?
    ensures a in BaseConfig(bases, rootDefined) ==>
              BaseConfig(bases, rootDefined)[a] == LookupInBases(bases, rootDefined, a).value
  {
    if bases != [] {
      BaseConfigLookup(bases[1..], rootDefined, a);
    }
  }

  /** Folding well-typed configurations gives a well-typed configuration. */
  lemma {:induction false} BaseConfigWellTyped(bases: seq<Base>, rootDefined: bool)
    requires forall i | 0 <= i < |bases| && bases[i].DocumentType? :: WellTyped(bases[i].config)
    ensures WellTyped(BaseConfig(bases, rootDefined))
  {
    if bases != [] {
      BaseConfigWellTyped(bases[1..], rootDefined);
      if Contributes(bases[0], rootDefined) {
        InheritConfigWellTyped(Some(bases[0].config), BaseConfig(bases[1..], rootDefined));
      }
    }
  }

  /** The configuration after the bases and the type's own `Firestore` block, before the identity rule. */
  function MergedConfig(decl: Declaration, rootDefined: bool): Layer {
    InheritConfig(OwnLayer(decl.firestore), BaseConfig(decl.bases, rootDefined))
  }

  /** Specification of `DocumentMeta.__new__`: the resolved configuration of a declared type,
      or the declaration error. `rootDefined` is false only while `Document` itself is declared. */
  function Declare(decl: Declaration, rootDefined: bool): Result<Layer, DeclarationError>
  {
    var merged := MergedConfig(decl, rootDefined);
    var ids := OwnIdentityFields(decl.annotations);
    if ConfigOrderClash(decl, rootDefined) then Failure(InconsistentConfigOrder(decl.name))
    else if rootDefined && |ids| != 1 && Lookup(merged, IdAttr).None? then Failure(NotExactlyOneIdentity(decl.name))
    else if |ids| == 1 then Success(merged[IdAttr := FieldName(ids[0])])
    else Success(merged)
  }

  /** `DocumentMeta.__new__`: the loop over the reversed bases, the own block, then the identity rule. */
  method DeclareType(decl: Declaration, rootDefined: bool) returns (r: Result<Layer, DeclarationError>)
    ensures r == Declare(decl, rootDefined)
  {
    var firestore: Layer := map[];
    var derived := false;
    var i := |decl.bases|;
    while i > 0
      invariant 0 <= i <= |decl.bases|
      invariant firestore == BaseConfig(decl.bases[i..], rootDefined)
      invariant derived <==> exists j | i <= j < |decl.bases| :: Contributes(decl.bases[j], rootDefined)
    {
      i := i - 1;
      assert decl.bases[i..][1..] == decl.bases[i + 1..];
      var base := decl.bases[i];
      if Contributes(base, rootDefined) {
        firestore := InheritConfig(Some(base.config), firestore);
        derived := true;
      }
    }
    assert decl.bases[0..] == decl.bases;
    if decl.firestore.ConfigRoot? && derived {
      return Failure(InconsistentConfigOrder(decl.name));
    }
    firestore := InheritConfig(OwnLayer(decl.firestore), firestore);
    var ids := OwnIdentityFields(decl.annotations);
    if rootDefined && |ids| != 1 && Lookup(firestore, IdAttr).None? {
      return Failure(NotExactlyOneIdentity(decl.name));
    } else if |ids| == 1 {
      firestore := firestore[IdAttr := FieldName(ids[0])];
    }
    r := Success(firestore);
  }

  /** The two rejections, the identity rule, and where every other attribute comes from:
      the type's own block, else the first contributing base that defines it, else
      FirestoreConfig. */
  lemma DeclarationRule(decl: Declaration, rootDefined: bool, a: Attr)
    ensures var ids := OwnIdentityFields(decl.annotations);
            var merged := MergedConfig(decl, rootDefined);
            var clash := ConfigOrderClash(decl, rootDefined);
            var r := Declare(decl, rootDefined);
            && (r.Failure? <==> clash || (rootDefined && |ids| != 1 && Lookup(merged, IdAttr).None?))
            && (r.Failure? ==> (r.error.InconsistentConfigOrder? <==> clash) && r.error.typeName == decl.name)
            && (|ids| == 1 && !clash ==> r.Success? && Lookup(r.value, IdAttr) == Some(FieldName(ids[0])))
            && (|ids| != 1 && r.Success? ==> Lookup(r.value, IdAttr) == Lookup(merged, IdAttr))
    ensures var r := Declare(decl, rootDefined);
            var own := OwnLayer(decl.firestore);
            var inherited := LookupInBases(decl.bases, rootDefined, a);
            r.Success? && a != IdAttr ==>
              Lookup(r.value, a) == if own.Some? && a in own.value then Some(own.value[a])
                                    else if inherited.Some? then inherited
                                    else Lookup(map[], a)
  {
    BaseConfigLookup(decl.bases, rootDefined, a);
  }

  /** Two document-type bases: an attribute the first base leaves to FirestoreConfig is
      taken from the second base that sets it. */
  lemma LaterBaseSettingShows()
    ensures var b1: Layer := map[Collection := CollectionName(Some("b1")), IdAttr := FieldName("doc_id")];
            var b2: Layer := map[IdAttr := FieldName("doc_id")];
            var r := Declare(Declaration("C", [DocumentType(b2), DocumentType(b1)], NoBlock, []), true);
            && r.Success? && Lookup(r.value, Collection) == Some(CollectionName(Some("b1")))
            && Lookup(r.value, RetryCreateOnConflict) == Some(FlagValue(true))
  {
  }

  /** A document type whose `Firestore` entry is FirestoreConfig itself, under a base that
      contributes its configuration, is rejected before the identity rule is applied. */
  lemma ConfigRootUnderDocumentBaseRejected(b: Layer, annotations: seq<FieldDecl>)
    ensures Declare(Declaration("C", [DocumentType(b)], ConfigRoot, annotations), true)
            == Failure(InconsistentConfigOrder("C"))
  {
    assert Contributes(DocumentType(b), true);
  }

  /** The resolved settings a document instance reads through `self.__firestore__`. */
  datatype Settings = Settings(
    collection: Option<string>,
    idAttr: string,
    generator: Generator,
    args: Option<seq<Value>>,
    kwargs: Option<map<string, Value>>,
    retryCreateOnConflict: bool)

  /** The settings of a resolved configuration, as read by attribute lookup; None when an
      attribute is missing or ill-typed. */
  function SettingsOf(c: Layer): Option<Settings> {
    var collection := Lookup(c, Collection);
    var idAttr := Lookup(c, IdAttr);
    var generator := Lookup(c, IdGenerator);
    var args := Lookup(c, IdGeneratorArgs);
    var kwargs := Lookup(c, IdGeneratorKwargs);
    var retry := Lookup(c, RetryCreateOnConflict);
    if && collection.Some? && collection.value.CollectionName?
       && idAttr.Some? && idAttr.value.FieldName?
       && generator.Some? && generator.value.GeneratorValue?
       && args.Some? && args.value.ArgsValue?
       && kwargs.Some? && kwargs.value.KwargsValue?
       && retry.Some? && retry.value.FlagValue?
    then Some(Settings(
      collection.value.collection,
      idAttr.value.name,
      generator.value.generator,
      args.value.args,
      kwargs.value.kwargs,
      retry.value.flag))
    else None
  }

  /** Every accepted non-root declaration yields complete settings: it has an identity
      attribute, and every other attribute resolves to a value of its kind. */
  lemma DeclaredTypeHasSettings(decl: Declaration)
    requires forall i | 0 <= i < |decl.bases| && decl.bases[i].DocumentType? :: WellTyped(decl.bases[i].config)
    requires decl.firestore.Block? ==> WellTyped(decl.firestore.layer)
    requires Declare(decl, true).Success?
    ensures SettingsOf(Declare(decl, true).value).Some?
  {
    BaseConfigWellTyped(decl.bases, true);
    InheritConfigWellTyped(OwnLayer(decl.firestore), BaseConfig(decl.bases, true));
    var c := Declare(decl, true).value;
    assert WellTyped(c) && IdAttr in c;
    IdentifiedLayerHasSettings(c);
  }

  /** A well-typed layer that names an identity attribute resolves every setting: the
      others fall back to FirestoreConfig's values. */
  lemma IdentifiedLayerHasSettings(c: Layer)
    requires WellTyped(c) && IdAttr in c
    ensures SettingsOf(c).Some?
  {
  }

  /** `Document` itself: a base that is not a document type, FirestoreConfig itself as its
      `Firestore` entry, no annotations. It is accepted and adds nothing. */
  lemma RootDeclaration(name: string)
    ensures Declare(Declaration(name, [OtherClass], ConfigRoot, []), false) == Success(map[])
  {
  }
}
