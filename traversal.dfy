/**
 * What a successful build contains, stated against a reference walk of the members: the
 * levels of the inheritance chain base type first, each level's properties before its fields,
 * and each member contributing its document id field, its `[Field]` fields in attribute order,
 * its contained-in entry, and (on the root) the document id. Getters are bound to the mapped
 * type, not to the level that declares the member.
 */
module TraversalModel {
  import opened Wrappers
  import opened TypeModel
  import opened MappingModel
  import opened MappingCompiler
  import opened Int32

  /** What identifies a field mapping, apart from its analyzer and boost. */
  datatype FieldKey = FieldKey(name: string, store: Store, index: Index, bridge: FieldBridge, getter: Getter)

  /** What identifies a class bridge mapping, apart from its analyzer and parameters. */
  datatype BridgeKey = BridgeKey(name: string, bridgeType: TypeId, boost: Option<Boost>, index: Index, store: Store)

  function Keys(fs: seq<FieldMapping>): (r: seq<FieldKey>)
    ensures |r| == |fs|
  {
    seq(|fs|, i requires 0 <= i < |fs| => FieldKey(fs[i].name, fs[i].store, fs[i].index, fs[i].bridge, fs[i].getter))
  }

  function BridgeKeys(bs: seq<ClassBridgeMapping>): (r: seq<BridgeKey>)
    ensures |r| == |bs|
  {
    seq(|bs|, i requires 0 <= i < |bs| => BridgeKey(bs[i].name, bs[i].bridgeType, bs[i].boost, bs[i].index, bs[i].store))
  }

  /**
   * The same key read off the declared definitions, so that what a level declares can be compared
   * with the mappings the build produced from it: the two are different types with the same
   * identifying parts.
   */
  function DefinitionKeys(defs: seq<ClassBridgeDefinition>): (r: seq<BridgeKey>)
    ensures |r| == |defs|
  {
    seq(|defs|, i requires 0 <= i < |defs| => BridgeKey(defs[i].name, defs[i].bridgeType, defs[i].boost, defs[i].index, defs[i].store))
  }

  /** What identifies an embedded mapping, apart from the contents of the nested mapping. */
  datatype EmbeddedKey = EmbeddedKey(prefix: string, getter: Getter, isCollection: bool, elementType: TypeId)

  function EmbeddedKeys(es: seq<EmbeddedMapping>): (r: seq<EmbeddedKey>)
    ensures |r| == |es|
  {
    seq(|es|, i requires 0 <= i < |es| => EmbeddedKey(es[i].prefix, es[i].getter, es[i].isCollection, es[i].mapping.mappedClass))
  }

  /**
   * Whether the `[IndexedEmbedded]` attribute of `m` is expanded when the counters are `level` and
   * `maxLevel`: the raised level must not pass the tightened bound.
   */
  predicate Expands(m: Member, level: Int32, maxLevel: Int32)
    requires m.embedded.Some?
  {
    Add(level, 1) <= Min(PotentialLevel(m.embedded.value.depth, level), maxLevel)
  }

  /** The embedded entry member `m` of mapped type `t` contributes at counters `level` and `maxLevel`, if any. */
  function MemberEmbeds(g: TypeGraph, t: TypeId, m: Member, level: Int32, maxLevel: Int32): (r: seq<EmbeddedKey>)
    requires Valid(g)
  {
    if m.embedded.Some? && Expands(m, level, maxLevel)
    then [EmbeddedKey(LocalPrefix(m.name, m.embedded.value.prefix), MemberGetter(t, m), IsCollection(g, m), ElementType(g, m))]
    else []
  }

  /** The embedded entries of `ms` in order; a successful member puts the counters back, so every member sees the same ones. */
  function EmbedAll(g: TypeGraph, t: TypeId, level: Int32, maxLevel: Int32, ms: seq<Member>): seq<EmbeddedKey>
    requires Valid(g)
    decreases |ms|
  {
    if ms == [] then [] else MemberEmbeds(g, t, ms[0], level, maxLevel) + EmbedAll(g, t, level, maxLevel, ms[1..])
  }

  /** The getter a successful build binds for member `m` of mapped type `t`. */
  function MemberGetter(t: TypeId, m: Member): Getter {
    if m.kind == Property then BasicGetter(t, m.name) else FieldGetter(t, m.name)
  }

  /** One key per `[Field]` attribute of `m`, in attribute order. */
  function AttributeKeys(t: TypeId, m: Member): (r: seq<FieldKey>)
    ensures |r| == |m.fields|
  {
    seq(|m.fields|, i requires 0 <= i < |m.fields| =>
      FieldKey(AttributeName(m.name, m.fields[i].name), m.fields[i].store, m.fields[i].index, m.bridge, MemberGetter(t, m)))
  }

  /** Off the root, a document id member also becomes a stored, untokenized field. */
  function IdKeys(t: TypeId, m: Member, isRoot: bool): seq<FieldKey> {
    if m.documentId.Some? && !isRoot
    then [FieldKey(AttributeName(m.name, DocumentIdName(m)), StoreYes, UnTokenized, m.bridge, MemberGetter(t, m))]
    else []
  }

  /** The fields member `m` contributes: its id field, then its `[Field]` fields. */
  function MemberKeys(t: TypeId, m: Member, isRoot: bool): seq<FieldKey> {
    IdKeys(t, m, isRoot) + AttributeKeys(t, m)
  }

  /** On the root, a document id member replaces the document id. */
  function IdAfter(t: TypeId, m: Member, isRoot: bool, current: Option<DocumentIdMapping>): Option<DocumentIdMapping> {
    if isRoot && m.documentId.Some?
    then Some(DocumentIdMapping(DocumentIdName(m), m.name, m.bridge, MemberGetter(t, m), m.boost))
    else current
  }

  /** The part of a mapping the member walk determines. */
  datatype Outline = Outline(fields: seq<FieldKey>, containedIn: nat, documentId: Option<DocumentIdMapping>)

  function OutlineOf(dm: DocumentMapping): Outline {
    Outline(Keys(dm.fields), |dm.containedIn|, dm.documentId)
  }

  /** The reference effect of visiting member `m` of mapped type `t`; on the root, a later id member replaces an earlier one. */
  function Visit(t: TypeId, isRoot: bool, o: Outline, m: Member): Outline {
    Outline(
      o.fields + MemberKeys(t, m, isRoot),
      o.containedIn + (if m.containedIn then 1 else 0),
      IdAfter(t, m, isRoot, o.documentId))
  }

  /** Visiting `ms` in order. */
  function VisitAll(t: TypeId, isRoot: bool, o: Outline, ms: seq<Member>): Outline
    decreases |ms|
  {
    if ms == [] then o else VisitAll(t, isRoot, Visit(t, isRoot, o, ms[0]), ms[1..])
  }

  /** The members of the levels `h[k-1]`, ..., `h[0]`, each level's properties before its fields. */
  function LevelMembers(g: TypeGraph, h: seq<TypeId>, k: nat): seq<Member>
    requires k <= |h|
  {
    if k == 0 then [] else g.info(h[k - 1]).properties + g.info(h[k - 1]).fields + LevelMembers(g, h, k - 1)
  }

  /** The class bridges declared on the levels `h[k-1]`, ..., `h[0]`. */
  function LevelBridges(g: TypeGraph, h: seq<TypeId>, k: nat): seq<BridgeKey>
    requires k <= |h|
  {
    if k == 0 then [] else DefinitionKeys(g.info(h[k - 1]).classBridges) + LevelBridges(g, h, k - 1)
  }

  /** Every member of `t` and of its base types up to `object`, base type first. */
  function TraversalMembers(g: TypeGraph, t: TypeId): seq<Member>
    requires Valid(g)
  {
    var h := Hierarchy(g, t);
    LevelMembers(g, h, |h|)
  }

  function TraversalBridges(g: TypeGraph, t: TypeId): seq<BridgeKey>
    requires Valid(g)
  {
    var h := Hierarchy(g, t);
    LevelBridges(g, h, |h|)
  }
}
