/**
 * The finite type graph that replaces .NET reflection and the attribute-based
 * mapping definition: for every type, its base type, the properties and fields it
 * declares itself, its generic shape, and the class-level search metadata on it.
 */
module TypeModel {
  import opened Wrappers
  import opened Int32

  /** A type; types are numbered so that a base type has a smaller number than the types derived from it. */
  type TypeId = nat

  /** A boost (`float` in the source); carried along, never computed with. */
  type Boost = real

  /** The value of a bridge parameter (`object` in the source). */
  type ParameterValue = string

  /** Whether the raw value of a field is stored in the index. */
  datatype Store = StoreNo | StoreYes | StoreCompress

  /** How a field is indexed. */
  datatype Index = IndexNo | Tokenized | UnTokenized | NoNorms

  /** The field bridge that the bridge factory resolves for a member; only its two-way capability matters here. */
  datatype FieldBridge = FieldBridge(tag: nat, isTwoWay: bool)

  /** `[DocumentId]`: its optional explicit `Name` (null when not given). */
  datatype DocumentIdAttribute = DocumentIdAttribute(name: Option<string>)

  /** `[Field]`: name ("" stands for null or empty), store and index policy, optional analyzer type. */
  datatype FieldAttribute = FieldAttribute(name: string, store: Store, index: Index, analyzer: Option<TypeId>)

  /** `[IndexedEmbedded]`: depth bound, optional target element type, prefix ("." asks for `<member>.`). */
  datatype IndexedEmbeddedAttribute = IndexedEmbeddedAttribute(depth: Int32, targetElement: Option<TypeId>, prefix: string)

  /** A `PropertyInfo`, a `FieldInfo`, or any other kind of `MemberInfo`. */
  datatype MemberKind = Property | Field | OtherMember

  /** One declared member with the search attributes on it. `bridge` is what the bridge factory resolves for it. */
  datatype Member = Member(
    name: string,
    kind: MemberKind,
    memberType: TypeId,
    documentId: Option<DocumentIdAttribute>,
    fields: seq<FieldAttribute>,
    embedded: Option<IndexedEmbeddedAttribute>,
    containedIn: bool,
    analyzer: Option<TypeId>,
    boost: Option<Boost>,
    bridge: FieldBridge)

  /** A bridge parameter; `owner` is "" when it names no owner (null or empty in the source). */
  datatype ParameterDefinition = ParameterDefinition(name: string, value: ParameterValue, owner: string)

  /** A class bridge declaration on a type, with the parameters dictionary the builder fills in. */
  datatype ClassBridgeDefinition = ClassBridgeDefinition(
    name: string,
    bridgeType: TypeId,
    analyzer: Option<TypeId>,
    boost: Option<Boost>,
    index: Index,
    store: Store,
    parameters: map<string, ParameterValue>)

  /** A full-text filter declaration, carried over verbatim. */
  datatype FilterDefinition = FilterDefinition(name: string, implementation: TypeId, cache: bool)

  /**
   * What reflection and the mapping definition answer about one type.
   * `isEnumerable`: `typeof(IEnumerable).IsAssignableFrom(this type)`;
   * `isAnalyzer`: `typeof(Analyzer).IsAssignableFrom(this type)`;
   * `constructible`: `Activator.CreateInstance(this type)` succeeds.
   */
  datatype TypeInfo = TypeInfo(
    name: string,
    baseType: Option<TypeId>,
    properties: seq<Member>,
    fields: seq<Member>,
    isGeneric: bool,
    genericArguments: seq<TypeId>,
    genericDefinition: TypeId,
    isEnumerable: bool,
    isAnalyzer: bool,
    constructible: bool,
    indexName: string,
    boost: Option<Boost>,
    analyzer: Option<TypeId>,
    classBridges: seq<ClassBridgeDefinition>,
    hasFieldBridge: bool,
    bridgeParameters: seq<ParameterDefinition>,
    filters: seq<FilterDefinition>)

  /** All types, and which of them is `System.Object`. */
  datatype TypeGraph = TypeGraph(info: TypeId -> TypeInfo, objectType: TypeId)

  /** What the runtime guarantees: inheritance chains are finite and a generic type has type arguments. */
  ghost predicate Valid(g: TypeGraph) {
    forall t: TypeId ::
      && (g.info(t).baseType.Some? ==> g.info(t).baseType.value < t)
      && (g.info(t).isGeneric ==> |g.info(t).genericArguments| > 0)
  }
}
