/** The output of the compiler: a tree of document mappings. */
module MappingModel {
  import opened Wrappers
  import opened TypeModel

  /** The read capability for a member: `BasicGetter` for a property, `FieldGetter` for a field. */
  datatype Getter = BasicGetter(owner: TypeId, property: string) | FieldGetter(owner: TypeId, field: string)

  /** An analyzer instance, created from its type. */
  datatype Analyzer = AnalyzerInstance(analyzerType: TypeId)

  datatype FieldMapping = FieldMapping(
    name: string,
    bridge: FieldBridge,
    getter: Getter,
    store: Store,
    index: Index,
    boost: Option<Boost>,
    analyzer: Option<Analyzer>)

  datatype DocumentIdMapping = DocumentIdMapping(
    name: string,
    propertyName: string,
    bridge: FieldBridge,
    getter: Getter,
    boost: Option<Boost>)

  /** A class bridge; `bridgeType` and `parameters` are what the bridge factory is handed to create it. */
  datatype ClassBridgeMapping = ClassBridgeMapping(
    name: string,
    bridgeType: TypeId,
    parameters: map<string, ParameterValue>,
    boost: Option<Boost>,
    analyzer: Option<Analyzer>,
    index: Index,
    store: Store)

  datatype ContainedInMapping = ContainedInMapping(getter: Getter)

  datatype DocumentMapping = DocumentMapping(
    mappedClass: TypeId,
    indexName: Option<string>,
    boost: Option<Boost>,
    analyzer: Option<Analyzer>,
    documentId: Option<DocumentIdMapping>,
    fields: seq<FieldMapping>,
    embedded: seq<EmbeddedMapping>,
    classBridges: seq<ClassBridgeMapping>,
    containedIn: seq<ContainedInMapping>,
    filters: seq<FilterDefinition>)

  datatype EmbeddedMapping = EmbeddedMapping(
    mapping: DocumentMapping,
    getter: Getter,
    prefix: string,
    isCollection: bool)

  /** `new DocumentMapping(type)`: nothing mapped yet. */
  function NewMapping(t: TypeId): (dm: DocumentMapping)
    ensures dm.mappedClass == t && dm.documentId.None? && dm.analyzer.None? && dm.boost.None?
    ensures dm.fields == [] && dm.embedded == [] && dm.classBridges == [] && dm.containedIn == [] && dm.filters == []
  {
    DocumentMapping(t, None, None, None, None, [], [], [], [], [])
  }

  /** The number of nested embedding levels below a mapping. */
  function Height(dm: DocumentMapping): nat
    decreases dm, 1
  {
    EmbeddedHeight(dm.embedded)
  }

  /** The largest `1 + Height` over a sequence of embedded mappings (0 for none). */
  function EmbeddedHeight(es: seq<EmbeddedMapping>): nat
    decreases es, 0
  {
    if es == [] then 0
    else
      var last := es[|es| - 1];
      var h := 1 + Height(last.mapping);
      var rest := EmbeddedHeight(es[..|es| - 1]);
      if h > rest then h else rest
  }
}
