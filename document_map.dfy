/**
 * The fluent declaration surface `DocumentMap<T>`: a mutable builder that records the
 * index name, the document id member, per-type boost and analyzer entries, and an
 * ordered list of class bridge parts.
 */
module FluentMapping {
  import opened Wrappers
  import opened TypeModel

  /** The `MemberInfo` an expression such as `x => x.Id` designates. */
  datatype MemberRef = MemberRef(declaringType: TypeId, name: string)

  /** A key of the boost and analyzer dictionaries (`ICustomAttributeProvider`): a type or a member. */
  datatype AttributeProvider = TypeProvider(t: TypeId) | MemberProvider(member: MemberRef)

  datatype FluentError = FluentMappingException(message: string) | NotImplemented

  /** `ClassBridgePart<T>`: created for one bridge type; its definition is what `ClassBridges` exposes. */
  class ClassBridgePart {
    const bridgeType: TypeId
    var definition: ClassBridgeDefinition

    constructor(bridgeType: TypeId)
      ensures this.bridgeType == bridgeType
      ensures definition.bridgeType == bridgeType && definition.parameters == map[]
    {
      this.bridgeType := bridgeType;
      definition := ClassBridgeDefinition("", bridgeType, None, None, Tokenized, StoreNo, map[]);
    }
  }

  /** The definitions of `parts`, one per part, in order (`Select(b => b.BridgeDefinition)`). */
  function Definitions(parts: seq<ClassBridgePart>): (r: seq<ClassBridgeDefinition>)
    reads parts
    ensures |r| == |parts|
    ensures forall i :: 0 <= i < |parts| ==> r[i] == parts[i].definition
  {
    if parts == [] then [] else Definitions(parts[..|parts| - 1]) + [parts[|parts| - 1].definition]
  }

  class DocumentMap {
    /** `typeof(T)`. */
    const documentType: TypeId
    var name: string
    var idProperty: Option<MemberRef>
    var boostValues: map<AttributeProvider, Option<Boost>>
    var analyzers: map<AttributeProvider, Option<TypeId>>
    var classBridges: seq<ClassBridgePart>

    /** The index name starts as the type's name; nothing else is declared yet. */
    constructor(g: TypeGraph, t: TypeId)
      ensures documentType == t && name == g.info(t).name && idProperty.None?
      ensures boostValues == map[] && analyzers == map[] && classBridges == []
    {
      documentType := t;
      name := g.info(t).name;
      idProperty := None;
      boostValues := map[];
      analyzers := map[];
      classBridges := [];
    }

    /** The `ClassBridges` getter: a fresh list of the parts' definitions, in insertion order. */
    function ClassBridges(): (r: seq<ClassBridgeDefinition>)
      reads this, classBridges
      ensures |r| == |classBridges|
      ensures forall i :: 0 <= i < |classBridges| ==> r[i] == classBridges[i].definition
    {
      Definitions(classBridges)
    }

    /** The `FieldMappings` getter always throws. */
    function FieldMappings(): (r: Result<map<MemberRef, seq<FieldAttribute>>, FluentError>)
      ensures r == Err(NotImplemented)
    {
      Err(NotImplemented)
    }

    /** The `AnalyzerType` getter: the entry stored for `typeof(T)`, or null when there is none. */
    function AnalyzerType(): (r: Option<TypeId>)
      reads this
      ensures TypeProvider(documentType) in analyzers ==> r == analyzers[TypeProvider(documentType)]
      ensures TypeProvider(documentType) !in analyzers ==> r.None?
    {
      if TypeProvider(documentType) in analyzers then analyzers[TypeProvider(documentType)] else None
    }

    /** The `AnalyzerType` setter overwrites the single entry for `typeof(T)`. */
    method SetAnalyzerType(value: Option<TypeId>)
      modifies this
      ensures analyzers == old(analyzers)[TypeProvider(documentType) := value]
      ensures name == old(name) && idProperty == old(idProperty)
      ensures boostValues == old(boostValues) && classBridges == old(classBridges)
    {
      analyzers := analyzers[TypeProvider(documentType) := value];
    }

    /** `Name(indexName)` replaces the index name. */
    method Name(indexName: string)
      modifies this
      ensures name == indexName
      ensures idProperty == old(idProperty) && boostValues == old(boostValues)
      ensures analyzers == old(analyzers) && classBridges == old(classBridges)
    {
      name := indexName;
    }

    /** `Id(property)`: sets the document id member, and throws if one is already set. */
    method Id(property: MemberRef) returns (r: Result<(), FluentError>)
      modifies this
      ensures old(idProperty).Some? ==> r == Err(FluentMappingException("Id can be set only once")) && idProperty == old(idProperty)
      ensures old(idProperty).None? ==> r == Ok(()) && idProperty == Some(property)
      ensures name == old(name) && boostValues == old(boostValues)
      ensures analyzers == old(analyzers) && classBridges == old(classBridges)
    {
      if idProperty.Some? {
        return Err(FluentMappingException("Id can be set only once"));
      }
      idProperty := Some(property);
      r := Ok(());
    }

    /** `Boost(boost)` stores the boost for `typeof(T)`, replacing any earlier one. */
    method Boost(boost: TypeModel.Boost)
      modifies this
      ensures boostValues == old(boostValues)[TypeProvider(documentType) := Some(boost)]
      ensures name == old(name) && idProperty == old(idProperty)
      ensures analyzers == old(analyzers) && classBridges == old(classBridges)
    {
      boostValues := boostValues[TypeProvider(documentType) := Some(boost)];
    }

    /** `Bridge<TBridge>()` appends one new part for `bridgeType` and returns it. */
    method Bridge(bridgeType: TypeId) returns (part: ClassBridgePart)
      modifies this
      ensures fresh(part) && part.bridgeType == bridgeType
      ensures part.definition.bridgeType == bridgeType && part.definition.parameters == map[]
      ensures classBridges == old(classBridges) + [part]
      ensures name == old(name) && idProperty == old(idProperty)
      ensures boostValues == old(boostValues) && analyzers == old(analyzers)
    {
      part := new ClassBridgePart(bridgeType);
      classBridges := classBridges + [part];
    }
  }

  /** A second `Id` call fails and leaves the first member in place. */
  method IdIsSetOnlyOnce(g: TypeGraph, t: TypeId, first: MemberRef, second: MemberRef)
    returns (r1: Result<(), FluentError>, r2: Result<(), FluentError>, id: Option<MemberRef>)
    ensures r1 == Ok(())
    ensures r2 == Err(FluentMappingException("Id can be set only once"))
    ensures id == Some(first)
  {
    var documentMap := new DocumentMap(g, t);
    r1 := documentMap.Id(first);
    r2 := documentMap.Id(second);
    id := documentMap.idProperty;
  }

  /** Boost and analyzer entries for the document type: the last write wins and the getter reads it back. */
  method LastWriteWins(g: TypeGraph, t: TypeId, b1: Boost, b2: Boost, a1: Option<TypeId>, a2: Option<TypeId>)
    returns (boosts: map<AttributeProvider, Option<Boost>>, before: Option<TypeId>, after: Option<TypeId>)
    ensures boosts == map[TypeProvider(t) := Some(b2)]
    ensures before.None? && after == a2
  {
    var documentMap := new DocumentMap(g, t);
    before := documentMap.AnalyzerType();
    documentMap.Boost(b1);
    documentMap.Boost(b2);
    documentMap.SetAnalyzerType(a1);
    documentMap.SetAnalyzerType(a2);
    boosts := documentMap.boostValues;
    after := documentMap.AnalyzerType();
  }

  /** Two `Bridge` calls: `ClassBridges` lists the two definitions in call order, and the first part is untouched. */
  method BridgesInOrder(g: TypeGraph, t: TypeId, bridge1: TypeId, bridge2: TypeId)
    returns (definitions: seq<ClassBridgeDefinition>, sameFirst: bool)
    ensures |definitions| == 2
    ensures definitions[0].bridgeType == bridge1 && definitions[1].bridgeType == bridge2
    ensures sameFirst
  {
    var documentMap := new DocumentMap(g, t);
    var p1 := documentMap.Bridge(bridge1);
    var p2 := documentMap.Bridge(bridge2);
    definitions := documentMap.ClassBridges();
    sameFirst := documentMap.classBridges[0] == p1 && documentMap.classBridges[1] == p2;
  }
}
