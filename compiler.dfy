/**
 * The attribute-driven mapping compiler as functions. Each function performs one
 * step of `AttributeSearchMappingBuilder` on explicit state: the two depth counters
 * and the set of types being processed go in as a `State` and come back out in a
 * `Step`. The builder class in builder.dfy runs the same steps imperatively and is
 * proved equal to these functions.
 */
module MappingCompiler {
  import opened Wrappers
  import opened Int32
  import opened TypeModel
  import opened MappingModel

  /** The exceptions the compiler throws. */
  datatype BuildError =
    | NotAnAnalyzer(analyzerType: TypeId)
    | AnalyzerInstantiationFailed(analyzerType: TypeId)
    | UnsupportedMember(kind: MemberKind)
    | BridgeNotTwoWay(member: string)
    | CircularReference(elementType: TypeId, rootType: TypeId, path: string)
    | DuplicateParameter(bridge: string, parameter: string)
    | OutOfFuel

  /** An error the compiler logs and then goes on. */
  datatype Diagnostic =
    | ParameterNeedsOwner(declaringType: TypeId, parameter: ParameterDefinition)
    | NoMatchingOwner(declaringType: TypeId, parameter: ParameterDefinition)

  /** The builder's `level` and `maxLevel` fields and the context's `Processed` set. */
  datatype State = State(level: Int32, maxLevel: Int32, processed: set<TypeId>)

  /** The state after a step, and the mapping it built or the exception it threw. */
  datatype Step = Step(st: State, result: Result<DocumentMapping, BuildError>)

  // ---------------------------------------------------------------------------
  // Pure helpers

  /** `GetAttributeName`: the explicit name unless it is null or empty, else the member's name. */
  function AttributeName(memberName: string, name: string): (r: string)
    ensures name != "" ==> r == name
    ensures name == "" ==> r == memberName
  {
    if name != "" then name else memberName
  }

  /** `documentId.Name ?? member.Name`: an empty (non-null) explicit name is kept. */
  function DocumentIdName(m: Member): (r: string)
    requires m.documentId.Some?
    ensures m.documentId.value.name.Some? ==> r == m.documentId.value.name.value
    ensures m.documentId.value.name.None? ==> r == m.name
  {
    m.documentId.value.name.GetOr(m.name)
  }

  /** `GetGetterFast`: a getter bound to the mapped type for a property or a field; any other member is refused. */
  function GetGetterFast(t: TypeId, m: Member): (r: Result<Getter, BuildError>)
    ensures r.Err? <==> m.kind == OtherMember
    ensures r.Err? ==> r.error == UnsupportedMember(m.kind)
    ensures m.kind == Property ==> r == Ok(BasicGetter(t, m.name))
    ensures m.kind == Field ==> r == Ok(FieldGetter(t, m.name))
  {
    match m.kind
    case Property => Ok(BasicGetter(t, m.name))
    case Field => Ok(FieldGetter(t, m.name))
    case OtherMember => Err(UnsupportedMember(m.kind))
  }

  /**
   * `GetAnalyzerByType`: no type gives no analyzer; otherwise an instance is created,
   * and both a failing constructor and a type that is not an analyzer (the cast inside
   * the same `try`) end in the instantiation error.
   */
  function GetAnalyzerByType(g: TypeGraph, analyzerType: Option<TypeId>): (r: Result<Option<Analyzer>, BuildError>)
    ensures analyzerType.None? ==> r == Ok(None)
    ensures analyzerType.Some? ==>
      (r.Ok? <==> g.info(analyzerType.value).constructible && g.info(analyzerType.value).isAnalyzer)
    ensures analyzerType.Some? && r.Ok? ==> r.value == Some(AnalyzerInstance(analyzerType.value))
    ensures analyzerType.Some? && r.Err? ==> r.error == AnalyzerInstantiationFailed(analyzerType.value)
  {
    match analyzerType
    case None => Ok(None)
    case Some(t) =>
      if g.info(t).constructible && g.info(t).isAnalyzer then Ok(Some(AnalyzerInstance(t)))
      else Err(AnalyzerInstantiationFailed(t))
  }

  /**
   * `GetAnalyzer` on a member or a type whose `[Analyzer]` attribute names `analyzerType`:
   * a type that is not an analyzer is refused before any instantiation is tried.
   */
  function GetAnalyzer(g: TypeGraph, analyzerType: Option<TypeId>): (r: Result<Option<Analyzer>, BuildError>)
    ensures analyzerType.None? ==> r == Ok(None)
    ensures analyzerType.Some? && !g.info(analyzerType.value).isAnalyzer ==>
      r == Err(NotAnAnalyzer(analyzerType.value))
    ensures analyzerType.Some? && g.info(analyzerType.value).isAnalyzer ==>
      r == GetAnalyzerByType(g, analyzerType)
  {
    match analyzerType
    case None => Ok(None)
    case Some(t) =>
      if !g.info(t).isAnalyzer then Err(NotAnAnalyzer(t)) else GetAnalyzerByType(g, analyzerType)
  }

  /** `GetMemberTypeOrGenericArguments`: the last generic argument of a generic member type, else the type. */
  function MemberTypeOrGenericArguments(g: TypeGraph, m: Member): (r: TypeId)
    requires Valid(g)
    ensures g.info(m.memberType).isGeneric ==> r == g.info(m.memberType).genericArguments[|g.info(m.memberType).genericArguments| - 1]
    ensures !g.info(m.memberType).isGeneric ==> r == m.memberType
  {
    var info := g.info(m.memberType);
    if info.isGeneric then info.genericArguments[|info.genericArguments| - 1] else m.memberType
  }

  /** `GetMemberTypeOrGenericCollectionType`: the generic definition of a generic member type, else the type. */
  function MemberTypeOrGenericCollectionType(g: TypeGraph, m: Member): (r: TypeId)
    ensures g.info(m.memberType).isGeneric ==> r == g.info(m.memberType).genericDefinition
    ensures !g.info(m.memberType).isGeneric ==> r == m.memberType
  {
    var info := g.info(m.memberType);
    if info.isGeneric then info.genericDefinition else m.memberType
  }

  /** The type an embedding expands and pushes: `TargetElement ?? GetMemberTypeOrGenericArguments(member)`. */
  function ElementType(g: TypeGraph, m: Member): (r: TypeId)
    requires Valid(g) && m.embedded.Some?
    ensures m.embedded.value.targetElement.Some? ==> r == m.embedded.value.targetElement.value
    ensures m.embedded.value.targetElement.None? ==> r == MemberTypeOrGenericArguments(g, m)
  {
    m.embedded.value.targetElement.GetOr(MemberTypeOrGenericArguments(g, m))
  }

  /** `IsCollection` of an embedding: `IEnumerable` is assignable from the generic definition or the type. */
  predicate IsCollection(g: TypeGraph, m: Member) {
    g.info(MemberTypeOrGenericCollectionType(g, m)).isEnumerable
  }

  /** The prefix of an embedding: the sentinel "." becomes `<member name>.`; anything else is kept. */
  function LocalPrefix(memberName: string, prefix: string): (r: string)
    ensures prefix == "." ==> r == memberName + "."
    ensures prefix != "." ==> r == prefix
  {
    if prefix == "." then memberName + "." else prefix
  }

  /**
   * `Depth + level` in unchecked `int` arithmetic, with a negative sum read as unlimited.
   * An unlimited depth (`int.MaxValue`) overflows for any level above 0 and comes back as unlimited.
   */
  function PotentialLevel(depth: Int32, level: Int32): (r: Int32)
    ensures r >= 0
    ensures 0 <= depth + level <= MaxValue ==> r == depth + level
    ensures MinValue <= depth + level < 0 ==> r == MaxValue
    ensures depth + level > MaxValue ==> r == MaxValue
    ensures depth + level < MinValue ==> r == depth + level + Modulus
  {
    var p := Add(depth, level);
    if p < 0 then MaxValue else p
  }

  /** The smaller of two counters (`potentialLevel > maxLevel ? maxLevel : potentialLevel`). */
  function Min(a: Int32, b: Int32): (r: Int32)
    ensures r <= a && r <= b && (r == a || r == b)
  {
    if a > b then b else a
  }

  // ---------------------------------------------------------------------------
  // The inheritance chain

  /** The chain from `t` up through its base types, stopping before `object` or at a type without a base. */
  function Hierarchy(g: TypeGraph, t: TypeId): (h: seq<TypeId>)
    requires Valid(g)
    decreases t
  {
    match g.info(t).baseType
    case None => [t]
    case Some(b) => if b == g.objectType then [t] else [t] + Hierarchy(g, b)
  }

  // ---------------------------------------------------------------------------
  // Class bridge parameters

  /** The index of the first class bridge named `owner`. */
  function FirstOwner(bridges: seq<ClassBridgeDefinition>, owner: string): (r: Option<nat>)
    ensures r.Some? ==> r.value < |bridges| && bridges[r.value].name == owner
    ensures r.Some? ==> forall j :: 0 <= j < r.value ==> bridges[j].name != owner
    ensures r.None? ==> forall j :: 0 <= j < |bridges| ==> bridges[j].name != owner
  {
    if bridges == [] then None
    else if bridges[0].name == owner then Some(0)
    else match FirstOwner(bridges[1..], owner)
      case None => None
      case Some(i) => Some(i + 1)
  }

  /** `bridges[i].Parameters.Add(p.Name, p.Value)`: a name already present makes `Add` throw. */
  function AddParameter(bridges: seq<ClassBridgeDefinition>, i: nat, p: ParameterDefinition)
    : (r: Result<seq<ClassBridgeDefinition>, BuildError>)
    requires i < |bridges|
    ensures r.Err? <==> p.name in bridges[i].parameters
    ensures r.Err? ==> r.error == DuplicateParameter(bridges[i].name, p.name)
    ensures r.Ok? ==>
      && |r.value| == |bridges|
      && (forall j :: 0 <= j < |bridges| && j != i ==> r.value[j] == bridges[j])
      && r.value[i].parameters == bridges[i].parameters[p.name := p.value]
      && r.value[i] == bridges[i].(parameters := r.value[i].parameters)
  {
    if p.name in bridges[i].parameters then Err(DuplicateParameter(bridges[i].name, p.name))
    else Ok(bridges[i := bridges[i].(parameters := bridges[i].parameters[p.name := p.value])])
  }

  /** The outcome of assigning parameters: the updated class bridges and the log lines written. */
  datatype Assignment = Assignment(bridges: seq<ClassBridgeDefinition>, log: seq<Diagnostic>)

  /**
   * `GetClassBridgeParameters` for the parameters `ps[i..]` declared on type `t`, starting
   * from `bridges` with `log` written so far.
   */
  function AssignParameters(
    t: TypeId, fieldBridgeExists: bool, ps: seq<ParameterDefinition>, i: nat,
    bridges: seq<ClassBridgeDefinition>, log: seq<Diagnostic>)
    : Result<Assignment, BuildError>
    requires i <= |ps|
    decreases |ps| - i
  {
    if i == |ps| then Ok(Assignment(bridges, log))
    else
      var p := ps[i];
      if p.owner == "" then
        if fieldBridgeExists then AssignParameters(t, fieldBridgeExists, ps, i + 1, bridges, log)
        else if |bridges| == 1 then
          match AddParameter(bridges, 0, p)
          case Err(e) => Err(e)
          case Ok(b) => AssignParameters(t, fieldBridgeExists, ps, i + 1, b, log)
        else AssignParameters(t, fieldBridgeExists, ps, i + 1, bridges, log + [ParameterNeedsOwner(t, p)])
      else
        match FirstOwner(bridges, p.owner)
        case None => AssignParameters(t, fieldBridgeExists, ps, i + 1, bridges, log + [NoMatchingOwner(t, p)])
        case Some(j) =>
          match AddParameter(bridges, j, p)
          case Err(e) => Err(e)
          case Ok(b) => AssignParameters(t, fieldBridgeExists, ps, i + 1, b, log)
  }

  // ---------------------------------------------------------------------------
  // Class bridges

  /** `BuildClassBridge`: the definition's own analyzer if it names one, else the class-level analyzer. */
  function BuildClassBridge(g: TypeGraph, def: ClassBridgeDefinition, parentAnalyzer: Option<Analyzer>)
    : (r: Result<ClassBridgeMapping, BuildError>)
    ensures r.Err? <==> GetAnalyzerByType(g, def.analyzer).Err?
    ensures r.Err? ==> r.error == AnalyzerInstantiationFailed(def.analyzer.value)
    ensures r.Ok? ==>
      && r.value.name == def.name && r.value.bridgeType == def.bridgeType && r.value.parameters == def.parameters
      && r.value.boost == def.boost && r.value.index == def.index && r.value.store == def.store
      && (def.analyzer.None? ==> r.value.analyzer == parentAnalyzer)
      && (def.analyzer.Some? ==> r.value.analyzer == Some(AnalyzerInstance(def.analyzer.value)))
  {
    match GetAnalyzerByType(g, def.analyzer)
    case Err(e) => Err(e)
    case Ok(a) =>
      Ok(ClassBridgeMapping(def.name, def.bridgeType, def.parameters, def.boost,
                            if a.Some? then a else parentAnalyzer, def.index, def.store))
  }

  /** Appends the class bridges built from `defs[i..]` to `dm`. */
  function AddClassBridges(
    g: TypeGraph, dm: DocumentMapping, defs: seq<ClassBridgeDefinition>, i: nat, analyzer: Option<Analyzer>)
    : Result<DocumentMapping, BuildError>
    requires i <= |defs|
    decreases |defs| - i
  {
    if i == |defs| then Ok(dm)
    else match BuildClassBridge(g, defs[i], analyzer)
      case Err(e) => Err(e)
      case Ok(b) => AddClassBridges(g, dm.(classBridges := dm.classBridges + [b]), defs, i + 1, analyzer)
  }

  // ---------------------------------------------------------------------------
  // Members

  /** The document id part of `BuildProperty`. */
  function BuildDocumentId(dm: DocumentMapping, m: Member, getter: Getter, boost: Option<Boost>, isRoot: bool)
    : Result<DocumentMapping, BuildError>
  {
    if m.documentId.None? then Ok(dm)
    else
      var idName := DocumentIdName(m);
      if isRoot then
        if !m.bridge.isTwoWay then Err(BridgeNotTwoWay(m.name))
        else Ok(dm.(documentId := Some(DocumentIdMapping(idName, m.name, m.bridge, getter, boost))))
      else
        Ok(dm.(fields := dm.fields + [FieldMapping(AttributeName(m.name, idName), m.bridge, getter,
                                                   StoreYes, UnTokenized, boost, None)]))
  }

  /** Appends one field mapping per `[Field]` attribute in `m.fields[i..]`, in attribute order. */
  function BuildFields(g: TypeGraph, dm: DocumentMapping, m: Member, getter: Getter, analyzer: Option<Analyzer>, i: nat)
    : Result<DocumentMapping, BuildError>
    requires i <= |m.fields|
    decreases |m.fields| - i
  {
    if i == |m.fields| then Ok(dm)
    else
      var fa := m.fields[i];
      match GetAnalyzerByType(g, fa.analyzer)
      case Err(e) => Err(e)
      case Ok(a) =>
        var field := FieldMapping(AttributeName(m.name, fa.name), m.bridge, getter, fa.store, fa.index,
                                  None, if a.Some? then a else analyzer);
        BuildFields(g, dm.(fields := dm.fields + [field]), m, getter, analyzer, i + 1)
  }

  /** `BuildClass`: every level of the mapped type's chain, base type first. */
  function BuildClassF(
    g: TypeGraph, fuel: nat, dm: DocumentMapping, isRoot: bool, path: string, root: TypeId, st: State)
    : Step
    requires Valid(g)
    decreases fuel, 5, 0
  {
    var h := Hierarchy(g, dm.mappedClass);
    BuildLevelsF(g, fuel, dm, h, |h|, isRoot, path, root, st)
  }

  /** The levels `h[k-1]`, `h[k-2]`, ..., `h[0]`, in that order. */
  function BuildLevelsF(
    g: TypeGraph, fuel: nat, dm: DocumentMapping, h: seq<TypeId>, k: nat,
    isRoot: bool, path: string, root: TypeId, st: State)
    : Step
    requires Valid(g) && k <= |h|
    decreases fuel, 4, k
  {
    if k == 0 then Step(st, Ok(dm))
    else
      var s := BuildLevelF(g, fuel, dm, h[k - 1], isRoot, path, root, st);
      if s.result.Err? then s
      else BuildLevelsF(g, fuel, s.result.value, h, k - 1, isRoot, path, root, s.st)
  }

  /** One level `t` of the chain: its analyzer, its class bridges, then its properties and its fields. */
  function BuildLevelF(
    g: TypeGraph, fuel: nat, dm: DocumentMapping, t: TypeId,
    isRoot: bool, path: string, root: TypeId, st: State)
    : Step
    requires Valid(g)
    decreases fuel, 3, 0
  {
    var info := g.info(t);
    match GetAnalyzer(g, info.analyzer)
    case Err(e) => Step(st, Err(e))
    case Ok(local) =>
      var analyzer := if dm.analyzer.Some? then dm.analyzer else local;
      match AssignParameters(t, info.hasFieldBridge, info.bridgeParameters, 0, info.classBridges, [])
      case Err(e) => Step(st, Err(e))
      case Ok(withParameters) =>
        match AddClassBridges(g, dm, withParameters.bridges, 0, analyzer)
        case Err(e) => Step(st, Err(e))
        case Ok(dm1) =>
          var s := BuildMembersF(g, fuel, dm1, info.properties, 0, analyzer, isRoot, path, root, st);
          if s.result.Err? then s
          else BuildMembersF(g, fuel, s.result.value, info.fields, 0, analyzer, isRoot, path, root, s.st)
  }

  /** `BuildProperty` for each of `ms[i..]` in order. */
  function BuildMembersF(
    g: TypeGraph, fuel: nat, dm: DocumentMapping, ms: seq<Member>, i: nat, analyzer: Option<Analyzer>,
    isRoot: bool, path: string, root: TypeId, st: State)
    : Step
    requires Valid(g) && i <= |ms|
    decreases fuel, 2, |ms| - i
  {
    if i == |ms| then Step(st, Ok(dm))
    else
      var s := BuildPropertyF(g, fuel, dm, ms[i], analyzer, isRoot, path, root, st);
      if s.result.Err? then s
      else BuildMembersF(g, fuel, s.result.value, ms, i + 1, analyzer, isRoot, path, root, s.st)
  }

  /** `BuildProperty`: analyzer, getter, document id, fields, embedding, contained-in, in that order. */
  function BuildPropertyF(
    g: TypeGraph, fuel: nat, dm: DocumentMapping, m: Member, parentAnalyzer: Option<Analyzer>,
    isRoot: bool, path: string, root: TypeId, st: State)
    : Step
    requires Valid(g)
    decreases fuel, 1, 0
  {
    match GetAnalyzer(g, m.analyzer)
    case Err(e) => Step(st, Err(e))
    case Ok(a) =>
      var analyzer := if a.Some? then a else parentAnalyzer;
      match GetGetterFast(dm.mappedClass, m)
      case Err(e) => Step(st, Err(e))
      case Ok(getter) =>
        match BuildDocumentId(dm, m, getter, m.boost, isRoot)
        case Err(e) => Step(st, Err(e))
        case Ok(dm1) =>
          match BuildFields(g, dm1, m, getter, analyzer, 0)
          case Err(e) => Step(st, Err(e))
          case Ok(dm2) =>
            var s := BuildEmbeddedF(g, fuel, dm2, m, getter, analyzer, path, root, st);
            if s.result.Err? || !m.containedIn then s
            else Step(s.st, Ok(s.result.value.(containedIn := s.result.value.containedIn + [ContainedInMapping(getter)])))
  }

  /**
   * The `[IndexedEmbedded]` part of `BuildProperty`. `analyzer` is `GetAnalyzer(member) ?? parentAnalyzer`,
   * already computed for the member. The counters are tightened and raised, the cycle check runs, the
   * element type is pushed, expanded and the collection type popped, and the counters are put back.
   * An exception leaves the counters as they were when it was thrown.
   */
  function BuildEmbeddedF(
    g: TypeGraph, fuel: nat, dm: DocumentMapping, m: Member, getter: Getter, analyzer: Option<Analyzer>,
    path: string, root: TypeId, st: State)
    : Step
    requires Valid(g)
    decreases fuel, 0, 0
  {
    if m.embedded.None? then Step(st, Ok(dm))
    else
      var e := m.embedded.value;
      var maxLevel := Min(PotentialLevel(e.depth, st.level), st.maxLevel);
      var level := Add(st.level, 1);
      var elementType := ElementType(g, m);
      var localPrefix := LocalPrefix(m.name, e.prefix);
      if maxLevel == MaxValue && elementType in st.processed then
        Step(State(level, maxLevel, st.processed), Err(CircularReference(elementType, root, path + localPrefix)))
      else if level <= maxLevel then
        if fuel == 0 then Step(State(level, maxLevel, st.processed), Err(OutOfFuel))
        else
          var child := NewMapping(elementType).(boost := m.boost, analyzer := analyzer);
          var s := BuildClassF(g, fuel - 1, child, false, path + localPrefix, root,
                               State(level, maxLevel, st.processed + {elementType}));
          if s.result.Err? then s
          else
            var actualFieldType := MemberTypeOrGenericCollectionType(g, m);
            var embedded := EmbeddedMapping(s.result.value, getter, localPrefix, IsCollection(g, m));
            Step(State(Add(s.st.level, -1), st.maxLevel, s.st.processed - {actualFieldType}),
                 Ok(dm.(embedded := dm.embedded + [embedded])))
      else
        Step(State(Add(level, -1), st.maxLevel, st.processed), Ok(dm))
  }

  /** The root mapping before `BuildClass`: boost and index name from the type. */
  function RootMapping(g: TypeGraph, t: TypeId): (dm: DocumentMapping)
    ensures dm == NewMapping(t).(boost := g.info(t).boost, indexName := Some(g.info(t).indexName))
  {
    NewMapping(t).(boost := g.info(t).boost, indexName := Some(g.info(t).indexName))
  }

  /** `Build`: the root mapping, with `Processed` seeded with the root type, then its filter definitions. */
  function BuildF(g: TypeGraph, fuel: nat, t: TypeId, level: Int32, maxLevel: Int32): Step
    requires Valid(g)
  {
    var s := BuildClassF(g, fuel, RootMapping(g, t), true, "", t, State(level, maxLevel, {t}));
    if s.result.Err? then s
    else
      var dm := s.result.value;
      Step(s.st, Ok(dm.(filters := dm.filters + g.info(dm.mappedClass).filters)))
  }
}
