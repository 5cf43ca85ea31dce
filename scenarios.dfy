/**
 * Lemmas about concrete type graphs: a type embedding itself, without and with a depth limit,
 * and a contact embedding addresses directly and through a list.
 */
module Scenarios {
  import opened Wrappers
  import opened Int32
  import opened TypeModel
  import opened MappingModel
  import opened MappingCompiler

  const ObjectType: TypeId := 0
  const NodeType: TypeId := 1

  /** A type with no members, attributes or bridges. */
  function Plain(name: string, baseType: Option<TypeId>): TypeInfo {
    TypeInfo(name, baseType, [], [], false, [], 0, false, false, true, name, None, None, [], false, [], [])
  }

  function NoBridge(): FieldBridge { FieldBridge(0, false) }

  /** `Node.Parent` of type `Node`, marked `[IndexedEmbedded(Depth = depth)]`. */
  function ParentMember(depth: Int32): Member {
    Member("Parent", Property, NodeType, None, [], Some(IndexedEmbeddedAttribute(depth, None, ".")),
           false, None, None, NoBridge())
  }

  function NodeInfo(depth: Int32, t: TypeId): TypeInfo {
    if t == NodeType then Plain("Node", Some(ObjectType)).(properties := [ParentMember(depth)])
    else Plain("object", None)
  }

  function NodeGraph(depth: Int32): (g: TypeGraph)
    ensures Valid(g)
    ensures forall t :: g.info(t) == NodeInfo(depth, t)
  {
    TypeGraph((t: TypeId) => NodeInfo(depth, t), ObjectType)
  }

  lemma HeightOfOne(dm: DocumentMapping, e: EmbeddedMapping)
    ensures Height(dm.(embedded := [e])) == 1 + Height(e.mapping)
  {
    var es := [e];
    assert es[|es| - 1] == e && es[..|es| - 1] == [];
    assert EmbeddedHeight(es) == 1 + Height(e.mapping);
  }

  /** A type with a single level and no analyzer, class bridges or fields: its build is its properties' build. */
  lemma SingleLevelClass(g: TypeGraph, fuel: nat, dm: DocumentMapping, isRoot: bool, path: string, root: TypeId, st: State)
    requires Valid(g)
    requires var info := g.info(dm.mappedClass);
      && (info.baseType.None? || info.baseType == Some(g.objectType))
      && info.analyzer.None? && info.classBridges == [] && info.bridgeParameters == [] && info.fields == []
    ensures BuildClassF(g, fuel, dm, isRoot, path, root, st)
         == BuildMembersF(g, fuel, dm, g.info(dm.mappedClass).properties, 0, dm.analyzer, isRoot, path, root, st)
  {
    var t := dm.mappedClass;
    assert Hierarchy(g, t) == [t];
    var s := BuildMembersF(g, fuel, dm, g.info(t).properties, 0, dm.analyzer, isRoot, path, root, st);
    assert AssignParameters(t, g.info(t).hasFieldBridge, [], 0, [], []) == Ok(Assignment([], []));
    assert AddClassBridges(g, dm, [], 0, dm.analyzer) == Ok(dm);
    if s.result.Ok? {
      assert BuildMembersF(g, fuel, s.result.value, [], 0, dm.analyzer, isRoot, path, root, s.st) == s;
    }
    assert BuildLevelF(g, fuel, dm, t, isRoot, path, root, st) == s;
    assert BuildLevelsF(g, fuel, dm, [t], 1, isRoot, path, root, st) == s;
  }

  /** A property carrying only `[IndexedEmbedded]`: its build is its embedding's build. */
  lemma EmbeddedOnlyMember(g: TypeGraph, fuel: nat, dm: DocumentMapping, m: Member, parentAnalyzer: Option<Analyzer>,
                           isRoot: bool, path: string, root: TypeId, st: State)
    requires Valid(g)
    requires m.kind == Property && m.documentId.None? && m.fields == [] && !m.containedIn && m.analyzer.None?
    ensures BuildPropertyF(g, fuel, dm, m, parentAnalyzer, isRoot, path, root, st)
         == BuildEmbeddedF(g, fuel, dm, m, BasicGetter(dm.mappedClass, m.name), parentAnalyzer, path, root, st)
  {
  }

  /** Building a `Node` mapping comes down to building its one embedded member. */
  lemma NodeClassIsEmbedding(depth: Int32, fuel: nat, dm: DocumentMapping, isRoot: bool, path: string, st: State)
    requires dm.mappedClass == NodeType
    ensures BuildClassF(NodeGraph(depth), fuel, dm, isRoot, path, NodeType, st)
         == BuildEmbeddedF(NodeGraph(depth), fuel, dm, ParentMember(depth), BasicGetter(NodeType, "Parent"),
                           dm.analyzer, path, NodeType, st)
  {
    var g := NodeGraph(depth);
    var m := ParentMember(depth);
    SingleLevelClass(g, fuel, dm, isRoot, path, NodeType, st);
    EmbeddedOnlyMember(g, fuel, dm, m, dm.analyzer, isRoot, path, NodeType, st);
    assert g.info(NodeType).properties == [m];
  }

  /** With the default (unlimited) depth, a type that embeds itself is a circular reference, and the
      level the builder raised before throwing is not put back. */
  lemma UnlimitedSelfEmbeddingFails(fuel: nat)
    ensures var s := BuildF(NodeGraph(MaxValue), fuel, NodeType, 0, MaxValue);
      && s.result == Err(CircularReference(NodeType, NodeType, "Parent."))
      && s.st.level == 1
  {
    var g := NodeGraph(MaxValue);
    var dm := RootMapping(g, NodeType);
    var st := State(0, MaxValue, {NodeType});
    var m := ParentMember(MaxValue);
    assert PotentialLevel(MaxValue, 0) == MaxValue;
    assert Add(0, 1) == 1;
    assert ElementType(g, m) == NodeType;
    assert "" + LocalPrefix("Parent", ".") == "Parent.";
    NodeClassIsEmbedding(MaxValue, fuel, dm, true, "", st);
  }

  /** Below the root, with `maxLevel` at the depth `d`, a `Node` nests exactly `d - level` levels deep. */
  lemma {:induction false} NodeChain(d: Int32, fuel: nat, dm: DocumentMapping, isRoot: bool, path: string, level: Int32, processed: set<TypeId>)
    requires 0 < d < MaxValue && 0 <= level <= d && fuel >= d - level
    requires dm.mappedClass == NodeType && dm.embedded == []
    ensures var s := BuildClassF(NodeGraph(d), fuel, dm, isRoot, path, NodeType, State(level, d, processed));
      && s.result.Ok?
      && Height(s.result.value) == d - level
      && s.st.level == level && s.st.maxLevel == d
    decreases d - level
  {
    var g := NodeGraph(d);
    var m := ParentMember(d);
    var st := State(level, d, processed);
    NodeClassIsEmbedding(d, fuel, dm, isRoot, path, st);
    assert PotentialLevel(d, level) >= d && Min(PotentialLevel(d, level), d) == d;
    assert Add(level, 1) == level + 1;
    assert ElementType(g, m) == NodeType;
    if level < d {
      var child := NewMapping(NodeType).(boost := m.boost, analyzer := dm.analyzer);
      var childPath := path + LocalPrefix(m.name, ".");
      NodeChain(d, fuel - 1, child, false, childPath, level + 1, processed + {NodeType});
      var s := BuildClassF(g, fuel - 1, child, false, childPath, NodeType, State(level + 1, d, processed + {NodeType}));
      assert Add(s.st.level, -1) == level;
      var embedded := EmbeddedMapping(s.result.value, BasicGetter(NodeType, "Parent"), LocalPrefix(m.name, "."), IsCollection(g, m));
      HeightOfOne(dm, embedded);
    } else {
      assert Add(level + 1, -1) == level;
    }
  }

  /** `[IndexedEmbedded(Depth = d)]` on a self reference is legal and nests exactly `d` levels. */
  lemma LimitedSelfEmbeddingNestsDepth(d: Int32, fuel: nat)
    requires 0 < d < MaxValue && fuel >= d
    ensures var s := BuildF(NodeGraph(d), fuel, NodeType, 0, MaxValue);
      && s.result.Ok?
      && Height(s.result.value) == d
      && s.st.level == 0 && s.st.maxLevel == MaxValue
  {
    var g := NodeGraph(d);
    var dm := RootMapping(g, NodeType);
    var st := State(0, MaxValue, {NodeType});
    var m := ParentMember(d);
    NodeClassIsEmbedding(d, fuel, dm, true, "", st);
    assert PotentialLevel(d, 0) == d && Min(d, MaxValue) == d;
    assert Add(0, 1) == 1;
    assert ElementType(g, m) == NodeType;
    var child := NewMapping(NodeType).(boost := m.boost, analyzer := dm.analyzer);
    var childState := State(1, d, st.processed + {NodeType});
    NodeChain(d, fuel - 1, child, false, "" + LocalPrefix(m.name, "."), 1, childState.processed);
    var s := BuildClassF(g, fuel - 1, child, false, "" + LocalPrefix(m.name, "."), NodeType, childState);
    assert Add(s.st.level, -1) == 0;
    var embedded := EmbeddedMapping(s.result.value, BasicGetter(NodeType, "Parent"), LocalPrefix(m.name, "."), IsCollection(g, m));
    HeightOfOne(dm, embedded);
  }

  // ---------------------------------------------------------------------------
  // Collections and siblings

  const ContactType: TypeId := 1
  const AddressType: TypeId := 2
  const ListDefinition: TypeId := 3
  const AddressList: TypeId := 4

  /** An embedded property of `Contact` with the default (unlimited) depth and prefix. */
  function Embeds(name: string, memberType: TypeId): Member {
    Member(name, Property, memberType, None, [], Some(IndexedEmbeddedAttribute(MaxValue, None, ".")),
           false, None, None, NoBridge())
  }

  /** `Contact` with the given properties; `Address` with none; `IList<>` and `IList<Address>`. */
  function ContactInfo(properties: seq<Member>, t: TypeId): TypeInfo {
    if t == ContactType then Plain("Contact", Some(ObjectType)).(properties := properties)
    else if t == AddressType then Plain("Address", Some(ObjectType))
    else if t == ListDefinition then Plain("IList`1", None).(isEnumerable := true)
    else if t == AddressList then
      Plain("IList`1", None).(isGeneric := true, genericArguments := [AddressType], genericDefinition := ListDefinition)
    else Plain("object", None)
  }

  function ContactGraph(properties: seq<Member>): (g: TypeGraph)
    ensures Valid(g)
    ensures forall t :: g.info(t) == ContactInfo(properties, t)
  {
    TypeGraph((t: TypeId) => ContactInfo(properties, t), ObjectType)
  }

  /** Embedding one `Address` (or a list of them) under the root, for any member name. */
  lemma EmbedAddress(properties: seq<Member>, fuel: nat, dm: DocumentMapping, m: Member, st: State)
    requires fuel > 0 && st.level == 0 && st.maxLevel == MaxValue
    requires m == Embeds(m.name, m.memberType) && m.memberType in {AddressType, AddressList}
    requires AddressType !in st.processed
    ensures var g := ContactGraph(properties);
      var actual := if m.memberType == AddressList then ListDefinition else AddressType;
      BuildEmbeddedF(g, fuel, dm, m, BasicGetter(dm.mappedClass, m.name), None, "", ContactType, st)
      == Step(State(0, MaxValue, st.processed + {AddressType} - {actual}),
              Ok(dm.(embedded := dm.embedded + [EmbeddedMapping(NewMapping(AddressType), BasicGetter(dm.mappedClass, m.name),
                                                               m.name + ".", m.memberType == AddressList)])))
  {
    var g := ContactGraph(properties);
    assert PotentialLevel(MaxValue, 0) == MaxValue && Add(0, 1) == 1 && Add(1, -1) == 0;
    assert ElementType(g, m) == AddressType;
    var child := NewMapping(AddressType);
    var childState := State(1, MaxValue, st.processed + {AddressType});
    SingleLevelClass(g, fuel - 1, child, false, "" + (m.name + "."), ContactType, childState);
    assert g.info(AddressType).properties == [];
    assert LocalPrefix(m.name, ".") == m.name + ".";
    assert NewMapping(AddressType).(boost := m.boost, analyzer := None) == child;
    assert MemberTypeOrGenericCollectionType(g, m) == (if m.memberType == AddressList then ListDefinition else AddressType);
    assert BuildClassF(g, fuel - 1, child, false, "" + (m.name + "."), ContactType, childState) == Step(childState, Ok(child));
    assert IsCollection(g, m) == (m.memberType == AddressList);
  }

  /** A collection of `Address` expands its element type and records the collection flag and prefix. */
  lemma CollectionEmbedding(fuel: nat)
    requires fuel > 0
    ensures var s := BuildF(ContactGraph([Embeds("Addresses", AddressList)]), fuel, ContactType, 0, MaxValue);
      && s.result.Ok?
      && |s.result.value.embedded| == 1
      && s.result.value.embedded[0].mapping.mappedClass == AddressType
      && s.result.value.embedded[0].prefix == "Addresses."
      && s.result.value.embedded[0].isCollection
  {
    var properties := [Embeds("Addresses", AddressList)];
    var g := ContactGraph(properties);
    var dm := RootMapping(g, ContactType);
    var st := State(0, MaxValue, {ContactType});
    SingleLevelClass(g, fuel, dm, true, "", ContactType, st);
    EmbeddedOnlyMember(g, fuel, dm, properties[0], None, true, "", ContactType, st);
    EmbedAddress(properties, fuel, dm, properties[0], st);
  }

  /** Two `Address` properties side by side: the second is not a cycle, since the first one's type was taken off again. */
  lemma SiblingEmbeddingsOfOneType(fuel: nat)
    requires fuel > 0
    ensures var s := BuildF(ContactGraph([Embeds("Work", AddressType), Embeds("Home", AddressType)]), fuel, ContactType, 0, MaxValue);
      && s.result.Ok?
      && |s.result.value.embedded| == 2
      && s.result.value.embedded[0].prefix == "Work." && s.result.value.embedded[1].prefix == "Home."
      && s.st.processed == {ContactType}
  {
    var properties := [Embeds("Work", AddressType), Embeds("Home", AddressType)];
    var g := ContactGraph(properties);
    var dm := RootMapping(g, ContactType);
    var st := State(0, MaxValue, {ContactType});
    SingleLevelClass(g, fuel, dm, true, "", ContactType, st);
    EmbeddedOnlyMember(g, fuel, dm, properties[0], None, true, "", ContactType, st);
    EmbedAddress(properties, fuel, dm, properties[0], st);
    var s1 := BuildPropertyF(g, fuel, dm, properties[0], None, true, "", ContactType, st);
    assert s1.st == st;
    EmbeddedOnlyMember(g, fuel, s1.result.value, properties[1], None, true, "", ContactType, st);
    EmbedAddress(properties, fuel, s1.result.value, properties[1], st);
    var s2 := BuildPropertyF(g, fuel, s1.result.value, properties[1], None, true, "", ContactType, st);
    assert s2.st == st;
    assert BuildMembersF(g, fuel, s2.result.value, properties, 2, None, true, "", ContactType, st) == s2;
    assert BuildMembersF(g, fuel, s1.result.value, properties, 1, None, true, "", ContactType, st) == s2;
    assert BuildMembersF(g, fuel, dm, properties, 0, None, true, "", ContactType, st) == s2;
  }

  /**
   * An embedded collection of `Address` followed by an `Address` property fails as a circular
   * reference: the collection pushes its element type but pops the collection's generic
   * definition, so `Address` stays in the processed set.
   */
  lemma CollectionLeavesElementTypeProcessed(fuel: nat)
    requires fuel > 0
    ensures var s := BuildF(ContactGraph([Embeds("Addresses", AddressList), Embeds("Work", AddressType)]), fuel, ContactType, 0, MaxValue);
      s.result == Err(CircularReference(AddressType, ContactType, "Work."))
  {
    var properties := [Embeds("Addresses", AddressList), Embeds("Work", AddressType)];
    var g := ContactGraph(properties);
    var dm := RootMapping(g, ContactType);
    var st := State(0, MaxValue, {ContactType});
    SingleLevelClass(g, fuel, dm, true, "", ContactType, st);
    EmbeddedOnlyMember(g, fuel, dm, properties[0], None, true, "", ContactType, st);
    EmbedAddress(properties, fuel, dm, properties[0], st);
    var s1 := BuildPropertyF(g, fuel, dm, properties[0], None, true, "", ContactType, st);
    assert s1.st.processed == {ContactType, AddressType};
    EmbeddedOnlyMember(g, fuel, s1.result.value, properties[1], None, true, "", ContactType, s1.st);
    assert PotentialLevel(MaxValue, 0) == MaxValue && Add(0, 1) == 1;
    assert ElementType(g, properties[1]) == AddressType;
    assert "" + LocalPrefix("Work", ".") == "Work.";
  }
}
