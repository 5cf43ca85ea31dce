/**
 * A successful build agrees with the reference walk of `TraversalModel`: the fields, the
 * contained-in entries and the document id are those the walk produces, the class bridges are
 * the declared ones level by level, base type first, and every document id member of the root
 * has a two-way bridge.
 */
module TraversalProperties {
  import opened Wrappers
  import opened TypeModel
  import opened MappingModel
  import opened MappingCompiler
  import opened CompilerProperties
  import opened ParameterProperties
  import opened TraversalModel

  /** What a build step never changes on the mapping it extends. */
  predicate SameHeader(a: DocumentMapping, b: DocumentMapping) {
    a.mappedClass == b.mappedClass && a.indexName == b.indexName && a.boost == b.boost
    && a.analyzer == b.analyzer && a.filters == b.filters
  }

  lemma {:induction false} VisitAllAppend(t: TypeId, isRoot: bool, o: Outline, a: seq<Member>, b: seq<Member>)
    ensures VisitAll(t, isRoot, o, a + b) == VisitAll(t, isRoot, VisitAll(t, isRoot, o, a), b)
    decreases |a|
  {
    if a == [] {
      assert a + b == b;
    } else {
      assert (a + b)[0] == a[0] && (a + b)[1..] == a[1..] + b;
      VisitAllAppend(t, isRoot, Visit(t, isRoot, o, a[0]), a[1..], b);
    }
  }

  /** The `[Field]` attributes from `i` on add their keys, in attribute order. */
  lemma {:induction false} FieldsOutline(
    g: TypeGraph, dm: DocumentMapping, m: Member, t: TypeId, analyzer: Option<Analyzer>, i: nat)
    requires i <= |m.fields|
    ensures var r := BuildFields(g, dm, m, MemberGetter(t, m), analyzer, i);
      r.Ok? ==> Keys(r.value.fields) == Keys(dm.fields) + AttributeKeys(t, m)[i..]
    decreases |m.fields| - i
  {
    var getter := MemberGetter(t, m);
    if i == |m.fields| {
      assert AttributeKeys(t, m)[i..] == [];
    } else {
      var fa := m.fields[i];
      var a := GetAnalyzerByType(g, fa.analyzer);
      if a.Ok? {
        var field := FieldMapping(AttributeName(m.name, fa.name), m.bridge, getter, fa.store, fa.index,
                                  None, if a.value.Some? then a.value else analyzer);
        var next := dm.(fields := dm.fields + [field]);
        FieldKeysStep(dm.fields, field, t, m, i);
        FieldsOutline(g, next, m, t, analyzer, i + 1);
      }
    }
  }

  /** Appending the field of attribute `i` appends that attribute's key. */
  lemma FieldKeysStep(fs: seq<FieldMapping>, field: FieldMapping, t: TypeId, m: Member, i: nat)
    requires i < |m.fields|
    requires field.name == AttributeName(m.name, m.fields[i].name) && field.bridge == m.bridge
    requires field.getter == MemberGetter(t, m) && field.store == m.fields[i].store && field.index == m.fields[i].index
    ensures Keys(fs + [field]) == Keys(fs) + [AttributeKeys(t, m)[i]]
    ensures AttributeKeys(t, m)[i..] == [AttributeKeys(t, m)[i]] + AttributeKeys(t, m)[i + 1..]
  {
  }

  /** The embedding part of a member only ever appends to the embedded list. */
  lemma EmbeddedOnly(
    g: TypeGraph, fuel: nat, dm: DocumentMapping, m: Member, getter: Getter, analyzer: Option<Analyzer>,
    path: string, root: TypeId, st: State)
    requires Valid(g)
    ensures var s := BuildEmbeddedF(g, fuel, dm, m, getter, analyzer, path, root, st);
      s.result.Ok? ==> s.result.value == dm.(embedded := s.result.value.embedded)
  {
  }

  /** The document id part of a member: the id field off the root, the document id on it. */
  lemma DocumentIdOutline(dm: DocumentMapping, m: Member, isRoot: bool)
    requires m.kind != OtherMember
    ensures var r := BuildDocumentId(dm, m, MemberGetter(dm.mappedClass, m), m.boost, isRoot);
      r.Ok? ==>
        && Keys(r.value.fields) == Keys(dm.fields) + IdKeys(dm.mappedClass, m, isRoot)
        && r.value.documentId == IdAfter(dm.mappedClass, m, isRoot, dm.documentId)
        && r.value == dm.(fields := r.value.fields, documentId := r.value.documentId)
        && (isRoot && m.documentId.Some? ==> m.bridge.isTwoWay)
  {
    var r := BuildDocumentId(dm, m, MemberGetter(dm.mappedClass, m), m.boost, isRoot);
    if r.Ok? && m.documentId.Some? && !isRoot {
      assert Keys(r.value.fields) == Keys(dm.fields) + IdKeys(dm.mappedClass, m, isRoot);
    }
  }

  /**
   * The pieces of a successful member step: the analyzer and getter resolve, the document id and the
   * fields build, the embedding part succeeds, and the contained-in entry is appended last.
   */
  lemma PropertyParts(
    g: TypeGraph, fuel: nat, dm: DocumentMapping, m: Member, parentAnalyzer: Option<Analyzer>,
    isRoot: bool, path: string, root: TypeId, st: State)
    requires Valid(g)
    ensures var s := BuildPropertyF(g, fuel, dm, m, parentAnalyzer, isRoot, path, root, st);
      var a := GetAnalyzer(g, m.analyzer);
      var getter := MemberGetter(dm.mappedClass, m);
      s.result.Ok? ==>
        && a.Ok? && m.kind != OtherMember
        && var analyzer := if a.value.Some? then a.value else parentAnalyzer;
           var dm1 := BuildDocumentId(dm, m, getter, m.boost, isRoot);
           && dm1.Ok?
           && var dm2 := BuildFields(g, dm1.value, m, getter, analyzer, 0);
              && dm2.Ok?
              && var e := BuildEmbeddedF(g, fuel, dm2.value, m, getter, analyzer, path, root, st);
                 && e.result.Ok? && s.st == e.st
                 && s.result.value == (if m.containedIn
                                       then e.result.value.(containedIn := e.result.value.containedIn + [ContainedInMapping(getter)])
                                       else e.result.value)
  {
    var a := GetAnalyzer(g, m.analyzer);
    if a.Ok? && m.kind != OtherMember {
      assert GetGetterFast(dm.mappedClass, m) == Ok(MemberGetter(dm.mappedClass, m));
    }
  }

  /** One member: its contribution is exactly the reference `Visit`; on the root its id bridge is two-way. */
  lemma PropertyOutline(
    g: TypeGraph, fuel: nat, dm: DocumentMapping, m: Member, parentAnalyzer: Option<Analyzer>,
    isRoot: bool, path: string, root: TypeId, st: State)
    requires Valid(g)
    ensures var s := BuildPropertyF(g, fuel, dm, m, parentAnalyzer, isRoot, path, root, st);
      s.result.Ok? ==>
        && OutlineOf(s.result.value) == Visit(dm.mappedClass, isRoot, OutlineOf(dm), m)
        && SameHeader(s.result.value, dm)
        && s.result.value.classBridges == dm.classBridges
        && (isRoot && m.documentId.Some? ==> m.bridge.isTwoWay)
  {
    var s := BuildPropertyF(g, fuel, dm, m, parentAnalyzer, isRoot, path, root, st);
    PropertyParts(g, fuel, dm, m, parentAnalyzer, isRoot, path, root, st);
    if s.result.Ok? {
      var a := GetAnalyzer(g, m.analyzer);
      var analyzer := if a.value.Some? then a.value else parentAnalyzer;
      var getter := MemberGetter(dm.mappedClass, m);
      IdAndFieldsOutline(g, dm, m, analyzer, isRoot);
      var dm2 := BuildFields(g, BuildDocumentId(dm, m, getter, m.boost, isRoot).value, m, getter, analyzer, 0).value;
      EmbeddedOnly(g, fuel, dm2, m, getter, analyzer, path, root, st);
    }
  }

  /** The document id and `[Field]` parts of a member together add exactly `MemberKeys`. */
  lemma IdAndFieldsOutline(g: TypeGraph, dm: DocumentMapping, m: Member, analyzer: Option<Analyzer>, isRoot: bool)
    requires m.kind != OtherMember
    ensures var getter := MemberGetter(dm.mappedClass, m);
      var dm1 := BuildDocumentId(dm, m, getter, m.boost, isRoot);
      dm1.Ok? && BuildFields(g, dm1.value, m, getter, analyzer, 0).Ok? ==>
        var dm2 := BuildFields(g, dm1.value, m, getter, analyzer, 0).value;
        && Keys(dm2.fields) == Keys(dm.fields) + MemberKeys(dm.mappedClass, m, isRoot)
        && dm2.documentId == IdAfter(dm.mappedClass, m, isRoot, dm.documentId)
        && dm2 == dm.(fields := dm2.fields, documentId := dm2.documentId)
        && (isRoot && m.documentId.Some? ==> m.bridge.isTwoWay)
  {
    var t := dm.mappedClass;
    var getter := MemberGetter(t, m);
    var dm1 := BuildDocumentId(dm, m, getter, m.boost, isRoot);
    DocumentIdOutline(dm, m, isRoot);
    if dm1.Ok? {
      FieldsOutline(g, dm1.value, m, t, analyzer, 0);
      FieldsKeepEmbedded(g, dm1.value, m, getter, analyzer, 0);
      assert AttributeKeys(t, m)[0..] == AttributeKeys(t, m);
    }
  }

  lemma {:induction false} MembersOutline(
    g: TypeGraph, fuel: nat, dm: DocumentMapping, ms: seq<Member>, i: nat, analyzer: Option<Analyzer>,
    isRoot: bool, path: string, root: TypeId, st: State)
    requires Valid(g) && i <= |ms|
    ensures var s := BuildMembersF(g, fuel, dm, ms, i, analyzer, isRoot, path, root, st);
      s.result.Ok? ==>
        && OutlineOf(s.result.value) == VisitAll(dm.mappedClass, isRoot, OutlineOf(dm), ms[i..])
        && SameHeader(s.result.value, dm)
        && s.result.value.classBridges == dm.classBridges
        && (forall m :: m in ms[i..] && isRoot && m.documentId.Some? ==> m.bridge.isTwoWay)
    decreases |ms| - i
  {
    if i == |ms| {
      assert ms[i..] == [];
    } else {
      PropertyOutline(g, fuel, dm, ms[i], analyzer, isRoot, path, root, st);
      var s := BuildPropertyF(g, fuel, dm, ms[i], analyzer, isRoot, path, root, st);
      if s.result.Ok? {
        MembersOutline(g, fuel, s.result.value, ms, i + 1, analyzer, isRoot, path, root, s.st);
        assert ms[i..][0] == ms[i] && ms[i..][1..] == ms[i + 1..];
        assert forall m :: m in ms[i..] ==> m == ms[i] || m in ms[i + 1..];
      }
    }
  }

  /** Adding the class bridges `defs[i..]` appends their keys in declaration order. */
  lemma {:induction false} BridgesOutline(
    g: TypeGraph, dm: DocumentMapping, defs: seq<ClassBridgeDefinition>, i: nat, analyzer: Option<Analyzer>)
    requires i <= |defs|
    ensures var r := AddClassBridges(g, dm, defs, i, analyzer);
      r.Ok? ==> BridgeKeys(r.value.classBridges) == BridgeKeys(dm.classBridges) + DefinitionKeys(defs)[i..]
    decreases |defs| - i
  {
    if i == |defs| {
      assert DefinitionKeys(defs)[i..] == [];
    } else {
      var b := BuildClassBridge(g, defs[i], analyzer);
      if b.Ok? {
        var next := dm.(classBridges := dm.classBridges + [b.value]);
        BridgesOutline(g, next, defs, i + 1, analyzer);
        assert BridgeKeys(next.classBridges) == BridgeKeys(dm.classBridges) + [DefinitionKeys(defs)[i]];
        assert DefinitionKeys(defs)[i..] == [DefinitionKeys(defs)[i]] + DefinitionKeys(defs)[i + 1..];
      }
    }
  }

  /** One level: its class bridges, then its properties, then its fields. */
  lemma LevelOutline(
    g: TypeGraph, fuel: nat, dm: DocumentMapping, t: TypeId,
    isRoot: bool, path: string, root: TypeId, st: State)
    requires Valid(g)
    ensures var s := BuildLevelF(g, fuel, dm, t, isRoot, path, root, st);
      var members := g.info(t).properties + g.info(t).fields;
      s.result.Ok? ==>
        && OutlineOf(s.result.value) == VisitAll(dm.mappedClass, isRoot, OutlineOf(dm), members)
        && SameHeader(s.result.value, dm)
        && BridgeKeys(s.result.value.classBridges) == BridgeKeys(dm.classBridges) + DefinitionKeys(g.info(t).classBridges)
        && (forall m :: m in members && isRoot && m.documentId.Some? ==> m.bridge.isTwoWay)
  {
    var info := g.info(t);
    var a := GetAnalyzer(g, info.analyzer);
    if a.Ok? {
      var analyzer := if dm.analyzer.Some? then dm.analyzer else a.value;
      var p := AssignParameters(t, info.hasFieldBridge, info.bridgeParameters, 0, info.classBridges, []);
      if p.Ok? {
        AssignmentKeepsBridges(t, info.hasFieldBridge, info.bridgeParameters, 0, info.classBridges, []);
        assert DefinitionKeys(p.value.bridges) == DefinitionKeys(info.classBridges);
        var c := AddClassBridges(g, dm, p.value.bridges, 0, analyzer);
        ClassBridgesOnly(g, dm, p.value.bridges, 0, analyzer);
        BridgesOutline(g, dm, p.value.bridges, 0, analyzer);
        if c.Ok? {
          assert DefinitionKeys(p.value.bridges)[0..] == DefinitionKeys(p.value.bridges);
          MembersOutline(g, fuel, c.value, info.properties, 0, analyzer, isRoot, path, root, st);
          var s := BuildMembersF(g, fuel, c.value, info.properties, 0, analyzer, isRoot, path, root, st);
          if s.result.Ok? {
            MembersOutline(g, fuel, s.result.value, info.fields, 0, analyzer, isRoot, path, root, s.st);
            assert info.properties[0..] == info.properties && info.fields[0..] == info.fields;
            VisitAllAppend(dm.mappedClass, isRoot, OutlineOf(dm), info.properties, info.fields);
          }
        }
      }
    }
  }

  /** Two successive steps that each match the walk over their members compose to the walk over both. */
  lemma OutlinesCompose(
    dm: DocumentMapping, mid: DocumentMapping, last: DocumentMapping, isRoot: bool,
    first: seq<Member>, rest: seq<Member>, firstBridges: seq<BridgeKey>, restBridges: seq<BridgeKey>)
    requires OutlineOf(mid) == VisitAll(dm.mappedClass, isRoot, OutlineOf(dm), first) && SameHeader(mid, dm)
    requires BridgeKeys(mid.classBridges) == BridgeKeys(dm.classBridges) + firstBridges
    requires forall m :: m in first && isRoot && m.documentId.Some? ==> m.bridge.isTwoWay
    requires OutlineOf(last) == VisitAll(mid.mappedClass, isRoot, OutlineOf(mid), rest) && SameHeader(last, mid)
    requires BridgeKeys(last.classBridges) == BridgeKeys(mid.classBridges) + restBridges
    requires forall m :: m in rest && isRoot && m.documentId.Some? ==> m.bridge.isTwoWay
    ensures OutlineOf(last) == VisitAll(dm.mappedClass, isRoot, OutlineOf(dm), first + rest) && SameHeader(last, dm)
    ensures BridgeKeys(last.classBridges) == BridgeKeys(dm.classBridges) + (firstBridges + restBridges)
    ensures forall m :: m in first + rest && isRoot && m.documentId.Some? ==> m.bridge.isTwoWay
  {
    VisitAllAppend(dm.mappedClass, isRoot, OutlineOf(dm), first, rest);
  }

  lemma {:induction false} LevelsOutline(
    g: TypeGraph, fuel: nat, dm: DocumentMapping, h: seq<TypeId>, k: nat,
    isRoot: bool, path: string, root: TypeId, st: State)
    requires Valid(g) && k <= |h|
    ensures var s := BuildLevelsF(g, fuel, dm, h, k, isRoot, path, root, st);
      s.result.Ok? ==>
        && OutlineOf(s.result.value) == VisitAll(dm.mappedClass, isRoot, OutlineOf(dm), LevelMembers(g, h, k))
        && SameHeader(s.result.value, dm)
        && BridgeKeys(s.result.value.classBridges) == BridgeKeys(dm.classBridges) + LevelBridges(g, h, k)
        && (forall m :: m in LevelMembers(g, h, k) && isRoot && m.documentId.Some? ==> m.bridge.isTwoWay)
    decreases k
  {
    if k > 0 {
      var info := g.info(h[k - 1]);
      LevelOutline(g, fuel, dm, h[k - 1], isRoot, path, root, st);
      var s := BuildLevelF(g, fuel, dm, h[k - 1], isRoot, path, root, st);
      if s.result.Ok? {
        LevelsOutline(g, fuel, s.result.value, h, k - 1, isRoot, path, root, s.st);
        var r := BuildLevelsF(g, fuel, s.result.value, h, k - 1, isRoot, path, root, s.st);
        if r.result.Ok? {
          OutlinesCompose(dm, s.result.value, r.result.value, isRoot, info.properties + info.fields, LevelMembers(g, h, k - 1),
                          DefinitionKeys(info.classBridges), LevelBridges(g, h, k - 1));
        }
      }
    }
  }

  /** Below the root, the walk never touches the document id: id members become fields instead. */
  lemma {:induction false} NonRootKeepsDocumentId(t: TypeId, o: Outline, ms: seq<Member>)
    ensures VisitAll(t, false, o, ms).documentId == o.documentId
    decreases |ms|
  {
    if ms != [] {
      NonRootKeepsDocumentId(t, Visit(t, false, o, ms[0]), ms[1..]);
    }
  }

  /** A class build, root or nested, adds what the reference walk over every member of the mapped type gives. */
  lemma ClassOutline(
    g: TypeGraph, fuel: nat, dm: DocumentMapping, isRoot: bool, path: string, root: TypeId, st: State)
    requires Valid(g)
    ensures var s := BuildClassF(g, fuel, dm, isRoot, path, root, st);
      var t := dm.mappedClass;
      s.result.Ok? ==>
        && OutlineOf(s.result.value) == VisitAll(t, isRoot, OutlineOf(dm), TraversalMembers(g, t))
        && SameHeader(s.result.value, dm)
        && BridgeKeys(s.result.value.classBridges) == BridgeKeys(dm.classBridges) + TraversalBridges(g, t)
        && (forall m :: m in TraversalMembers(g, t) && isRoot && m.documentId.Some? ==> m.bridge.isTwoWay)
  {
    var h := Hierarchy(g, dm.mappedClass);
    LevelsOutline(g, fuel, dm, h, |h|, isRoot, path, root, st);
  }

  /**
   * `Build` of type `t`: the root mapping carries the type's index name and boost and its filter
   * definitions; its fields, contained-in entries and document id are those of the reference walk
   * over every member of `t` and its base types; its class bridges are the declared ones, base type first;
   * and every document id member it met has a two-way bridge.
   */
  lemma BuildContents(g: TypeGraph, fuel: nat, t: TypeId, level: Int32.Int32, maxLevel: Int32.Int32)
    requires Valid(g)
    ensures var s := BuildF(g, fuel, t, level, maxLevel);
      var o := VisitAll(t, true, Outline([], 0, None), TraversalMembers(g, t));
      s.result.Ok? ==>
        && s.result.value.mappedClass == t
        && s.result.value.indexName == Some(g.info(t).indexName)
        && s.result.value.boost == g.info(t).boost
        && s.result.value.analyzer.None?
        && s.result.value.filters == g.info(t).filters
        && Keys(s.result.value.fields) == o.fields
        && |s.result.value.containedIn| == o.containedIn
        && s.result.value.documentId == o.documentId
        && BridgeKeys(s.result.value.classBridges) == TraversalBridges(g, t)
        && (forall m :: m in TraversalMembers(g, t) && m.documentId.Some? ==> m.bridge.isTwoWay)
  {
    var dm := RootMapping(g, t);
    assert OutlineOf(dm) == Outline([], 0, None);
    var st := State(level, maxLevel, {t});
    ClassOutline(g, fuel, dm, true, "", t, st);
    var c := BuildClassF(g, fuel, dm, true, "", t, st);
    if c.result.Ok? {
      var r := c.result.value;
      assert BuildF(g, fuel, t, level, maxLevel).result.value == r.(filters := r.filters + g.info(t).filters);
    }
  }
}
