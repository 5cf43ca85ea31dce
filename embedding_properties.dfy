/**
 * What a successful build embeds. Every member with an `[IndexedEmbedded]` attribute that the
 * depth bound lets through adds exactly one embedded entry, in member order, with its local
 * prefix, its getter, its collection flag and a nested mapping of its element type; that nested
 * mapping holds what the reference walk over the element type's members gives below the root,
 * and never a document id.
 */
module EmbeddingProperties {
  import opened Wrappers
  import opened Int32
  import opened TypeModel
  import opened MappingModel
  import opened MappingCompiler
  import opened CompilerProperties
  import opened TraversalModel
  import opened TraversalProperties

  /** Below the root a class build leaves the document id alone: a nested mapping gets none. */
  lemma NestedHasNoId(g: TypeGraph, fuel: nat, dm: DocumentMapping, path: string, root: TypeId, st: State)
    requires Valid(g)
    ensures var s := BuildClassF(g, fuel, dm, false, path, root, st);
      s.result.Ok? ==> s.result.value.documentId == dm.documentId
  {
    ClassOutline(g, fuel, dm, false, path, root, st);
    NonRootKeepsDocumentId(dm.mappedClass, OutlineOf(dm), TraversalMembers(g, dm.mappedClass));
  }

  /**
   * The embedding part of a member: one entry when the depth bound lets it through, none
   * otherwise; earlier entries stay, and the new entry's nested mapping is the element type's
   * own walk below the root, with the member's boost and analyzer and no document id.
   */
  lemma EmbeddedOutline(
    g: TypeGraph, fuel: nat, dm: DocumentMapping, m: Member, analyzer: Option<Analyzer>,
    path: string, root: TypeId, st: State)
    requires Valid(g)
    ensures var s := BuildEmbeddedF(g, fuel, dm, m, MemberGetter(dm.mappedClass, m), analyzer, path, root, st);
      var added := MemberEmbeds(g, dm.mappedClass, m, st.level, st.maxLevel);
      s.result.Ok? ==>
        && |s.result.value.embedded| == |dm.embedded| + |added|
        && s.result.value.embedded[..|dm.embedded|] == dm.embedded
        && EmbeddedKeys(s.result.value.embedded) == EmbeddedKeys(dm.embedded) + added
        && (added != [] ==>
              var nested := s.result.value.embedded[|dm.embedded|].mapping;
              var elementType := ElementType(g, m);
              && nested.boost == m.boost && nested.analyzer == analyzer
              && nested.indexName.None? && nested.filters == []
              && nested.documentId.None?
              && OutlineOf(nested) == VisitAll(elementType, false, Outline([], 0, None), TraversalMembers(g, elementType)))
  {
    var getter := MemberGetter(dm.mappedClass, m);
    var s := BuildEmbeddedF(g, fuel, dm, m, getter, analyzer, path, root, st);
    EmbeddedParts(g, fuel, dm, m, getter, analyzer, path, root, st);
    if s.result.Ok? && m.embedded.Some? && Expands(m, st.level, st.maxLevel) {
      var e := m.embedded.value;
      var elementType := ElementType(g, m);
      var localPrefix := LocalPrefix(m.name, e.prefix);
      var child := NewMapping(elementType).(boost := m.boost, analyzer := analyzer);
      var childSt := State(Add(st.level, 1), Min(PotentialLevel(e.depth, st.level), st.maxLevel), st.processed + {elementType});
      ClassOutline(g, fuel - 1, child, false, path + localPrefix, root, childSt);
      NestedHasNoId(g, fuel - 1, child, path + localPrefix, root, childSt);
      assert OutlineOf(child) == Outline([], 0, None);
      var nested := BuildClassF(g, fuel - 1, child, false, path + localPrefix, root, childSt).result.value;
      var embedded := EmbeddedMapping(nested, getter, localPrefix, IsCollection(g, m));
      assert (dm.embedded + [embedded])[..|dm.embedded|] == dm.embedded;
      assert EmbeddedKeys(dm.embedded + [embedded]) == EmbeddedKeys(dm.embedded) + [EmbeddedKey(localPrefix, getter, IsCollection(g, m), elementType)];
    }
  }

  /**
   * The pieces of a successful embedding step: when the depth bound lets the member through, the
   * nested class build succeeds and its mapping is appended; otherwise the mapping is unchanged.
   */
  lemma EmbeddedParts(
    g: TypeGraph, fuel: nat, dm: DocumentMapping, m: Member, getter: Getter, analyzer: Option<Analyzer>,
    path: string, root: TypeId, st: State)
    requires Valid(g)
    ensures var s := BuildEmbeddedF(g, fuel, dm, m, getter, analyzer, path, root, st);
      s.result.Ok? ==>
        if m.embedded.Some? && Expands(m, st.level, st.maxLevel) then
          var e := m.embedded.value;
          var elementType := ElementType(g, m);
          var localPrefix := LocalPrefix(m.name, e.prefix);
          var child := NewMapping(elementType).(boost := m.boost, analyzer := analyzer);
          var childSt := State(Add(st.level, 1), Min(PotentialLevel(e.depth, st.level), st.maxLevel), st.processed + {elementType});
          && fuel > 0
          && var c := BuildClassF(g, fuel - 1, child, false, path + localPrefix, root, childSt);
             && c.result.Ok?
             && s.result.value == dm.(embedded := dm.embedded + [EmbeddedMapping(c.result.value, getter, localPrefix, IsCollection(g, m))])
        else s.result.value == dm
  {
  }

  lemma {:induction false} EmbedAllAppend(g: TypeGraph, t: TypeId, level: Int32, maxLevel: Int32, a: seq<Member>, b: seq<Member>)
    requires Valid(g)
    ensures EmbedAll(g, t, level, maxLevel, a + b) == EmbedAll(g, t, level, maxLevel, a) + EmbedAll(g, t, level, maxLevel, b)
    decreases |a|
  {
    if a == [] {
      assert a + b == b;
    } else {
      assert (a + b)[0] == a[0] && (a + b)[1..] == a[1..] + b;
      EmbedAllAppend(g, t, level, maxLevel, a[1..], b);
    }
  }

  lemma EmbedAllCons(g: TypeGraph, t: TypeId, level: Int32, maxLevel: Int32, ms: seq<Member>, i: nat)
    requires Valid(g) && i < |ms|
    ensures EmbedAll(g, t, level, maxLevel, ms[i..]) == MemberEmbeds(g, t, ms[i], level, maxLevel) + EmbedAll(g, t, level, maxLevel, ms[i + 1..])
  {
    assert ms[i..][0] == ms[i] && ms[i..][1..] == ms[i + 1..];
  }

  /** One member: the document id, the fields and the contained-in entry leave the embedded list alone. */
  lemma PropertyEmbeds(
    g: TypeGraph, fuel: nat, dm: DocumentMapping, m: Member, parentAnalyzer: Option<Analyzer>,
    isRoot: bool, path: string, root: TypeId, st: State)
    requires Valid(g)
    ensures var s := BuildPropertyF(g, fuel, dm, m, parentAnalyzer, isRoot, path, root, st);
      s.result.Ok? ==>
        && s.result.value.mappedClass == dm.mappedClass
        && EmbeddedKeys(s.result.value.embedded) == EmbeddedKeys(dm.embedded) + MemberEmbeds(g, dm.mappedClass, m, st.level, st.maxLevel)
  {
    var s := BuildPropertyF(g, fuel, dm, m, parentAnalyzer, isRoot, path, root, st);
    PropertyParts(g, fuel, dm, m, parentAnalyzer, isRoot, path, root, st);
    if s.result.Ok? {
      var a := GetAnalyzer(g, m.analyzer);
      var analyzer := if a.value.Some? then a.value else parentAnalyzer;
      var getter := MemberGetter(dm.mappedClass, m);
      IdAndFieldsOutline(g, dm, m, analyzer, isRoot);
      var dm2 := BuildFields(g, BuildDocumentId(dm, m, getter, m.boost, isRoot).value, m, getter, analyzer, 0).value;
      EmbeddedOutline(g, fuel, dm2, m, analyzer, path, root, st);
      EmbeddedOnly(g, fuel, dm2, m, getter, analyzer, path, root, st);
    }
  }

  lemma {:induction false} MembersEmbeds(
    g: TypeGraph, fuel: nat, dm: DocumentMapping, ms: seq<Member>, i: nat, analyzer: Option<Analyzer>,
    isRoot: bool, path: string, root: TypeId, st: State)
    requires Valid(g) && i <= |ms|
    ensures var s := BuildMembersF(g, fuel, dm, ms, i, analyzer, isRoot, path, root, st);
      s.result.Ok? ==>
        EmbeddedKeys(s.result.value.embedded) == EmbeddedKeys(dm.embedded) + EmbedAll(g, dm.mappedClass, st.level, st.maxLevel, ms[i..])
    decreases |ms| - i
  {
    if i == |ms| {
      assert ms[i..] == [];
    } else {
      PropertyEmbeds(g, fuel, dm, ms[i], analyzer, isRoot, path, root, st);
      PropertyRestores(g, fuel, dm, ms[i], analyzer, isRoot, path, root, st);
      var s := BuildPropertyF(g, fuel, dm, ms[i], analyzer, isRoot, path, root, st);
      if s.result.Ok? {
        var next := s.result.value;
        MembersEmbeds(g, fuel, next, ms, i + 1, analyzer, isRoot, path, root, s.st);
        EmbedAllCons(g, dm.mappedClass, st.level, st.maxLevel, ms, i);
        var last := BuildMembersF(g, fuel, next, ms, i + 1, analyzer, isRoot, path, root, s.st);
        if last.result.Ok? {
          KeysCompose(EmbeddedKeys(dm.embedded), EmbeddedKeys(next.embedded), EmbeddedKeys(last.result.value.embedded),
                      MemberEmbeds(g, dm.mappedClass, ms[i], st.level, st.maxLevel),
                      EmbedAll(g, dm.mappedClass, st.level, st.maxLevel, ms[i + 1..]));
        }
      }
    }
  }

  /** Keys appended in two steps are the keys of both steps appended at once. */
  lemma KeysCompose(a: seq<EmbeddedKey>, b: seq<EmbeddedKey>, c: seq<EmbeddedKey>, x: seq<EmbeddedKey>, y: seq<EmbeddedKey>)
    requires b == a + x && c == b + y
    ensures c == a + (x + y)
  {
  }

  /** Two successive steps whose embedded entries follow two member lists give those of both lists. */
  lemma EmbedsCompose(
    g: TypeGraph, dm: DocumentMapping, mid: DocumentMapping, last: DocumentMapping,
    level: Int32, maxLevel: Int32, first: seq<Member>, rest: seq<Member>)
    requires Valid(g)
    requires mid.mappedClass == dm.mappedClass && last.mappedClass == mid.mappedClass
    requires EmbeddedKeys(mid.embedded) == EmbeddedKeys(dm.embedded) + EmbedAll(g, dm.mappedClass, level, maxLevel, first)
    requires EmbeddedKeys(last.embedded) == EmbeddedKeys(mid.embedded) + EmbedAll(g, mid.mappedClass, level, maxLevel, rest)
    ensures EmbeddedKeys(last.embedded) == EmbeddedKeys(dm.embedded) + EmbedAll(g, dm.mappedClass, level, maxLevel, first + rest)
  {
    EmbedAllAppend(g, dm.mappedClass, level, maxLevel, first, rest);
  }

  /** One level: its class bridges leave the embedded list alone; then its properties, then its fields. */
  lemma LevelEmbeds(
    g: TypeGraph, fuel: nat, dm: DocumentMapping, t: TypeId,
    isRoot: bool, path: string, root: TypeId, st: State)
    requires Valid(g)
    ensures var s := BuildLevelF(g, fuel, dm, t, isRoot, path, root, st);
      s.result.Ok? ==>
        && s.result.value.mappedClass == dm.mappedClass
        && EmbeddedKeys(s.result.value.embedded)
             == EmbeddedKeys(dm.embedded) + EmbedAll(g, dm.mappedClass, st.level, st.maxLevel, g.info(t).properties + g.info(t).fields)
  {
    var info := g.info(t);
    var a := GetAnalyzer(g, info.analyzer);
    if a.Ok? {
      var analyzer := if dm.analyzer.Some? then dm.analyzer else a.value;
      var p := AssignParameters(t, info.hasFieldBridge, info.bridgeParameters, 0, info.classBridges, []);
      if p.Ok? {
        var c := AddClassBridges(g, dm, p.value.bridges, 0, analyzer);
        ClassBridgesOnly(g, dm, p.value.bridges, 0, analyzer);
        if c.Ok? {
          assert EmbeddedKeys(c.value.embedded) == EmbeddedKeys(dm.embedded);
          MembersEmbeds(g, fuel, c.value, info.properties, 0, analyzer, isRoot, path, root, st);
          MembersOutline(g, fuel, c.value, info.properties, 0, analyzer, isRoot, path, root, st);
          MembersRestore(g, fuel, c.value, info.properties, 0, analyzer, isRoot, path, root, st);
          var s := BuildMembersF(g, fuel, c.value, info.properties, 0, analyzer, isRoot, path, root, st);
          if s.result.Ok? {
            MembersEmbeds(g, fuel, s.result.value, info.fields, 0, analyzer, isRoot, path, root, s.st);
            MembersOutline(g, fuel, s.result.value, info.fields, 0, analyzer, isRoot, path, root, s.st);
            var r := BuildMembersF(g, fuel, s.result.value, info.fields, 0, analyzer, isRoot, path, root, s.st);
            assert info.properties[0..] == info.properties && info.fields[0..] == info.fields;
            if r.result.Ok? {
              EmbedsCompose(g, dm, s.result.value, r.result.value, st.level, st.maxLevel, info.properties, info.fields);
            }
          }
        }
      }
    }
  }

  lemma {:induction false} LevelsEmbeds(
    g: TypeGraph, fuel: nat, dm: DocumentMapping, h: seq<TypeId>, k: nat,
    isRoot: bool, path: string, root: TypeId, st: State)
    requires Valid(g) && k <= |h|
    ensures var s := BuildLevelsF(g, fuel, dm, h, k, isRoot, path, root, st);
      s.result.Ok? ==>
        && s.result.value.mappedClass == dm.mappedClass
        && EmbeddedKeys(s.result.value.embedded) == EmbeddedKeys(dm.embedded) + EmbedAll(g, dm.mappedClass, st.level, st.maxLevel, LevelMembers(g, h, k))
    decreases k
  {
    if k > 0 {
      var info := g.info(h[k - 1]);
      LevelEmbeds(g, fuel, dm, h[k - 1], isRoot, path, root, st);
      LevelRestores(g, fuel, dm, h[k - 1], isRoot, path, root, st);
      var s := BuildLevelF(g, fuel, dm, h[k - 1], isRoot, path, root, st);
      if s.result.Ok? {
        LevelsEmbeds(g, fuel, s.result.value, h, k - 1, isRoot, path, root, s.st);
        var r := BuildLevelsF(g, fuel, s.result.value, h, k - 1, isRoot, path, root, s.st);
        if r.result.Ok? {
          EmbedsCompose(g, dm, s.result.value, r.result.value, st.level, st.maxLevel, info.properties + info.fields, LevelMembers(g, h, k - 1));
        }
      }
    }
  }

  /**
   * `Build` of type `t` with the builder's counters at `level` and `maxLevel`: the root's embedded
   * entries are, in member order base type first, exactly those of the members whose embedding the
   * depth bound lets through at those counters.
   */
  lemma BuildEmbeddings(g: TypeGraph, fuel: nat, t: TypeId, level: Int32, maxLevel: Int32)
    requires Valid(g)
    ensures var s := BuildF(g, fuel, t, level, maxLevel);
      s.result.Ok? ==> EmbeddedKeys(s.result.value.embedded) == EmbedAll(g, t, level, maxLevel, TraversalMembers(g, t))
  {
    var dm := RootMapping(g, t);
    var h := Hierarchy(g, t);
    LevelsEmbeds(g, fuel, dm, h, |h|, true, "", t, State(level, maxLevel, {t}));
  }
}
