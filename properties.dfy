/**
 * Properties of the mapping compiler: the shape of the inheritance chain, the depth
 * counters being put back after every successful step, the bound a finite depth puts on
 * the nesting of embedded mappings, and the absence of cycle errors below a finite depth.
 */
module CompilerProperties {
  import opened Wrappers
  import opened Int32
  import opened TypeModel
  import opened MappingModel
  import opened MappingCompiler
  import opened ParameterProperties

  /** The chain starts at `t`, follows base types, stops before `object`, and strictly descends in ids. */
  lemma {:induction false} HierarchyShape(g: TypeGraph, t: TypeId)
    requires Valid(g)
    ensures var h := Hierarchy(g, t);
      && |h| >= 1 && h[0] == t
      && (forall i :: 0 <= i < |h| - 1 ==> g.info(h[i]).baseType == Some(h[i + 1]))
      && (forall i :: 0 < i < |h| ==> h[i] != g.objectType)
      && (g.info(h[|h| - 1]).baseType.None? || g.info(h[|h| - 1]).baseType == Some(g.objectType))
      && (forall i, j :: 0 <= i < j < |h| ==> h[j] < h[i])
    decreases t
  {
    match g.info(t).baseType
    case None =>
    case Some(b) =>
      if b != g.objectType {
        HierarchyShape(g, b);
      }
  }

  // ---------------------------------------------------------------------------
  // The depth counters

  /** A successful step leaves `level` and `maxLevel` as it found them. */
  predicate CountersRestored(st: State, s: Step) {
    s.result.Ok? ==> s.st.level == st.level && s.st.maxLevel == st.maxLevel
  }

  lemma {:induction false} ClassRestores(
    g: TypeGraph, fuel: nat, dm: DocumentMapping, isRoot: bool, path: string, root: TypeId, st: State)
    requires Valid(g)
    ensures CountersRestored(st, BuildClassF(g, fuel, dm, isRoot, path, root, st))
    decreases fuel, 5, 0
  {
    var h := Hierarchy(g, dm.mappedClass);
    LevelsRestore(g, fuel, dm, h, |h|, isRoot, path, root, st);
  }

  lemma {:induction false} LevelsRestore(
    g: TypeGraph, fuel: nat, dm: DocumentMapping, h: seq<TypeId>, k: nat,
    isRoot: bool, path: string, root: TypeId, st: State)
    requires Valid(g) && k <= |h|
    ensures CountersRestored(st, BuildLevelsF(g, fuel, dm, h, k, isRoot, path, root, st))
    decreases fuel, 4, k
  {
    if k > 0 {
      LevelRestores(g, fuel, dm, h[k - 1], isRoot, path, root, st);
      var s := BuildLevelF(g, fuel, dm, h[k - 1], isRoot, path, root, st);
      if s.result.Ok? {
        LevelsRestore(g, fuel, s.result.value, h, k - 1, isRoot, path, root, s.st);
      }
    }
  }

  lemma {:induction false} LevelRestores(
    g: TypeGraph, fuel: nat, dm: DocumentMapping, t: TypeId,
    isRoot: bool, path: string, root: TypeId, st: State)
    requires Valid(g)
    ensures CountersRestored(st, BuildLevelF(g, fuel, dm, t, isRoot, path, root, st))
    decreases fuel, 3, 0
  {
    var info := g.info(t);
    var a := GetAnalyzer(g, info.analyzer);
    if a.Ok? {
      var analyzer := if dm.analyzer.Some? then dm.analyzer else a.value;
      var p := AssignParameters(t, info.hasFieldBridge, info.bridgeParameters, 0, info.classBridges, []);
      if p.Ok? {
        var c := AddClassBridges(g, dm, p.value.bridges, 0, analyzer);
        if c.Ok? {
          MembersRestore(g, fuel, c.value, info.properties, 0, analyzer, isRoot, path, root, st);
          var s := BuildMembersF(g, fuel, c.value, info.properties, 0, analyzer, isRoot, path, root, st);
          if s.result.Ok? {
            MembersRestore(g, fuel, s.result.value, info.fields, 0, analyzer, isRoot, path, root, s.st);
          }
        }
      }
    }
  }

  lemma {:induction false} MembersRestore(
    g: TypeGraph, fuel: nat, dm: DocumentMapping, ms: seq<Member>, i: nat, analyzer: Option<Analyzer>,
    isRoot: bool, path: string, root: TypeId, st: State)
    requires Valid(g) && i <= |ms|
    ensures CountersRestored(st, BuildMembersF(g, fuel, dm, ms, i, analyzer, isRoot, path, root, st))
    decreases fuel, 2, |ms| - i
  {
    if i < |ms| {
      PropertyRestores(g, fuel, dm, ms[i], analyzer, isRoot, path, root, st);
      var s := BuildPropertyF(g, fuel, dm, ms[i], analyzer, isRoot, path, root, st);
      if s.result.Ok? {
        MembersRestore(g, fuel, s.result.value, ms, i + 1, analyzer, isRoot, path, root, s.st);
      }
    }
  }

  lemma {:induction false} PropertyRestores(
    g: TypeGraph, fuel: nat, dm: DocumentMapping, m: Member, parentAnalyzer: Option<Analyzer>,
    isRoot: bool, path: string, root: TypeId, st: State)
    requires Valid(g)
    ensures CountersRestored(st, BuildPropertyF(g, fuel, dm, m, parentAnalyzer, isRoot, path, root, st))
    decreases fuel, 1, 0
  {
    var a := GetAnalyzer(g, m.analyzer);
    if a.Ok? {
      var analyzer := if a.value.Some? then a.value else parentAnalyzer;
      var getter := GetGetterFast(dm.mappedClass, m);
      if getter.Ok? {
        var dm1 := BuildDocumentId(dm, m, getter.value, m.boost, isRoot);
        if dm1.Ok? {
          var dm2 := BuildFields(g, dm1.value, m, getter.value, analyzer, 0);
          if dm2.Ok? {
            EmbeddedRestores(g, fuel, dm2.value, m, getter.value, analyzer, path, root, st);
          }
        }
      }
    }
  }

  lemma {:induction false} EmbeddedRestores(
    g: TypeGraph, fuel: nat, dm: DocumentMapping, m: Member, getter: Getter, analyzer: Option<Analyzer>,
    path: string, root: TypeId, st: State)
    requires Valid(g)
    ensures CountersRestored(st, BuildEmbeddedF(g, fuel, dm, m, getter, analyzer, path, root, st))
    decreases fuel, 0, 0
  {
    if m.embedded.Some? {
      var e := m.embedded.value;
      var maxLevel := Min(PotentialLevel(e.depth, st.level), st.maxLevel);
      var level := Add(st.level, 1);
      var elementType := ElementType(g, m);
      IncrementThenDecrement(st.level);
      if !(maxLevel == MaxValue && elementType in st.processed) && level <= maxLevel && fuel > 0 {
        var child := NewMapping(elementType).(boost := m.boost, analyzer := analyzer);
        ClassRestores(g, fuel - 1, child, false, path + LocalPrefix(m.name, e.prefix), root,
                      State(level, maxLevel, st.processed + {elementType}));
      }
    }
  }

  /**
   * A successful `Build` hands back the builder with the counters it started with, so a second
   * `Build` of the same type on the same builder computes the same mapping.
   */
  lemma BuildIsRepeatable(g: TypeGraph, fuel: nat, t: TypeId, level: Int32, maxLevel: Int32)
    requires Valid(g)
    requires BuildF(g, fuel, t, level, maxLevel).result.Ok?
    ensures var s := BuildF(g, fuel, t, level, maxLevel);
      s.st.level == level && s.st.maxLevel == maxLevel
      && BuildF(g, fuel, t, s.st.level, s.st.maxLevel) == s
  {
    ClassRestores(g, fuel, RootMapping(g, t), true, "", t, State(level, maxLevel, {t}));
  }

  // ---------------------------------------------------------------------------
  // Finite depth

  function Max(a: int, b: int): int { if a < b then b else a }

  /**
   * Below a finite `maxLevel`, with a level that cannot overflow: a successful step nests no
   * deeper than `maxLevel - level` beyond what it started with, and no step throws a
   * circular-reference error, since the cycle check only fires for an unlimited depth.
   */
  predicate WithinBound(dm: DocumentMapping, st: State, s: Step) {
    && (s.result.Ok? ==> Height(s.result.value) <= Max(Height(dm), st.maxLevel - st.level))
    && (s.result.Err? ==> !s.result.error.CircularReference?)
  }

  predicate Finite(st: State) {
    0 <= st.level < MaxValue && st.maxLevel < MaxValue
  }

  lemma {:induction false} ClassBounded(
    g: TypeGraph, fuel: nat, dm: DocumentMapping, isRoot: bool, path: string, root: TypeId, st: State)
    requires Valid(g) && Finite(st)
    ensures WithinBound(dm, st, BuildClassF(g, fuel, dm, isRoot, path, root, st))
    decreases fuel, 5, 0
  {
    var h := Hierarchy(g, dm.mappedClass);
    LevelsBounded(g, fuel, dm, h, |h|, isRoot, path, root, st);
  }

  lemma {:induction false} LevelsBounded(
    g: TypeGraph, fuel: nat, dm: DocumentMapping, h: seq<TypeId>, k: nat,
    isRoot: bool, path: string, root: TypeId, st: State)
    requires Valid(g) && k <= |h| && Finite(st)
    ensures WithinBound(dm, st, BuildLevelsF(g, fuel, dm, h, k, isRoot, path, root, st))
    decreases fuel, 4, k
  {
    if k > 0 {
      LevelBounded(g, fuel, dm, h[k - 1], isRoot, path, root, st);
      LevelRestores(g, fuel, dm, h[k - 1], isRoot, path, root, st);
      var s := BuildLevelF(g, fuel, dm, h[k - 1], isRoot, path, root, st);
      if s.result.Ok? {
        LevelsBounded(g, fuel, s.result.value, h, k - 1, isRoot, path, root, s.st);
      }
    }
  }

  lemma {:induction false} LevelBounded(
    g: TypeGraph, fuel: nat, dm: DocumentMapping, t: TypeId,
    isRoot: bool, path: string, root: TypeId, st: State)
    requires Valid(g) && Finite(st)
    ensures WithinBound(dm, st, BuildLevelF(g, fuel, dm, t, isRoot, path, root, st))
    decreases fuel, 3, 0
  {
    var info := g.info(t);
    var a := GetAnalyzer(g, info.analyzer);
    if a.Ok? {
      var analyzer := if dm.analyzer.Some? then dm.analyzer else a.value;
      var p := AssignParameters(t, info.hasFieldBridge, info.bridgeParameters, 0, info.classBridges, []);
      AssignmentFailsIffClash(t, info.hasFieldBridge, info.bridgeParameters, 0, info.classBridges, []);
      if p.Ok? {
        var c := AddClassBridges(g, dm, p.value.bridges, 0, analyzer);
        ClassBridgesOnly(g, dm, p.value.bridges, 0, analyzer);
        if c.Ok? {
          MembersBounded(g, fuel, c.value, info.properties, 0, analyzer, isRoot, path, root, st);
          MembersRestore(g, fuel, c.value, info.properties, 0, analyzer, isRoot, path, root, st);
          var s := BuildMembersF(g, fuel, c.value, info.properties, 0, analyzer, isRoot, path, root, st);
          if s.result.Ok? {
            MembersBounded(g, fuel, s.result.value, info.fields, 0, analyzer, isRoot, path, root, s.st);
          }
        }
      }
    }
  }

  lemma {:induction false} MembersBounded(
    g: TypeGraph, fuel: nat, dm: DocumentMapping, ms: seq<Member>, i: nat, analyzer: Option<Analyzer>,
    isRoot: bool, path: string, root: TypeId, st: State)
    requires Valid(g) && i <= |ms| && Finite(st)
    ensures WithinBound(dm, st, BuildMembersF(g, fuel, dm, ms, i, analyzer, isRoot, path, root, st))
    decreases fuel, 2, |ms| - i
  {
    if i < |ms| {
      PropertyBounded(g, fuel, dm, ms[i], analyzer, isRoot, path, root, st);
      PropertyRestores(g, fuel, dm, ms[i], analyzer, isRoot, path, root, st);
      var s := BuildPropertyF(g, fuel, dm, ms[i], analyzer, isRoot, path, root, st);
      if s.result.Ok? {
        MembersBounded(g, fuel, s.result.value, ms, i + 1, analyzer, isRoot, path, root, s.st);
      }
    }
  }

  lemma {:induction false} PropertyBounded(
    g: TypeGraph, fuel: nat, dm: DocumentMapping, m: Member, parentAnalyzer: Option<Analyzer>,
    isRoot: bool, path: string, root: TypeId, st: State)
    requires Valid(g) && Finite(st)
    ensures WithinBound(dm, st, BuildPropertyF(g, fuel, dm, m, parentAnalyzer, isRoot, path, root, st))
    decreases fuel, 1, 0
  {
    var a := GetAnalyzer(g, m.analyzer);
    if a.Ok? {
      var analyzer := if a.value.Some? then a.value else parentAnalyzer;
      var getter := GetGetterFast(dm.mappedClass, m);
      if getter.Ok? {
        var dm1 := BuildDocumentId(dm, m, getter.value, m.boost, isRoot);
        if dm1.Ok? {
          var dm2 := BuildFields(g, dm1.value, m, getter.value, analyzer, 0);
          FieldsKeepEmbedded(g, dm1.value, m, getter.value, analyzer, 0);
          if dm2.Ok? {
            EmbeddedBounded(g, fuel, dm2.value, m, getter.value, analyzer, path, root, st);
          }
        }
      }
    }
  }

  lemma {:induction false} EmbeddedBounded(
    g: TypeGraph, fuel: nat, dm: DocumentMapping, m: Member, getter: Getter, analyzer: Option<Analyzer>,
    path: string, root: TypeId, st: State)
    requires Valid(g) && Finite(st)
    ensures WithinBound(dm, st, BuildEmbeddedF(g, fuel, dm, m, getter, analyzer, path, root, st))
    decreases fuel, 0, 0
  {
    if m.embedded.Some? {
      var e := m.embedded.value;
      var maxLevel := Min(PotentialLevel(e.depth, st.level), st.maxLevel);
      var level := Add(st.level, 1);
      var elementType := ElementType(g, m);
      if level <= maxLevel && fuel > 0 {
        var child := NewMapping(elementType).(boost := m.boost, analyzer := analyzer);
        var childState := State(level, maxLevel, st.processed + {elementType});
        ClassBounded(g, fuel - 1, child, false, path + LocalPrefix(m.name, e.prefix), root, childState);
        var s := BuildClassF(g, fuel - 1, child, false, path + LocalPrefix(m.name, e.prefix), root, childState);
        if s.result.Ok? {
          var embedded := EmbeddedMapping(s.result.value, getter, LocalPrefix(m.name, e.prefix), IsCollection(g, m));
          assert (dm.embedded + [embedded])[..|dm.embedded|] == dm.embedded;
          assert Height(child) == 0 && level == st.level + 1 && maxLevel <= st.maxLevel;
          assert Height(s.result.value) <= maxLevel - level;
          assert Height(dm.(embedded := dm.embedded + [embedded]))
              == Max(Height(dm), 1 + Height(s.result.value));
        }
      }
    }
  }

  /**
   * The cycle check of one embedded member: with the tightened `maxLevel` unlimited and the element
   * type already being processed, the member fails with a circular reference naming the element
   * type, the root and the path down to the member; otherwise any circular reference it reports
   * comes from the nested build.
   */
  lemma CycleCheck(
    g: TypeGraph, fuel: nat, dm: DocumentMapping, m: Member, getter: Getter, analyzer: Option<Analyzer>,
    path: string, root: TypeId, st: State)
    requires Valid(g) && m.embedded.Some?
    ensures var s := BuildEmbeddedF(g, fuel, dm, m, getter, analyzer, path, root, st);
      var maxLevel := Min(PotentialLevel(m.embedded.value.depth, st.level), st.maxLevel);
      var elementType := ElementType(g, m);
      && (maxLevel == MaxValue && elementType in st.processed ==>
            s.result == Err(CircularReference(elementType, root, path + LocalPrefix(m.name, m.embedded.value.prefix))))
      && (!(maxLevel == MaxValue && elementType in st.processed) && s.result.Err? && s.result.error.CircularReference? ==>
            Add(st.level, 1) <= maxLevel && fuel > 0)
  {
  }

  /**
   * A member with a finite `Depth` nests at most `Depth` levels below itself, whatever the
   * depth allowed around it, and no cycle error can arise beneath it.
   */
  lemma EmbeddingDepthBound(
    g: TypeGraph, fuel: nat, dm: DocumentMapping, m: Member, getter: Getter, analyzer: Option<Analyzer>,
    path: string, root: TypeId, st: State)
    requires Valid(g) && m.embedded.Some?
    requires 0 <= st.level && 0 <= m.embedded.value.depth && st.level + m.embedded.value.depth < MaxValue
    ensures var s := BuildEmbeddedF(g, fuel, dm, m, getter, analyzer, path, root, st);
      && (s.result.Ok? ==> Height(s.result.value) <= Max(Height(dm), m.embedded.value.depth))
      && (s.result.Err? ==> !s.result.error.CircularReference?)
  {
    var e := m.embedded.value;
    var maxLevel := Min(PotentialLevel(e.depth, st.level), st.maxLevel);
    var level := Add(st.level, 1);
    var elementType := ElementType(g, m);
    if level <= maxLevel && fuel > 0 {
      var child := NewMapping(elementType).(boost := m.boost, analyzer := analyzer);
      var childState := State(level, maxLevel, st.processed + {elementType});
      assert maxLevel <= e.depth + st.level && level == st.level + 1;
      assert Finite(childState) && Height(child) == 0;
      ClassBounded(g, fuel - 1, child, false, path + LocalPrefix(m.name, e.prefix), root, childState);
      var s := BuildClassF(g, fuel - 1, child, false, path + LocalPrefix(m.name, e.prefix), root, childState);
      if s.result.Ok? {
        var embedded := EmbeddedMapping(s.result.value, getter, LocalPrefix(m.name, e.prefix), IsCollection(g, m));
        assert (dm.embedded + [embedded])[..|dm.embedded|] == dm.embedded;
        assert Height(s.result.value) <= maxLevel - level;
        assert Height(dm.(embedded := dm.embedded + [embedded]))
            == Max(Height(dm), 1 + Height(s.result.value));
      }
    }
  }

  /** Adding class bridges changes nothing but the class bridge list. */
  lemma {:induction false} ClassBridgesOnly(
    g: TypeGraph, dm: DocumentMapping, defs: seq<ClassBridgeDefinition>, i: nat, analyzer: Option<Analyzer>)
    requires i <= |defs|
    ensures var r := AddClassBridges(g, dm, defs, i, analyzer);
      && (r.Ok? ==> r.value == dm.(classBridges := r.value.classBridges))
      && (r.Err? ==> r.error.AnalyzerInstantiationFailed?)
    decreases |defs| - i
  {
    if i < |defs| {
      var b := BuildClassBridge(g, defs[i], analyzer);
      if b.Ok? {
        ClassBridgesOnly(g, dm.(classBridges := dm.classBridges + [b.value]), defs, i + 1, analyzer);
      }
    }
  }

  /** Building `[Field]` attributes changes nothing but the field list. */
  lemma {:induction false} FieldsKeepEmbedded(
    g: TypeGraph, dm: DocumentMapping, m: Member, getter: Getter, analyzer: Option<Analyzer>, i: nat)
    requires i <= |m.fields|
    ensures var r := BuildFields(g, dm, m, getter, analyzer, i);
      && (r.Ok? ==> r.value == dm.(fields := r.value.fields))
      && (r.Err? ==> r.error.AnalyzerInstantiationFailed?)
    decreases |m.fields| - i
  {
    if i < |m.fields| {
      var fa := m.fields[i];
      var a := GetAnalyzerByType(g, fa.analyzer);
      if a.Ok? {
        var field := FieldMapping(AttributeName(m.name, fa.name), m.bridge, getter, fa.store, fa.index,
                                  None, if a.value.Some? then a.value else analyzer);
        FieldsKeepEmbedded(g, dm.(fields := dm.fields + [field]), m, getter, analyzer, i + 1);
      }
    }
  }
}
