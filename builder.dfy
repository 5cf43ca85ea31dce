/**
 * `AttributeSearchMappingBuilder` as a class: its `level` and `maxLevel` fields and the
 * build context's `Processed` set are updated in place, as in the source, and every
 * method is proved to compute exactly what the functions of `MappingCompiler` describe.
 */
module Builder {
  import opened Wrappers
  import opened Int32
  import opened TypeModel
  import opened MappingModel
  import opened MappingCompiler

  /** The state of one `Build` call: the root type (for error messages) and the types being processed. */
  class BuildContext {
    const root: TypeId
    var processed: set<TypeId>

    constructor(root: TypeId)
      ensures this.root == root && processed == {root}
    {
      this.root := root;
      processed := {root};
    }
  }

  class AttributeSearchMappingBuilder {
    /** Reflection and the attribute-based mapping definition. */
    const g: TypeGraph
    var level: Int32
    var maxLevel: Int32

    constructor(g: TypeGraph)
      ensures this.g == g && level == 0 && maxLevel == MaxValue
    {
      this.g := g;
      level := 0;
      maxLevel := MaxValue;
    }

    /** The counters and the processed set, as the functions of `MappingCompiler` see them. */
    function StateOf(context: BuildContext): State
      reads this, context
    {
      State(level, maxLevel, context.processed)
    }

    /**
     * Builds the mapping of `t`. The counters are not reset first: they keep whatever the
     * previous call left in them, which is their initial value unless that call threw.
     */
    method Build(t: TypeId, fuel: nat) returns (r: Result<DocumentMapping, BuildError>)
      requires Valid(g)
      modifies this
      ensures var s := BuildF(g, fuel, t, old(level), old(maxLevel));
        r == s.result && level == s.st.level && maxLevel == s.st.maxLevel
    {
      var documentMapping := NewMapping(t).(boost := g.info(t).boost, indexName := Some(g.info(t).indexName));
      var context := new BuildContext(t);
      var built := BuildClass(documentMapping, true, "", context, fuel);
      if built.Err? {
        return built;
      }
      var withFilters := BuildFilterDefinitions(built.value);
      r := Ok(withFilters);
    }

    /** Appends the filter definitions declared on the mapped type, in order. */
    method BuildFilterDefinitions(classMapping: DocumentMapping) returns (r: DocumentMapping)
      ensures r == classMapping.(filters := classMapping.filters + g.info(classMapping.mappedClass).filters)
    {
      var defs := g.info(classMapping.mappedClass).filters;
      r := classMapping;
      for i := 0 to |defs|
        invariant r == classMapping.(filters := classMapping.filters + defs[..i])
      {
        r := r.(filters := r.filters + [defs[i]]);
        assert defs[..i + 1] == defs[..i] + [defs[i]];
      }
      assert defs[..|defs|] == defs;
    }

    /** The `do ... while` that collects the chain from `t` up to, but not including, `object`. */
    method CollectHierarchy(t: TypeId) returns (hierarchy: seq<TypeId>)
      requires Valid(g)
      ensures hierarchy == Hierarchy(g, t)
    {
      hierarchy := [];
      var currClass := t;
      while true
        invariant hierarchy + Hierarchy(g, currClass) == Hierarchy(g, t)
        decreases currClass
      {
        hierarchy := hierarchy + [currClass];
        var next := g.info(currClass).baseType;
        if next.None? || next.value == g.objectType {
          break;
        }
        assert hierarchy + Hierarchy(g, next.value) == Hierarchy(g, t);
        currClass := next.value;
      }
    }

    /**
     * `GetClassBridgeParameters`: hands each parameter declared on `t` to its class bridge and
     * returns the updated definitions with the errors it logs.
     */
    method GetClassBridgeParameters(t: TypeId, classBridges: seq<ClassBridgeDefinition>)
      returns (r: Result<Assignment, BuildError>)
      ensures r == AssignParameters(t, g.info(t).hasFieldBridge, g.info(t).bridgeParameters, 0, classBridges, [])
    {
      var fieldBridgeExists := g.info(t).hasFieldBridge;
      var parameters := g.info(t).bridgeParameters;
      var bridges := classBridges;
      var log: seq<Diagnostic> := [];
      for i := 0 to |parameters|
        invariant AssignParameters(t, fieldBridgeExists, parameters, i, bridges, log)
               == AssignParameters(t, fieldBridgeExists, parameters, 0, classBridges, [])
      {
        var parameter := parameters[i];
        if parameter.owner == "" {
          if !fieldBridgeExists {
            if |bridges| == 1 {
              if parameter.name in bridges[0].parameters {
                return Err(DuplicateParameter(bridges[0].name, parameter.name));
              }
              bridges := bridges[0 := bridges[0].(parameters := bridges[0].parameters[parameter.name := parameter.value])];
            } else {
              log := log + [ParameterNeedsOwner(t, parameter)];
            }
          }
        } else {
          var found := false;
          ghost var before := bridges;
          var j := 0;
          while j < |bridges|
            invariant 0 <= j <= |bridges|
            invariant !found && bridges == before
            invariant forall k :: 0 <= k < j ==> bridges[k].name != parameter.owner
          {
            if bridges[j].name == parameter.owner {
              if parameter.name in bridges[j].parameters {
                return Err(DuplicateParameter(bridges[j].name, parameter.name));
              }
              bridges := bridges[j := bridges[j].(parameters := bridges[j].parameters[parameter.name := parameter.value])];
              found := true;
              break;
            }
            j := j + 1;
          }
          if !found {
            log := log + [NoMatchingOwner(t, parameter)];
          }
        }
      }
      r := Ok(Assignment(bridges, log));
    }

    /** `BuildClass`: walks the chain base type first and builds every level into `documentMapping`. */
    method BuildClass(documentMapping: DocumentMapping, isRoot: bool, path: string, context: BuildContext, fuel: nat)
      returns (r: Result<DocumentMapping, BuildError>)
      requires Valid(g)
      modifies this, context
      ensures var s := BuildClassF(g, fuel, documentMapping, isRoot, path, context.root, old(StateOf(context)));
        r == s.result && StateOf(context) == s.st
      decreases fuel, 3, 1
    {
      var hierarchy := CollectHierarchy(documentMapping.mappedClass);
      ghost var total := BuildLevelsF(g, fuel, documentMapping, hierarchy, |hierarchy|, isRoot, path, context.root, StateOf(context));
      var current := documentMapping;
      var index := |hierarchy| - 1;
      while index >= 0
        invariant -1 <= index < |hierarchy|
        invariant BuildLevelsF(g, fuel, current, hierarchy, index + 1, isRoot, path, context.root, StateOf(context)) == total
        decreases index
      {
        var level := BuildLevel(current, hierarchy[index], isRoot, path, context, fuel);
        if level.Err? {
          return level;
        }
        current := level.value;
        index := index - 1;
      }
      r := Ok(current);
    }

    /** The body of the loop over the hierarchy in `BuildClass`: one class of the chain. */
    method BuildLevel(
      documentMapping: DocumentMapping, currClass: TypeId, isRoot: bool, path: string, context: BuildContext, fuel: nat)
      returns (r: Result<DocumentMapping, BuildError>)
      requires Valid(g)
      modifies this, context
      ensures var s := BuildLevelF(g, fuel, documentMapping, currClass, isRoot, path, context.root, old(StateOf(context)));
        r == s.result && StateOf(context) == s.st
      decreases fuel, 3, 0
    {
      var info := g.info(currClass);
      var localAnalyzer := GetAnalyzer(g, info.analyzer);
      if localAnalyzer.Err? {
        return Err(localAnalyzer.error);
      }
      var analyzer := if documentMapping.analyzer.Some? then documentMapping.analyzer else localAnalyzer.value;

      var classBridgeAttributes := GetClassBridgeParameters(currClass, info.classBridges);
      if classBridgeAttributes.Err? {
        return Err(classBridgeAttributes.error);
      }
      var defs := classBridgeAttributes.value.bridges;
      var current := documentMapping;
      for j := 0 to |defs|
        invariant AddClassBridges(g, current, defs, j, analyzer) == AddClassBridges(g, documentMapping, defs, 0, analyzer)
      {
        var bridge := BuildClassBridge(g, defs[j], analyzer);
        if bridge.Err? {
          return Err(bridge.error);
        }
        current := current.(classBridges := current.classBridges + [bridge.value]);
      }

      var properties := BuildMembers(current, info.properties, analyzer, isRoot, path, context, fuel);
      if properties.Err? {
        return properties;
      }
      r := BuildMembers(properties.value, info.fields, analyzer, isRoot, path, context, fuel);
    }

    /** The two `foreach` loops of `BuildClass`: `BuildProperty` for each member in order. */
    method BuildMembers(
      documentMapping: DocumentMapping, members: seq<Member>, analyzer: Option<Analyzer>,
      isRoot: bool, path: string, context: BuildContext, fuel: nat)
      returns (r: Result<DocumentMapping, BuildError>)
      requires Valid(g)
      modifies this, context
      ensures var s := BuildMembersF(g, fuel, documentMapping, members, 0, analyzer, isRoot, path, context.root, old(StateOf(context)));
        r == s.result && StateOf(context) == s.st
      decreases fuel, 2
    {
      ghost var total := BuildMembersF(g, fuel, documentMapping, members, 0, analyzer, isRoot, path, context.root, StateOf(context));
      var current := documentMapping;
      for i := 0 to |members|
        invariant BuildMembersF(g, fuel, current, members, i, analyzer, isRoot, path, context.root, StateOf(context)) == total
      {
        var built := BuildProperty(current, members[i], analyzer, isRoot, path, context, fuel);
        if built.Err? {
          return built;
        }
        current := built.value;
      }
      r := Ok(current);
    }

    /** `BuildProperty`: everything one member contributes to `documentMapping`. */
    method BuildProperty(
      documentMapping: DocumentMapping, member: Member, parentAnalyzer: Option<Analyzer>,
      isRoot: bool, path: string, context: BuildContext, fuel: nat)
      returns (r: Result<DocumentMapping, BuildError>)
      requires Valid(g)
      modifies this, context
      ensures var s := BuildPropertyF(g, fuel, documentMapping, member, parentAnalyzer, isRoot, path, context.root, old(StateOf(context)));
        r == s.result && StateOf(context) == s.st
      decreases fuel, 1
    {
      var memberAnalyzer := GetAnalyzer(g, member.analyzer);
      if memberAnalyzer.Err? {
        return Err(memberAnalyzer.error);
      }
      var analyzer := if memberAnalyzer.value.Some? then memberAnalyzer.value else parentAnalyzer;
      var boost := member.boost;
      var getterResult := GetGetterFast(documentMapping.mappedClass, member);
      if getterResult.Err? {
        return Err(getterResult.error);
      }
      var getter := getterResult.value;
      var current := documentMapping;
      if member.documentId.Some? {
        var documentIdName := DocumentIdName(member);
        var bridge := member.bridge;
        if isRoot {
          if !bridge.isTwoWay {
            return Err(BridgeNotTwoWay(member.name));
          }
          current := current.(documentId := Some(DocumentIdMapping(documentIdName, member.name, bridge, getter, boost)));
        } else {
          // Components index their document id as an ordinary stored, untokenized field.
          current := current.(fields := current.fields + [FieldMapping(AttributeName(member.name, documentIdName),
                                                                       bridge, getter, StoreYes, UnTokenized, boost, None)]);
        }
      }

      ghost var withId := current;
      for i := 0 to |member.fields|
        invariant BuildFields(g, current, member, getter, analyzer, i) == BuildFields(g, withId, member, getter, analyzer, 0)
      {
        var fieldAttribute := member.fields[i];
        var fieldAnalyzer := GetAnalyzerByType(g, fieldAttribute.analyzer);
        if fieldAnalyzer.Err? {
          return Err(fieldAnalyzer.error);
        }
        var field := FieldMapping(AttributeName(member.name, fieldAttribute.name), member.bridge, getter,
                                  fieldAttribute.store, fieldAttribute.index, None,
                                  if fieldAnalyzer.value.Some? then fieldAnalyzer.value else analyzer);
        current := current.(fields := current.fields + [field]);
      }

      assert BuildDocumentId(documentMapping, member, getter, boost, isRoot) == Ok(withId);
      assert BuildFields(g, withId, member, getter, analyzer, 0) == Ok(current);
      var withEmbedded := BuildEmbedded(current, member, getter, analyzer, path, context, fuel);
      if withEmbedded.Err? {
        return withEmbedded;
      }
      var result := withEmbedded.value;
      if member.containedIn {
        result := result.(containedIn := result.containedIn + [ContainedInMapping(getter)]);
      }
      r := Ok(result);
    }

    /** The `[IndexedEmbedded]` part of `BuildProperty`; `analyzer` is `GetAnalyzer(member) ?? parentAnalyzer`. */
    method BuildEmbedded(
      documentMapping: DocumentMapping, member: Member, getter: Getter, analyzer: Option<Analyzer>,
      path: string, context: BuildContext, fuel: nat)
      returns (r: Result<DocumentMapping, BuildError>)
      requires Valid(g)
      modifies this, context
      ensures var s := BuildEmbeddedF(g, fuel, documentMapping, member, getter, analyzer, path, context.root, old(StateOf(context)));
        r == s.result && StateOf(context) == s.st
      decreases fuel, 0
    {
      r := Ok(documentMapping);
      if member.embedded.Some? {
        var embeddedAttribute := member.embedded.value;
        var oldMaxLevel := maxLevel;
        var potentialLevel := PotentialLevel(embeddedAttribute.depth, level);
        maxLevel := if potentialLevel > maxLevel then maxLevel else potentialLevel;
        level := Add(level, 1);

        var elementType := ElementType(g, member);
        var localPrefix := LocalPrefix(member.name, embeddedAttribute.prefix);

        if maxLevel == MaxValue && elementType in context.processed {
          return Err(CircularReference(elementType, context.root, path + localPrefix));
        }

        if level <= maxLevel {
          if fuel == 0 {
            return Err(OutOfFuel);
          }
          context.processed := context.processed + {elementType}; // push
          var nested := NewMapping(elementType).(boost := member.boost, analyzer := analyzer);
          var built := BuildClass(nested, false, path + localPrefix, context, fuel - 1);
          if built.Err? {
            return built;
          }
          // The popped type is the member's collection type, which need not be the pushed element type.
          var actualFieldType := MemberTypeOrGenericCollectionType(g, member);
          var embedded := EmbeddedMapping(built.value, getter, localPrefix, g.info(actualFieldType).isEnumerable);
          r := Ok(documentMapping.(embedded := documentMapping.embedded + [embedded]));
          context.processed := context.processed - {actualFieldType}; // pop
        }

        level := Add(level, -1);
        maxLevel := oldMaxLevel;
      }
    }
  }
}
