# NHibernate.Search mapping compiler, modelled in Dafny

This project models two pieces of NHibernate.Search.

**`AttributeSearchMappingBuilder`** compiles the search attributes on a .NET type into a
`DocumentMapping`. `Build(type)` works in four steps:

1. It creates the root mapping and seeds the build context's `Processed` set with the root type.
2. It walks the type's inheritance chain, base type first. Each level does these in order:
   - resolves its analyzer;
   - hands its bridge parameters to its class bridges;
   - builds those class bridges;
   - builds each declared property, then each declared field.
3. For every member it adds, in order: the document id (or, below the root, an id field), one
   field per `[Field]` attribute, an embedded sub-mapping for `[IndexedEmbedded]`, and a
   contained-in entry.
4. Finally it appends the type's filter definitions.

Recursion into embedded types is governed by the builder's `level` and `maxLevel` fields and by
the `Processed` set.

**`DocumentMap<T>`** is a small fluent builder. It records:

- an index name, which starts as the type's name;
- a document id member, which can be set once;
- per-type boost and analyzer entries;
- an ordered list of class bridge parts.

How the model is organised:

- Reflection is replaced by an explicit type graph (`TypeModel.TypeGraph`). Each type id maps to:
  - its base type;
  - its declared properties and fields;
  - its generic shape: arguments, definition, and whether it is enumerable;
  - whether it is an analyzer and whether it can be constructed;
  - its class-level attributes.
- The compiler is written twice: once as functions over an explicit traversal state
  (`MappingCompiler`, with `State(level, maxLevel, processed)`), and once imperatively
  (`Builder.AttributeSearchMappingBuilder`, a class whose `level` and `maxLevel` fields and whose
  `BuildContext.processed` set change in place). The class's methods are proved to compute
  exactly what the functions describe.
- The properties are lemmas about the functions:
  - the shape of the chain;
  - counters put back after every successful step;
  - the bound a finite depth puts on nesting;
  - cycle errors only under unlimited depth;
  - the build's contents, including which embeddings are expanded and what each nested mapping holds, against a reference walk of the members;
  - bridge parameter ownership;
  - concrete scenarios.
- `FluentMapping.DocumentMap` is a class whose methods update its fields in place.
- 32-bit wrap-around of `Depth + level` is explicit (`Int32.Add`).
- Recursion through embedded types is bounded by a `fuel` argument. Running out of fuel is a
  separate error, `OutOfFuel`, raised only where the source would recurse.

## Model

| member | source | states |
|---|---|---|
| Int32.Add | src/NHibernate.Search/Mapping/AttributeBased/AttributeSearchMappingBuilder.cs:198 | unchecked `int` addition: the exact sum when it fits, the sum minus 2^32 on overflow, plus 2^32 on underflow |
| MappingModel.NewMapping | src/NHibernate.Search/Mapping/AttributeBased/AttributeSearchMappingBuilder.cs:225-228 | a new mapping of a type has no id, boost, analyzer, fields, embeddings, class bridges, contained-in entries or filters |
| MappingCompiler.AttributeName | src/NHibernate.Search/Mapping/AttributeBased/AttributeSearchMappingBuilder.cs:267-270 | the explicit name when it is non-empty, the member's name otherwise |
| MappingCompiler.DocumentIdName | src/NHibernate.Search/Mapping/AttributeBased/AttributeSearchMappingBuilder.cs:143 | the id attribute's name whenever it is given (even empty), the member's name only when it is absent |
| MappingCompiler.GetGetterFast | src/NHibernate.Search/Mapping/AttributeBased/AttributeSearchMappingBuilder.cs:274-283 | a property gets a property getter and a field a field getter, both bound to the mapped type; it fails exactly for any other kind of member |
| MappingCompiler.GetAnalyzerByType | src/NHibernate.Search/Mapping/AttributeBased/AttributeSearchMappingBuilder.cs:322-334 | no type gives no analyzer; otherwise it succeeds exactly when the type is constructible and an analyzer, and else fails with the instantiation error |
| MappingCompiler.GetAnalyzer | src/NHibernate.Search/Mapping/AttributeBased/AttributeSearchMappingBuilder.cs:308-320 | no attribute gives no analyzer; a type that is not an analyzer is refused before instantiation; otherwise as `GetAnalyzerByType` |
| MappingCompiler.MemberTypeOrGenericArguments | src/NHibernate.Search/Mapping/AttributeBased/AttributeSearchMappingBuilder.cs:336-348 | the last generic argument of a generic member type, the member type otherwise |
| MappingCompiler.MemberTypeOrGenericCollectionType | src/NHibernate.Search/Mapping/AttributeBased/AttributeSearchMappingBuilder.cs:350-354 | the generic definition of a generic member type, the member type otherwise |
| MappingCompiler.ElementType | src/NHibernate.Search/Mapping/AttributeBased/AttributeSearchMappingBuilder.cs:207 | the target element override when given, else the member's last generic argument or type |
| MappingCompiler.LocalPrefix | src/NHibernate.Search/Mapping/AttributeBased/AttributeSearchMappingBuilder.cs:209 | the sentinel "." becomes `<member name>.`; any other prefix is kept verbatim |
| MappingCompiler.PotentialLevel | src/NHibernate.Search/Mapping/AttributeBased/AttributeSearchMappingBuilder.cs:198-202 | never negative; the exact `Depth + level` when it fits; unlimited when the wrapped sum is negative (so an unlimited depth stays unlimited); the wrapped value on underflow |
| MappingCompiler.Min | src/NHibernate.Search/Mapping/AttributeBased/AttributeSearchMappingBuilder.cs:204 | the smaller of the potential level and the current `maxLevel` |
| MappingCompiler.FirstOwner | src/NHibernate.Search/Mapping/AttributeBased/AttributeSearchMappingBuilder.cs:413-421 | the first class bridge whose name is the owner; none exactly when no bridge has that name |
| MappingCompiler.AddParameter | src/NHibernate.Search/Mapping/AttributeBased/AttributeSearchMappingBuilder.cs:396-417 | `Parameters.Add` fails exactly when the name is already on that bridge; otherwise only that bridge changes, gaining the entry |
| MappingCompiler.BuildClassBridge | src/NHibernate.Search/Mapping/AttributeBased/AttributeSearchMappingBuilder.cs:296-306 | copies name, bridge type, parameters, boost, index and store; uses the definition's own analyzer when it names one, else the class-level one; fails exactly when that analyzer cannot be instantiated |
| Builder.BuildContext.constructor | src/NHibernate.Search/Mapping/AttributeBased/AttributeSearchMappingBuilder.cs:51-55 | `Processed` starts as the root type alone |
| Builder.AttributeSearchMappingBuilder.constructor | src/NHibernate.Search/Mapping/AttributeBased/AttributeSearchMappingBuilder.cs:24-25 | `level` starts at 0 and `maxLevel` at `int.MaxValue` |
| Builder.AttributeSearchMappingBuilder.Build | src/NHibernate.Search/Mapping/AttributeBased/AttributeSearchMappingBuilder.cs:43-61 | the result and the counters left behind are those of `BuildF` from the counters the builder had before the call |
| Builder.AttributeSearchMappingBuilder.BuildFilterDefinitions | src/NHibernate.Search/Mapping/AttributeBased/AttributeSearchMappingBuilder.cs:63-69 | appends exactly the mapped type's filter definitions, in order, and changes nothing else |
| Builder.AttributeSearchMappingBuilder.CollectHierarchy | src/NHibernate.Search/Mapping/AttributeBased/AttributeSearchMappingBuilder.cs:76-84 | the do-while loop collects exactly `Hierarchy(t)` |
| Builder.AttributeSearchMappingBuilder.GetClassBridgeParameters | src/NHibernate.Search/Mapping/AttributeBased/AttributeSearchMappingBuilder.cs:374-431 | the loop with its `found` flag and `break` computes exactly `AssignParameters` |
| Builder.AttributeSearchMappingBuilder.BuildClass | src/NHibernate.Search/Mapping/AttributeBased/AttributeSearchMappingBuilder.cs:71-126 | result, counters and processed set are those of `BuildClassF` from the state before the call |
| Builder.AttributeSearchMappingBuilder.BuildLevel | src/NHibernate.Search/Mapping/AttributeBased/AttributeSearchMappingBuilder.cs:87-125 | one class of the hierarchy (analyzer, class bridges, properties, fields): result and state are those of `BuildLevelF` |
| Builder.AttributeSearchMappingBuilder.BuildMembers | src/NHibernate.Search/Mapping/AttributeBased/AttributeSearchMappingBuilder.cs:113-124 | result and state are those of `BuildMembersF` |
| Builder.AttributeSearchMappingBuilder.BuildProperty | src/NHibernate.Search/Mapping/AttributeBased/AttributeSearchMappingBuilder.cs:128-259 | result and state are those of `BuildPropertyF` |
| Builder.AttributeSearchMappingBuilder.BuildEmbedded | src/NHibernate.Search/Mapping/AttributeBased/AttributeSearchMappingBuilder.cs:194-253 | result and state are those of `BuildEmbeddedF`: tighten and raise the counters, check for a cycle, push, recurse, pop, put the counters back |
| CompilerProperties.HierarchyShape | src/NHibernate.Search/Mapping/AttributeBased/AttributeSearchMappingBuilder.cs:76-84 | the chain starts at the type, each next entry is the previous one's base, it stops at a type without base or whose base is `object`, never contains `object` after the first entry, and has no repeats |
| CompilerProperties.ClassRestores | src/NHibernate.Search/Mapping/AttributeBased/AttributeSearchMappingBuilder.cs:71-126 | a successful class build leaves `level` and `maxLevel` as it found them |
| CompilerProperties.LevelsRestore | src/NHibernate.Search/Mapping/AttributeBased/AttributeSearchMappingBuilder.cs:86-125 | the same for the loop over the levels |
| CompilerProperties.LevelRestores | src/NHibernate.Search/Mapping/AttributeBased/AttributeSearchMappingBuilder.cs:95-124 | the same for one level |
| CompilerProperties.MembersRestore | src/NHibernate.Search/Mapping/AttributeBased/AttributeSearchMappingBuilder.cs:113-124 | the same for a member loop, so every sibling sees the counters its predecessor saw |
| CompilerProperties.PropertyRestores | src/NHibernate.Search/Mapping/AttributeBased/AttributeSearchMappingBuilder.cs:128-259 | the same for one member |
| CompilerProperties.EmbeddedRestores | src/NHibernate.Search/Mapping/AttributeBased/AttributeSearchMappingBuilder.cs:197-252 | a successful embedding, built or skipped, puts `level` and `maxLevel` back |
| CompilerProperties.BuildIsRepeatable | src/NHibernate.Search/Mapping/AttributeBased/AttributeSearchMappingBuilder.cs:43-61 | after a successful `Build` the counters are unchanged, so a second `Build` of the same type yields the same result |
| CompilerProperties.ClassBounded | src/NHibernate.Search/Mapping/AttributeBased/AttributeSearchMappingBuilder.cs:197-232 | with a finite `maxLevel`, a successful class build nests at most `maxLevel - level` levels, and no circular-reference error can occur |
| CompilerProperties.LevelsBounded | src/NHibernate.Search/Mapping/AttributeBased/AttributeSearchMappingBuilder.cs:86-125 | the same bound for the loop over the levels |
| CompilerProperties.LevelBounded | src/NHibernate.Search/Mapping/AttributeBased/AttributeSearchMappingBuilder.cs:95-124 | the same bound for one level |
| CompilerProperties.MembersBounded | src/NHibernate.Search/Mapping/AttributeBased/AttributeSearchMappingBuilder.cs:113-124 | the same bound for a member loop |
| CompilerProperties.PropertyBounded | src/NHibernate.Search/Mapping/AttributeBased/AttributeSearchMappingBuilder.cs:128-259 | the same bound for one member |
| CompilerProperties.EmbeddedBounded | src/NHibernate.Search/Mapping/AttributeBased/AttributeSearchMappingBuilder.cs:197-245 | the same bound for one embedding: a nested mapping is one level deeper than its own content |
| CompilerProperties.CycleCheck | src/NHibernate.Search/Mapping/AttributeBased/AttributeSearchMappingBuilder.cs:211-219 | with the tightened `maxLevel` unlimited and the element type being processed, the member fails with a circular reference naming the element type, the root and `path + localPrefix`; any other circular reference comes from the nested build |
| CompilerProperties.EmbeddingDepthBound | src/NHibernate.Search/Mapping/AttributeBased/AttributeSearchMappingBuilder.cs:197-232 | a member with finite `Depth` nests at most `Depth` levels below itself however deep the surrounding limit, with no cycle error beneath it |
| CompilerProperties.ClassBridgesOnly | src/NHibernate.Search/Mapping/AttributeBased/AttributeSearchMappingBuilder.cs:103-107 | adding class bridges changes only the class bridge list and fails only on an analyzer that cannot be instantiated |
| CompilerProperties.FieldsKeepEmbedded | src/NHibernate.Search/Mapping/AttributeBased/AttributeSearchMappingBuilder.cs:178-191 | building `[Field]` attributes changes only the field list and fails only on an analyzer that cannot be instantiated |
| ParameterProperties.Target | src/NHibernate.Search/Mapping/AttributeBased/AttributeSearchMappingBuilder.cs:389-421 | an owned parameter targets the first bridge of that name; an unowned one targets bridge 0 exactly when there is no field bridge and exactly one class bridge |
| ParameterProperties.Logged | src/NHibernate.Search/Mapping/AttributeBased/AttributeSearchMappingBuilder.cs:398-428 | a parameter is logged exactly when it has no target and is not an unowned parameter claimed by a field bridge |
| ParameterProperties.AssignmentKeepsEntries | src/NHibernate.Search/Mapping/AttributeBased/AttributeSearchMappingBuilder.cs:383-430 | on success the bridge count is unchanged and every entry a bridge already had keeps its value |
| ParameterProperties.AssignmentStoresTargeted | src/NHibernate.Search/Mapping/AttributeBased/AttributeSearchMappingBuilder.cs:389-421 | on success every parameter with a target is on that bridge with its value |
| ParameterProperties.AssignmentAddsOnlyTargeted | src/NHibernate.Search/Mapping/AttributeBased/AttributeSearchMappingBuilder.cs:389-421 | on success every entry of a bridge was there before or comes from a parameter targeting that bridge |
| ParameterProperties.AssignmentLogsDropped | src/NHibernate.Search/Mapping/AttributeBased/AttributeSearchMappingBuilder.cs:398-428 | on success the log gains exactly the lines of the dropped parameters, in order |
| ParameterProperties.AssignmentKeepsBridges | src/NHibernate.Search/Mapping/AttributeBased/AttributeSearchMappingBuilder.cs:374-431 | on success every class bridge definition differs from the original at most in its parameters |
| ParameterProperties.AssignmentFailsIffClash | src/NHibernate.Search/Mapping/AttributeBased/AttributeSearchMappingBuilder.cs:396-417 | the step fails, always with `DuplicateParameter`, exactly when some parameter goes to a bridge that already has, or already received, its name |
| TraversalProperties.FieldsOutline | src/NHibernate.Search/Mapping/AttributeBased/AttributeSearchMappingBuilder.cs:178-191 | each `[Field]` attribute appends exactly one field, in attribute order, named by `GetAttributeName`, with its store and index and the member's bridge |
| TraversalProperties.EmbeddedOnly | src/NHibernate.Search/Mapping/AttributeBased/AttributeSearchMappingBuilder.cs:194-253 | the embedding part of a member changes only the embedded list |
| TraversalProperties.DocumentIdOutline | src/NHibernate.Search/Mapping/AttributeBased/AttributeSearchMappingBuilder.cs:140-170 | on the root an id member replaces the document id, and needs a two-way bridge; below the root the document id is untouched and a stored, untokenized field is appended |
| TraversalProperties.PropertyOutline | src/NHibernate.Search/Mapping/AttributeBased/AttributeSearchMappingBuilder.cs:128-259 | one member contributes exactly the reference `Visit`: its id field or id, its `[Field]` fields, its contained-in entry |
| TraversalProperties.MembersOutline | src/NHibernate.Search/Mapping/AttributeBased/AttributeSearchMappingBuilder.cs:113-124 | a member loop contributes the members' contributions in declaration order |
| TraversalProperties.BridgesOutline | src/NHibernate.Search/Mapping/AttributeBased/AttributeSearchMappingBuilder.cs:103-107 | a level's class bridges are appended in declaration order |
| TraversalProperties.LevelOutline | src/NHibernate.Search/Mapping/AttributeBased/AttributeSearchMappingBuilder.cs:95-124 | one level adds its declared class bridges and then visits its properties before its fields |
| TraversalProperties.LevelsOutline | src/NHibernate.Search/Mapping/AttributeBased/AttributeSearchMappingBuilder.cs:86-125 | the levels are processed from the last chain entry (the base type) to the first |
| TraversalProperties.NonRootKeepsDocumentId | src/NHibernate.Search/Mapping/AttributeBased/AttributeSearchMappingBuilder.cs:157-169 | below the root no member ever sets the document id |
| TraversalProperties.BuildContents | src/NHibernate.Search/Mapping/AttributeBased/AttributeSearchMappingBuilder.cs:43-126 | a successful `Build` has the type's index name, boost and filters; its fields, contained-in count and document id are those of the reference walk over every member, base type first; its class bridges are the declared ones, base type first; every id member has a two-way bridge |
| TraversalProperties.ClassOutline | src/NHibernate.Search/Mapping/AttributeBased/AttributeSearchMappingBuilder.cs:71-126 | a successful class build, root or nested, adds the reference walk over every member of the mapped type and its bases and their declared class bridges, base type first, and keeps the mapping's header |
| EmbeddingProperties.NestedHasNoId | src/NHibernate.Search/Mapping/AttributeBased/AttributeSearchMappingBuilder.cs:157-169 | below the root a successful class build leaves the document id as it was, so a nested mapping never carries one |
| EmbeddingProperties.EmbeddedOutline | src/NHibernate.Search/Mapping/AttributeBased/AttributeSearchMappingBuilder.cs:194-253 | a successful embedding adds exactly one entry when `level + 1` does not pass the tightened bound and none otherwise; earlier entries stay; the entry has the local prefix, the member's getter, the collection flag and a nested mapping of the element type with the member's boost and analyzer, no id, no index name or filters, and the element type's walk below the root |
| EmbeddingProperties.PropertyEmbeds | src/NHibernate.Search/Mapping/AttributeBased/AttributeSearchMappingBuilder.cs:128-259 | one member adds to the embedded list only its own embedded entry, if its depth lets it through |
| EmbeddingProperties.MembersEmbeds | src/NHibernate.Search/Mapping/AttributeBased/AttributeSearchMappingBuilder.cs:113-124 | a member loop adds the members' embedded entries in declaration order, each judged at the same counters |
| EmbeddingProperties.LevelEmbeds | src/NHibernate.Search/Mapping/AttributeBased/AttributeSearchMappingBuilder.cs:95-124 | one level adds the embedded entries of its properties, then of its fields; class bridges add none |
| EmbeddingProperties.LevelsEmbeds | src/NHibernate.Search/Mapping/AttributeBased/AttributeSearchMappingBuilder.cs:86-125 | the levels add their embedded entries base type first |
| EmbeddingProperties.BuildEmbeddings | src/NHibernate.Search/Mapping/AttributeBased/AttributeSearchMappingBuilder.cs:43-61 | the embedded entries of a successful `Build` are exactly those of the members, base type first, whose embedding the depth bound lets through at the builder's counters |
| Scenarios.UnlimitedSelfEmbeddingFails | src/NHibernate.Search/Mapping/AttributeBased/AttributeSearchMappingBuilder.cs:197-219 | a type embedding itself with the default depth fails with a circular reference at path `Parent.`, and the raised `level` stays raised |
| Scenarios.NodeChain | src/NHibernate.Search/Mapping/AttributeBased/AttributeSearchMappingBuilder.cs:197-252 | below the root, with `maxLevel` equal to a depth `0 < d < int.MaxValue` and enough fuel, a self-embedding type nests exactly `d - level` levels and then stops silently, even where `Depth + level` overflows |
| Scenarios.LimitedSelfEmbeddingNestsDepth | src/NHibernate.Search/Mapping/AttributeBased/AttributeSearchMappingBuilder.cs:197-252 | a self-embedding with `Depth = d`, for any `0 < d < int.MaxValue` and enough fuel, succeeds with exactly `d` nested levels and leaves the counters at their defaults (at `d = int.MaxValue` it fails, see `UnlimitedSelfEmbeddingFails`) |
| Scenarios.CollectionEmbedding | src/NHibernate.Search/Mapping/AttributeBased/AttributeSearchMappingBuilder.cs:207-243 | an `IList<Address>` member embeds `Address`, with prefix `Addresses.` and the collection flag set |
| Scenarios.SiblingEmbeddingsOfOneType | src/NHibernate.Search/Mapping/AttributeBased/AttributeSearchMappingBuilder.cs:222-244 | two sibling `Address` members both embed, and `Processed` is back to the root alone |
| Scenarios.CollectionLeavesElementTypeProcessed | src/NHibernate.Search/Mapping/AttributeBased/AttributeSearchMappingBuilder.cs:224-244 | an `IList<Address>` member followed by an `Address` member fails with a circular reference: the push adds `Address`, the pop removes `IList<>` |
| FluentMapping.ClassBridgePart.constructor | src/NHibernate.Search.Fluent/Mapping/DocumentMap.cs:133 | a new part records its bridge type and starts without parameters |
| FluentMapping.Definitions | src/NHibernate.Search.Fluent/Mapping/DocumentMap.cs:62 | one definition per part, in order |
| FluentMapping.DocumentMap.constructor | src/NHibernate.Search.Fluent/Mapping/DocumentMap.cs:33-40 | the name is the type's name, there is no id, and the boost and analyzer dictionaries and the part list are empty |
| FluentMapping.DocumentMap.ClassBridges | src/NHibernate.Search.Fluent/Mapping/DocumentMap.cs:60-63 | as many definitions as parts, each the definition of the part at the same position |
| FluentMapping.DocumentMap.FieldMappings | src/NHibernate.Search.Fluent/Mapping/DocumentMap.cs:65-68 | always fails as not implemented |
| FluentMapping.DocumentMap.AnalyzerType | src/NHibernate.Search.Fluent/Mapping/DocumentMap.cs:70-77 | the entry stored for the document type, or none when there is no entry |
| FluentMapping.DocumentMap.SetAnalyzerType | src/NHibernate.Search.Fluent/Mapping/DocumentMap.cs:78 | overwrites the document type's analyzer entry and nothing else |
| FluentMapping.DocumentMap.Name | src/NHibernate.Search.Fluent/Mapping/DocumentMap.cs:85-88 | replaces the index name and nothing else |
| FluentMapping.DocumentMap.Id | src/NHibernate.Search.Fluent/Mapping/DocumentMap.cs:95-100 | with an id already set it fails and changes nothing; otherwise it sets the id; nothing else changes |
| FluentMapping.DocumentMap.Boost | src/NHibernate.Search.Fluent/Mapping/DocumentMap.cs:106-109 | overwrites the document type's boost entry and touches no other key or field |
| FluentMapping.DocumentMap.Bridge | src/NHibernate.Search.Fluent/Mapping/DocumentMap.cs:131-136 | appends exactly one new part for the bridge type at the end, returns that part, and leaves earlier parts in place |
| FluentMapping.IdIsSetOnlyOnce | src/NHibernate.Search.Fluent/Mapping/DocumentMap.cs:95-100 | a second `Id` fails with "Id can be set only once" and the first member stays |
| FluentMapping.LastWriteWins | src/NHibernate.Search.Fluent/Mapping/DocumentMap.cs:70-109 | only the last boost and analyzer writes for the type are kept, and the analyzer getter reads back what was last set (none before any write) |
| FluentMapping.BridgesInOrder | src/NHibernate.Search.Fluent/Mapping/DocumentMap.cs:131-136 | two `Bridge` calls give two definitions in call order, and the parts are the ones returned |

## Behaviour of the source worth knowing

- **Depth.** A negative `Depth` is not simply unlimited: only a negative `Depth + level` (after
  32-bit wrap-around) becomes `int.MaxValue`. A `Depth` of 0 makes `maxLevel` equal to the current
  level, so the embedding is skipped.
- **Document id.** Two document id members on the root do not fail: the later one overwrites the
  earlier (`IdAfter`). The root's document id is never also added as a field.
- **Bridge parameters.** Parameters are added with `Dictionary.Add`, which throws when a name is
  already present on the same bridge, so this step can fail; `AssignmentFailsIffClash` states
  exactly when. It never fails for any other reason: a parameter that finds no owner is logged.
- **Push and pop.** The type pushed on `Processed` before an embedding is the element type. The type
  popped afterwards is the member type, or its generic definition. For a collection (or a
  `TargetElement` override) the element type stays in `Processed`, and a later sibling of that type
  under unlimited depth is reported as a circular reference
  (`Scenarios.CollectionLeavesElementTypeProcessed`).
- **Counters after an exception.** The counters are fields of the builder, not of one `Build` call.
  When an exception escapes, they keep the values they had when it was thrown, and the next `Build`
  on the same builder starts from them (`Scenarios.UnlimitedSelfEmbeddingFails`).

## Left out

- .NET reflection (`GetProperties`, `GetFields`, `BaseType`, generic type queries, `IsAssignableFrom`) is replaced by the explicit type graph; declared members come in a fixed order per level.
- The attribute lookups of the mapping definition are fields of each type and member. Each query is assumed to return fresh definition objects, as reflection does for attribute instances, so parameters added during one `Build` are not seen by the next.
- `BridgeFactory.GuessType` and `BridgeFactory.ExtractType` are foreign calls. A member's field bridge is a given tag with a two-way flag, and a class bridge keeps its declared bridge type.
- `Activator.CreateInstance` and Lucene analyzer instances are given per type as two flags: "is an analyzer" and "can be constructed". An analyzer is an opaque tag.
- Getters are opaque values naming the mapped type and the member.
- Logging is left out. `LogParameterError` becomes a diagnostics sequence, and the debug line written when the depth is reached is dropped.
- Boost values (`float?`) are carried as opaque reals with no arithmetic.
- The message texts of the exceptions are not modelled; each error records the data its message names (for an unsupported member, its kind of `MemberInfo`), and a duplicate parameter records the bridge and parameter names.
- The `Root` of the build context is modelled as the root type, the only part of it the compiler reads.
- BuildClass, BuildProperty, BuildEmbedded: the `DocumentMapping` tree is a value threaded through the methods and returned, not an object mutated in place. The class bridge definitions are likewise returned updated, so aliasing of these objects is not captured.
- Termination of the embedded recursion is not proved. A `fuel` bound stands in for it, and a build that would recurse more than `fuel` times ends with `OutOfFuel`, which the source has no counterpart for.
- `DocumentMap.Analyzer()` and `Analyzer<TAnalyzer>()` depend on `AnalyzerPart`, which is not part of this model.
- `ClassBridgePart` is not part of this model beyond recording its bridge type. The other fields of a new part's definition are placeholder values.
- `property.ToPropertyInfo()` is not modelled; the member an expression designates is given directly as a `MemberRef`.
- The `DocumentType` and `IdProperty` interface properties are plain fields of the class.
- The test project's session setup and its fluent sample mappings are not modelled. The Contact/Address scenarios are built on attribute-based types instead.
