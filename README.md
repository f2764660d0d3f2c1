# graphql-jit, compile-time core, in Dafny

graphql-jit compiles a GraphQL query into a Python module. Code generation walks the query
against the schema, one type shape at a time:

- Each case renders a Jinja template into program text.
- Each case records the values the text refers to (resolvers, field definitions,
  compile-time `ResolveInfo` records, leaf types) in a table of globals.
- These globals are keyed by names serialised from the field path.
- The units of program text and globals are merged, child before parent, into one module.
- The module is run to obtain its `execute` function, and that function is wrapped as a
  compiled document.

This project models that compile-time half and proves what it emits.

| module | file | models |
|---|---|---|
| `Wrappers` | Wrappers.dfy | `Option` and `Result` |
| `Language` | Language.dfy | type shapes, schema, selections, definitions, errors |
| `Naming` | Naming.dfy | `serialise_path` and the four name helpers, as `Join` over segments, plus name injectivity and its limits |
| `CodeUnits` | CodeUnits.dfy | code units (`CompileDocumentContext`); the pair merge, as a function and as the in-place dictionary update; the list merge as a left fold, with its reference definitions |
| `Compiler` | Compiler.dfy | see below |
| `Generate` | Generate.dfy | the generator, as mutually recursive functions over the type shapes |
| `GenerateProps` | GenerateProps.dfy | see below |
| `Document` | Document.dfy | see below |
| `Backend` | Backend.dfy | `document_from_string` as one function, with the route each kind of request takes |

`Compiler` holds the following:

- `CompilationContext`, whose `__init__` scan is a loop proved equal to a step function.
- Lemmas for each of the scan's exits.
- `get_field_resolver`.
- `get_sub_fields` with its cache of one-shot sub-field iterators, as a class method.

In `Generate`, the object case's loop is also a method proved equal to the recursive functions.

`GenerateProps` describes what generation emits with an independent reference, `Symbols`. A
symbol is a pair of a role (resolver, field definition, resolve info, leaf type) and a path.
The lemmas prove:

- a unit binds exactly the names of its symbols;
- every symbol lies below the path it was generated at;
- when sibling fields have distinct schema names, no symbol repeats, and on underscore-free
  paths no two names collide;
- two sibling selections of the same field do collide;
- what a sub-field's resolver, field-definition and resolve-info globals are bound to;
- the order of the code and of the object driver's field table;
- the layout of the whole module.

`Document` holds the following:

- `from_code`'s globals, built by a literal and an in-place `update`.
- The compiled document class.
- `execute`'s mapping of deprecated keyword arguments, with its deprecation warnings as a log.

Program text is symbolic: a rendered template is one `Tpl` piece that names the template and
its parameters, and `"\n\n"` is a literal piece. graphql-core's collaborators enter as
parameters:

- `collect_fields` is the context's `collect`.
- `parse` and `validate` are parameters of `DocumentFromString`.
- Running the module (`compile` plus `exec`) is `run`, from text and globals to the globals
  afterwards.

Termination of the generator rests on an abstract measure `depth`: every sub-field expanded
under the query's own fragment table is smaller than its parent. This stands for validation's rule that fragments do not form cycles.

## Model

| member | source | states |
|---|---|---|
| Naming.Join | graphql_jit/generate.py:29 | `"_".join`: a single segment is itself, no segments give the empty string |
| Naming.SerialisePath | graphql_jit/generate.py:27-29 | no contract of its own; specified by `Naming.PrefixedSerialisation` and `Naming.EmptyPrefixIsNoPrefix` |
| Naming.PrefixedSerialisation | graphql_jit/generate.py:27-29 | a truthy prefix on a non-empty path is the prefix, one `_`, then the plain serialisation |
| Naming.EmptyPrefixIsNoPrefix | graphql_jit/generate.py:28 | an empty prefix serialises exactly as no prefix |
| Naming.GetterName | graphql_jit/generate.py:36-37 | a non-empty path's getter name is `get_` followed by the path's serialisation |
| Naming.ResolverName | graphql_jit/generate.py:32-33 | a non-empty path's resolver name is `resolve_` followed by the path's serialisation |
| Naming.ResolveInfoName | graphql_jit/generate.py:40-41 | a non-empty path's resolve-info name is `resolve_info_` followed by the path's serialisation |
| Naming.FieldDefName | graphql_jit/generate.py:43-44 | a non-empty path's field-definition name is `get_field_defs_` followed by the path's serialisation |
| Naming.SerialisationCollides | graphql_jit/generate.py:27-37 | names are not unique per path: `["root","a_b"]` and `["root","a","b"]` differ but get the same getter name |
| Naming.JoinInjective | graphql_jit/generate.py:29 | joining is injective on non-empty lists of underscore-free segments |
| Naming.NameInjective | graphql_jit/generate.py:27-44 | two symbols whose paths start at `root` and have underscore-free segments share a name only if role and path are equal |
| Naming.NameInitial | graphql_jit/generate.py:32-44 | every name of a symbol rooted at `root` starts with `r` or `g` |
| CodeUnits.Render | graphql_jit/utils.py:17-20 | a rendered template is one uninterpreted piece naming its template |
| CodeUnits.MergePair | graphql_jit/generate.py:47-62 | the code is the child's, a blank line, then the parent's; the names are the union of both; on a clash the child's binding wins, otherwise the parent's is kept |
| CodeUnits.GlobalsDict.constructor | graphql_jit/document.py:21 | a dictionary literal holds exactly the given entries |
| CodeUnits.GlobalsDict.Update | graphql_jit/generate.py:57 | `dict.update`: the new entries are the old ones overlaid by the other's |
| CodeUnits.CompileDocumentContext.constructor | graphql_jit/generate.py:59-62 | a context holds the given code and dictionary object |
| CodeUnits.MergePairInPlace | graphql_jit/generate.py:47-62 | the parent's dictionary object is mutated and shared by the result; the result's value is `MergePair` of the old values; a distinct child dictionary is untouched |
| CodeUnits.MergeAll | graphql_jit/generate.py:65-71 | reduce without an initial value: an error exactly for the empty list, and that error is `EmptyReduce` |
| CodeUnits.MergeFrom | graphql_jit/generate.py:65-71 | no contract of its own; specified by `CodeUnits.MergeFromSpec` |
| CodeUnits.MergeFromSpec | graphql_jit/generate.py:68-71 | the left fold from an accumulator yields all codes joined in order and the first-wins globals |
| CodeUnits.MergeAllSpec | graphql_jit/generate.py:65-71 | a non-empty list merges to its codes in list order, separated by blank lines, and its globals with the earliest binding winning |
| CodeUnits.FirstWinsKeys | graphql_jit/generate.py:65-71 | the merged names are exactly the names bound by some unit |
| CodeUnits.AllKeysMembership | graphql_jit/generate.py:65-71 | a name is merged exactly when some unit of the list binds it |
| CodeUnits.FirstWinsAt | graphql_jit/generate.py:65-71 | on a clash the earliest unit that binds the name decides its value |
| CodeUnits.MergeSingleton | graphql_jit/generate.py:65-71 | a one-element list is returned unchanged |
| CodeUnits.MergeTwo | graphql_jit/generate.py:65-71 | merging a two-element list is the pair merge, the first element as the child |
| Compiler.Expand | graphql_jit/compiler.py:83-94 | a node without a selection set has no sub-fields |
| Compiler.SubFields | graphql_jit/generate.py:231 | the sub-fields the generator walks are empty for a node without a selection set |
| Compiler.FieldResolver | graphql_jit/compiler.py:73-76 | without middleware the resolver itself is returned, with middleware its decoration by that middleware |
| Compiler.ScanStep | graphql_jit/compiler.py:28-49 | no contract of its own; one pass of the scan loop, specified by `Compiler.ScanDefinitions` and the scan lemmas below |
| Compiler.SelectOperation | graphql_jit/compiler.py:28-58 | no contract of its own; specified by `Compiler.SelectUnnamed` and `Compiler.SelectNamed` |
| Compiler.ScanDefinitions | graphql_jit/compiler.py:25-58 | the loop over the definitions, with its variables `operation` and `fragments`, computes `SelectOperation` on every input, errors included |
| Compiler.ScanAppend | graphql_jit/compiler.py:28-49 | scanning a concatenation is scanning the first part, then the second from the state reached, unless the first part raised |
| Compiler.ScanLast | graphql_jit/compiler.py:28-49 | the scan of a non-empty list is one more step after the scan of all but its last definition |
| Compiler.ScanUnnamed | graphql_jit/compiler.py:28-40 | without a truthy name, a second operation raises `AmbiguousOperation`; otherwise the only operation seen is kept |
| Compiler.ScanNamed | graphql_jit/compiler.py:35-42 | with a name, the scan of operations and fragments never raises, keeps the last operation with that name and builds the fragment table |
| Compiler.SelectUnnamed | graphql_jit/compiler.py:28-58 | without a name: no operation gives `MissingOperation`, exactly one is selected, two or more give `AmbiguousOperation` |
| Compiler.SelectNamed | graphql_jit/compiler.py:35-58 | with a name: no operation of that name gives `UnknownOperation(name)`, else the last one of that name is selected |
| Compiler.UnsupportedStopsScan | graphql_jit/compiler.py:43-49 | a definition that is neither operation nor fragment ends the scan with its error, unless an earlier definition raised; later definitions are never examined |
| Compiler.LastMatchMatches | graphql_jit/compiler.py:35-40 | the selected operation carries the requested name, and one is selected exactly when some operation of the document matches |
| Compiler.FragmentTableLastWins | graphql_jit/compiler.py:41-42 | a fragment that no later fragment of the same name follows is the table's entry for its name |
| Compiler.FragmentTableKeys | graphql_jit/compiler.py:41-42 | the table has a key exactly when some fragment carries that name |
| Compiler.CompilationContext.Init | graphql_jit/compiler.py:60-71 | the fields are the given values and both caches start empty, hence drained |
| Compiler.CompilationContext.Build | graphql_jit/compiler.py:17-71 | the constructor raises exactly the scan's error; otherwise a fresh context holds the selected operation and fragments, the inputs and empty caches |
| Compiler.CompilationContext.GetFieldResolver | graphql_jit/compiler.py:73-76 | the context's hook is `FieldResolver` under its middleware; without middleware it is the identity |
| Compiler.CompilationContext.GetSubFields | graphql_jit/compiler.py:78-96 | a miss yields the expanded fields, which are empty without a selection set; a hit yields what the shared iterator has left, nothing once every entry has been looped over; afterwards the entry is drained, no other entry changes, draining is preserved and the other cache is untouched |
| Generate.GetFieldDef | graphql_jit/generate.py:235-237 | a definition is found exactly for a field the object type declares, and it is that declaration |
| Generate.ResponseKey | graphql_jit/generate.py:247 | the response key is the alias when there is one, else the field name |
| Generate.ItemFieldName | graphql_jit/generate.py:122 | a field's wrapper item name is its name followed by `-item`; an anonymous operation has no name to read |
| Generate.GenerateBasedOnType | graphql_jit/generate.py:74-112 | no contract of its own; the dispatch is specified per shape by `GenerateProps.GeneratedKeys`, `WrapperShape`, `ObjectShape`, `LeafUnit` and `OtherUnit` |
| Generate.NonNullSelection | graphql_jit/generate.py:115-158 | no contract of its own; specified by `GenerateProps.WrapperShape` and `GenerateProps.WrapperKeys` |
| Generate.LeafSelection | graphql_jit/generate.py:161-173 | no contract of its own; specified by `GenerateProps.LeafUnit` |
| Generate.ListSelection | graphql_jit/generate.py:176-217 | no contract of its own; specified by `GenerateProps.WrapperShape` and `GenerateProps.WrapperKeys` |
| Generate.ObjectSelection | graphql_jit/generate.py:220-284 | no contract of its own; specified by `GenerateProps.ObjectShape`, `GenerateProps.ObjectKeys` and `GenerateProps.MissingFieldFails` |
| Generate.FieldsLoop | graphql_jit/generate.py:232-273 | no contract of its own; specified by `GenerateProps.LoopKeys`, `LoopInfos`, `LoopChildren` and `LoopFirstMissing` |
| Generate.GenerateSource | graphql_jit/generate.py:287-309 | no contract of its own; specified by `GenerateProps.SourceUnit`, `SourceShape` and `SourceNames` |
| Generate.VisitField | graphql_jit/generate.py:233-273 | one pass of the object loop, run statement by statement, computes `FieldIteration`, including the missing-definition error |
| Generate.VisitFields | graphql_jit/generate.py:226-273 | the loop appending to the three accumulators computes `FieldsLoop` from the empty state |
| Generate.GenerateObjectSelection | graphql_jit/generate.py:220-284 | the imperative object case equals the recursive `ObjectSelection` |
| Generate.OperationRootType | graphql_jit/generate.py:292 | a resolved root type is an object type, and a query's is the schema's query type |
| GenerateProps.GeneratedKeys | graphql_jit/generate.py:74-284 | a successfully generated unit binds exactly the names of `Symbols`, the reference list of (role, path) pairs per shape |
| GenerateProps.WrapperKeys | graphql_jit/generate.py:115-217 | a non-null or list unit binds the child's names plus the one resolve-info name at the extended path |
| GenerateProps.ObjectKeys | graphql_jit/generate.py:220-284 | an object unit binds exactly the names of its sub-fields' symbols |
| GenerateProps.LoopKeys | graphql_jit/generate.py:232-273 | the loop binds the names it started with, plus three names per sub-field and its child's names |
| GenerateProps.WrapperShape | graphql_jit/generate.py:115-217 | a wrapper recurses at `path + ["non_null"]` or `path + ["item"]`; the child's code precedes the wrapper's own template; one resolve-info global is added, and the child's bindings are kept |
| GenerateProps.LeafUnit | graphql_jit/generate.py:161-173 | a scalar or enum unit is one `resolve_leaf.tpl` template and exactly one global, the path extended by the type name, bound to the type |
| GenerateProps.OtherUnit | graphql_jit/generate.py:112 | any other shape gives empty code and no globals |
| GenerateProps.SymbolsBelow | graphql_jit/generate.py:115-273 | every symbol emitted at a path lies strictly below it |
| GenerateProps.SymbolsUnique | graphql_jit/generate.py:232-273 | when siblings have distinct schema names at every depth, no symbol is emitted twice |
| GenerateProps.NoCollisions | graphql_jit/generate.py:27-44 | with distinct sibling names and underscore-free paths from `root`, distinct symbols get distinct names, so the unit has one global per symbol |
| GenerateProps.SameNameSiblingsCollide | graphql_jit/generate.py:242-268 | two sibling selections of the same schema field each emit the three own symbols at `path + [name]`, so each of those symbols occurs twice |
| GenerateProps.LaterSiblingWins | graphql_jit/generate.py:242-268 | in the loop's globals the later sibling's resolve info replaces the earlier one's under the shared name, and the two differ when the selections do |
| GenerateProps.StepBinds | graphql_jit/generate.py:239-267 | one pass binds the resolver name to the field's resolver (its own or `default_resolve_fn`) under the middleware, the field-definition name to the definition, and the resolve-info name to the resolve info |
| GenerateProps.LoopKeepsName | graphql_jit/generate.py:232-273 | a name no remaining sub-field writes keeps its binding, or its absence, through the rest of the loop |
| GenerateProps.LoopBindsField | graphql_jit/generate.py:232-273 | a sub-field whose names no later sub-field writes ends the loop with its own resolver, field definition and resolve info under them |
| GenerateProps.WritesInjective | graphql_jit/generate.py:242-246 | on rooted, underscore-free paths two sub-fields write a common name only when their field names are equal |
| GenerateProps.ChildMisses | graphql_jit/generate.py:269-284 | no child unit binds a name of a symbol one level below the object, since all its symbols lie deeper |
| GenerateProps.ObjectBindsField | graphql_jit/generate.py:220-284 | in the merged object unit, a sub-field with no later sibling of the same name keeps its resolver under the middleware, its field definition and its resolve info, on rooted, underscore-free paths |
| GenerateProps.LoopInfos | graphql_jit/generate.py:247-250 | the field table gains, in selection order, each sub-field's response key and its four names at `path + [schema name]` |
| GenerateProps.LoopChildren | graphql_jit/generate.py:270-273 | in a successful loop every sub-field has a definition and adds, in order, its generated unit as the next child |
| GenerateProps.ObjectShape | graphql_jit/generate.py:220-284 | an object unit is all child codes in selection order, then the driver; the earliest binding wins; the field table has one entry per sub-field; one child per sub-field |
| GenerateProps.LoopFirstMissing | graphql_jit/generate.py:235-237 | the loop stops at the first sub-field without a definition and reports its name |
| GenerateProps.MissingFieldFails | graphql_jit/generate.py:235-237 | a selected sub-field the schema does not declare makes the object case fail |
| GenerateProps.RootedNames | graphql_jit/generate.py:293-296 | every global generated at `["root"]` begins with `r` or `g` |
| GenerateProps.SourceUnit | graphql_jit/generate.py:287-309 | the module is the header, the operation's unit and the query driver in order, with the operation's globals over the driver's |
| GenerateProps.SourceNames | graphql_jit/generate.py:287-309 | the module's names are `schema`, `operation`, or generated names beginning with `r` or `g` |
| GenerateProps.MergeThree | graphql_jit/generate.py:301-309 | merging three units joins their codes in order, and on a clash the earlier unit wins |
| GenerateProps.SourceShape | graphql_jit/generate.py:287-309 | the code is header, operation, driver; the names are the operation's plus `schema` and `operation`, which keep the driver's bindings; the operation's bindings are unchanged |
| Document.InitialGlobals | graphql_jit/document.py:19-23 | `__file__` is seeded; non-empty extra globals overlay it, their values win, and `__file__` stays `<document>` unless the extras bind it |
| Document.SetUpGlobals | graphql_jit/document.py:21-23 | the literal followed by the in-place `update` builds `InitialGlobals` |
| Document.FromCodeSpec | graphql_jit/document.py:19-33 | success exactly when running the module leaves an `execute`, else the `KeyError`; the schema, code, query and AST are stored unchanged |
| Document.CompiledDocument.constructor | graphql_jit/document.py:27-32 | the object holds exactly the given fields |
| Document.CompiledDocument.FromCode | graphql_jit/document.py:19-33 | `from_code` as run statement by statement agrees with `FromCodeSpec`, error included |
| Document.DeprecationLogSpec | graphql_jit/document.py:36-56 | a warning is emitted for a deprecated keyword exactly when its argument is None and the keyword is present; warnings come once each in the order root, context, variables |
| Document.CompiledDocument.Execute | graphql_jit/document.py:35-64 | a non-None argument beats its deprecated alias, which otherwise stands in when present; `operation_name` comes from the keywords or is None; `execute_func` is called once with the four values; the warnings are the deprecation log |
| Backend.DocumentFromString | graphql_jit/backend.py:42-69 | for a query whose selected fragment table terminates (`QueryTerminates`): a parse error propagates; any validation error gives the generic document; a scan error propagates; a non-query gives the core backend's document for `(schema, query)`; a query gives the generation error, or the `from_code` error, or the compiled document loaded from the generated code and globals; a compiled document keeps the schema and query |
| Backend.CompiledOnlyFromValidQuery | graphql_jit/backend.py:42-69 | a compiled document comes only from a parsed, valid query operation, and is loaded from exactly the generated code and globals |
| Backend.GeneratedKeepsFile | graphql_jit/backend.py:60-68 | the generated globals never bind `__file__`, so the module still sees `<document>` |
| Backend.OptionsNotForwarded | graphql_jit/backend.py:48-58 | the root value never changes the outcome, and the middleware changes nothing except on the compiled route |

## Left out

- Template rendering (graphql_jit/utils.py) is uninterpreted. The templates are not part of
  this model, so the generated module's runtime behaviour is not modelled:
  - list order and length;
  - alias keys in results;
  - null propagation;
  - resolver calls.
- `compile` and `exec` in `from_code` are the parameter `run`. A syntax error raised by
  `compile`, and any exception raised while the module runs, are not modelled.
- `collect_fields` is an abstract function. It receives the fragment table and a selection
  set and returns an ordered list of fields; the merge by response key and the directive
  handling happen inside it.
- Generate.GetFieldDef: restricted to fields the object type declares. The introspection
  meta-fields (`__typename`, `__schema`, `__type`) are not modelled.
- `parse` and `validate` are parameters.
- `GraphQLCoreBackend` is modelled only as the document it returns for `(schema, query)`.
- `ResolveInfo` is an opaque record of the compile-time arguments.
- `get_operation_root_type` is modelled as the schema's root type per operation kind. A missing
  mutation or subscription root is an error.
- In the source a cached entry is a one-shot `itertools.chain` iterator. The model keeps what
  the iterator has left, and `GetSubFields` drains it on behalf of the caller's one loop.
  - The generator uses the uncached `SubFields`. So where the source reaches the same
    `(type, node)` a second time it gets an exhausted iterator and generates no sub-fields for
    it, and the model's generator does not reproduce this. An example is an object field selected
    inside a fragment `F` that is spread twice, as in `{ a { ...F } b { ...F } }`.
- Cache keys and `(type, node)` pairs compare by value, not by object identity.
- `print("Schema generation successful")` is not modelled.
- `warnings.warn` is modelled as the returned warning log. A warning is identified by its
  deprecated keyword; its text, fixed per keyword, is not modelled. Warning filters and `stacklevel`
  are not modelled.
- The extra positional `*args` of `execute` are ignored by the source and left out.
- `argument_values_cache` is never read or written after construction. It is kept as a field
  that stays empty.
- The root value is stored by the compilation context but never used by generation.
- Termination of the generator is assumed through `Progress` (strictly decreasing `depth`),
  required only of the fragment table that the query itself selects (`Backend.QueryTerminates`).
  This stands for validation's rule against fragment cycles, which `validate` enforces
  before generation runs.
- GenerateProps.NoCollisions: proved only for paths with underscore-free segments that start
  at `root`. This is a limit of the proof, not a collision in the source. The synthetic
  segment `non_null` contains `_`, so the name-level uniqueness covers no selection that
  reaches a non-null type.
- GenerateProps.ObjectBindsField: proved only on rooted, underscore-free paths, as for
  `NoCollisions`. It covers only a sub-field that no later sibling of the same name follows;
  for a later same-name sibling, `LaterSiblingWins` shows its resolve info replaces the earlier one's.
- benchmark/test.py is a timing harness and is not modelled.
