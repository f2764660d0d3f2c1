/**
 * The compilation context (graphql_jit/compiler.py): the single scan over a document's
 * definitions that selects the operation and collects fragments, the middleware hook,
 * and the cache of sub-field iterators.
 */
module Compiler {
  import opened Wrappers
  import opened Language

  /**
   * graphql-core's `collect_fields`: expands a selection set against a type, given the
   * fragment table, to an ordered list of fields. It is a collaborator, left abstract.
   */
  type Collector = (map<string, FragmentDef>, GqlType, seq<Selection>) -> seq<Field>

  /** The sub-fields of a node against a type, before any caching; no selection set gives none. */
  function Expand(collect: Collector, fragments: map<string, FragmentDef>, t: GqlType, node: Node): (fields: seq<Field>)
    ensures SelectionsOf(node) == [] ==> fields == []
  {
    if SelectionsOf(node) == [] then [] else collect(fragments, t, SelectionsOf(node))
  }

  /**
   * Every expanded sub-field is strictly smaller than its parent under `depth`, so the
   * expanded selection tree is finite (which validation's rule against fragment cycles provides).
   */
  ghost predicate Progress(collect: Collector, depth: Node -> nat, fragments: map<string, FragmentDef>) {
    forall t: GqlType, n: Node, g: Field :: g in Expand(collect, fragments, t, n) ==> depth(FieldNode(g)) < depth(n)
  }

  /** The read-only part of a compilation context that code generation consults. */
  datatype Context = Context(
    schema: Schema,
    operation: OperationDef,
    fragments: map<string, FragmentDef>,
    middleware: Option<Middleware>,
    collect: Collector,
    depth: Node -> nat)
  {
    ghost predicate Terminating() {
      Progress(collect, depth, fragments)
    }
  }

  function SubFields(ctx: Context, t: GqlType, node: Node): (fields: seq<Field>)
    ensures SelectionsOf(node) == [] ==> fields == []
  {
    Expand(ctx.collect, ctx.fragments, t, node)
  }

  /** `get_field_resolver`: the resolver itself without middleware, else the middleware's decoration of it. */
  function FieldResolver(middleware: Option<Middleware>, r: Resolver): (d: Resolver)
    ensures middleware.None? ==> d == r
    ensures middleware.Some? ==> d == Decorated(middleware.value, r)
  {
    if middleware.None? then r else Decorated(middleware.value, r)
  }

  // ---- Operation and fragment selection ----

  /** Python truthiness of the optional operation name: present and non-empty. */
  predicate Truthy(name: Option<string>) {
    name.Some? && name.value != ""
  }

  /** An operation is selected by a truthy name when it carries exactly that name. */
  predicate NameMatches(name: Option<string>, op: OperationDef) {
    Truthy(name) && op.name.Some? && op.name.value == name.value
  }

  /** The loop's state: the operation chosen so far and the fragment map. */
  datatype ScanState = ScanState(operation: Option<OperationDef>, fragments: map<string, FragmentDef>)

  const InitialScan := ScanState(None, map[])

  /** One iteration of the loop over `document_ast.definitions`. */
  function ScanStep(name: Option<string>, st: ScanState, d: Definition): Result<ScanState, Error> {
    match d
    case OperationDefinition(op) =>
      if !Truthy(name) && st.operation.Some? then Err(AmbiguousOperation)
      else if !Truthy(name) || NameMatches(name, op) then Ok(st.(operation := Some(op)))
      else Ok(st)
    case FragmentDefinition(f) => Ok(st.(fragments := st.fragments[f.name := f]))
    case OtherDefinition(k) => Err(UnsupportedDefinition(k))
  }

  /** The loop from a given state over the remaining definitions; the first error ends it. */
  function ScanFrom(name: Option<string>, st: ScanState, defs: seq<Definition>): Result<ScanState, Error>
    decreases |defs|
  {
    if defs == [] then Ok(st)
    else match ScanStep(name, st, defs[0])
      case Err(e) => Err(e)
      case Ok(st') => ScanFrom(name, st', defs[1..])
  }

  /** The whole scan of `CompilationContext.__init__`, with the check that an operation was found. */
  function SelectOperation(name: Option<string>, defs: seq<Definition>): Result<(OperationDef, map<string, FragmentDef>), Error> {
    match ScanFrom(name, InitialScan, defs)
    case Err(e) => Err(e)
    case Ok(st) =>
      if st.operation.None? then
        (if Truthy(name) then Err(UnknownOperation(name.value)) else Err(MissingOperation))
      else Ok((st.operation.value, st.fragments))
  }

  /** The loop as the source runs it, proved to compute `SelectOperation`. */
  method ScanDefinitions(name: Option<string>, defs: seq<Definition>)
    returns (r: Result<(OperationDef, map<string, FragmentDef>), Error>)
    ensures r == SelectOperation(name, defs)
  {
    var operation: Option<OperationDef> := None;
    var fragments: map<string, FragmentDef> := map[];
    var i := 0;
    while i < |defs|
      invariant 0 <= i <= |defs|
      invariant ScanFrom(name, InitialScan, defs) == ScanFrom(name, ScanState(operation, fragments), defs[i..])
    {
      assert defs[i..][1..] == defs[i + 1..];
      match defs[i] {
        case OperationDefinition(op) =>
          if !Truthy(name) && operation.Some? {
            return Err(AmbiguousOperation);
          }
          if !Truthy(name) || NameMatches(name, op) {
            operation := Some(op);
          }
        case FragmentDefinition(f) =>
          fragments := fragments[f.name := f];
        case OtherDefinition(k) =>
          return Err(UnsupportedDefinition(k));
      }
      i := i + 1;
    }
    if operation.None? {
      if Truthy(name) {
        return Err(UnknownOperation(name.value));
      }
      return Err(MissingOperation);
    }
    r := Ok((operation.value, fragments));
  }

  // Reference definitions of what the scan selects, over documents of operations and fragments.

  predicate Executable(d: Definition) {
    d.OperationDefinition? || d.FragmentDefinition?
  }

  /** The operations of a document, in document order. */
  function Operations(defs: seq<Definition>): seq<OperationDef> {
    if defs == [] then []
    else
      var last := if defs[|defs| - 1].OperationDefinition? then [defs[|defs| - 1].operation] else [];
      Operations(defs[..|defs| - 1]) + last
  }

  /** The fragment table, where a later fragment of the same name replaces an earlier one. */
  function FragmentTable(defs: seq<Definition>): map<string, FragmentDef> {
    if defs == [] then map[]
    else
      var t := FragmentTable(defs[..|defs| - 1]);
      match defs[|defs| - 1]
      case FragmentDefinition(f) => t[f.name := f]
      case _ => t
  }

  /** The last operation of the document whose name is the requested one. */
  function LastMatch(name: Option<string>, defs: seq<Definition>): Option<OperationDef> {
    if defs == [] then None
    else match defs[|defs| - 1]
      case OperationDefinition(op) =>
        if NameMatches(name, op) then Some(op) else LastMatch(name, defs[..|defs| - 1])
      case _ => LastMatch(name, defs[..|defs| - 1])
  }

  /** Scanning a concatenation is scanning the first part, then the second from where it left off. */
  lemma {:induction false} ScanAppend(name: Option<string>, st: ScanState, a: seq<Definition>, b: seq<Definition>)
    ensures ScanFrom(name, st, a + b) ==
      match ScanFrom(name, st, a)
      case Err(e) => Err(e)
      case Ok(s) => ScanFrom(name, s, b)
    decreases |a|
  {
    if a == [] {
      assert a + b == b;
    } else {
      assert (a + b)[0] == a[0] && (a + b)[1..] == a[1..] + b;
      match ScanStep(name, st, a[0])
      case Err(e) =>
      case Ok(s) => ScanAppend(name, s, a[1..], b);
    }
  }

  lemma ScanLast(name: Option<string>, defs: seq<Definition>)
    requires defs != []
    ensures ScanFrom(name, InitialScan, defs) ==
      match ScanFrom(name, InitialScan, defs[..|defs| - 1])
      case Err(e) => Err(e)
      case Ok(s) => ScanStep(name, s, defs[|defs| - 1])
  {
    var init, d := defs[..|defs| - 1], defs[|defs| - 1];
    ScanAppend(name, InitialScan, init, [d]);
    assert init + [d] == defs;
    match ScanFrom(name, InitialScan, init)
    case Err(e) =>
    case Ok(s) =>
      assert [d][1..] == [];
      match ScanStep(name, s, d)
      case Err(e) =>
      case Ok(s') =>
  }

  /** Without an operation name: the scan fails on the second operation, else keeps the one it saw. */
  lemma {:induction false} ScanUnnamed(name: Option<string>, defs: seq<Definition>)
    requires !Truthy(name)
    requires forall i :: 0 <= i < |defs| ==> Executable(defs[i])
    ensures |Operations(defs)| >= 2 ==> ScanFrom(name, InitialScan, defs) == Err(AmbiguousOperation)
    ensures |Operations(defs)| < 2 ==> (ScanFrom(name, InitialScan, defs) ==
      Ok(ScanState(if |Operations(defs)| == 1 then Some(Operations(defs)[0]) else None, FragmentTable(defs))))
    decreases |defs|
  {
    if defs != [] {
      var init := defs[..|defs| - 1];
      ScanUnnamed(name, init);
      ScanLast(name, defs);
    }
  }

  /** With an operation name: the scan never fails on executable definitions, and keeps the last match. */
  lemma {:induction false} ScanNamed(name: Option<string>, defs: seq<Definition>)
    requires Truthy(name)
    requires forall i :: 0 <= i < |defs| ==> Executable(defs[i])
    ensures ScanFrom(name, InitialScan, defs) == Ok(ScanState(LastMatch(name, defs), FragmentTable(defs)))
    decreases |defs|
  {
    if defs != [] {
      var init := defs[..|defs| - 1];
      ScanNamed(name, init);
      ScanLast(name, defs);
    }
  }

  /**
   * Without a (truthy) operation name: a document with no operation is "Must provide an
   * operation.", one operation is selected, and a second operation is ambiguous.
   */
  lemma SelectUnnamed(name: Option<string>, defs: seq<Definition>)
    requires !Truthy(name)
    requires forall i :: 0 <= i < |defs| ==> Executable(defs[i])
    ensures |Operations(defs)| == 0 ==> SelectOperation(name, defs) == Err(MissingOperation)
    ensures |Operations(defs)| == 1 ==> SelectOperation(name, defs) == Ok((Operations(defs)[0], FragmentTable(defs)))
    ensures |Operations(defs)| >= 2 ==> SelectOperation(name, defs) == Err(AmbiguousOperation)
  {
    ScanUnnamed(name, defs);
  }

  /**
   * With an operation name: the last operation of that name is selected (unnamed operations
   * never match); if there is none, the result is the unknown-operation error.
   */
  lemma SelectNamed(name: Option<string>, defs: seq<Definition>)
    requires Truthy(name)
    requires forall i :: 0 <= i < |defs| ==> Executable(defs[i])
    ensures LastMatch(name, defs).None? ==> SelectOperation(name, defs) == Err(UnknownOperation(name.value))
    ensures LastMatch(name, defs).Some? ==> SelectOperation(name, defs) == Ok((LastMatch(name, defs).value, FragmentTable(defs)))
  {
    ScanNamed(name, defs);
  }

  /**
   * A definition that is neither an operation nor a fragment ends the scan: the result
   * does not depend on anything after it, and is its error unless an earlier one was raised.
   */
  lemma UnsupportedStopsScan(name: Option<string>, pre: seq<Definition>, k: string, post: seq<Definition>)
    ensures SelectOperation(name, pre + [OtherDefinition(k)] + post) ==
      match ScanFrom(name, InitialScan, pre)
      case Err(e) => Err(e)
      case Ok(_) => Err(UnsupportedDefinition(k))
  {
    ScanAppend(name, InitialScan, pre, [OtherDefinition(k)] + post);
    assert pre + [OtherDefinition(k)] + post == pre + ([OtherDefinition(k)] + post);
  }

  /** The selected operation's name matches the requested one whenever a name was given. */
  lemma {:induction false} LastMatchMatches(name: Option<string>, defs: seq<Definition>)
    ensures LastMatch(name, defs).Some? ==> NameMatches(name, LastMatch(name, defs).value)
    ensures LastMatch(name, defs).Some? <==>
      exists i :: 0 <= i < |defs| && defs[i].OperationDefinition? && NameMatches(name, defs[i].operation)
    decreases |defs|
  {
    if defs != [] {
      var init := defs[..|defs| - 1];
      LastMatchMatches(name, init);
      if exists i :: 0 <= i < |init| && init[i].OperationDefinition? && NameMatches(name, init[i].operation) {
        var i :| 0 <= i < |init| && init[i].OperationDefinition? && NameMatches(name, init[i].operation);
        assert defs[i] == init[i];
      }
      if exists i :: 0 <= i < |defs| && defs[i].OperationDefinition? && NameMatches(name, defs[i].operation) {
        var i :| 0 <= i < |defs| && defs[i].OperationDefinition? && NameMatches(name, defs[i].operation);
        if i < |init| { assert init[i] == defs[i]; }
      }
    }
  }

  /** A name is in the fragment table exactly when some fragment carries it, and maps to the last such fragment. */
  lemma {:induction false} FragmentTableLastWins(defs: seq<Definition>, i: nat)
    requires i < |defs| && defs[i].FragmentDefinition?
    requires forall j :: i < j < |defs| ==> !(defs[j].FragmentDefinition? && defs[j].fragment.name == defs[i].fragment.name)
    ensures defs[i].fragment.name in FragmentTable(defs)
    ensures FragmentTable(defs)[defs[i].fragment.name] == defs[i].fragment
    decreases |defs|
  {
    var init := defs[..|defs| - 1];
    if i < |defs| - 1 {
      forall j | i < j < |init| ensures !(init[j].FragmentDefinition? && init[j].fragment.name == init[i].fragment.name) {
        assert init[j] == defs[j];
      }
      FragmentTableLastWins(init, i);
      assert init[i] == defs[i];
    }
  }

  lemma {:induction false} FragmentTableKeys(defs: seq<Definition>, k: string)
    ensures k in FragmentTable(defs) <==>
      exists i :: 0 <= i < |defs| && defs[i].FragmentDefinition? && defs[i].fragment.name == k
    decreases |defs|
  {
    if defs != [] {
      var init := defs[..|defs| - 1];
      FragmentTableKeys(init, k);
      if exists i :: 0 <= i < |init| && init[i].FragmentDefinition? && init[i].fragment.name == k {
        var i :| 0 <= i < |init| && init[i].FragmentDefinition? && init[i].fragment.name == k;
        assert defs[i] == init[i];
      }
      if exists i :: 0 <= i < |defs| && defs[i].FragmentDefinition? && defs[i].fragment.name == k {
        var i :| 0 <= i < |defs| && defs[i].FragmentDefinition? && defs[i].fragment.name == k;
        if i < |init| { assert init[i] == defs[i]; }
      }
    }
  }

  // ---- The context object ----

  /** `CompilationContext`: built once per compile request; only its caches change afterwards. */
  class CompilationContext {
    const schema: Schema
    const fragments: map<string, FragmentDef>
    const documentAst: DocumentAst
    const rootValue: Value
    const operation: OperationDef
    const middleware: Option<Middleware>
    const collect: Collector
    const depth: Node -> nat
    var argumentValuesCache: map<(FieldDef, Field), map<string, Value>>
    var subfieldsCache: map<(GqlType, Node), seq<Field>>

    /** The field assignments at the end of `__init__`, once the scan has succeeded. */
    constructor Init(schema: Schema, documentAst: DocumentAst, rootValue: Value, operation: OperationDef,
                     fragments: map<string, FragmentDef>, middleware: Option<Middleware>,
                     collect: Collector, depth: Node -> nat)
      ensures this.schema == schema && this.documentAst == documentAst && this.rootValue == rootValue
      ensures this.operation == operation && this.fragments == fragments && this.middleware == middleware
      ensures this.collect == collect && this.depth == depth
      ensures argumentValuesCache == map[] && subfieldsCache == map[] && Drained()
    {
      this.schema := schema;
      this.fragments := fragments;
      this.documentAst := documentAst;
      this.rootValue := rootValue;
      this.operation := operation;
      this.argumentValuesCache := map[];
      this.middleware := middleware;
      this.subfieldsCache := map[];
      this.collect := collect;
      this.depth := depth;
    }

    /** `CompilationContext(...)`: the scan raises, or a context with the selected operation and empty caches. */
    static method Build(schema: Schema, documentAst: DocumentAst, rootValue: Value, operationName: Option<string>,
                        middleware: Option<Middleware>, collect: Collector, depth: Node -> nat)
      returns (r: Result<CompilationContext, Error>)
      ensures SelectOperation(operationName, documentAst.definitions).Err? <==> r.Err?
      ensures r.Err? ==> r.error == SelectOperation(operationName, documentAst.definitions).error
      ensures r.Ok? ==> (fresh(r.value)
        && (r.value.operation, r.value.fragments) == SelectOperation(operationName, documentAst.definitions).value
        && r.value.schema == schema && r.value.documentAst == documentAst && r.value.rootValue == rootValue
        && r.value.middleware == middleware && r.value.collect == collect && r.value.depth == depth
        && r.value.argumentValuesCache == map[] && r.value.subfieldsCache == map[])
    {
      var scan := ScanDefinitions(operationName, documentAst.definitions);
      if scan.Err? {
        return Err(scan.error);
      }
      var c := new CompilationContext.Init(schema, documentAst, rootValue, scan.value.0, scan.value.1,
                                           middleware, collect, depth);
      r := Ok(c);
    }

    /** `get_field_resolver`. */
    function GetFieldResolver(r: Resolver): (d: Resolver)
      ensures d == FieldResolver(middleware, r)
      ensures middleware.None? ==> d == r
    {
      FieldResolver(middleware, r)
    }

    /**
     * Every cached entry is what its iterator still has to yield: nothing, once the loop
     * that received the iterator has run over it.
     */
    ghost predicate Drained()
      reads this
    {
      forall k :: k in subfieldsCache ==> subfieldsCache[k] == []
    }

    /**
     * `get_sub_fields` together with the one loop over its result, the only way it is used.
     * The cache holds a one-shot iterator, so the entry is what that iterator has left: on a
     * miss the expanded fields are stored and then drained; on a hit the shared iterator
     * yields only what remains, which is nothing once every earlier result was looped over.
     */
    method GetSubFields(parentType: GqlType, node: Node) returns (fields: seq<Field>)
      modifies this
      ensures (parentType, node) !in old(subfieldsCache) ==> fields == Expand(collect, fragments, parentType, node)
      ensures (parentType, node) !in old(subfieldsCache) && SelectionsOf(node) == [] ==> fields == []
      ensures (parentType, node) in old(subfieldsCache) ==> fields == old(subfieldsCache)[(parentType, node)]
      ensures (parentType, node) in old(subfieldsCache) && old(Drained()) ==> fields == []
      ensures subfieldsCache == old(subfieldsCache)[(parentType, node) := []]
      ensures old(Drained()) ==> Drained()
      ensures argumentValuesCache == old(argumentValuesCache)
    {
      var k := (parentType, node);
      if k !in subfieldsCache {
        var subfieldAsts: seq<Field> := [];
        var selectionSet := SelectionsOf(node);
        if selectionSet != [] {
          subfieldAsts := collect(fragments, parentType, selectionSet);
        }
        subfieldsCache := subfieldsCache[k := subfieldAsts];
      }
      fields := subfieldsCache[k];
      subfieldsCache := subfieldsCache[k := []];  // the loop over the result drains the shared iterator
    }
  }
}
