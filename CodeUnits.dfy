/**
 * Code units and their merge (graphql_jit/generate.py, `merge_compile_document_context_pair`
 * and `merge_compile_document_contexts`).
 *
 * A code unit is program text plus a table of captured globals. The text is kept
 * symbolic: each rendered template is one `Tpl` piece naming the template and its
 * parameters, so the model needs no template semantics.
 */
module CodeUnits {
  import opened Wrappers
  import opened Language

  /** One entry of an object driver's `sub_fields_info`. */
  datatype SubFieldInfo = SubFieldInfo(
    responseName: string,
    getterName: string,
    resolverName: string,
    resolveInfoName: string,
    fieldDefName: string)

  datatype Arg = StrArg(s: string) | InfosArg(infos: seq<SubFieldInfo>)

  /** A piece of program text: literal text, or the output of rendering a template. */
  datatype Piece = Lit(text: string) | Tpl(template: string, params: seq<(string, Arg)>)

  type Text = seq<Piece>

  const Separator: Text := [Lit("\n\n")]

  /** `render_template(name, **params)`: one uninterpreted piece of text. */
  function Render(template: string, params: seq<(string, Arg)>): (t: Text)
    ensures |t| == 1 && t[0].Tpl? && t[0].template == template
  {
    [Tpl(template, params)]
  }

  /** The `field_asts` argument of a ResolveInfo: a bare node, or a list of nodes. */
  datatype AstArg = SingleAst(node: Node) | AstList(nodes: seq<Node>)

  /** The graphql-core ResolveInfo built at compile time; its runtime-only fields are left unset. */
  datatype ResolveInfo = ResolveInfo(
    fieldName: string,
    fieldAsts: AstArg,
    returnType: GqlType,
    parentType: GqlType,
    schema: Schema,
    operation: OperationDef,
    fragments: map<string, FragmentDef>)

  /** A value captured in the generated program's globals. */
  datatype Binding =
    | InfoBinding(info: ResolveInfo)
    | TypeBinding(leafType: GqlType)
    | ResolverBinding(resolver: Resolver)
    | FieldDefBinding(def: FieldDef)
    | SchemaBinding(schema: Schema)
    | OperationBinding(operation: OperationDef)
    | TextBinding(text: string)
    | CodeObject(name: string)        // an object defined by running the generated module, such as `execute`

  /** `CompileDocumentContext`: program text and its globals. */
  datatype CodeUnit = CodeUnit(code: Text, globals: map<string, Binding>)

  /**
   * Merging a pair puts the child's code first, and overlays the child's globals on the
   * parent's, so on a shared name the child's binding wins.
   */
  function MergePair(child: CodeUnit, parent: CodeUnit): (r: CodeUnit)
    ensures r.code == child.code + Separator + parent.code
    ensures r.globals.Keys == child.globals.Keys + parent.globals.Keys
    ensures forall k :: k in child.globals ==> r.globals[k] == child.globals[k]
    ensures forall k :: k in parent.globals && k !in child.globals ==> r.globals[k] == parent.globals[k]
  {
    CodeUnit(child.code + Separator + parent.code, parent.globals + child.globals)
  }

  /** `functools.reduce(merge_pair, rest, acc)`: the left fold, the accumulator always as child. */
  function MergeFrom(acc: CodeUnit, rest: seq<CodeUnit>): CodeUnit
    decreases |rest|
  {
    if rest == [] then acc else MergeFrom(MergePair(acc, rest[0]), rest[1..])
  }

  /** `merge_compile_document_contexts`: reduce without an initial value fails on an empty list. */
  function MergeAll(units: seq<CodeUnit>): (r: Result<CodeUnit, Error>)
    ensures r.Err? <==> units == []
    ensures r.Err? ==> r.error == EmptyReduce
  {
    if units == [] then Err(EmptyReduce) else Ok(MergeFrom(units[0], units[1..]))
  }

  // Reference definitions: what the fold computes, stated without the fold.

  /** All codes in list order, separated by a blank line. */
  function JoinCodes(units: seq<CodeUnit>): Text
    requires units != []
  {
    if |units| == 1 then units[0].code else units[0].code + Separator + JoinCodes(units[1..])
  }

  /** All globals, where the earliest unit that binds a name decides its value. */
  function FirstWins(units: seq<CodeUnit>): map<string, Binding> {
    if units == [] then map[] else FirstWins(units[1..]) + units[0].globals
  }

  /** The names bound by some unit of the list. */
  function AllKeys(units: seq<CodeUnit>): set<string> {
    if units == [] then {} else units[0].globals.Keys + AllKeys(units[1..])
  }

  lemma {:induction false} FirstWinsKeys(units: seq<CodeUnit>)
    ensures FirstWins(units).Keys == AllKeys(units)
  {
    if units != [] { FirstWinsKeys(units[1..]); }
  }

  /** A name is bound by the list exactly when some unit binds it. */
  lemma {:induction false} AllKeysMembership(units: seq<CodeUnit>, k: string)
    ensures k in AllKeys(units) <==> exists i :: 0 <= i < |units| && k in units[i].globals
  {
    if units != [] {
      AllKeysMembership(units[1..], k);
      if k in AllKeys(units[1..]) {
        var i :| 0 <= i < |units[1..]| && k in units[1..][i].globals;
        assert k in units[i + 1].globals;
      }
      if exists i :: 0 <= i < |units| && k in units[i].globals {
        var i :| 0 <= i < |units| && k in units[i].globals;
        if i > 0 { assert k in units[1..][i - 1].globals; }
      }
    }
  }

  /** On a collision the earliest unit's binding wins. */
  lemma {:induction false} FirstWinsAt(units: seq<CodeUnit>, i: nat, k: string)
    requires i < |units| && k in units[i].globals
    requires forall j :: 0 <= j < i ==> k !in units[j].globals
    ensures k in FirstWins(units) && FirstWins(units)[k] == units[i].globals[k]
  {
    if i > 0 {
      assert k !in units[0].globals;
      forall j | 0 <= j < i - 1 ensures k !in units[1..][j].globals {
        assert units[1..][j] == units[j + 1];
      }
      FirstWinsAt(units[1..], i - 1, k);
    }
  }

  lemma JoinCodesCons(u: CodeUnit, us: seq<CodeUnit>)
    ensures JoinCodes([u] + us) == if us == [] then u.code else u.code + Separator + JoinCodes(us)
  {
    if us != [] { assert ([u] + us)[1..] == us; }
  }

  lemma FirstWinsCons(u: CodeUnit, us: seq<CodeUnit>)
    ensures FirstWins([u] + us) == FirstWins(us) + u.globals
  {
    assert ([u] + us)[1..] == us;
  }

  lemma {:induction false} MergeFromCode(acc: CodeUnit, rest: seq<CodeUnit>)
    ensures MergeFrom(acc, rest).code == JoinCodes([acc] + rest)
    decreases |rest|
  {
    if rest != [] {
      var m := MergePair(acc, rest[0]);
      var tail := rest[1..];
      MergeFromCode(m, tail);
      JoinCodesCons(m, tail);
      JoinCodesCons(acc, rest);
      JoinCodesCons(rest[0], tail);
      assert [rest[0]] + tail == rest;
    }
  }

  lemma MapUnionAssoc(a: map<string, Binding>, b: map<string, Binding>, c: map<string, Binding>)
    ensures (a + b) + c == a + (b + c)
  {
  }

  lemma {:induction false} MergeFromGlobals(acc: CodeUnit, rest: seq<CodeUnit>)
    ensures MergeFrom(acc, rest).globals == FirstWins([acc] + rest)
    decreases |rest|
  {
    if rest == [] {
      FirstWinsCons(acc, rest);
    } else {
      var m := MergePair(acc, rest[0]);
      var tail := rest[1..];
      MergeFromGlobals(m, tail);
      FirstWinsCons(m, tail);
      FirstWinsCons(acc, rest);
      FirstWinsCons(rest[0], tail);
      assert [rest[0]] + tail == rest;
      MapUnionAssoc(FirstWins(tail), rest[0].globals, acc.globals);
      assert m.globals == rest[0].globals + acc.globals;
    }
  }

  /** The left fold from an accumulator yields the joined codes and first-wins globals. */
  lemma MergeFromSpec(acc: CodeUnit, rest: seq<CodeUnit>)
    ensures MergeFrom(acc, rest) == CodeUnit(JoinCodes([acc] + rest), FirstWins([acc] + rest))
  {
    MergeFromCode(acc, rest);
    MergeFromGlobals(acc, rest);
  }

  /** A non-empty list merges to its codes joined in order and its globals, earliest wins. */
  lemma MergeAllSpec(units: seq<CodeUnit>)
    requires units != []
    ensures MergeAll(units) == Ok(CodeUnit(JoinCodes(units), FirstWins(units)))
  {
    MergeFromSpec(units[0], units[1..]);
    assert [units[0]] + units[1..] == units;
  }

  /** A one-element list is returned unchanged. */
  lemma MergeSingleton(u: CodeUnit)
    ensures MergeAll([u]) == Ok(u)
  {
  }

  /** Merging two units as a list is merging them as a pair, the first as the child. */
  lemma MergeTwo(child: CodeUnit, parent: CodeUnit)
    ensures MergeAll([child, parent]) == Ok(MergePair(child, parent))
  {
    assert [child, parent][1..] == [parent];
    assert [parent][1..] == [];
    assert MergeFrom(child, [parent]) == MergeFrom(MergePair(child, parent), []);
  }

  /** A mutable globals dictionary, for the in-place form of the pair merge. */
  class GlobalsDict {
    var entries: map<string, Binding>

    constructor (entries: map<string, Binding>)
      ensures this.entries == entries
    {
      this.entries := entries;
    }

    /** `dict.update(other)`: the other's entries overwrite. */
    method Update(other: map<string, Binding>)
      modifies this
      ensures entries == old(entries) + other
    {
      entries := entries + other;
    }
  }

  /** A code unit whose globals are a shared, mutable dictionary, as in the source. */
  class CompileDocumentContext {
    const code: Text
    const globals: GlobalsDict

    constructor (code: Text, globals: GlobalsDict)
      ensures this.code == code && this.globals == globals
    {
      this.code := code;
      this.globals := globals;
    }

    function Value(): CodeUnit
      reads this, globals
    {
      CodeUnit(code, globals.entries)
    }
  }

  /**
   * The pair merge as the source runs it: the parent's dictionary is updated in place
   * with the child's globals and becomes the result's dictionary, so the parent object
   * and the result share it afterwards. The result's value is `MergePair` of the old values.
   */
  method MergePairInPlace(child: CompileDocumentContext, parent: CompileDocumentContext)
    returns (r: CompileDocumentContext)
    modifies parent.globals
    ensures fresh(r) && r.globals == parent.globals
    ensures r.Value() == MergePair(old(child.Value()), old(parent.Value()))
    ensures child.globals != parent.globals ==> child.globals.entries == old(child.globals.entries)
  {
    var childGlobals := child.globals.entries;
    parent.globals.Update(childGlobals);
    r := new CompileDocumentContext(child.code + Separator + parent.code, parent.globals);
  }
}
