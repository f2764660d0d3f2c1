/**
 * What the generator emits. `Symbols` is an independent account of the globals each
 * type shape contributes, as (role, path) pairs; the lemmas prove that a generated
 * unit binds exactly their names, that every symbol lies strictly below the path it was
 * generated at, and that no two symbols coincide when sibling fields have distinct
 * schema names. They also fix the order of code and the object driver's field table.
 */
module GenerateProps {
  import opened Wrappers
  import opened Language
  import opened Naming
  import opened CodeUnits
  import opened Compiler
  import opened Generate

  /** The three globals an object's sub-field binds at its path. */
  function OwnSymbols(p: Path): seq<Symbol> {
    [Symbol(ResolverRole, p), Symbol(FieldDefRole, p), Symbol(ResolveInfoRole, p)]
  }

  /** The symbols generation at `path` emits for type `t`, in source order. */
  function Symbols(ctx: Context, t: GqlType, node: Node, path: Path): seq<Symbol>
    requires ctx.Terminating()
    decreases ctx.depth(node), t, 1, 0
  {
    match t
    case NonNull(of) => [Symbol(ResolveInfoRole, path + ["non_null"])] + Symbols(ctx, of, node, path + ["non_null"])
    case ListOf(of) => [Symbol(ResolveInfoRole, path + ["item"])] + Symbols(ctx, of, node, path + ["item"])
    case Object(_) => FieldSymbols(ctx, t, node, path, SubFields(ctx, t, node))
    case Scalar(n) => [Symbol(LeafTypeRole, path + [n])]
    case Enum(n) => [Symbol(LeafTypeRole, path + [n])]
    case Other(_) => []
  }

  function FieldSymbols(ctx: Context, t: GqlType, node: Node, path: Path, subs: seq<Field>): seq<Symbol>
    requires ctx.Terminating()
    requires forall g :: g in subs ==> ctx.depth(FieldNode(g)) < ctx.depth(node)
    decreases ctx.depth(node), t, 0, |subs|
  {
    if subs == [] then []
    else match GetFieldDef(ctx.schema, t, subs[0].name)
      case None => []
      case Some(def) =>
        var p := path + [subs[0].name];
        OwnSymbols(p) + Symbols(ctx, def.fieldType, FieldNode(subs[0]), p) + FieldSymbols(ctx, t, node, path, subs[1..])
  }

  function Names(syms: seq<Symbol>): set<string> {
    set s | s in syms :: Name(s)
  }

  lemma NamesAppend(a: seq<Symbol>, b: seq<Symbol>)
    ensures Names(a + b) == Names(a) + Names(b)
  {
    assert forall s :: s in a + b <==> s in a || s in b;
  }

  lemma {:induction false} AllKeysAppend(us: seq<CodeUnit>, u: CodeUnit)
    ensures AllKeys(us + [u]) == AllKeys(us) + u.globals.Keys
  {
    if us == [] {
      assert [u][1..] == [];
    } else {
      assert (us + [u])[1..] == us[1..] + [u];
      AllKeysAppend(us[1..], u);
    }
  }

  lemma MergeAllKeys(us: seq<CodeUnit>)
    requires us != []
    ensures MergeAll(us).Ok? && MergeAll(us).value.globals.Keys == AllKeys(us)
  {
    MergeAllSpec(us);
    FirstWinsKeys(us);
  }

  // ---- A generated unit binds exactly the names of its symbols ----

  /** Generation binds exactly the names of `Symbols`: no more, no fewer. */
  lemma {:induction false} GeneratedKeys(ctx: Context, t: GqlType, node: Node, path: Path)
    requires ctx.Terminating()
    requires GenerateBasedOnType(ctx, t, node, path).Ok?
    ensures GenerateBasedOnType(ctx, t, node, path).value.globals.Keys == Names(Symbols(ctx, t, node, path))
    decreases ctx.depth(node), t, 1, 0
  {
    match t
    case NonNull(_) => WrapperKeys(ctx, t, node, path);
    case ListOf(_) => WrapperKeys(ctx, t, node, path);
    case Object(_) => ObjectKeys(ctx, t, node, path);
    case Scalar(n) => NamesOfSingle(Symbol(LeafTypeRole, path + [n]));
    case Enum(n) => NamesOfSingle(Symbol(LeafTypeRole, path + [n]));
    case Other(_) =>
  }

  lemma {:induction false} WrapperKeys(ctx: Context, t: GqlType, node: Node, path: Path)
    requires ctx.Terminating() && (t.NonNull? || t.ListOf?)
    requires GenerateBasedOnType(ctx, t, node, path).Ok?
    ensures GenerateBasedOnType(ctx, t, node, path).value.globals.Keys == Names(Symbols(ctx, t, node, path))
    decreases ctx.depth(node), t, 0, 0
  {
    var np := path + [if t.NonNull? then "non_null" else "item"];
    WrapperShape(ctx, t, node, path, np);
    GeneratedKeys(ctx, t.ofType, node, np);
    NamesAppend([Symbol(ResolveInfoRole, np)], Symbols(ctx, t.ofType, node, np));
    NamesOfSingle(Symbol(ResolveInfoRole, np));
  }

  lemma {:induction false} ObjectKeys(ctx: Context, t: GqlType, node: Node, path: Path)
    requires ctx.Terminating() && t.Object?
    requires GenerateBasedOnType(ctx, t, node, path).Ok?
    ensures GenerateBasedOnType(ctx, t, node, path).value.globals.Keys == Names(Symbols(ctx, t, node, path))
    decreases ctx.depth(node), t, 0, |SubFields(ctx, t, node)| + 1
  {
    var subs := SubFields(ctx, t, node);
    var fin := FieldsLoop(ctx, t, node, path, subs, EmptyAcc).value;
    LoopKeys(ctx, t, node, path, subs, EmptyAcc);
    MergeAllKeys(fin.children + [DriverUnit(path, fin)]);
    AllKeysAppend(fin.children, DriverUnit(path, fin));
  }

  /**
   * A wrapper's unit: the child's code, then the wrapper's own getter; the child's bindings
   * (which win on a clash), plus the one resolve-info global at `np`.
   */
  lemma WrapperShape(ctx: Context, t: GqlType, node: Node, path: Path, np: Path)
    requires ctx.Terminating() && (t.NonNull? || t.ListOf?)
    requires np == path + [if t.NonNull? then "non_null" else "item"]
    requires GenerateBasedOnType(ctx, t, node, path).Ok?
    ensures ItemFieldName(node).Ok? && GenerateBasedOnType(ctx, t.ofType, node, np).Ok?
    ensures var u := GenerateBasedOnType(ctx, t, node, path).value;
      var child := GenerateBasedOnType(ctx, t.ofType, node, np).value;
      && u.code == child.code + Separator + (if t.NonNull? then NonNullCode(path, np) else ListCode(path, np))
      && u.globals.Keys == child.globals.Keys + {ResolveInfoName(np)}
      && (forall k :: k in child.globals ==> u.globals[k] == child.globals[k])
      && (ResolveInfoName(np) !in child.globals ==>
            u.globals[ResolveInfoName(np)] == InfoBinding(WrapperInfo(ctx, ItemFieldName(node).value, node, t)))
  {
    var child := GenerateBasedOnType(ctx, t.ofType, node, np);
    assert ItemFieldName(node).Ok? && child.Ok?;
    var own := CodeUnit((if t.NonNull? then NonNullCode(path, np) else ListCode(path, np)), map[ResolveInfoName(np) := InfoBinding(WrapperInfo(ctx, ItemFieldName(node).value, node, t))]);
    assert GenerateBasedOnType(ctx, t, node, path) == MergeAll([child.value, own]);
    MergeTwo(child.value, own);
  }

  /** The leaf case: one template, and one global under the path extended by the type's name, bound to the type. */
  lemma LeafUnit(ctx: Context, t: GqlType, node: Node, path: Path)
    requires ctx.Terminating() && (t.Scalar? || t.Enum?)
    ensures GenerateBasedOnType(ctx, t, node, path).Ok?
    ensures var u := GenerateBasedOnType(ctx, t, node, path).value;
      && |u.code| == 1 && u.code[0].Tpl? && u.code[0].template == "resolve_leaf.tpl"
      && u.globals == map[Join(path + [t.name]) := TypeBinding(t)]
  {
  }

  /** Any other shape contributes nothing: no code and no globals. */
  lemma OtherUnit(ctx: Context, t: GqlType, node: Node, path: Path)
    requires ctx.Terminating() && t.Other?
    ensures GenerateBasedOnType(ctx, t, node, path) == Ok(CodeUnit([], map[]))
  {
  }

  /** A successful iteration is `FieldStep` with the sub-field's definition, plus its generated unit as the next child. */
  lemma IterationOk(ctx: Context, t: GqlType, node: Node, path: Path, sub: Field, acc: ObjectAcc)
    requires ctx.Terminating() && ctx.depth(FieldNode(sub)) < ctx.depth(node)
    requires FieldIteration(ctx, t, node, path, sub, acc).Ok?
    ensures GetFieldDef(ctx.schema, t, sub.name).Some?
    ensures var def := GetFieldDef(ctx.schema, t, sub.name).value;
      var p := path + [sub.name];
      var child := GenerateBasedOnType(ctx, def.fieldType, FieldNode(sub), p);
      && child.Ok?
      && FieldIteration(ctx, t, node, path, sub, acc).value == FieldStep(ctx, t, sub, def, p, acc).(children := acc.children + [child.value])
  {
  }

  lemma IterationInfos(ctx: Context, t: GqlType, node: Node, path: Path, sub: Field, acc: ObjectAcc)
    requires ctx.Terminating() && ctx.depth(FieldNode(sub)) < ctx.depth(node)
    requires FieldIteration(ctx, t, node, path, sub, acc).Ok?
    ensures FieldIteration(ctx, t, node, path, sub, acc).value.infos == acc.infos + [InfoFor(path, sub)]
  {
    IterationOk(ctx, t, node, path, sub, acc);
  }

  lemma IterationChild(ctx: Context, t: GqlType, node: Node, path: Path, sub: Field, acc: ObjectAcc)
    requires ctx.Terminating() && ctx.depth(FieldNode(sub)) < ctx.depth(node)
    requires FieldIteration(ctx, t, node, path, sub, acc).Ok?
    ensures var a := FieldIteration(ctx, t, node, path, sub, acc).value;
      && |a.children| == |acc.children| + 1 && a.children[..|acc.children|] == acc.children
      && Visited(ctx, t, path, sub, a.children[|acc.children|])
  {
    IterationOk(ctx, t, node, path, sub, acc);
    var a := FieldIteration(ctx, t, node, path, sub, acc).value;
    assert a.children[..|acc.children|] == acc.children;
  }

  /** One successful iteration of the object loop. */
  lemma LoopUnfold(ctx: Context, t: GqlType, node: Node, path: Path, subs: seq<Field>, acc: ObjectAcc)
    requires ctx.Terminating()
    requires forall g :: g in subs ==> ctx.depth(FieldNode(g)) < ctx.depth(node)
    requires subs != [] && FieldsLoop(ctx, t, node, path, subs, acc).Ok?
    ensures ctx.depth(FieldNode(subs[0])) < ctx.depth(node)
    ensures forall g :: g in subs[1..] ==> ctx.depth(FieldNode(g)) < ctx.depth(node)
    ensures FieldIteration(ctx, t, node, path, subs[0], acc).Ok?
    ensures FieldsLoop(ctx, t, node, path, subs[1..], FieldIteration(ctx, t, node, path, subs[0], acc).value).Ok?
    ensures FieldsLoop(ctx, t, node, path, subs, acc)
         == FieldsLoop(ctx, t, node, path, subs[1..], FieldIteration(ctx, t, node, path, subs[0], acc).value)
  {
  }

  lemma {:induction false} LoopKeys(ctx: Context, t: GqlType, node: Node, path: Path, subs: seq<Field>, acc: ObjectAcc)
    requires ctx.Terminating()
    requires forall g :: g in subs ==> ctx.depth(FieldNode(g)) < ctx.depth(node)
    requires FieldsLoop(ctx, t, node, path, subs, acc).Ok?
    ensures var fin := FieldsLoop(ctx, t, node, path, subs, acc).value;
      AllKeys(fin.children) + fin.globals.Keys
        == AllKeys(acc.children) + acc.globals.Keys + Names(FieldSymbols(ctx, t, node, path, subs))
    decreases ctx.depth(node), t, 0, |subs|
  {
    if subs != [] {
      LoopUnfold(ctx, t, node, path, subs, acc);
      var sub := subs[0];
      IterationOk(ctx, t, node, path, sub, acc);
      var def := GetFieldDef(ctx.schema, t, sub.name).value;
      var p := path + [sub.name];
      var child := GenerateBasedOnType(ctx, def.fieldType, FieldNode(sub), p).value;
      var next := FieldIteration(ctx, t, node, path, sub, acc).value;
      var mid := Symbols(ctx, def.fieldType, FieldNode(sub), p);
      var rest := FieldSymbols(ctx, t, node, path, subs[1..]);
      var fin := FieldsLoop(ctx, t, node, path, subs[1..], next).value;
      LoopKeys(ctx, t, node, path, subs[1..], next);
      GeneratedKeys(ctx, def.fieldType, FieldNode(sub), p);
      AllKeysAppend(acc.children, child);
      StepKeys(mid, rest, p);
      FieldSymbolsUnfold(ctx, t, node, path, subs);
      var own := {ResolverName(p), FieldDefName(p), ResolveInfoName(p)};
      assert next.globals.Keys == acc.globals.Keys + own;
      Regroup(AllKeys(fin.children) + fin.globals.Keys, AllKeys(next.children), next.globals.Keys, Names(rest),
              AllKeys(acc.children), Names(mid), acc.globals.Keys, own, Names(FieldSymbols(ctx, t, node, path, subs)));
    }
  }

  lemma Regroup<T>(whole: set<T>, nextC: set<T>, nextG: set<T>, rest: set<T>,
                   accC: set<T>, mid: set<T>, accG: set<T>, own: set<T>, fs: set<T>)
    requires whole == nextC + nextG + rest
    requires nextC == accC + mid && nextG == accG + own
    requires fs == own + mid + rest
    ensures whole == accC + accG + fs
  {
  }

  lemma StepKeys(mid: seq<Symbol>, rest: seq<Symbol>, p: Path)
    ensures Names(OwnSymbols(p) + mid + rest) == {ResolverName(p), FieldDefName(p), ResolveInfoName(p)} + Names(mid) + Names(rest)
  {
    NamesAppend(OwnSymbols(p), mid);
    NamesAppend(OwnSymbols(p) + mid, rest);
    OwnNames(p);
  }

  lemma OwnNames(p: Path)
    ensures Names(OwnSymbols(p)) == {ResolverName(p), FieldDefName(p), ResolveInfoName(p)}
  {
    var own := OwnSymbols(p);
    assert own[0] in own && own[1] in own && own[2] in own;
    assert forall s :: s in own ==> s == own[0] || s == own[1] || s == own[2];
  }

  lemma NamesOfSingle(x: Symbol)
    ensures Names([x]) == {Name(x)}
  {
    assert x in [x];
  }

  /** One step of `FieldSymbols` for a sub-field with a definition. */
  lemma FieldSymbolsUnfold(ctx: Context, t: GqlType, node: Node, path: Path, subs: seq<Field>)
    requires ctx.Terminating()
    requires forall g :: g in subs ==> ctx.depth(FieldNode(g)) < ctx.depth(node)
    requires subs != [] && GetFieldDef(ctx.schema, t, subs[0].name).Some?
    ensures var p := path + [subs[0].name];
      FieldSymbols(ctx, t, node, path, subs)
        == OwnSymbols(p) + Symbols(ctx, GetFieldDef(ctx.schema, t, subs[0].name).value.fieldType, FieldNode(subs[0]), p)
           + FieldSymbols(ctx, t, node, path, subs[1..])
  {
  }

  // ---- Where symbols lie ----

  /** `q` lies strictly below `p`. */
  predicate Below(p: Path, q: Path) {
    |q| > |p| && q[..|p|] == p
  }

  lemma BelowTrans(p: Path, x: string, q: Path)
    requires Below(p + [x], q)
    ensures Below(p, q) && q[|p|] == x
  {
    assert q[..|p|] == q[..|p| + 1][..|p|];
  }

  function FieldNames(subs: seq<Field>): set<string> {
    set g | g in subs :: g.name
  }

  /** Every symbol generated at `path` lies strictly below it. */
  lemma {:induction false} SymbolsBelow(ctx: Context, t: GqlType, node: Node, path: Path)
    requires ctx.Terminating()
    ensures forall s :: s in Symbols(ctx, t, node, path) ==> Below(path, s.path)
    decreases ctx.depth(node), t, 1, 0
  {
    match t
    case NonNull(of) =>
      var np := path + ["non_null"];
      SymbolsBelow(ctx, of, node, np);
      forall s | s in Symbols(ctx, of, node, np) ensures Below(path, s.path) { BelowTrans(path, "non_null", s.path); }
    case ListOf(of) =>
      var np := path + ["item"];
      SymbolsBelow(ctx, of, node, np);
      forall s | s in Symbols(ctx, of, node, np) ensures Below(path, s.path) { BelowTrans(path, "item", s.path); }
    case Object(_) =>
      FieldSymbolsBelow(ctx, t, node, path, SubFields(ctx, t, node));
    case Scalar(n) =>
    case Enum(n) =>
    case Other(_) =>
  }

  /** A sub-field's symbols lie below the object's path, at a segment naming one of its sub-fields. */
  lemma {:induction false} FieldSymbolsBelow(ctx: Context, t: GqlType, node: Node, path: Path, subs: seq<Field>)
    requires ctx.Terminating()
    requires forall g :: g in subs ==> ctx.depth(FieldNode(g)) < ctx.depth(node)
    ensures forall s :: s in FieldSymbols(ctx, t, node, path, subs) ==>
      Below(path, s.path) && s.path[|path|] in FieldNames(subs)
    decreases ctx.depth(node), t, 0, |subs|
  {
    if subs != [] {
      match GetFieldDef(ctx.schema, t, subs[0].name)
      case None =>
      case Some(def) =>
        var p := path + [subs[0].name];
        SymbolsBelow(ctx, def.fieldType, FieldNode(subs[0]), p);
        FieldSymbolsBelow(ctx, t, node, path, subs[1..]);
        forall s | s in FieldSymbols(ctx, t, node, path, subs)
          ensures Below(path, s.path) && s.path[|path|] in FieldNames(subs)
        {
          if s in OwnSymbols(p) {
            assert s.path == p;
          } else if s in Symbols(ctx, def.fieldType, FieldNode(subs[0]), p) {
            BelowTrans(path, subs[0].name, s.path);
          } else {
            assert s in FieldSymbols(ctx, t, node, path, subs[1..]);
            var g :| g in subs[1..] && g.name == s.path[|path|];
            assert g in subs;
          }
        }
    }
  }

  // ---- No two symbols coincide when sibling fields have distinct names ----

  /** Every expanded selection set has pairwise distinct schema field names, at every depth. */
  ghost predicate DistinctSiblings(ctx: Context, t: GqlType, node: Node)
    requires ctx.Terminating()
    decreases ctx.depth(node), t, 1, 0
  {
    match t
    case NonNull(of) => DistinctSiblings(ctx, of, node)
    case ListOf(of) => DistinctSiblings(ctx, of, node)
    case Object(_) => FieldsDistinct(ctx, t, node, SubFields(ctx, t, node))
    case _ => true
  }

  ghost predicate FieldsDistinct(ctx: Context, t: GqlType, node: Node, subs: seq<Field>)
    requires ctx.Terminating()
    requires forall g :: g in subs ==> ctx.depth(FieldNode(g)) < ctx.depth(node)
    decreases ctx.depth(node), t, 0, |subs|
  {
    if subs == [] then true
    else
      && subs[0].name !in FieldNames(subs[1..])
      && (match GetFieldDef(ctx.schema, t, subs[0].name)
          case None => true
          case Some(def) => DistinctSiblings(ctx, def.fieldType, FieldNode(subs[0])))
      && FieldsDistinct(ctx, t, node, subs[1..])
  }

  predicate NoDup<T(==)>(s: seq<T>) {
    forall i, j :: 0 <= i < j < |s| ==> s[i] != s[j]
  }

  lemma NoDupAppend<T>(a: seq<T>, b: seq<T>)
    requires NoDup(a) && NoDup(b)
    requires forall x :: x in a ==> x !in b
    ensures NoDup(a + b)
  {
    forall i, j | 0 <= i < j < |a + b| ensures (a + b)[i] != (a + b)[j] {
      if i < |a| && j >= |a| {
        assert (a + b)[i] in a && (a + b)[j] == b[j - |a|];
      }
    }
  }

  /** With distinct sibling names, generation emits every symbol at most once. */
  lemma {:induction false} SymbolsUnique(ctx: Context, t: GqlType, node: Node, path: Path)
    requires ctx.Terminating()
    requires DistinctSiblings(ctx, t, node)
    ensures NoDup(Symbols(ctx, t, node, path))
    decreases ctx.depth(node), t, 1, 0
  {
    match t
    case NonNull(of) =>
      var np := path + ["non_null"];
      SymbolsUnique(ctx, of, node, np);
      SymbolsBelow(ctx, of, node, np);
      NoDupAppend([Symbol(ResolveInfoRole, np)], Symbols(ctx, of, node, np));
    case ListOf(of) =>
      var np := path + ["item"];
      SymbolsUnique(ctx, of, node, np);
      SymbolsBelow(ctx, of, node, np);
      NoDupAppend([Symbol(ResolveInfoRole, np)], Symbols(ctx, of, node, np));
    case Object(_) =>
      FieldSymbolsUnique(ctx, t, node, path, SubFields(ctx, t, node));
    case Scalar(n) =>
    case Enum(n) =>
    case Other(_) =>
  }

  lemma {:induction false} FieldSymbolsUnique(ctx: Context, t: GqlType, node: Node, path: Path, subs: seq<Field>)
    requires ctx.Terminating()
    requires forall g :: g in subs ==> ctx.depth(FieldNode(g)) < ctx.depth(node)
    requires FieldsDistinct(ctx, t, node, subs)
    ensures NoDup(FieldSymbols(ctx, t, node, path, subs))
    decreases ctx.depth(node), t, 0, |subs|
  {
    if subs != [] {
      match GetFieldDef(ctx.schema, t, subs[0].name)
      case None =>
      case Some(def) =>
        var p := path + [subs[0].name];
        var own := OwnSymbols(p);
        var mid := Symbols(ctx, def.fieldType, FieldNode(subs[0]), p);
        var rest := FieldSymbols(ctx, t, node, path, subs[1..]);
        SymbolsUnique(ctx, def.fieldType, FieldNode(subs[0]), p);
        SymbolsBelow(ctx, def.fieldType, FieldNode(subs[0]), p);
        FieldSymbolsUnique(ctx, t, node, path, subs[1..]);
        FieldSymbolsBelow(ctx, t, node, path, subs[1..]);
        NoDupAppend(own, mid);
        forall x | x in own + mid ensures x !in rest {
          if x in own {
            assert x.path == p && x.path[|path|] == subs[0].name;
          } else {
            BelowTrans(path, subs[0].name, x.path);
          }
        }
        NoDupAppend(own + mid, rest);
    }
  }

  /**
   * With distinct sibling names and underscore-free segments throughout (so no non-null
   * wrapper, whose synthetic segment "non_null" itself contains "_"), the generated names
   * are distinct too: no binding is lost to a collision, and the unit binds one global per symbol.
   */
  lemma NoCollisions(ctx: Context, t: GqlType, node: Node, path: Path)
    requires ctx.Terminating()
    requires RootedPlain(path)
    requires DistinctSiblings(ctx, t, node)
    requires forall s :: s in Symbols(ctx, t, node, path) ==> SegmentsUnderscoreFree(s.path)
    requires GenerateBasedOnType(ctx, t, node, path).Ok?
    ensures forall a, b :: a in Symbols(ctx, t, node, path) && b in Symbols(ctx, t, node, path) && Name(a) == Name(b) ==> a == b
    ensures |GenerateBasedOnType(ctx, t, node, path).value.globals| == |Symbols(ctx, t, node, path)|
  {
    var syms := Symbols(ctx, t, node, path);
    SymbolsBelow(ctx, t, node, path);
    SymbolsUnique(ctx, t, node, path);
    GeneratedKeys(ctx, t, node, path);
    forall a, b | a in syms && b in syms && Name(a) == Name(b) ensures a == b {
      assert a.path[0] == a.path[..|path|][0] == path[0];
      assert b.path[0] == b.path[..|path|][0] == path[0];
      NameInjective(a, b);
    }
    NamesCount(syms);
  }

  lemma {:induction false} NamesCount(syms: seq<Symbol>)
    requires NoDup(syms)
    requires forall a, b :: a in syms && b in syms && Name(a) == Name(b) ==> a == b
    ensures |Names(syms)| == |syms|
  {
    if syms != [] {
      var x, rest := syms[0], syms[1..];
      TailFacts(syms);
      NamesCount(rest);
      assert syms == [x] + rest;
      NamesAppend([x], rest);
      NamesOfSingle(x);
      forall s | s in rest ensures Name(s) != Name(x) {
        assert s in syms && s != x;
      }
      assert Name(x) !in Names(rest);
    }
  }

  /** The tail of a duplicate-free sequence is duplicate-free, lies within it and misses its head. */
  lemma TailFacts(syms: seq<Symbol>)
    requires syms != [] && NoDup(syms)
    ensures NoDup(syms[1..])
    ensures forall s :: s in syms[1..] ==> s in syms && s != syms[0]
  {
    var rest := syms[1..];
    forall i, j | 0 <= i < j < |rest| ensures rest[i] != rest[j] { assert rest[i] == syms[i + 1] && rest[j] == syms[j + 1]; }
    forall s | s in rest ensures s in syms && s != syms[0] {
      var k :| 0 <= k < |rest| && rest[k] == s;
      assert syms[k + 1] == s;
    }
  }

  /**
   * Two sibling selections of the same schema field both emit the field's own three symbols
   * at `path + [name]`: each of them occurs twice.
   */
  lemma SameNameSiblingsCollide(ctx: Context, t: GqlType, node: Node, path: Path, a: Field, b: Field)
    requires ctx.Terminating()
    requires ctx.depth(FieldNode(a)) < ctx.depth(node) && ctx.depth(FieldNode(b)) < ctx.depth(node)
    requires a.name == b.name && GetFieldDef(ctx.schema, t, a.name).Some?
    ensures var syms := FieldSymbols(ctx, t, node, path, [a, b]);
      forall s :: s in OwnSymbols(path + [a.name]) ==> exists i, j :: 0 <= i < j < |syms| && syms[i] == s && syms[j] == s
    ensures !NoDup(FieldSymbols(ctx, t, node, path, [a, b]))
  {
    var p := path + [a.name];
    var syms := FieldSymbols(ctx, t, node, path, [a, b]);
    var def := GetFieldDef(ctx.schema, t, a.name).value;
    assert [a, b][1..] == [b];
    assert [b][1..] == [];
    var first := OwnSymbols(p) + Symbols(ctx, def.fieldType, FieldNode(a), p);
    var second := OwnSymbols(p) + Symbols(ctx, def.fieldType, FieldNode(b), p);
    assert FieldSymbols(ctx, t, node, path, [b]) == second + FieldSymbols(ctx, t, node, path, []);
    assert syms == first + FieldSymbols(ctx, t, node, path, [b]);
    assert syms == first + second;
    forall s | s in OwnSymbols(p) ensures exists i, j :: 0 <= i < j < |syms| && syms[i] == s && syms[j] == s {
      var k :| 0 <= k < 3 && OwnSymbols(p)[k] == s;
      var i, j := k, |first| + k;
      assert 0 <= i < j < |syms| && syms[i] == s && syms[j] == s;
    }
    assert p == path + [a.name];
    assert syms == FieldSymbols(ctx, t, node, path, [a, b]);
    assert syms[0] == syms[|first|];
  }

  /**
   * Of two sibling selections of the same schema field, the later one's bindings are the
   * ones the loop keeps under the field's names: its own resolve info replaces the earlier
   * sibling's, which differs whenever the two selections do.
   */
  lemma LaterSiblingWins(ctx: Context, t: GqlType, node: Node, path: Path, a: Field, b: Field, acc: ObjectAcc)
    requires ctx.Terminating()
    requires ctx.depth(FieldNode(a)) < ctx.depth(node) && ctx.depth(FieldNode(b)) < ctx.depth(node)
    requires a.name == b.name
    requires FieldsLoop(ctx, t, node, path, [a, b], acc).Ok?
    ensures GetFieldDef(ctx.schema, t, b.name).Some?
    ensures var fin := FieldsLoop(ctx, t, node, path, [a, b], acc).value;
      var p := path + [b.name];
      var def := GetFieldDef(ctx.schema, t, b.name).value;
      && ResolveInfoName(p) in fin.globals
      && fin.globals[ResolveInfoName(p)] == InfoBinding(FieldInfo(ctx, t, b, def))
      && (a != b ==> fin.globals[ResolveInfoName(p)] != InfoBinding(FieldInfo(ctx, t, a, def)))
  {
    LoopUnfold(ctx, t, node, path, [a, b], acc);
    assert [a, b][0] == a && [a, b][1..] == [b];
    var next := FieldIteration(ctx, t, node, path, a, acc).value;
    LoopUnfold(ctx, t, node, path, [b], next);
    assert [b][0] == b && [b][1..] == [];
    IterationOk(ctx, t, node, path, b, next);
  }

  // ---- The object case ----

  /** The `sub_fields_info` entry a sub-field contributes: its response key, and its names at its schema path. */
  function InfoFor(path: Path, sub: Field): SubFieldInfo {
    var p := path + [sub.name];
    SubFieldInfo(ResponseKey(sub), GetterName(p), ResolverName(p), ResolveInfoName(p), FieldDefName(p))
  }

  /** The `sub_fields_info` entries of a list of sub-fields, in order. */
  function InfosFor(path: Path, subs: seq<Field>): (r: seq<SubFieldInfo>)
    ensures |r| == |subs|
  {
    if subs == [] then [] else [InfoFor(path, subs[0])] + InfosFor(path, subs[1..])
  }

  /** A successful loop appends one `sub_fields_info` entry per sub-field, in order. */
  lemma {:induction false} LoopInfos(ctx: Context, t: GqlType, node: Node, path: Path, subs: seq<Field>, acc: ObjectAcc)
    requires ctx.Terminating()
    requires forall g :: g in subs ==> ctx.depth(FieldNode(g)) < ctx.depth(node)
    requires FieldsLoop(ctx, t, node, path, subs, acc).Ok?
    ensures FieldsLoop(ctx, t, node, path, subs, acc).value.infos == acc.infos + InfosFor(path, subs)
    decreases |subs|
  {
    if subs != [] {
      LoopUnfold(ctx, t, node, path, subs, acc);
      IterationInfos(ctx, t, node, path, subs[0], acc);
      var next := FieldIteration(ctx, t, node, path, subs[0], acc).value;
      LoopInfos(ctx, t, node, path, subs[1..], next);
      AppendStep(FieldsLoop(ctx, t, node, path, subs[1..], next).value.infos, next.infos, acc.infos,
                 InfoFor(path, subs[0]), InfosFor(path, subs[1..]), InfosFor(path, subs));
    }
  }

  lemma AppendStep<T>(whole: seq<T>, next: seq<T>, acc: seq<T>, x: T, rest: seq<T>, all: seq<T>)
    requires whole == next + rest && next == acc + [x] && all == [x] + rest
    ensures whole == acc + all
  {
  }

  /** A sub-field was visited: it has a definition, and this is its generated unit. */
  predicate Visited(ctx: Context, t: GqlType, path: Path, sub: Field, child: CodeUnit)
    requires ctx.Terminating()
  {
    && GetFieldDef(ctx.schema, t, sub.name).Some?
    && GenerateBasedOnType(ctx, GetFieldDef(ctx.schema, t, sub.name).value.fieldType, FieldNode(sub), path + [sub.name]) == Ok(child)
  }

  /** Every sub-field was visited, in order, each contributing the matching unit of `cs`. */
  predicate AllVisited(ctx: Context, t: GqlType, path: Path, subs: seq<Field>, cs: seq<CodeUnit>)
    requires ctx.Terminating()
    decreases |subs|
  {
    && |cs| == |subs|
    && (subs != [] ==> Visited(ctx, t, path, subs[0], cs[0]) && AllVisited(ctx, t, path, subs[1..], cs[1..]))
  }

  lemma {:induction false} AllVisitedAt(ctx: Context, t: GqlType, path: Path, subs: seq<Field>, cs: seq<CodeUnit>, i: nat)
    requires ctx.Terminating() && AllVisited(ctx, t, path, subs, cs) && i < |subs|
    ensures Visited(ctx, t, path, subs[i], cs[i])
    decreases i
  {
    if i > 0 {
      AllVisitedAt(ctx, t, path, subs[1..], cs[1..], i - 1);
      assert subs[1..][i - 1] == subs[i] && cs[1..][i - 1] == cs[i];
    }
  }

  /**
   * A successful loop visits every sub-field in order: each has a definition and
   * contributes its generated unit as the next child.
   */
  lemma {:induction false} LoopChildren(ctx: Context, t: GqlType, node: Node, path: Path, subs: seq<Field>, acc: ObjectAcc)
    requires ctx.Terminating()
    requires forall g :: g in subs ==> ctx.depth(FieldNode(g)) < ctx.depth(node)
    requires FieldsLoop(ctx, t, node, path, subs, acc).Ok?
    ensures var fin := FieldsLoop(ctx, t, node, path, subs, acc).value;
      && |fin.children| >= |acc.children| && fin.children[..|acc.children|] == acc.children
      && AllVisited(ctx, t, path, subs, fin.children[|acc.children|..])
    decreases |subs|
  {
    if subs != [] {
      LoopUnfold(ctx, t, node, path, subs, acc);
      IterationChild(ctx, t, node, path, subs[0], acc);
      var next := FieldIteration(ctx, t, node, path, subs[0], acc).value;
      LoopChildren(ctx, t, node, path, subs[1..], next);
      var fin := FieldsLoop(ctx, t, node, path, subs[1..], next).value;
      var child := next.children[|acc.children|];
      assert next.children == acc.children + [child];
      PrefixExtend(fin.children, acc.children, child);
      assert fin.children[|acc.children|..][1..] == fin.children[|next.children|..];
    }
  }

  lemma PrefixExtend<T>(whole: seq<T>, pre: seq<T>, x: T)
    requires |whole| >= |pre| + 1 && whole[..|pre| + 1] == pre + [x]
    ensures whole[..|pre|] == pre && whole[|pre|] == x
  {
    assert whole[..|pre|] == whole[..|pre| + 1][..|pre|];
    assert whole[|pre|] == whole[..|pre| + 1][|pre|];
  }

  /**
   * An object's unit: every child in selection order, then the driver whose field table has
   * one entry per sub-field; all child units precede the driver's code.
   */
  lemma ObjectShape(ctx: Context, t: GqlType, node: Node, path: Path)
    requires ctx.Terminating() && t.Object?
    requires GenerateBasedOnType(ctx, t, node, path).Ok?
    ensures FieldsLoop(ctx, t, node, path, SubFields(ctx, t, node), EmptyAcc).Ok?
    ensures var subs := SubFields(ctx, t, node);
      var fin := FieldsLoop(ctx, t, node, path, subs, EmptyAcc).value;
      var u := GenerateBasedOnType(ctx, t, node, path).value;
      && u.code == JoinCodes(fin.children + [DriverUnit(path, fin)])
      && u.globals == FirstWins(fin.children + [DriverUnit(path, fin)])
      && fin.infos == InfosFor(path, subs)
      && |fin.children| == |subs|
      && forall i :: 0 <= i < |subs| ==> Visited(ctx, t, path, subs[i], fin.children[i])
  {
    var subs := SubFields(ctx, t, node);
    LoopInfos(ctx, t, node, path, subs, EmptyAcc);
    LoopChildren(ctx, t, node, path, subs, EmptyAcc);
    var fin := FieldsLoop(ctx, t, node, path, subs, EmptyAcc).value;
    assert fin.children[0..] == fin.children;
    forall i | 0 <= i < |subs| ensures Visited(ctx, t, path, subs[i], fin.children[i]) {
      AllVisitedAt(ctx, t, path, subs, fin.children, i);
    }
    MergeAllSpec(fin.children + [DriverUnit(path, fin)]);
  }

  /** The loop stops at the first sub-field without a definition, reporting its name. */
  lemma {:induction false} LoopFirstMissing(ctx: Context, t: GqlType, node: Node, path: Path, subs: seq<Field>, acc: ObjectAcc, i: nat)
    requires ctx.Terminating()
    requires forall g :: g in subs ==> ctx.depth(FieldNode(g)) < ctx.depth(node)
    requires i < |subs| && GetFieldDef(ctx.schema, t, subs[i].name).None?
    requires forall j :: 0 <= j < i ==>
      && GetFieldDef(ctx.schema, t, subs[j].name).Some?
      && GenerateBasedOnType(ctx, GetFieldDef(ctx.schema, t, subs[j].name).value.fieldType,
                             FieldNode(subs[j]), path + [subs[j].name]).Ok?
    ensures FieldsLoop(ctx, t, node, path, subs, acc) == Err(MissingFieldDefinition(subs[i].name))
    decreases i
  {
    if i > 0 {
      assert FieldIteration(ctx, t, node, path, subs[0], acc).Ok?;
      forall j | 0 <= j < i - 1 ensures subs[1..][j] == subs[j + 1] { }
      LoopFirstMissing(ctx, t, node, path, subs[1..], FieldIteration(ctx, t, node, path, subs[0], acc).value, i - 1);
    }
  }

  /** A sub-field the schema does not declare on the object makes the whole object fail. */
  lemma MissingFieldFails(ctx: Context, t: GqlType, node: Node, path: Path, i: nat)
    requires ctx.Terminating() && t.Object?
    requires i < |SubFields(ctx, t, node)| && GetFieldDef(ctx.schema, t, SubFields(ctx, t, node)[i].name).None?
    ensures GenerateBasedOnType(ctx, t, node, path).Err?
  {
    if GenerateBasedOnType(ctx, t, node, path).Ok? {
      ObjectShape(ctx, t, node, path);
      assert false;
    }
  }

  // ---- What a sub-field's globals are bound to ----

  /** A name that no unit before the last binds takes the last unit's binding. */
  lemma LastWins(cs: seq<CodeUnit>, d: CodeUnit, k: string)
    requires forall j :: 0 <= j < |cs| ==> k !in cs[j].globals
    requires k in d.globals
    ensures k in FirstWins(cs + [d]) && FirstWins(cs + [d])[k] == d.globals[k]
  {
    var units := cs + [d];
    forall j | 0 <= j < |cs| ensures k !in units[j].globals { assert units[j] == cs[j]; }
    assert units[|cs|] == d;
    FirstWinsAt(units, |cs|, k);
  }

  /** `k` is one of the three names sub-field `g` binds in the loop's globals. */
  predicate Writes(path: Path, g: Field, k: string) {
    k == ResolverName(path + [g.name]) || k == FieldDefName(path + [g.name]) || k == ResolveInfoName(path + [g.name])
  }

  /**
   * The values a sub-field's three globals hold: its resolver (its own or `default_resolve_fn`)
   * under the middleware, its field definition, and its compile-time resolve info.
   */
  predicate FieldBound(ctx: Context, t: GqlType, sub: Field, def: FieldDef, p: Path, g: map<string, Binding>) {
    && ResolverName(p) in g && g[ResolverName(p)] == ResolverBinding(FieldResolver(ctx.middleware, def.resolver.GetOr(DefaultResolveFn)))
    && FieldDefName(p) in g && g[FieldDefName(p)] == FieldDefBinding(def)
    && ResolveInfoName(p) in g && g[ResolveInfoName(p)] == InfoBinding(FieldInfo(ctx, t, sub, def))
  }

  /** One step binds the sub-field's three globals; the three names differ in length. */
  lemma StepBinds(ctx: Context, t: GqlType, sub: Field, def: FieldDef, p: Path, acc: ObjectAcc)
    requires |p| > 0
    ensures FieldBound(ctx, t, sub, def, p, FieldStep(ctx, t, sub, def, p, acc).globals)
  {
    assert |ResolverName(p)| < |ResolveInfoName(p)| < |FieldDefName(p)|;
  }

  /** A name that no remaining sub-field writes keeps its binding, or its absence, through the loop. */
  lemma {:induction false} LoopKeepsName(ctx: Context, t: GqlType, node: Node, path: Path, subs: seq<Field>, acc: ObjectAcc, k: string)
    requires ctx.Terminating()
    requires forall g :: g in subs ==> ctx.depth(FieldNode(g)) < ctx.depth(node)
    requires FieldsLoop(ctx, t, node, path, subs, acc).Ok?
    requires forall g :: g in subs ==> !Writes(path, g, k)
    ensures var fin := FieldsLoop(ctx, t, node, path, subs, acc).value;
      && (k in fin.globals <==> k in acc.globals)
      && (k in acc.globals ==> fin.globals[k] == acc.globals[k])
    decreases |subs|
  {
    if subs != [] {
      LoopUnfold(ctx, t, node, path, subs, acc);
      IterationOk(ctx, t, node, path, subs[0], acc);
      assert !Writes(path, subs[0], k);
      LoopKeepsName(ctx, t, node, path, subs[1..], FieldIteration(ctx, t, node, path, subs[0], acc).value, k);
    }
  }

  /** The first sub-field, if no later one writes its names, ends the loop with its own bindings. */
  lemma FirstFieldBound(ctx: Context, t: GqlType, node: Node, path: Path, subs: seq<Field>, acc: ObjectAcc)
    requires ctx.Terminating()
    requires forall g :: g in subs ==> ctx.depth(FieldNode(g)) < ctx.depth(node)
    requires subs != [] && FieldsLoop(ctx, t, node, path, subs, acc).Ok?
    requires forall j, k :: 0 < j < |subs| && Writes(path, subs[0], k) ==> !Writes(path, subs[j], k)
    ensures GetFieldDef(ctx.schema, t, subs[0].name).Some?
    ensures FieldBound(ctx, t, subs[0], GetFieldDef(ctx.schema, t, subs[0].name).value, path + [subs[0].name],
                       FieldsLoop(ctx, t, node, path, subs, acc).value.globals)
  {
    LoopUnfold(ctx, t, node, path, subs, acc);
    IterationOk(ctx, t, node, path, subs[0], acc);
    var next := FieldIteration(ctx, t, node, path, subs[0], acc).value;
    var rest := subs[1..];
    var def := GetFieldDef(ctx.schema, t, subs[0].name).value;
    var p := path + [subs[0].name];
    StepBinds(ctx, t, subs[0], def, p, acc);
    assert Writes(path, subs[0], ResolverName(p)) && Writes(path, subs[0], FieldDefName(p)) && Writes(path, subs[0], ResolveInfoName(p));
    forall g | g in rest
      ensures !Writes(path, g, ResolverName(p)) && !Writes(path, g, FieldDefName(p)) && !Writes(path, g, ResolveInfoName(p))
    {
      var j :| 0 <= j < |rest| && rest[j] == g;
      assert subs[j + 1] == g;
    }
    LoopKeepsName(ctx, t, node, path, rest, next, ResolverName(p));
    LoopKeepsName(ctx, t, node, path, rest, next, FieldDefName(p));
    LoopKeepsName(ctx, t, node, path, rest, next, ResolveInfoName(p));
  }

  /**
   * A sub-field none of whose three names a later sub-field writes ends the loop with its own
   * resolver, field definition and resolve info bound under them.
   */
  lemma {:induction false} LoopBindsField(ctx: Context, t: GqlType, node: Node, path: Path, subs: seq<Field>, acc: ObjectAcc, i: nat)
    requires ctx.Terminating()
    requires forall g :: g in subs ==> ctx.depth(FieldNode(g)) < ctx.depth(node)
    requires FieldsLoop(ctx, t, node, path, subs, acc).Ok?
    requires i < |subs|
    requires forall j, k :: i < j < |subs| && Writes(path, subs[i], k) ==> !Writes(path, subs[j], k)
    ensures GetFieldDef(ctx.schema, t, subs[i].name).Some?
    ensures FieldBound(ctx, t, subs[i], GetFieldDef(ctx.schema, t, subs[i].name).value, path + [subs[i].name],
                       FieldsLoop(ctx, t, node, path, subs, acc).value.globals)
    decreases i
  {
    if i == 0 {
      FirstFieldBound(ctx, t, node, path, subs, acc);
    } else {
      LoopUnfold(ctx, t, node, path, subs, acc);
      var rest := subs[1..];
      assert rest[i - 1] == subs[i];
      forall j, k | i - 1 < j < |rest| && Writes(path, rest[i - 1], k) ensures !Writes(path, rest[j], k) {
        assert rest[j] == subs[j + 1];
      }
      LoopBindsField(ctx, t, node, path, rest, FieldIteration(ctx, t, node, path, subs[0], acc).value, i - 1);
    }
  }

  /** On rooted, underscore-free paths, two sibling sub-fields write a common name only if they share their name. */
  lemma WritesInjective(path: Path, a: Field, b: Field, k: string)
    requires RootedPlain(path + [a.name]) && RootedPlain(path + [b.name])
    requires Writes(path, a, k) && Writes(path, b, k)
    ensures a.name == b.name
  {
    var pa, pb := path + [a.name], path + [b.name];
    var ra := if k == ResolverName(pa) then ResolverRole else if k == FieldDefName(pa) then FieldDefRole else ResolveInfoRole;
    var rb := if k == ResolverName(pb) then ResolverRole else if k == FieldDefName(pb) then FieldDefRole else ResolveInfoRole;
    NameInjective(Symbol(ra, pa), Symbol(rb, pb));
    assert pa[|path|] == a.name && pb[|path|] == b.name;
  }

  /** Every sub-field's own symbols, and those of its child, are among the loop's symbols. */
  lemma {:induction false} FieldSymbolsContain(ctx: Context, t: GqlType, node: Node, path: Path, subs: seq<Field>, j: nat)
    requires ctx.Terminating()
    requires forall g :: g in subs ==> ctx.depth(FieldNode(g)) < ctx.depth(node)
    requires forall g :: g in subs ==> GetFieldDef(ctx.schema, t, g.name).Some?
    requires j < |subs|
    ensures var p := path + [subs[j].name];
      && (forall s :: s in OwnSymbols(p) ==> s in FieldSymbols(ctx, t, node, path, subs))
      && (forall s :: s in Symbols(ctx, GetFieldDef(ctx.schema, t, subs[j].name).value.fieldType, FieldNode(subs[j]), p)
            ==> s in FieldSymbols(ctx, t, node, path, subs))
    decreases j
  {
    FieldSymbolsUnfold(ctx, t, node, path, subs);
    if j > 0 {
      assert subs[1..][j - 1] == subs[j];
      FieldSymbolsContain(ctx, t, node, path, subs[1..], j - 1);
    }
  }

  /**
   * A child unit binds no name of a symbol one level below the object's path: all of the
   * child's symbols lie deeper, and on plain rooted paths names do not collide.
   */
  lemma ChildMisses(ctx: Context, t: GqlType, node: Node, path: Path, subs: seq<Field>, j: nat, c: CodeUnit, o: Symbol)
    requires ctx.Terminating() && RootedPlain(path)
    requires forall g :: g in subs ==> ctx.depth(FieldNode(g)) < ctx.depth(node)
    requires forall g :: g in subs ==> GetFieldDef(ctx.schema, t, g.name).Some?
    requires forall s :: s in FieldSymbols(ctx, t, node, path, subs) ==> SegmentsUnderscoreFree(s.path)
    requires j < |subs| && Visited(ctx, t, path, subs[j], c)
    requires RootedPlain(o.path) && |o.path| == |path| + 1
    ensures Name(o) !in c.globals
  {
    var def := GetFieldDef(ctx.schema, t, subs[j].name).value;
    var p := path + [subs[j].name];
    GeneratedKeys(ctx, def.fieldType, FieldNode(subs[j]), p);
    SymbolsBelow(ctx, def.fieldType, FieldNode(subs[j]), p);
    FieldSymbolsContain(ctx, t, node, path, subs, j);
    if Name(o) in c.globals {
      var s :| s in Symbols(ctx, def.fieldType, FieldNode(subs[j]), p) && Name(s) == Name(o);
      assert s.path[0] == s.path[..|p|][0] == p[0];
      NameInjective(s, o);
      assert false;
    }
  }

  /** Every sub-field's path is rooted and plain when its own symbols are. */
  lemma SubPathsPlain(ctx: Context, t: GqlType, node: Node, path: Path, subs: seq<Field>)
    requires ctx.Terminating() && RootedPlain(path)
    requires forall g :: g in subs ==> ctx.depth(FieldNode(g)) < ctx.depth(node)
    requires forall g :: g in subs ==> GetFieldDef(ctx.schema, t, g.name).Some?
    requires forall s :: s in FieldSymbols(ctx, t, node, path, subs) ==> SegmentsUnderscoreFree(s.path)
    ensures forall j :: 0 <= j < |subs| ==> RootedPlain(path + [subs[j].name])
  {
    forall j | 0 <= j < |subs| ensures RootedPlain(path + [subs[j].name]) {
      FieldSymbolsContain(ctx, t, node, path, subs, j);
      assert Symbol(ResolverRole, path + [subs[j].name]) in OwnSymbols(path + [subs[j].name]);
    }
  }

  /** Without a later sibling of the same name, no later sibling writes the sub-field's names. */
  lemma LaterWritesElsewhere(path: Path, subs: seq<Field>, i: nat)
    requires forall j :: 0 <= j < |subs| ==> RootedPlain(path + [subs[j].name])
    requires i < |subs| && forall j :: i < j < |subs| ==> subs[j].name != subs[i].name
    ensures forall j, k :: i < j < |subs| && Writes(path, subs[i], k) ==> !Writes(path, subs[j], k)
  {
    forall j, k | i < j < |subs| && Writes(path, subs[i], k) ensures !Writes(path, subs[j], k) {
      if Writes(path, subs[j], k) { WritesInjective(path, subs[i], subs[j], k); }
    }
  }

  /** On plain rooted paths, a sub-field with no later sibling of its name keeps its bindings through the loop. */
  lemma LoopBindsPlain(ctx: Context, t: GqlType, node: Node, path: Path, subs: seq<Field>, i: nat)
    requires ctx.Terminating() && RootedPlain(path)
    requires forall g :: g in subs ==> ctx.depth(FieldNode(g)) < ctx.depth(node)
    requires forall g :: g in subs ==> GetFieldDef(ctx.schema, t, g.name).Some?
    requires forall s :: s in FieldSymbols(ctx, t, node, path, subs) ==> SegmentsUnderscoreFree(s.path)
    requires FieldsLoop(ctx, t, node, path, subs, EmptyAcc).Ok?
    requires i < |subs| && forall j :: i < j < |subs| ==> subs[j].name != subs[i].name
    ensures RootedPlain(path + [subs[i].name])
    ensures FieldBound(ctx, t, subs[i], GetFieldDef(ctx.schema, t, subs[i].name).value, path + [subs[i].name],
                       FieldsLoop(ctx, t, node, path, subs, EmptyAcc).value.globals)
  {
    SubPathsPlain(ctx, t, node, path, subs);
    LaterWritesElsewhere(path, subs, i);
    LoopBindsField(ctx, t, node, path, subs, EmptyAcc, i);
  }

  /**
   * The driver's bindings at `p`, one level below the object, survive the merge: no child
   * unit binds those names, so the driver's are the ones the earliest-wins merge keeps.
   */
  lemma DriverBindingsSurvive(ctx: Context, t: GqlType, node: Node, path: Path, subs: seq<Field>, fin: ObjectAcc,
                              sub: Field, def: FieldDef, p: Path)
    requires ctx.Terminating() && RootedPlain(path)
    requires forall g :: g in subs ==> ctx.depth(FieldNode(g)) < ctx.depth(node)
    requires forall g :: g in subs ==> GetFieldDef(ctx.schema, t, g.name).Some?
    requires forall s :: s in FieldSymbols(ctx, t, node, path, subs) ==> SegmentsUnderscoreFree(s.path)
    requires |fin.children| == |subs| && forall j :: 0 <= j < |subs| ==> Visited(ctx, t, path, subs[j], fin.children[j])
    requires RootedPlain(p) && |p| == |path| + 1
    requires FieldBound(ctx, t, sub, def, p, fin.globals)
    ensures FieldBound(ctx, t, sub, def, p, FirstWins(fin.children + [DriverUnit(path, fin)]))
  {
    var cs, driver := fin.children, DriverUnit(path, fin);
    forall r, j | r != LeafTypeRole && 0 <= j < |cs| ensures Name(Symbol(r, p)) !in cs[j].globals {
      ChildMisses(ctx, t, node, path, subs, j, cs[j], Symbol(r, p));
    }
    assert Name(Symbol(ResolverRole, p)) == ResolverName(p);
    assert Name(Symbol(FieldDefRole, p)) == FieldDefName(p);
    assert Name(Symbol(ResolveInfoRole, p)) == ResolveInfoName(p);
    LastWins(cs, driver, ResolverName(p));
    LastWins(cs, driver, FieldDefName(p));
    LastWins(cs, driver, ResolveInfoName(p));
  }

  /**
   * In an object's unit, a sub-field that no later sibling of the same name follows keeps
   * its own resolver (its own or `default_resolve_fn`, under the middleware), its field
   * definition and its resolve info under its three names, provided the paths are rooted and
   * underscore-free as for `NoCollisions`.
   */
  lemma ObjectBindsField(ctx: Context, t: GqlType, node: Node, path: Path, i: nat)
    requires ctx.Terminating() && t.Object? && RootedPlain(path)
    requires forall s :: s in Symbols(ctx, t, node, path) ==> SegmentsUnderscoreFree(s.path)
    requires GenerateBasedOnType(ctx, t, node, path).Ok?
    requires i < |SubFields(ctx, t, node)|
    requires forall j :: i < j < |SubFields(ctx, t, node)| ==> SubFields(ctx, t, node)[j].name != SubFields(ctx, t, node)[i].name
    ensures GetFieldDef(ctx.schema, t, SubFields(ctx, t, node)[i].name).Some?
    ensures FieldBound(ctx, t, SubFields(ctx, t, node)[i], GetFieldDef(ctx.schema, t, SubFields(ctx, t, node)[i].name).value,
                       path + [SubFields(ctx, t, node)[i].name], GenerateBasedOnType(ctx, t, node, path).value.globals)
  {
    var subs := SubFields(ctx, t, node);
    ObjectShape(ctx, t, node, path);
    var fin := FieldsLoop(ctx, t, node, path, subs, EmptyAcc).value;
    forall g | g in subs ensures GetFieldDef(ctx.schema, t, g.name).Some? {
      var j :| 0 <= j < |subs| && subs[j] == g;
    }
    assert Symbols(ctx, t, node, path) == FieldSymbols(ctx, t, node, path, subs);
    LoopBindsPlain(ctx, t, node, path, subs, i);
    DriverBindingsSurvive(ctx, t, node, path, subs, fin, subs[i], GetFieldDef(ctx.schema, t, subs[i].name).value, path + [subs[i].name]);
  }

  // ---- generate_source ----

  /** Every name generated at `["root"]` begins with "r" (a leaf type's path) or with "resolve" or "get". */
  lemma RootedNames(ctx: Context, t: GqlType, node: Node)
    requires ctx.Terminating()
    requires GenerateBasedOnType(ctx, t, node, RootPath).Ok?
    ensures forall k :: k in GenerateBasedOnType(ctx, t, node, RootPath).value.globals ==> |k| > 0 && (k[0] == 'r' || k[0] == 'g')
  {
    GeneratedKeys(ctx, t, node, RootPath);
    SymbolsBelow(ctx, t, node, RootPath);
    forall s | s in Symbols(ctx, t, node, RootPath) ensures |Name(s)| > 0 && (Name(s)[0] == 'r' || Name(s)[0] == 'g') {
      assert s.path[0] == s.path[..1][0];
      NameInitial(s);
    }
  }

  /** `generate_source`'s unit, as one value: the three codes in order, the driver's globals under the operation's. */
  lemma SourceUnit(ctx: Context)
    requires ctx.Terminating()
    requires GenerateSource(ctx).Ok?
    ensures OperationRootType(ctx.schema, ctx.operation).Ok?
    ensures var rootType := OperationRootType(ctx.schema, ctx.operation).value;
      var op := GenerateBasedOnType(ctx, rootType, OperationNode(ctx.operation), RootPath);
      && op.Ok?
      && GenerateSource(ctx).value
         == CodeUnit(HeaderUnit().code + Separator + op.value.code + Separator + QueryUnit(ctx).code,
                     QueryUnit(ctx).globals + op.value.globals)
  {
    var rootType := OperationRootType(ctx.schema, ctx.operation).value;
    var op := GenerateBasedOnType(ctx, rootType, OperationNode(ctx.operation), RootPath).value;
    MergeThree(HeaderUnit(), op, QueryUnit(ctx));
  }

  /** The module's globals: "schema", "operation", and names beginning with "r" or "g". */
  lemma SourceNames(ctx: Context)
    requires ctx.Terminating()
    requires GenerateSource(ctx).Ok?
    ensures forall k :: k in GenerateSource(ctx).value.globals ==>
      k == "schema" || k == "operation" || (|k| > 0 && (k[0] == 'r' || k[0] == 'g'))
  {
    SourceUnit(ctx);
    var rootType := OperationRootType(ctx.schema, ctx.operation).value;
    var op := GenerateBasedOnType(ctx, rootType, OperationNode(ctx.operation), RootPath).value;
    RootedNames(ctx, rootType, OperationNode(ctx.operation));
    var g := QueryUnit(ctx).globals + op.globals;
    assert GenerateSource(ctx).value.globals == g;
    forall k | k in g ensures k == "schema" || k == "operation" || (|k| > 0 && (k[0] == 'r' || k[0] == 'g')) {
      if k !in op.globals {
        assert k in QueryUnit(ctx).globals;
      }
    }
  }

  /** Three units merged: their codes in order; on a clash the earlier unit's binding wins. */
  lemma MergeThree(a: CodeUnit, b: CodeUnit, c: CodeUnit)
    ensures MergeAll([a, b, c]) == Ok(CodeUnit(a.code + Separator + b.code + Separator + c.code, c.globals + b.globals + a.globals))
  {
    var units := [a, b, c];
    MergeAllSpec(units);
    assert units[1..] == [b, c] && units[1..][1..] == [c] && units[1..][1..][1..] == [];
    assert FirstWins([c]) == c.globals;
    assert FirstWins(units[1..]) == c.globals + b.globals;
    assert FirstWins(units) == c.globals + b.globals + a.globals;
    assert JoinCodes(units[1..]) == b.code + Separator + c.code;
    assert JoinCodes(units) == a.code + Separator + (b.code + Separator + c.code);
    assert a.code + Separator + (b.code + Separator + c.code) == a.code + Separator + b.code + Separator + c.code;
  }

  /**
   * The module source: the header, the operation's unit generated at `["root"]`, then the
   * query driver. "schema" and "operation" are bound by the driver and never shadowed,
   * since every generated name begins with "resolve", "get" or "root".
   */
  lemma SourceShape(ctx: Context)
    requires ctx.Terminating()
    requires GenerateSource(ctx).Ok?
    ensures OperationRootType(ctx.schema, ctx.operation).Ok?
    ensures var rootType := OperationRootType(ctx.schema, ctx.operation).value;
      var op := GenerateBasedOnType(ctx, rootType, OperationNode(ctx.operation), RootPath);
      var u := GenerateSource(ctx).value;
      && op.Ok?
      && u.code == HeaderUnit().code + Separator + op.value.code + Separator + QueryUnit(ctx).code
      && u.globals.Keys == op.value.globals.Keys + {"schema", "operation"}
      && u.globals["schema"] == SchemaBinding(ctx.schema)
      && u.globals["operation"] == OperationBinding(ctx.operation)
      && forall k :: k in op.value.globals ==> u.globals[k] == op.value.globals[k]
  {
    SourceUnit(ctx);
    var rootType := OperationRootType(ctx.schema, ctx.operation).value;
    var node := OperationNode(ctx.operation);
    var op := GenerateBasedOnType(ctx, rootType, node, RootPath).value;
    RootedNames(ctx, rootType, node);
    assert "schema"[0] == 's' && "operation"[0] == 'o';
    assert "schema" !in op.globals && "operation" !in op.globals;
    UnderDriver(QueryUnit(ctx).globals, op.globals, SchemaBinding(ctx.schema), OperationBinding(ctx.operation));
  }

  /** The driver's two bindings under globals that do not bind either name. */
  lemma UnderDriver(q: map<string, Binding>, g: map<string, Binding>, s: Binding, o: Binding)
    requires q == map["schema" := s, "operation" := o]
    requires "schema" !in g && "operation" !in g
    ensures (q + g).Keys == g.Keys + {"schema", "operation"}
    ensures (q + g)["schema"] == s && (q + g)["operation"] == o
    ensures forall k :: k in g ==> (q + g)[k] == g[k]
  {
  }
}
