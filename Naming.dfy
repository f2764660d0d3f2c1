/**
 * Symbol names derived from query paths (graphql_jit/generate.py, `serialise_path`
 * and the four `get_*_name_for_path` helpers).
 *
 * A path is a list of segments; a name is an optional prefix followed by the
 * segments, all joined with "_". Names are injective only when no segment
 * contains "_": `["a_b"]` and `["a", "b"]` give the same name.
 */
module Naming {
  import opened Wrappers

  type Path = seq<string>

  /** `"_".join(segs)`. */
  function Join(segs: seq<string>): (s: string)
    ensures |segs| == 1 ==> s == segs[0]
    ensures |segs| == 0 ==> s == ""
  {
    if |segs| == 0 then "" else if |segs| == 1 then segs[0] else segs[0] + "_" + Join(segs[1..])
  }

  /** `serialise_path`: the prefix is prepended only when it is truthy (present and non-empty). */
  function SerialisePath(path: Path, prefix: Option<string>): (r: string)
  {
    if prefix.Some? && prefix.value != "" then Join([prefix.value] + path) else Join(path)
  }

  function GetterName(path: Path): (r: string)
    ensures |path| > 0 ==> r == "get_" + SerialisePath(path, None)
  {
    SerialisePath(path, Some("get"))
  }

  function ResolverName(path: Path): (r: string)
    ensures |path| > 0 ==> r == "resolve_" + SerialisePath(path, None)
  {
    SerialisePath(path, Some("resolve"))
  }

  function ResolveInfoName(path: Path): (r: string)
    ensures |path| > 0 ==> r == "resolve_info_" + SerialisePath(path, None)
  {
    SerialisePath(path, Some("resolve_info"))
  }

  function FieldDefName(path: Path): (r: string)
    ensures |path| > 0 ==> r == "get_field_defs_" + SerialisePath(path, None)
  {
    SerialisePath(path, Some("get_field_defs"))
  }

  /** A truthy prefix adds itself and one separator in front of the plain serialisation. */
  lemma PrefixedSerialisation(path: Path, prefix: string)
    requires |path| > 0 && prefix != ""
    ensures SerialisePath(path, Some(prefix)) == prefix + "_" + SerialisePath(path, None)
  {
  }

  /** An empty prefix behaves like no prefix. */
  lemma EmptyPrefixIsNoPrefix(path: Path)
    ensures SerialisePath(path, Some("")) == SerialisePath(path, None)
  {
  }

  /** The names are not injective in general: a segment containing "_" collides with two segments. */
  lemma SerialisationCollides()
    ensures ["root", "a_b"] != ["root", "a", "b"]
    ensures GetterName(["root", "a_b"]) == GetterName(["root", "a", "b"])
  {
    assert Join(["root", "a", "b"]) == "root" + "_" + Join(["a", "b"]);
    assert Join(["a", "b"]) == "a" + "_" + Join(["b"]);
    assert Join(["get", "root", "a", "b"]) == "get" + "_" + Join(["root", "a", "b"]);
    assert Join(["get", "root", "a_b"]) == "get" + "_" + Join(["root", "a_b"]);
    assert Join(["root", "a_b"]) == "root" + "_" + Join(["a_b"]);
  }

  predicate UnderscoreFree(s: string) {
    '_' !in s
  }

  predicate SegmentsUnderscoreFree(p: Path) {
    forall i :: 0 <= i < |p| ==> UnderscoreFree(p[i])
  }

  /** The first segment is followed by a separator exactly when more segments follow. */
  lemma JoinHead(p: Path)
    requires |p| > 1
    ensures |Join(p)| > |p[0]| && Join(p)[..|p[0]|] == p[0] && Join(p)[|p[0]|] == '_'
    ensures Join(p)[|p[0]| + 1..] == Join(p[1..])
  {
  }

  /** Joining underscore-free segments is injective on non-empty paths. */
  lemma {:induction false} JoinInjective(p: Path, q: Path)
    requires |p| > 0 && |q| > 0
    requires SegmentsUnderscoreFree(p) && SegmentsUnderscoreFree(q)
    requires Join(p) == Join(q)
    ensures p == q
  {
    if |p| > 1 { JoinHead(p); }
    if |q| > 1 { JoinHead(q); }
    if |p| == 1 && |q| == 1 {
    } else if |p| == 1 || |q| == 1 {
      assert false;
    } else if |p[0]| != |q[0]| {
      assert false;
    } else {
      assert p[0] == q[0];
      assert SegmentsUnderscoreFree(p[1..]) by {
        forall i | 0 <= i < |p[1..]| ensures UnderscoreFree(p[1..][i]) { assert p[1..][i] == p[i + 1]; }
      }
      assert SegmentsUnderscoreFree(q[1..]) by {
        forall i | 0 <= i < |q[1..]| ensures UnderscoreFree(q[1..][i]) { assert q[1..][i] == q[i + 1]; }
      }
      JoinInjective(p[1..], q[1..]);
      assert p == [p[0]] + p[1..] && q == [q[0]] + q[1..];
    }
  }

  /** The role a generated global plays; each role has its own name prefix. */
  datatype Role = ResolverRole | ResolveInfoRole | FieldDefRole | LeafTypeRole

  /** A generated symbol before serialisation: a role at a path. */
  datatype Symbol = Symbol(role: Role, path: Path)

  /** The global name of a symbol. A leaf type's path already ends with the type's name. */
  function Name(s: Symbol): string {
    match s.role
    case ResolverRole => ResolverName(s.path)
    case ResolveInfoRole => ResolveInfoName(s.path)
    case FieldDefRole => FieldDefName(s.path)
    case LeafTypeRole => SerialisePath(s.path, None)
  }

  /** The prefix of a role, split at its own underscores. */
  function RoleSegments(r: Role): (segs: seq<string>)
    ensures forall i :: 0 <= i < |segs| ==> UnderscoreFree(segs[i]) && segs[i] != "root"
  {
    match r
    case ResolverRole => ["resolve"]
    case ResolveInfoRole => ["resolve", "info"]
    case FieldDefRole => ["get", "field", "defs"]
    case LeafTypeRole => []
  }

  lemma JoinCons(x: string, p: Path)
    requires |p| > 0
    ensures Join([x] + p) == x + "_" + Join(p)
  {
    assert ([x] + p)[1..] == p;
  }

  lemma ResolveInfoAsJoin(p: Path)
    requires |p| > 0
    ensures SerialisePath(p, Some("resolve_info")) == Join(["resolve", "info"] + p)
  {
    var a := ["info"] + p;
    assert ["resolve", "info"] + p == ["resolve"] + a;
    calc {
      Join(["resolve"] + a);
      == { JoinCons("resolve", a); }
      "resolve" + "_" + Join(a);
      == { JoinCons("info", p); }
      "resolve" + "_" + ("info" + "_" + Join(p));
      == { ResolveInfoPrefixSplit(Join(p)); }
      "resolve_info" + "_" + Join(p);
      == { JoinCons("resolve_info", p); }
      Join(["resolve_info"] + p);
    }
  }

  lemma ResolveInfoPrefixSplit(j: string)
    ensures "resolve" + "_" + ("info" + "_" + j) == "resolve_info" + "_" + j
  {
    assert "resolve" + "_" + "info" == "resolve_info";
    assert "resolve" + "_" + ("info" + "_" + j) == ("resolve" + "_" + "info") + "_" + j;
  }

  lemma FieldDefPrefixSplit(j: string)
    ensures "get" + "_" + ("field" + "_" + ("defs" + "_" + j)) == "get_field_defs" + "_" + j
  {
    assert "get" + "_" + "field" + "_" + "defs" == "get_field_defs";
    assert "get" + "_" + ("field" + "_" + ("defs" + "_" + j)) == ("get" + "_" + "field" + "_" + "defs") + "_" + j;
  }

  lemma FieldDefAsJoin(p: Path)
    requires |p| > 0
    ensures SerialisePath(p, Some("get_field_defs")) == Join(["get", "field", "defs"] + p)
  {
    var a := ["defs"] + p;
    var b := ["field"] + a;
    var c := ["get"] + b;
    assert c == ["get", "field", "defs"] + p;
    calc {
      Join(c);
      == { JoinCons("get", b); }
      "get" + "_" + Join(b);
      == { JoinCons("field", a); }
      "get" + "_" + ("field" + "_" + Join(a));
      == { JoinCons("defs", p); }
      "get" + "_" + ("field" + "_" + ("defs" + "_" + Join(p)));
      == { FieldDefPrefixSplit(Join(p)); }
      "get_field_defs" + "_" + Join(p);
      == { JoinCons("get_field_defs", p); }
      Join(["get_field_defs"] + p);
    }
  }

  /** A name is the join of its role's segments followed by its path. */
  lemma NameAsJoin(s: Symbol)
    requires |s.path| > 0
    ensures Name(s) == Join(RoleSegments(s.role) + s.path)
  {
    var p := s.path;
    if s.role == ResolveInfoRole {
      ResolveInfoAsJoin(p);
    } else if s.role == FieldDefRole {
      FieldDefAsJoin(p);
    } else if s.role == LeafTypeRole {
      assert RoleSegments(s.role) + p == p;
    }
  }

  /** Paths that every generated symbol has: rooted at "root", with underscore-free segments. */
  predicate RootedPlain(p: Path) {
    |p| > 0 && p[0] == "root" && SegmentsUnderscoreFree(p)
  }

  /**
   * On rooted paths with underscore-free segments, distinct symbols get distinct names:
   * neither the role nor the path can be confused with another.
   */
  lemma NameInjective(s: Symbol, t: Symbol)
    requires RootedPlain(s.path) && RootedPlain(t.path)
    requires Name(s) == Name(t)
    ensures s == t
  {
    NameAsJoin(s);
    NameAsJoin(t);
    var a, b := RoleSegments(s.role), RoleSegments(t.role);
    PlainConcat(a, s.path);
    PlainConcat(b, t.path);
    JoinInjective(a + s.path, b + t.path);
    SplitAtRoot(a, b, s.path, t.path);
    RoleSegmentsInjective(s.role, t.role);
  }

  lemma PlainConcat(a: Path, p: Path)
    requires SegmentsUnderscoreFree(a) && SegmentsUnderscoreFree(p)
    ensures SegmentsUnderscoreFree(a + p)
  {
    forall i | 0 <= i < |a + p| ensures UnderscoreFree((a + p)[i]) {
      if i < |a| { assert (a + p)[i] == a[i]; } else { assert (a + p)[i] == p[i - |a|]; }
    }
  }

  /** Prefixes without a "root" segment, followed by paths starting at "root", split apart uniquely. */
  lemma SplitAtRoot(a: Path, b: Path, p: Path, q: Path)
    requires forall i :: 0 <= i < |a| ==> a[i] != "root"
    requires forall i :: 0 <= i < |b| ==> b[i] != "root"
    requires |p| > 0 && p[0] == "root" && |q| > 0 && q[0] == "root"
    requires a + p == b + q
    ensures a == b && p == q
  {
    FirstRoot(a, p);
    FirstRoot(b, q);
    assert |a| == |b|;
    assert a == (a + p)[..|a|] && b == (b + q)[..|b|];
    assert p == (a + p)[|a|..] && q == (b + q)[|b|..];
  }

  /** The first "root" segment of `a + p` is the head of `p`. */
  lemma FirstRoot(a: Path, p: Path)
    requires forall i :: 0 <= i < |a| ==> a[i] != "root"
    requires |p| > 0 && p[0] == "root"
    ensures (a + p)[|a|] == "root"
    ensures forall i :: 0 <= i < |a| ==> (a + p)[i] != "root"
  {
  }

  lemma RoleSegmentsInjective(r1: Role, r2: Role)
    requires RoleSegments(r1) == RoleSegments(r2)
    ensures r1 == r2
  {
  }

  /** Every name of a rooted symbol starts with 'r' ("root..." or "resolve...") or 'g' ("get..."). */
  lemma NameInitial(s: Symbol)
    requires |s.path| > 0 && s.path[0] == "root"
    ensures |Name(s)| > 0 && (Name(s)[0] == 'r' || Name(s)[0] == 'g')
  {
    NameAsJoin(s);
    var x := RoleSegments(s.role) + s.path;
    assert x[0] == (if s.role == LeafTypeRole then "root" else RoleSegments(s.role)[0]);
    if |x| > 1 { JoinHead(x); }
  }
}
