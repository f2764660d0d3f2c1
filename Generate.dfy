/**
 * The shape-directed code generator (graphql_jit/generate.py, `generate_based_on_type`,
 * the four `generate_*_selection` functions and `generate_source`).
 *
 * The recursive functions below are the generator; the object case's loop, which the
 * source runs imperatively, is also given as a method proved to agree with them.
 */
module Generate {
  import opened Wrappers
  import opened Language
  import opened Naming
  import opened CodeUnits
  import opened Compiler

  /** graphql-core's `get_field_def`, restricted to the fields an object type declares. */
  function GetFieldDef(schema: Schema, parentType: GqlType, fieldName: string): (d: Option<FieldDef>)
    ensures d.Some? <==> parentType.Object? && parentType.name in schema.objects && fieldName in schema.objects[parentType.name]
    ensures d.Some? ==> d.value == schema.objects[parentType.name][fieldName]
  {
    if parentType.Object? && parentType.name in schema.objects && fieldName in schema.objects[parentType.name]
    then Some(schema.objects[parentType.name][fieldName])
    else None
  }

  /** graphql-core's `get_field_entry_key`: the alias when there is one, else the field name. */
  function ResponseKey(f: Field): (k: string)
    ensures f.alias.None? ==> k == f.name
    ensures f.alias.Some? ==> k == f.alias.value
  {
    f.alias.GetOr(f.name)
  }

  /** `f"{field_ast.name.value}-item"`; an anonymous operation has no name to read. */
  function ItemFieldName(node: Node): (r: Result<string, Error>)
    ensures node.FieldNode? ==> r == Ok(node.field.name + "-item")
    ensures node.OperationNode? && node.op.name.None? ==> r == Err(UnnamedNode)
  {
    match node
    case FieldNode(f) => Ok(f.name + "-item")
    case OperationNode(op) => if op.name.Some? then Ok(op.name.value + "-item") else Err(UnnamedNode)
  }

  /** The compile-time ResolveInfo a wrapper (non-null or list) binds for its inner getter. */
  function WrapperInfo(ctx: Context, fieldName: string, node: Node, wrapper: GqlType): ResolveInfo
    requires wrapper.NonNull? || wrapper.ListOf?
  {
    ResolveInfo(fieldName, SingleAst(node), wrapper.ofType, wrapper, ctx.schema, ctx.operation, ctx.fragments)
  }

  /** `generate_based_on_type`: the shapes are checked in the order NonNull, Object, List, Scalar/Enum; anything else yields an empty unit. */
  function GenerateBasedOnType(ctx: Context, t: GqlType, node: Node, path: Path): Result<CodeUnit, Error>
    requires ctx.Terminating()
    decreases ctx.depth(node), t, 2, 0
  {
    match t
    case NonNull(_) => NonNullSelection(ctx, t, node, path)
    case Object(_) => ObjectSelection(ctx, t, node, path)
    case ListOf(_) => ListSelection(ctx, t, node, path)
    case Scalar(_) => LeafSelection(ctx, t, node, path)
    case Enum(_) => LeafSelection(ctx, t, node, path)
    case Other(_) => Ok(CodeUnit([], map[]))
  }

  /** The non-null getter's template: this getter, and the inner getter with its resolve info. */
  function NonNullCode(path: Path, newPath: Path): Text {
    Render("resolve_non_null.tpl", [
      ("field_getter_name", StrArg(GetterName(path))),
      ("child_resolve_info_name", StrArg(ResolveInfoName(newPath))),
      ("child_getter_name", StrArg(GetterName(newPath)))])
  }

  /** The list getter's template: this getter, and the item's resolve info. */
  function ListCode(path: Path, newPath: Path): Text {
    Render("resolve_list.tpl", [
      ("field_getter_name", StrArg(GetterName(path))),
      ("child_resolve_info_name", StrArg(ResolveInfoName(newPath)))])
  }

  /** `generate_non_null_selection`: the inner type at `path + ["non_null"]`, merged before this getter. */
  function NonNullSelection(ctx: Context, t: GqlType, node: Node, path: Path): Result<CodeUnit, Error>
    requires ctx.Terminating() && t.NonNull?
    decreases ctx.depth(node), t, 1, 0
  {
    match ItemFieldName(node)
    case Err(e) => Err(e)
    case Ok(fieldName) =>
      var newPath := path + ["non_null"];
      var childInfoName := ResolveInfoName(newPath);
      var code := NonNullCode(path, newPath);
      match GenerateBasedOnType(ctx, t.ofType, node, newPath)
      case Err(e) => Err(e)
      case Ok(child) =>
        MergeAll([child, CodeUnit(code, map[childInfoName := InfoBinding(WrapperInfo(ctx, fieldName, node, t))])])
  }

  /** `generate_leaf_selection`: one global, the leaf type, under its path extended by the type name. */
  function LeafSelection(ctx: Context, t: GqlType, node: Node, path: Path): Result<CodeUnit, Error>
    requires t.Scalar? || t.Enum?
  {
    var typeName := SerialisePath(path + [t.name], None);
    var code := Render("resolve_leaf.tpl", [
      ("field_getter_name", StrArg(GetterName(path))),
      ("object_type", StrArg(typeName))]);
    Ok(CodeUnit(code, map[typeName := TypeBinding(t)]))
  }

  /** `generate_list_selection`: the item type at `path + ["item"]`, merged before this getter. */
  function ListSelection(ctx: Context, t: GqlType, node: Node, path: Path): Result<CodeUnit, Error>
    requires ctx.Terminating() && t.ListOf?
    decreases ctx.depth(node), t, 1, 0
  {
    match ItemFieldName(node)
    case Err(e) => Err(e)
    case Ok(fieldName) =>
      var newPath := path + ["item"];
      var childInfoName := ResolveInfoName(newPath);
      var code := ListCode(path, newPath);
      match GenerateBasedOnType(ctx, t.ofType, node, newPath)
      case Err(e) => Err(e)
      case Ok(child) =>
        MergeAll([child, CodeUnit(code, map[childInfoName := InfoBinding(WrapperInfo(ctx, fieldName, node, t))])])
  }

  /** The object case's loop state: `sub_fields_info`, `globals_dict` and the child units so far. */
  datatype ObjectAcc = ObjectAcc(infos: seq<SubFieldInfo>, globals: map<string, Binding>, children: seq<CodeUnit>)

  const EmptyAcc := ObjectAcc([], map[], [])

  /** The ResolveInfo bound for one sub-field of an object. */
  function FieldInfo(ctx: Context, objectType: GqlType, sub: Field, def: FieldDef): ResolveInfo {
    ResolveInfo(sub.name, AstList([FieldNode(sub)]), def.fieldType, objectType, ctx.schema, ctx.operation, ctx.fragments)
  }

  /** The resolver bound for a field: its own or the default one, decorated by the middleware. */
  function BoundResolver(ctx: Context, def: FieldDef): Resolver {
    FieldResolver(ctx.middleware, def.resolver.GetOr(DefaultResolveFn))
  }

  /** What one sub-field adds to the loop state, before its child unit is generated. */
  function FieldStep(ctx: Context, objectType: GqlType, sub: Field, def: FieldDef, p: Path, acc: ObjectAcc): ObjectAcc {
    var info := SubFieldInfo(ResponseKey(sub), GetterName(p), ResolverName(p), ResolveInfoName(p), FieldDefName(p));
    var g := acc.globals[ResolverName(p) := ResolverBinding(BoundResolver(ctx, def))]
                        [FieldDefName(p) := FieldDefBinding(def)]
                        [ResolveInfoName(p) := InfoBinding(FieldInfo(ctx, objectType, sub, def))];
    ObjectAcc(acc.infos + [info], g, acc.children)
  }

  /** One iteration of the object case's loop: the sub-field's entries and globals, then its child unit. */
  function FieldIteration(ctx: Context, objectType: GqlType, node: Node, path: Path, sub: Field, acc: ObjectAcc)
    : Result<ObjectAcc, Error>
    requires ctx.Terminating() && ctx.depth(FieldNode(sub)) < ctx.depth(node)
    decreases ctx.depth(node), objectType, 0, 0
  {
    match GetFieldDef(ctx.schema, objectType, sub.name)
    case None => Err(MissingFieldDefinition(sub.name))
    case Some(def) =>
      var p := path + [sub.name];
      var acc' := FieldStep(ctx, objectType, sub, def, p, acc);
      match GenerateBasedOnType(ctx, def.fieldType, FieldNode(sub), p)
      case Err(e) => Err(e)
      case Ok(child) => Ok(acc'.(children := acc'.children + [child]))
  }

  /** The object case's loop over the remaining sub-fields, stopping at the first error. */
  function FieldsLoop(ctx: Context, objectType: GqlType, node: Node, path: Path, subs: seq<Field>, acc: ObjectAcc)
    : Result<ObjectAcc, Error>
    requires ctx.Terminating()
    requires forall g :: g in subs ==> ctx.depth(FieldNode(g)) < ctx.depth(node)
    decreases ctx.depth(node), objectType, 0, |subs|
  {
    if subs == [] then Ok(acc)
    else
      match FieldIteration(ctx, objectType, node, path, subs[0], acc)
      case Err(e) => Err(e)
      case Ok(acc') => FieldsLoop(ctx, objectType, node, path, subs[1..], acc')
  }

  /** The object driver: one template over `sub_fields_info`, carrying the loop's globals. */
  function DriverUnit(path: Path, acc: ObjectAcc): CodeUnit {
    CodeUnit(Render("resolve_object.tpl", [
      ("field_getter_name", StrArg(GetterName(path))),
      ("sub_fields_info", InfosArg(acc.infos))]), acc.globals)
  }

  /** `generate_object_selection`: the loop, then all child units merged before the driver. */
  function ObjectSelection(ctx: Context, t: GqlType, node: Node, path: Path): Result<CodeUnit, Error>
    requires ctx.Terminating() && t.Object?
    decreases ctx.depth(node), t, 1, 0
  {
    match FieldsLoop(ctx, t, node, path, SubFields(ctx, t, node), EmptyAcc)
    case Err(e) => Err(e)
    case Ok(acc) => MergeAll(acc.children + [DriverUnit(path, acc)])
  }

  /** One pass of the loop over the sub-fields in `generate_object_selection`:
      record the field's names, bind its resolver, definition and resolve info,
      and generate the code unit for its value. */
  method VisitField(ctx: Context, t: GqlType, node: Node, path: Path, sub: Field, acc: ObjectAcc)
    returns (r: Result<ObjectAcc, Error>)
    requires ctx.Terminating() && ctx.depth(FieldNode(sub)) < ctx.depth(node)
    ensures r == FieldIteration(ctx, t, node, path, sub, acc)
  {
    var globalsDict, children, subFieldsInfo := acc.globals, acc.children, acc.infos;
    var fieldName := sub.name;
    var fieldDef := GetFieldDef(ctx.schema, t, fieldName);
    if fieldDef.None? {
      return Err(MissingFieldDefinition(fieldName));
    }
    var def := fieldDef.value;
    var resolveFnWithMiddleware := FieldResolver(ctx.middleware, def.resolver.GetOr(DefaultResolveFn));
    var newPath := path + [fieldName];
    var getterName := GetterName(newPath);
    var resolverName := ResolverName(newPath);
    var resolveInfoName := ResolveInfoName(newPath);
    var fieldDefName := FieldDefName(newPath);
    var responseName := ResponseKey(sub);
    subFieldsInfo := subFieldsInfo + [SubFieldInfo(responseName, getterName, resolverName, resolveInfoName, fieldDefName)];
    var resolveInfo := ResolveInfo(fieldName, AstList([FieldNode(sub)]), def.fieldType, t,
                                   ctx.schema, ctx.operation, ctx.fragments);
    globalsDict := globalsDict[resolverName := ResolverBinding(resolveFnWithMiddleware)];
    globalsDict := globalsDict[fieldDefName := FieldDefBinding(def)];
    globalsDict := globalsDict[resolveInfoName := InfoBinding(resolveInfo)];
    var child := GenerateBasedOnType(ctx, def.fieldType, FieldNode(sub), newPath);
    if child.Err? {
      return Err(child.error);
    }
    children := children + [child.value];
    r := Ok(ObjectAcc(subFieldsInfo, globalsDict, children));
  }

  /** The loop of `generate_object_selection`, appending to its three accumulators. */
  method VisitFields(ctx: Context, t: GqlType, node: Node, path: Path, subfieldAsts: seq<Field>)
    returns (r: Result<ObjectAcc, Error>)
    requires ctx.Terminating()
    requires forall g :: g in subfieldAsts ==> ctx.depth(FieldNode(g)) < ctx.depth(node)
    ensures r == FieldsLoop(ctx, t, node, path, subfieldAsts, EmptyAcc)
  {
    var globalsDict: map<string, Binding> := map[];
    var children: seq<CodeUnit> := [];
    var subFieldsInfo: seq<SubFieldInfo> := [];
    var i := 0;
    while i < |subfieldAsts|
      invariant 0 <= i <= |subfieldAsts|
      invariant FieldsLoop(ctx, t, node, path, subfieldAsts, EmptyAcc)
                == FieldsLoop(ctx, t, node, path, subfieldAsts[i..], ObjectAcc(subFieldsInfo, globalsDict, children))
    {
      assert subfieldAsts[i..][0] == subfieldAsts[i] && subfieldAsts[i..][1..] == subfieldAsts[i + 1..];
      var step := VisitField(ctx, t, node, path, subfieldAsts[i], ObjectAcc(subFieldsInfo, globalsDict, children));
      if step.Err? {
        return Err(step.error);
      }
      subFieldsInfo, globalsDict, children := step.value.infos, step.value.globals, step.value.children;
      i := i + 1;
    }
    r := Ok(ObjectAcc(subFieldsInfo, globalsDict, children));
  }

  /** `generate_object_selection` as the source runs it: the loop, then the children merged before the driver. */
  method GenerateObjectSelection(ctx: Context, t: GqlType, node: Node, path: Path) returns (r: Result<CodeUnit, Error>)
    requires ctx.Terminating() && t.Object?
    ensures r == ObjectSelection(ctx, t, node, path)
  {
    var subfieldAsts := SubFields(ctx, t, node);
    var fields := VisitFields(ctx, t, node, path, subfieldAsts);
    if fields.Err? {
      return Err(fields.error);
    }
    r := MergeAll(fields.value.children + [DriverUnit(path, fields.value)]);
  }

  /** graphql-core's `get_operation_root_type`. */
  function OperationRootType(schema: Schema, op: OperationDef): (r: Result<GqlType, Error>)
    ensures r.Ok? ==> r.value.Object?
    ensures op.kind == Query ==> r == Ok(Object(schema.queryType))
  {
    match op.kind
    case Query => Ok(Object(schema.queryType))
    case Mutation =>
      if schema.mutationType.Some? then Ok(Object(schema.mutationType.value)) else Err(RootTypeNotConfigured(Mutation))
    case Subscription =>
      if schema.subscriptionType.Some? then Ok(Object(schema.subscriptionType.value))
      else Err(RootTypeNotConfigured(Subscription))
  }

  const RootPath: Path := ["root"]

  function HeaderUnit(): CodeUnit {
    CodeUnit(Render("header.tpl", [("field_getter_name", StrArg(GetterName(RootPath)))]), map[])
  }

  function QueryUnit(ctx: Context): CodeUnit {
    CodeUnit(Render("query.tpl", [("field_getter_name", StrArg(GetterName(RootPath)))]),
             map["schema" := SchemaBinding(ctx.schema), "operation" := OperationBinding(ctx.operation)])
  }

  /** `generate_source`: the header, the operation's unit generated at `["root"]`, then the query driver. */
  function GenerateSource(ctx: Context): Result<CodeUnit, Error>
    requires ctx.Terminating()
  {
    match OperationRootType(ctx.schema, ctx.operation)
    case Err(e) => Err(e)
    case Ok(rootType) =>
      match GenerateBasedOnType(ctx, rootType, OperationNode(ctx.operation), RootPath)
      case Err(e) => Err(e)
      case Ok(operationUnit) => MergeAll([HeaderUnit(), operationUnit, QueryUnit(ctx)])
  }
}
