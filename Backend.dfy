/**
 * `GraphQLFastBackend.document_from_string` (graphql_jit/backend.py): the order in which a
 * request is parsed, validated, given a compilation context and either handed to a
 * fallback document or compiled. The parser, the validator and the module runner are
 * parameters.
 */
module Backend {
  import opened Wrappers
  import opened Language
  import opened CodeUnits
  import opened Compiler
  import opened Generate
  import opened GenerateProps
  import opened Document

  /** The documents the backend can return. */
  datatype Routed =
    | GenericDocument(schema: Schema, query: string, ast: DocumentAst)  // `GraphQLDocument` backed by `schema.execute`
    | CoreBackendDocument(schema: Schema, query: string)                // `GraphQLCoreBackend().document_from_string`
    | CompiledDocumentOf(fields: DocumentFields)                        // `GraphQLCompiledDocument.from_code`

  /**
   * The generator terminates on this request: when the query parses, validates and selects
   * an operation, every sub-field `collect` expands under the selected fragment table is
   * smaller than its parent (validation rejects fragment cycles).
   */
  ghost predicate QueryTerminates(schema: Schema, query: string, operationName: Option<string>,
                                  parse: string -> Result<DocumentAst, Error>,
                                  validate: (Schema, DocumentAst) -> seq<string>,
                                  collect: Collector, depth: Node -> nat)
  {
    parse(query).Ok? && validate(schema, parse(query).value) == [] &&
    SelectOperation(operationName, parse(query).value.definitions).Ok? ==>
      Progress(collect, depth, SelectOperation(operationName, parse(query).value.definitions).value.1)
  }

  /**
   * Parse first, then validate: any validation error falls back to the generic document;
   * then choose the operation, whose errors propagate; a non-query operation falls back to
   * the core backend; a query is generated and loaded from exactly the generated code and globals.
   */
  function DocumentFromString(schema: Schema, query: string, root: Value, operationName: Option<string>,
                              middleware: Option<Middleware>,
                              parse: string -> Result<DocumentAst, Error>,
                              validate: (Schema, DocumentAst) -> seq<string>,
                              collect: Collector, depth: Node -> nat,
                              run: (Text, map<string, Binding>) -> map<string, Binding>): (r: Result<Routed, Error>)
    requires QueryTerminates(schema, query, operationName, parse, validate, collect, depth)
    ensures parse(query).Err? ==> r == Err(parse(query).error)
    ensures parse(query).Ok? && validate(schema, parse(query).value) != [] ==>
      r == Ok(GenericDocument(schema, query, parse(query).value))
    ensures parse(query).Ok? && validate(schema, parse(query).value) == [] ==>
      var sel := SelectOperation(operationName, parse(query).value.definitions);
      && (sel.Err? ==> r == Err(sel.error))
      && (sel.Ok? && sel.value.0.kind != Query ==> r == Ok(CoreBackendDocument(schema, query)))
    ensures parse(query).Ok? && validate(schema, parse(query).value) == [] ==>
      var sel := SelectOperation(operationName, parse(query).value.definitions);
      sel.Ok? && sel.value.0.kind == Query ==>
        var ctx := Context(schema, sel.value.0, sel.value.1, middleware, collect, depth);
        && (GenerateSource(ctx).Err? ==> r == Err(GenerateSource(ctx).error))
        && (GenerateSource(ctx).Ok? ==>
              var unit := GenerateSource(ctx).value;
              var doc := FromCodeSpec(schema, query, parse(query).value, unit.code, Some(unit.globals), run);
              && (doc.Err? ==> r == Err(doc.error))
              && (doc.Ok? ==> r == Ok(CompiledDocumentOf(doc.value))))
    ensures r.Ok? && r.value.CompiledDocumentOf? ==> r.value.fields.schema == schema && r.value.fields.documentString == query
  {
    match parse(query)
    case Err(e) => Err(e)
    case Ok(ast) =>
      if validate(schema, ast) != [] then Ok(GenericDocument(schema, query, ast))
      else
        match SelectOperation(operationName, ast.definitions)
        case Err(e) => Err(e)
        case Ok((op, fragments)) =>
          if op.kind != Query then Ok(CoreBackendDocument(schema, query))
          else
            var ctx := Context(schema, op, fragments, middleware, collect, depth);
            match GenerateSource(ctx)
            case Err(e) => Err(e)
            case Ok(unit) =>
              match FromCodeSpec(schema, query, ast, unit.code, Some(unit.globals), run)
              case Err(e) => Err(e)
              case Ok(fields) => Ok(CompiledDocumentOf(fields))
  }

  /**
   * A compiled document comes only from a parsed, valid query operation, and holds exactly
   * the generated code and the `execute` of the module run in the generated globals.
   */
  lemma CompiledOnlyFromValidQuery(schema: Schema, query: string, root: Value, operationName: Option<string>,
                                   middleware: Option<Middleware>,
                                   parse: string -> Result<DocumentAst, Error>,
                                   validate: (Schema, DocumentAst) -> seq<string>,
                                   collect: Collector, depth: Node -> nat,
                                   run: (Text, map<string, Binding>) -> map<string, Binding>)
    requires QueryTerminates(schema, query, operationName, parse, validate, collect, depth)
    requires var r := DocumentFromString(schema, query, root, operationName, middleware, parse, validate, collect, depth, run);
      r.Ok? && r.value.CompiledDocumentOf?
    ensures parse(query).Ok? && validate(schema, parse(query).value) == []
    ensures var ast := parse(query).value;
      var sel := SelectOperation(operationName, ast.definitions);
      && sel.Ok? && sel.value.0.kind == Query
      && var ctx := Context(schema, sel.value.0, sel.value.1, middleware, collect, depth);
         && GenerateSource(ctx).Ok?
         && var unit := GenerateSource(ctx).value;
            && DocumentFromString(schema, query, root, operationName, middleware, parse, validate, collect, depth, run)
               == Ok(CompiledDocumentOf(DocumentFields(schema, unit.code, run(unit.code, InitialGlobals(Some(unit.globals)))["execute"], query, ast)))
  {
    var ast := parse(query).value;
    var sel := SelectOperation(operationName, ast.definitions);
    var ctx := Context(schema, sel.value.0, sel.value.1, middleware, collect, depth);
    assert ctx.Terminating();
  }

  /** The generated globals never shadow `__file__`, so the compiled module still sees "<document>". */
  lemma GeneratedKeepsFile(ctx: Context)
    requires ctx.Terminating()
    requires GenerateSource(ctx).Ok?
    ensures "__file__" !in GenerateSource(ctx).value.globals
    ensures InitialGlobals(Some(GenerateSource(ctx).value.globals))["__file__"] == TextBinding(FileName)
  {
    var g := GenerateSource(ctx).value.globals;
    SourceNames(ctx);
    FileNotGenerated(g);
  }

  lemma FileNotGenerated(g: map<string, Binding>)
    requires forall k :: k in g ==> k == "schema" || k == "operation" || (|k| > 0 && (k[0] == 'r' || k[0] == 'g'))
    ensures "__file__" !in g && InitialGlobals(Some(g))["__file__"] == TextBinding(FileName)
  {
    assert "__file__"[0] == '_';
  }

  /** On every route except compilation, the middleware makes no difference; nor does the root value anywhere. */
  lemma OptionsNotForwarded(schema: Schema, query: string, root1: Value, root2: Value, operationName: Option<string>,
                            m1: Option<Middleware>, m2: Option<Middleware>,
                            parse: string -> Result<DocumentAst, Error>,
                            validate: (Schema, DocumentAst) -> seq<string>,
                            collect: Collector, depth: Node -> nat,
                            run: (Text, map<string, Binding>) -> map<string, Binding>)
    requires QueryTerminates(schema, query, operationName, parse, validate, collect, depth)
    ensures DocumentFromString(schema, query, root1, operationName, m1, parse, validate, collect, depth, run)
         == DocumentFromString(schema, query, root2, operationName, m1, parse, validate, collect, depth, run)
    ensures var r := DocumentFromString(schema, query, root1, operationName, m1, parse, validate, collect, depth, run);
      !(r.Ok? && r.value.CompiledDocumentOf?) && r.Ok? ==>
        r == DocumentFromString(schema, query, root1, operationName, m2, parse, validate, collect, depth, run)
  {
  }
}
