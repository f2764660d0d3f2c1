/**
 * The compiled document (graphql_jit/document.py): the globals a generated module is run
 * with, and `execute`, which maps the deprecated keyword names onto the current ones.
 * Running the module text is a parameter, `run`, standing for `compile` and `exec`.
 */
module Document {
  import opened Wrappers
  import opened Language
  import opened CodeUnits

  /** The file name the module is compiled under, recorded as `__file__`. */
  const FileName := "<document>"

  /** The globals before the module runs: `__file__`, overlaid by the extra globals when they are non-empty. */
  function InitialGlobals(extra: Option<map<string, Binding>>): (g: map<string, Binding>)
    ensures g.Keys == {"__file__"} + (if extra.Some? then extra.value.Keys else {})
    ensures extra.Some? ==> forall k :: k in extra.value ==> g[k] == extra.value[k]
    ensures extra.None? || "__file__" !in extra.value ==> g["__file__"] == TextBinding(FileName)
  {
    var base := map["__file__" := TextBinding(FileName)];
    if extra.Some? && extra.value != map[] then base + extra.value else base
  }

  /** `from_code`'s dictionary, built as the source builds it: a literal, then `update`. */
  method SetUpGlobals(extra: Option<map<string, Binding>>) returns (d: GlobalsDict)
    ensures fresh(d) && d.entries == InitialGlobals(extra)
  {
    d := new GlobalsDict(map["__file__" := TextBinding(FileName)]);
    if extra.Some? && extra.value != map[] {
      d.Update(extra.value);
    }
  }

  /** The fields a compiled document holds. */
  datatype DocumentFields = DocumentFields(schema: Schema, code: Text, executeFunc: Binding,
                                           documentString: string, documentAst: DocumentAst)

  /**
   * What `from_code` produces: the inputs stored unchanged and the module's `execute`,
   * or the KeyError when running the module leaves no `execute` among its globals.
   */
  function FromCodeSpec(schema: Schema, documentString: string, documentAst: DocumentAst, code: Text,
                        extra: Option<map<string, Binding>>,
                        run: (Text, map<string, Binding>) -> map<string, Binding>): (r: Result<DocumentFields, Error>)
    ensures r.Ok? <==> "execute" in run(code, InitialGlobals(extra))
    ensures r.Err? ==> r.error == MissingGlobal("execute")
    ensures r.Ok? ==> r.value == DocumentFields(schema, code, run(code, InitialGlobals(extra))["execute"], documentString, documentAst)
  {
    var globals := run(code, InitialGlobals(extra));
    if "execute" in globals then Ok(DocumentFields(schema, code, globals["execute"], documentString, documentAst))
    else Err(MissingGlobal("execute"))
  }

  /** The three deprecated keyword arguments of `execute`, in the order the source tests them. */
  datatype LegacyParam = RootValue | ContextValue | VariableValues

  /** The deprecated keyword's name. */
  function Alias(p: LegacyParam): string {
    match p
    case RootValue => "root_value"
    case ContextValue => "context_value"
    case VariableValues => "variable_values"
  }

  function Rank(p: LegacyParam): nat {
    match p
    case RootValue => 0
    case ContextValue => 1
    case VariableValues => 2
  }

  /** A `DeprecationWarning` that `warnings.warn` is asked to emit, identified by its keyword. */
  datatype Warning = DeprecationWarning(param: LegacyParam)

  /** The call `execute` makes: `execute_func` with the four normalised keyword arguments. */
  datatype ExecuteCall = ExecuteCall(func: Binding, root: Value, context: Value, variables: Value, operationName: Value)

  /** The deprecated keyword stands in exactly when the explicit argument is None and the keyword was passed. */
  predicate UsesAlias(explicit: Value, p: LegacyParam, kwargs: map<string, Value>) {
    explicit == NoneValue && Alias(p) in kwargs
  }

  /** The warning for `p`, if its alias is used. */
  function WarningIf(explicit: Value, p: LegacyParam, kwargs: map<string, Value>): seq<Warning> {
    if UsesAlias(explicit, p, kwargs) then [DeprecationWarning(p)] else []
  }

  /** The warnings of one `execute` call, in the order the source tests the three arguments. */
  function DeprecationLog(root: Value, context: Value, variables: Value, kwargs: map<string, Value>): seq<Warning> {
    WarningIf(root, RootValue, kwargs) + WarningIf(context, ContextValue, kwargs) + WarningIf(variables, VariableValues, kwargs)
  }

  /**
   * One warning per alias actually used and none for an explicit argument, and they come
   * in the order root, context, variables, so none repeats and there are at most three.
   */
  lemma DeprecationLogSpec(root: Value, context: Value, variables: Value, kwargs: map<string, Value>)
    ensures var log := DeprecationLog(root, context, variables, kwargs);
      && (DeprecationWarning(RootValue) in log <==> UsesAlias(root, RootValue, kwargs))
      && (DeprecationWarning(ContextValue) in log <==> UsesAlias(context, ContextValue, kwargs))
      && (DeprecationWarning(VariableValues) in log <==> UsesAlias(variables, VariableValues, kwargs))
      && (forall i, j :: 0 <= i < j < |log| ==> Rank(log[i].param) < Rank(log[j].param))
      && |log| <= 3
  {
    var a := WarningIf(root, RootValue, kwargs);
    var b := WarningIf(context, ContextValue, kwargs);
    var c := WarningIf(variables, VariableValues, kwargs);
    var log := a + b + c;
    assert forall w :: w in log <==> w in a || w in b || w in c;
    forall i, j | 0 <= i < j < |log| ensures Rank(log[i].param) < Rank(log[j].param) {
      RankAt(a, b, c, i);
      RankAt(a, b, c, j);
    }
  }

  lemma RankAt(a: seq<Warning>, b: seq<Warning>, c: seq<Warning>, k: nat)
    requires forall w :: w in a ==> w.param == RootValue
    requires forall w :: w in b ==> w.param == ContextValue
    requires forall w :: w in c ==> w.param == VariableValues
    requires |a| <= 1 && |b| <= 1 && k < |a + b + c|
    ensures k < |a| ==> Rank((a + b + c)[k].param) == 0
    ensures |a| <= k < |a| + |b| ==> Rank((a + b + c)[k].param) == 1
    ensures |a| + |b| <= k ==> Rank((a + b + c)[k].param) == 2
  {
    if k < |a| { assert (a + b + c)[k] == a[k]; }
    else if k < |a| + |b| { assert (a + b + c)[k] == b[k - |a|]; }
    else { assert (a + b + c)[k] == c[k - |a| - |b|]; }
  }

  /** `GraphQLCompiledDocument`: built once by `from_code`, never updated afterwards. */
  class CompiledDocument {
    const schema: Schema
    const code: Text
    const executeFunc: Binding
    const documentString: string
    const documentAst: DocumentAst

    constructor (f: DocumentFields)
      ensures Fields() == f
    {
      schema := f.schema;
      code := f.code;
      executeFunc := f.executeFunc;
      documentString := f.documentString;
      documentAst := f.documentAst;
    }

    function Fields(): DocumentFields {
      DocumentFields(schema, code, executeFunc, documentString, documentAst)
    }

    /** `from_code`: seed and overlay the globals, run the module in them, and take its `execute`. */
    static method FromCode(schema: Schema, documentString: string, documentAst: DocumentAst, code: Text,
                           extra: Option<map<string, Binding>>,
                           run: (Text, map<string, Binding>) -> map<string, Binding>)
      returns (r: Result<CompiledDocument, Error>)
      ensures r.Ok? <==> FromCodeSpec(schema, documentString, documentAst, code, extra, run).Ok?
      ensures r.Err? ==> r.error == FromCodeSpec(schema, documentString, documentAst, code, extra, run).error
      ensures r.Ok? ==> fresh(r.value) && r.value.Fields() == FromCodeSpec(schema, documentString, documentAst, code, extra, run).value
    {
      var globalVars := SetUpGlobals(extra);
      globalVars.entries := run(code, globalVars.entries);
      if "execute" !in globalVars.entries {
        return Err(MissingGlobal("execute"));
      }
      var obj := new CompiledDocument(DocumentFields(schema, code, globalVars.entries["execute"], documentString, documentAst));
      r := Ok(obj);
    }

    /**
     * `execute`: a deprecated keyword replaces its argument only when that argument is None,
     * logging one deprecation each time; `operation_name` comes from the keywords or is None;
     * `execute_func` is called once with the results.
     */
    method Execute(root: Value, context: Value, variables: Value, kwargs: map<string, Value>)
      returns (call: ExecuteCall, warnings: seq<Warning>)
      ensures call.func == executeFunc
      ensures root != NoneValue ==> call.root == root
      ensures root == NoneValue ==> call.root == (if "root_value" in kwargs then kwargs["root_value"] else NoneValue)
      ensures context != NoneValue ==> call.context == context
      ensures context == NoneValue ==> call.context == (if "context_value" in kwargs then kwargs["context_value"] else NoneValue)
      ensures variables != NoneValue ==> call.variables == variables
      ensures variables == NoneValue ==> call.variables == (if "variable_values" in kwargs then kwargs["variable_values"] else NoneValue)
      ensures call.operationName == (if "operation_name" in kwargs then kwargs["operation_name"] else NoneValue)
      ensures warnings == DeprecationLog(root, context, variables, kwargs)
    {
      var root', context', variables' := root, context, variables;
      warnings := [];
      if root' == NoneValue && "root_value" in kwargs {
        warnings := warnings + [DeprecationWarning(RootValue)];
        root' := kwargs["root_value"];
      }
      if context' == NoneValue && "context_value" in kwargs {
        warnings := warnings + [DeprecationWarning(ContextValue)];
        context' := kwargs["context_value"];
      }
      if variables' == NoneValue && "variable_values" in kwargs {
        warnings := warnings + [DeprecationWarning(VariableValues)];
        variables' := kwargs["variable_values"];
      }
      var operationName := if "operation_name" in kwargs then kwargs["operation_name"] else NoneValue;
      call := ExecuteCall(executeFunc, root', context', variables', operationName);
    }
  }
}
