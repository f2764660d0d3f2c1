/**
 * The external model the compiler works on: the query-language AST produced by the
 * parser, the schema's type shapes and field definitions, opaque runtime values,
 * resolvers and middleware, and the errors the compiler can raise.
 */
module Language {
  import opened Wrappers

  /** The shape of a schema type, as `generate_based_on_type` distinguishes it. */
  datatype GqlType =
    | NonNull(ofType: GqlType)
    | ListOf(ofType: GqlType)
    | Object(name: string)
    | Scalar(name: string)
    | Enum(name: string)
    | Other(name: string)   // interfaces, unions, input objects: no case handles them

  /** A resolver function reference. Middleware decoration is a foreign call, modelled as a constructor. */
  datatype Resolver =
    | DefaultResolveFn
    | UserResolver(id: nat)
    | Decorated(middleware: Middleware, inner: Resolver)

  datatype Middleware = Middleware(id: nat)

  /** A field definition of an object type: its declared type and optional resolver. */
  datatype FieldDef = FieldDef(name: string, fieldType: GqlType, resolver: Option<Resolver>)

  /** The parts of a schema the compiler queries: root types and each object type's fields. */
  datatype Schema = Schema(
    queryType: string,
    mutationType: Option<string>,
    subscriptionType: Option<string>,
    objects: map<string, map<string, FieldDef>>)

  /** A selection of the query: a field, a fragment spread or an inline fragment. */
  datatype Selection =
    | FieldSelection(field: Field)
    | FragmentSpread(fragmentName: string)
    | InlineFragment(typeCondition: Option<string>, selections: seq<Selection>)

  /** A field selection with its schema name, optional alias and sub-selections. */
  datatype Field = Field(name: string, alias: Option<string>, selections: seq<Selection>)

  datatype OperationKind = Query | Mutation | Subscription

  datatype OperationDef = OperationDef(kind: OperationKind, name: Option<string>, selections: seq<Selection>)

  datatype FragmentDef = FragmentDef(name: string, typeCondition: string, selections: seq<Selection>)

  /** A top-level definition of a document; `OtherDefinition` carries the node's class name. */
  datatype Definition =
    | OperationDefinition(operation: OperationDef)
    | FragmentDefinition(fragment: FragmentDef)
    | OtherDefinition(className: string)

  datatype DocumentAst = DocumentAst(definitions: seq<Definition>)

  /** The AST node that owns a selection set: the operation at the root, a field below it. */
  datatype Node = OperationNode(op: OperationDef) | FieldNode(field: Field)

  function SelectionsOf(n: Node): seq<Selection> {
    match n
    case OperationNode(op) => op.selections
    case FieldNode(f) => f.selections
  }

  /** An opaque runtime value; `NoneValue` is Python's None. */
  datatype Value = NoneValue | Val(id: int)

  /** Errors raised by the compiler or its collaborators. */
  datatype Error =
    | AmbiguousOperation              // "Must provide operation name if query contains multiple operations."
    | UnknownOperation(name: string)  // "Unknown operation named ..."
    | MissingOperation                // "Must provide an operation."
    | UnsupportedDefinition(className: string)
    | MissingFieldDefinition(fieldName: string)
    | EmptyReduce                     // reduce() of an empty sequence with no initial value
    | UnnamedNode                     // attribute access on the missing name of an anonymous operation
    | RootTypeNotConfigured(kind: OperationKind)
    | ParseError(message: string)
    | MissingGlobal(name: string)     // KeyError on a globals lookup
}
