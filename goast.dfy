/**
 * The slice of Go's syntax tree the source model builder reads: type
 * expressions, field lists, type specs and top-level declarations. Loading
 * packages and walking files is not part of this model; the parser methods
 * receive these trees directly.
 */
module GoAst {
  import opened Strcase

  /** The direction written on a channel type. */
  datatype ChanDir = SendOnly | RecvOnly | Both

  datatype Expr =
    | IdentExpr(name: string)                       // T
    | SelectorExpr(pkg: string, sel: string)        // pkg.T
    | StarExpr(x: Expr)                             // *T
    | ArrayExpr(hasLen: bool, elt: Expr)            // [N]T when hasLen, []T otherwise
    | StructExpr(fields: seq<FieldExpr>)            // struct { ... }
    | FuncExpr(hasTypeParams: bool, params: seq<FieldExpr>, results: seq<FieldExpr>)
    | ChanExpr(dir: ChanDir, value: Expr)           // chan T, chan<- T, <-chan T
    | OtherExpr                                     // map, interface, ...

  /** One entry of a field list: the names it declares (none for an embedded
      field or an unnamed parameter or result) sharing one type. A missing
      field list (a function without results) is the empty sequence. */
  datatype FieldExpr = FieldExpr(names: seq<string>, typ: Expr)

  datatype TypeSpec = TypeSpec(name: string, hasTypeParams: bool, typ: Expr)

  datatype Spec = TypeSpecNode(spec: TypeSpec) | OtherSpec

  datatype Token = IMPORT | CONST | TYPE | VAR | OtherToken

  /** A function declaration; ftype is its signature, a FuncExpr for any
      declaration the Go parser produces. */
  datatype FuncDecl = FuncDecl(hasRecv: bool, name: string, ftype: Expr)

  datatype Decl =
    | GenDecl(tok: Token, specs: seq<Spec>)
    | FuncDeclNode(decl: FuncDecl)
    | BadDecl

  /** The failures the parsers report, as tags rather than localized text. */
  datatype ParseError =
    | AnyUnsupported
    | ImportedTypeUnsupported
    | DoublePointerUnsupported
    | FixedArrayUnsupported
    | StructWithoutFields(structName: string)
    | GenericFuncUnsupported
    | TypeUnsupported
    | GenericTypeUnsupported
    | ExpectedStruct
    | ExpectedFunc
    | UnexpectedDeclToken
    | UnexpectedDeclType
    | TypeSpecCount(count: nat)
    | NotATypeSpec

  /** The exportedness test: a name whose first character is a lower-case
      ASCII letter is unexported. */
  predicate StartsLower(name: string) { |name| > 0 && IsLower(name[0]) }
}
