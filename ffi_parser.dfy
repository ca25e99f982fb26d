/**
 * The current source model builder: it turns Go syntax into the type model,
 * rejecting every shape the runtime cannot carry (imported types, any, double
 * pointers, fixed-size arrays, structs without exported fields, generic
 * functions, channels and every other type form).
 */
module FfiParser {
  import opened Wrappers
  import opened Strcase
  import opened Strconv
  import opened Models
  import opened Registry
  import opened GoAst

  /** The shapes this parser can produce: no pointer directly inside a pointer,
      no channel, identifiers that are neither primitive names nor any, struct
      literals with at least one field and only exported field names, and
      function records named by identifiers. */
  predicate FfiShape(t: GoType)
  {
    match t
    case Basic(_) => true
    case Ident(n) => n !in BasicTypeMap && n != "any"
    case Pointer(i) => !i.Pointer? && FfiShape(i)
    case Slice(i) => FfiShape(i)
    case Chan(_) => false
    case Struct(s) =>
      s.typ.Ident? && |s.fields| > 0 &&
      forall f :: f in s.fields ==> !StartsLower(f.name) && FfiShape(f.typ)
    case Func(fn) =>
      fn.params.typ.Ident? && fn.results.typ.Ident? &&
      (forall f :: f in fn.params.fields ==> FfiShape(f.typ)) &&
      (forall f :: f in fn.results.fields ==> FfiShape(f.typ))
  }

  /** The names a field-list entry contributes: in a struct, embedded entries
      and unexported names are dropped; elsewhere an unnamed entry stands for
      one slot named "". */
  function KeptNames(g: FieldExpr, isStruct: bool): seq<string>
  {
    if g.names == [] then (if isStruct then [] else [""])
    else ExportedOnly(g.names, isStruct)
  }

  function ExportedOnly(names: seq<string>, isStruct: bool): (r: seq<string>)
    ensures forall n :: n in r ==> n in names && (isStruct ==> !StartsLower(n))
    ensures !isStruct ==> r == names
  {
    if names == [] then []
    else (if isStruct && StartsLower(names[0]) then [] else [names[0]]) + ExportedOnly(names[1..], isStruct)
  }

  /** One field per name, all sharing the entry's type. */
  function Expand(names: seq<string>, t: GoType): seq<Field>
  {
    seq(|names|, k requires 0 <= k < |names| => Field(names[k], t))
  }

  /** How many fields a field list yields. */
  function KeptCount(list: seq<FieldExpr>, isStruct: bool): nat
  {
    if list == [] then 0 else |KeptNames(list[0], isStruct)| + KeptCount(list[1..], isStruct)
  }

  function ParseTypeExpr(name: string, e: Expr): (r: Result<GoType, ParseError>)
    decreases e
    ensures r.Ok? ==> FfiShape(r.value)
    ensures r.Ok? ==> (r.value.Pointer? <==> e.StarExpr?)
    ensures r.Ok? && r.value.Struct? ==> e.StructExpr? && r.value.st.typ == Ident(name)
    ensures r.Ok? && r.value.Func? ==>
      e.FuncExpr? && r.value.fn == NewFuncType(name, r.value.fn.params, r.value.fn.results)
  {
    match e
    case IdentExpr(n) =>
      if n in BasicTypeMap then Ok(Basic(BasicTypeMap[n]))
      else if n == "any" then Err(AnyUnsupported)
      else Ok(Ident(n))
    case SelectorExpr(_, _) => Err(ImportedTypeUnsupported)
    case StarExpr(x) =>
      var inner :- ParseTypeExpr("", x);
      if inner.Pointer? then Err(DoublePointerUnsupported) else Ok(Pointer(inner))
    case ArrayExpr(hasLen, elt) =>
      if hasLen then Err(FixedArrayUnsupported)
      else
        var inner :- ParseTypeExpr("", elt);
        Ok(Slice(inner))
    case StructExpr(fs) =>
      var fields :- ParseFields(fs, true);
      if |fields| == 0 then Err(StructWithoutFields(name))
      else Ok(Struct(StructType(Ident(name), fields)))
    case FuncExpr(hasTypeParams, ps, rs) =>
      if hasTypeParams then Err(GenericFuncUnsupported)
      else
        var params :- ParseFields(ps, false);
        var results :- ParseFields(rs, false);
        Ok(Func(NewFuncType(name,
          StructType(Ident(ToLowerCamel(name) + "Params"), params),
          StructType(Ident(ToLowerCamel(name) + "Results"), results))))
    case ChanExpr(_, _) => Err(TypeUnsupported)
    case OtherExpr => Err(TypeUnsupported)
  }

  /** A field list, entry by entry: an entry that keeps no name is skipped
      before its type is looked at; otherwise its type is parsed once and
      shared by every kept name, in order. The first failure wins. */
  function ParseFields(list: seq<FieldExpr>, isStruct: bool): (r: Result<seq<Field>, ParseError>)
    decreases list
    ensures r.Ok? ==> |r.value| == KeptCount(list, isStruct)
    ensures r.Ok? ==> forall f :: f in r.value ==> FfiShape(f.typ) && (isStruct ==> !StartsLower(f.name))
  {
    if list == [] then Ok([])
    else
      var names := KeptNames(list[0], isStruct);
      if names == [] then ParseFields(list[1..], isStruct)
      else
        var t :- ParseTypeExpr("", list[0].typ);
        var rest :- ParseFields(list[1..], isStruct);
        assert forall f :: f in Expand(names, t) ==> f.typ == t && f.name in names;
        Ok(Expand(names, t) + rest)
  }

  /** fs in front of a successful result; a failure stays as it is. */
  function Prefixed<T>(fs: seq<T>, r: Result<seq<T>, ParseError>): Result<seq<T>, ParseError>
  {
    if r.Ok? then Ok(fs + r.value) else r
  }

  /** One entry of a field list, unfolded. */
  lemma ParseFieldsStep(list: seq<FieldExpr>, isStruct: bool)
    requires list != []
    ensures var names := KeptNames(list[0], isStruct);
      ParseFields(list, isStruct) ==
        if names == [] then ParseFields(list[1..], isStruct)
        else match ParseTypeExpr("", list[0].typ)
          case Err(e) => Err(e)
          case Ok(t) => Prefixed(Expand(names, t), ParseFields(list[1..], isStruct))
  {
  }

  lemma PrefixedTwice<T>(a: seq<T>, b: seq<T>, r: Result<seq<T>, ParseError>)
    ensures Prefixed(a, Prefixed(b, r)) == Prefixed(a + b, r)
  {
    if r.Ok? {
      assert a + (b + r.value) == (a + b) + r.value;
    }
  }

  /** Appends one field per name, in order, all of type t. */
  method AppendFields(fields: seq<Field>, names: seq<string>, t: GoType) returns (r: seq<Field>)
    ensures r == fields + Expand(names, t)
  {
    r := fields;
    for k := 0 to |names|
      invariant r == fields + Expand(names[..k], t)
    {
      assert Expand(names[..k + 1], t) == Expand(names[..k], t) + [Field(names[k], t)];
      r := r + [Field(names[k], t)];
    }
    assert names[..|names|] == names;
  }

  /** The field-list loop as the parser runs it: append entry by entry. */
  method ParseFieldList(list: seq<FieldExpr>, isStruct: bool) returns (r: Result<seq<Field>, ParseError>)
    ensures r == ParseFields(list, isStruct)
  {
    var fields: seq<Field> := [];
    assert list[0..] == list;
    assert Prefixed([], ParseFields(list, isStruct)) == ParseFields(list, isStruct) by {
      if ParseFields(list, isStruct).Ok? {
        assert [] + ParseFields(list, isStruct).value == ParseFields(list, isStruct).value;
      }
    }
    for i := 0 to |list|
      invariant ParseFields(list, isStruct) == Prefixed(fields, ParseFields(list[i..], isStruct))
    {
      ParseFieldsStep(list[i..], isStruct);
      assert list[i..][1..] == list[i + 1..];
      var names := KeptNames(list[i], isStruct);
      if names == [] {
        continue;
      }
      var t := ParseTypeExpr("", list[i].typ);
      if t.Err? {
        return Err(t.error);
      }
      PrefixedTwice(fields, Expand(names, t.value), ParseFields(list[i + 1..], isStruct));
      fields := AppendFields(fields, names, t.value);
    }
    assert fields + [] == fields;
    return Ok(fields);
  }

  /** Acceptance stated directly: which expressions parse at all. */
  predicate FfiAccepts(e: Expr)
    decreases e
  {
    match e
    case IdentExpr(n) => n != "any"
    case SelectorExpr(_, _) => false
    case StarExpr(x) => FfiAccepts(x) && !x.StarExpr?
    case ArrayExpr(hasLen, elt) => !hasLen && FfiAccepts(elt)
    case StructExpr(fs) => FieldsAccepted(fs, true) && KeptCount(fs, true) > 0
    case FuncExpr(hasTypeParams, ps, rs) => !hasTypeParams && FieldsAccepted(ps, false) && FieldsAccepted(rs, false)
    case ChanExpr(_, _) => false
    case OtherExpr => false
  }

  /** Every entry that keeps a name has an accepted type. */
  predicate FieldsAccepted(list: seq<FieldExpr>, isStruct: bool)
    decreases list
  {
    forall k :: 0 <= k < |list| ==> KeptNames(list[k], isStruct) != [] ==> FfiAccepts(list[k].typ)
  }

  /** The parser succeeds exactly on the accepted expressions. */
  lemma {:induction false} ParseTypeExprAccepts(name: string, e: Expr)
    decreases e
    ensures ParseTypeExpr(name, e).Ok? <==> FfiAccepts(e)
  {
    match e
    case IdentExpr(n) =>
      assert "any" !in BasicTypeMap;
    case SelectorExpr(_, _) =>
    case StarExpr(x) =>
      ParseTypeExprAccepts("", x);
    case ArrayExpr(_, elt) =>
      ParseTypeExprAccepts("", elt);
    case StructExpr(fs) =>
      ParseFieldsAccepts(fs, true);
    case FuncExpr(_, ps, rs) =>
      ParseFieldsAccepts(ps, false);
      ParseFieldsAccepts(rs, false);
    case ChanExpr(_, _) =>
    case OtherExpr =>
  }

  lemma {:induction false} ParseFieldsAccepts(list: seq<FieldExpr>, isStruct: bool)
    decreases list
    ensures ParseFields(list, isStruct).Ok? <==> FieldsAccepted(list, isStruct)
  {
    if list != [] {
      ParseFieldsAccepts(list[1..], isStruct);
      ParseTypeExprAccepts("", list[0].typ);
      assert FieldsAccepted(list, isStruct) <==>
        (KeptNames(list[0], isStruct) != [] ==> FfiAccepts(list[0].typ)) && FieldsAccepted(list[1..], isStruct)
      by {
        if FieldsAccepted(list[1..], isStruct) {
          forall k | 1 <= k < |list| ensures KeptNames(list[k], isStruct) != [] ==> FfiAccepts(list[k].typ) {
            assert list[k] == list[1..][k - 1];
          }
        }
        if FieldsAccepted(list, isStruct) {
          forall k | 0 <= k < |list[1..]| ensures KeptNames(list[1..][k], isStruct) != [] ==> FfiAccepts(list[1..][k].typ) {
            assert list[1..][k] == list[k + 1];
          }
        }
      }
    }
  }

  /** The Go spelling of a type expression built from names, stars, slices
      and channels. */
  function Spelling(e: Expr): string
  {
    match e
    case IdentExpr(n) => n
    case StarExpr(x) => "*" + Spelling(x)
    case ArrayExpr(_, elt) => "[]" + Spelling(elt)
    case ChanExpr(_, v) => "chan " + Spelling(v)
    case _ => ""
  }

  /** Expressions without struct or function literals, selectors or other forms. */
  predicate IsReference(e: Expr)
  {
    match e
    case IdentExpr(_) => true
    case StarExpr(x) => IsReference(x)
    case ArrayExpr(_, elt) => IsReference(elt)
    case ChanExpr(_, v) => IsReference(v)
    case _ => false
  }

  /** A parsed reference type spells itself in Go exactly as it was written. */
  lemma {:induction false} ParsedSpelling(name: string, e: Expr)
    decreases e
    requires IsReference(e) && ParseTypeExpr(name, e).Ok?
    ensures ParseTypeExpr(name, e).value.GoType() == Spelling(e)
    ensures ParseTypeExpr(name, e).value.String() == Spelling(e)
  {
    match e
    case IdentExpr(n) =>
      if n in BasicTypeMap {
        RegistryGoTypeIsKey(n);
      }
    case StarExpr(x) =>
      ParsedSpelling("", x);
    case ArrayExpr(_, elt) =>
      ParsedSpelling("", elt);
  }

  // ---------------------------------------------------------------------
  // Result post-processing

  predicate IsErrorType(t: GoType) { t.GoType() == "error" }

  /** The name result idx ends with: its own, "err" for an unnamed error-typed
      last result, "res<idx>" for any other unnamed result. */
  function ResultName(fields: seq<Field>, idx: nat): (n: string)
    requires idx < |fields|
    ensures n != ""
  {
    if fields[idx].name != "" then fields[idx].name
    else if idx + 1 == |fields| && IsErrorType(fields[idx].typ) then "err"
    else "res" + FormatNat(idx)
  }

  /** The last result is the error slot: error-typed and named err or unnamed. */
  predicate EndsWithErr(fields: seq<Field>)
  {
    |fields| > 0 && IsErrorType(fields[|fields| - 1].typ) &&
    (fields[|fields| - 1].name == "" || fields[|fields| - 1].name == "err")
  }

  /** Result idx was unnamed and got a res<idx> name. */
  predicate AnonymousAt(fields: seq<Field>, idx: nat)
    requires idx < |fields|
  {
    fields[idx].name == "" && !(idx + 1 == |fields| && IsErrorType(fields[idx].typ))
  }

  /** What processing does to a parsed function, stated on the whole record. */
  function FfiReturnValues(f: FuncType): FuncType
  {
    var fields := f.results.fields;
    if |fields| == 0 then f
    else
      var named := seq(|fields|, idx requires 0 <= idx < |fields| => fields[idx].(name := ResultName(fields, idx)));
      var count := if EndsWithErr(fields) then |fields| - 1 else |fields|;
      f.(results := f.results.(fields := named[..count]),
         hasParams := |f.params.fields| > 0,
         hasResults := count > 0,
         resultCount := count,
         isAnonymousResults := exists idx :: 0 <= idx < |fields| && AnonymousAt(fields, idx),
         hasErr := EndsWithErr(fields))
  }

  /** The renaming loop: names slots, detects the error slot, then strips it. */
  method ProcessFunctionReturnValues(f: FuncType) returns (g: FuncType)
    ensures g == FfiReturnValues(f)
  {
    var fields := f.results.fields;
    if |fields| == 0 {
      return f;
    }
    var hasErr := false;
    var isAnonymousResults := false;
    var resultCount := |fields|;
    var named: seq<Field> := [];
    for idx := 0 to |fields|
      invariant |named| == idx
      invariant forall k :: 0 <= k < idx ==> named[k] == fields[k].(name := ResultName(fields, k))
      invariant isAnonymousResults <==> exists k :: 0 <= k < idx && AnonymousAt(fields, k)
      invariant hasErr <==> idx == |fields| && EndsWithErr(fields)
    {
      ghost var wasAnonymous := isAnonymousResults;
      var field := fields[idx];
      if idx + 1 == resultCount && IsErrorType(field.typ) {
        if field.name == "" {
          field := field.(name := "err");
        }
        if field.name == "err" {
          hasErr := true;
        }
      }
      if field.name == "" {
        field := field.(name := "res" + FormatNat(idx));
        isAnonymousResults := true;
      }
      named := named + [field];
      assert isAnonymousResults <==> wasAnonymous || AnonymousAt(fields, idx);
    }
    if hasErr {
      resultCount := resultCount - 1;
    }
    g := f.(results := f.results.(fields := named[..resultCount]),
            hasParams := |f.params.fields| > 0,
            hasResults := resultCount > 0,
            resultCount := resultCount,
            isAnonymousResults := isAnonymousResults,
            hasErr := hasErr);
  }

  /** After processing: a function with results keeps exactly its non-error
      slots, every kept slot has a name, a named slot keeps its name, and the
      count, the error flag and the parameter flag agree with the slots. */
  lemma ReturnValuesShape(f: FuncType)
    requires |f.results.fields| > 0
    ensures var g, fields := FfiReturnValues(f), f.results.fields;
      && (g.hasErr <==> EndsWithErr(fields))
      && g.resultCount == |g.results.fields| == (if g.hasErr then |fields| - 1 else |fields|)
      && g.hasResults == (g.resultCount > 0) && g.hasParams == (|f.params.fields| > 0)
      && (forall i :: 0 <= i < g.resultCount ==>
            g.results.fields[i].typ == fields[i].typ && g.results.fields[i].name != "" &&
            (fields[i].name != "" ==> g.results.fields[i].name == fields[i].name))
      && g.name == f.name && g.params == f.params && g.results.typ == f.results.typ
  {
  }

  /** An error slot named anything but err is an ordinary result. */
  lemma NamedErrorIsAResult(f: FuncType)
    requires |f.results.fields| > 0
    requires var last := f.results.fields[|f.results.fields| - 1];
      IsErrorType(last.typ) && last.name != "" && last.name != "err"
    ensures !FfiReturnValues(f).hasErr
    ensures FfiReturnValues(f).resultCount == |f.results.fields|
  {
  }

  /** With no results the record is returned as it was: in particular the
      parameter flag is not set even when the function has parameters. */
  lemma NoResultsLeavesFlags(f: FuncType)
    requires |f.results.fields| == 0
    ensures FfiReturnValues(f) == f
  {
  }

  /** Functions kept by the parser: processed results and an FFI-shaped record. */
  ghost predicate ProcessedFunc(f: FuncType)
  {
    FfiShape(Func(f)) && !StartsLower(f.name) &&
    f.resultCount == |f.results.fields| &&
    forall r :: r in f.results.fields ==> r.name != ""
  }

  lemma ProcessingKeepsShape(f: FuncType)
    requires FfiShape(Func(f)) && !StartsLower(f.name)
    requires f == NewFuncType(f.name, f.params, f.results)
    ensures ProcessedFunc(FfiReturnValues(f))
  {
    var g := FfiReturnValues(f);
    if |f.results.fields| > 0 {
      ReturnValuesShape(f);
      forall r | r in g.results.fields ensures FfiShape(r.typ) && r.name != "" {
        var i :| 0 <= i < |g.results.fields| && g.results.fields[i] == r;
        assert f.results.fields[i] in f.results.fields;
      }
    }
  }

  // ---------------------------------------------------------------------
  // Declarations

  /** The type specs a file contributes: single-spec type declarations only. */
  function TypeSpecsOf(decls: seq<Decl>): seq<TypeSpec>
  {
    if decls == [] then []
    else
      var d := decls[0];
      (if d.GenDecl? && d.tok == TYPE && |d.specs| == 1 && d.specs[0].TypeSpecNode? then [d.specs[0].spec] else [])
      + TypeSpecsOf(decls[1..])
  }

  function FuncDeclsOf(decls: seq<Decl>): seq<FuncDecl>
  {
    if decls == [] then []
    else (if decls[0].FuncDeclNode? then [decls[0].decl] else []) + FuncDeclsOf(decls[1..])
  }

  /** A declaration the collector stops on. */
  predicate Unexpected(d: Decl)
  {
    d.BadDecl? || (d.GenDecl? && d.tok == OtherToken)
  }

  /** The struct a type spec yields, if any: unexported names are skipped. */
  function TypeNodeResult(ts: TypeSpec): Result<Option<StructType>, ParseError>
  {
    if StartsLower(ts.name) then Ok(None)
    else if ts.hasTypeParams then Err(GenericTypeUnsupported)
    else
      match ParseTypeExpr(ts.name, ts.typ)
      case Err(e) => Err(e)
      case Ok(Struct(s)) => Ok(Some(s))
      case Ok(_) => Err(ExpectedStruct)
  }

  /** The function a declaration yields, if any: methods and unexported
      names are skipped; the record's results are processed. */
  function FuncNodeResult(fd: FuncDecl): Result<Option<FuncType>, ParseError>
  {
    if fd.hasRecv || StartsLower(fd.name) then Ok(None)
    else
      match ParseTypeExpr(fd.name, fd.ftype)
      case Err(e) => Err(e)
      case Ok(Func(fn)) => Ok(Some(FfiReturnValues(fn)))
      case Ok(_) => Err(ExpectedFunc)
  }

  /** The parser's state: collected nodes and the model built from them. */
  class GoSrcParser {
    var typeNodes: seq<TypeSpec>
    var funcNodes: seq<FuncDecl>
    var structs: seq<StructType>
    var funcs: seq<FuncType>

    /** Everything stored is exported, FFI-shaped and, for functions, processed. */
    ghost predicate Valid()
      reads this
    {
      (forall s :: s in structs ==> FfiShape(Struct(s)) && !StartsLower(s.typ.name)) &&
      (forall f :: f in funcs ==> ProcessedFunc(f))
    }

    constructor()
      ensures typeNodes == [] && funcNodes == [] && structs == [] && funcs == []
      ensures Valid()
    {
      typeNodes, funcNodes, structs, funcs := [], [], [], [];
    }

    method HandleGenDecl(tok: Token, specs: seq<Spec>) returns (err: Option<ParseError>)
      modifies this
      ensures err == (if tok == OtherToken then Some(UnexpectedDeclToken) else None)
      ensures typeNodes == old(typeNodes) + TypeSpecsOf([GenDecl(tok, specs)])
      ensures funcNodes == old(funcNodes) && structs == old(structs) && funcs == old(funcs)
    {
      match tok
      case IMPORT => err := None;
      case CONST => err := None;
      case VAR => err := None;
      case TYPE =>
        err := None;
        if |specs| != 1 {
          return;
        }
        if !specs[0].TypeSpecNode? {
          return;
        }
        typeNodes := typeNodes + [specs[0].spec];
      case OtherToken =>
        err := Some(UnexpectedDeclToken);
    }

    /** Walks one file's declarations; stops at the first unexpected one. */
    method CollectNodes(decls: seq<Decl>) returns (err: Option<ParseError>)
      modifies this
      ensures err.None? <==> forall d :: d in decls ==> !Unexpected(d)
      ensures err.None? ==> typeNodes == old(typeNodes) + TypeSpecsOf(decls)
      ensures err.None? ==> funcNodes == old(funcNodes) + FuncDeclsOf(decls)
      ensures structs == old(structs) && funcs == old(funcs)
    {
      ghost var types0, funcs0 := typeNodes, funcNodes;
      for i := 0 to |decls|
        invariant forall k :: 0 <= k < i ==> !Unexpected(decls[k])
        invariant typeNodes == types0 + TypeSpecsOf(decls[..i])
        invariant funcNodes == funcs0 + FuncDeclsOf(decls[..i])
        invariant structs == old(structs) && funcs == old(funcs)
      {
        assert decls[i] in decls;
        err := CollectDecl(decls[i]);
        if err.Some? {
          return;
        }
        assert decls[..i + 1] == decls[..i] + [decls[i]];
        DeclsConcat(decls[..i], [decls[i]]);
      }
      assert decls[..|decls|] == decls;
      err := None;
    }

    /** One declaration: a general declaration goes to HandleGenDecl, a
        function declaration is kept, anything else is an error. */
    method CollectDecl(d: Decl) returns (err: Option<ParseError>)
      modifies this
      ensures err.None? <==> !Unexpected(d)
      ensures err.None? ==> typeNodes == old(typeNodes) + TypeSpecsOf([d])
      ensures err.None? ==> funcNodes == old(funcNodes) + FuncDeclsOf([d])
      ensures structs == old(structs) && funcs == old(funcs)
    {
      assert [d][1..] == [];
      match d
      case GenDecl(tok, specs) =>
        err := HandleGenDecl(tok, specs);
      case FuncDeclNode(fd) =>
        funcNodes := funcNodes + [fd];
        err := None;
      case BadDecl =>
        err := Some(UnexpectedDeclType);
    }

    method ProcessTypeNode(ts: TypeSpec) returns (err: Option<ParseError>)
      requires Valid()
      modifies this
      ensures Valid()
      ensures match TypeNodeResult(ts)
        case Err(e) => err == Some(e)
        case Ok(None) => err.None? && structs == old(structs)
        case Ok(Some(s)) => err.None? && structs == old(structs) + [s]
      ensures typeNodes == old(typeNodes) && funcNodes == old(funcNodes) && funcs == old(funcs)
    {
      if StartsLower(ts.name) {
        return None;
      }
      if ts.hasTypeParams {
        return Some(GenericTypeUnsupported);
      }
      var t := ParseTypeExpr(ts.name, ts.typ);
      if t.Err? {
        return Some(t.error);
      }
      if !t.value.Struct? {
        return Some(ExpectedStruct);
      }
      structs := structs + [t.value.st];
      err := None;
    }

    method ProcessFunctionNode(fd: FuncDecl) returns (err: Option<ParseError>)
      requires Valid()
      modifies this
      ensures Valid()
      ensures match FuncNodeResult(fd)
        case Err(e) => err == Some(e)
        case Ok(None) => err.None? && funcs == old(funcs)
        case Ok(Some(f)) => err.None? && funcs == old(funcs) + [f]
      ensures typeNodes == old(typeNodes) && funcNodes == old(funcNodes) && structs == old(structs)
    {
      if fd.hasRecv || StartsLower(fd.name) {
        return None;
      }
      var t := ParseTypeExpr(fd.name, fd.ftype);
      if t.Err? {
        return Some(t.error);
      }
      if !t.value.Func? {
        return Some(ExpectedFunc);
      }
      var fn := ProcessFunctionReturnValues(t.value.fn);
      ProcessingKeepsShape(t.value.fn);
      funcs := funcs + [fn];
      err := None;
    }

    /** Processes the collected types, then the collected functions, stopping
        at the first failure. */
    method ProcessNodes() returns (err: Option<ParseError>)
      requires Valid()
      modifies this
      ensures Valid()
      ensures typeNodes == old(typeNodes) && funcNodes == old(funcNodes)
      ensures match StructsOf(old(typeNodes))
        case Err(e) => err == Some(e)
        case Ok(ss) =>
          structs == old(structs) + ss &&
          match FuncsOf(old(funcNodes))
          case Err(e) => err == Some(e)
          case Ok(fs) => err.None? && funcs == old(funcs) + fs
    {
      err := ProcessTypeNodes();
      if err.Some? {
        return;
      }
      err := ProcessFunctionNodes();
    }

    /** The type half of ProcessNodes. */
    method ProcessTypeNodes() returns (err: Option<ParseError>)
      requires Valid()
      modifies this
      ensures Valid()
      ensures typeNodes == old(typeNodes) && funcNodes == old(funcNodes) && funcs == old(funcs)
      ensures match StructsOf(typeNodes)
        case Err(e) => err == Some(e)
        case Ok(ss) => err.None? && structs == old(structs) + ss
    {
      var nodes := typeNodes;
      ghost var done: seq<StructType> := [];
      EmptyPrefix(StructsOf(nodes));
      for i := 0 to |nodes|
        invariant Valid() && typeNodes == nodes && funcNodes == old(funcNodes) && funcs == old(funcs)
        invariant structs == old(structs) + done
        invariant StructsOf(nodes) == Prefixed(done, StructsOf(nodes[i..]))
      {
        assert nodes[i..][1..] == nodes[i + 1..];
        err := ProcessTypeNode(nodes[i]);
        if err.Some? {
          return;
        }
        match TypeNodeResult(nodes[i])
        case Ok(Some(s)) =>
          assert StructsOf(nodes[i..]) == Prefixed([s], StructsOf(nodes[i + 1..]));
          PrefixedTwice(done, [s], StructsOf(nodes[i + 1..]));
          done := done + [s];
        case Ok(None) =>
          assert StructsOf(nodes[i..]) == Prefixed([], StructsOf(nodes[i + 1..]));
          EmptyPrefix(StructsOf(nodes[i + 1..]));
      }
      assert StructsOf(nodes[|nodes|..]) == Ok([]);
      assert done + [] == done;
      err := None;
    }

    /** The function half of ProcessNodes. */
    method ProcessFunctionNodes() returns (err: Option<ParseError>)
      requires Valid()
      modifies this
      ensures Valid()
      ensures typeNodes == old(typeNodes) && funcNodes == old(funcNodes) && structs == old(structs)
      ensures match FuncsOf(funcNodes)
        case Err(e) => err == Some(e)
        case Ok(fs) => err.None? && funcs == old(funcs) + fs
    {
      var decls := funcNodes;
      ghost var kept: seq<FuncType> := [];
      EmptyPrefix(FuncsOf(decls));
      for i := 0 to |decls|
        invariant Valid() && typeNodes == old(typeNodes) && funcNodes == decls && structs == old(structs)
        invariant funcs == old(funcs) + kept
        invariant FuncsOf(decls) == Prefixed(kept, FuncsOf(decls[i..]))
      {
        assert decls[i..][1..] == decls[i + 1..];
        err := ProcessFunctionNode(decls[i]);
        if err.Some? {
          return;
        }
        match FuncNodeResult(decls[i])
        case Ok(Some(f)) =>
          assert FuncsOf(decls[i..]) == Prefixed([f], FuncsOf(decls[i + 1..]));
          PrefixedTwice(kept, [f], FuncsOf(decls[i + 1..]));
          kept := kept + [f];
        case Ok(None) =>
          assert FuncsOf(decls[i..]) == Prefixed([], FuncsOf(decls[i + 1..]));
          EmptyPrefix(FuncsOf(decls[i + 1..]));
      }
      assert FuncsOf(decls[|decls|..]) == Ok([]);
      assert kept + [] == kept;
      err := None;
    }
  }

  lemma EmptyPrefix<T>(r: Result<seq<T>, ParseError>)
    ensures Prefixed([], r) == r
  {
    if r.Ok? {
      assert [] + r.value == r.value;
    }
  }

  /** The structs the collected type specs yield, in order, or the first failure. */
  function StructsOf(nodes: seq<TypeSpec>): Result<seq<StructType>, ParseError>
  {
    if nodes == [] then Ok([])
    else
      var s :- TypeNodeResult(nodes[0]);
      var rest :- StructsOf(nodes[1..]);
      Ok((if s.Some? then [s.value] else []) + rest)
  }

  /** The processed functions the collected declarations yield, or the first failure. */
  function FuncsOf(decls: seq<FuncDecl>): Result<seq<FuncType>, ParseError>
  {
    if decls == [] then Ok([])
    else
      var f :- FuncNodeResult(decls[0]);
      var rest :- FuncsOf(decls[1..]);
      Ok((if f.Some? then [f.value] else []) + rest)
  }

  /** Collecting two declaration lists one after the other collects their
      concatenation. */
  lemma DeclsConcat(a: seq<Decl>, b: seq<Decl>)
    ensures TypeSpecsOf(a + b) == TypeSpecsOf(a) + TypeSpecsOf(b)
    ensures FuncDeclsOf(a + b) == FuncDeclsOf(a) + FuncDeclsOf(b)
  {
    TypeSpecsConcat(a, b);
    FuncDeclsConcat(a, b);
  }

  lemma {:induction false} TypeSpecsConcat(a: seq<Decl>, b: seq<Decl>)
    ensures TypeSpecsOf(a + b) == TypeSpecsOf(a) + TypeSpecsOf(b)
  {
    if a == [] {
      assert a + b == b;
    } else {
      assert (a + b)[0] == a[0];
      assert (a + b)[1..] == a[1..] + b;
      TypeSpecsConcat(a[1..], b);
    }
  }

  lemma {:induction false} FuncDeclsConcat(a: seq<Decl>, b: seq<Decl>)
    ensures FuncDeclsOf(a + b) == FuncDeclsOf(a) + FuncDeclsOf(b)
  {
    if a == [] {
      assert a + b == b;
    } else {
      assert (a + b)[0] == a[0];
      assert (a + b)[1..] == a[1..] + b;
      FuncDeclsConcat(a[1..], b);
    }
  }

}
