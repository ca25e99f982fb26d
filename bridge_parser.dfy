/**
 * The older source model builder. It accepts more than the current one:
 * pointers to pointers, structs without fields and channels of any
 * direction, and it keeps embedded struct fields under the empty name. It
 * also parses each field-list entry's type before looking at its names.
 */
module BridgeParser {
  import opened Wrappers
  import opened Strcase
  import opened Models
  import opened Registry
  import opened GoAst
  import FfiParser

  /** What this parser produces: identifiers are resolved (never a primitive
      name, never any), and struct and function records are named by
      identifiers, with no unexported struct field name. */
  predicate BridgeShape(t: GoType)
  {
    match t
    case Basic(_) => true
    case Ident(n) => n !in BasicTypeMap && n != "any"
    case Pointer(i) => BridgeShape(i)
    case Slice(i) => BridgeShape(i)
    case Chan(i) => BridgeShape(i)
    case Struct(s) =>
      s.typ.Ident? && forall f :: f in s.fields ==> !StartsLower(f.name) && BridgeShape(f.typ)
    case Func(fn) =>
      fn.params.typ.Ident? && fn.results.typ.Ident? &&
      (forall f :: f in fn.params.fields ==> BridgeShape(f.typ)) &&
      (forall f :: f in fn.results.fields ==> BridgeShape(f.typ))
  }

  /** The fields one entry yields once its type is known: an unnamed entry
      gives one field named "", in a struct as well. */
  function EntryNames(g: FieldExpr, isStruct: bool): seq<string>
  {
    if g.names == [] then [""] else FfiParser.ExportedOnly(g.names, isStruct)
  }

  function ParseTypeExpr(name: string, e: Expr): (r: Result<GoType, ParseError>)
    decreases e
    ensures r.Ok? ==> BridgeShape(r.value)
    ensures r.Ok? ==> (r.value.Pointer? <==> e.StarExpr?) && (r.value.Chan? <==> e.ChanExpr?)
    ensures r.Ok? && r.value.Struct? ==> e.StructExpr? && r.value.st.typ == Ident(name)
    ensures r.Ok? && r.value.Func? ==>
      e.FuncExpr? && r.value.fn == NewFuncType(name, r.value.fn.params, r.value.fn.results)
  {
    match e
    case IdentExpr(n) =>
      if n in BasicTypeMap then Ok(Basic(BasicTypeMap[n]))
      else if n == "any" then Err(AnyUnsupported)
      else Ok(Ident(n))
    case SelectorExpr(_, _) => Err(ImportedTypeUnsupported)
    case StarExpr(x) =>
      var inner :- ParseTypeExpr("", x);
      Ok(Pointer(inner))
    case ArrayExpr(hasLen, elt) =>
      if hasLen then Err(FixedArrayUnsupported)
      else
        var inner :- ParseTypeExpr("", elt);
        Ok(Slice(inner))
    case StructExpr(fs) =>
      var fields :- ParseFields(fs, true);
      Ok(Struct(StructType(Ident(name), fields)))
    case FuncExpr(hasTypeParams, ps, rs) =>
      if hasTypeParams then Err(GenericFuncUnsupported)
      else
        var params :- ParseFields(ps, false);
        var results :- ParseFields(rs, false);
        Ok(Func(NewFuncType(name,
          StructType(Ident(ToLowerCamel(name) + "Params"), params),
          StructType(Ident(ToLowerCamel(name) + "Results"), results))))
    case ChanExpr(_, v) =>
      var inner :- ParseTypeExpr("", v);
      Ok(Chan(inner))
    case OtherExpr => Err(TypeUnsupported)
  }

  /** How many fields a field list yields: one per kept name, and one for
      each embedded entry. */
  function EntryCount(list: seq<FieldExpr>, isStruct: bool): nat
  {
    if list == [] then 0 else |EntryNames(list[0], isStruct)| + EntryCount(list[1..], isStruct)
  }

  /** A field list, entry by entry: every entry's type is parsed first, even
      when none of its names survives. */
  function ParseFields(list: seq<FieldExpr>, isStruct: bool): (r: Result<seq<Field>, ParseError>)
    decreases list
    ensures r.Ok? ==> |r.value| == EntryCount(list, isStruct)
    ensures r.Ok? ==> forall f :: f in r.value ==> BridgeShape(f.typ) && (isStruct ==> !StartsLower(f.name))
  {
    if list == [] then Ok([])
    else
      var t :- ParseTypeExpr("", list[0].typ);
      var rest :- ParseFields(list[1..], isStruct);
      var names := EntryNames(list[0], isStruct);
      assert forall f :: f in FfiParser.Expand(names, t) ==> f.typ == t && f.name in names;
      Ok(FfiParser.Expand(names, t) + rest)
  }

  /** An embedded entry heads the fields it yields: it becomes one field
      named "" of its parsed type, in a struct as in a parameter list, and
      the remaining entries follow it. */
  lemma EmbeddedKeptAsEmptyName(g: FieldExpr, rest: seq<FieldExpr>, isStruct: bool)
    requires g.names == []
    requires ParseFields([g] + rest, isStruct).Ok?
    ensures ParseTypeExpr("", g.typ).Ok? && ParseFields(rest, isStruct).Ok?
    ensures ParseFields([g] + rest, isStruct).value ==
      [Field("", ParseTypeExpr("", g.typ).value)] + ParseFields(rest, isStruct).value
  {
  }

  /** Acceptance stated directly: every entry's type must be accepted,
      whatever its names. */
  predicate BridgeAccepts(e: Expr)
    decreases e
  {
    match e
    case IdentExpr(n) => n != "any"
    case SelectorExpr(_, _) => false
    case StarExpr(x) => BridgeAccepts(x)
    case ArrayExpr(hasLen, elt) => !hasLen && BridgeAccepts(elt)
    case StructExpr(fs) => AllAccepted(fs)
    case FuncExpr(hasTypeParams, ps, rs) => !hasTypeParams && AllAccepted(ps) && AllAccepted(rs)
    case ChanExpr(_, v) => BridgeAccepts(v)
    case OtherExpr => false
  }

  predicate AllAccepted(list: seq<FieldExpr>)
    decreases list
  {
    forall k :: 0 <= k < |list| ==> BridgeAccepts(list[k].typ)
  }

  /** The parser succeeds exactly on the accepted expressions. */
  lemma {:induction false} ParseTypeExprAccepts(name: string, e: Expr)
    decreases e
    ensures ParseTypeExpr(name, e).Ok? <==> BridgeAccepts(e)
  {
    match e
    case IdentExpr(n) =>
      assert "any" !in BasicTypeMap;
    case SelectorExpr(_, _) =>
    case StarExpr(x) =>
      ParseTypeExprAccepts("", x);
    case ArrayExpr(_, elt) =>
      ParseTypeExprAccepts("", elt);
    case StructExpr(fs) =>
      ParseFieldsAccepts(fs, true);
    case FuncExpr(_, ps, rs) =>
      ParseFieldsAccepts(ps, false);
      ParseFieldsAccepts(rs, false);
    case ChanExpr(_, v) =>
      ParseTypeExprAccepts("", v);
    case OtherExpr =>
  }

  lemma {:induction false} ParseFieldsAccepts(list: seq<FieldExpr>, isStruct: bool)
    decreases list
    ensures ParseFields(list, isStruct).Ok? <==> AllAccepted(list)
  {
    if list != [] {
      ParseFieldsAccepts(list[1..], isStruct);
      ParseTypeExprAccepts("", list[0].typ);
      assert AllAccepted(list) <==> BridgeAccepts(list[0].typ) && AllAccepted(list[1..]) by {
        if AllAccepted(list[1..]) {
          forall k | 1 <= k < |list| ensures BridgeAccepts(list[k].typ) {
            assert list[k] == list[1..][k - 1];
          }
        }
        if AllAccepted(list) {
          forall k | 0 <= k < |list[1..]| ensures BridgeAccepts(list[1..][k].typ) {
            assert list[1..][k] == list[k + 1];
          }
        }
      }
    }
  }

  /** A parsed reference type, channels included, spells itself in Go as
      written, except that a channel's direction is not kept. */
  lemma {:induction false} ParsedSpelling(name: string, e: Expr)
    decreases e
    requires FfiParser.IsReference(e) && ParseTypeExpr(name, e).Ok?
    ensures ParseTypeExpr(name, e).value.GoType() == FfiParser.Spelling(e)
  {
    match e
    case IdentExpr(n) =>
      if n in BasicTypeMap {
        RegistryGoTypeIsKey(n);
      }
    case StarExpr(x) =>
      ParsedSpelling("", x);
    case ArrayExpr(_, elt) =>
      ParsedSpelling("", elt);
    case ChanExpr(_, v) =>
      ParsedSpelling("", v);
  }

  // ---------------------------------------------------------------------
  // The two revisions compared

  /** Every struct literal inside e lists only named, exported fields. */
  predicate NoHiddenFields(e: Expr)
    decreases e
  {
    match e
    case StarExpr(x) => NoHiddenFields(x)
    case ArrayExpr(_, elt) => NoHiddenFields(elt)
    case StructExpr(fs) => PlainEntries(fs, true)
    case FuncExpr(_, ps, rs) => PlainEntries(ps, false) && PlainEntries(rs, false)
    case ChanExpr(_, v) => NoHiddenFields(v)
    case _ => true
  }

  /** Entries whose types have no hidden fields; in a struct, also named and
      exported themselves. */
  predicate PlainEntries(list: seq<FieldExpr>, isStruct: bool)
    decreases list
  {
    forall k :: 0 <= k < |list| ==>
      NoHiddenFields(list[k].typ) &&
      (isStruct ==> list[k].names != [] && forall n :: n in list[k].names ==> !StartsLower(n))
  }

  lemma ExportedNamesKept(names: seq<string>, isStruct: bool)
    requires forall n :: n in names ==> !StartsLower(n)
    ensures FfiParser.ExportedOnly(names, isStruct) == names
  {
    if names != [] {
      ExportedNamesKept(names[1..], isStruct);
      assert names == [names[0]] + names[1..];
    }
  }

  lemma PlainTail(list: seq<FieldExpr>, isStruct: bool)
    requires list != [] && PlainEntries(list, isStruct)
    ensures PlainEntries(list[1..], isStruct)
  {
    forall k | 0 <= k < |list[1..]|
      ensures NoHiddenFields(list[1..][k].typ) &&
        (isStruct ==> list[1..][k].names != [] && forall n :: n in list[1..][k].names ==> !StartsLower(n))
    {
      assert list[1..][k] == list[k + 1];
    }
  }

  /** Where struct literals hide nothing, the older parser returns exactly
      what the current one returns whenever the current one succeeds. */
  lemma {:induction false} RevisionsAgree(name: string, e: Expr)
    decreases e
    requires NoHiddenFields(e) && FfiParser.ParseTypeExpr(name, e).Ok?
    ensures ParseTypeExpr(name, e) == FfiParser.ParseTypeExpr(name, e)
  {
    match e
    case IdentExpr(_) =>
    case StarExpr(x) =>
      RevisionsAgree("", x);
    case ArrayExpr(_, elt) =>
      RevisionsAgree("", elt);
    case StructExpr(fs) =>
      FieldsAgree(fs, true);
    case FuncExpr(_, ps, rs) =>
      FieldsAgree(ps, false);
      FieldsAgree(rs, false);
  }

  lemma {:induction false} FieldsAgree(list: seq<FieldExpr>, isStruct: bool)
    decreases list
    requires PlainEntries(list, isStruct) && FfiParser.ParseFields(list, isStruct).Ok?
    ensures ParseFields(list, isStruct) == FfiParser.ParseFields(list, isStruct)
  {
    if list != [] {
      var g := list[0];
      assert NoHiddenFields(g.typ);
      PlainTail(list, isStruct);
      if isStruct {
        ExportedNamesKept(g.names, true);
      }
      assert EntryNames(g, isStruct) == FfiParser.KeptNames(g, isStruct);
      assert FfiParser.KeptNames(g, isStruct) != [];
      RevisionsAgree("", g.typ);
      FieldsAgree(list[1..], isStruct);
    }
  }

  /** The revisions differ outside that fragment, in both directions: a
      pointer to a pointer is accepted only by the older parser, */
  lemma DoublePointerDiffers()
    ensures var pp := StarExpr(StarExpr(IdentExpr("Point")));
      FfiParser.ParseTypeExpr("", pp) == Err(DoublePointerUnsupported) &&
      ParseTypeExpr("", pp) == Ok(Pointer(Pointer(Ident("Point"))))
  {
    assert "Point" !in BasicTypeMap;
  }

  /** so is a struct without fields, */
  lemma EmptyStructDiffers()
    ensures FfiParser.ParseTypeExpr("Empty", StructExpr([])) == Err(StructWithoutFields("Empty"))
    ensures ParseTypeExpr("Empty", StructExpr([])) == Ok(Struct(StructType(Ident("Empty"), [])))
  {
  }

  /** and so is a channel of any direction; */
  lemma ChannelDiffers(dir: ChanDir)
    ensures var ch := ChanExpr(dir, IdentExpr("Point"));
      FfiParser.ParseTypeExpr("", ch) == Err(TypeUnsupported) &&
      ParseTypeExpr("", ch) == Ok(Chan(Ident("Point")))
  {
    assert "Point" !in BasicTypeMap;
  }

  /** but a fixed-size array behind an unexported field is skipped by the
      current parser and rejected by the older one, */
  lemma HiddenArrayDiffers()
    ensures var st := StructExpr([FieldExpr(["buf"], ArrayExpr(true, IdentExpr("Point"))),
                                  FieldExpr(["Name"], IdentExpr("Point"))]);
      FfiParser.ParseTypeExpr("Rec", st) == Ok(Struct(StructType(Ident("Rec"), [Field("Name", Ident("Point"))]))) &&
      ParseTypeExpr("Rec", st) == Err(FixedArrayUnsupported)
  {
    assert "Point" !in BasicTypeMap;
    assert StartsLower("buf") && !StartsLower("Name");
    var fs := [FieldExpr(["buf"], ArrayExpr(true, IdentExpr("Point"))), FieldExpr(["Name"], IdentExpr("Point"))];
    assert FfiParser.KeptNames(fs[0], true) == [];
    assert FfiParser.KeptNames(fs[1], true) == ["Name"];
    assert fs[1..][1..] == [];
    var name := FfiParser.Expand(["Name"], Ident("Point"));
    assert name == [Field("Name", Ident("Point"))];
    assert FfiParser.ParseFields(fs[1..], true) == Ok(name + []);
    assert name + [] == name;
    assert FfiParser.ParseFields(fs, true) == Ok(name);
  }

  /** and an embedded field is dropped by the current parser and kept under
      the empty name by the older one. */
  lemma EmbeddedFieldDiffers()
    ensures var st := StructExpr([FieldExpr([], IdentExpr("Point")), FieldExpr(["Name"], IdentExpr("Point"))]);
      FfiParser.ParseTypeExpr("Rec", st) == Ok(Struct(StructType(Ident("Rec"), [Field("Name", Ident("Point"))]))) &&
      ParseTypeExpr("Rec", st) == Ok(Struct(StructType(Ident("Rec"), [Field("", Ident("Point")), Field("Name", Ident("Point"))])))
  {
    assert "Point" !in BasicTypeMap;
    assert !StartsLower("Name");
    var es := [FieldExpr([], IdentExpr("Point")), FieldExpr(["Name"], IdentExpr("Point"))];
    assert es[1..][1..] == [];
    assert EntryNames(es[1], true) == ["Name"];
    assert FfiParser.KeptNames(es[1], true) == ["Name"];
    var name := FfiParser.Expand(["Name"], Ident("Point"));
    assert name == [Field("Name", Ident("Point"))];
    var empty := FfiParser.Expand([""], Ident("Point"));
    assert empty == [Field("", Ident("Point"))];
    assert name + [] == name;
    assert ParseFields(es[1..], true) == Ok(name + []);
    assert ParseFields(es, true) == Ok(empty + name);
    assert empty + name == [Field("", Ident("Point")), Field("Name", Ident("Point"))];
    assert FfiParser.ParseFields(es[1..], true) == Ok(name + []);
    assert FfiParser.ParseFields(es, true) == Ok(name);
  }

  // ---------------------------------------------------------------------
  // Declarations

  /** The struct a type spec yields: no name is skipped in this revision. */
  function TypeNodeResult(ts: TypeSpec): Result<StructType, ParseError>
  {
    if ts.hasTypeParams then Err(GenericTypeUnsupported)
    else
      match ParseTypeExpr(ts.name, ts.typ)
      case Err(e) => Err(e)
      case Ok(Struct(s)) => Ok(s)
      case Ok(_) => Err(ExpectedStruct)
  }

  /** The function a declaration yields, if any: methods and unexported
      names are skipped; results are left unprocessed here. */
  function FuncNodeResult(fd: FuncDecl): Result<Option<FuncType>, ParseError>
  {
    if fd.hasRecv || StartsLower(fd.name) then Ok(None)
    else
      match ParseTypeExpr(fd.name, fd.ftype)
      case Err(e) => Err(e)
      case Ok(Func(fn)) => Ok(Some(fn))
      case Ok(_) => Err(ExpectedFunc)
  }

  class GoSrcParser {
    var typeNodes: seq<TypeSpec>
    var funcNodes: seq<FuncDecl>
    var structs: seq<StructType>
    var funcs: seq<FuncType>

    ghost predicate Valid()
      reads this
    {
      (forall s :: s in structs ==> BridgeShape(Struct(s))) &&
      (forall f :: f in funcs ==> BridgeShape(Func(f)) && !StartsLower(f.name))
    }

    constructor()
      ensures typeNodes == [] && funcNodes == [] && structs == [] && funcs == []
      ensures Valid()
    {
      typeNodes, funcNodes, structs, funcs := [], [], [], [];
    }

    /** A type declaration must hold exactly one type spec here. */
    method HandleGenDecl(tok: Token, specs: seq<Spec>) returns (err: Option<ParseError>)
      modifies this
      ensures tok == OtherToken ==> err == Some(UnexpectedDeclToken)
      ensures tok == TYPE && |specs| != 1 ==> err == Some(TypeSpecCount(|specs|))
      ensures tok == TYPE && |specs| == 1 && !specs[0].TypeSpecNode? ==> err == Some(NotATypeSpec)
      ensures tok == TYPE && |specs| == 1 && specs[0].TypeSpecNode? ==>
        err.None? && typeNodes == old(typeNodes) + [specs[0].spec]
      ensures tok == IMPORT || tok == CONST || tok == VAR ==> err.None?
      ensures !(err.None? && tok == TYPE) ==> typeNodes == old(typeNodes)
      ensures funcNodes == old(funcNodes) && structs == old(structs) && funcs == old(funcs)
    {
      match tok
      case IMPORT => err := None;
      case CONST => err := None;
      case VAR => err := None;
      case TYPE =>
        if |specs| != 1 {
          return Some(TypeSpecCount(|specs|));
        }
        if !specs[0].TypeSpecNode? {
          return Some(NotATypeSpec);
        }
        typeNodes := typeNodes + [specs[0].spec];
        err := None;
      case OtherToken =>
        err := Some(UnexpectedDeclToken);
    }

    method ProcessTypeNode(ts: TypeSpec) returns (err: Option<ParseError>)
      requires Valid()
      modifies this
      ensures Valid()
      ensures match TypeNodeResult(ts)
        case Err(e) => err == Some(e)
        case Ok(s) => err.None? && structs == old(structs) + [s]
      ensures typeNodes == old(typeNodes) && funcNodes == old(funcNodes) && funcs == old(funcs)
    {
      if ts.hasTypeParams {
        return Some(GenericTypeUnsupported);
      }
      var t := ParseTypeExpr(ts.name, ts.typ);
      if t.Err? {
        return Some(t.error);
      }
      if !t.value.Struct? {
        return Some(ExpectedStruct);
      }
      structs := structs + [t.value.st];
      err := None;
    }

    method ProcessFunctionNode(fd: FuncDecl) returns (err: Option<ParseError>)
      requires Valid()
      modifies this
      ensures Valid()
      ensures match FuncNodeResult(fd)
        case Err(e) => err == Some(e)
        case Ok(None) => err.None? && funcs == old(funcs)
        case Ok(Some(f)) => err.None? && funcs == old(funcs) + [f]
      ensures typeNodes == old(typeNodes) && funcNodes == old(funcNodes) && structs == old(structs)
    {
      if fd.hasRecv || StartsLower(fd.name) {
        return None;
      }
      var t := ParseTypeExpr(fd.name, fd.ftype);
      if t.Err? {
        return Some(t.error);
      }
      if !t.value.Func? {
        return Some(ExpectedFunc);
      }
      funcs := funcs + [t.value.fn];
      err := None;
    }
  }

  /** Unlike the current revision, an unexported type is processed. */
  lemma UnexportedTypesProcessed()
    ensures var ts := TypeSpec("point", false, StructExpr([FieldExpr(["X"], IdentExpr("int"))]));
      TypeNodeResult(ts) == Ok(StructType(Ident("point"), [Field("X", Basic(BasicTypeMap["int"]))])) &&
      FfiParser.TypeNodeResult(ts) == Ok(None)
  {
    assert StartsLower("point") && !StartsLower("X");
    var fs := [FieldExpr(["X"], IdentExpr("int"))];
    assert fs[1..] == [];
    assert EntryNames(fs[0], true) == ["X"];
    var x := FfiParser.Expand(["X"], Basic(BasicTypeMap["int"]));
    assert x == [Field("X", Basic(BasicTypeMap["int"]))];
    assert ParseTypeExpr("", IdentExpr("int")) == Ok(Basic(BasicTypeMap["int"]));
    assert ParseFields(fs, true) == Ok(x + []);
    assert x + [] == x;
    assert ParseTypeExpr("point", StructExpr(fs)) == Ok(Struct(StructType(Ident("point"), x)));
  }
}
