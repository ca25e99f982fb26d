/**
 * The generator's type model: every Go type shape it understands, and the
 * spellings each shape derives for C, for the cgo side of Go, for Dart and for
 * display, plus the MapName deduplication key and the NeedMap flag.
 *
 * The Go source expresses this as an interface with one struct per shape; here
 * it is one closed datatype whose getters match on the shape.
 */
module Models {
  import opened Strcase

  /** A registry entry for a primitive Go type: every spelling precomputed. */
  datatype BasicType = BasicType(
    cType: string,
    goType: string,
    goCType: string,
    dartType: string,
    dartCType: string,
    dartDefault: string,
    kotlinType: string,
    kotlinCType: string,
    kotlinDefault: string,
    kotlinPackagePath: string,
    kotlinGetValue: string,
    needMap: bool)

  datatype GoType =
    | Basic(basic: BasicType)
    | Ident(name: string)
    | Pointer(inner: GoType)
    | Slice(inner: GoType)
    | Chan(inner: GoType)
    | Struct(st: StructType)
    | Func(fn: FuncType)
  {
    /** Slices and channels ask whether their element type is a pointer. */
    predicate IsInnerPtr()
      requires Slice? || Chan?
    {
      inner.Pointer?
    }

    function String(): string
    {
      match this
      case Basic(b) => b.goType
      case Ident(n) => n
      case Pointer(i) => "*" + i.String()
      case Slice(i) => "[]" + i.String()
      case Chan(i) => "chan " + i.String()
      case Struct(s) => s.String()
      case Func(f) => f.String()
    }

    function CType(): string
    {
      match this
      case Basic(b) => b.cType
      case Ident(n) => "struct Fg" + ToCamel(n)
      case Pointer(i) => i.CType() + "*"
      case Slice(_) => "fg_array"
      case Chan(_) => "fg_chan"
      case Struct(s) => s.CType()
      case Func(f) => f.CType()
    }

    function GoType(): string
    {
      match this
      case Basic(b) => b.goType
      case Ident(n) => n
      case Pointer(i) => "*" + i.GoType()
      case Slice(i) => "[]" + i.GoType()
      case Chan(i) => "chan " + i.GoType()
      case Struct(s) => s.GoType()
      case Func(f) => f.GoType()
    }

    function GoCType(): string
    {
      match this
      case Basic(b) => b.goCType
      case Ident(n) => "C.Fg" + ToCamel(n)
      case Pointer(i) => "*" + i.GoCType()
      case Slice(_) => "C.fg_array"
      case Chan(_) => "C.fg_chan"
      case Struct(s) => s.GoCType()
      case Func(f) => f.GoCType()
    }

    function DartType(): string
    {
      match this
      case Basic(b) => b.dartType
      case Ident(n) => ToCamel(n)
      case Pointer(i) => i.DartType() + "?"
      case Slice(i) => "List<" + i.DartType() + ">"
      case Chan(i) => "FgChan<" + i.DartType() + ">"
      case Struct(s) => s.DartType()
      case Func(f) => f.DartType()
    }

    function DartCType(): string
    {
      match this
      case Basic(b) => b.dartCType
      case Ident(n) => "_fg" + ToCamel(n)
      case Pointer(i) => "ffi.Pointer<" + i.DartCType() + ">"
      case Slice(_) => "_fgArray"
      case Chan(_) => "_fgChan"
      case Struct(s) => s.DartCType()
      case Func(f) => f.DartCType()
    }

    function DartDefault(): string
    {
      match this
      case Basic(b) => b.dartDefault
      case Ident(_) => DartType() + "()"
      case Pointer(_) => "null"
      case Slice(_) => "[]"
      case Chan(i) => "FgChan<" + i.DartType() + ">()"
      case Struct(s) => s.DartDefault()
      case Func(f) => f.DartDefault()
    }

    /** The key under which wrapper types are deduplicated. */
    function MapName(): string
    {
      match this
      case Basic(b) => ToCamel(b.goType)
      case Ident(n) => ToCamel(n)
      case Pointer(i) => "Nullable" + i.MapName()
      case Slice(i) =>
        if IsInnerPtr() then ToCamel("Null" + i.DartType() + "List") else ToCamel(i.DartType() + "List")
      case Chan(i) =>
        if IsInnerPtr() then ToCamel("Null" + i.DartType() + "Chan") else ToCamel(i.DartType() + "Chan")
      case Struct(s) => s.MapName()
      case Func(f) => f.MapName()
    }

    /** Only the shapes that declare it answer NeedMap: slices and channels do not. */
    predicate NeedMap()
      requires !Slice? && !Chan?
    {
      match this
      case Basic(b) => b.needMap
      case Ident(_) => true
      case Pointer(_) => true
      case Struct(s) => s.NeedMap()
      case Func(f) => f.NeedMap()
    }
  }

  /** A named aggregate: every spelling but CType is its Type's. */
  datatype StructType = StructType(typ: GoType, fields: seq<Field>)
  {
    function String(): string { typ.String() }
    function CType(): string { "fg_" + ToSnake(typ.GoType()) }
    function GoType(): string { typ.GoType() }
    function GoCType(): string { typ.GoCType() }
    function DartType(): string { typ.DartType() }
    function DartCType(): string { typ.DartCType() }
    function DartDefault(): string { typ.DartDefault() }
    function MapName(): string { typ.MapName() }
    predicate NeedMap() { true }
  }

  /** The type with every pointer, slice and channel layer peeled off. */
  function Innermost(t: GoType): (r: GoType)
    ensures !r.Pointer? && !r.Slice? && !r.Chan?
    ensures !t.Pointer? && !t.Slice? && !t.Chan? ==> r == t
  {
    match t
    case Pointer(i) => Innermost(i)
    case Slice(i) => Innermost(i)
    case Chan(i) => Innermost(i)
    case _ => t
  }

  /** One struct field or one parameter or result slot. */
  datatype Field = Field(name: string, typ: GoType)
  {
    function InnerMost(): GoType { Innermost(typ) }
    function CName(): string { ToSnake(name) }
    function GoName(): string { name }
    function DartName(): string { ToLowerCamel(name) }
    function String(): string { typ.String() }
    function CType(): string { typ.CType() }
    function GoType(): string { typ.GoType() }
    function GoCType(): string { typ.GoCType() }
    function DartType(): string { typ.DartType() }
    function DartCType(): string { typ.DartCType() }
    function DartDefault(): string { typ.DartDefault() }
    function MapName(): string { typ.MapName() }
    predicate NeedMap()
      requires !typ.Slice? && !typ.Chan?
    {
      typ.NeedMap()
    }
  }

  /** An exported function. The flags are those the two generator revisions
      write: HasErr, HasParams, HasResults and IsAnonymousResults by the
      current one, DartErrorName by the older one. */
  datatype FuncType = FuncType(
    name: string,
    params: StructType,
    results: StructType,
    resultCount: int,
    hasErr: bool,
    hasParams: bool,
    hasResults: bool,
    isAnonymousResults: bool,
    dartErrorName: string)
  {
    function String(): string { name }
    function CType(): string { "fg_" + ToSnake(name) }
    function GoType(): string { name }
    function GoCType(): string { CType() }
    function DartType(): string { ToLowerCamel(name) }
    function DartCType(): string { "_fg" + ToCamel(name) }
    function DartDefault(): string { "null" }

    /** The Dart type a call returns: the results record for several results,
        the single result's type for one, void for none. */
    function DartResultType(): string
      requires resultCount == 1 ==> |results.fields| > 0
    {
      if resultCount > 1 then results.DartType()
      else if resultCount == 1 then results.fields[0].DartType()
      else "void"
    }

    function MapName(): string { "" }
    predicate NeedMap() { false }
  }

  /** A freshly parsed function: flags unset, counts zero, as Go's zero values. */
  function NewFuncType(name: string, params: StructType, results: StructType): FuncType
  {
    FuncType(name, params, results, 0, false, false, false, false, "")
  }

  /** The parsed package handed to the generators. */
  datatype Package = Package(moduleName: string, pkgPath: string, structs: seq<StructType>, funcs: seq<FuncType>)
}

/** What the type model's spellings promise, shape by shape. */
module ModelProperties {
  import opened Strcase
  import opened Models

  /** The display string and the Go spelling agree for every type. */
  lemma {:induction false} StringIsGoType(t: GoType)
    ensures t.String() == t.GoType()
  {
    match t
    case Pointer(i) => StringIsGoType(i);
    case Slice(i) => StringIsGoType(i);
    case Chan(i) => StringIsGoType(i);
    case Struct(s) => StringIsGoType(s.typ);
    case _ =>
  }

  lemma AlnumConcat(a: string, b: string)
    requires IsAlnumString(a) && IsAlnumString(b)
    ensures IsAlnumString(a + b)
  {
    forall i | 0 <= i < |a + b| ensures IsAlnum((a + b)[i]) {
      if i >= |a| { assert (a + b)[i] == b[i - |a|]; }
    }
  }

  /** Every deduplication key is made of ASCII letters and digits only, so it
      can be spliced into a generated identifier. */
  lemma {:induction false} MapNameIsAlnum(t: GoType)
    ensures IsAlnumString(t.MapName())
  {
    match t
    case Basic(b) => ToCamelIsAlnum(b.goType);
    case Ident(n) => ToCamelIsAlnum(n);
    case Pointer(i) =>
      MapNameIsAlnum(i);
      AlnumConcat("Nullable", i.MapName());
    case Slice(i) =>
      ToCamelIsAlnum("Null" + i.DartType() + "List");
      ToCamelIsAlnum(i.DartType() + "List");
    case Chan(i) =>
      ToCamelIsAlnum("Null" + i.DartType() + "Chan");
      ToCamelIsAlnum(i.DartType() + "Chan");
    case Struct(s) => MapNameIsAlnum(s.typ);
    case Func(f) =>
  }

  /** An identifier's spellings are all derived from its camel-cased name. */
  lemma IdentSpellings(n: string)
    ensures Ident(n).String() == n && Ident(n).GoType() == n
    ensures Ident(n).CType() == "struct Fg" + ToCamel(n)
    ensures Ident(n).GoCType() == "C.Fg" + ToCamel(n)
    ensures Ident(n).DartType() == ToCamel(n) && Ident(n).MapName() == ToCamel(n)
    ensures Ident(n).DartCType() == "_fg" + ToCamel(n)
    ensures Ident(n).DartDefault() == Ident(n).DartType() + "()"
    ensures Ident(n).NeedMap()
  {
  }

  /** A pointer wraps every spelling of its target; its key is the target's key
      behind "Nullable"; its Dart default and NeedMap ignore the target. */
  lemma PointerSpellings(i: GoType)
    ensures Pointer(i).String() == "*" + i.String() && Pointer(i).GoType() == "*" + i.GoType()
    ensures Pointer(i).CType() == i.CType() + "*" && Pointer(i).GoCType() == "*" + i.GoCType()
    ensures Pointer(i).DartType() == i.DartType() + "?"
    ensures Pointer(i).DartCType() == "ffi.Pointer<" + i.DartCType() + ">"
    ensures Pointer(i).MapName() == "Nullable" + i.MapName()
    ensures Pointer(i).DartDefault() == "null" && Pointer(i).NeedMap()
  {
  }

  /** A slice's C-side spellings are constants; its Go and Dart spellings wrap
      the element's. */
  lemma SliceSpellings(i: GoType)
    ensures Slice(i).IsInnerPtr() <==> i.Pointer?
    ensures Slice(i).String() == "[]" + i.String() && Slice(i).GoType() == "[]" + i.GoType()
    ensures Slice(i).CType() == "fg_array" && Slice(i).GoCType() == "C.fg_array"
    ensures Slice(i).DartCType() == "_fgArray"
    ensures Slice(i).DartType() == "List<" + i.DartType() + ">" && Slice(i).DartDefault() == "[]"
    ensures Slice(i).MapName() ==
      if i.Pointer? then ToCamel("Null" + i.DartType() + "List") else ToCamel(i.DartType() + "List")
  {
  }

  /** A channel's C-side spellings are constants; its Go and Dart spellings wrap
      the element's, and its Dart default constructs its Dart type. */
  lemma ChanSpellings(i: GoType)
    ensures Chan(i).IsInnerPtr() <==> i.Pointer?
    ensures Chan(i).String() == "chan " + i.String() && Chan(i).GoType() == "chan " + i.GoType()
    ensures Chan(i).CType() == "fg_chan" && Chan(i).GoCType() == "C.fg_chan"
    ensures Chan(i).DartCType() == "_fgChan"
    ensures Chan(i).DartType() == "FgChan<" + i.DartType() + ">"
    ensures Chan(i).DartDefault() == Chan(i).DartType() + "()"
    ensures Chan(i).MapName() ==
      if i.Pointer? then ToCamel("Null" + i.DartType() + "Chan") else ToCamel(i.DartType() + "Chan")
  {
  }

  /** Slice and channel keys are built from the element's Dart spelling, not
      from its key: two element types with one Dart spelling and the same
      pointer-ness give one key. */
  lemma CompositeKeyFollowsDartType(a: GoType, b: GoType)
    requires a.DartType() == b.DartType() && a.Pointer? == b.Pointer?
    ensures Slice(a).MapName() == Slice(b).MapName()
    ensures Chan(a).MapName() == Chan(b).MapName()
  {
  }

  /** A struct answers with its Type's spellings except CType, which is the
      snake-cased Go name behind "fg_"; NeedMap is always true. */
  lemma StructSpellings(s: StructType)
    ensures Struct(s).String() == s.typ.String() && Struct(s).GoType() == s.typ.GoType()
    ensures Struct(s).GoCType() == s.typ.GoCType() && Struct(s).DartType() == s.typ.DartType()
    ensures Struct(s).DartCType() == s.typ.DartCType() && Struct(s).DartDefault() == s.typ.DartDefault()
    ensures Struct(s).MapName() == s.typ.MapName()
    ensures Struct(s).CType() == "fg_" + ToSnake(s.typ.GoType())
    ensures Struct(s).NeedMap()
  {
  }

  /** No spelling of a struct reads its fields. */
  lemma StructIgnoresFields(a: StructType, b: StructType)
    requires a.typ == b.typ
    ensures Struct(a).String() == Struct(b).String() && Struct(a).CType() == Struct(b).CType()
    ensures Struct(a).GoType() == Struct(b).GoType() && Struct(a).GoCType() == Struct(b).GoCType()
    ensures Struct(a).DartType() == Struct(b).DartType() && Struct(a).DartCType() == Struct(b).DartCType()
    ensures Struct(a).DartDefault() == Struct(b).DartDefault() && Struct(a).MapName() == Struct(b).MapName()
  {
  }

  /** A field's names are case conversions of its Name; every type-facing
      getter answers for the field's Type. */
  lemma FieldSpellings(f: Field)
    ensures f.CName() == ToSnake(f.name) && f.GoName() == f.name && f.DartName() == ToLowerCamel(f.name)
    ensures f.String() == f.typ.String() && f.CType() == f.typ.CType() && f.GoType() == f.typ.GoType()
    ensures f.GoCType() == f.typ.GoCType() && f.DartType() == f.typ.DartType()
    ensures f.DartCType() == f.typ.DartCType() && f.DartDefault() == f.typ.DartDefault()
    ensures f.MapName() == f.typ.MapName()
    ensures !f.typ.Slice? && !f.typ.Chan? ==> (f.NeedMap() <==> f.typ.NeedMap())
  {
  }

  /** InnerMost reaches a type that is neither pointer, slice nor channel, and
      stripping a layer first does not change where it ends. */
  lemma InnerMostStrips(f: Field)
    ensures var r := f.InnerMost(); !r.Pointer? && !r.Slice? && !r.Chan?
    ensures f.typ.Pointer? || f.typ.Slice? || f.typ.Chan? ==> f.InnerMost() == Field(f.name, f.typ.inner).InnerMost()
    ensures !f.typ.Pointer? && !f.typ.Slice? && !f.typ.Chan? ==> f.InnerMost() == f.typ
  {
  }

  /** A function's C and cgo spellings are its snake-cased name behind "fg_";
      it has no key, needs no map and defaults to null in Dart. */
  lemma FuncSpellings(f: FuncType)
    ensures Func(f).CType() == "fg_" + ToSnake(f.name) && Func(f).GoCType() == Func(f).CType()
    ensures Func(f).String() == f.name && Func(f).GoType() == f.name
    ensures Func(f).DartType() == ToLowerCamel(f.name) && Func(f).DartCType() == "_fg" + ToCamel(f.name)
    ensures Func(f).MapName() == "" && !Func(f).NeedMap() && Func(f).DartDefault() == "null"
  {
  }

  /** The Dart result type by result count. */
  lemma DartResultTypeCases(f: FuncType)
    requires f.resultCount == 1 ==> |f.results.fields| > 0
    ensures f.resultCount > 1 ==> f.DartResultType() == f.results.typ.DartType()
    ensures f.resultCount == 1 ==> f.DartResultType() == f.results.fields[0].typ.DartType()
    ensures f.resultCount < 1 ==> f.DartResultType() == "void"
  {
  }
}
