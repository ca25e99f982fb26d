/**
 * The older generator revision's preparation step: it names the results of
 * every function and marks the error slot, collects the fields whose own type
 * is a slice or a pointer (one field per MapName, the first one met), and
 * derives the Dart class and library names from the module name.
 */
module BridgeGenerator {
  import opened Strcase
  import opened Strconv
  import opened Models
  import opened GenHelpers
  import opened FfiParser
  import FfiGenerator

  // ---------------------------------------------------------------------
  // Result naming

  /** What processing does to a function: every result slot gets a name (as
      in the current revision), none is removed, and an error-typed last slot,
      whatever its name, is counted out and its Dart name recorded. */
  function BridgeReturnValues(f: FuncType): FuncType
  {
    var fields := f.results.fields;
    if |fields| == 0 then f
    else
      var named := seq(|fields|, idx requires 0 <= idx < |fields| => fields[idx].(name := ResultName(fields, idx)));
      var last := named[|fields| - 1];
      if IsErrorType(last.typ) then
        f.(results := f.results.(fields := named), resultCount := |fields| - 1, dartErrorName := last.DartName())
      else
        f.(results := f.results.(fields := named), resultCount := |fields|, dartErrorName := "")
  }

  /** The renaming loop, then the count and the error name. */
  method ProcessFunctionReturnValues(f: FuncType) returns (g: FuncType)
    ensures g == BridgeReturnValues(f)
  {
    var fields := f.results.fields;
    if |fields| == 0 {
      return f;
    }
    var named: seq<Field> := [];
    for idx := 0 to |fields|
      invariant |named| == idx
      invariant forall k :: 0 <= k < idx ==> named[k] == fields[k].(name := ResultName(fields, k))
    {
      var field := fields[idx];
      if idx + 1 == |fields| && IsErrorType(field.typ) {
        if field.name == "" {
          field := field.(name := "err");
        }
      }
      if field.name == "" {
        field := field.(name := "res" + FormatNat(idx));
      }
      named := named + [field];
    }
    var resultCount := |named|;
    var errorName := "";
    if resultCount > 0 {
      var lastField := named[resultCount - 1];
      if IsErrorType(lastField.typ) {
        errorName := lastField.DartName();
        resultCount := resultCount - 1;
      }
    }
    g := f.(results := f.results.(fields := named), resultCount := resultCount, dartErrorName := errorName);
  }

  /** After processing every slot is named, a named slot keeps its name, no
      slot is removed, and the count excludes exactly an error-typed last
      slot, whose Dart name is recorded; nothing else changes. */
  lemma {:induction false} BridgeReturnValuesShape(f: FuncType)
    requires |f.results.fields| > 0
    ensures var g, fields := BridgeReturnValues(f), f.results.fields;
      && |g.results.fields| == |fields|
      && (forall i :: 0 <= i < |fields| ==>
            g.results.fields[i].typ == fields[i].typ && g.results.fields[i].name != "" &&
            (fields[i].name != "" ==> g.results.fields[i].name == fields[i].name))
      && (IsErrorType(fields[|fields| - 1].typ) ==>
            g.resultCount == |fields| - 1 && g.dartErrorName == g.results.fields[|fields| - 1].DartName())
      && (!IsErrorType(fields[|fields| - 1].typ) ==> g.resultCount == |fields| && g.dartErrorName == "")
      && g == f.(results := g.results, resultCount := g.resultCount, dartErrorName := g.dartErrorName)
  {
  }

  /** The renaming is idempotent: the Go and the Dart generator each process
      the same package's functions, so the second pass must change nothing. */
  lemma ReturnValuesIdempotent(f: FuncType)
    ensures BridgeReturnValues(BridgeReturnValues(f)) == BridgeReturnValues(f)
  {
    var g := BridgeReturnValues(f);
    var fields := g.results.fields;
    if |fields| > 0 {
      BridgeReturnValuesShape(f);
      var named := seq(|fields|, idx requires 0 <= idx < |fields| => fields[idx].(name := ResultName(fields, idx)));
      assert named == fields;
    }
  }

  /** Where the two revisions agree: an error-typed last slot that is unnamed
      or named err is the error slot of both, and both count the other slots
      and name them alike. */
  lemma ErrorSlotRevisionsAgree(f: FuncType)
    requires EndsWithErr(f.results.fields)
    ensures BridgeReturnValues(f).resultCount == FfiReturnValues(f).resultCount == |f.results.fields| - 1
    ensures FfiReturnValues(f).hasErr
    ensures FfiReturnValues(f).results.fields == BridgeReturnValues(f).results.fields[..|f.results.fields| - 1]
    ensures BridgeReturnValues(f).dartErrorName == ToLowerCamel("err")
  {
  }

  /** Where they differ: an error-typed last slot with another name is a plain
      result for the current revision but the error slot for the older one. */
  lemma NamedErrorRevisionsDiffer(f: FuncType)
    requires |f.results.fields| > 0
    requires var last := f.results.fields[|f.results.fields| - 1];
      IsErrorType(last.typ) && last.name != "" && last.name != "err"
    ensures !FfiReturnValues(f).hasErr && FfiReturnValues(f).resultCount == |f.results.fields|
    ensures BridgeReturnValues(f).resultCount == |f.results.fields| - 1
    ensures BridgeReturnValues(f).dartErrorName == ToLowerCamel(f.results.fields[|f.results.fields| - 1].name)
  {
  }

  /** Processes every function in order. */
  method ProcessFunctionTypes(funcs: seq<FuncType>) returns (r: seq<FuncType>)
    ensures |r| == |funcs|
    ensures forall i :: 0 <= i < |funcs| ==> r[i] == BridgeReturnValues(funcs[i])
  {
    r := [];
    for i := 0 to |funcs|
      invariant |r| == i
      invariant forall j :: 0 <= j < i ==> r[j] == BridgeReturnValues(funcs[j])
    {
      var g := ProcessFunctionReturnValues(funcs[i]);
      r := r + [g];
    }
  }

  // ---------------------------------------------------------------------
  // Wrapper collection

  /** One step of the collector: a wanted field is stored under its MapName
      unless that key is already taken. Only the field's own type is looked
      at, never the types inside it. */
  function Step(m: map<string, Field>, f: Field, k: FfiGenerator.Kind): map<string, Field>
  {
    if FfiGenerator.Wanted(f.typ, k) && f.MapName() !in m then m[f.MapName() := f] else m
  }

  function FirstWins(m: map<string, Field>, fields: seq<Field>, k: FfiGenerator.Kind): map<string, Field>
    decreases |fields|
  {
    if fields == [] then m else FirstWins(Step(m, fields[0], k), fields[1..], k)
  }

  /** The collection built for a package's structs and processed functions. */
  function Shallow(structs: seq<StructType>, funcs: seq<FuncType>, k: FfiGenerator.Kind): map<string, Field>
  {
    FirstWins(map[], AllFields(structs, funcs), k)
  }

  lemma {:induction false} FirstWinsSnoc(m: map<string, Field>, fields: seq<Field>, f: Field, k: FfiGenerator.Kind)
    ensures FirstWins(m, fields + [f], k) == Step(FirstWins(m, fields, k), f, k)
    decreases |fields|
  {
    if fields == [] {
      assert fields + [f] == [f];
      assert [f][1..] == [];
    } else {
      assert (fields + [f])[1..] == fields[1..] + [f];
      FirstWinsSnoc(Step(m, fields[0], k), fields[1..], f, k);
    }
  }

  /** Looks at each field of one list, in order. */
  method ProcessFields(fields: seq<Field>, ghost seen: seq<Field>, sliceMap: map<string, Field>, ptrMap: map<string, Field>)
    returns (sliceMap': map<string, Field>, ptrMap': map<string, Field>)
    requires sliceMap == FirstWins(map[], seen, FfiGenerator.SliceKind)
    requires ptrMap == FirstWins(map[], seen, FfiGenerator.PtrKind)
    ensures sliceMap' == FirstWins(map[], seen + fields, FfiGenerator.SliceKind)
    ensures ptrMap' == FirstWins(map[], seen + fields, FfiGenerator.PtrKind)
  {
    sliceMap', ptrMap' := sliceMap, ptrMap;
    assert seen + fields[..0] == seen;
    for j := 0 to |fields|
      invariant sliceMap' == FirstWins(map[], seen + fields[..j], FfiGenerator.SliceKind)
      invariant ptrMap' == FirstWins(map[], seen + fields[..j], FfiGenerator.PtrKind)
    {
      var field := fields[j];
      if field.typ.Slice? {
        var key := field.MapName();
        if key !in sliceMap' {
          sliceMap' := sliceMap'[key := field];
        }
      }
      if field.typ.Pointer? {
        var key := field.MapName();
        if key !in ptrMap' {
          ptrMap' := ptrMap'[key := field];
        }
      }
      assert seen + fields[..j + 1] == (seen + fields[..j]) + [field];
      FirstWinsSnoc(map[], seen + fields[..j], field, FfiGenerator.SliceKind);
      FirstWinsSnoc(map[], seen + fields[..j], field, FfiGenerator.PtrKind);
    }
    assert fields[..|fields|] == fields;
  }

  /** Looks at every struct's fields, then every function's parameters and results. */
  method CollectSpecialTypes(structs: seq<StructType>, funcs: seq<FuncType>)
    returns (sliceMap: map<string, Field>, ptrMap: map<string, Field>)
    ensures sliceMap == Shallow(structs, funcs, FfiGenerator.SliceKind)
    ensures ptrMap == Shallow(structs, funcs, FfiGenerator.PtrKind)
  {
    sliceMap, ptrMap := CollectFromStructs(structs);
    sliceMap, ptrMap := CollectFromFuncs(funcs, StructFields(structs), sliceMap, ptrMap);
  }

  method CollectFromStructs(structs: seq<StructType>) returns (sliceMap: map<string, Field>, ptrMap: map<string, Field>)
    ensures sliceMap == FirstWins(map[], StructFields(structs), FfiGenerator.SliceKind)
    ensures ptrMap == FirstWins(map[], StructFields(structs), FfiGenerator.PtrKind)
  {
    sliceMap, ptrMap := map[], map[];
    for i := 0 to |structs|
      invariant sliceMap == FirstWins(map[], StructFields(structs[..i]), FfiGenerator.SliceKind)
      invariant ptrMap == FirstWins(map[], StructFields(structs[..i]), FfiGenerator.PtrKind)
    {
      sliceMap, ptrMap := ProcessFields(structs[i].fields, StructFields(structs[..i]), sliceMap, ptrMap);
      assert structs[..i + 1] == structs[..i] + [structs[i]];
      StructFieldsSnoc(structs[..i], structs[i]);
    }
    assert structs[..|structs|] == structs;
  }

  method CollectFromFuncs(funcs: seq<FuncType>, ghost done: seq<Field>, sliceMap0: map<string, Field>, ptrMap0: map<string, Field>)
    returns (sliceMap: map<string, Field>, ptrMap: map<string, Field>)
    requires sliceMap0 == FirstWins(map[], done, FfiGenerator.SliceKind)
    requires ptrMap0 == FirstWins(map[], done, FfiGenerator.PtrKind)
    ensures sliceMap == FirstWins(map[], done + FuncFields(funcs), FfiGenerator.SliceKind)
    ensures ptrMap == FirstWins(map[], done + FuncFields(funcs), FfiGenerator.PtrKind)
  {
    sliceMap, ptrMap := sliceMap0, ptrMap0;
    assert done + FuncFields(funcs[..0]) == done;
    for i := 0 to |funcs|
      invariant sliceMap == FirstWins(map[], done + FuncFields(funcs[..i]), FfiGenerator.SliceKind)
      invariant ptrMap == FirstWins(map[], done + FuncFields(funcs[..i]), FfiGenerator.PtrKind)
    {
      sliceMap, ptrMap := CollectFromFunc(funcs[i], done + FuncFields(funcs[..i]), sliceMap, ptrMap);
      FuncFieldsStep(funcs, i, done);
    }
    assert funcs[..|funcs|] == funcs;
  }

  /** Looks at one function's parameters, then its results. */
  method CollectFromFunc(f: FuncType, ghost seen: seq<Field>, sliceMap0: map<string, Field>, ptrMap0: map<string, Field>)
    returns (sliceMap: map<string, Field>, ptrMap: map<string, Field>)
    requires sliceMap0 == FirstWins(map[], seen, FfiGenerator.SliceKind)
    requires ptrMap0 == FirstWins(map[], seen, FfiGenerator.PtrKind)
    ensures sliceMap == FirstWins(map[], seen + f.params.fields + f.results.fields, FfiGenerator.SliceKind)
    ensures ptrMap == FirstWins(map[], seen + f.params.fields + f.results.fields, FfiGenerator.PtrKind)
  {
    sliceMap, ptrMap := ProcessFields(f.params.fields, seen, sliceMap0, ptrMap0);
    sliceMap, ptrMap := ProcessFields(f.results.fields, seen + f.params.fields, sliceMap, ptrMap);
  }

  /** The keys collected are those of m and the MapNames of the wanted fields. */
  lemma {:induction false} FirstWinsKeys(m: map<string, Field>, fields: seq<Field>, k: FfiGenerator.Kind)
    ensures forall key :: key in FirstWins(m, fields, k) <==>
      key in m || exists i :: 0 <= i < |fields| && FfiGenerator.Wanted(fields[i].typ, k) && fields[i].MapName() == key
    decreases |fields|
  {
    if fields != [] {
      FirstWinsKeys(Step(m, fields[0], k), fields[1..], k);
      forall key ensures key in FirstWins(m, fields, k) <==>
        key in m || exists i :: 0 <= i < |fields| && FfiGenerator.Wanted(fields[i].typ, k) && fields[i].MapName() == key
      {
        if exists i :: 0 <= i < |fields[1..]| && FfiGenerator.Wanted(fields[1..][i].typ, k) && fields[1..][i].MapName() == key {
          var i :| 0 <= i < |fields[1..]| && FfiGenerator.Wanted(fields[1..][i].typ, k) && fields[1..][i].MapName() == key;
          assert fields[i + 1] == fields[1..][i];
        }
        if exists i :: 0 <= i < |fields| && FfiGenerator.Wanted(fields[i].typ, k) && fields[i].MapName() == key {
          var i :| 0 <= i < |fields| && FfiGenerator.Wanted(fields[i].typ, k) && fields[i].MapName() == key;
          if i > 0 {
            assert fields[1..][i - 1] == fields[i];
          }
        }
      }
    }
  }

  /** An entry, once stored, is never replaced. */
  lemma {:induction false} FirstWinsKeeps(m: map<string, Field>, fields: seq<Field>, k: FfiGenerator.Kind, key: string)
    requires key in m
    ensures key in FirstWins(m, fields, k) && FirstWins(m, fields, k)[key] == m[key]
    decreases |fields|
  {
    if fields != [] {
      FirstWinsKeeps(Step(m, fields[0], k), fields[1..], k, key);
    }
  }

  /** The entry for a new key is the first wanted field with that MapName. */
  lemma {:induction false} FirstWinsFirst(m: map<string, Field>, fields: seq<Field>, k: FfiGenerator.Kind, i: nat)
    requires i < |fields| && FfiGenerator.Wanted(fields[i].typ, k) && fields[i].MapName() !in m
    requires forall j :: 0 <= j < i && FfiGenerator.Wanted(fields[j].typ, k) ==> fields[j].MapName() != fields[i].MapName()
    ensures fields[i].MapName() in FirstWins(m, fields, k) && FirstWins(m, fields, k)[fields[i].MapName()] == fields[i]
    decreases |fields|
  {
    if i == 0 {
      FirstWinsKeeps(Step(m, fields[0], k), fields[1..], k, fields[0].MapName());
    } else {
      forall j | 0 <= j < i - 1 && FfiGenerator.Wanted(fields[1..][j].typ, k)
        ensures fields[1..][j].MapName() != fields[1..][i - 1].MapName()
      {
        assert fields[1..][j] == fields[j + 1];
      }
      FirstWinsFirst(Step(m, fields[0], k), fields[1..], k, i - 1);
    }
  }

  /** Every stored field is of its collection's kind, sits under its own
      MapName, and comes from m or from the fields looked at (pool holds both). */
  lemma {:induction false} FirstWinsSound(m: map<string, Field>, fields: seq<Field>, k: FfiGenerator.Kind, pool: seq<Field>)
    requires forall key :: key in m ==> FfiGenerator.Wanted(m[key].typ, k) && m[key].MapName() == key && m[key] in pool
    requires forall f :: f in fields ==> f in pool
    ensures forall key :: key in FirstWins(m, fields, k) ==>
      FfiGenerator.Wanted(FirstWins(m, fields, k)[key].typ, k) && FirstWins(m, fields, k)[key].MapName() == key &&
      FirstWins(m, fields, k)[key] in pool
    decreases |fields|
  {
    if fields != [] {
      assert fields[0] in fields;
      forall f | f in fields[1..] ensures f in pool {
        var i :| 0 <= i < |fields[1..]| && fields[1..][i] == f;
        assert fields[i + 1] == f;
      }
      FirstWinsSound(Step(m, fields[0], k), fields[1..], k, pool);
    }
  }

  /** The older revision looks only at the field's own type: a field of type
      *[]T puts its pointer type in the pointer collection, but its slice
      type, which the current revision's walk collects, is not stored. */
  lemma ShallowMissesInnerSlice(name: string, elem: GoType)
    ensures FirstWins(map[], [Field(name, Pointer(Slice(elem)))], FfiGenerator.SliceKind) == map[]
    ensures Slice(elem).MapName() in FfiGenerator.Record(map[], FfiGenerator.ReachedAll([Field(name, Pointer(Slice(elem)))]), FfiGenerator.SliceKind)
  {
    var f := Field(name, Pointer(Slice(elem)));
    assert [f][1..] == [];
    var ts := FfiGenerator.ReachedAll([f]);
    assert ts == FfiGenerator.Reached(f.typ) + FfiGenerator.ReachedAll([]);
    assert FfiGenerator.Reached(f.typ) == [Pointer(Slice(elem))] + ([Slice(elem)] + FfiGenerator.Reached(elem));
    assert ts[1] == Slice(elem);
    FfiGenerator.RecordKeys(map[], ts, FfiGenerator.SliceKind);
  }

  // ---------------------------------------------------------------------
  // The generator

  /** A generator for one side (Go or Dart) of the bindings; the template it
      renders is left out of this model. */
  class BridgeGenerator {
    var dartClassName: string
    var pkgPath: string
    var libName: string
    var structs: seq<StructType>
    var funcs: seq<FuncType>
    var slices: seq<Field>
    var ptrs: seq<Field>

    constructor()
      ensures dartClassName == pkgPath == libName == ""
      ensures structs == [] && funcs == [] && slices == [] && ptrs == []
    {
      dartClassName, pkgPath, libName := "", "", "";
      structs, funcs, slices, ptrs := [], [], [], [];
    }

    /** Lists one field per collected MapName, in an unspecified order. */
    method ProcessSliceAndPointerTypes() returns (ghost sliceKeys: seq<string>, ghost ptrKeys: seq<string>)
      modifies this
      ensures ListsMap(slices, sliceKeys, Shallow(structs, funcs, FfiGenerator.SliceKind))
      ensures ListsMap(ptrs, ptrKeys, Shallow(structs, funcs, FfiGenerator.PtrKind))
      ensures unchanged(this`dartClassName, this`pkgPath, this`libName, this`structs, this`funcs)
    {
      var sliceMap, ptrMap := CollectSpecialTypes(structs, funcs);
      slices, sliceKeys := MapToSlice(sliceMap);
      ptrs, ptrKeys := MapToSlice(ptrMap);
    }

    /** Takes the package's structs, its functions with their results named,
        the wrapper lists built from both, and the naming derived from the
        module name: the Dart library name is the class name lower-cased. */
    method ProcessPackageData(pkg: Package) returns (ghost sliceKeys: seq<string>, ghost ptrKeys: seq<string>)
      modifies this
      ensures structs == pkg.structs
      ensures |funcs| == |pkg.funcs| && forall i :: 0 <= i < |funcs| ==> funcs[i] == BridgeReturnValues(pkg.funcs[i])
      ensures ListsMap(slices, sliceKeys, Shallow(structs, funcs, FfiGenerator.SliceKind))
      ensures ListsMap(ptrs, ptrKeys, Shallow(structs, funcs, FfiGenerator.PtrKind))
      ensures pkgPath == pkg.pkgPath
      ensures dartClassName == ToCamel(pkg.moduleName)
      ensures libName == ToLower(ToLowerCamel(pkg.moduleName)) == ToLower(dartClassName)
    {
      structs := pkg.structs;
      funcs := ProcessFunctionTypes(pkg.funcs);
      sliceKeys, ptrKeys := ProcessSliceAndPointerTypes();
      pkgPath := pkg.pkgPath;
      dartClassName := ToCamel(pkg.moduleName);
      libName := ToLower(ToLowerCamel(pkg.moduleName));
      LowerOfCamelCases(pkg.moduleName);
    }
  }

  /** What the wrapper lists hold: one field per MapName of a walked field
      whose own type is of the list's kind, and for each such MapName the
      first walked field that has it. */
  lemma ListedFieldsAreFirst(structs: seq<StructType>, funcs: seq<FuncType>, k: FfiGenerator.Kind,
                             r: seq<Field>, keys: seq<string>, i: nat)
    requires ListsMap(r, keys, Shallow(structs, funcs, k))
    requires var fields := AllFields(structs, funcs);
      i < |fields| && FfiGenerator.Wanted(fields[i].typ, k) &&
      forall j :: 0 <= j < i && FfiGenerator.Wanted(fields[j].typ, k) ==> fields[j].MapName() != fields[i].MapName()
    ensures AllFields(structs, funcs)[i] in r
  {
    var fields := AllFields(structs, funcs);
    FirstWinsFirst(map[], fields, k, i);
    var key := fields[i].MapName();
    var n :| 0 <= n < |keys| && keys[n] == key;
    assert r[n] == fields[i];
  }

  lemma ListedFieldsSound(structs: seq<StructType>, funcs: seq<FuncType>, k: FfiGenerator.Kind, r: seq<Field>, keys: seq<string>)
    requires ListsMap(r, keys, Shallow(structs, funcs, k))
    ensures forall n :: 0 <= n < |r| ==>
      FfiGenerator.Wanted(r[n].typ, k) && r[n].MapName() == keys[n] && r[n] in AllFields(structs, funcs)
    ensures forall n, m :: 0 <= n < m < |r| ==> r[n].MapName() != r[m].MapName()
  {
    var fields := AllFields(structs, funcs);
    FirstWinsSound(map[], fields, k, fields);
  }
}
