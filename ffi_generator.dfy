/**
 * The current generator's preparation step: before its templates run it
 * collects, from every struct field and every function parameter and result,
 * the slice and pointer types that need a wrapper, deduplicated by MapName.
 * The walk descends through slice and pointer layers (a pointer to a slice
 * of pointers yields all three) and stops at any other shape, channels
 * included. A type met later under a key already stored replaces the earlier
 * one.
 */
module FfiGenerator {
  import opened Models
  import opened GenHelpers

  /** Which of the two collections a type belongs in. */
  datatype Kind = SliceKind | PtrKind

  predicate Wanted(t: GoType, k: Kind)
  {
    match k
    case SliceKind => t.Slice?
    case PtrKind => t.Pointer?
  }

  /** The slice and pointer layers the walk meets from t, outermost first. */
  function Reached(t: GoType): (r: seq<GoType>)
    ensures forall u :: u in r ==> u.Slice? || u.Pointer?
    ensures t.Slice? || t.Pointer? <==> |r| > 0
    ensures |r| > 0 ==> r[0] == t
  {
    match t
    case Slice(i) => [t] + Reached(i)
    case Pointer(i) => [t] + Reached(i)
    case _ => []
  }

  /** The layers met from each field's type, field after field. */
  function ReachedAll(fields: seq<Field>): seq<GoType>
  {
    if fields == [] then [] else Reached(fields[0].typ) + ReachedAll(fields[1..])
  }

  /** Stores each wanted type of ts under its MapName, later ones replacing earlier. */
  function Record(m: map<string, GoType>, ts: seq<GoType>, k: Kind): map<string, GoType>
    decreases |ts|
  {
    if ts == [] then m
    else Record(if Wanted(ts[0], k) then m[ts[0].MapName() := ts[0]] else m, ts[1..], k)
  }

  /** The collection the walk builds for a package's structs and functions. */
  function Collected(structs: seq<StructType>, funcs: seq<FuncType>, k: Kind): map<string, GoType>
  {
    Record(map[], ReachedAll(AllFields(structs, funcs)), k)
  }

  lemma {:induction false} RecordConcat(m: map<string, GoType>, a: seq<GoType>, b: seq<GoType>, k: Kind)
    ensures Record(m, a + b, k) == Record(Record(m, a, k), b, k)
    decreases |a|
  {
    if a == [] {
      assert a + b == b;
    } else {
      assert (a + b)[1..] == a[1..] + b;
      RecordConcat(if Wanted(a[0], k) then m[a[0].MapName() := a[0]] else m, a[1..], b, k);
    }
  }

  lemma {:induction false} ReachedAllSnoc(fields: seq<Field>, f: Field)
    ensures ReachedAll(fields + [f]) == ReachedAll(fields) + Reached(f.typ)
  {
    if fields == [] {
      assert fields + [f] == [f];
      assert [f][1..] == [];
    } else {
      assert (fields + [f])[1..] == fields[1..] + [f];
      ReachedAllSnoc(fields[1..], f);
    }
  }

  /** Walks t, storing every slice and pointer layer under its MapName. */
  method ProcessTypes(t: GoType, sliceMap: map<string, GoType>, ptrMap: map<string, GoType>)
    returns (sliceMap': map<string, GoType>, ptrMap': map<string, GoType>)
    ensures sliceMap' == Record(sliceMap, Reached(t), SliceKind)
    ensures ptrMap' == Record(ptrMap, Reached(t), PtrKind)
    decreases t
  {
    match t
    case Slice(i) =>
      assert ([t] + Reached(i))[1..] == Reached(i);
      sliceMap', ptrMap' := ProcessTypes(i, sliceMap[t.MapName() := t], ptrMap);
    case Pointer(i) =>
      assert ([t] + Reached(i))[1..] == Reached(i);
      sliceMap', ptrMap' := ProcessTypes(i, sliceMap, ptrMap[t.MapName() := t]);
    case _ =>
      sliceMap', ptrMap' := sliceMap, ptrMap;
  }

  /** Walks one field list, in order, on top of the maps built so far. */
  method ProcessFields(fields: seq<Field>, ghost seen: seq<Field>, sliceMap: map<string, GoType>, ptrMap: map<string, GoType>)
    returns (sliceMap': map<string, GoType>, ptrMap': map<string, GoType>)
    requires sliceMap == Record(map[], ReachedAll(seen), SliceKind)
    requires ptrMap == Record(map[], ReachedAll(seen), PtrKind)
    ensures sliceMap' == Record(map[], ReachedAll(seen + fields), SliceKind)
    ensures ptrMap' == Record(map[], ReachedAll(seen + fields), PtrKind)
  {
    sliceMap', ptrMap' := sliceMap, ptrMap;
    assert seen + fields[..0] == seen;
    for j := 0 to |fields|
      invariant sliceMap' == Record(map[], ReachedAll(seen + fields[..j]), SliceKind)
      invariant ptrMap' == Record(map[], ReachedAll(seen + fields[..j]), PtrKind)
    {
      ghost var before := seen + fields[..j];
      sliceMap', ptrMap' := ProcessTypes(fields[j].typ, sliceMap', ptrMap');
      assert seen + fields[..j + 1] == before + [fields[j]];
      ReachedAllSnoc(before, fields[j]);
      RecordConcat(map[], ReachedAll(before), Reached(fields[j].typ), SliceKind);
      RecordConcat(map[], ReachedAll(before), Reached(fields[j].typ), PtrKind);
    }
    assert fields[..|fields|] == fields;
  }

  /** Collects the slice and pointer types of every struct field, then of
      every function's parameters and results. */
  method CollectSpecialTypes(structs: seq<StructType>, funcs: seq<FuncType>)
    returns (sliceMap: map<string, GoType>, ptrMap: map<string, GoType>)
    ensures sliceMap == Collected(structs, funcs, SliceKind)
    ensures ptrMap == Collected(structs, funcs, PtrKind)
  {
    sliceMap, ptrMap := CollectFromStructs(structs);
    sliceMap, ptrMap := CollectFromFuncs(funcs, StructFields(structs), sliceMap, ptrMap);
  }

  method CollectFromStructs(structs: seq<StructType>) returns (sliceMap: map<string, GoType>, ptrMap: map<string, GoType>)
    ensures sliceMap == Record(map[], ReachedAll(StructFields(structs)), SliceKind)
    ensures ptrMap == Record(map[], ReachedAll(StructFields(structs)), PtrKind)
  {
    sliceMap, ptrMap := map[], map[];
    for i := 0 to |structs|
      invariant sliceMap == Record(map[], ReachedAll(StructFields(structs[..i])), SliceKind)
      invariant ptrMap == Record(map[], ReachedAll(StructFields(structs[..i])), PtrKind)
    {
      sliceMap, ptrMap := ProcessFields(structs[i].fields, StructFields(structs[..i]), sliceMap, ptrMap);
      assert structs[..i + 1] == structs[..i] + [structs[i]];
      StructFieldsSnoc(structs[..i], structs[i]);
    }
    assert structs[..|structs|] == structs;
  }

  method CollectFromFuncs(funcs: seq<FuncType>, ghost done: seq<Field>, sliceMap0: map<string, GoType>, ptrMap0: map<string, GoType>)
    returns (sliceMap: map<string, GoType>, ptrMap: map<string, GoType>)
    requires sliceMap0 == Record(map[], ReachedAll(done), SliceKind)
    requires ptrMap0 == Record(map[], ReachedAll(done), PtrKind)
    ensures sliceMap == Record(map[], ReachedAll(done + FuncFields(funcs)), SliceKind)
    ensures ptrMap == Record(map[], ReachedAll(done + FuncFields(funcs)), PtrKind)
  {
    sliceMap, ptrMap := sliceMap0, ptrMap0;
    assert done + FuncFields(funcs[..0]) == done;
    for i := 0 to |funcs|
      invariant sliceMap == Record(map[], ReachedAll(done + FuncFields(funcs[..i])), SliceKind)
      invariant ptrMap == Record(map[], ReachedAll(done + FuncFields(funcs[..i])), PtrKind)
    {
      ghost var seen := done + FuncFields(funcs[..i]);
      sliceMap, ptrMap := ProcessFields(funcs[i].params.fields, seen, sliceMap, ptrMap);
      sliceMap, ptrMap := ProcessFields(funcs[i].results.fields, seen + funcs[i].params.fields, sliceMap, ptrMap);
      FuncFieldsStep(funcs, i, done);
    }
    assert funcs[..|funcs|] == funcs;
  }

  /** What Record stores: exactly the keys of m and of the wanted types of ts,
      each new key holding a wanted type whose MapName it is. */
  lemma {:induction false} RecordKeys(m: map<string, GoType>, ts: seq<GoType>, k: Kind)
    ensures forall key :: key in Record(m, ts, k) <==>
      key in m || exists i :: 0 <= i < |ts| && Wanted(ts[i], k) && ts[i].MapName() == key
    decreases |ts|
  {
    if ts != [] {
      var m' := if Wanted(ts[0], k) then m[ts[0].MapName() := ts[0]] else m;
      RecordKeys(m', ts[1..], k);
      forall key ensures key in Record(m, ts, k) <==>
        key in m || exists i :: 0 <= i < |ts| && Wanted(ts[i], k) && ts[i].MapName() == key
      {
        if exists i :: 0 <= i < |ts[1..]| && Wanted(ts[1..][i], k) && ts[1..][i].MapName() == key {
          var i :| 0 <= i < |ts[1..]| && Wanted(ts[1..][i], k) && ts[1..][i].MapName() == key;
          assert ts[i + 1] == ts[1..][i];
        }
        if exists i :: 0 <= i < |ts| && Wanted(ts[i], k) && ts[i].MapName() == key {
          var i :| 0 <= i < |ts| && Wanted(ts[i], k) && ts[i].MapName() == key;
          if i > 0 {
            assert ts[1..][i - 1] == ts[i];
          }
        }
      }
    }
  }

  /** Every stored value is of the collection's kind and sits under its own MapName. */
  ghost predicate WellKeyed(m: map<string, GoType>, k: Kind)
  {
    forall key :: key in m ==> Wanted(m[key], k) && m[key].MapName() == key
  }

  lemma {:induction false} RecordWellKeyed(m: map<string, GoType>, ts: seq<GoType>, k: Kind)
    requires WellKeyed(m, k)
    ensures WellKeyed(Record(m, ts, k), k)
    decreases |ts|
  {
    if ts != [] {
      RecordWellKeyed(if Wanted(ts[0], k) then m[ts[0].MapName() := ts[0]] else m, ts[1..], k);
    }
  }

  /** The entry for a key is the last wanted type of ts with that MapName. */
  lemma {:induction false} RecordLastWins(m: map<string, GoType>, ts: seq<GoType>, k: Kind, i: nat)
    requires i < |ts| && Wanted(ts[i], k)
    requires forall j :: i < j < |ts| && Wanted(ts[j], k) ==> ts[j].MapName() != ts[i].MapName()
    ensures ts[i].MapName() in Record(m, ts, k) && Record(m, ts, k)[ts[i].MapName()] == ts[i]
    decreases |ts|
  {
    var m' := if Wanted(ts[0], k) then m[ts[0].MapName() := ts[0]] else m;
    if i == 0 {
      RecordUntouched(m', ts[1..], k, ts[0].MapName());
    } else {
      forall j | i - 1 < j < |ts[1..]| && Wanted(ts[1..][j], k)
        ensures ts[1..][j].MapName() != ts[1..][i - 1].MapName()
      {
        assert ts[1..][j] == ts[j + 1];
      }
      RecordLastWins(m', ts[1..], k, i - 1);
    }
  }

  /** A key no wanted type of ts maps to keeps its entry. */
  lemma {:induction false} RecordUntouched(m: map<string, GoType>, ts: seq<GoType>, k: Kind, key: string)
    requires key in m
    requires forall j :: 0 <= j < |ts| && Wanted(ts[j], k) ==> ts[j].MapName() != key
    ensures key in Record(m, ts, k) && Record(m, ts, k)[key] == m[key]
    decreases |ts|
  {
    if ts != [] {
      var m' := if Wanted(ts[0], k) then m[ts[0].MapName() := ts[0]] else m;
      forall j | 0 <= j < |ts[1..]| && Wanted(ts[1..][j], k) ensures ts[1..][j].MapName() != key {
        assert ts[1..][j] == ts[j + 1];
      }
      RecordUntouched(m', ts[1..], k, key);
    }
  }

  /** Reached(t) holds exactly the slice and pointer layers on t's spine. */
  ghost predicate OnSpine(u: GoType, t: GoType)
    decreases t
  {
    (u == t && (t.Slice? || t.Pointer?)) ||
    (t.Slice? && OnSpine(u, t.inner)) ||
    (t.Pointer? && OnSpine(u, t.inner))
  }

  lemma {:induction false} ReachedIsSpine(t: GoType)
    ensures forall u :: u in Reached(t) <==> OnSpine(u, t)
    decreases t
  {
    match t
    case Slice(i) => ReachedIsSpine(i);
    case Pointer(i) => ReachedIsSpine(i);
    case _ =>
  }

  lemma {:induction false} ReachedAllMembers(fields: seq<Field>)
    ensures forall u :: u in ReachedAll(fields) <==> exists f :: f in fields && u in Reached(f.typ)
  {
    if fields != [] {
      ReachedAllMembers(fields[1..]);
      forall u ensures u in ReachedAll(fields) <==> exists f :: f in fields && u in Reached(f.typ) {
        if exists f :: f in fields && u in Reached(f.typ) {
          var f :| f in fields && u in Reached(f.typ);
          if f != fields[0] {
            assert f in fields[1..];
          }
        }
      }
    }
  }

  /** key is the MapName of a wanted layer on the spine of some field's type. */
  ghost predicate SpineKey(fields: seq<Field>, k: Kind, key: string)
  {
    exists f, u :: f in fields && OnSpine(u, f.typ) && Wanted(u, k) && u.MapName() == key
  }

  lemma StoredKeyOnSpine(fields: seq<Field>, k: Kind, key: string)
    requires key in Record(map[], ReachedAll(fields), k)
    ensures SpineKey(fields, k, key)
  {
    var ts := ReachedAll(fields);
    RecordKeys(map[], ts, k);
    var i :| 0 <= i < |ts| && Wanted(ts[i], k) && ts[i].MapName() == key;
    ReachedAllMembers(fields);
    assert ts[i] in ts;
    var f :| f in fields && ts[i] in Reached(f.typ);
    ReachedIsSpine(f.typ);
  }

  lemma SpineKeyStored(fields: seq<Field>, k: Kind, key: string)
    requires SpineKey(fields, k, key)
    ensures key in Record(map[], ReachedAll(fields), k)
  {
    var ts := ReachedAll(fields);
    var f, u :| f in fields && OnSpine(u, f.typ) && Wanted(u, k) && u.MapName() == key;
    ReachedIsSpine(f.typ);
    ReachedAllMembers(fields);
    assert u in ts;
    var i :| 0 <= i < |ts| && ts[i] == u;
    RecordKeys(map[], ts, k);
  }

  /** The keys of the slice collection are exactly the MapNames of the slice
      layers on the spines of the walked fields' types, and likewise for
      pointers; every stored value is of its collection's kind and sits under
      its own MapName. */
  lemma CollectedKeys(structs: seq<StructType>, funcs: seq<FuncType>, k: Kind)
    ensures forall key :: key in Collected(structs, funcs, k) <==> SpineKey(AllFields(structs, funcs), k, key)
    ensures WellKeyed(Collected(structs, funcs, k), k)
  {
    var fields := AllFields(structs, funcs);
    RecordWellKeyed(map[], ReachedAll(fields), k);
    forall key ensures key in Collected(structs, funcs, k) <==> SpineKey(fields, k, key) {
      if key in Collected(structs, funcs, k) {
        StoredKeyOnSpine(fields, k, key);
      }
      if SpineKey(fields, k, key) {
        SpineKeyStored(fields, k, key);
      }
    }
  }

  /** Every field the source lists is walked: a slice field of any struct is
      stored under its MapName. */
  lemma StructSliceCollected(structs: seq<StructType>, funcs: seq<FuncType>, s: StructType, f: Field)
    requires s in structs && f in s.fields && f.typ.Slice?
    ensures f.typ.MapName() in Collected(structs, funcs, SliceKind)
  {
    AllFieldsCovers(structs, funcs);
    assert OnSpine(f.typ, f.typ);
    assert SpineKey(AllFields(structs, funcs), SliceKind, f.typ.MapName());
    SpineKeyStored(AllFields(structs, funcs), SliceKind, f.typ.MapName());
  }

  /** The walk does not enter channels: a struct whose only field is a
      channel of slices contributes no slice type. */
  lemma ChannelNotEntered(st: GoType, name: string, elem: GoType)
    ensures Collected([StructType(st, [Field(name, Chan(Slice(elem)))])], [], SliceKind) == map[]
  {
    var f := Field(name, Chan(Slice(elem)));
    var s := StructType(st, [f]);
    assert [s][1..] == [];
    assert StructFields([s]) == [f];
    assert AllFields([s], []) == [f];
    assert [f][1..] == [];
    assert ReachedAll([f]) == [];
  }

  /** Two slice types sharing a key keep only the later one: a struct with an
      []int32 field followed by an []int64 field yields one slice entry, for
      []int64. */
  lemma {:induction false} LaterSliceReplaces(a: GoType, b: GoType)
    requires a.Slice? && b.Slice? && a.MapName() == b.MapName()
    ensures Record(map[], [a, b], SliceKind) == map[b.MapName() := b]
  {
    var m1 := map[a.MapName() := a];
    var m2 := m1[b.MapName() := b];
    assert [a, b][1..] == [b];
    assert [b][1..] == [];
    assert Record(m2, [], SliceKind) == m2;
    assert Record(m1, [b], SliceKind) == m2;
    assert m2 == map[b.MapName() := b];
  }

  /** A generator for one side (Go or Dart) of the bindings of a package; the
      template it renders is left out of this model. */
  class FfiGenerator {
    const pkg: Package
    var slices: seq<GoType>
    var ptrs: seq<GoType>

    constructor(pkg: Package)
      ensures this.pkg == pkg && slices == [] && ptrs == []
    {
      this.pkg := pkg;
      slices := [];
      ptrs := [];
    }

    /** Fills the two wrapper lists with the collected types, one per key, in
        an unspecified order. */
    method ProcessSpecialTypes() returns (ghost sliceKeys: seq<string>, ghost ptrKeys: seq<string>)
      modifies this
      ensures ListsMap(slices, sliceKeys, Collected(pkg.structs, pkg.funcs, SliceKind))
      ensures ListsMap(ptrs, ptrKeys, Collected(pkg.structs, pkg.funcs, PtrKind))
    {
      var sliceMap, ptrMap := CollectSpecialTypes(pkg.structs, pkg.funcs);
      slices, sliceKeys := MapToSlice(sliceMap);
      ptrs, ptrKeys := MapToSlice(ptrMap);
    }
  }

  /** After ProcessSpecialTypes every listed slice is a slice type, no two
      share a MapName, and every slice met on a walked field has a listed
      representative with its MapName; pointers likewise. */
  lemma ListedTypesCover(structs: seq<StructType>, funcs: seq<FuncType>, k: Kind, r: seq<GoType>, keys: seq<string>)
    requires ListsMap(r, keys, Collected(structs, funcs, k))
    ensures forall i :: 0 <= i < |r| ==> Wanted(r[i], k) && r[i].MapName() == keys[i]
    ensures forall i, j :: 0 <= i < j < |r| ==> r[i].MapName() != r[j].MapName()
    ensures forall key :: SpineKey(AllFields(structs, funcs), k, key) ==>
      exists i :: 0 <= i < |r| && r[i].MapName() == key
  {
    var m := Collected(structs, funcs, k);
    RecordWellKeyed(map[], ReachedAll(AllFields(structs, funcs)), k);
    forall key | SpineKey(AllFields(structs, funcs), k, key)
      ensures exists i :: 0 <= i < |r| && r[i].MapName() == key
    {
      SpineKeyStored(AllFields(structs, funcs), k, key);
      var i :| 0 <= i < |keys| && keys[i] == key;
    }
  }
}
