/**
 * Helpers both generator revisions define identically: turning a map of
 * wrapper types into a list, the makeMap template function, and collapsing
 * runs of blank lines in generated code.
 */
module GenHelpers {
  import opened Wrappers
  import opened Models

  /** The fields of the structs, struct after struct. */
  function StructFields(structs: seq<StructType>): seq<Field>
  {
    if structs == [] then [] else structs[0].fields + StructFields(structs[1..])
  }

  /** The parameters then the results of each function, function after function. */
  function FuncFields(funcs: seq<FuncType>): seq<Field>
  {
    if funcs == [] then [] else funcs[0].params.fields + funcs[0].results.fields + FuncFields(funcs[1..])
  }

  /** Every field the generators walk, in walking order. */
  function AllFields(structs: seq<StructType>, funcs: seq<FuncType>): seq<Field>
  {
    StructFields(structs) + FuncFields(funcs)
  }

  lemma {:induction false} StructFieldsSnoc(structs: seq<StructType>, s: StructType)
    ensures StructFields(structs + [s]) == StructFields(structs) + s.fields
  {
    if structs == [] {
      assert structs + [s] == [s];
      assert [s][1..] == [];
    } else {
      assert (structs + [s])[1..] == structs[1..] + [s];
      StructFieldsSnoc(structs[1..], s);
    }
  }

  lemma {:induction false} FuncFieldsSnoc(funcs: seq<FuncType>, f: FuncType)
    ensures FuncFields(funcs + [f]) == FuncFields(funcs) + f.params.fields + f.results.fields
  {
    if funcs == [] {
      assert funcs + [f] == [f];
      assert [f][1..] == [];
    } else {
      assert (funcs + [f])[1..] == funcs[1..] + [f];
      FuncFieldsSnoc(funcs[1..], f);
    }
  }

  /** One more function's parameters and results, on top of the fields walked so far. */
  lemma FuncFieldsStep(funcs: seq<FuncType>, i: nat, done: seq<Field>)
    requires i < |funcs|
    ensures done + FuncFields(funcs[..i]) + funcs[i].params.fields + funcs[i].results.fields
      == done + FuncFields(funcs[..i + 1])
  {
    assert funcs[..i + 1] == funcs[..i] + [funcs[i]];
    FuncFieldsSnoc(funcs[..i], funcs[i]);
  }

  /** A field of a listed struct or function is among the walked fields. */
  lemma {:induction false} AllFieldsCovers(structs: seq<StructType>, funcs: seq<FuncType>)
    ensures forall s, f :: s in structs && f in s.fields ==> f in AllFields(structs, funcs)
    ensures forall fn, f :: fn in funcs && f in fn.params.fields ==> f in AllFields(structs, funcs)
    ensures forall fn, f :: fn in funcs && f in fn.results.fields ==> f in AllFields(structs, funcs)
  {
    StructFieldsCover(structs);
    FuncFieldsCover(funcs);
  }

  lemma {:induction false} StructFieldsCover(structs: seq<StructType>)
    ensures forall s, f :: s in structs && f in s.fields ==> f in StructFields(structs)
  {
    if structs != [] {
      StructFieldsCover(structs[1..]);
      forall s, f | s in structs && f in s.fields ensures f in StructFields(structs) {
        if s != structs[0] {
          assert s in structs[1..];
        }
      }
    }
  }

  lemma {:induction false} FuncFieldsCover(funcs: seq<FuncType>)
    ensures forall fn, f :: fn in funcs && f in fn.params.fields ==> f in FuncFields(funcs)
    ensures forall fn, f :: fn in funcs && f in fn.results.fields ==> f in FuncFields(funcs)
  {
    if funcs != [] {
      FuncFieldsCover(funcs[1..]);
      forall fn, f | fn in funcs && (f in fn.params.fields || f in fn.results.fields) ensures f in FuncFields(funcs) {
        if fn != funcs[0] {
          assert fn in funcs[1..];
        }
      }
    }
  }

  /** r lists the values of m, one per key: keys[i] is the key r[i] came from. */
  ghost predicate ListsMap<T>(r: seq<T>, keys: seq<string>, m: map<string, T>)
  {
    |r| == |keys| == |m| &&
    (forall i, j :: 0 <= i < j < |keys| ==> keys[i] != keys[j]) &&
    (forall i :: 0 <= i < |keys| ==> keys[i] in m && r[i] == m[keys[i]]) &&
    (forall k :: k in m ==> k in keys)
  }

  /** The values of a map, one per key, in an order the map does not fix.
      keys records which key each element came from. */
  method MapToSlice<T>(m: map<string, T>) returns (r: seq<T>, ghost keys: seq<string>)
    ensures ListsMap(r, keys, m)
    ensures |r| == |m|
    ensures forall k :: k in m ==> m[k] in r
    ensures forall x :: x in r ==> exists k :: k in m && m[k] == x
  {
    var rest := m;
    r, keys := [], [];
    while rest != map[]
      invariant |r| == |keys| && |keys| + |rest| == |m|
      invariant forall i, j :: 0 <= i < j < |keys| ==> keys[i] != keys[j]
      invariant forall i :: 0 <= i < |keys| ==> keys[i] in m && keys[i] !in rest && r[i] == m[keys[i]]
      invariant forall k :: k in rest ==> k in m && rest[k] == m[k]
      invariant forall k :: k in m ==> k in rest || k in keys
      decreases |rest|
    {
      var k :| k in rest;
      r := r + [rest[k]];
      keys := keys + [k];
      assert rest.Keys == (rest - {k}).Keys + {k};
      rest := rest - {k};
    }
  }

  /** A template argument: makeMap asserts that keys are strings. */
  datatype Value = StrValue(s: string) | OtherValue(id: int)

  /** Argument i is a key k with a value after it. */
  predicate KeyAt(values: seq<Value>, i: int, k: string)
  {
    0 <= i && i + 1 < |values| && i % 2 == 0 && values[i] == StrValue(k)
  }

  /** The pairs starting before i, bound in order: a later binding of a key
      replaces an earlier one, and an unpaired last argument is dropped. */
  function Bound(values: seq<Value>, i: nat): map<string, Value>
    decreases i
  {
    if i < 2 then map[]
    else
      var m := Bound(values, i - 2);
      if i - 1 < |values| && values[i - 2].StrValue? then m[values[i - 2].s := values[i - 1]] else m
  }

  /** The keys bound are exactly the string arguments at even positions that
      have a value after them. */
  lemma {:induction false} BoundKeys(values: seq<Value>, i: nat)
    requires i % 2 == 0
    ensures forall k :: k in Bound(values, i) <==> exists j :: j < i && KeyAt(values, j, k)
    decreases i
  {
    if i >= 2 {
      BoundKeys(values, i - 2);
      forall k | exists j :: j < i && KeyAt(values, j, k)
        ensures k in Bound(values, i)
      {
        var j :| j < i && KeyAt(values, j, k);
        if j == i - 2 {
          assert values[i - 2].s == k;
        }
      }
      forall k | k in Bound(values, i) && k !in Bound(values, i - 2)
        ensures KeyAt(values, i - 2, k)
      {
      }
    }
  }

  /** A key holds the value after its last binding. */
  lemma {:induction false} BoundLast(values: seq<Value>, i: nat, j: int, k: string)
    requires i % 2 == 0 && j < i && KeyAt(values, j, k)
    requires forall l :: j < l < i ==> !KeyAt(values, l, k)
    ensures k in Bound(values, i) && Bound(values, i)[k] == values[j + 1]
    decreases i
  {
    if j != i - 2 {
      BoundLast(values, i - 2, j, k);
      assert !KeyAt(values, i - 2, k);
    }
  }

  /** makeMap: argument i + 1 is bound to key argument i for every even i, an
      unpaired last argument is dropped, a repeated key keeps its last value,
      and a paired key that is not a string makes the call fail (None). */
  method CreateMapFromKeyValuePairs(values: seq<Value>) returns (r: Option<map<string, Value>>)
    ensures r.None? <==> exists i :: 0 <= i < |values| - 1 && i % 2 == 0 && !values[i].StrValue?
    ensures r.Some? ==> forall k :: k in r.value <==> exists i :: KeyAt(values, i, k)
    ensures r.Some? ==> forall i, k ::
      (KeyAt(values, i, k) && forall j :: i < j < |values| ==> !KeyAt(values, j, k)) ==> r.value[k] == values[i + 1]
  {
    var result: map<string, Value> := map[];
    var i := 0;
    while i < |values|
      invariant 0 <= i && i % 2 == 0 && (i > |values| ==> i == |values| + 1)
      invariant forall j :: 0 <= j < i && j < |values| - 1 && j % 2 == 0 ==> values[j].StrValue?
      invariant result == Bound(values, i)
      decreases |values| - i
    {
      if i + 1 < |values| {
        if !values[i].StrValue? {
          return None;
        }
        result := result[values[i].s := values[i + 1]];
      }
      i := i + 2;
    }
    BoundKeys(values, i);
    forall j, k | KeyAt(values, j, k) && (forall l :: j < l < |values| ==> !KeyAt(values, l, k))
      ensures result[k] == values[j + 1]
    {
      BoundLast(values, i, j, k);
    }
    return Some(result);
  }

  // ---------------------------------------------------------------------
  // Blank lines

  const LF: byte := 10
  const CR: byte := 13

  /** The run of line breaks (each "\r\n" or "\n") at the start of s: how many
      bytes and how many breaks it spans. */
  function Run(s: seq<byte>): (r: (nat, nat))
    ensures r.0 <= |s| && r.1 <= r.0 && (r.1 == 0 <==> r.0 == 0)
  {
    if |s| >= 2 && s[0] == CR && s[1] == LF then
      var (b, n) := Run(s[2..]); (b + 2, n + 1)
    else if |s| >= 1 && s[0] == LF then
      var (b, n) := Run(s[1..]); (b + 1, n + 1)
    else (0, 0)
  }

  /** Replaces each run of three or more line breaks by "\n\n", scanning from
      the left as the regular expression (\r\n|\n){3,} does. */
  function RemoveExcessiveEmptyLines(s: seq<byte>): seq<byte>
    decreases |s|
  {
    if s == [] then []
    else
      var (b, n) := Run(s);
      if n >= 3 then [LF, LF] + RemoveExcessiveEmptyLines(s[b..])
      else [s[0]] + RemoveExcessiveEmptyLines(s[1..])
  }

  /** No three consecutive "\n" bytes. */
  predicate NoTripleLF(s: seq<byte>)
  {
    forall i :: 0 <= i < |s| - 2 ==> !(s[i] == LF && s[i + 1] == LF && s[i + 2] == LF)
  }

  /** No position starts a run of three or more line breaks. */
  predicate NoLongRun(s: seq<byte>)
  {
    forall i :: 0 <= i < |s| ==> Run(s[i..]).1 < 3
  }

  /** The number of "\n" bytes s starts with. */
  function LeadingLF(s: seq<byte>): nat
  {
    if s != [] && s[0] == LF then 1 + LeadingLF(s[1..]) else 0
  }

  lemma {:induction false} LeadingLFInRun(s: seq<byte>)
    ensures LeadingLF(s) <= Run(s).1
  {
    if s != [] && s[0] == LF {
      LeadingLFInRun(s[1..]);
    }
  }

  /** A run is maximal: nothing of a line break follows it. */
  lemma {:induction false} RunIsMaximal(s: seq<byte>)
    ensures Run(s[Run(s).0..]).1 == 0
  {
    if |s| >= 2 && s[0] == CR && s[1] == LF {
      RunIsMaximal(s[2..]);
      assert s[Run(s).0..] == s[2..][Run(s[2..]).0..];
    } else if |s| >= 1 && s[0] == LF {
      RunIsMaximal(s[1..]);
      assert s[Run(s).0..] == s[1..][Run(s[1..]).0..];
    }
  }

  lemma PrependKeepsNoTriple(c: byte, t: seq<byte>)
    requires NoTripleLF(t)
    requires c == LF ==> LeadingLF(t) <= 1
    ensures NoTripleLF([c] + t)
  {
    var s := [c] + t;
    forall i | 0 <= i < |s| - 2 ensures !(s[i] == LF && s[i + 1] == LF && s[i + 2] == LF) {
      if i == 0 && c == LF && t[0] == LF {
        assert LeadingLF(t) == 1 + LeadingLF(t[1..]);
        assert t[1] != LF;
      } else if i > 0 {
        assert s[i] == t[i - 1] && s[i + 1] == t[i] && s[i + 2] == t[i + 1];
      }
    }
  }

  /** The output never holds three "\n" in a row; when the input starts with
      fewer than three line breaks it starts with as many "\n" as the input,
      and otherwise with exactly two. */
  lemma {:induction false} CollapseBound(s: seq<byte>)
    decreases |s|
    ensures NoTripleLF(RemoveExcessiveEmptyLines(s))
    ensures LeadingLF(RemoveExcessiveEmptyLines(s)) == if Run(s).1 >= 3 then 2 else LeadingLF(s)
  {
    if s != [] {
      var (b, n) := Run(s);
      var out := RemoveExcessiveEmptyLines(s);
      if n >= 3 {
        var rest := s[b..];
        CollapseBound(rest);
        RunIsMaximal(s);
        LeadingLFInRun(rest);
        var tail := RemoveExcessiveEmptyLines(rest);
        assert out == [LF] + ([LF] + tail);
        PrependKeepsNoTriple(LF, tail);
        PrependKeepsNoTriple(LF, [LF] + tail);
        assert ([LF] + tail)[1..] == tail;
        assert ([LF] + ([LF] + tail))[1..] == [LF] + tail;
      } else {
        var tail := RemoveExcessiveEmptyLines(s[1..]);
        CollapseBound(s[1..]);
        assert out == [s[0]] + tail;
        assert out[1..] == tail;
        if s[0] == LF {
          assert Run(s[1..]).1 == n - 1;
          LeadingLFInRun(s[1..]);
        } else if |s| >= 2 && s[0] == CR && s[1] == LF {
          assert Run(s[1..]).1 == n;
        }
        PrependKeepsNoTriple(s[0], tail);
      }
    }
  }

  lemma CollapseHasNoTripleLF(s: seq<byte>)
    ensures NoTripleLF(RemoveExcessiveEmptyLines(s))
  {
    CollapseBound(s);
  }

  /** Code without a run of three or more line breaks is left as it is. */
  lemma {:induction false} ShortRunsUntouched(s: seq<byte>)
    requires NoLongRun(s)
    ensures RemoveExcessiveEmptyLines(s) == s
  {
    if s != [] {
      assert s[0..] == s;
      assert NoLongRun(s[1..]) by {
        forall i | 0 <= i < |s[1..]| ensures Run(s[1..][i..]).1 < 3 {
          assert s[1..][i..] == s[i + 1..];
        }
      }
      ShortRunsUntouched(s[1..]);
    }
  }

  /** Collapsing never lengthens the code. */
  lemma {:induction false} CollapseNotLonger(s: seq<byte>)
    decreases |s|
    ensures |RemoveExcessiveEmptyLines(s)| <= |s|
  {
    if s != [] {
      var (b, n) := Run(s);
      if n >= 3 {
        CollapseNotLonger(s[b..]);
      } else {
        CollapseNotLonger(s[1..]);
      }
    }
  }

  /** Collapsing is not idempotent: a lone "\r" between breaks hides a run
      that only appears once the first run is gone. */
  lemma CollapseNotIdempotent()
    ensures var s: seq<byte> := [LF, CR, CR, LF, LF, LF];
      RemoveExcessiveEmptyLines(s) == [LF, CR, LF, LF] &&
      RemoveExcessiveEmptyLines([LF, CR, LF, LF]) == [LF, LF]
  {
    var s: seq<byte> := [LF, CR, CR, LF, LF, LF];
    assert Run(s) == (1, 1);
    assert Run(s[1..]) == (0, 0);
    var one: seq<byte> := [LF];
    assert one[1..] == [];
    assert Run(one) == (1, 1);
    var two: seq<byte> := [LF, LF];
    assert two[1..] == one;
    assert Run(two) == (2, 2);
    assert s[2..] == [CR, LF] + two;
    assert s[2..][2..] == two;
    assert Run(s[2..]) == (4, 3);
    assert s[2..][4..] == [];
    assert RemoveExcessiveEmptyLines(s[2..]) == [LF, LF];
    assert s[1..][1..] == s[2..];
    assert RemoveExcessiveEmptyLines(s[1..]) == [CR, LF, LF];
    var t: seq<byte> := [LF, CR, LF, LF];
    assert t[1..] == [CR, LF] + one;
    assert t[1..][2..] == one;
    assert Run(t[1..]) == (3, 2);
    assert Run(t) == (4, 3);
    assert t[4..] == [];
  }
}
