/** The fixed table of Go primitive types and their precomputed spellings. */
module Registry {
  import opened Strcase
  import opened Models
  import ModelProperties

  const BasicTypeMap: map<string, BasicType> := map[
    "bool" := BasicType("bool", "bool", "C.bool", "bool", "ffi.Bool", "false", "Boolean", "Boolean", "false", "java/lang/Boolean", "booleanValue", false),

    "string" := BasicType("void*", "string", "unsafe.Pointer", "String", "ffi.Pointer<ffi.Void>", "''", "String", "String", "\"\"", "java/lang/String", "getBytes", true),
    "error" := BasicType("void*", "error", "unsafe.Pointer", "Error", "ffi.Pointer<ffi.Void>", "null", "Error", "String", "null", "java/lang/String", "getBytes", true),

    "int8" := BasicType("int8_t", "int8", "C.int8_t", "int", "ffi.Int8", "0", "Int", "Int", "0", "java/lang/Integer", "intValue", false),
    "int16" := BasicType("int16_t", "int16", "C.int16_t", "int", "ffi.Int16", "0", "Int", "Int", "0", "java/lang/Integer", "intValue", false),
    "int32" := BasicType("int32_t", "int32", "C.int32_t", "int", "ffi.Int32", "0", "Int", "Int", "0", "java/lang/Integer", "intValue", false),
    "int64" := BasicType("int64_t", "int64", "C.int64_t", "int", "ffi.Int64", "0", "Long", "Long", "0", "java/lang/Long", "longValue", false),

    "byte" := BasicType("uint8_t", "byte", "C.uint8_t", "int", "ffi.Uint8", "0", "Byte", "Byte", "0", "java/lang/Byte", "byteValue", false),
    "uint8" := BasicType("uint8_t", "uint8", "C.uint8_t", "int", "ffi.Uint8", "0", "Int", "Int", "0", "java/lang/Integer", "intValue", false),
    "uint16" := BasicType("uint16_t", "uint16", "C.uint16_t", "int", "ffi.Uint16", "0", "Int", "Int", "0", "java/lang/Integer", "intValue", false),
    "uint32" := BasicType("uint32_t", "uint32", "C.uint32_t", "int", "ffi.Uint32", "0", "Int", "Int", "0", "java/lang/Integer", "intValue", false),
    "uint64" := BasicType("uint64_t", "uint64", "C.uint64_t", "int", "ffi.Uint64", "0", "Long", "Long", "0", "java/lang/Long", "longValue", false),

    "float32" := BasicType("float", "float32", "C.float", "double", "ffi.Float", "0", "Float", "Float", "0.0", "java/lang/Float", "floatValue", false),
    "float64" := BasicType("double", "float64", "C.double", "double", "ffi.Double", "0", "Double", "Double", "0.0", "java/lang/Double", "doubleValue", false),

    "int" := BasicType("int", "int", "C.int", "int", "ffi.Int", "0", "Int", "Int", "0", "java/lang/Integer", "intValue", false),
    "uint" := BasicType("unsigned int", "uint", "C.uint", "int", "ffi.UnsignedInt", "0", "Int", "Int", "0", "java/lang/Integer", "intValue", false),

    "uintptr" := BasicType("uintptr_t", "uintptr", "C.uintptr_t", "int", "ffi.UintPtr", "0", "Long", "Long", "0", "java/lang/Long", "longValue", false)
  ]

  /** The primitive type names the registry knows, ordered by Fingerprint. */
  const BasicNames: seq<string> := [
    "int", "byte", "bool", "int8", "uint", "error", "int32", "int64", "int16",
    "uint8", "string", "uint32", "uint64", "uint16", "float32", "float64", "uintptr"
  ]

  /** A cheap fingerprint of a name: its length, first and last character. */
  function Fingerprint(s: string): int
  {
    if s == [] then 0 else |s| * 1000000 + (s[0] as int) * 1000 + s[|s| - 1] as int
  }

  /** Names whose fingerprints strictly increase are pairwise different, so
      the set of them is as large as the list. */
  lemma {:induction false} DistinctNamesCount(s: seq<string>)
    requires forall i :: 0 <= i < |s| - 1 ==> Fingerprint(s[i]) < Fingerprint(s[i + 1])
    ensures |set x | x in s| == |s|
    ensures forall i :: 0 < i < |s| ==> Fingerprint(s[0]) < Fingerprint(s[i])
  {
    if s != [] {
      DistinctNamesCount(s[1..]);
      var rest := set x | x in s[1..];
      assert (set x | x in s) == rest + {s[0]};
      forall i | 1 < i < |s| ensures Fingerprint(s[1]) < Fingerprint(s[i]) {
        assert s[1..][i - 1] == s[i];
      }
      assert forall x :: x in rest ==> exists i :: 1 <= i < |s| && s[i] == x;
      assert s[0] !in rest;
    }
  }

  /** The registry holds exactly the seventeen primitive names. */
  lemma RegistryKeys()
    ensures BasicTypeMap.Keys == set x | x in BasicNames
    ensures |BasicTypeMap| == 17
  {
    KeysAreBasicNames();
    BasicNamesDistinct();
    assert |BasicTypeMap| == |BasicTypeMap.Keys|;
  }

  lemma KeysAreBasicNames()
    ensures BasicTypeMap.Keys == set x | x in BasicNames
  {
  }

  lemma BasicNamesDistinct()
    ensures |set x | x in BasicNames| == 17
  {
    assert Fingerprint(BasicNames[0]) == 3105116;
    assert Fingerprint(BasicNames[1]) == 4098101;
    assert Fingerprint(BasicNames[2]) == 4098108;
    assert Fingerprint(BasicNames[3]) == 4105056;
    assert Fingerprint(BasicNames[4]) == 4117116;
    assert Fingerprint(BasicNames[5]) == 5101114;
    assert Fingerprint(BasicNames[6]) == 5105050;
    assert Fingerprint(BasicNames[7]) == 5105052;
    assert Fingerprint(BasicNames[8]) == 5105054;
    assert Fingerprint(BasicNames[9]) == 5117056;
    assert Fingerprint(BasicNames[10]) == 6115103;
    assert Fingerprint(BasicNames[11]) == 6117050;
    assert Fingerprint(BasicNames[12]) == 6117052;
    assert Fingerprint(BasicNames[13]) == 6117054;
    assert Fingerprint(BasicNames[14]) == 7102050;
    assert Fingerprint(BasicNames[15]) == 7102052;
    assert Fingerprint(BasicNames[16]) == 7117114;
    DistinctNamesCount(BasicNames);
  }

  /** Every entry is registered under its own Go spelling, so a looked-up basic
      type displays, spells and keys itself by its lookup name. */
  lemma RegistryGoTypeIsKey(k: string)
    requires k in BasicTypeMap
    ensures BasicTypeMap[k].goType == k
    ensures Basic(BasicTypeMap[k]).String() == k && Basic(BasicTypeMap[k]).GoType() == k
    ensures Basic(BasicTypeMap[k]).MapName() == ToCamel(k)
  {
  }

  /** Only "string" and "error" need a conversion function. */
  lemma RegistryNeedMap(k: string)
    requires k in BasicTypeMap
    ensures Basic(BasicTypeMap[k]).NeedMap() <==> k == "string" || k == "error"
  {
  }

  /** "byte" and "uint8" share their C, cgo and Dart spellings but differ in Go
      spelling and Kotlin type. */
  lemma ByteAndUint8()
    ensures var b, u := BasicTypeMap["byte"], BasicTypeMap["uint8"];
      && b.cType == u.cType == "uint8_t" && b.goCType == u.goCType == "C.uint8_t"
      && b.dartCType == u.dartCType == "ffi.Uint8" && b.dartType == u.dartType == "int"
      && b.goType != u.goType && b.kotlinType == "Byte" && u.kotlinType == "Int"
  {
  }

  /** "string" and "error" travel as opaque buffers: same C, cgo and Dart C spelling. */
  lemma StringAndErrorShareWireForm()
    ensures var s, e := BasicTypeMap["string"], BasicTypeMap["error"];
      && s.cType == e.cType == "void*" && s.goCType == e.goCType == "unsafe.Pointer"
      && s.dartCType == e.dartCType == "ffi.Pointer<ffi.Void>"
  {
  }

  /** Slice keys follow the element's Dart spelling, so the Go slices []int32
      and []int64 share one key although their element keys differ. */
  lemma IntSlicesShareKey()
    ensures Basic(BasicTypeMap["int32"]).MapName() != Basic(BasicTypeMap["int64"]).MapName()
    ensures Slice(Basic(BasicTypeMap["int32"])).MapName() == Slice(Basic(BasicTypeMap["int64"])).MapName()
  {
    ModelProperties.CompositeKeyFollowsDartType(Basic(BasicTypeMap["int32"]), Basic(BasicTypeMap["int64"]));
    assert ToCamel("int32") == "Int32";
    assert ToCamel("int64") == "Int64";
  }
}
