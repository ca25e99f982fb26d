/**
 * The names a new plugin project derives from the name its user gives, and
 * the timestamp that makes its exported symbols unique. The timestamp is
 * chosen once, when the project is first generated, and kept in a .timestamp
 * file; later generations adopt the stored value. The clock reading and the
 * file's contents are parameters here, and the file to write is a result.
 */
module ProjectNamingModel {
  import opened Wrappers
  import opened Strcase
  import opened Strconv

  const PackagePrefix: string := "com.flutter_gopher."

  /** The file's bytes read as text, one character per byte. */
  function BytesToChars(content: seq<byte>): (s: string)
    ensures |s| == |content|
  {
    seq(|content|, i requires 0 <= i < |content| => content[i] as int as char)
  }

  /** The stored timestamp a generation adopts: the file is non-empty and its
      text parses, as a base-10 int64, to a positive value. Text that does not
      parse reads as 0; text out of range reads as the clamped bound. */
  function StoredTimestamp(content: seq<byte>): (r: Option<int64>)
    ensures r.Some? ==> |content| > 0 && r.value > 0
    ensures |content| == 0 ==> r.None?
  {
    if |content| > 0 then
      var t := ParseIntValue(BytesToChars(content));
      if t > 0 then Some(t) else None
    else None
  }

  /** The decimal rendering of t as the bytes written to the file. */
  function TimestampBytes(t: int64): (b: seq<byte>)
    ensures |b| > 0 && BytesToChars(b) == FormatInt(t as int)
  {
    var s := FormatInt(t as int);
    assert forall i :: 0 <= i < |s| ==> IsDigit(s[i]) || s[i] == '-';
    var b := seq(|s|, i requires 0 <= i < |s| => s[i] as int as byte);
    assert BytesToChars(b) == s;
    b
  }

  /** What is written is what the next generation adopts, as long as the
      timestamp is positive. */
  lemma WrittenTimestampIsAdopted(t: int64)
    requires t > 0
    ensures StoredTimestamp(TimestampBytes(t)) == Some(t)
  {
    ParseFormatInt(t);
  }

  /** A timestamp at or below zero is written but never adopted, so every
      generation writes the file again. */
  lemma NonPositiveTimestampNotAdopted(t: int64)
    requires t <= 0
    ensures StoredTimestamp(TimestampBytes(t)) == None
  {
    ParseFormatInt(t);
  }

  /** Stored text that is not a number, such as a hand-edited file, is
      replaced rather than adopted. */
  lemma NonNumericContentReplaced(content: seq<byte>)
    requires |content| > 0 && !IsDigit(content[0] as int as char)
    requires content[0] as int as char != '+' && content[0] as int as char != '-'
    ensures StoredTimestamp(content) == None
  {
    ParseNonNumeric(BytesToChars(content));
  }

  class ProjectNaming {
    var projectName: string
    var packageName: string
    var pluginClassName: string
    var libClassName: string
    var libName: string
    var timestamp: int64

    /** Derives every name from the given one; nowMillis stands for the clock
        reading in milliseconds. */
    constructor(name: string, nowMillis: int64)
      ensures projectName == ToSnake(name)
      ensures packageName == PackagePrefix + projectName
      ensures libClassName == ToCamel(name)
      ensures pluginClassName == libClassName + "Plugin"
      ensures libName == ToLower(libClassName)
      ensures timestamp == nowMillis
    {
      var snake := ToSnake(name);
      var camel := ToCamel(name);
      projectName := snake;
      packageName := PackagePrefix + snake;
      pluginClassName := camel + "Plugin";
      libClassName := camel;
      libName := ToLower(camel);
      timestamp := nowMillis;
    }

    /** Adopts the stored timestamp, writing nothing, or keeps the current one
        and returns the bytes to write. A missing file reads as empty. */
    method CreateTimestampFile(content: seq<byte>) returns (write: Option<seq<byte>>)
      modifies this
      ensures StoredTimestamp(content).Some? ==> timestamp == StoredTimestamp(content).value && write.None?
      ensures StoredTimestamp(content).None? ==> timestamp == old(timestamp) && write == Some(TimestampBytes(timestamp))
      ensures unchanged(this`projectName, this`packageName, this`pluginClassName, this`libClassName, this`libName)
    {
      if |content| > 0 {
        var t := ParseIntValue(BytesToChars(content));
        if t > 0 {
          timestamp := t;
          return None;
        }
      }
      write := Some(TimestampBytes(timestamp));
    }
  }

  /** The names derived from "my_api". */
  lemma MyApiNaming()
    ensures ToSnake("my_api") == "my_api"
    ensures PackagePrefix + ToSnake("my_api") == "com.flutter_gopher.my_api"
    ensures ToCamel("my_api") == "MyApi"
    ensures ToCamel("my_api") + "Plugin" == "MyApiPlugin"
    ensures ToLower(ToCamel("my_api")) == "myapi"
  {
    MyApiSnake();
    MyApiCamel();
    MyApiLower();
  }

  lemma MyApiSnake()
    ensures ToSnake("my_api") == "my_api"
  {
    var s := "my_api";
    assert forall k :: 0 <= k < |s| ==> IsWordChar(s[k]) && !IsUpper(s[k]);
    SnakeKeepsLowerWords(s, false);
  }

  lemma MyApiCamel()
    ensures ToCamel("my_api") == "MyApi"
  {
    assert "i"[1..] == "";
    assert CamelFrom("i", false, false, false) == "i";
    assert "pi"[1..] == "i";
    assert CamelFrom("pi", false, false, false) == "pi";
    assert "api"[1..] == "pi";
    assert CamelFrom("api", true, false, false) == "Api";
    assert "_api"[1..] == "api";
    assert CamelFrom("_api", false, false, false) == "Api";
    assert "y_api"[1..] == "_api";
    assert CamelFrom("y_api", false, false, false) == "yApi";
    assert "my_api"[1..] == "y_api";
  }

  lemma MyApiLower()
    ensures ToLower("MyApi") == "myapi"
  {
    assert "MyApi"[1..] == "yApi";
    assert "yApi"[1..] == "Api";
    assert "Api"[1..] == "pi";
  }
}
