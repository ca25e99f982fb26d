/**
 * Decimal formatting and parsing of 64-bit integers, as the timestamp sidecar
 * file uses them: fmt.Append of an int64 writes its decimal form, and
 * strconv.ParseInt(s, 10, 64) reads it back. The parse is modelled with the
 * value it returns even on failure (0 on a syntax error, the clamped bound on
 * a range error), because the caller ignores the error.
 */
module Strconv {
  import opened Strcase

  const MaxUint64: int := 0xFFFF_FFFF_FFFF_FFFF
  const MaxInt64: int := 0x7FFF_FFFF_FFFF_FFFF
  const MinInt64: int := -0x8000_0000_0000_0000

  newtype int64 = x: int | -0x8000_0000_0000_0000 <= x < 0x8000_0000_0000_0000

  function DigitChar(d: nat): (c: char)
    requires d < 10
    ensures IsDigit(c)
  {
    ('0' as int + d) as char
  }

  /** The decimal digits of n, most significant first, without leading zeros. */
  function FormatNat(n: nat): (s: string)
    ensures |s| > 0 && forall i :: 0 <= i < |s| ==> IsDigit(s[i])
  {
    if n < 10 then [DigitChar(n)] else FormatNat(n / 10) + [DigitChar(n % 10)]
  }

  /** fmt's decimal rendering of an integer: a '-' sign, then the digits. */
  function FormatInt(x: int): string
  {
    if x < 0 then "-" + FormatNat(-x) else FormatNat(x)
  }

  /** What strconv.ParseUint's base-10 loop ends in. */
  datatype UintScan = Value(n: nat) | SyntaxError | RangeError

  /** ParseUint's loop from accumulator acc: a non-digit stops with a syntax
      error; an accumulator at or past the cut-off, or a step past the largest
      uint64, stops with a range error, whichever comes first from the left. */
  function ScanUint(s: string, acc: nat): UintScan
  {
    if s == [] then Value(acc)
    else if !IsDigit(s[0]) then SyntaxError
    else if acc >= MaxUint64 / 10 + 1 then RangeError
    else
      var n1 := acc * 10 + (s[0] as int - '0' as int);
      if n1 > MaxUint64 then RangeError else ScanUint(s[1..], n1)
  }

  function ParseUint(s: string): UintScan
  {
    if s == [] then SyntaxError else ScanUint(s, 0)
  }

  /** The int64 strconv.ParseInt(s, 10, 64) returns, whether or not it also
      returns an error. */
  function ParseIntValue(s: string): (v: int64)
    ensures s == [] ==> v == 0
  {
    if s == [] then 0
    else
      var neg := s[0] == '-';
      var digits := if s[0] == '+' || s[0] == '-' then s[1..] else s;
      match ParseUint(digits)
      case SyntaxError => 0
      case RangeError => if neg then MinInt64 as int64 else MaxInt64 as int64
      case Value(un) =>
        if !neg && un > MaxInt64 then MaxInt64 as int64
        else if neg && un > -MinInt64 then MinInt64 as int64
        else if neg then (-(un as int)) as int64
        else un as int64
  }

  /** Scanning the decimal form of n continues with n as the accumulator. */
  lemma {:induction false} ScanFormatNat(n: nat, rest: string)
    requires n <= MaxUint64
    ensures ScanUint(FormatNat(n) + rest, 0) == ScanUint(rest, n)
  {
    if n < 10 {
      assert FormatNat(n) + rest == [DigitChar(n)] + rest;
    } else {
      var d := DigitChar(n % 10);
      assert FormatNat(n) + rest == FormatNat(n / 10) + ([d] + rest);
      ScanFormatNat(n / 10, [d] + rest);
      assert ([d] + rest)[1..] == rest;
    }
  }

  /** Parsing what FormatInt writes gives back the same int64. */
  lemma ParseFormatInt(x: int64)
    ensures ParseIntValue(FormatInt(x as int)) == x
  {
    if x < 0 {
      var digits := FormatNat(-(x as int));
      ScanFormatNat(-(x as int), []);
      assert digits + [] == digits;
      assert FormatInt(x as int)[1..] == digits;
    } else {
      var digits := FormatNat(x as int);
      ScanFormatNat(x as int, []);
      assert digits + [] == digits;
    }
  }

  /** Text that does not start with a digit or a sign parses as 0. */
  lemma ParseNonNumeric(s: string)
    requires s != [] && !IsDigit(s[0]) && s[0] != '+' && s[0] != '-'
    ensures ParseIntValue(s) == 0
  {
  }
}
