/**
 * ASCII stand-ins for the case-conversion library the generator relies on
 * (ToCamel, ToLowerCamel, ToSnake) and for strings.ToLower.
 *
 * ToCamel and ToLowerCamel follow the byte loop of that library's camel-case
 * conversion: letters are kept (upper-cased after a separator or a digit,
 * lower-cased at position 0 for lower camel case and after another capital),
 * digits are kept and make the next letter a capital, every other byte is
 * dropped, and '_', ' ', '-' and '.' make the next letter a capital.
 * The library's acronym table and its trimming of surrounding spaces are not
 * modelled. ToSnake is a simplified stand-in.
 */
module Strcase {

  predicate IsUpper(c: char) { 'A' <= c <= 'Z' }
  predicate IsLower(c: char) { 'a' <= c <= 'z' }
  predicate IsLetter(c: char) { IsUpper(c) || IsLower(c) }
  predicate IsDigit(c: char) { '0' <= c <= '9' }
  predicate IsAlnum(c: char) { IsLetter(c) || IsDigit(c) }
  predicate IsSeparator(c: char) { c == '_' || c == ' ' || c == '-' || c == '.' }

  function Upper(c: char): (u: char)
    ensures IsLower(c) ==> IsUpper(u)
    ensures !IsLower(c) ==> u == c
  {
    if IsLower(c) then (c as int - 'a' as int + 'A' as int) as char else c
  }

  function Lower(c: char): (l: char)
    ensures IsUpper(c) ==> IsLower(l)
    ensures !IsUpper(c) ==> l == c
  {
    if IsUpper(c) then (c as int - 'A' as int + 'a' as int) as char else c
  }

  /** Every character of s is an ASCII letter or digit. */
  predicate IsAlnumString(s: string) {
    forall i :: 0 <= i < |s| ==> IsAlnum(s[i])
  }

  /** strings.ToLower, restricted to ASCII. */
  function ToLower(s: string): (r: string)
    ensures |r| == |s|
    ensures forall i :: 0 <= i < |s| ==> r[i] == Lower(s[i])
  {
    if s == [] then [] else [Lower(s[0])] + ToLower(s[1..])
  }

  /** The camel-case loop: capNext asks for a capital, first marks position 0,
      prevIsCap says the previous input byte was a capital letter. */
  function CamelFrom(s: string, capNext: bool, first: bool, prevIsCap: bool): string
  {
    if s == [] then []
    else
      var v := s[0];
      var w := if capNext then Upper(v)
               else if first then Lower(v)
               else if prevIsCap && IsUpper(v) then Lower(v)
               else v;
      if IsLetter(v) then [w] + CamelFrom(s[1..], false, false, IsUpper(v))
      else if IsDigit(v) then [v] + CamelFrom(s[1..], true, false, false)
      else CamelFrom(s[1..], IsSeparator(v), false, false)
  }

  function ToCamel(s: string): string { CamelFrom(s, true, true, false) }

  function ToLowerCamel(s: string): string { CamelFrom(s, false, true, false) }

  /** Snake case: capitals are lower-cased, with '_' inserted when a capital
      follows a lower-case letter or a digit; ' ', '-' and '.' become '_'. */
  function SnakeFrom(s: string, afterLowerOrDigit: bool): string
  {
    if s == [] then []
    else
      var v := s[0];
      if IsUpper(v) then (if afterLowerOrDigit then "_" else "") + [Lower(v)] + SnakeFrom(s[1..], false)
      else if IsSeparator(v) then "_" + SnakeFrom(s[1..], false)
      else [v] + SnakeFrom(s[1..], IsLower(v) || IsDigit(v))
  }

  function ToSnake(s: string): string { SnakeFrom(s, false) }

  /** A letter, digit or underscore. */
  predicate IsWordChar(c: char) { IsAlnum(c) || c == '_' }

  /** Text made of lower-case letters, digits and underscores is its own
      snake case. */
  lemma {:induction false} SnakeKeepsLowerWords(s: string, afterLowerOrDigit: bool)
    requires forall k :: 0 <= k < |s| ==> IsWordChar(s[k]) && !IsUpper(s[k])
    ensures SnakeFrom(s, afterLowerOrDigit) == s
  {
    if s != [] {
      SnakeKeepsLowerWords(s[1..], IsLower(s[0]) || IsDigit(s[0]));
      SnakeKeepsLowerWords(s[1..], false);
      assert s == [s[0]] + s[1..];
    }
  }

  /** The camel-case loop only ever emits letters and digits. */
  lemma {:induction false} CamelFromIsAlnum(s: string, capNext: bool, first: bool, prevIsCap: bool)
    ensures IsAlnumString(CamelFrom(s, capNext, first, prevIsCap))
  {
    if s != [] {
      var v := s[0];
      if IsLetter(v) {
        CamelFromIsAlnum(s[1..], false, false, IsUpper(v));
      } else if IsDigit(v) {
        CamelFromIsAlnum(s[1..], true, false, false);
      } else {
        CamelFromIsAlnum(s[1..], IsSeparator(v), false, false);
      }
    }
  }

  lemma ToCamelIsAlnum(s: string)
    ensures IsAlnumString(ToCamel(s))
  {
    CamelFromIsAlnum(s, true, true, false);
  }

  lemma ToLowerCamelIsAlnum(s: string)
    ensures IsAlnumString(ToLowerCamel(s))
  {
    CamelFromIsAlnum(s, false, true, false);
  }

  /** ToCamel and ToLowerCamel differ at most in the case of their first letter,
      so lower-casing either gives the same library name. */
  lemma LowerOfCamelCases(s: string)
    ensures ToLower(ToCamel(s)) == ToLower(ToLowerCamel(s))
  {
    if s != [] {
      var v := s[0];
      if IsLetter(v) {
        var rest := CamelFrom(s[1..], false, false, IsUpper(v));
        assert ToCamel(s) == [Upper(v)] + rest;
        assert ToLowerCamel(s) == [Lower(v)] + rest;
        assert Lower(Upper(v)) == Lower(Lower(v));
        assert ToLower([Upper(v)] + rest) == [Lower(Upper(v))] + ToLower(rest);
        assert ToLower([Lower(v)] + rest) == [Lower(Lower(v))] + ToLower(rest);
      }
    }
  }
}
