/**
 * The validation the create command applies to a new project's name: a letter,
 * then letters, digits or underscores, ending in a letter or digit.
 */
module Create {
  import opened Strcase

  /** The pattern ^[a-zA-Z][a-zA-Z0-9_]*[a-zA-Z0-9]+$ matches s: one letter,
      then a (possibly empty) run of word characters up to j, then a non-empty
      run of letters and digits to the end. */
  predicate MatchesPattern(s: string)
  {
    exists j :: 1 <= j < |s| && SplitsAt(s, j)
  }

  /** The pattern matches s with the final run of letters and digits
      starting at j. */
  predicate SplitsAt(s: string, j: nat)
    requires 1 <= j < |s|
  {
    IsLetter(s[0]) &&
    (forall k :: 1 <= k < j ==> IsWordChar(s[k])) &&
    (forall k :: j <= k < |s| ==> IsAlnum(s[k]))
  }

  /** The empty name is refused before the pattern is tried. */
  predicate IsValidProjectName(name: string)
  {
    if name == "" then false else MatchesPattern(name)
  }

  /** What the pattern amounts to: at least two characters, a letter first,
      only letters, digits and underscores, and a letter or digit last. */
  lemma ValidNameCharacterization(s: string)
    ensures IsValidProjectName(s) <==>
      |s| >= 2 && IsLetter(s[0]) &&
      (forall k :: 1 <= k < |s| ==> IsWordChar(s[k])) &&
      IsAlnum(s[|s| - 1])
  {
    if |s| >= 2 && IsLetter(s[0]) && (forall k :: 1 <= k < |s| ==> IsWordChar(s[k])) && IsAlnum(s[|s| - 1]) {
      assert SplitsAt(s, |s| - 1);
    }
  }

  /** A valid name without capitals is already in snake case, so it is
      the project name the generated plugin carries. */
  lemma ValidLowerNameIsOwnSnake(s: string)
    requires IsValidProjectName(s)
    requires forall k :: 0 <= k < |s| ==> !IsUpper(s[k])
    ensures ToSnake(s) == s
  {
    ValidNameCharacterization(s);
    SnakeKeepsLowerWords(s, false);
  }

  /** The name the create command's usage text shows is accepted. */
  lemma UsageExampleValid()
    ensures IsValidProjectName("my_ffi")
    ensures IsValidProjectName("a1")
  {
    assert SplitsAt("my_ffi", 5);
    assert SplitsAt("a1", 1);
  }

  /** Names the pattern refuses: empty, one letter, a trailing underscore, a
      leading digit or underscore, and a hyphen. */
  lemma RejectedNames()
    ensures !IsValidProjectName("")
    ensures !IsValidProjectName("a")
    ensures !IsValidProjectName("my_")
    ensures !IsValidProjectName("1ab")
    ensures !IsValidProjectName("_ab")
    ensures !IsValidProjectName("my-ffi")
  {
    ValidNameCharacterization("my_");
    ValidNameCharacterization("1ab");
    ValidNameCharacterization("_ab");
    ValidNameCharacterization("my-ffi");
    assert !IsWordChar("my-ffi"[2]);
  }
}
