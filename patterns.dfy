/** Character classes and the two regular expressions the identifier
    validators are built from. */
module Patterns {

  /** `[0-9]` */
  predicate IsDigit(c: char) {
    '0' <= c <= '9'
  }

  predicate IsLetter(c: char) {
    'a' <= c <= 'z' || 'A' <= c <= 'Z'
  }

  /** `[0-9a-zA-Z]` */
  predicate IsAlnum(c: char) {
    IsDigit(c) || IsLetter(c)
  }

  /** `[\w\.\-_]`, where `\w` is `[A-Za-z0-9_]`. */
  predicate IsTailChar(c: char) {
    IsAlnum(c) || c == '_' || c == '.' || c == '-'
  }

  /** `[-_]` */
  predicate IsDashOrUnderscore(c: char) {
    c == '-' || c == '_'
  }

  /** `^[0-9]*$`: every character of `s` is a digit. */
  function AllDigits(s: string): (r: bool)
    ensures r && |s| > 0 ==> IsDigit(s[0])
  {
    if |s| == 0 then true
    else IsDigit(s[0]) && AllDigits(s[1..])
  }

  lemma {:induction false} AllDigitsChars(s: string)
    ensures AllDigits(s) <==> forall i :: 0 <= i < |s| ==> IsDigit(s[i])
  {
    if |s| > 0 {
      AllDigitsChars(s[1..]);
      assert forall i :: 1 <= i < |s| ==> s[i] == s[1..][i - 1];
    }
  }

  /** `^[\w\.\-_]*$`: every character of `s` is a tail character. */
  function AllTailChars(s: string): (r: bool)
    ensures r && |s| > 0 ==> IsTailChar(s[0])
  {
    if |s| == 0 then true
    else IsTailChar(s[0]) && AllTailChars(s[1..])
  }

  lemma {:induction false} AllTailCharsChars(s: string)
    ensures AllTailChars(s) <==> forall i :: 0 <= i < |s| ==> IsTailChar(s[i])
  {
    if |s| > 0 {
      AllTailCharsChars(s[1..]);
      assert forall i :: 1 <= i < |s| ==> s[i] == s[1..][i - 1];
    }
  }

  /** `s.match(/^[0-9a-zA-Z]{1}[\w\.\-_]+$/) !== null`: one alphanumeric
      character followed by at least one tail character. */
  predicate HasLengthAndOnlyValidChars(s: string) {
    |s| >= 2 && IsAlnum(s[0]) && AllTailChars(s[1..])
  }

  /** Two adjacent characters of `s`, at `i` and `i + 1`, are both in `[-_]`. */
  predicate DashPairAt(s: string, i: int) {
    0 <= i < |s| - 1 && IsDashOrUnderscore(s[i]) && IsDashOrUnderscore(s[i + 1])
  }

  /** `s.match(/[-_]{2,}/)` is truthy: the scan the regex engine does, left
      to right, for a run of two or more dashes or underscores. */
  function HasDoubleDashOrUnderscore(s: string): (r: bool)
    ensures r ==> |s| >= 2
  {
    if |s| < 2 then false
    else (IsDashOrUnderscore(s[0]) && IsDashOrUnderscore(s[1])) || HasDoubleDashOrUnderscore(s[1..])
  }

  lemma {:induction false} DoubleDashOrUnderscoreAt(s: string)
    ensures HasDoubleDashOrUnderscore(s) <==> exists i :: DashPairAt(s, i)
  {
    if |s| >= 2 {
      DoubleDashOrUnderscoreAt(s[1..]);
      forall i | DashPairAt(s, i) && i > 0 ensures DashPairAt(s[1..], i - 1) {}
      if HasDoubleDashOrUnderscore(s) {
        if IsDashOrUnderscore(s[0]) && IsDashOrUnderscore(s[1]) {
          assert DashPairAt(s, 0);
        } else {
          var j :| DashPairAt(s[1..], j);
          assert DashPairAt(s, j + 1);
        }
      }
    }
  }
}
