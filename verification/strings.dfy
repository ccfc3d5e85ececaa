/**
 ASCII stand-ins for the JavaScript string built-ins the dashboard relies on:
 `toLowerCase`, `trim`, the falsy test `!str` and the default operator `str || d`.
 */
module Strings {
  import opened Wrappers

  /** `!str` in JavaScript: a missing field and the empty string are both falsy. */
  predicate Blank(o: Option<string>) {
    o.None? || o.value == ""
  }

  /** `o || fallback`: the field's own text when it is non-empty, otherwise the fallback. */
  function OrElse(o: Option<string>, fallback: string): (r: string)
    ensures Blank(o) ==> r == fallback
    ensures !Blank(o) ==> r == o.value
    ensures r == "" ==> fallback == ""
  {
    if Blank(o) then fallback else o.value
  }

  // ---------------------------------------------------------------- case

  predicate IsUpper(c: char) { 'A' <= c <= 'Z' }

  predicate IsLower(c: char) { 'a' <= c <= 'z' }

  /** `toLowerCase` on one character, restricted to ASCII letters. */
  function LowerChar(c: char): char {
    if IsUpper(c) then (c as int + 32) as char else c
  }

  /** The upper-case partner of an ASCII lower-case letter. */
  function UpperChar(c: char): char {
    if IsLower(c) then (c as int - 32) as char else c
  }

  /** `toLowerCase` on a whole string: lowers every character in place. */
  function Lower(s: string): (r: string)
    ensures |r| == |s|
    ensures forall i :: 0 <= i < |s| ==> r[i] == LowerChar(s[i])
  {
    if s == [] then [] else [LowerChar(s[0])] + Lower(s[1..])
  }

  /** A word made only of lower-case ASCII letters, such as "positive" or "critical". */
  predicate IsLowerWord(w: string) {
    forall i :: 0 <= i < |w| ==> IsLower(w[i])
  }

  /**
   Reference notion of "spelled as `w`, in any mixture of cases": the same length
   and, position by position, either `w`'s letter or its capital.
   */
  predicate SameIgnoringCase(s: string, w: string) {
    |s| == |w| && forall i :: 0 <= i < |s| ==> s[i] == w[i] || s[i] == UpperChar(w[i])
  }

  /** Lowering a string yields the lower-case word `w` exactly when the string spells `w` in any case. */
  lemma LowerEqualsIff(s: string, w: string)
    requires IsLowerWord(w)
    ensures Lower(s) == w <==> SameIgnoringCase(s, w)
  {
    if Lower(s) == w {
      forall i | 0 <= i < |s|
        ensures s[i] == w[i] || s[i] == UpperChar(w[i])
      {
        assert LowerChar(s[i]) == w[i];
      }
    }
    if SameIgnoringCase(s, w) {
      var l := Lower(s);
      forall i | 0 <= i < |s|
        ensures l[i] == w[i]
      {
        assert IsLower(w[i]);
      }
      assert l == w;
    }
  }

  // ---------------------------------------------------------------- whitespace

  /** The ASCII characters `String.prototype.trim` strips: tab, LF, VT, FF, CR and space. */
  predicate IsSpace(c: char) {
    c == ' ' || c == '\t' || c == '\n' || c == '\U{B}' || c == '\U{C}' || c == '\r'
  }

  /** Neither end of `t` is whitespace. */
  predicate Trimmed(t: string) {
    t == [] || (!IsSpace(t[0]) && !IsSpace(t[|t| - 1]))
  }

  predicate AllSpace(s: string) {
    forall i :: 0 <= i < |s| ==> IsSpace(s[i])
  }

  /** The length of the whitespace run `s` starts with. */
  function LeadingSpaces(s: string): (n: nat)
    ensures n <= |s|
    ensures forall i :: 0 <= i < n ==> IsSpace(s[i])
    ensures n < |s| ==> !IsSpace(s[n])
  {
    if s != [] && IsSpace(s[0]) then 1 + LeadingSpaces(s[1..]) else 0
  }

  /** The length of the whitespace run `s` ends with. */
  function TrailingSpaces(s: string): (n: nat)
    ensures n <= |s|
    ensures forall i :: |s| - n <= i < |s| ==> IsSpace(s[i])
    ensures n < |s| ==> !IsSpace(s[|s| - n - 1])
  {
    if s != [] && IsSpace(s[|s| - 1]) then 1 + TrailingSpaces(s[..|s| - 1]) else 0
  }

  /**
   `trim`: the result is the slice of `s` left after removing a run of whitespace
   from each end, and neither of its ends is whitespace.
   */
  function Trim(s: string): (r: string)
    ensures exists i, j :: 0 <= i <= j <= |s| && r == s[i..j] && AllSpace(s[..i]) && AllSpace(s[j..])
    ensures Trimmed(r)
  {
    var i := LeadingSpaces(s);
    var rest := s[i..];
    var t := TrailingSpaces(rest);
    var j := |s| - t;
    var r := s[i..j];
    assert r != [] ==> r[0] == s[i] && r[|r| - 1] == rest[|rest| - t - 1];
    assert AllSpace(s[..i]);
    assert AllSpace(s[j..]) by {
      forall k | 0 <= k < |s| - j
        ensures IsSpace(s[j..][k])
      {
        assert s[j..][k] == rest[|rest| - t + k];
      }
    }
    r
  }

  /** Trimming is the identity on text whose ends are not whitespace, so trimming twice changes nothing more. */
  lemma TrimIdempotent(s: string)
    ensures Trimmed(s) ==> Trim(s) == s
    ensures Trim(Trim(s)) == Trim(s)
  {
    TrimOfTrimmed(s);
    TrimOfTrimmed(Trim(s));
  }

  lemma TrimOfTrimmed(s: string)
    ensures Trimmed(s) ==> Trim(s) == s
  {
    if Trimmed(s) {
      assert LeadingSpaces(s) == 0;
      assert s[0..] == s;
      assert TrailingSpaces(s) == 0;
    }
  }
}
