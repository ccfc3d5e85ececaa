/** `truncate(str, maxLength)`: the bounded excerpt shown for a feedback's content. */
module Truncation {
  import opened Wrappers
  import opened Strings

  /** The marker appended to a cut string. */
  const Ellipsis: string := "..."

  /** The number of characters `substring(0, maxLength)` keeps: a negative bound counts as 0. */
  function Keep(maxLength: int): nat {
    if maxLength < 0 then 0 else maxLength
  }

  /**
   A missing or empty string becomes "" (no marker); a string no longer than
   `maxLength` comes back unchanged; a longer one is cut to its first
   `maxLength` characters and followed by the ellipsis.
   */
  function Truncate(str: Option<string>, maxLength: int): (r: string)
    ensures Blank(str) ==> r == ""
    ensures !Blank(str) && |str.value| <= maxLength ==> r == str.value
    ensures !Blank(str) && |str.value| > maxLength ==>
      && |r| == Keep(maxLength) + |Ellipsis|
      && r[..Keep(maxLength)] == str.value[..Keep(maxLength)]
      && r[Keep(maxLength)..] == Ellipsis
    ensures |r| <= Keep(maxLength) + |Ellipsis|
  {
    if Blank(str) then ""
    else if |str.value| > maxLength then str.value[..Keep(maxLength)] + Ellipsis
    else str.value
  }

  /**
   The excerpt equals the content exactly when the content fits, or when it is
   already a `maxLength`-character prefix followed by the ellipsis (cutting such a
   string reproduces it).
   */
  lemma TruncateUnchangedIff(s: string, maxLength: nat)
    ensures Truncate(Some(s), maxLength) == s <==>
      |s| <= maxLength || (|s| == maxLength + |Ellipsis| && s[maxLength..] == Ellipsis)
  {
    var r := Truncate(Some(s), maxLength);
    if |s| > maxLength {
      if r == s {
        assert s[maxLength..] == r[maxLength..];
      }
      if |s| == maxLength + |Ellipsis| && s[maxLength..] == Ellipsis {
        assert s == s[..maxLength] + s[maxLength..];
      }
    }
  }

  /** A string one character over budget grows: the excerpt is two characters longer than the content. */
  lemma TruncateCanLengthen(s: string, maxLength: nat)
    requires |s| == maxLength + 1
    ensures |Truncate(Some(s), maxLength)| == |s| + 2
  {
  }
}
