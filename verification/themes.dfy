/**
 Theme-list parsing for a feedback card: the stored comma-separated themes are
 split on ',' and every piece is trimmed; a missing or empty themes field gives
 no themes at all.
 */
module Themes {
  import opened Wrappers
  import opened Strings

  /** The separator between stored themes. */
  const Comma: char := ','

  /** How many times `c` occurs in `s`. */
  function Occurrences(s: string, c: char): nat {
    if s == [] then 0 else (if s[0] == c then 1 else 0) + Occurrences(s[1..], c)
  }

  /** The pieces glued back together with `sep` between neighbours. */
  function Join(parts: seq<string>, sep: char): string {
    if |parts| == 0 then ""
    else if |parts| == 1 then parts[0]
    else parts[0] + [sep] + Join(parts[1..], sep)
  }

  /**
   `s.split(sep)` for a one-character separator: one more piece than there are
   separators, none of them containing the separator, and joining them with the
   separator gives back `s`.
   */
  function Split(s: string, sep: char): (r: seq<string>)
    ensures |r| == Occurrences(s, sep) + 1
    ensures forall i :: 0 <= i < |r| ==> sep !in r[i]
    ensures Join(r, sep) == s
  {
    if s == [] then [""]
    else
      var rest := Split(s[1..], sep);
      if s[0] == sep then
        assert ([""] + rest)[1..] == rest;
        [""] + rest
      else
        var r := [[s[0]] + rest[0]] + rest[1..];
        assert r[1..] == rest[1..];
        assert s == [s[0]] + s[1..];
        r
  }

  /** Splitting a text that starts with a separator-free piece and a separator yields that piece first. */
  lemma {:induction false} SplitLeading(a: string, b: string, sep: char)
    requires sep !in a
    ensures Split(a + [sep] + b, sep) == [a] + Split(b, sep)
    decreases |a|
  {
    if a == [] {
      assert a + [sep] + b == [sep] + b;
      assert ([sep] + b)[1..] == b;
    } else {
      var s := a + [sep] + b;
      assert s[0] == a[0] && s[1..] == a[1..] + [sep] + b;
      SplitLeading(a[1..], b, sep);
      assert [a[0]] + a[1..] == a;
    }
  }

  /** A separator-free piece splits to itself. */
  lemma {:induction false} SplitNoSeparator(a: string, sep: char)
    requires sep !in a
    ensures Split(a, sep) == [a]
    decreases |a|
  {
    if a != [] {
      SplitNoSeparator(a[1..], sep);
      assert [a[0]] + a[1..] == a;
    }
  }

  /** The other round trip: joining separator-free pieces and splitting again recovers the pieces. */
  lemma {:induction false} SplitJoin(parts: seq<string>, sep: char)
    requires |parts| >= 1
    requires forall i :: 0 <= i < |parts| ==> sep !in parts[i]
    ensures Split(Join(parts, sep), sep) == parts
    decreases |parts|
  {
    if |parts| == 1 {
      SplitNoSeparator(parts[0], sep);
    } else {
      SplitJoin(parts[1..], sep);
      SplitLeading(parts[0], Join(parts[1..], sep), sep);
      assert [parts[0]] + parts[1..] == parts;
    }
  }

  /**
   The themes of a card: none for a missing or empty field, otherwise the stored
   text `split` on commas with every piece passed through `trim`.
   */
  function ParseThemes(themes: Option<string>): (r: seq<string>)
    ensures Blank(themes) ==> r == []
    ensures !Blank(themes) ==> |r| == Occurrences(themes.value, Comma) + 1
    ensures !Blank(themes) ==> forall i :: 0 <= i < |r| ==> r[i] == Trim(Split(themes.value, Comma)[i])
  {
    if Blank(themes) then []
    else
      TrimAll(Split(themes.value, Comma))
  }

  /** Every piece passed through `trim`, in order. */
  function TrimAll(pieces: seq<string>): (r: seq<string>)
    ensures |r| == |pieces|
    ensures forall i :: 0 <= i < |pieces| ==> r[i] == Trim(pieces[i])
  {
    seq(|pieces|, i requires 0 <= i < |pieces| => Trim(pieces[i]))
  }

  /** Trimming every piece changes nothing when every piece is already trimmed. */
  lemma TrimAllOfTrimmed(pieces: seq<string>)
    requires forall i :: 0 <= i < |pieces| ==> Trimmed(pieces[i])
    ensures TrimAll(pieces) == pieces
  {
    var r := TrimAll(pieces);
    forall i | 0 <= i < |pieces|
      ensures r[i] == pieces[i]
    {
      TrimIdempotent(pieces[i]);
    }
  }

  /**
   Every parsed theme is clean: it holds no comma and neither starts nor ends with
   whitespace.
   */
  lemma ParsedThemesAreClean(themes: Option<string>)
    ensures forall t :: t in ParseThemes(themes) ==> Comma !in t && Trimmed(t)
  {
    var r := ParseThemes(themes);
    if !Blank(themes) {
      var pieces := Split(themes.value, Comma);
      forall i | 0 <= i < |r|
        ensures Comma !in r[i] && Trimmed(r[i])
      {
        TrimKeepsOut(pieces[i], Comma);
      }
    }
  }

  /** Trimming never introduces a character the untrimmed text lacked. */
  lemma TrimKeepsOut(p: string, c: char)
    requires c !in p
    ensures c !in Trim(p)
  {
    var a, b :| 0 <= a <= b <= |p| && Trim(p) == p[a..b] && AllSpace(p[..a]) && AllSpace(p[b..]);
  }

  /**
   Parsing inverts writing: themes that hold no comma and are already trimmed,
   stored joined by commas, parse back to the same list in the same order.
   */
  lemma ParseThemesRoundTrip(ts: seq<string>)
    requires |ts| >= 1 && Join(ts, Comma) != ""
    requires forall i :: 0 <= i < |ts| ==> Comma !in ts[i] && Trimmed(ts[i])
    ensures ParseThemes(Some(Join(ts, Comma))) == ts
  {
    var stored := Join(ts, Comma);
    SplitJoin(ts, Comma);
    assert ParseThemes(Some(stored)) == TrimAll(Split(stored, Comma));
    TrimAllOfTrimmed(ts);
  }
}
