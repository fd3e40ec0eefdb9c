/** The two string operations of the core library that the font context uses
    on a family list: `str::each_split_char` and `str::trim`. */
module Strings {
  import opened Common

  /** The pieces of `s` between occurrences of `sep`, as
      `str::each_split_char` visits them (empty pieces included). */
  function SplitChar(s: string, sep: char): (r: seq<string>)
    ensures |r| >= 1
    ensures forall i :: 0 <= i < |r| ==> sep !in r[i]
    decreases |s|
  {
    if s == [] then [""]
    else
      var rest := SplitChar(s[1..], sep);
      if s[0] == sep then [""] + rest
      else [[s[0]] + rest[0]] + rest[1..]
  }

  /** The pieces joined back with `sep` between them. */
  function JoinWith(parts: seq<string>, sep: char): string
    requires |parts| >= 1
  {
    if |parts| == 1 then parts[0] else parts[0] + [sep] + JoinWith(parts[1..], sep)
  }

  /** Splitting loses nothing: joining the pieces gives back the string. */
  lemma {:induction false} SplitJoin(s: string, sep: char)
    ensures JoinWith(SplitChar(s, sep), sep) == s
    decreases |s|
  {
    if s != [] {
      var rest := SplitChar(s[1..], sep);
      SplitJoin(s[1..], sep);
      if s[0] == sep {
        assert ([""] + rest)[1..] == rest;
      } else {
        var r := [[s[0]] + rest[0]] + rest[1..];
        if |rest| > 1 {
          assert r[1..] == rest[1..];
        }
      }
    }
  }

  /** A string without the separator is one piece. */
  lemma {:induction false} SplitCharNoSep(s: string, sep: char)
    requires sep !in s
    ensures SplitChar(s, sep) == [s]
    decreases |s|
  {
    if s != [] {
      assert sep !in s[1..];
      SplitCharNoSep(s[1..], sep);
      assert [s[0]] + s[1..] == s;
    }
  }

  /** The first separator ends the first piece; the rest of the string is
      split on its own. */
  lemma {:induction false} SplitCharAt(a: string, b: string, sep: char)
    requires sep !in a
    ensures SplitChar(a + [sep] + b, sep) == [a] + SplitChar(b, sep)
    decreases |a|
  {
    var s := a + [sep] + b;
    if a == [] {
      assert s[1..] == b;
    } else {
      assert s[1..] == a[1..] + [sep] + b;
      assert sep !in a[1..];
      SplitCharAt(a[1..], b, sep);
      assert [a[0]] + a[1..] == a;
    }
  }

  /** The number of whitespace characters `s` starts with. */
  function LeadingWhitespace(s: string): (n: nat)
    ensures n <= |s|
    ensures forall i :: 0 <= i < n ==> IsWhitespaceChar(s[i])
    ensures n < |s| ==> !IsWhitespaceChar(s[n])
  {
    if s == [] || !IsWhitespaceChar(s[0]) then 0 else 1 + LeadingWhitespace(s[1..])
  }

  /** The number of whitespace characters `s` ends with. */
  function TrailingWhitespace(s: string): (n: nat)
    ensures n <= |s|
    ensures forall i :: |s| - n <= i < |s| ==> IsWhitespaceChar(s[i])
    ensures n < |s| ==> !IsWhitespaceChar(s[|s| - n - 1])
  {
    if s == [] || !IsWhitespaceChar(s[|s| - 1]) then 0 else 1 + TrailingWhitespace(s[..|s| - 1])
  }

  /** `str::trim`: `s` without its leading and trailing whitespace. What is
      left starts right after the leading whitespace, is followed only by
      whitespace, and neither starts nor ends with whitespace. */
  function Trim(s: string): (r: string)
    ensures var k := LeadingWhitespace(s);
      k + |r| <= |s| && r == s[k..k + |r|]
    ensures forall i :: LeadingWhitespace(s) + |r| <= i < |s| ==> IsWhitespaceChar(s[i])
    ensures r == [] || (!IsWhitespaceChar(r[0]) && !IsWhitespaceChar(r[|r| - 1]))
  {
    var lo := LeadingWhitespace(s);
    if lo == |s| then []
    else
      var hi := |s| - TrailingWhitespace(s);
      assert lo < hi;
      s[lo..hi]
  }

  /** Trimming leaves nothing exactly when `s` is all whitespace. */
  lemma TrimEmpty(s: string)
    ensures Trim(s) == [] <==> IsWhitespace(s)
  {
    if Trim(s) == [] {
      var k := LeadingWhitespace(s);
      forall i | 0 <= i < |s|
        ensures IsWhitespaceChar(s[i])
      {
      }
    }
  }

  /** A string that neither starts nor ends with whitespace is its own trim;
      in particular trimming twice is trimming once. */
  lemma TrimUnpadded(s: string)
    requires s == [] || (!IsWhitespaceChar(s[0]) && !IsWhitespaceChar(s[|s| - 1]))
    ensures Trim(s) == s
    ensures Trim(Trim(s)) == Trim(s)
  {
    if s != [] {
      assert LeadingWhitespace(s) == 0;
      assert TrailingWhitespace(s) == 0;
    }
  }
}
