/**
  The three operations of Go's `strings` package that the bot's command
  dispatcher relies on: `HasPrefix`, `TrimPrefix` and `TrimSpace`.
  A Go string is a byte sequence; here a string is a sequence of Unicode
  scalar values, which is what `TrimSpace` looks at once it decodes UTF-8.
 */
module Strings {

  /** One row of a Unicode range table: the characters `lo` through `hi`. */
  datatype CharRange = CharRange(lo: char, hi: char)

  /** Go's `unicode.White_Space` table, range by range. */
  const WhiteSpaceTable: seq<CharRange> := [
    CharRange('\t', '\r'), CharRange(' ', ' '),
    CharRange('\U{0085}', '\U{0085}'), CharRange('\U{00A0}', '\U{00A0}'),
    CharRange('\U{1680}', '\U{1680}'), CharRange('\U{2000}', '\U{200A}'),
    CharRange('\U{2028}', '\U{2029}'), CharRange('\U{202F}', '\U{202F}'),
    CharRange('\U{205F}', '\U{205F}'), CharRange('\U{3000}', '\U{3000}')]

  /** The characters `unicode.IsSpace` accepts by its own switch below U+0100:
      tab, newline, vertical tab, form feed, carriage return, space, next
      line and no-break space. */
  const Latin1Spaces: set<char> :=
    {'\t', '\n', '\U{000B}', '\U{000C}', '\r', ' ', '\U{0085}', '\U{00A0}'}

  /** Go's `unicode.IsSpace`: the Latin-1 spaces plus the other characters
      with the Unicode White_Space property. */
  predicate IsSpace(c: char): (b: bool)
    ensures c <= '\U{00FF}' ==> (b <==> c in Latin1Spaces)
  {
    || ('\t' <= c <= '\r')          // tab, newline, vertical tab, form feed, carriage return
    || c == ' '
    || c == '\U{0085}'              // next line
    || c == '\U{00A0}'              // no-break space
    || c == '\U{1680}'
    || ('\U{2000}' <= c <= '\U{200A}')
    || c == '\U{2028}' || c == '\U{2029}'
    || c == '\U{202F}' || c == '\U{205F}' || c == '\U{3000}'
  }

  /** `c` lies in one of the ranges of `table`. */
  predicate InTable(table: seq<CharRange>, c: char) {
    exists k :: 0 <= k < |table| && table[k].lo <= c <= table[k].hi
  }

  /** IsSpace is exactly membership in the White_Space table. */
  lemma IsSpaceIsWhiteSpace(c: char)
    ensures IsSpace(c) <==> InTable(WhiteSpaceTable, c)
  {
    var t := WhiteSpaceTable;
    if IsSpace(c) {
      var k :=
        if c <= '\r' then 0 else if c == ' ' then 1 else if c == '\U{0085}' then 2
        else if c == '\U{00A0}' then 3 else if c == '\U{1680}' then 4
        else if c <= '\U{200A}' then 5 else if c <= '\U{2029}' then 6
        else if c == '\U{202F}' then 7 else if c == '\U{205F}' then 8 else 9;
      assert t[k].lo <= c <= t[k].hi;
    }
    if InTable(t, c) {
      var k :| 0 <= k < |t| && t[k].lo <= c <= t[k].hi;
      assert k in {0, 1, 2, 3, 4, 5, 6, 7, 8, 9};
    }
  }

  /** Every character of `s` is a space. */
  predicate AllSpace(s: string) {
    forall i :: 0 <= i < |s| ==> IsSpace(s[i])
  }

  /** Neither the first nor the last character of `s` is a space. */
  predicate NoEdgeSpace(s: string) {
    |s| == 0 || (!IsSpace(s[0]) && !IsSpace(s[|s| - 1]))
  }

  /** `strings.HasPrefix`: `s` is at least as long as `prefix` and starts with it. */
  predicate HasPrefix(s: string, prefix: string): (b: bool)
    ensures b <==> |prefix| <= |s| && forall k :: 0 <= k < |prefix| ==> s[k] == prefix[k]
  {
    |prefix| <= |s| && s[..|prefix|] == prefix
  }

  /** `strings.TrimPrefix`: `s` without the leading `prefix`, or `s` itself
      when it does not start with `prefix`. */
  function TrimPrefix(s: string, prefix: string): (r: string)
    ensures HasPrefix(s, prefix) ==> prefix + r == s
    ensures !HasPrefix(s, prefix) ==> r == s
  {
    if HasPrefix(s, prefix) then s[|prefix|..] else s
  }

  /** `strings.TrimLeftFunc(s, unicode.IsSpace)`. */
  function TrimLeft(s: string): (r: string)
    ensures |r| <= |s| && r == s[|s| - |r|..]
    ensures AllSpace(s[..|s| - |r|])
    ensures |r| == 0 || !IsSpace(r[0])
  {
    if |s| > 0 && IsSpace(s[0]) then TrimLeft(s[1..]) else s
  }

  /** `strings.TrimRightFunc(s, unicode.IsSpace)`. */
  function TrimRight(s: string): (r: string)
    ensures |r| <= |s| && r == s[..|r|]
    ensures AllSpace(s[|r|..])
    ensures |r| == 0 || !IsSpace(r[|r| - 1])
  {
    if |s| > 0 && IsSpace(s[|s| - 1]) then TrimRight(s[..|s| - 1]) else s
  }

  /** `strings.TrimSpace`: `s` with all leading and trailing spaces removed. */
  function TrimSpace(s: string): (r: string)
    ensures |r| <= |s|
    ensures NoEdgeSpace(r)
  {
    TrimRight(TrimLeft(s))
  }

  /** TrimLeft leaves a string that starts with a non-space alone. */
  lemma {:induction false} TrimLeftFixed(s: string)
    requires |s| == 0 || !IsSpace(s[0])
    ensures TrimLeft(s) == s
  {
  }

  /** TrimRight leaves a string that ends with a non-space alone. */
  lemma {:induction false} TrimRightFixed(s: string)
    requires |s| == 0 || !IsSpace(s[|s| - 1])
    ensures TrimRight(s) == s
  {
  }

  /** Trimming is idempotent: a trimmed string is its own trim. */
  lemma TrimSpaceIdempotent(s: string)
    ensures TrimSpace(TrimSpace(s)) == TrimSpace(s)
  {
    var t := TrimSpace(s);
    TrimLeftFixed(t);
    TrimRightFixed(t);
  }

  /** TrimLeft of `w + s` where `w` is all spaces is TrimLeft of `s`. */
  lemma {:induction false} TrimLeftSkipsSpaces(w: string, s: string)
    requires AllSpace(w)
    ensures TrimLeft(w + s) == TrimLeft(s)
    decreases |w|
  {
    if |w| > 0 {
      assert (w + s)[1..] == w[1..] + s;
      TrimLeftSkipsSpaces(w[1..], s);
    } else {
      assert w + s == s;
    }
  }

  /** TrimRight of `s + w` where `w` is all spaces is TrimRight of `s`. */
  lemma {:induction false} TrimRightSkipsSpaces(s: string, w: string)
    requires AllSpace(w)
    ensures TrimRight(s + w) == TrimRight(s)
    decreases |w|
  {
    if |w| > 0 {
      assert (s + w)[..|s + w| - 1] == s + w[..|w| - 1];
      TrimRightSkipsSpaces(s, w[..|w| - 1]);
    } else {
      assert s + w == s;
    }
  }

  /** Reference characterisation of TrimSpace: the unique slice `s[i..j]`
      with only spaces outside it and none at its edges. */
  lemma TrimSpaceCharacterised(s: string, i: nat, j: nat)
    requires i <= j <= |s|
    requires AllSpace(s[..i]) && AllSpace(s[j..])
    requires NoEdgeSpace(s[i..j])
    ensures TrimSpace(s) == s[i..j]
  {
    var m := s[i..j];
    assert s == s[..i] + (m + s[j..]);
    TrimLeftSkipsSpaces(s[..i], m + s[j..]);
    if |m| > 0 {
      TrimLeftFixed(m + s[j..]);
    } else {
      assert m + s[j..] == [] + s[j..];
      TrimLeftSkipsSpaces(s[j..], []);
      assert s[j..] + [] == s[j..];
      TrimLeftFixed([]);
    }
    assert TrimLeft(s) == m + s[j..] || (|m| == 0 && TrimLeft(s) == []);
    TrimRightSkipsSpaces(m, s[j..]);
    TrimRightFixed(m);
  }

  /** The bounds of the trimmed text, found over characters by scanning in
      from both ends: advance `start` past leading spaces, then pull `stop`
      back past trailing ones. The slice `s[start..stop]` equals
      `TrimSpace(s)`. (Go scans bytes with an ASCII fast path and hands
      other text to `TrimFunc`; the bounds it finds are the same.) */
  method TrimSpaceBounds(s: string) returns (start: nat, stop: nat)
    ensures start <= stop <= |s|
    ensures AllSpace(s[..start]) && AllSpace(s[stop..])
    ensures NoEdgeSpace(s[start..stop])
    ensures s[start..stop] == TrimSpace(s)
  {
    start := 0;
    while start < |s| && IsSpace(s[start])
      invariant start <= |s|
      invariant AllSpace(s[..start])
    {
      start := start + 1;
    }
    stop := |s|;
    while stop > start && IsSpace(s[stop - 1])
      invariant start <= stop <= |s|
      invariant AllSpace(s[stop..])
    {
      stop := stop - 1;
    }
    TrimSpaceCharacterised(s, start, stop);
  }
}
