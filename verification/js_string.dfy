/**
 * The pieces of the JavaScript string library the subtitle parser relies on:
 * `String.prototype.trim`, `String.prototype.split` with the two regular expressions
 * `/\r?\n/` and `/\r?\n\r?\n/`, and `Array.prototype.join` on strings.
 */
module JsString {
  import opened Wrappers

  /** The WhiteSpace and LineTerminator code points of ECMAScript (sections 12.2 and 12.3 of ECMA-262), which `trim` removes. */
  predicate IsWhitespace(c: char) {
    || ('\t' <= c <= '\r')  // tab, line feed, vertical tab, form feed, carriage return
    || c == ' ' || c == '\U{00A0}' || c == '\U{1680}'
    || ('\U{2000}' <= c <= '\U{200A}')
    || c == '\U{2028}' || c == '\U{2029}' || c == '\U{202F}' || c == '\U{205F}'
    || c == '\U{3000}' || c == '\U{FEFF}'
  }

  predicate AllWhitespace(s: string) {
    forall i :: 0 <= i < |s| ==> IsWhitespace(s[i])
  }

  /** Drops the leading white space: the result is a suffix of `s` that does not start with white space. */
  function TrimStart(s: string): (r: string)
    ensures |r| <= |s| && r == s[|s| - |r|..]
    ensures AllWhitespace(s[..|s| - |r|])
    ensures r == [] || !IsWhitespace(r[0])
  {
    if s != [] && IsWhitespace(s[0]) then
      var r := TrimStart(s[1..]);
      assert s[..|s| - |r|] == [s[0]] + s[1..][..|s[1..]| - |r|];
      r
    else s
  }

  /** Drops the trailing white space: the result is a prefix of `s` that does not end with white space. */
  function TrimEnd(s: string): (r: string)
    ensures |r| <= |s| && r == s[..|r|]
    ensures AllWhitespace(s[|r|..])
    ensures r == [] || !IsWhitespace(r[|r| - 1])
  {
    if s != [] && IsWhitespace(s[|s| - 1]) then
      var r := TrimEnd(s[..|s| - 1]);
      assert s[|r|..] == s[..|s| - 1][|r|..] + [s[|s| - 1]];
      r
    else s
  }

  /** `s.trim()` */
  function Trim(s: string): string {
    TrimEnd(TrimStart(s))
  }

  /**
   * `trim()` keeps the middle `s[i..j]` of `s`, removing only white space before `i` and after
   * `j`, and what it keeps neither starts nor ends with white space.
   */
  lemma TrimSpec(s: string)
    ensures exists i, j :: 0 <= i <= j <= |s| && Trim(s) == s[i..j] && AllWhitespace(s[..i]) && AllWhitespace(s[j..])
    ensures Trim(s) == [] || (!IsWhitespace(Trim(s)[0]) && !IsWhitespace(Trim(s)[|Trim(s)| - 1]))
  {
    var t := TrimStart(s);
    var r := TrimEnd(t);
    var i := |s| - |t|;
    TrimMiddle(s, t, r, i);
    if r != [] {
      assert r[0] == t[0];
    }
  }

  lemma TrimMiddle(s: string, t: string, r: string, i: int)
    requires t == TrimStart(s) && r == TrimEnd(t) && i == |s| - |t|
    ensures 0 <= i <= i + |r| <= |s| && r == s[i..i + |r|]
    ensures AllWhitespace(s[..i]) && AllWhitespace(s[i + |r|..])
  {
    assert t == s[i..];
    assert r == s[i..i + |r|];
    assert s[i + |r|..] == t[|r|..];
  }

  /** `s.trim() === ''` holds exactly when every character of `s` is white space. */
  lemma TrimEmptyIff(s: string)
    ensures Trim(s) == [] <==> AllWhitespace(s)
  {
    var t := TrimStart(s);
    if Trim(s) == [] {
      assert s == s[..|s| - |t|] + t;
      assert AllWhitespace(t) by {
        assert t[0..] == t;
      }
    }
  }

  /** A string that neither starts nor ends with white space is left alone by `trim`. */
  lemma TrimKeeps(s: string)
    requires s == [] || (!IsWhitespace(s[0]) && !IsWhitespace(s[|s| - 1]))
    ensures Trim(s) == s
  {
  }

  /** The two regular expressions the subtitle parser splits on. */
  datatype Separator =
    | LineBreak   // /\r?\n/
    | BlankLine   // /\r?\n\r?\n/

  /** Length of the match of `/\r?\n/` anchored at position `i` of `s`, or 0 when there is none. */
  function LineBreakAt(s: string, i: nat): (n: nat)
    requires i <= |s|
    ensures i + n <= |s|
    ensures n > 0 ==> s[i + n - 1] == '\n'
  {
    if i < |s| && s[i] == '\n' then 1
    else if i + 1 < |s| && s[i] == '\r' && s[i + 1] == '\n' then 2
    else 0
  }

  /**
   * Length of the match of the separator anchored at position `i`, or 0. The greedy `\r?` never
   * needs to backtrack: at each position at most one of "\r\n" and "\n" can start.
   */
  function MatchAt(s: string, i: nat, sep: Separator): (n: nat)
    requires i <= |s|
    ensures i + n <= |s|
  {
    match sep
    case LineBreak => LineBreakAt(s, i)
    case BlankLine =>
      var a := LineBreakAt(s, i);
      if a == 0 then 0
      else
        var b := LineBreakAt(s, i + a);
        if b == 0 then 0 else a + b
  }

  /** The leftmost position at or after `q` where the separator matches. */
  function FindSeparator(s: string, sep: Separator, q: nat): (r: Option<nat>)
    requires q <= |s|
    ensures r.Some? ==> q <= r.value < |s| && MatchAt(s, r.value, sep) > 0
    ensures r.Some? ==> forall j :: q <= j < r.value ==> MatchAt(s, j, sep) == 0
    ensures r.None? <==> forall j :: q <= j < |s| ==> MatchAt(s, j, sep) == 0
    decreases |s| - q
  {
    if q == |s| then None
    else if MatchAt(s, q, sep) > 0 then Some(q)
    else FindSeparator(s, sep, q + 1)
  }

  /**
   * `s.split(regex)` (section 22.2.6.14 of ECMA-262): the text before the leftmost match, then
   * the split of what follows the match. A string with no match, the empty one included, gives `[s]`.
   */
  function Split(s: string, sep: Separator): (pieces: seq<string>)
    ensures |pieces| >= 1
    decreases |s|
  {
    match FindSeparator(s, sep, 0)
    case None => [s]
    case Some(q) => [s[..q]] + Split(s[q + MatchAt(s, q, sep)..], sep)
  }

  /** `parts.join(sep)` */
  function JoinWith(parts: seq<string>, sep: string): string {
    if |parts| == 0 then ""
    else if |parts| == 1 then parts[0]
    else parts[0] + sep + JoinWith(parts[1..], sep)
  }

  /** Splitting at the first line break yields no piece that still holds a line feed. */
  lemma {:induction false} SplitLinesHaveNoLineFeed(s: string)
    ensures forall k :: 0 <= k < |Split(s, LineBreak)| ==> '\n' !in Split(s, LineBreak)[k]
    decreases |s|
  {
    match FindSeparator(s, LineBreak, 0)
    case None =>
      forall j | 0 <= j < |s|
        ensures s[j] != '\n'
      {
        assert MatchAt(s, j, LineBreak) == 0;
      }
    case Some(q) =>
      forall j | 0 <= j < q
        ensures s[j] != '\n'
      {
        assert MatchAt(s, j, LineBreak) == 0;
      }
      SplitLinesHaveNoLineFeed(s[q + MatchAt(s, q, LineBreak)..]);
  }

  /** The leftmost match is the first position with a match when none comes before it. */
  lemma FindSeparatorAt(s: string, sep: Separator, q: nat)
    requires q < |s| && MatchAt(s, q, sep) > 0
    requires forall j :: 0 <= j < q ==> MatchAt(s, j, sep) == 0
    ensures FindSeparator(s, sep, 0) == Some(q)
  {
  }

  /** A line with neither a line feed nor a carriage return. */
  predicate IsPlainLine(l: string) {
    '\n' !in l && '\r' !in l
  }

  lemma NoLineBreakInside(l: string, s: string)
    requires IsPlainLine(l)
    requires |l| <= |s| && s[..|l|] == l
    ensures forall j :: 0 <= j < |l| ==> MatchAt(s, j, LineBreak) == 0
  {
    forall j | 0 <= j < |l|
      ensures MatchAt(s, j, LineBreak) == 0
    {
      assert s[j] == l[j] && l[j] in l;
    }
  }

  /** Joining plain lines with "\n" and splitting on `/\r?\n/` gives the lines back. */
  lemma {:induction false} SplitJoinLines(lines: seq<string>)
    requires |lines| >= 1
    requires forall k :: 0 <= k < |lines| ==> IsPlainLine(lines[k])
    ensures Split(JoinWith(lines, "\n"), LineBreak) == lines
  {
    var l := lines[0];
    if |lines| == 1 {
      NoLineBreakInside(l, l);
    } else {
      var rest := JoinWith(lines[1..], "\n");
      var s := l + "\n" + rest;
      assert JoinWith(lines, "\n") == s;
      assert s[..|l|] == l;
      NoLineBreakInside(l, s);
      FindSeparatorAt(s, LineBreak, |l|);
      assert s[|l| + 1..] == rest;
      SplitJoinLines(lines[1..]);
      assert lines == [l] + lines[1..];
    }
  }

  /**
   * A block the blank-line separator never matches inside, whatever follows it: no carriage
   * return, no two line feeds in a row, no trailing line feed.
   */
  predicate IsSeparableBlock(b: string) {
    && '\r' !in b
    && (b == [] || b[|b| - 1] != '\n')
    && forall i :: 0 <= i < |b| - 1 ==> !(b[i] == '\n' && b[i + 1] == '\n')
  }

  lemma NoBlankLineInside(b: string, s: string)
    requires IsSeparableBlock(b)
    requires |b| <= |s| && s[..|b|] == b
    requires |s| > |b| ==> s[|b|] == '\n'
    ensures forall j :: 0 <= j < |b| ==> MatchAt(s, j, BlankLine) == 0
  {
    forall j | 0 <= j < |b|
      ensures MatchAt(s, j, BlankLine) == 0
    {
      assert s[j] == b[j] && b[j] in b;
      if j + 1 < |b| {
        assert s[j + 1] == b[j + 1] && b[j + 1] in b;
      }
    }
  }

  /** Joining separable blocks with "\n\n" and splitting on `/\r?\n\r?\n/` gives the blocks back. */
  lemma {:induction false} SplitJoinBlocks(blocks: seq<string>)
    requires |blocks| >= 1
    requires forall k :: 0 <= k < |blocks| ==> IsSeparableBlock(blocks[k])
    ensures Split(JoinWith(blocks, "\n\n"), BlankLine) == blocks
  {
    var b := blocks[0];
    if |blocks| == 1 {
      NoBlankLineInside(b, b);
    } else {
      var rest := JoinWith(blocks[1..], "\n\n");
      var s := b + "\n\n" + rest;
      assert JoinWith(blocks, "\n\n") == s;
      assert s[..|b|] == b;
      NoBlankLineInside(b, s);
      assert MatchAt(s, |b|, BlankLine) == 2;
      FindSeparatorAt(s, BlankLine, |b|);
      assert s[|b| + 2..] == rest;
      SplitJoinBlocks(blocks[1..]);
      assert blocks == [b] + blocks[1..];
    }
  }
}
