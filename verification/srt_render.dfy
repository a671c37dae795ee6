/**
 * Writing subtitle entries out as a SubRip document: the inverse that `parseSRT` is measured
 * against. Parsing a rendered document gives back exactly the rendered entries.
 */
module SrtRender {
  import opened Wrappers
  import opened Decimal
  import opened JsString
  import opened Srt

  /** The latest time with a two-digit hour field and minutes and seconds below 60: 99:59:59,999. */
  const MaxRenderableMs: nat := 100 * 3600000 - 1

  /** `HH:MM:SS,mmm` for a time in milliseconds. */
  function Timestamp(ms: nat): (ts: string)
    requires ms <= MaxRenderableMs
    ensures |ts| == 12 && TimestampAt(ts, 0)
    ensures forall i :: 0 <= i < |ts| ==> IsDigit(ts[i]) || ts[i] == ':' || ts[i] == ','
  {
    var secs := ms / 1000;
    var mins := secs / 60;
    ParseTimeFields(mins / 60, mins % 60, secs % 60, ms % 1000);
    Pad2(mins / 60) + ":" + Pad2(mins % 60) + ":" + Pad2(secs % 60) + "," + Pad3(ms % 1000)
  }

  /** `parseTime` reads back the time a timestamp was written from. */
  lemma TimestampRoundTrip(ms: nat)
    requires ms <= MaxRenderableMs
    ensures ParseTime(Timestamp(ms)) == ms
  {
    var secs := ms / 1000;
    var mins := secs / 60;
    ParseTimeFields(mins / 60, mins % 60, secs % 60, ms % 1000);
    assert ms == secs * 1000 + ms % 1000;
    assert secs == mins * 60 + secs % 60;
    assert mins == (mins / 60) * 60 + mins % 60;
  }

  /** The time line of an entry. */
  function TimeLine(c: Cue): string
    requires c.start <= MaxRenderableMs && c.end <= MaxRenderableMs
  {
    Timestamp(c.start) + Arrow + Timestamp(c.end)
  }

  /** An entry that can be written out and read back: times within 99:59:59,999, and a text that is one non-empty, trimmed line. */
  predicate Renderable(c: Cue) {
    && c.start <= MaxRenderableMs && c.end <= MaxRenderableMs
    && c.text != [] && IsPlainLine(c.text)
    && !IsWhitespace(c.text[0]) && !IsWhitespace(c.text[|c.text| - 1])
  }

  /** The three lines of a block: sequence number, time line, text. */
  function BlockLinesOf(n: nat, c: Cue): seq<string>
    requires Renderable(c)
  {
    [NatToString(n), TimeLine(c), c.text]
  }

  /** The block for entry number `n`. */
  function RenderBlock(n: nat, c: Cue): string
    requires Renderable(c)
  {
    JoinWith(BlockLinesOf(n, c), "\n")
  }

  function RenderedBlocks(cues: seq<Cue>): (blocks: seq<string>)
    requires forall k :: 0 <= k < |cues| ==> Renderable(cues[k])
    ensures |blocks| == |cues|
  {
    seq(|cues|, k requires 0 <= k < |cues| => RenderBlock(k + 1, cues[k]))
  }

  /** A SubRip document: the blocks, numbered from 1, separated by one empty line. */
  function Render(cues: seq<Cue>): string
    requires forall k :: 0 <= k < |cues| ==> Renderable(cues[k])
  {
    JoinWith(RenderedBlocks(cues), "\n\n")
  }

  /** The unanchored timestamp-pair pattern matches a time line at its very start. */
  lemma TimeLineMatches(c: Cue)
    requires c.start <= MaxRenderableMs && c.end <= MaxRenderableMs
    ensures |TimeLine(c)| == 29 && FindTimeRange(TimeLine(c), 0) == Some(0)
    ensures TimeLine(c)[0..12] == Timestamp(c.start) && TimeLine(c)[17..29] == Timestamp(c.end)
  {
    var a, b := Timestamp(c.start), Timestamp(c.end);
    var tl := TimeLine(c);
    assert tl[0..12] == a && tl[12..17] == Arrow && tl[17..29] == b;
    assert forall i :: 0 <= i < 12 ==> tl[i] == a[i] && tl[17 + i] == b[i];
    assert TimeRangeAt(tl, 0);
  }

  lemma NotBlank(line: string)
    requires line != [] && !IsWhitespace(line[0])
    ensures !IsBlank(line)
  {
  }

  /** None of the three lines of a rendered block is blank: each starts with a character other than white space. */
  lemma BlockLinesNotBlank(n: nat, c: Cue)
    requires Renderable(c)
    ensures forall k :: 0 <= k < 3 ==> !IsBlank(BlockLinesOf(n, c)[k])
  {
    IndexLineShape(n);
    TimeLineShape(c);
    NotBlank(c.text);
  }

  /** The sequence number is one non-blank line. */
  lemma IndexLineShape(n: nat)
    ensures var idx := NatToString(n); idx != [] && IsPlainLine(idx) && !IsBlank(idx)
  {
    var idx := NatToString(n);
    assert IsDigit(idx[0]);
    NotBlank(idx);
    assert forall i :: 0 <= i < |idx| ==> IsDigit(idx[i]);
  }

  /** The time line is one non-blank line. */
  lemma TimeLineShape(c: Cue)
    requires c.start <= MaxRenderableMs && c.end <= MaxRenderableMs
    ensures var tl := TimeLine(c); tl != [] && IsPlainLine(tl) && !IsBlank(tl)
  {
    var tl := TimeLine(c);
    TimeLineMatches(c);
    assert tl[0] == Timestamp(c.start)[0];
    NotBlank(tl);
    forall i | 0 <= i < |tl|
      ensures tl[i] != '\n' && tl[i] != '\r'
    {
      if i < 12 {
        assert tl[i] == Timestamp(c.start)[i];
      } else if i >= 17 {
        assert tl[i] == Timestamp(c.end)[i - 17];
      } else {
        assert tl[i] == Arrow[i - 12];
      }
    }
  }

  /** The non-blank lines of a rendered block are its three lines. */
  lemma RenderedBlockLines(n: nat, c: Cue)
    requires Renderable(c)
    ensures BlockLines(RenderBlock(n, c)) == BlockLinesOf(n, c)
  {
    var lines := BlockLinesOf(n, c);
    ParseRenderedBlockLines(n, c);
    BlockLinesOfJoin(lines);
    BlockLinesNotBlank(n, c);
    NonBlankLinesKeeps(lines);
  }

  /** The three lines of a rendered block parse to the entry. */
  lemma ParseRenderedLines(n: nat, c: Cue)
    requires Renderable(c)
    ensures ParseLines(BlockLinesOf(n, c)) == Some(c)
  {
    var lines := BlockLinesOf(n, c);
    TimeLineMatches(c);
    assert lines[2..] == [c.text];
    TrimKeeps(c.text);
    TimestampRoundTrip(c.start);
    TimestampRoundTrip(c.end);
  }

  /** Every rendered entry reads back as itself. */
  lemma ParseRenderedBlock(n: nat, c: Cue)
    requires Renderable(c)
    ensures ParseBlock(RenderBlock(n, c)) == Some(c)
  {
    RenderedBlockLines(n, c);
    ParseRenderedLines(n, c);
  }

  /** Plain, non-empty lines joined with "\n" make a block the blank-line separator cannot cut. */
  lemma {:induction false} JoinLinesSeparable(lines: seq<string>)
    requires |lines| >= 1
    requires forall k :: 0 <= k < |lines| ==> lines[k] != [] && IsPlainLine(lines[k])
    ensures JoinWith(lines, "\n") != [] && JoinWith(lines, "\n")[0] == lines[0][0]
    ensures IsSeparableBlock(JoinWith(lines, "\n"))
  {
    var l := lines[0];
    if |lines| == 1 {
      assert forall i :: 0 <= i < |l| ==> l[i] != '\n';
    } else {
      var r := JoinWith(lines[1..], "\n");
      JoinLinesSeparable(lines[1..]);
      var s := l + "\n" + r;
      assert JoinWith(lines, "\n") == s;
      assert s[|s| - 1] == r[|r| - 1];
      forall i | 0 <= i < |s| - 1
        ensures !(s[i] == '\n' && s[i + 1] == '\n')
      {
        if i < |l| {
          assert s[i] == l[i] && l[i] in l;
        } else if i == |l| {
          assert s[i + 1] == r[0] == lines[1][0] && lines[1][0] in lines[1];
        } else {
          assert s[i] == r[i - |l| - 1] && s[i + 1] == r[i - |l|];
        }
      }
    }
  }

  /** The first and last characters of a join of non-empty parts. */
  lemma {:induction false} JoinWithEnds(parts: seq<string>, sep: string)
    requires |parts| >= 1
    requires forall k :: 0 <= k < |parts| ==> parts[k] != []
    ensures JoinWith(parts, sep) != []
    ensures JoinWith(parts, sep)[0] == parts[0][0]
    ensures JoinWith(parts, sep)[|JoinWith(parts, sep)| - 1] == parts[|parts| - 1][|parts[|parts| - 1]| - 1]
  {
    if |parts| > 1 {
      JoinWithEnds(parts[1..], sep);
    }
  }

  /** Joining non-empty parts whose outer ends are not white space gives a string that trimming keeps. */
  lemma JoinTrimmed(parts: seq<string>, sep: string)
    requires |parts| >= 1
    requires forall k :: 0 <= k < |parts| ==> parts[k] != []
    requires !IsWhitespace(parts[0][0])
    requires !IsWhitespace(parts[|parts| - 1][|parts[|parts| - 1]| - 1])
    ensures Trim(JoinWith(parts, sep)) == JoinWith(parts, sep)
  {
    JoinWithEnds(parts, sep);
    TrimKeeps(JoinWith(parts, sep));
  }

  /** A rendered block is non-empty, cannot be cut by the blank-line separator, and starts and ends as its first and last lines do. */
  lemma RenderedBlockShape(n: nat, c: Cue)
    requires Renderable(c)
    ensures RenderBlock(n, c) != [] && IsSeparableBlock(RenderBlock(n, c))
    ensures RenderBlock(n, c)[0] == NatToString(n)[0]
    ensures RenderBlock(n, c)[|RenderBlock(n, c)| - 1] == c.text[|c.text| - 1]
  {
    var lines := BlockLinesOf(n, c);
    ParseRenderedBlockLines(n, c);
    JoinLinesSeparable(lines);
    JoinWithEnds(lines, "\n");
  }

  /** The empty document parses to no entries. */
  lemma ParseEmptyDocument()
    ensures ParseSrt("") == []
  {
    assert Blocks("") == [""];
    assert BlockLines("") == [];
    var parsed: seq<Option<Cue>> := [None];
    assert ParseBlocks([""]) == parsed;
    assert parsed[..0] == [];
  }

  /** A rendered block has no whitespace at either end: it starts with a digit and ends as its text does. */
  lemma RenderedBlockTrimmed(n: nat, c: Cue)
    requires Renderable(c)
    ensures RenderBlock(n, c) != []
    ensures !IsWhitespace(RenderBlock(n, c)[0]) && !IsWhitespace(RenderBlock(n, c)[|RenderBlock(n, c)| - 1])
  {
    RenderedBlockShape(n, c);
    assert IsDigit(NatToString(n)[0]);
  }

  /** Entry `k` of a renderable list becomes a block that is non-empty, cannot be cut by the blank-line separator and has no whitespace at either end. */
  lemma RenderedBlockAt(cues: seq<Cue>, k: nat)
    requires forall k :: 0 <= k < |cues| ==> Renderable(cues[k])
    requires k < |cues|
    ensures RenderedBlocks(cues)[k] != [] && IsSeparableBlock(RenderedBlocks(cues)[k])
    ensures !IsWhitespace(RenderedBlocks(cues)[k][0])
    ensures !IsWhitespace(RenderedBlocks(cues)[k][|RenderedBlocks(cues)[k]| - 1])
  {
    var b := RenderBlock(k + 1, cues[k]);
    RenderedBlockShape(k + 1, cues[k]);
    RenderedBlockTrimmed(k + 1, cues[k]);
    assert RenderedBlocks(cues)[k] == b;
  }

  /** Block `k` of a rendered list is non-empty and has no white space at either end. */
  lemma RenderedBlockEdges(cues: seq<Cue>, k: nat)
    requires forall k :: 0 <= k < |cues| ==> Renderable(cues[k])
    requires k < |cues|
    ensures var b := RenderedBlocks(cues)[k]; b != [] && !IsWhitespace(b[0]) && !IsWhitespace(b[|b| - 1])
  {
    var b := RenderedBlocks(cues)[k];
    assert b == RenderBlock(k + 1, cues[k]);
    RenderedBlockTrimmed(k + 1, cues[k]);
  }

  /** Block `k` of a rendered list reads back as entry `k`. */
  lemma ParseRenderedBlockAt(cues: seq<Cue>, k: nat)
    requires forall k :: 0 <= k < |cues| ==> Renderable(cues[k])
    requires k < |cues|
    ensures ParseBlock(RenderedBlocks(cues)[k]) == Some(cues[k])
  {
    var b := RenderedBlocks(cues)[k];
    assert b == RenderBlock(k + 1, cues[k]);
    ParseRenderedBlock(k + 1, cues[k]);
  }

  /** The first rendered block starts without white space. */
  lemma FirstBlockTrimmed(cues: seq<Cue>)
    requires |cues| >= 1
    requires forall k :: 0 <= k < |cues| ==> Renderable(cues[k])
    ensures RenderedBlocks(cues)[0] != [] && !IsWhitespace(RenderedBlocks(cues)[0][0])
  {
    RenderedBlockEdges(cues, 0);
  }

  /** The last rendered block ends without white space. */
  lemma LastBlockTrimmed(cues: seq<Cue>)
    requires |cues| >= 1
    requires forall k :: 0 <= k < |cues| ==> Renderable(cues[k])
    ensures var blocks := RenderedBlocks(cues);
      blocks[|blocks| - 1] != [] && !IsWhitespace(blocks[|blocks| - 1][|blocks[|blocks| - 1]| - 1])
  {
    RenderedBlockEdges(cues, |cues| - 1);
  }

  /** No rendered block is empty. */
  lemma RenderedBlocksNonEmpty(cues: seq<Cue>)
    requires forall k :: 0 <= k < |cues| ==> Renderable(cues[k])
    ensures forall k :: 0 <= k < |cues| ==> RenderedBlocks(cues)[k] != []
  {
    forall k | 0 <= k < |cues|
      ensures RenderedBlocks(cues)[k] != []
    {
      RenderedBlockEdges(cues, k);
    }
  }

  /** A rendered, non-empty document has no whitespace at either end, so trimming keeps it. */
  lemma RenderTrimmed(cues: seq<Cue>)
    requires |cues| >= 1
    requires forall k :: 0 <= k < |cues| ==> Renderable(cues[k])
    ensures Trim(Render(cues)) == Render(cues)
  {
    var blocks := RenderedBlocks(cues);
    RenderedBlocksNonEmpty(cues);
    FirstBlockTrimmed(cues);
    LastBlockTrimmed(cues);
    JoinTrimmed(blocks, "\n\n");
  }

  /** The blocks of a rendered, non-empty document are the rendered blocks. */
  lemma BlocksOfRender(cues: seq<Cue>)
    requires |cues| >= 1
    requires forall k :: 0 <= k < |cues| ==> Renderable(cues[k])
    ensures Blocks(Render(cues)) == RenderedBlocks(cues)
  {
    var blocks := RenderedBlocks(cues);
    RenderTrimmed(cues);
    forall k | 0 <= k < |blocks|
      ensures blocks[k] != [] && IsSeparableBlock(blocks[k])
    {
      RenderedBlockAt(cues, k);
    }
    SplitJoinBlocks(blocks);
  }

  /** Parsing a rendered document gives back exactly the entries it was rendered from, in order. */
  lemma ParseRenderRoundTrip(cues: seq<Cue>)
    requires forall k :: 0 <= k < |cues| ==> Renderable(cues[k])
    ensures ParseSrt(Render(cues)) == cues
  {
    if cues == [] {
      assert Render(cues) == "";
      ParseEmptyDocument();
    } else {
      var blocks := RenderedBlocks(cues);
      BlocksOfRender(cues);
      var parsed := ParseBlocks(blocks);
      forall k | 0 <= k < |parsed|
        ensures parsed[k] == Some(cues[k])
      {
        ParseRenderedBlockAt(cues, k);
      }
      PresentAllSome(parsed);
    }
  }

  /** The three lines of a rendered block are plain and non-empty. */
  lemma ParseRenderedBlockLines(n: nat, c: Cue)
    requires Renderable(c)
    ensures forall j :: 0 <= j < 3 ==> BlockLinesOf(n, c)[j] != [] && IsPlainLine(BlockLinesOf(n, c)[j])
  {
    IndexLineShape(n);
    TimeLineShape(c);
  }
}
