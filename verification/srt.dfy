/**
 * The SubRip (SRT) subtitle engine of audio_handler.js: `parseTime`, `parseSRT`, and the
 * first-match lookup that `updateSubtitles` runs on every `timeupdate` of the audio element.
 * All times are whole milliseconds.
 */
module Srt {
  import opened Wrappers
  import opened Decimal
  import opened JsString

  /** One subtitle entry `{start, end, text}`; `start` and `end` in milliseconds. */
  datatype Cue = Cue(start: nat, end: nat, text: string)

  /** The latest time a timestamp can spell: 99:99:99,999 (no field is range-checked). */
  const MaxTimestampMs: nat := 99 * 3600000 + 99 * 60000 + 99 * 1000 + 999

  /** The arrow between the two timestamps of a time line. */
  const Arrow: string := " --> "

  /** `\d{2}:\d{2}:\d{2},\d{3}` matches the twelve characters of `s` from position `i`. */
  predicate TimestampAt(s: string, i: nat) {
    && i + 12 <= |s|
    && IsDigit(s[i]) && IsDigit(s[i + 1]) && s[i + 2] == ':'
    && IsDigit(s[i + 3]) && IsDigit(s[i + 4]) && s[i + 5] == ':'
    && IsDigit(s[i + 6]) && IsDigit(s[i + 7]) && s[i + 8] == ','
    && IsDigit(s[i + 9]) && IsDigit(s[i + 10]) && IsDigit(s[i + 11])
  }

  /** The whole pattern `(\d{2}:\d{2}:\d{2},\d{3}) --> (\d{2}:\d{2}:\d{2},\d{3})` matches from position `i`. */
  predicate TimeRangeAt(s: string, i: nat) {
    i + 29 <= |s| && TimestampAt(s, i) && s[i + 12..i + 17] == Arrow && TimestampAt(s, i + 17)
  }

  /** `String.prototype.match` with the unanchored pattern: the leftmost position at or after `from` where it matches. */
  function FindTimeRange(s: string, from: nat): (r: Option<nat>)
    ensures r.Some? ==> from <= r.value && TimeRangeAt(s, r.value)
    ensures r.Some? ==> forall j :: from <= j < r.value ==> !TimeRangeAt(s, j)
    ensures r.None? <==> forall j :: from <= j ==> !TimeRangeAt(s, j)
    decreases |s| - from
  {
    if from + 29 > |s| then None
    else if TimeRangeAt(s, from) then Some(from)
    else FindTimeRange(s, from + 1)
  }

  /**
   * `parseTime` on a captured timestamp `HH:MM:SS,mmm`: splitting at ',' and ':' yields the four
   * digit fields, each read by `parseInt`; the time is `HH*3600 + MM*60 + SS + mmm/1000` seconds,
   * here in milliseconds. Minutes and seconds are not range-checked.
   */
  function ParseTime(ts: string): (ms: nat)
    requires |ts| == 12 && TimestampAt(ts, 0)
    ensures ms <= MaxTimestampMs
  {
    assert AllDigits(ts[0..2]) && AllDigits(ts[3..5]) && AllDigits(ts[6..8]) && AllDigits(ts[9..12]);
    DigitsValue(ts[0..2]) * 3600000 + DigitsValue(ts[3..5]) * 60000
      + DigitsValue(ts[6..8]) * 1000 + DigitsValue(ts[9..12])
  }

  /** `parseTime` of `HH:MM:SS,mmm` is `HH*3600000 + MM*60000 + SS*1000 + mmm` milliseconds. */
  lemma ParseTimeFields(h: nat, m: nat, s: nat, f: nat)
    requires h < 100 && m < 100 && s < 100 && f < 1000
    ensures var ts := Pad2(h) + ":" + Pad2(m) + ":" + Pad2(s) + "," + Pad3(f);
      |ts| == 12 && TimestampAt(ts, 0) && ParseTime(ts) == h * 3600000 + m * 60000 + s * 1000 + f
  {
    var ts := Pad2(h) + ":" + Pad2(m) + ":" + Pad2(s) + "," + Pad3(f);
    assert ts[0..2] == Pad2(h) && ts[3..5] == Pad2(m) && ts[6..8] == Pad2(s) && ts[9..12] == Pad3(f);
  }

  /** `line.trim() === ''`: the line is blank exactly when every character is white space. */
  predicate IsBlank(line: string) {
    AllWhitespace(line)
  }

  /** `lines.filter(line => line.trim() !== '')` */
  function NonBlankLines(lines: seq<string>): (r: seq<string>)
    ensures |r| <= |lines|
    ensures forall k :: 0 <= k < |r| ==> !IsBlank(r[k])
  {
    if lines == [] then []
    else (if IsBlank(lines[0]) then [] else [lines[0]]) + NonBlankLines(lines[1..])
  }

  /** The non-blank lines of one block: `block.split(/\r?\n/).filter(...)`. */
  function BlockLines(block: string): seq<string> {
    NonBlankLines(Split(block, LineBreak))
  }

  /**
   * One block of `parseSRT`, given its non-blank lines: with at least three, the second must
   * contain the timestamp pair; the text is the remaining lines joined with single spaces and
   * trimmed. Anything else is skipped (None).
   */
  function ParseLines(lines: seq<string>): (r: Option<Cue>)
    ensures r.Some? ==> r.value.start <= MaxTimestampMs && r.value.end <= MaxTimestampMs
    ensures r.Some? ==> |lines| >= 3
  {
    if |lines| < 3 then None
    else
      var timeLine := lines[1];
      match FindTimeRange(timeLine, 0)
      case None => None
      case Some(k) =>
        Some(Cue(ParseTime(timeLine[k..k + 12]), ParseTime(timeLine[k + 17..k + 29]),
                 Trim(JoinWith(lines[2..], " "))))
  }

  /** The entry one block yields, if any. */
  function ParseBlock(block: string): (r: Option<Cue>)
    ensures r.Some? ==> |BlockLines(block)| >= 3 && FindTimeRange(BlockLines(block)[1], 0).Some?
    ensures r.Some? ==> r.value.start <= MaxTimestampMs && r.value.end <= MaxTimestampMs
  {
    ParseLines(BlockLines(block))
  }

  /** The entries of the blocks that parsed, in block order; a skipped block contributes nothing. */
  function Present<T>(parsed: seq<Option<T>>): (r: seq<T>)
    ensures |r| <= |parsed|
  {
    if parsed == [] then []
    else
      Present(parsed[..|parsed| - 1])
        + (match parsed[|parsed| - 1] case Some(x) => [x] case None => [])
  }

  /** The parse of every block, position by position. */
  function ParseBlocks(blocks: seq<string>): (r: seq<Option<Cue>>)
    ensures |r| == |blocks|
  {
    seq(|blocks|, k requires 0 <= k < |blocks| => ParseBlock(blocks[k]))
  }

  /** The blocks of a document: `srtContent.trim().split(/\r?\n\r?\n/)`. */
  function Blocks(content: string): (blocks: seq<string>)
    ensures |blocks| >= 1
  {
    Split(Trim(content), BlankLine)
  }

  /** What `parseSRT` returns for `content`. */
  function ParseSrt(content: string): (r: seq<Cue>)
    ensures |r| <= |Blocks(content)|
  {
    Present(ParseBlocks(Blocks(content)))
  }

  /** `parseSRT`: walks the blocks in order and pushes the entry of every block that parses. */
  method ParseSRT(srtContent: string) returns (subtitles: seq<Cue>)
    ensures subtitles == ParseSrt(srtContent)
  {
    var blocks := Blocks(srtContent);
    ghost var parsed := ParseBlocks(blocks);
    subtitles := [];
    for i := 0 to |blocks|
      invariant subtitles == Present(parsed[..i])
    {
      var entry := ParseBlock(blocks[i]);
      assert parsed[i] == entry;
      PresentStep(parsed, i);
      match entry {
        case Some(cue) =>
          subtitles := subtitles + [cue];
        case None =>
      }
    }
    assert parsed[..|blocks|] == parsed;
  }

  /** Keeping the parsed entries of one more block appends that block's entry, if any. */
  lemma PresentStep<T>(parsed: seq<Option<T>>, i: nat)
    requires i < |parsed|
    ensures Present(parsed[..i + 1]) == Present(parsed[..i]) + (match parsed[i] case Some(x) => [x] case None => [])
  {
    assert parsed[..i + 1][..i] == parsed[..i];
  }

  /** Keeping the parsed entries of a concatenation concatenates the results: order is kept, blocks are independent. */
  lemma {:induction false} PresentAppend<T>(a: seq<Option<T>>, b: seq<Option<T>>)
    ensures Present(a + b) == Present(a) + Present(b)
    decreases |b|
  {
    if b == [] {
      assert a + b == a;
    } else {
      var b' := b[..|b| - 1];
      assert (a + b)[..|a + b| - 1] == a + b';
      assert (a + b)[|a + b| - 1] == b[|b| - 1];
      PresentAppend(a, b');
    }
  }

  /** An entry is kept exactly when some block parsed to it. */
  lemma {:induction false} PresentMember<T>(parsed: seq<Option<T>>, x: T)
    ensures x in Present(parsed) <==> exists k :: 0 <= k < |parsed| && parsed[k] == Some(x)
  {
    if parsed != [] {
      var init, last := parsed[..|parsed| - 1], parsed[|parsed| - 1];
      var tail := match last case Some(y) => [y] case None => [];
      assert Present(parsed) == Present(init) + tail;
      assert x in tail <==> last == Some(x);
      PresentMember(init, x);
      if exists k :: 0 <= k < |init| && init[k] == Some(x) {
        var k :| 0 <= k < |init| && init[k] == Some(x);
        assert parsed[k] == init[k];
      }
      if exists k :: 0 <= k < |parsed| && parsed[k] == Some(x) {
        var k :| 0 <= k < |parsed| && parsed[k] == Some(x);
        if k < |init| {
          assert init[k] == parsed[k];
        }
      }
    }
  }

  /** Nothing is kept exactly when no block parsed: an unparseable document yields the empty list. */
  lemma {:induction false} PresentEmptyIff<T>(parsed: seq<Option<T>>)
    ensures Present(parsed) == [] <==> forall k :: 0 <= k < |parsed| ==> parsed[k].None?
  {
    if parsed != [] {
      var init := parsed[..|parsed| - 1];
      PresentEmptyIff(init);
      if Present(parsed) == [] {
        forall k | 0 <= k < |parsed|
          ensures parsed[k].None?
        {
          if k < |init| {
            assert init[k] == parsed[k];
          }
        }
      }
    }
  }

  /** When every block parses, entry k comes from block k. */
  lemma {:induction false} PresentAllSome<T>(parsed: seq<Option<T>>)
    requires forall k :: 0 <= k < |parsed| ==> parsed[k].Some?
    ensures |Present(parsed)| == |parsed|
    ensures forall k :: 0 <= k < |parsed| ==> Present(parsed)[k] == parsed[k].value
  {
    if parsed != [] {
      var init := parsed[..|parsed| - 1];
      PresentAllSome(init);
      assert forall k :: 0 <= k < |init| ==> init[k] == parsed[k];
    }
  }

  /** Every parsed start and end fits the field widths: at most 99:99:99,999. */
  lemma ParseSrtBounded(content: string)
    ensures forall c :: c in ParseSrt(content) ==> c.start <= MaxTimestampMs && c.end <= MaxTimestampMs
  {
    var parsed := ParseBlocks(Blocks(content));
    forall c | c in ParseSrt(content)
      ensures c.start <= MaxTimestampMs && c.end <= MaxTimestampMs
    {
      PresentMember(parsed, c);
      var k :| 0 <= k < |parsed| && parsed[k] == Some(c);
      assert ParseLines(BlockLines(Blocks(content)[k])) == Some(c);
    }
  }

  /** A block yields an entry exactly when it has three non-blank lines and the second contains a timestamp pair. */
  lemma ParseLinesIff(lines: seq<string>)
    ensures ParseLines(lines).Some? <==> |lines| >= 3 && exists k :: TimeRangeAt(lines[1], k)
  {
    if |lines| >= 3 && exists k :: TimeRangeAt(lines[1], k) {
      var k :| TimeRangeAt(lines[1], k);
      assert FindTimeRange(lines[1], 0).Some?;
    }
  }

  lemma {:induction false} NonBlankLinesAppend(a: seq<string>, b: seq<string>)
    ensures NonBlankLines(a + b) == NonBlankLines(a) + NonBlankLines(b)
  {
    if a != [] {
      assert (a + b)[1..] == a[1..] + b;
      NonBlankLinesAppend(a[1..], b);
    } else {
      assert a + b == b;
    }
  }

  /** A list without blank lines passes the filter unchanged. */
  lemma {:induction false} NonBlankLinesKeeps(lines: seq<string>)
    requires forall k :: 0 <= k < |lines| ==> !IsBlank(lines[k])
    ensures NonBlankLines(lines) == lines
  {
    if lines != [] {
      NonBlankLinesKeeps(lines[1..]);
    }
  }

  /** The non-blank lines of a block written as plain lines joined with "\n". */
  lemma BlockLinesOfJoin(lines: seq<string>)
    requires |lines| >= 1
    requires forall j :: 0 <= j < |lines| ==> IsPlainLine(lines[j])
    ensures BlockLines(JoinWith(lines, "\n")) == NonBlankLines(lines)
  {
    SplitJoinLines(lines);
  }

  /** A single blank line is filtered out. */
  lemma NonBlankLinesOfBlank(blank: string)
    requires IsBlank(blank)
    ensures NonBlankLines([blank]) == []
  {
    assert [blank][1..] == [];
  }

  /** Inserting a blank line between two lists of lines leaves their non-blank lines unchanged. */
  lemma NonBlankLinesSkipBlank(a: seq<string>, b: seq<string>, blank: string)
    requires IsBlank(blank)
    ensures NonBlankLines(a + [blank] + b) == NonBlankLines(a + b)
  {
    NonBlankLinesAppend(a + [blank], b);
    NonBlankLinesAppend(a, [blank]);
    NonBlankLinesOfBlank(blank);
    NonBlankLinesAppend(a, b);
  }

  /**
   * Blank lines inside a block never change which line is taken as the time line, nor the
   * text: inserting a white-space-only line between any two lines of a block leaves its parse
   * unchanged.
   */
  lemma BlankLineIgnored(a: seq<string>, b: seq<string>, blank: string)
    requires a + b != []
    requires forall j :: 0 <= j < |a| ==> IsPlainLine(a[j])
    requires forall j :: 0 <= j < |b| ==> IsPlainLine(b[j])
    requires IsPlainLine(blank) && AllWhitespace(blank)
    ensures ParseBlock(JoinWith(a + [blank] + b, "\n")) == ParseBlock(JoinWith(a + b, "\n"))
  {
    var longer, shorter := a + [blank] + b, a + b;
    forall j | 0 <= j < |longer|
      ensures IsPlainLine(longer[j])
    {
      if j < |a| {
        assert longer[j] == a[j];
      } else if j > |a| {
        assert longer[j] == b[j - |a| - 1];
      }
    }
    forall j | 0 <= j < |shorter|
      ensures IsPlainLine(shorter[j])
    {
      if j < |a| {
        assert shorter[j] == a[j];
      } else {
        assert shorter[j] == b[j - |a|];
      }
    }
    BlockLinesOfJoin(longer);
    BlockLinesOfJoin(shorter);
    NonBlankLinesSkipBlank(a, b, blank);
  }

  /** Whether an entry's closed interval contains the playback time. */
  predicate Covers(c: Cue, t: int)
    ensures Covers(c, t) ==> c.start <= c.end
  {
    c.start <= t <= c.end
  }

  /**
   * The entry `updateSubtitles` shows at time `t`: the first in list order whose interval
   * `[start, end]` contains `t`, or none. An entry with `end < start` is never shown.
   */
  function ActiveCue(cues: seq<Cue>, t: int): (r: Option<Cue>)
    ensures r.Some? ==> r.value in cues && Covers(r.value, t) && r.value.start <= r.value.end
    ensures r.None? <==> forall i :: 0 <= i < |cues| ==> !Covers(cues[i], t)
  {
    if cues == [] then None
    else if Covers(cues[0], t) then Some(cues[0])
    else ActiveCue(cues[1..], t)
  }

  /** The first covering entry is the one shown, whatever follows it. */
  lemma {:induction false} ActiveCueFirstMatch(cues: seq<Cue>, i: nat, t: int)
    requires i < |cues| && Covers(cues[i], t)
    requires forall j :: 0 <= j < i ==> !Covers(cues[j], t)
    ensures ActiveCue(cues, t) == Some(cues[i])
  {
    if i > 0 {
      ActiveCueFirstMatch(cues[1..], i - 1, t);
    }
  }

  /** Conversely, the entry shown is at the first covering position. */
  lemma {:induction false} ActiveCueIsFirst(cues: seq<Cue>, t: int)
    requires ActiveCue(cues, t).Some?
    ensures exists i :: (0 <= i < |cues| && cues[i] == ActiveCue(cues, t).value && Covers(cues[i], t)
      && forall j :: 0 <= j < i ==> !Covers(cues[j], t))
  {
    if !Covers(cues[0], t) {
      ActiveCueIsFirst(cues[1..], t);
      var i :| 0 <= i < |cues[1..]| && cues[1..][i] == ActiveCue(cues[1..], t).value && Covers(cues[1..][i], t)
        && forall j :: 0 <= j < i ==> !Covers(cues[1..][j], t);
      assert cues[i + 1] == cues[1..][i];
      assert forall j :: 1 <= j < i + 1 ==> cues[j] == cues[1..][j - 1];
    } else {
      assert cues[0] == ActiveCue(cues, t).value;
    }
  }

  /** Earlier entries take precedence over later ones: lookup in `a + b` tries `a` first. */
  lemma {:induction false} ActiveCueAppend(a: seq<Cue>, b: seq<Cue>, t: int)
    ensures ActiveCue(a + b, t) == if ActiveCue(a, t).Some? then ActiveCue(a, t) else ActiveCue(b, t)
  {
    if a == [] {
      assert a + b == b;
    } else {
      assert (a + b)[1..] == a[1..] + b;
      ActiveCueAppend(a[1..], b, t);
    }
  }

  /** The lookup loop of `updateSubtitles`: scans in order and stops at the first match. */
  method FindCurrentSubtitle(subtitles: seq<Cue>, currentTime: int) returns (current: Option<Cue>)
    ensures current == ActiveCue(subtitles, currentTime)
  {
    current := None;
    for i := 0 to |subtitles|
      invariant forall j :: 0 <= j < i ==> !Covers(subtitles[j], currentTime)
    {
      var subtitle := subtitles[i];
      if currentTime >= subtitle.start && currentTime <= subtitle.end {
        current := Some(subtitle);
        ActiveCueFirstMatch(subtitles, i, currentTime);
        break;
      }
    }
  }
}
