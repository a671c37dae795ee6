/**
 * The audio player of audio_handler.js around the subtitle engine: `formatTime`, the media
 * URLs read from the content, the play/pause flag `isAudioPlaying` (the strings "true" and
 * "false", as the page keeps it), the subtitle switch and the subtitle display that
 * `updateSubtitles` refreshes on every `timeupdate`.
 */
module AudioHandler {
  import opened Wrappers
  import opened Decimal
  import opened Json
  import opened Srt

  // ---------------------------------------------------------------------------------------
  // `formatTime`, on whole seconds.
  // ---------------------------------------------------------------------------------------

  /** `formatTime(seconds)`: whole minutes, a colon, then the remaining seconds padded to two digits. */
  function FormatTime(seconds: nat): (r: string)
    ensures |r| >= 4 && r[|r| - 3] == ':'
  {
    NatToString(seconds / 60) + ":" + Pad2(seconds % 60)
  }

  /** Reads back an `M:SS` display: canonical minutes, a colon, two digits of seconds below 60. */
  function ReadClock(s: string): (r: Option<nat>)
    ensures r.Some? ==> |s| >= 4 && s[|s| - 3] == ':'
  {
    if |s| >= 4 && s[|s| - 3] == ':' && IsIndexName(s[..|s| - 3]) && AllDigits(s[|s| - 2..])
       && DigitsValue(s[|s| - 2..]) < 60
    then Some(DigitsValue(s[..|s| - 3]) * 60 + DigitsValue(s[|s| - 2..]))
    else None
  }

  /** The display of `formatTime` determines the time it shows. */
  lemma FormatTimeRoundTrip(seconds: nat)
    ensures ReadClock(FormatTime(seconds)) == Some(seconds)
  {
    var minutes, rest := NatToString(seconds / 60), Pad2(seconds % 60);
    var r := FormatTime(seconds);
    assert r[..|r| - 3] == minutes;
    assert r[|r| - 2..] == rest;
    NatToStringRoundTrip(seconds / 60);
  }

  /** Every well-formed display is the `formatTime` of exactly the time it reads as. */
  lemma ReadClockRoundTrip(s: string)
    requires ReadClock(s).Some?
    ensures FormatTime(ReadClock(s).value) == s
  {
    var minutes, rest := s[..|s| - 3], s[|s| - 2..];
    var n := DigitsValue(minutes) * 60 + DigitsValue(rest);
    assert n / 60 == DigitsValue(minutes) && n % 60 == DigitsValue(rest);
    IndexNameRoundTrip(minutes);
    Pad2Digits(rest);
    assert s == minutes + ":" + rest;
  }

  // ---------------------------------------------------------------------------------------
  // The media URLs of the current level.
  // ---------------------------------------------------------------------------------------

  /**
   * `contentData.level[level]?.overview?.context?.<kind>?.[lang]`, when `contentData` is truthy
   * and the result is truthy; nothing otherwise (a missing `contentData.level` throws, which the
   * callers catch, and a falsy URL makes them return).
   */
  function MediaUrl(contentData: Value, level: string, kind: string, lang: string): (r: Option<Value>)
    ensures r.Some? ==> Truthy(contentData) && Truthy(r.value)
  {
    if !Truthy(contentData) then None
    else match Section(contentData, level)
      case None => None
      case Some(section) =>
        match OptionalChain(Some(section), ["overview", "context", kind, lang])
        case None => None
        case Some(url) => if Truthy(url) then Some(url) else None
  }

  /** The URL lies exactly four steps below the section: `overview`, `context`, the kind, the language. */
  lemma MediaUrlPath(contentData: Value, level: string, kind: string, lang: string)
    requires MediaUrl(contentData, level, kind, lang).Some?
    ensures exists section, overview, context, media ::
      && Section(contentData, level) == Some(section)
      && section != JNull && Get(section, "overview") == Some(overview)
      && overview != JNull && Get(overview, "context") == Some(context)
      && context != JNull && Get(context, kind) == Some(media)
      && media != JNull && Get(media, lang) == MediaUrl(contentData, level, kind, lang)
  {
    var url := MediaUrl(contentData, level, kind, lang);
    var section := Section(contentData, level).value;
    ChainStep(section, ["overview", "context", kind, lang], url);
    var overview := Get(section, "overview").value;
    assert ["overview", "context", kind, lang][1..] == ["context", kind, lang];
    ChainStep(overview, ["context", kind, lang], url);
    var context := Get(overview, "context").value;
    assert ["context", kind, lang][1..] == [kind, lang];
    ChainStep(context, [kind, lang], url);
    var media := Get(context, kind).value;
    assert [kind, lang][1..] == [lang];
    ChainStep(media, [lang], url);
  }

  /** A chain that reaches a value passes through a non-null value at its first key. */
  lemma ChainStep(v: Value, keys: seq<string>, r: Option<Value>)
    requires |keys| >= 1 && r.Some? && OptionalChain(Some(v), keys) == r
    ensures v != JNull && Get(v, keys[0]).Some? && OptionalChain(Get(v, keys[0]), keys[1..]) == r
    ensures |keys| > 1 ==> Get(v, keys[0]).value != JNull
  {
  }

  /** Without a level section, or without a truthy `contentData`, there is no media URL. */
  lemma MediaUrlNeedsSection(contentData: Value, level: string, kind: string, lang: string)
    requires !Truthy(contentData) || Section(contentData, level).None? || Section(contentData, level) == Some(JNull)
    ensures MediaUrl(contentData, level, kind, lang).None?
  {
  }

  /** `playAudio`'s URL: `overview.context.audio.<lang>` of the level's section. */
  function AudioUrl(contentData: Value, level: string, lang: string): (r: Option<Value>)
    ensures !Truthy(contentData) ==> r.None?
    ensures r.Some? ==> OptionalChain(Section(contentData, level), ["overview", "context", "audio", lang]) == r
  {
    MediaUrl(contentData, level, "audio", lang)
  }

  /** `loadSubtitles`' URL: `overview.context.subtitles.<lang>` of the level's section. */
  function SubtitleUrl(contentData: Value, level: string, lang: string): (r: Option<Value>)
    ensures !Truthy(contentData) ==> r.None?
    ensures r.Some? ==> OptionalChain(Section(contentData, level), ["overview", "context", "subtitles", lang]) == r
  {
    MediaUrl(contentData, level, "subtitles", lang)
  }

  // ---------------------------------------------------------------------------------------
  // The player's state.
  // ---------------------------------------------------------------------------------------

  /** The module-level state of audio_handler.js and the subtitle container it writes. */
  class AudioPlayer {
    /** `isAudioPlaying`: "true" or "false". */
    var isAudioPlaying: string
    var subtitlesEnabled: bool
    var currentSubtitles: seq<Cue>
    var currentSubtitleIndex: nat
    /** `subtitleContainer.textContent` */
    var subtitleText: string
    /** `subtitleContainer.style.display === 'block'` */
    var subtitleVisible: bool

    /**
     * The flag is one of its two strings; the container is shown and holds text only while
     * subtitles are on. It may be hidden while they are on: a new page rebuilds the container.
     */
    predicate Valid()
      reads this
    {
      && (isAudioPlaying == "true" || isAudioPlaying == "false")
      && (subtitleVisible ==> subtitlesEnabled)
      && (!subtitlesEnabled ==> subtitleText == "")
    }

    /** The globals as the script declares them, and the container as the injected player builds it. */
    constructor()
      ensures Valid()
      ensures isAudioPlaying == "false" && !subtitlesEnabled
      ensures currentSubtitles == [] && currentSubtitleIndex == 0
      ensures subtitleText == "" && !subtitleVisible
    {
      isAudioPlaying := "false";
      subtitlesEnabled := false;
      currentSubtitles := [];
      currentSubtitleIndex := 0;
      subtitleText := "";
      subtitleVisible := false;
    }

    /**
     * `injectAudioPlayer`, called every time a page opens: the template is built anew, so the
     * subtitle container is hidden and empty again, while the module-level variables keep the
     * values the previous page left (a stale "true" flag, subtitles still switched on, the
     * previous page's entries).
     */
    method InjectAudioPlayer()
      requires Valid()
      modifies this
      ensures Valid()
      ensures subtitleText == "" && !subtitleVisible
      ensures isAudioPlaying == old(isAudioPlaying) && subtitlesEnabled == old(subtitlesEnabled)
      ensures currentSubtitles == old(currentSubtitles) && currentSubtitleIndex == old(currentSubtitleIndex)
    {
      subtitleText := "";
      subtitleVisible := false;
    }

    /**
     * `playAudio`, with `played` the outcome of `audioElement.play()`: nothing happens without
     * an audio URL; otherwise the flag becomes "true" when playback starts and "false" when it
     * is refused.
     */
    method PlayAudio(contentData: Value, level: string, lang: string, played: bool)
      requires Valid()
      modifies this
      ensures Valid()
      ensures AudioUrl(contentData, level, lang).None? ==> isAudioPlaying == old(isAudioPlaying)
      ensures AudioUrl(contentData, level, lang).Some? ==> isAudioPlaying == (if played then "true" else "false")
      ensures subtitlesEnabled == old(subtitlesEnabled) && currentSubtitles == old(currentSubtitles)
      ensures currentSubtitleIndex == old(currentSubtitleIndex)
      ensures subtitleText == old(subtitleText) && subtitleVisible == old(subtitleVisible)
    {
      if !Truthy(contentData) {
        return;
      }
      var audioUrl := AudioUrl(contentData, level, lang);
      if audioUrl.None? {
        return;
      }
      if played {
        isAudioPlaying := "true";
      } else {
        isAudioPlaying := "false";
      }
    }

    /** `pauseAudio`: the flag becomes "false". */
    method PauseAudio()
      requires Valid()
      modifies this
      ensures Valid()
      ensures isAudioPlaying == "false"
      ensures subtitlesEnabled == old(subtitlesEnabled) && currentSubtitles == old(currentSubtitles)
      ensures currentSubtitleIndex == old(currentSubtitleIndex)
      ensures subtitleText == old(subtitleText) && subtitleVisible == old(subtitleVisible)
    {
      isAudioPlaying := "false";
    }

    /** The `ended` listener: playback finished, the flag becomes "false". */
    method OnEnded()
      requires Valid()
      modifies this
      ensures Valid()
      ensures isAudioPlaying == "false"
      ensures subtitlesEnabled == old(subtitlesEnabled) && currentSubtitles == old(currentSubtitles)
      ensures currentSubtitleIndex == old(currentSubtitleIndex)
      ensures subtitleText == old(subtitleText) && subtitleVisible == old(subtitleVisible)
    {
      isAudioPlaying := "false";
    }

    /** `toggleAudio`: plays when the flag is "false", pauses otherwise. */
    method ToggleAudio(contentData: Value, level: string, lang: string, played: bool)
      requires Valid()
      modifies this
      ensures Valid()
      ensures old(isAudioPlaying) == "true" ==> isAudioPlaying == "false"
      ensures old(isAudioPlaying) == "false" && AudioUrl(contentData, level, lang).None? ==> isAudioPlaying == "false"
      ensures old(isAudioPlaying) == "false" && AudioUrl(contentData, level, lang).Some? ==>
        isAudioPlaying == (if played then "true" else "false")
      ensures subtitlesEnabled == old(subtitlesEnabled) && currentSubtitles == old(currentSubtitles)
      ensures currentSubtitleIndex == old(currentSubtitleIndex)
      ensures subtitleText == old(subtitleText) && subtitleVisible == old(subtitleVisible)
    {
      if isAudioPlaying == "false" {
        PlayAudio(contentData, level, lang, played);
      } else {
        PauseAudio();
      }
    }

    /**
     * `loadSubtitles`, with `fetched` the body the subtitle request delivered (`None` when the
     * request failed): with a subtitle URL and a body, the entries become `parseSRT` of the body
     * and the index is reset; otherwise nothing changes.
     */
    method LoadSubtitles(contentData: Value, level: string, lang: string, fetched: Option<string>)
      requires Valid()
      modifies this
      ensures Valid()
      ensures SubtitleUrl(contentData, level, lang).Some? && fetched.Some? ==>
        currentSubtitles == ParseSrt(fetched.value) && currentSubtitleIndex == 0
      ensures SubtitleUrl(contentData, level, lang).None? || fetched.None? ==>
        currentSubtitles == old(currentSubtitles) && currentSubtitleIndex == old(currentSubtitleIndex)
      ensures isAudioPlaying == old(isAudioPlaying) && subtitlesEnabled == old(subtitlesEnabled)
      ensures subtitleText == old(subtitleText) && subtitleVisible == old(subtitleVisible)
    {
      if !Truthy(contentData) {
        return;
      }
      var subtitleUrl := MediaUrl(contentData, level, "subtitles", lang);
      if subtitleUrl.None? {
        return;
      }
      match fetched {
        case Some(srtContent) => OnSubtitlesFetched(srtContent);
        case None =>
      }
    }

    /** The `.then` callback of the subtitle request: the entries become `parseSRT` of the body. */
    method OnSubtitlesFetched(srtContent: string)
      requires Valid()
      modifies this
      ensures Valid()
      ensures currentSubtitles == ParseSrt(srtContent) && currentSubtitleIndex == 0
      ensures isAudioPlaying == old(isAudioPlaying) && subtitlesEnabled == old(subtitlesEnabled)
      ensures subtitleText == old(subtitleText) && subtitleVisible == old(subtitleVisible)
    {
      currentSubtitles := ParseSRT(srtContent);
      currentSubtitleIndex := 0;
    }

    /**
     * `toggleSubtitles`: flips the switch; turning it on shows the container and loads the
     * subtitles, turning it off hides the container and clears its text.
     */
    method ToggleSubtitles(contentData: Value, level: string, lang: string, fetched: Option<string>)
      requires Valid()
      modifies this
      ensures Valid()
      ensures subtitlesEnabled == !old(subtitlesEnabled) && subtitleVisible == subtitlesEnabled
      ensures !subtitlesEnabled ==> subtitleText == ""
      ensures !subtitlesEnabled ==>
        currentSubtitles == old(currentSubtitles) && currentSubtitleIndex == old(currentSubtitleIndex)
      ensures subtitlesEnabled ==> subtitleText == old(subtitleText)
      ensures subtitlesEnabled && SubtitleUrl(contentData, level, lang).Some? && fetched.Some? ==>
        currentSubtitles == ParseSrt(fetched.value) && currentSubtitleIndex == 0
      ensures subtitlesEnabled && (SubtitleUrl(contentData, level, lang).None? || fetched.None?) ==>
        currentSubtitles == old(currentSubtitles) && currentSubtitleIndex == old(currentSubtitleIndex)
      ensures isAudioPlaying == old(isAudioPlaying)
    {
      subtitlesEnabled := !subtitlesEnabled;
      if subtitlesEnabled {
        subtitleVisible := true;
        LoadSubtitles(contentData, level, lang, fetched);
      } else {
        subtitleVisible := false;
        subtitleText := "";
      }
    }

    /**
     * `updateSubtitles` at playback time `currentTime` (milliseconds): nothing changes while
     * subtitles are off or none are loaded; otherwise the container shows the text of the first
     * entry covering the time, or nothing.
     */
    method UpdateSubtitles(currentTime: int)
      requires Valid()
      modifies this
      ensures Valid()
      ensures !subtitlesEnabled || currentSubtitles == [] ==> subtitleText == old(subtitleText)
      ensures subtitlesEnabled && currentSubtitles != [] ==>
        subtitleText == match ActiveCue(currentSubtitles, currentTime) case Some(c) => c.text case None => ""
      ensures isAudioPlaying == old(isAudioPlaying) && subtitlesEnabled == old(subtitlesEnabled)
      ensures currentSubtitles == old(currentSubtitles) && currentSubtitleIndex == old(currentSubtitleIndex)
      ensures subtitleVisible == old(subtitleVisible)
    {
      if !subtitlesEnabled || |currentSubtitles| == 0 {
        return;
      }
      var currentSubtitle := FindCurrentSubtitle(currentSubtitles, currentTime);
      match currentSubtitle {
        case Some(subtitle) => subtitleText := subtitle.text;
        case None => subtitleText := "";
      }
    }
  }

  /** The text `updateSubtitles` shows at time `t` for the entries `cues`. */
  function ShownText(cues: seq<Cue>, t: int): (r: string)
    ensures r != "" ==> exists c :: c in cues && Covers(c, t) && c.text == r
    ensures (forall i :: 0 <= i < |cues| ==> !Covers(cues[i], t)) ==> r == ""
  {
    match ActiveCue(cues, t) case Some(c) => c.text case None => ""
  }

  /** Entry `i` is the first one covering time `t`. */
  predicate FirstCovering(cues: seq<Cue>, t: int, i: int) {
    0 <= i < |cues| && Covers(cues[i], t) && forall j :: 0 <= j < i ==> !Covers(cues[j], t)
  }

  /**
   * The text shown is that of the first entry covering the time; the container is empty exactly
   * when no entry covers the time or the first covering one has no text.
   */
  lemma ShownTextIsFirstCovering(cues: seq<Cue>, t: int)
    ensures ShownText(cues, t) != "" ==> exists i :: FirstCovering(cues, t, i) && cues[i].text == ShownText(cues, t)
    ensures ShownText(cues, t) == "" <==>
      (forall i :: 0 <= i < |cues| ==> !Covers(cues[i], t)) || exists i :: FirstCovering(cues, t, i) && cues[i].text == ""
  {
    if ActiveCue(cues, t).Some? {
      ActiveCueIsFirst(cues, t);
      var i :| 0 <= i < |cues| && cues[i] == ActiveCue(cues, t).value && FirstCovering(cues, t, i);
      forall k | FirstCovering(cues, t, k)
        ensures k == i
      {
        FirstCoveringUnique(cues, t, i, k);
      }
    }
  }

  lemma FirstCoveringUnique(cues: seq<Cue>, t: int, i: int, k: int)
    requires FirstCovering(cues, t, i) && FirstCovering(cues, t, k)
    ensures i == k
  {
  }
}
