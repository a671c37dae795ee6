# HowTo web object: subtitles, start-up loader and text variables

This project models the logic inside the browser scripts of the HowTo e-learning web object.
Each script runs inside the course player's page. There are three pieces:

- **Subtitle engine** (`audio_handler.js`).
  - `parseSRT` turns a SubRip document into `{start, end, text}` entries. `parseTime` reads one
    `HH:MM:SS,mmm` timestamp.
  - The loop in `updateSubtitles` picks the first entry whose closed interval contains the
    playback time.
  - Around them sit `formatTime`, the play/pause flag `isAudioPlaying` (the strings `"true"` and
    `"false"`), the `subtitlesEnabled` switch and the subtitle container's text and visibility.
- **Start-up loader** (`startUp.js`).
  - It fetches `content.json`, retrying a failed fetch. It then loads `image_handler.js`,
    `text_handler.js` and `audio_handler.js` one after the other.
  - It counts every unit that finished, successfully or not, in `loadedCount`. It sets
    `javascriptLoadedState` once the count reaches `numLibs = 4`.
- **Text variables** (`text_handler.js`).
  - `extractTextContent` flattens the section of the current level into variables named by
    `_`-joined key paths. It takes the target-language member of every object that has one.
  - `loadTextContentFlexible` passes each variable to the player's `SetVar`.

All times are whole milliseconds: `HH*3600000 + MM*60000 + SS*1000 + mmm`, which is exact for the
three-digit fraction. `formatTime` works on whole seconds.

The files are:

| file | module | contents |
|---|---|---|
| `wrappers.dfy` | `Wrappers` | `Option` |
| `decimal.dfy` | `Decimal` | digits, `parseInt`, `String(n)`, `padStart(2, '0')`, array index names |
| `js_string.dfy` | `JsString` | `trim`, `split` on `/\r?\n/` and `/\r?\n\r?\n/`, `join` |
| `srt.dfy` | `Srt` | `parseTime`, `parseSRT` (function and method), the subtitle lookup (function and method) |
| `srt_render.dfy` | `SrtRender` | writing entries out as SubRip, the inverse `parseSRT` is proved against |
| `json.dfy` | `Json` | JSON values and the JavaScript reads made on them: `v[key]`, `Object.keys`, truthiness, `?.` |
| `text_handler.dfy` | `TextHandler` | `extractTextContent` (function and recursive method), text paths, the `SetVar` loop |
| `audio_handler.dfy` | `AudioHandler` | `formatTime`, media URLs, the `AudioPlayer` class holding the module-level state |
| `startup.dfy` | `StartUp` | the loader as a state machine (`Step`) and the `Loader` class whose callbacks perform it |

Three operations change state step by step, so each is a method proved against a function.

- **`Srt.ParseSRT`** equals `Srt.ParseSrt`.
- **`Srt.FindCurrentSubtitle`** equals `Srt.ActiveCue`.
- **`TextHandler.ExtractTextContent`** equals `TextHandler.ExtractFrom`.

Each function has its own properties: a round trip, first-match behaviour, and soundness and
completeness against text paths.

The page's module-level variables are classes whose methods state their whole new state:

- `AudioHandler.AudioPlayer`
- `StartUp.Loader`
- `TextHandler.Player`

Browser callbacks are methods. An asynchronous outcome is a parameter: the result of `play()`,
the body of a subtitle `fetch`, or how a content `fetch` settled. Each `Loader` callback is proved
to perform `StartUp.Step` on the loader's state. The start-up properties are lemmas about `Step`
and `Run`.

Four behaviours of the scripts are easy to miss:

- **A failed fetch that is retried counts nothing.** Only success, or the failure of the last
  attempt, increments `loadedCount` (startUp.js:68-88).
- **`parseSRT` never checks `start <= end`.** An entry with `end < start` is kept. It is never
  shown, because no time lies in its interval (`Srt.ActiveCue`).
- **A JSON `null` body is stored as is.** A successful fetch whose body is `null` sets
  `contentData` to `null` and still counts the unit.
- **A new page keeps the old subtitle state.** `injectAudioPlayer` runs every time a page opens
  (audio_handler.js:11-14). It rebuilds a hidden, empty subtitle container, but the module-level
  `isAudioPlaying`, `subtitlesEnabled` and `currentSubtitles` keep the previous page's values
  (`AudioHandler.AudioPlayer.InjectAudioPlayer`). With subtitles on, the container then stays
  hidden while `updateSubtitles` writes the previous page's entries into it, and the first CC click
  switches subtitles off. A stale `"true"` flag makes the first play click pause.

## Model

| member | source | states |
|---|---|---|
| Decimal.DigitsValue | audio_handler.js:474-477 | `parseInt` of a run of decimal digits is below 10 to the power of its length |
| Decimal.NatToString | audio_handler.js:357 | `String(n)` is a non-empty run of digits without a leading zero |
| Decimal.NatToStringRoundTrip | audio_handler.js:357 | `parseInt(String(n)) == n` |
| Decimal.Pad2 | audio_handler.js:357 | `padStart(2, '0')` of a number below 100 is two digits reading back the number |
| Decimal.Pad2Digits | audio_handler.js:357 | any two digits are `padStart(2, '0')` of their value |
| Decimal.IndexOfName | text_handler.js:33 | a property name denotes an array index exactly when it is canonical (digits, no leading zero) |
| Decimal.IndexNameRoundTrip | text_handler.js:33 | a canonical index name is `String` of its value |
| Decimal.IndexOfNameIff | text_handler.js:33 | the name denotes index `i` exactly when it is `String(i)` |
| JsString.TrimStart | audio_handler.js:427 | removes exactly the leading white space: what remains is a suffix not starting with white space |
| JsString.TrimEnd | audio_handler.js:439 | removes exactly the trailing white space: what remains is a prefix not ending with white space |
| JsString.TrimSpec | audio_handler.js:427 | `trim()` is the slice left after removing white space at both ends, and neither starts nor ends with white space |
| JsString.TrimEmptyIff | audio_handler.js:432 | `line.trim() === ''` exactly when every character is white space |
| JsString.TrimKeeps | audio_handler.js:427 | trimming a string with no white space at either end leaves it unchanged |
| JsString.FindSeparator | audio_handler.js:427 | the leftmost match of the separator pattern from a position, or none when nothing matches |
| JsString.Split | audio_handler.js:427 | `split` always yields at least one piece |
| JsString.SplitLinesHaveNoLineFeed | audio_handler.js:432 | no piece of a split at `/\r?\n/` contains a line feed |
| JsString.SplitJoinLines | audio_handler.js:432 | splitting lines joined with `\n` gives back the lines, when none contains a line break |
| JsString.SplitJoinBlocks | audio_handler.js:427 | splitting blocks joined with an empty line gives back the blocks, when no block contains one |
| Srt.FindTimeRange | audio_handler.js:444 | `match` finds the leftmost position where the timestamp-pair pattern matches, or reports that none does |
| Srt.ParseTime | audio_handler.js:471-479 | a parsed timestamp is at most 99:99:99,999 |
| Srt.ParseTimeFields | audio_handler.js:471-479 | `parseTime` of `HH:MM:SS,mmm` is `HH*3600000 + MM*60000 + SS*1000 + mmm` ms |
| Srt.NonBlankLines | audio_handler.js:432 | the filter keeps no blank line and never adds one |
| Srt.ParseLines | audio_handler.js:434-458 | an entry needs at least three non-blank lines; its times fit the field widths |
| Srt.ParseLinesIff | audio_handler.js:434-458 | a block yields an entry exactly when it has three non-blank lines and the second contains a timestamp pair |
| Srt.Blocks | audio_handler.js:427 | a document always has at least one block |
| Srt.ParseBlock | audio_handler.js:432-455 | a block yields an entry only when it has at least three non-blank lines and the second holds a timestamp pair; its times are at most 99:99:99,999 |
| Srt.Present | audio_handler.js:430-462 | the entries pushed are never more than the blocks |
| Srt.ParseSrt | audio_handler.js:422-466 | `parseSRT` returns at most one entry per block |
| Srt.ParseSRT | audio_handler.js:422-466 | the `forEach`/`push` loop returns `ParseSrt`, at most one entry per block |
| Srt.PresentStep | audio_handler.js:430-455 | one more block appends that block's entry, if it has one |
| Srt.PresentAppend | audio_handler.js:430-455 | blocks are independent and their entries keep block order |
| Srt.PresentMember | audio_handler.js:430-455 | an entry is in the result exactly when some block parsed to it |
| Srt.PresentEmptyIff | audio_handler.js:430-462 | the result is empty exactly when no block parses: an unparseable document yields `[]` |
| Srt.PresentAllSome | audio_handler.js:430-455 | when every block parses, entry `k` comes from block `k` |
| Srt.ParseSrtBounded | audio_handler.js:444-455 | every parsed start and end is at most 99:99:99,999 |
| Srt.NonBlankLinesAppend | audio_handler.js:432 | filtering distributes over concatenation |
| Srt.NonBlankLinesKeeps | audio_handler.js:432 | filtering lines that are all non-blank changes nothing |
| Srt.NonBlankLinesSkipBlank | audio_handler.js:432 | a blank line anywhere is dropped by the filter |
| Srt.BlankLineIgnored | audio_handler.js:432-439 | inserting a blank line into a block never changes its entry, so it cannot shift which line is the time line |
| Srt.Covers | audio_handler.js:500 | only an entry with `start <= end` covers any time |
| Srt.ActiveCue | audio_handler.js:496-505 | the selected entry is in the list, covers the time and has `start <= end`; none exactly when no entry covers the time |
| Srt.ActiveCueFirstMatch | audio_handler.js:496-505 | the first covering entry is selected, whatever follows it |
| Srt.ActiveCueIsFirst | audio_handler.js:496-505 | the selected entry sits at the first covering position |
| Srt.ActiveCueAppend | audio_handler.js:496-505 | earlier entries take precedence over later ones |
| Srt.FindCurrentSubtitle | audio_handler.js:496-505 | the `for` loop with `break` returns `ActiveCue` |
| SrtRender.Timestamp | audio_handler.js:444 | a written timestamp matches `\d{2}:\d{2}:\d{2},\d{3}` |
| SrtRender.TimestampRoundTrip | audio_handler.js:471-479 | `parseTime` reads back the time a timestamp was written from |
| SrtRender.ParseRenderedBlock | audio_handler.js:432-455 | one written block parses back to its entry |
| SrtRender.JoinWithEnds | audio_handler.js:439 | `join(sep)` of non-empty parts is non-empty, begins with the first part's first character and ends with the last part's last character |
| SrtRender.ParseEmptyDocument | audio_handler.js:427-434 | an empty document yields no entry |
| SrtRender.BlocksOfRender | audio_handler.js:427 | the blocks of a written document are the written blocks |
| SrtRender.ParseRenderRoundTrip | audio_handler.js:422-466 | `parseSRT` of a written list of entries gives that list back |
| Json.Lookup | text_handler.js:38 | the first member with the key; none exactly when no member has it |
| Json.Truthy | text_handler.js:16 | `null` is falsy; a string is truthy exactly when it is not empty |
| Json.IsObject | text_handler.js:36 | `typeof v === 'object' && v !== null` holds only of truthy, non-null values |
| Json.Get | text_handler.js:36-40 | `v[key]`: an object's member, an array's `length` or element, nothing on scalars |
| Json.Members | text_handler.js:33 | `Object.keys` with values: an object's members, one per array element, none for scalars; a non-object has no object members |
| Json.GetMember | text_handler.js:33-38 | each key `Object.keys` enumerates reads back its paired value |
| Json.Section | text_handler.js:22 | `contentData.level[level]` is present only when `contentData.level` is neither missing nor `null` |
| Json.OptionalChain | audio_handler.js:263 | `?.` on `undefined` or `null` gives `undefined`; no keys leave the value |
| TextHandler.TextPath | text_handler.js:33-45 | a text path starts from an object or array |
| TextHandler.PathValue | text_handler.js:38-40 | the value at a text path's end is the target-language member of some object |
| TextHandler.ExtractTextContent | text_handler.js:30-50 | the recursive walk with its local dictionary returns `ExtractFrom` |
| TextHandler.VisitAccumulates | text_handler.js:40-44 | a member only adds to the variables so far, later entries overriding |
| TextHandler.VisitFound | text_handler.js:38-40 | an object with the target language contributes that member under the current path, and nothing deeper |
| TextHandler.VisitNested | text_handler.js:41-44 | an object without it contributes everything found inside it, merged over the variables so far |
| TextHandler.ExtractLoopAccumulates | text_handler.js:33-47 | the `forEach` only adds to the variables it starts from |
| TextHandler.ExtractLoopNonObject | text_handler.js:36 | a value that is not an object yields no variable |
| TextHandler.VisitSound | text_handler.js:36-44 | every variable member `i` contributes is named by a text path through that member and holds the value at its end |
| TextHandler.ExtractLoopStep | text_handler.js:33-47 | member `i`'s variables are overridden by those of later members |
| TextHandler.ExtractSound | text_handler.js:30-50 | every variable is named by a text path and holds the target-language value at its end |
| TextHandler.ExtractComplete | text_handler.js:30-50 | every text path names a variable |
| TextHandler.PathNameShape | text_handler.js:34 | a variable name starts with the `_`-joined path of its first key; a top-level key has no prefix |
| TextHandler.ExtractNamesPrefixed | text_handler.js:34 | under a prefix, every variable name is `prefix_…` |
| TextHandler.ExtractConcat | text_handler.js:33-44 | on a name collision the entry produced later in key order wins |
| TextHandler.Player.SetVar | text_handler.js:57 | sets one variable and records the call |
| TextHandler.TextVariables | text_handler.js:16-27 | variables exist exactly when `contentData` is truthy and the level's section is present and truthy |
| TextHandler.Keys | text_handler.js:56 | `Object.keys` of the result lists every variable exactly once |
| TextHandler.SetEachOverrides | text_handler.js:56-59 | setting variables one by one overrides the store with the variables named |
| TextHandler.SetEachAll | text_handler.js:56-59 | setting every variable at least once overrides the store with all of them |
| TextHandler.SetVariables | text_handler.js:56-59 | every extracted variable is passed to `SetVar` exactly once, with its value |
| TextHandler.LoadTextContentFlexible | text_handler.js:6-67 | nothing is set when a guard stops it; otherwise every variable is set exactly once |
| AudioHandler.FormatTime | audio_handler.js:354-358 | `M:SS`: a colon before the last two characters |
| AudioHandler.FormatTimeRoundTrip | audio_handler.js:354-358 | the display of `formatTime` determines the time it shows |
| AudioHandler.ReadClockRoundTrip | audio_handler.js:354-358 | every well-formed `M:SS` display is `formatTime` of the time it reads as |
| AudioHandler.MediaUrl | audio_handler.js:263-268 | a URL is found only with a truthy `contentData`, and it is truthy |
| AudioHandler.MediaUrlPath | audio_handler.js:263 | the URL lies at `overview.context.<kind>.<language>` of the level's section, through non-null values |
| AudioHandler.MediaUrlNeedsSection | audio_handler.js:257-263 | without a truthy `contentData` or a non-null level section there is no URL |
| AudioHandler.AudioUrl | audio_handler.js:263 | the audio URL is the value of `overview.context.audio.<language>` in the level's section |
| AudioHandler.SubtitleUrl | audio_handler.js:394 | the subtitle URL is the value of `overview.context.subtitles.<language>` in the level's section |
| AudioHandler.AudioPlayer.InjectAudioPlayer | audio_handler.js:11-137 | the rebuilt container is hidden and empty; the module-level variables keep their values |
| AudioHandler.AudioPlayer.constructor | audio_handler.js:5-9 | the globals start as `"false"`, off, `[]`, 0; the container starts empty and hidden |
| AudioHandler.AudioPlayer.PlayAudio | audio_handler.js:247-293 | without an audio URL nothing changes; otherwise the flag follows the outcome of `play()` |
| AudioHandler.AudioPlayer.PauseAudio | audio_handler.js:299-313 | the flag becomes `"false"`; nothing else changes |
| AudioHandler.AudioPlayer.OnEnded | audio_handler.js:203-211 | the flag becomes `"false"` when playback ends |
| AudioHandler.AudioPlayer.ToggleAudio | audio_handler.js:224-241 | plays when the flag is `"false"`, pauses otherwise |
| AudioHandler.AudioPlayer.OnSubtitlesFetched | audio_handler.js:405-409 | the entries become `parseSRT` of the body and the index 0; nothing else changes |
| AudioHandler.AudioPlayer.LoadSubtitles | audio_handler.js:384-417 | with a subtitle URL and a fetched body, the entries become `parseSRT` of it and the index 0; otherwise nothing changes |
| AudioHandler.AudioPlayer.ToggleSubtitles | audio_handler.js:363-379 | flips the switch; on shows the container and loads subtitles, off hides it and clears its text |
| AudioHandler.AudioPlayer.UpdateSubtitles | audio_handler.js:484-515 | nothing changes while off or with no entries; otherwise the container shows the first covering entry's text, or nothing |
| AudioHandler.ShownText | audio_handler.js:508-513 | shown text comes from an entry covering the time; with no covering entry it is empty |
| AudioHandler.ShownTextIsFirstCovering | audio_handler.js:496-514 | shown text comes from the first covering entry; the container is empty exactly when no entry covers the time or the first covering one has no text |
| StartUp.ContentResult | startUp.js:62-68 | content gets through only from an `ok` (2xx) response whose body is JSON |
| StartUp.Fetch | startUp.js:57-61 | one more fetch is out, with the given `retryCount`; nothing else changes |
| StartUp.Request | startUp.js:34-53 | the script is appended to those requested and its load is pending; nothing else changes |
| StartUp.Check | startUp.js:25-31 | the player is told exactly when `loadedCount >= numLibs`, once per call; nothing else changes |
| StartUp.Finish | startUp.js:39-51 | a unit counts once; the callback requests the next script or ends the chain; the player is told exactly when the count reaches 4 |
| StartUp.Step | startUp.js:39-89 | one callback sends at most one fetch, appends at most one script, tells the player at most once, and takes nothing back |
| StartUp.Inv | startUp.js:20-101 | under the invariant, the scripts requested are a prefix of the chain, with one counted unit ahead of them at most |
| StartUp.InitInv | startUp.js:18-21 | the start state satisfies the loader invariant |
| StartUp.StepInv | startUp.js:25-101 | every callback keeps the invariant: counts match the units done, scripts requested in chain order, at most 3 fetches, readiness only at the end |
| StartUp.RunInv | startUp.js:25-101 | every reachable state satisfies the invariant |
| StartUp.ReadyOnlyWhenAllLoaded | startUp.js:21-31 | `javascriptLoadedState` is set exactly when `loadedCount >= numLibs`, and at most once |
| StartUp.StepCountsAtMostOne | startUp.js:40-85 | one callback raises `loadedCount` by at most one and never lowers it |
| StartUp.RunMonotone | startUp.js:20-85 | `loadedCount` never decreases |
| StartUp.NotOkIsFailure | startUp.js:62-65 | a non-2xx response is handled exactly like a failed fetch |
| StartUp.ScriptErrorLikeLoad | startUp.js:39-51 | `onerror` counts and continues the chain exactly like `onload` |
| StartUp.ContentSettles | startUp.js:68-88 | success counts once and stores the content; an early failure schedules a retry and counts nothing; the last failure counts once and leaves `null` |
| StartUp.RetryFetchesAgain | startUp.js:78-82 | a retry fetches again, never beyond `maxRetries` attempts |
| StartUp.ScriptsFinish | startUp.js:39-51 | the remaining scripts settling finish the chain with the count at 4 and readiness signalled once |
| StartUp.AllUnitsComplete | startUp.js:93-101 | content settled for good, then three script completions: `loadedCount == 4`, readiness signalled once |
| StartUp.FullLoad | startUp.js:93-101 | a first fetch that succeeds and three settled scripts reach readiness with the content stored |
| StartUp.RetriesExhausted | startUp.js:75-88 | three failed fetches exhaust the retries: one unit counted, content `null`, the first script requested |
| StartUp.Loader.constructor | startUp.js:18-21 | the globals are declared and the first fetch is sent |
| StartUp.Loader.LoadContentJSON | startUp.js:57-61 | one more fetch is sent |
| StartUp.Loader.CheckIfAllFilesLoaded | startUp.js:25-31 | signals the player when `loadedCount >= numLibs` |
| StartUp.Loader.LoadJavaScriptFile | startUp.js:34-54 | appends the next script of the chain |
| StartUp.Loader.OnContentSettled | startUp.js:62-89 | the fetch's `.then`/`.catch` handlers perform `Step` |
| StartUp.Loader.OnRetryTimer | startUp.js:80-82 | the retry timer performs `Step` |
| StartUp.Loader.OnScriptSettled | startUp.js:39-51 | `onload`/`onerror` perform `Step` |

## Left out

- The DOM and styling.
  - `injectAudioPlayer`'s template and listener wiring, the play button, `audioInfo`, the CC
    button's colours, `seekAudio`, the progress bar and `updateTimeDisplay` are UI glue.
  - The model assumes the player's elements exist. A missing element makes these functions throw,
    and the model does not follow that.
- `image_handler.js`, `console` output, `GetPlayer()`, the web-object folder and the URLs built
  from it.
- Floating-point time.
  - Subtitle times and the playback time are whole milliseconds.
  - `Srt.ParseTime` yields milliseconds where the page computes seconds as a float.
  - `AudioHandler.FormatTime` takes whole seconds. For fractional seconds the page floors them
    first, and that step is not modelled.
- Asynchrony.
  - A `fetch`, `play()` or script load is an event, or a parameter applied at once.
  - Interleavings are not modelled, for example a pause before `play()` resolves, or a second
    subtitle load overtaking the first.
  - The 2000 ms retry delay is not modelled: the retry timer is one event.
- StartUp.Step: an exception thrown by a callback inside the success `.then` would reach the
  `.catch` and trigger a retry. The model does not follow callbacks that throw, and the callbacks
  of the load chain do not throw.
- StartUp.Check: `player.SetVar("javascriptLoadedState", 1)` is modelled as a count of calls.
- AudioHandler.AudioPlayer.LoadSubtitles: an HTTP error response still has a body, and the page
  parses it. `fetched` is that body, and `None` stands for a rejected request.
  `currentSubtitleIndex` is written but never read by the page.
- AudioHandler.AudioPlayer.PlayAudio: the `audioElement.src` update and `readyState` are not
  modelled. `window.isAudioPlaying` is only the initial snapshot, so it is not modelled either.
- TextHandler.Keys: `Object.keys` lists keys in insertion order, with integer-like keys first. The
  model leaves the order open and proves that each variable is set exactly once. The final store
  does not depend on the order.
- Json.Members: an object's keys are taken in the order of its member sequence, each key once, as
  `JSON.parse` builds them. The JavaScript rule that integer-like keys enumerate first is not
  modelled.
- Json.Lookup: the datatype lets an object list a key twice, which `JSON.parse` never builds.
  For such a value `Json.Lookup` returns the first member and the extraction visits both, where
  `JSON.parse` would have kept only the last. The results match the page only for objects with
  distinct keys.
- Json.Get: inherited properties (`toString`, `constructor`, `__proto__`) are not modelled. Only
  own members, and an array's or string's `length` and elements, are. Strings are sequences of
  characters, not UTF-16 code units.
- `player.GetVar("level")`, `("content_id")` and `("targetLanguage")` are taken to be the
  property-key strings they are used as. `contentId` only appears in log messages.
- Srt.IsBlank is `AllWhitespace` rather than `trim() === ''`. `JsString.TrimEmptyIff` proves the
  two equivalent.
- JSON numbers are `real`. Whether a response body parses as JSON is part of the fetch outcome.
