/**
 * The start-up script of the web object (startUp.js): it fetches `content.json`, retrying a
 * failed fetch, then loads the three handler scripts one after the other, counting every unit
 * that finished, successfully or not, and tells the player once all four have.
 *
 * The browser calls back asynchronously; here each callback is an event applied to the
 * loader's state. `Step` is the specification; the class `Loader` holds the same state in
 * fields and its callback methods are proved to perform `Step`.
 */
module StartUp {
  import opened Wrappers
  import opened Json

  /** `CONFIG.maxRetries`: fetch attempts for `content.json`, the first included. */
  const MaxRetries: nat := 3

  /** `numLibs`: `content.json` and the three handler scripts. */
  const NumLibs: nat := 4

  /** The handler scripts, in the order the start-up chain requests them. */
  datatype Script = ImageHandler | TextHandler | AudioHandler

  const LoadChain: seq<Script> := [ImageHandler, TextHandler, AudioHandler]

  /** How one `fetch` of `content.json` settled: no response, or a status and the body `response.json()` yields (None when it is not JSON). */
  datatype FetchOutcome = NetworkError | Response(status: int, body: Option<Value>)

  /** What is pending: a fetch (with its `retryCount`), a retry timer, a script's load, or nothing. */
  datatype Phase = Fetching(retryCount: nat) | RetryPending(retryCount: nat) | ScriptPending(index: nat) | Done

  /**
   * The start-up state: `loadedCount`, `window.contentData`, the fetches issued, the scripts
   * appended to the document, the calls `SetVar("javascriptLoadedState", 1)`, and what is pending.
   */
  datatype LoadState = LoadState(loadedCount: nat, contentData: Value, attempts: nat,
                                 requested: seq<Script>, readySignals: nat, phase: Phase)

  /** A browser callback: a fetch settled, the retry timer fired, or a script fired `onload` (true) or `onerror` (false). */
  datatype Event = ContentSettled(outcome: FetchOutcome) | RetryFired | ScriptSettled(loaded: bool)

  /**
   * The parsed content of a settled fetch: only a response with `ok` (status 200-299) whose
   * body is JSON gets through; everything else rejects into the `catch`.
   */
  function ContentResult(o: FetchOutcome): (r: Option<Value>)
    ensures r.Some? <==> o.Response? && 200 <= o.status <= 299 && o.body.Some?
    ensures r.Some? ==> r == o.body
  {
    if o.NetworkError? then None
    else if !(200 <= o.status <= 299) then None
    else o.body
  }

  /** `loadContentJSON(callback, retryCount)`: issues one more fetch. */
  function Fetch(s: LoadState, retryCount: nat): (r: LoadState)
    ensures r.attempts == s.attempts + 1 && r.phase == Fetching(retryCount)
    ensures r.loadedCount == s.loadedCount && r.contentData == s.contentData
    ensures r.requested == s.requested && r.readySignals == s.readySignals
  {
    s.(attempts := s.attempts + 1, phase := Fetching(retryCount))
  }

  /** `loadJavaScriptFile` for the `i`-th script of the chain: appends its `<script>` element. */
  function Request(s: LoadState, i: nat): (r: LoadState)
    requires i < |LoadChain|
    ensures r.requested == s.requested + [LoadChain[i]] && r.phase == ScriptPending(i)
    ensures r.loadedCount == s.loadedCount && r.contentData == s.contentData
    ensures r.attempts == s.attempts && r.readySignals == s.readySignals
  {
    s.(requested := s.requested + [LoadChain[i]], phase := ScriptPending(i))
  }

  /** The callback run after unit `i` (0 for the content): it requests the next script, if any. */
  function Continue(s: LoadState, i: nat): LoadState {
    if i < |LoadChain| then Request(s, i) else s.(phase := Done)
  }

  /** `checkIfAllFilesLoaded`: signals the player when `loadedCount >= numLibs`. */
  function Check(s: LoadState): (r: LoadState)
    ensures r.readySignals > s.readySignals <==> s.loadedCount >= NumLibs
    ensures r.readySignals <= s.readySignals + 1
    ensures r.(readySignals := s.readySignals) == s
  {
    if s.loadedCount >= NumLibs then s.(readySignals := s.readySignals + 1) else s
  }

  /** One unit finished: count it, run the callback that requests unit `next`, then check. */
  function Finish(s: LoadState, next: nat): (r: LoadState)
    ensures r.loadedCount == s.loadedCount + 1
    ensures r.contentData == s.contentData && r.attempts == s.attempts
    ensures r.readySignals > s.readySignals <==> s.loadedCount + 1 >= NumLibs
    ensures r.readySignals <= s.readySignals + 1
    ensures next < |LoadChain| ==> r.requested == s.requested + [LoadChain[next]] && r.phase == ScriptPending(next)
    ensures next >= |LoadChain| ==> r.requested == s.requested && r.phase == Done
  {
    Check(Continue(s.(loadedCount := s.loadedCount + 1), next))
  }

  /** The state after the page's script ran: the first fetch is out. */
  const Init: LoadState := Fetch(LoadState(0, JNull, 0, [], 0, Fetching(0)), 0)

  /** One callback. An event that does not belong to what is pending cannot occur and changes nothing. */
  function Step(s: LoadState, e: Event): (r: LoadState)
    ensures s.attempts <= r.attempts <= s.attempts + 1
    ensures s.requested <= r.requested && |r.requested| <= |s.requested| + 1
    ensures s.readySignals <= r.readySignals <= s.readySignals + 1
  {
    match e
    case ContentSettled(o) =>
      if !s.phase.Fetching? then s
      else (match ContentResult(o)
        case Some(data) => Finish(s.(contentData := data), 0)
        case None =>
          if s.phase.retryCount < MaxRetries - 1 then s.(phase := RetryPending(s.phase.retryCount + 1))
          else Finish(s, 0))
    case RetryFired =>
      if s.phase.RetryPending? then Fetch(s, s.phase.retryCount) else s
    case ScriptSettled(_) =>
      if s.phase.ScriptPending? then Finish(s, s.phase.index + 1) else s
  }

  /** The callbacks `events`, in order. */
  function Run(s: LoadState, events: seq<Event>): LoadState
    decreases |events|
  {
    if events == [] then s else Run(Step(s, events[0]), events[1..])
  }

  /**
   * What start-up keeps true: nothing counts before the content is settled; while script `i`
   * loads, the content and `i` scripts are counted and the chain up to `i` is requested; at the
   * end all four are counted and the player was told once. At most `maxRetries` fetches are made.
   */
  predicate Inv(s: LoadState)
    ensures Inv(s) ==> s.requested <= LoadChain && |s.requested| <= s.loadedCount <= |s.requested| + 1
  {
    && 1 <= s.attempts <= MaxRetries
    && (s.phase.Fetching? ==>
          s.phase.retryCount == s.attempts - 1 && s.loadedCount == 0 && s.contentData == JNull
          && s.requested == [] && s.readySignals == 0)
    && (s.phase.RetryPending? ==>
          s.phase.retryCount == s.attempts < MaxRetries && s.loadedCount == 0 && s.contentData == JNull
          && s.requested == [] && s.readySignals == 0)
    && (s.phase.ScriptPending? ==>
          s.phase.index < |LoadChain| && s.loadedCount == s.phase.index + 1
          && s.requested == LoadChain[..s.phase.index + 1] && s.readySignals == 0)
    && (s.phase.Done? ==>
          s.loadedCount == NumLibs && s.requested == LoadChain && s.readySignals == 1)
  }

  lemma InitInv()
    ensures Inv(Init)
  {
  }

  lemma StepInv(s: LoadState, e: Event)
    requires Inv(s)
    ensures Inv(Step(s, e))
  {
    if s.phase.ScriptPending? && e.ScriptSettled? {
      var i := s.phase.index;
      if i + 1 < |LoadChain| {
        assert LoadChain[..i + 1] + [LoadChain[i + 1]] == LoadChain[..i + 2];
      } else {
        assert LoadChain[..i + 1] == LoadChain;
      }
    }
  }

  /** Every state reachable from the start satisfies the invariant. */
  lemma {:induction false} RunInv(s: LoadState, events: seq<Event>)
    requires Inv(s)
    ensures Inv(Run(s, events))
    decreases |events|
  {
    if events != [] {
      StepInv(s, events[0]);
      RunInv(Step(s, events[0]), events[1..]);
    }
  }

  /** The player is told exactly when all four units are counted, and at most once. */
  lemma ReadyOnlyWhenAllLoaded(s: LoadState)
    requires Inv(s)
    ensures s.readySignals > 0 <==> s.loadedCount >= NumLibs
    ensures s.readySignals <= 1 && s.loadedCount <= NumLibs
    ensures s.readySignals > 0 <==> s.phase.Done?
  {
  }

  /** One callback counts at most one unit; the count never goes down. */
  lemma StepCountsAtMostOne(s: LoadState, e: Event)
    ensures s.loadedCount <= Step(s, e).loadedCount <= s.loadedCount + 1
  {
  }

  lemma {:induction false} RunMonotone(s: LoadState, events: seq<Event>)
    ensures s.loadedCount <= Run(s, events).loadedCount <= s.loadedCount + |events|
    decreases |events|
  {
    if events != [] {
      StepCountsAtMostOne(s, events[0]);
      RunMonotone(Step(s, events[0]), events[1..]);
    }
  }

  /** A response that is not `ok` is handled exactly like a failed fetch, whatever its body. */
  lemma NotOkIsFailure(s: LoadState, status: int, body: Option<Value>)
    requires !(200 <= status <= 299)
    ensures Step(s, ContentSettled(Response(status, body))) == Step(s, ContentSettled(NetworkError))
  {
  }

  /** A script that fails to load counts and continues the chain exactly like one that loads. */
  lemma ScriptErrorLikeLoad(s: LoadState)
    ensures Step(s, ScriptSettled(false)) == Step(s, ScriptSettled(true))
  {
  }

  /**
   * A settled fetch counts one unit when it succeeds (storing the content) or when it was the
   * last attempt (leaving the content `null`); an earlier failure schedules a retry and counts nothing.
   */
  lemma ContentSettles(s: LoadState, o: FetchOutcome)
    requires Inv(s) && s.phase.Fetching?
    ensures var t := Step(s, ContentSettled(o));
      && (ContentResult(o).Some? ==>
            t.loadedCount == 1 && t.contentData == ContentResult(o).value && t.requested == [ImageHandler])
      && (ContentResult(o).None? && s.attempts < MaxRetries ==>
            t.loadedCount == 0 && t.phase == RetryPending(s.attempts) && t.attempts == s.attempts)
      && (ContentResult(o).None? && s.attempts == MaxRetries ==>
            t.loadedCount == 1 && t.contentData == JNull && t.requested == [ImageHandler])
  {
  }

  /** A retry issues the next fetch, and only while fewer than `maxRetries` were made. */
  lemma RetryFetchesAgain(s: LoadState)
    requires Inv(s) && s.phase.RetryPending?
    ensures Step(s, RetryFired).attempts == s.attempts + 1 <= MaxRetries
    ensures Step(s, RetryFired).phase == Fetching(s.attempts)
  {
  }

  /** The events of scripts settling one after the other, `true` for `onload` and `false` for `onerror`. */
  function Settle(loads: seq<bool>): (events: seq<Event>)
    ensures |events| == |loads|
  {
    seq(|loads|, k requires 0 <= k < |loads| => ScriptSettled(loads[k]))
  }

  /**
   * Once a script is pending, the remaining scripts settling (in any mix of `onload` and
   * `onerror`) finish the chain: four units counted, the player told once, the content kept.
   */
  lemma {:induction false} ScriptsFinish(s: LoadState, loads: seq<bool>)
    requires Inv(s) && s.phase.ScriptPending? && |loads| == |LoadChain| - s.phase.index
    ensures var t := Run(s, Settle(loads));
      && t.phase == Done && t.loadedCount == NumLibs && t.readySignals == 1
      && t.requested == LoadChain && t.contentData == s.contentData
    decreases |loads|
  {
    var e := ScriptSettled(loads[0]);
    StepInv(s, e);
    assert Settle(loads)[0] == e;
    assert Settle(loads)[1..] == Settle(loads[1..]);
    var t := Step(s, e);
    if |loads| > 1 {
      ScriptsFinish(t, loads[1..]);
    } else {
      assert Run(t, Settle(loads[1..])) == t;
    }
  }

  /**
   * When the content load settles for good (it succeeded, or it was the last attempt) and the
   * three scripts then each complete once, `loadedCount` is `numLibs` and the player was told once.
   */
  lemma AllUnitsComplete(s: LoadState, o: FetchOutcome, loads: seq<bool>)
    requires Inv(s) && s.phase.Fetching?
    requires ContentResult(o).Some? || s.attempts == MaxRetries
    requires |loads| == |LoadChain|
    ensures var t := Run(s, [ContentSettled(o)] + Settle(loads));
      && t.phase == Done && t.loadedCount == NumLibs && t.readySignals == 1
      && t.contentData == (if ContentResult(o).Some? then ContentResult(o).value else JNull)
  {
    var t := Step(s, ContentSettled(o));
    StepInv(s, ContentSettled(o));
    assert ([ContentSettled(o)] + Settle(loads))[1..] == Settle(loads);
    ScriptsFinish(t, loads);
  }

  /** The first fetch succeeds and every script settles: four units counted, the player told once. */
  lemma FullLoad(content: Value, image: bool, text: bool, audio: bool)
    ensures var s := Run(Init, [ContentSettled(Response(200, Some(content))),
                                ScriptSettled(image), ScriptSettled(text), ScriptSettled(audio)]);
      && s.loadedCount == NumLibs && s.readySignals == 1 && s.phase == Done
      && s.contentData == content && s.requested == LoadChain && s.attempts == 1
  {
    var s0 := Init;
    var s1 := Step(s0, ContentSettled(Response(200, Some(content))));
    var s2 := Step(s1, ScriptSettled(image));
    var s3 := Step(s2, ScriptSettled(text));
    var s4 := Step(s3, ScriptSettled(audio));
    assert Run(s4, []) == s4;
    assert Run(s3, [ScriptSettled(audio)]) == s4;
    assert Run(s2, [ScriptSettled(text), ScriptSettled(audio)]) == s4;
    assert Run(s1, [ScriptSettled(image), ScriptSettled(text), ScriptSettled(audio)]) == s4;
  }

  /** Three failed fetches exhaust the retries: the content counts as done and stays `null`. */
  lemma RetriesExhausted(status: int)
    requires !(200 <= status <= 299)
    ensures var s := Run(Init, [ContentSettled(NetworkError), RetryFired, ContentSettled(Response(status, None)),
                                RetryFired, ContentSettled(NetworkError), RetryFired]);
      && s.attempts == MaxRetries && s.loadedCount == 1 && s.contentData == JNull
      && s.phase == ScriptPending(0) && s.requested == [ImageHandler] && s.readySignals == 0
  {
    var s1 := Step(Init, ContentSettled(NetworkError));
    var s2 := Step(s1, RetryFired);
    var s3 := Step(s2, ContentSettled(Response(status, None)));
    var s4 := Step(s3, RetryFired);
    var s5 := Step(s4, ContentSettled(NetworkError));
    var s6 := Step(s5, RetryFired);
    assert s6 == s5;
    assert Run(s6, []) == s6;
    assert Run(s5, [RetryFired]) == s6;
    assert Run(s4, [ContentSettled(NetworkError), RetryFired]) == s6;
    assert Run(s3, [RetryFired, ContentSettled(NetworkError), RetryFired]) == s6;
    assert Run(s2, [ContentSettled(Response(status, None)), RetryFired, ContentSettled(NetworkError), RetryFired]) == s6;
    assert Run(s1, [RetryFired, ContentSettled(Response(status, None)), RetryFired, ContentSettled(NetworkError), RetryFired]) == s6;
  }

  // ---------------------------------------------------------------------------------------
  // The page's module-level variables and its callbacks.
  // ---------------------------------------------------------------------------------------

  class Loader {
    var loadedCount: nat
    var contentData: Value
    var attempts: nat
    var requested: seq<Script>
    var readySignals: nat
    var phase: Phase

    function State(): LoadState
      reads this
    {
      LoadState(loadedCount, contentData, attempts, requested, readySignals, phase)
    }

    /** The page's script: the globals are declared, then `loadContentJSON` starts the chain. */
    constructor()
      ensures State() == Init
    {
      loadedCount := 0;
      contentData := JNull;
      attempts := 0;
      requested := [];
      readySignals := 0;
      phase := Fetching(0);
      new;
      LoadContentJSON(0);
    }

    /** `loadContentJSON(callback, retryCount)`: sends the fetch. */
    method LoadContentJSON(retryCount: nat)
      modifies this
      ensures State() == Fetch(old(State()), retryCount)
    {
      attempts := attempts + 1;
      phase := Fetching(retryCount);
    }

    /** `checkIfAllFilesLoaded`. */
    method CheckIfAllFilesLoaded()
      modifies this
      ensures State() == Check(old(State()))
    {
      if loadedCount >= NumLibs {
        readySignals := readySignals + 1;
      }
    }

    /** `loadJavaScriptFile` for the `i`-th script of the chain. */
    method LoadJavaScriptFile(i: nat)
      requires i < |LoadChain|
      modifies this
      ensures State() == Request(old(State()), i)
    {
      requested := requested + [LoadChain[i]];
      phase := ScriptPending(i);
    }

    /** The completion callback passed along the chain after unit `next - 1`. */
    method RunCallback(next: nat)
      modifies this
      ensures State() == Continue(old(State()), next)
    {
      if next < |LoadChain| {
        LoadJavaScriptFile(next);
      } else {
        phase := Done;
      }
    }

    /** The two `.then` steps and the `.catch` of `loadContentJSON`. */
    method OnContentSettled(outcome: FetchOutcome)
      requires phase.Fetching?
      modifies this
      ensures State() == Step(old(State()), ContentSettled(outcome))
    {
      var retryCount := phase.retryCount;
      match ContentResult(outcome) {
        case Some(data) =>
          contentData := data;
          loadedCount := loadedCount + 1;
          RunCallback(0);
          CheckIfAllFilesLoaded();
        case None =>
          if retryCount < MaxRetries - 1 {
            phase := RetryPending(retryCount + 1);
          } else {
            loadedCount := loadedCount + 1;
            RunCallback(0);
            CheckIfAllFilesLoaded();
          }
      }
    }

    /** The `setTimeout` callback: `loadContentJSON(callback, retryCount + 1)`. */
    method OnRetryTimer()
      requires phase.RetryPending?
      modifies this
      ensures State() == Step(old(State()), RetryFired)
    {
      LoadContentJSON(phase.retryCount);
    }

    /** `script.onload` (`loaded`) or `script.onerror`: both count, run the callback, then check. */
    method OnScriptSettled(loaded: bool)
      requires phase.ScriptPending?
      modifies this
      ensures State() == Step(old(State()), ScriptSettled(loaded))
    {
      var next := phase.index + 1;
      loadedCount := loadedCount + 1;
      RunCallback(next);
      CheckIfAllFilesLoaded();
    }
  }
}
