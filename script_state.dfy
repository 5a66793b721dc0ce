/**
 * The module state of the content script (content.js:7-13, 201) as one
 * value, and what each event the script reacts to does to it.
 *
 * JavaScript's promises are made explicit. Every network call the script
 * issues is logged in `calls` (its index is its request number); a settled
 * call's value is kept in `outcomes`; an evaluation of `handleSubtitleChange`
 * that reached its `await` (content.js:194) waits in `suspended` until the
 * event loop resumes it. Which settled call and which suspended evaluation
 * go next is chosen by whoever supplies the events, so every completion
 * order is covered.
 */
module ScriptState {

  import opened Wrappers
  import opened Subtitles
  import opened TranslationCache

  /**
   * The delay before a scheduled hide takes effect (content.js:131). Time is
   * not modelled: a timer fires whenever its event comes, so this constant
   * only records the source's value.
   */
  const HideDelayMs: nat := 1500

  /** The overlay element's `style.display`: never set, "block" or "none". */
  datatype Display = Unstyled | Block | NoDisplay

  /** The overlay element: its text, its display style and whether it is in the page. */
  datatype Overlay = Overlay(text: string, display: Display, connected: bool)

  /** A `div` just created and appended to the player (content.js:97-105). */
  const FreshOverlay := Overlay("", Unstyled, true)

  /**
   * How a network call ends: a translation read from the response body, or
   * a failure (a status that is not ok, a network error, or a body without
   * the expected fields).
   */
  datatype Outcome = Received(translation: string) | Failed

  /** What `translateText` hands back: a cached value, or the promise of request `request`. */
  datatype Reply = Cached(value: string) | InFlight(request: nat)

  /** An evaluation of `handleSubtitleChange` for `text`, waiting for request `request`. */
  datatype Suspension = Suspension(text: string, request: nat)

  /**
   * A settings-change notification: for each key, absent when the key did
   * not change, else its new value (`None` when the key was removed).
   */
  datatype SettingsDelta = SettingsDelta(apiKey: Option<Option<string>>, enabled: Option<bool>)

  /**
   * The script's variables and the page state it drives.
   * - `apiKey`, `enabled`: the settings (content.js:7-8);
   * - `cache`, `pending`: `translationCache` and `pendingTranslations`, the
   *   latter mapping a text to the request its promise waits for (content.js:9-10);
   * - `overlay`, `lastKoreanText`, `hideTimer`: content.js:11-13, where
   *   `hideTimer` is the id of the latest timer, kept after it fired or was cleared;
   * - `observing`: whether `observer` is set (content.js:201);
   * - `nltActive`: whether the page body carries the class `nlt-active`,
   *   which hides the native captions;
   * - `timersStarted`, `armed`: how many hide timers were started (each
   *   one's id is its number) and which of them are still to fire;
   * - `calls`, `outcomes`, `suspended`: the network calls, their results
   *   once settled, and the evaluations waiting at the `await`.
   */
  datatype State = State(
    apiKey: Option<string>, enabled: bool,
    cache: Cache, pending: map<string, nat>,
    overlay: Option<Overlay>, lastKoreanText: string, hideTimer: Option<nat>,
    observing: bool, nltActive: bool,
    timersStarted: nat, armed: set<nat>,
    calls: seq<string>, outcomes: map<nat, Option<string>>, suspended: seq<Suspension>)

  /** `apiKey && enabled`: a non-empty key and the switch on. */
  predicate Active(s: State) {
    s.apiKey.Some? && s.apiKey.value != "" && s.enabled
  }

  // ---------------------------------------------------------------------
  // The invariant
  // ---------------------------------------------------------------------

  /**
   * The request bookkeeping: the cache is well formed and holds at most
   * `Capacity` entries; each pending text is bound to one unsettled call
   * made for that text and is not cached; each unsettled call is bound to
   * some pending text (its own, so no text has two calls in flight); only
   * issued calls settle.
   */
  ghost predicate Tracked(cache: Cache, pending: map<string, nat>, calls: seq<string>,
                          outcomes: map<nat, Option<string>>)
  {
    && Bounded(cache)
    && (forall t :: t in pending ==>
          pending[t] < |calls| && calls[pending[t]] == t
          && pending[t] !in outcomes && t !in cache.entries)
    && (forall id :: 0 <= id < |calls| && id !in outcomes ==> id in pending.Values)
    && (forall id :: id in outcomes ==> id < |calls|)
  }

  /** Each suspended evaluation waits for a call made for its own text. */
  ghost predicate Waiting(calls: seq<string>, suspended: seq<Suspension>) {
    forall i :: 0 <= i < |suspended| ==>
      suspended[i].request < |calls| && calls[suspended[i].request] == suspended[i].text
  }

  /**
   * At most one hide timer is armed, and it is the one `hideTimer` holds;
   * `hideTimer` holds the id of a timer already started.
   */
  ghost predicate OneTimer(s: State) {
    && (s.hideTimer.None? ==> s.armed == {})
    && (s.hideTimer.Some? ==> s.armed <= {s.hideTimer.value} && s.hideTimer.value < s.timersStarted)
  }

  /** What every event keeps, including that the observer runs whenever the script is active. */
  ghost predicate Inv(s: State) {
    && Tracked(s.cache, s.pending, s.calls, s.outcomes)
    && Waiting(s.calls, s.suspended)
    && OneTimer(s)
    && (Active(s) ==> s.observing)
  }

  /** Issuing a call for a text that is neither cached nor in flight keeps the bookkeeping. */
  lemma IssueKeepsTracked(cache: Cache, pending: map<string, nat>, calls: seq<string>,
                          outcomes: map<nat, Option<string>>, text: string)
    requires Tracked(cache, pending, calls, outcomes)
    requires text !in cache.entries && text !in pending
    ensures Tracked(cache, pending[text := |calls|], calls + [text], outcomes)
  {
    var calls' := calls + [text];
    var pending' := pending[text := |calls|];
    forall id | 0 <= id < |calls'| && id !in outcomes
      ensures id in pending'.Values
    {
      if id < |calls| {
        var t :| t in pending && pending[t] == id;
        assert t != text && pending'[t] == id;
      } else {
        assert pending'[text] == id;
      }
    }
  }

  /** Issuing a call keeps every earlier suspension valid. */
  lemma IssueKeepsWaiting(calls: seq<string>, suspended: seq<Suspension>, text: string)
    requires Waiting(calls, suspended)
    ensures Waiting(calls + [text], suspended)
  {
    forall i | 0 <= i < |suspended|
      ensures (calls + [text])[suspended[i].request] == suspended[i].text
    {
    }
  }

  /**
   * Settling an unsettled call removes its text from the in-flight table
   * and, on success, caches the translation; the bookkeeping is kept.
   */
  lemma SettleKeepsTracked(cache: Cache, pending: map<string, nat>, calls: seq<string>,
                           outcomes: map<nat, Option<string>>, request: nat, result: Option<string>,
                           cache': Cache)
    requires Tracked(cache, pending, calls, outcomes)
    requires request < |calls| && request !in outcomes
    requires cache' == if result.Some? then Put(cache, calls[request], result.value) else cache
    ensures Tracked(cache', pending - {calls[request]}, calls, outcomes[request := result])
  {
    var text := calls[request];
    var t :| t in pending && pending[t] == request;
    assert t == text;
    var pending' := pending - {text};
    forall id | 0 <= id < |calls| && id !in outcomes[request := result]
      ensures id in pending'.Values
    {
      var u :| u in pending && pending[u] == id;
      assert u != text && pending'[u] == id;
    }
  }

  /** No two unsettled calls are for the same text. */
  lemma OneCallInFlightPerText(calls: seq<string>, pending: map<string, nat>,
                               cache: Cache, outcomes: map<nat, Option<string>>, a: nat, b: nat)
    requires Tracked(cache, pending, calls, outcomes)
    requires a < |calls| && b < |calls| && a !in outcomes && b !in outcomes
    requires calls[a] == calls[b]
    ensures a == b
  {
    var t :| t in pending && pending[t] == a;
    var u :| u in pending && pending[u] == b;
  }

  /** Removing a resumed evaluation keeps the other suspensions valid. */
  lemma RemoveKeepsWaiting(calls: seq<string>, suspended: seq<Suspension>, i: nat)
    requires Waiting(calls, suspended) && i < |suspended|
    ensures Waiting(calls, suspended[..i] + suspended[i + 1..])
  {
    var rest := suspended[..i] + suspended[i + 1..];
    forall j | 0 <= j < |rest|
      ensures rest[j].request < |calls| && calls[rest[j].request] == rest[j].text
    {
      if j < i {
        assert rest[j] == suspended[j];
      } else {
        assert rest[j] == suspended[j + 1];
      }
    }
  }

  // ---------------------------------------------------------------------
  // Loading, settings and initialisation
  // ---------------------------------------------------------------------

  /** The state when the content script is loaded (content.js:7-13, 201). */
  function Initial(): (s: State)
    ensures Inv(s) && !Active(s) && !s.observing
  {
    State(None, true, Empty(), map[], None, "", None, false, false, 0, {}, [], map[], [])
  }

  /** The overlay after `createOverlay`: kept while it is in the page, otherwise replaced by a fresh one. */
  function Attached(o: Option<Overlay>): (r: Option<Overlay>)
    ensures r.Some? && r.value.connected
    ensures o.Some? && o.value.connected ==> r == o
  {
    if o.Some? && o.value.connected then o else Some(FreshOverlay)
  }

  /** `createOverlay` (content.js:95-106): only the overlay changes. */
  function CreateOverlay(s: State): (r: State)
    ensures r.overlay == Attached(s.overlay)
    ensures r == s.(overlay := r.overlay)
  {
    if s.overlay.Some? && s.overlay.value.connected then s
    else s.(overlay := Some(FreshOverlay))
  }

  /**
   * What `init` does: nothing once the observer runs; otherwise it hides
   * the native captions, attaches the overlay and starts observing.
   */
  ghost predicate Initialised(s: State, r: State) {
    && r.observing
    && (s.observing ==> r == s)
    && (!s.observing ==>
          r.nltActive && r.overlay == Attached(s.overlay)
          && r == s.(observing := true, nltActive := true, overlay := r.overlay))
  }

  /** `init` (content.js:203-221). */
  function Init(s: State): (r: State)
    ensures Initialised(s, r)
  {
    if s.observing then s
    else CreateOverlay(s.(nltActive := true)).(observing := true)
  }

  /**
   * The callback of the settings read at start-up (content.js:16-22): an
   * empty stored key counts as none, only a stored `false` disables, and an
   * active script is initialised.
   */
  function LoadSettings(s: State, storedKey: Option<string>, storedEnabled: Option<bool>): (r: State)
    ensures r.apiKey == (if storedKey == Some("") then None else storedKey)
    ensures r.enabled == (storedEnabled != Some(false))
    ensures var read := s.(apiKey := r.apiKey, enabled := r.enabled);
      if Active(read) then Initialised(read, r) else r == read
  {
    var read := s.(apiKey := if storedKey == Some("") then None else storedKey,
                   enabled := storedEnabled != Some(false));
    if Active(read) then Init(read) else read
  }

  /**
   * The settings-change listener (content.js:25-40). A removed key
   * arrives as `Some(None)`; a removed switch reads as falsy and arrives
   * as `Some(false)`. Turning off removes the overlay and shows the
   * native captions again, but leaves the observer running and the last
   * caption text as it was; turning on again calls `init`, which then
   * does nothing.
   */
  function SettingsChanged(s: State, delta: SettingsDelta): (r: State)
    ensures r.apiKey == (if delta.apiKey.Some? then delta.apiKey.value else s.apiKey)
    ensures r.enabled == (if delta.enabled.Some? then delta.enabled.value else s.enabled)
    ensures var read := s.(apiKey := r.apiKey, enabled := r.enabled);
      if Active(read) then Initialised(read, r)
      else r == read.(overlay := None, nltActive := false)
  {
    var withKey := if delta.apiKey.Some? then s.(apiKey := delta.apiKey.value) else s;
    var read := if delta.enabled.Some? then withKey.(enabled := delta.enabled.value) else withKey;
    if Active(read) then Init(read) else read.(overlay := None, nltActive := false)
  }

  // ---------------------------------------------------------------------
  // Translation requests
  // ---------------------------------------------------------------------

  /**
   * `translateText` (content.js:43-92), up to its first `await`: a cached
   * text is answered from the cache, a text already in flight shares the
   * existing request, and any other text issues exactly one new call.
   * Nothing but the in-flight table and the call log changes.
   */
  function TranslateText(s: State, text: string): (r: (State, Reply))
    ensures text in s.cache.entries ==> r == (s, Cached(s.cache.entries[text]))
    ensures text !in s.cache.entries && text in s.pending ==> r == (s, InFlight(s.pending[text]))
    ensures text !in s.cache.entries && text !in s.pending ==>
      && r.1 == InFlight(|s.calls|)
      && r.0.calls == s.calls + [text]
      && r.0.pending == s.pending[text := |s.calls|]
    ensures r.0 == s.(pending := r.0.pending, calls := r.0.calls)
  {
    if text in s.cache.entries then (s, Cached(s.cache.entries[text]))
    else if text in s.pending then (s, InFlight(s.pending[text]))
    else (s.(calls := s.calls + [text], pending := s.pending[text := |s.calls|]), InFlight(|s.calls|))
  }

  /**
   * Network call `request` settles (content.js:66-87). Its text leaves the
   * in-flight table whatever the outcome; a translation is put into the
   * cache and becomes the promise's value, a failure leaves the cache as it
   * was and resolves the promise with `null`.
   */
  function SettleRequest(s: State, request: nat, outcome: Outcome): (r: State)
    requires request < |s.calls| && request !in s.outcomes
    ensures r.pending == s.pending - {s.calls[request]}
    ensures outcome.Failed? ==> r.cache == s.cache && r.outcomes == s.outcomes[request := None]
    ensures outcome.Received? ==>
      && r.cache == Put(s.cache, s.calls[request], outcome.translation)
      && r.outcomes == s.outcomes[request := Some(outcome.translation)]
    ensures r == s.(pending := r.pending, cache := r.cache, outcomes := r.outcomes)
  {
    var text := s.calls[request];
    match outcome
    case Received(translation) =>
      s.(cache := Put(s.cache, text, translation),
         outcomes := s.outcomes[request := Some(translation)],
         pending := s.pending - {text})
    case Failed =>
      s.(outcomes := s.outcomes[request := None], pending := s.pending - {text})
  }

  // ---------------------------------------------------------------------
  // The overlay and the hide timer
  // ---------------------------------------------------------------------

  /** The armed timers after `clearTimeout(hideTimer)`; none remain when the invariant holds. */
  function Disarmed(s: State): (r: set<nat>)
    ensures r <= s.armed
    ensures OneTimer(s) ==> r == {}
    ensures s.hideTimer.Some? ==> s.hideTimer.value !in r
  {
    if s.hideTimer.Some? then s.armed - {s.hideTimer.value} else s.armed
  }

  /** The overlay after `showTranslation(text)`: created if absent, showing `text`. */
  function Shown(o: Option<Overlay>, text: string): (r: Overlay)
    ensures r.text == text && r.display == Block
    ensures o.Some? ==> r.connected == o.value.connected
  {
    var base := if o.None? then FreshOverlay else o.value;
    base.(text := text, display := Block)
  }

  /** `text` on screen at once and no hide pending; nothing else changes. */
  ghost predicate ShowedNow(s: State, r: State, text: string) {
    && r.overlay == Some(Shown(s.overlay, text))
    && r.armed == Disarmed(s)
    && r == s.(overlay := r.overlay, armed := r.armed)
  }

  /** `showTranslation` (content.js:115-120). */
  function ShowTranslation(s: State, text: string): (r: State)
    ensures ShowedNow(s, r, text)
    ensures OneTimer(s) ==> OneTimer(r) && r.armed == {}
  {
    var withOverlay := if s.overlay.None? then CreateOverlay(s) else s;
    var cleared := withOverlay.(armed := Disarmed(withOverlay));
    cleared.(overlay := Some(cleared.overlay.value.(text := text, display := Block)))
  }

  /**
   * A new hide timer, numbered `s.timersStarted`, replaces the armed one;
   * nothing is hidden yet and nothing else changes.
   */
  ghost predicate HideScheduled(s: State, r: State) {
    && r.hideTimer == Some(s.timersStarted)
    && r.armed == Disarmed(s) + {s.timersStarted}
    && r.timersStarted == s.timersStarted + 1
    && r == s.(hideTimer := r.hideTimer, armed := r.armed, timersStarted := r.timersStarted)
  }

  /** `hideTranslation` (content.js:122-132): the overlay lingers until the timer fires. */
  function HideTranslation(s: State): (r: State)
    ensures HideScheduled(s, r)
    ensures OneTimer(s) ==> OneTimer(r) && r.armed == {s.timersStarted}
  {
    s.(armed := Disarmed(s) + {s.timersStarted},
       hideTimer := Some(s.timersStarted),
       timersStarted := s.timersStarted + 1)
  }

  /** The armed timer `timer` fires (content.js:126-131): the overlay, if any, is emptied and hidden. */
  function HideTimerFires(s: State, timer: nat): (r: State)
    requires timer in s.armed
    ensures r.overlay == if s.overlay.None? then None
                         else Some(s.overlay.value.(text := "", display := NoDisplay))
    ensures r.armed == s.armed - {timer}
    ensures OneTimer(s) ==> OneTimer(r) && r.armed == {}
    ensures r == s.(overlay := r.overlay, armed := r.armed)
  {
    var fired := s.(armed := s.armed - {timer});
    if fired.overlay.None? then fired
    else fired.(overlay := Some(fired.overlay.value.(text := "", display := NoDisplay)))
  }

  /** The `fullscreenchange` listener (content.js:109-113): a fresh overlay replaces the old one. */
  function FullscreenChanged(s: State): (r: State)
    ensures r == s.(overlay := Some(FreshOverlay))
  {
    CreateOverlay(s.(overlay := None))
  }

  /** The page removes the overlay element from its tree, as a player rebuild does (content.js:96). */
  function OverlayDetached(s: State): (r: State)
    requires s.overlay.Some?
    ensures r == s.(overlay := Some(s.overlay.value.(connected := false)))
  {
    s.(overlay := Some(s.overlay.value.(connected := false)))
  }

  // ---------------------------------------------------------------------
  // Caption changes
  // ---------------------------------------------------------------------

  /** The evaluation for `text` suspends on its request, new or shared; nothing else changes. */
  ghost predicate AwaitingTranslation(s: State, r: State, text: string) {
    && r == s.(pending := r.pending, calls := r.calls, suspended := r.suspended)
    && (text in s.pending ==>
          r.pending == s.pending && r.calls == s.calls
          && r.suspended == s.suspended + [Suspension(text, s.pending[text])])
    && (text !in s.pending ==>
          && r.pending == s.pending[text := |s.calls|]
          && r.calls == s.calls + [text]
          && r.suspended == s.suspended + [Suspension(text, |s.calls|)])
  }

  /**
   * The Korean caption `text`, not seen just before, is shown from the
   * cache or suspends on its translation (content.js:187-194).
   */
  function NewKoreanCaption(s: State, text: string): (r: State)
    ensures text in s.cache.entries ==> ShowedNow(s, r, s.cache.entries[text])
    ensures text !in s.cache.entries ==> AwaitingTranslation(s, r, text)
  {
    if text in s.cache.entries then ShowTranslation(s, s.cache.entries[text])
    else
      var (issued, reply) := TranslateText(s, text);
      issued.(suspended := issued.suspended + [Suspension(text, reply.request)])
  }

  /**
   * What handling the caption `text` does (content.js:170-194): an empty
   * caption schedules a hide and forgets the last text; the caption handled
   * last changes nothing; any other caption becomes the last text and is
   * left to the page when it is not Korean, shown at once when its
   * translation is cached, and otherwise waits for its translation.
   */
  ghost predicate CaptionHandled(s: State, r: State, text: string) {
    && (text == "" ==> HideScheduled(s.(lastKoreanText := ""), r))
    && (text != "" && text == s.lastKoreanText ==> r == s)
    && (text != "" && text != s.lastKoreanText && !IsKorean(text) ==>
          HideScheduled(s.(lastKoreanText := text), r))
    && (text != "" && text != s.lastKoreanText && IsKorean(text) && text in s.cache.entries ==>
          ShowedNow(s.(lastKoreanText := text), r, s.cache.entries[text]))
    && (text != "" && text != s.lastKoreanText && IsKorean(text) && text !in s.cache.entries ==>
          AwaitingTranslation(s.(lastKoreanText := text), r, text))
  }

  /** The caption `text` the container yielded, handled up to the `await` (content.js:170-194). */
  function HandleCaption(s: State, text: string): (r: State)
    ensures CaptionHandled(s, r, text)
  {
    if text == "" then HideTranslation(s.(lastKoreanText := ""))
    else if text == s.lastKoreanText then s
    else
      var seen := s.(lastKoreanText := text);
      if !IsKorean(text) then HideTranslation(seen) else NewKoreanCaption(seen, text)
  }

  /**
   * The observer's callback, `handleSubtitleChange` (content.js:154-199),
   * up to its `await`. `container` is the caption container the page holds,
   * if any. Without a usable key or with the switch off nothing happens;
   * without a container a hide is scheduled and the last text is kept;
   * otherwise the extracted caption is handled.
   */
  function HandleSubtitleChange(s: State, container: Option<Container>): (r: State)
    ensures !Active(s) ==> r == s
    ensures Active(s) && container.None? ==> HideScheduled(s, r)
    ensures Active(s) && container.Some? ==>
      CaptionHandled(s, r, ExtractSubtitleText(container.value))
  {
    if !Active(s) then s
    else if container.None? then HideTranslation(s)
    else HandleCaption(s, ExtractSubtitleText(container.value))
  }

  /**
   * The evaluation `suspended[i]` resumes after its request settled
   * (content.js:194-198): the translation is shown only when there is a
   * non-empty one and its caption is still the last one seen; otherwise it
   * is dropped without a trace.
   */
  function ResumeSubtitleChange(s: State, i: nat): (r: State)
    requires i < |s.suspended| && s.suspended[i].request in s.outcomes
    ensures var rest := s.(suspended := s.suspended[..i] + s.suspended[i + 1..]);
      var w := s.suspended[i];
      var translated := s.outcomes[w.request];
      if translated.Some? && translated.value != "" && w.text == s.lastKoreanText
      then ShowedNow(rest, r, translated.value)
      else r == rest
  {
    var w := s.suspended[i];
    var rest := s.(suspended := s.suspended[..i] + s.suspended[i + 1..]);
    var translated := s.outcomes[w.request];
    if translated.Some? && translated.value != "" && w.text == rest.lastKoreanText
    then ShowTranslation(rest, translated.value)
    else rest
  }

  /**
   * While the script is active, a new Korean caption that is neither cached
   * nor in flight issues exactly one call, becomes the last text and
   * suspends on that call; nothing else changes.
   */
  lemma NewCaptionRequested(s: State, container: Container, caption: string)
    requires Active(s) && ExtractSubtitleText(container) == caption
    requires caption != "" && caption != s.lastKoreanText && IsKorean(caption)
    requires caption !in s.cache.entries && caption !in s.pending
    ensures HandleSubtitleChange(s, Some(container)) ==
      s.(lastKoreanText := caption, calls := s.calls + [caption],
         pending := s.pending[caption := |s.calls|],
         suspended := s.suspended + [Suspension(caption, |s.calls|)])
  {
  }

  /**
   * While the script is active, a new Korean caption already in flight
   * becomes the last text and waits on the existing call; no call is made.
   */
  lemma InFlightCaptionShared(s: State, container: Container, caption: string)
    requires Active(s) && ExtractSubtitleText(container) == caption
    requires caption != "" && caption != s.lastKoreanText && IsKorean(caption)
    requires caption !in s.cache.entries && caption in s.pending
    ensures HandleSubtitleChange(s, Some(container)) ==
      s.(lastKoreanText := caption,
         suspended := s.suspended + [Suspension(caption, s.pending[caption])])
  {
  }

  /**
   * While the script is active, a new Korean caption whose translation is
   * cached becomes the last text and is shown at once; no call is made.
   */
  lemma CachedCaptionShown(s: State, container: Container, caption: string)
    requires Active(s) && ExtractSubtitleText(container) == caption
    requires caption != "" && caption != s.lastKoreanText && IsKorean(caption)
    requires caption in s.cache.entries
    ensures HandleSubtitleChange(s, Some(container)) ==
      s.(lastKoreanText := caption,
         overlay := Some(Shown(s.overlay, s.cache.entries[caption])),
         armed := Disarmed(s))
  {
  }

  /**
   * While the script is active, a container without caption text forgets
   * the last text and schedules a hide.
   */
  lemma CaptionCleared(s: State, container: Container)
    requires Active(s) && ExtractSubtitleText(container) == ""
    ensures HandleSubtitleChange(s, Some(container)) ==
      s.(lastKoreanText := "", hideTimer := Some(s.timersStarted),
         armed := Disarmed(s) + {s.timersStarted}, timersStarted := s.timersStarted + 1)
  {
  }

  /**
   * Resuming an evaluation whose call failed, or whose caption is no longer
   * the last one seen, only removes it.
   */
  lemma ResumeDrops(s: State, i: nat)
    requires i < |s.suspended| && s.suspended[i].request in s.outcomes
    requires s.outcomes[s.suspended[i].request].None? || s.suspended[i].text != s.lastKoreanText
    ensures ResumeSubtitleChange(s, i) == s.(suspended := s.suspended[..i] + s.suspended[i + 1..])
  {
  }

  /**
   * Resuming the evaluation of the caption seen last, whose call brought a
   * non-empty translation, shows that translation and disarms the hide.
   */
  lemma ResumeShowsCurrent(s: State, i: nat, translation: string)
    requires i < |s.suspended| && s.suspended[i].request in s.outcomes
    requires s.outcomes[s.suspended[i].request] == Some(translation) && translation != ""
    requires s.suspended[i].text == s.lastKoreanText
    ensures ResumeSubtitleChange(s, i).overlay == Some(Shown(s.overlay, translation))
    ensures ResumeSubtitleChange(s, i).armed == Disarmed(s)
  {
  }

  // ---------------------------------------------------------------------
  // Every step keeps the invariant
  // ---------------------------------------------------------------------

  lemma TranslateKeepsInv(s: State, text: string)
    requires Inv(s) && text !in s.cache.entries
    ensures var (r, reply) := TranslateText(s, text);
      Inv(r) && reply.InFlight? && reply.request < |r.calls| && r.calls[reply.request] == text
  {
    if text !in s.pending {
      IssueKeepsTracked(s.cache, s.pending, s.calls, s.outcomes, text);
      IssueKeepsWaiting(s.calls, s.suspended, text);
    }
  }

  lemma NewKoreanCaptionKeepsInv(s: State, text: string)
    requires Inv(s)
    ensures Inv(NewKoreanCaption(s, text))
  {
    if text !in s.cache.entries {
      TranslateKeepsInv(s, text);
      var (issued, reply) := TranslateText(s, text);
      var r := issued.(suspended := issued.suspended + [Suspension(text, reply.request)]);
      assert r == NewKoreanCaption(s, text);
      forall j | 0 <= j < |r.suspended|
        ensures r.suspended[j].request < |r.calls| && r.calls[r.suspended[j].request] == r.suspended[j].text
      {
        if j < |issued.suspended| {
          assert r.suspended[j] == issued.suspended[j];
        }
      }
    }
  }

  /** Handling a caption change keeps the invariant, whichever branch is taken. */
  lemma HandleSubtitleChangeKeepsInv(s: State, container: Option<Container>)
    requires Inv(s)
    ensures Inv(HandleSubtitleChange(s, container))
  {
    if Active(s) && container.Some? {
      var text := ExtractSubtitleText(container.value);
      if text != "" && text != s.lastKoreanText && IsKorean(text) {
        NewKoreanCaptionKeepsInv(s.(lastKoreanText := text), text);
      }
    }
  }

  /** A settled call keeps the invariant. */
  lemma SettleKeepsInv(s: State, request: nat, outcome: Outcome)
    requires Inv(s) && request < |s.calls| && request !in s.outcomes
    ensures Inv(SettleRequest(s, request, outcome))
  {
    var result := if outcome.Received? then Some(outcome.translation) else None;
    var r := SettleRequest(s, request, outcome);
    SettleKeepsTracked(s.cache, s.pending, s.calls, s.outcomes, request, result, r.cache);
  }

  /** A resumed evaluation keeps the invariant. */
  lemma ResumeKeepsInv(s: State, i: nat)
    requires Inv(s) && i < |s.suspended| && s.suspended[i].request in s.outcomes
    ensures Inv(ResumeSubtitleChange(s, i))
  {
    RemoveKeepsWaiting(s.calls, s.suspended, i);
  }

  /**
   * A translation that a resumed evaluation puts on screen is the result of
   * a call made for exactly the caption seen last.
   */
  lemma ShownTranslationIsCurrent(s: State, i: nat)
    requires Inv(s) && i < |s.suspended| && s.suspended[i].request in s.outcomes
    requires ResumeSubtitleChange(s, i).overlay != s.overlay
    ensures var id := s.suspended[i].request;
      && id < |s.calls| && s.calls[id] == s.lastKoreanText
      && s.outcomes[id] == Some(ResumeSubtitleChange(s, i).overlay.value.text)
  {
  }

  // ---------------------------------------------------------------------
  // Events and reachable states
  // ---------------------------------------------------------------------

  /** Everything that can happen to the content script. */
  datatype Event =
    | StorageRead(storedKey: Option<string>, storedEnabled: Option<bool>)
    | StorageChanged(delta: SettingsDelta)
    | CaptionsMutated(container: Option<Container>)
    | CallSettled(request: nat, outcome: Outcome)
    | AwaitResumed(index: nat)
    | HideTimerFired(timer: nat)
    | FullscreenToggled
    | OverlayRemoved

  /**
   * When an event can happen: the observer reports mutations only once it
   * exists; only an issued call settles, and only once; only an evaluation
   * whose call settled resumes; only an armed timer fires; only an existing
   * overlay is removed.
   */
  predicate Enabled(s: State, e: Event) {
    match e
    case CaptionsMutated(_) => s.observing
    case CallSettled(request, _) => request < |s.calls| && request !in s.outcomes
    case AwaitResumed(i) => i < |s.suspended| && s.suspended[i].request in s.outcomes
    case HideTimerFired(timer) => timer in s.armed
    case OverlayRemoved => s.overlay.Some?
    case _ => true
  }

  /**
   * What each event does: the storage listener, the observer callback, the
   * settling promise, the resumed evaluation, the timer callback and the
   * fullscreen listener (content.js:16, 25, 109, 126, 210-212).
   */
  function Next(s: State, e: Event): State
    requires Enabled(s, e)
  {
    match e
    case StorageRead(k, en) => LoadSettings(s, k, en)
    case StorageChanged(delta) => SettingsChanged(s, delta)
    case CaptionsMutated(container) => HandleSubtitleChange(s, container)
    case CallSettled(request, outcome) => SettleRequest(s, request, outcome)
    case AwaitResumed(i) => ResumeSubtitleChange(s, i)
    case HideTimerFired(timer) => HideTimerFires(s, timer)
    case FullscreenToggled => FullscreenChanged(s)
    case OverlayRemoved => OverlayDetached(s)
  }

  /** Every event keeps the invariant. */
  lemma NextKeepsInv(s: State, e: Event)
    requires Inv(s) && Enabled(s, e)
    ensures Inv(Next(s, e))
  {
    match e
    case CaptionsMutated(container) => HandleSubtitleChangeKeepsInv(s, container);
    case CallSettled(request, outcome) => SettleKeepsInv(s, request, outcome);
    case AwaitResumed(i) => ResumeKeepsInv(s, i);
    case _ =>
  }

  /**
   * `r` continues the history of `s`: the call log and the count of started
   * timers only grow, and a settled call's value never changes.
   */
  predicate Extends(s: State, r: State) {
    && |s.calls| <= |r.calls| && r.calls[..|s.calls|] == s.calls
    && s.timersStarted <= r.timersStarted
    && forall q :: q in s.outcomes ==> q in r.outcomes && r.outcomes[q] == s.outcomes[q]
  }

  /** Handling a Korean caption issues at most one new call, at the end of the log. */
  lemma NewKoreanCaptionKeepsHistory(s: State, text: string)
    ensures Extends(s, NewKoreanCaption(s, text))
  {
    var r := NewKoreanCaption(s, text);
    if text !in s.cache.entries && text !in s.pending {
      assert r.calls == s.calls + [text];
      assert r.calls[..|s.calls|] == s.calls;
    }
  }

  /** A caption mutation keeps the history. */
  lemma HandleSubtitleChangeKeepsHistory(s: State, container: Option<Container>)
    ensures Extends(s, HandleSubtitleChange(s, container))
  {
    if Active(s) && container.Some? {
      var text := ExtractSubtitleText(container.value);
      if text != "" && text != s.lastKoreanText && IsKorean(text) {
        var seen := s.(lastKoreanText := text);
        NewKoreanCaptionKeepsHistory(seen, text);
        assert HandleSubtitleChange(s, container) == NewKoreanCaption(seen, text);
      }
    }
  }

  /** No event rewrites the past: a promise settles once, and calls and timers are never renumbered. */
  lemma NextKeepsHistory(s: State, e: Event)
    requires Enabled(s, e)
    ensures Extends(s, Next(s, e))
  {
    match e
    case CaptionsMutated(container) => HandleSubtitleChangeKeepsHistory(s, container);
    case _ =>
  }

  /** The state after the events `es`, or `None` if one of them cannot happen when it comes. */
  function Run(s: State, es: seq<Event>): Option<State>
    decreases |es|
  {
    if es == [] then Some(s)
    else if Enabled(s, es[0]) then Run(Next(s, es[0]), es[1..])
    else None
  }

  /** Runs compose: the events after a first one start from its state. */
  lemma RunCons(s: State, e: Event, es: seq<Event>)
    requires Enabled(s, e)
    ensures Run(s, [e] + es) == Run(Next(s, e), es)
  {
    assert ([e] + es)[1..] == es;
  }

  /** A run of one event is that event's step. */
  lemma RunOne(s: State, e: Event)
    requires Enabled(s, e)
    ensures Run(s, [e]) == Some(Next(s, e))
  {
    RunCons(s, e, []);
    assert [e] + [] == [e];
  }

  /** A run of two events is the second event after the first. */
  lemma RunTwo(s: State, e1: Event, e2: Event)
    requires Enabled(s, e1) && Enabled(Next(s, e1), e2)
    ensures Run(s, [e1, e2]) == Some(Next(Next(s, e1), e2))
  {
    RunCons(s, e1, [e2]);
    assert [e1] + [e2] == [e1, e2];
    RunCons(Next(s, e1), e2, []);
    assert [e2] + [] == [e2];
  }

  lemma RunThree(s: State, e1: Event, e2: Event, e3: Event)
    requires Enabled(s, e1) && Enabled(Next(s, e1), e2) && Enabled(Next(Next(s, e1), e2), e3)
    ensures Run(s, [e1, e2, e3]) == Some(Next(Next(Next(s, e1), e2), e3))
  {
    RunCons(s, e1, [e2, e3]);
    assert [e1] + [e2, e3] == [e1, e2, e3];
    RunTwo(Next(s, e1), e2, e3);
  }

  /** A run of `es1 + es2` is the run of `es2` from where the run of `es1` ends. */
  lemma {:induction false} RunAppend(s: State, es1: seq<Event>, es2: seq<Event>)
    ensures Run(s, es1 + es2) == if Run(s, es1).None? then None else Run(Run(s, es1).value, es2)
    decreases |es1|
  {
    if es1 == [] {
      assert es1 + es2 == es2;
    } else {
      assert (es1 + es2)[0] == es1[0];
      assert (es1 + es2)[1..] == es1[1..] + es2;
      if Enabled(s, es1[0]) {
        RunAppend(Next(s, es1[0]), es1[1..], es2);
      }
    }
  }

  lemma {:induction false} RunKeepsInv(s: State, es: seq<Event>)
    requires Inv(s)
    ensures Run(s, es).Some? ==> Inv(Run(s, es).value)
    decreases |es|
  {
    if es != [] && Enabled(s, es[0]) {
      NextKeepsInv(s, es[0]);
      RunKeepsInv(Next(s, es[0]), es[1..]);
    }
  }

  /** The states the content script can reach from its loading. */
  ghost predicate Reachable(s: State) {
    exists es :: Run(Initial(), es) == Some(s)
  }

  /** Every reachable state satisfies the invariant. */
  lemma ReachableInv(s: State)
    requires Reachable(s)
    ensures Inv(s)
  {
    var es :| Run(Initial(), es) == Some(s);
    RunKeepsInv(Initial(), es);
  }

  /** The cache never holds more than `Capacity` translations, each under its own text. */
  lemma ReachableCacheBounded(s: State)
    requires Reachable(s)
    ensures |s.cache.order| <= Capacity && Distinct(s.cache.order)
    ensures forall t :: t in s.cache.order <==> t in s.cache.entries
  {
    ReachableInv(s);
  }

  /** At no time are two calls in flight for the same text. */
  lemma ReachableOneCallPerText(s: State, a: nat, b: nat)
    requires Reachable(s)
    requires a < |s.calls| && b < |s.calls| && a !in s.outcomes && b !in s.outcomes
    requires s.calls[a] == s.calls[b]
    ensures a == b
  {
    ReachableInv(s);
    OneCallInFlightPerText(s.calls, s.pending, s.cache, s.outcomes, a, b);
  }

  /** A text in flight is not cached, and its call is still unsettled. */
  lemma ReachablePendingNotCached(s: State, text: string)
    requires Reachable(s) && text in s.pending
    ensures text !in s.cache.entries
    ensures s.pending[text] < |s.calls| && s.calls[s.pending[text]] == text
    ensures s.pending[text] !in s.outcomes
  {
    ReachableInv(s);
  }
}
