# Netflix Live Translator: the content script's caption pipeline

This project models the content script of the Netflix Live Translator
extension (`content.js`). The script hides Netflix's own Korean captions and
shows an English translation in an overlay of its own.

Four parts are modelled:
- **The caption test and caption extraction** (`subtitles.dfy`, module
  `Subtitles`). `IsKorean` checks three Hangul ranges. `ExtractSubtitleText`
  trims each child line, drops the empty ones and joins the rest with single
  spaces; with no child lines it trims the container's whole text.
  ECMAScript `String.prototype.trim` is modelled with the code points it
  removes.
- **The translation cache** (`translation_cache.dfy`, module
  `TranslationCache`). It is a JavaScript `Map` in insertion order. A success
  stores the translation, then deletes the first key once there are more
  than 500.
- **The script's module state and each event's effect on it**
  (`script_state.dfy`, module `ScriptState`). Each event is a pure function
  on the state:
  - the stored settings read at load;
  - a settings change;
  - a caption mutation, with the caption container, if any, given as input;
  - a network call settling;
  - a suspended `handleSubtitleChange` evaluation resuming after its `await`;
  - the hide timer firing;
  - a fullscreen change;
  - the page detaching the overlay.

  Promises are explicit. Each call is logged, and its index is its request
  number. A settled call's value is kept. An evaluation that reached the
  `await` waits in a list until it is resumed. Whoever supplies the events
  chooses which call settles next and which evaluation resumes next, so every
  completion order is covered.
  - `Inv` is the invariant. The cache is bounded and well formed. Each
    pending text has exactly one unsettled call. Each waiting evaluation waits
    for a call made for its own text. At most one hide timer is armed. The
    observer runs whenever the script is active.
  - `NextKeepsInv` proves every event preserves `Inv`, and `ReachableInv`
    proves it holds in every state reachable from load.
- **The coordinator object** (`coordinator.dfy`, class
  `Coordinators.Coordinator`). It holds the same fields and updates them in
  place, with one method per handler. Each method is proved to produce
  exactly the state its `ScriptState` function gives. `Dispatch` is the event
  loop: it passes an event to its handler and keeps `Valid`.

`scenarios.dfy` (module `Scenarios`) proves whole runs from load: first
translation, shared in-flight call, stale result, failure and retry,
switching off and on, and hide hysteresis.

Where the code does something its comments or its documentation do not say, the
model follows the code:
- A mutation with no caption container schedules a hide but keeps
  `lastKoreanText` (content.js:163-166).
- Switching off removes the overlay and the `nlt-active` class. It does not
  stop the observer and does not clear `lastKoreanText` (content.js:34-39).
- Switching on again calls `init`, which returns at once because the observer
  exists, so the native captions stay visible and no overlay is created
  (content.js:204). See `Scenarios.SwitchedBackOn`.
- A translation that settles after switching off is still shown, in a newly
  created overlay (content.js:116, 196-197). See
  `Scenarios.ShownAfterSwitchingOff`.
- An empty translation is cached like any other (content.js:73). The resume
  does not show it (`translated` is falsy), but a later cache hit shows the
  empty string (content.js:188-189). It is not treated as a failure.
- `showTranslation` creates an overlay only when there is none
  (content.js:116). An overlay the page detached stays detached, and the text
  is written into a node that is no longer in the page. `ScriptState.Shown`
  keeps the `connected` flag.
- A new Korean caption that misses the cache does not clear an armed hide
  timer. Only `showTranslation` and `hideTranslation` clear it
  (content.js:117, 125).

## Model

| member | source | states |
|---|---|---|
| `Subtitles.IsKorean` | content.js:149-151 | true exactly when some character of the text lies in U+AC00–U+D7AF, U+1100–U+11FF or U+3130–U+318F |
| `Subtitles.SkipLeading` | content.js:141 | the index where leading whitespace ends: every character before it is whitespace and the one at it, if any, is not |
| `Subtitles.SkipTrailing` | content.js:141 | the index where trailing whitespace starts: every character from it on is whitespace and the one before it, if any, is not |
| `Subtitles.Trim` | content.js:141 | the result has no whitespace at either end and is a slice of the input with only whitespace on each side of it |
| `Subtitles.TrimSlice` | content.js:141 | the text between the two skip points has no outer whitespace and only whitespace lies outside it |
| `Subtitles.TrimOfPadded` | content.js:141 | trimming whitespace + core + whitespace gives exactly the core, when the core has no outer whitespace |
| `Subtitles.KeptLine` | content.js:141-142 | a line gives at most one part, which is non-empty and trimmed |
| `Subtitles.KeptLines` | content.js:140-142 | never more parts than lines; every part is non-empty and trimmed |
| `Subtitles.KeptLinesEmpty` | content.js:140-142 | no part is kept exactly when every line trims to the empty string |
| `Subtitles.KeptLinesAppend` | content.js:140-142 | line order is kept: the parts of `a + b` are the parts of `a` followed by those of `b` |
| `Subtitles.JoinWithSpaces` | content.js:143 | `Array.prototype.join(" ")`: no parts give "", one part is itself, and otherwise the first part, one space, then the join of the rest |
| `Subtitles.JoinedIsTrimmed` | content.js:143 | joining non-empty trimmed parts with spaces gives a trimmed string, empty exactly when there are no parts |
| `Subtitles.JoinedLength` | content.js:143 | the joined length is the parts' lengths plus one separator between each pair |
| `Subtitles.JoinedPartAt` | content.js:143 | each part appears in the joined string at its offset, in order, followed by a single space unless it is the last |
| `Subtitles.ExtractSubtitleText` | content.js:135-146 | the extracted caption never has leading or trailing whitespace |
| `Subtitles.ExtractedEmpty` | content.js:138-145 | the caption is empty exactly when all child lines are blank, or, with no child lines, when the whole text is blank |
| `Subtitles.ExtractOneLine` | content.js:138-143 | a single child line yields its text without the surrounding whitespace, whatever the container's whole text |
| `TranslationCache.Empty` | content.js:9 | a new map is bounded and has no entries |
| `TranslationCache.Set` | content.js:73 | `set` adds or replaces the entry; a new key goes last, an existing key keeps its place; well-formedness is kept |
| `TranslationCache.DeleteOldest` | content.js:77-78 | deleting the first key drops it from both the order and the table; well-formedness is kept |
| `TranslationCache.Put` | content.js:73-79 | a bounded cache stays bounded and gains the entry; the oldest key is evicted exactly when a new key meets a full cache; nothing else changes |
| `TranslationCache.PutAll` | content.js:73-79 | any sequence of successes into a bounded cache leaves it bounded |
| `TranslationCache.FillFromEmpty` | content.js:75-79 | after distinct texts are inserted into an empty cache, it holds the most recent 500 of them, oldest first |
| `TranslationCache.FillKeepsNewest` | content.js:75-79 | after distinct insertions a text is still cached exactly when it is among the most recent 500, so after 501 the first is gone and the rest remain |
| `ScriptState.Active` | content.js:155 | the `apiKey && enabled` test (also at content.js:19 and 32): a stored key that is not the empty string, and the switch on |
| `ScriptState.Initial` | content.js:7-13 | the state at load keeps the invariant; the script is inactive and not observing |
| `ScriptState.IssueKeepsTracked` | content.js:86-90 | issuing a call for a text neither cached nor pending keeps the request bookkeeping |
| `ScriptState.SettleKeepsTracked` | content.js:73-86 | settling an unsettled call removes its text from pending, caches a success, and keeps the bookkeeping |
| `ScriptState.OneCallInFlightPerText` | content.js:48-50 | no two unsettled calls are for the same text |
| `ScriptState.RemoveKeepsWaiting` | content.js:194-198 | removing a resumed evaluation keeps every other evaluation waiting on a call for its own text |
| `ScriptState.Attached` | content.js:96-105 | the overlay afterwards is present and connected; a connected overlay is kept as it is |
| `ScriptState.CreateOverlay` | content.js:95-106 | only the overlay changes, to the attached one |
| `ScriptState.Init` | content.js:203-221 | with the observer running nothing changes; otherwise the native captions are hidden, the overlay is attached and observing starts, and nothing else changes |
| `ScriptState.LoadSettings` | content.js:16-22 | an empty key reads as none; only a stored `false` disables; the script is initialised exactly when it is then active, and otherwise only the two settings change |
| `ScriptState.SettingsChanged` | content.js:25-40 | a reported key or switch replaces the old value; if the script is then active it is initialised, otherwise the overlay and `nlt-active` go and the observer and last text stay |
| `ScriptState.TranslateText` | content.js:43-92 | a cache hit returns the value with no call; a pending text shares its request; any other text issues exactly one new call and is marked pending; nothing else changes |
| `ScriptState.SettleRequest` | content.js:66-87 | the text leaves pending whatever the outcome; a failure resolves to null with the cache unchanged; a success is put into the cache and becomes the value |
| `ScriptState.Disarmed` | content.js:117 | `clearTimeout(hideTimer)` disarms the latest timer; under the invariant no timer is left armed |
| `ScriptState.Shown` | content.js:115-120 | the overlay shows the text visibly; an existing overlay keeps its connected flag |
| `ScriptState.ShowTranslation` | content.js:115-120 | the overlay is created if absent and shows the text; the pending hide is cancelled; nothing else changes |
| `ScriptState.HideTranslation` | content.js:122-132 | the armed timer is replaced by one new timer; the overlay is not touched yet |
| `ScriptState.HideTimerFires` | content.js:126-131 | an overlay, if any, is emptied and hidden; the timer is no longer armed; nothing else changes |
| `ScriptState.FullscreenChanged` | content.js:109-113 | the overlay is replaced by a fresh attached one; nothing else changes |
| `ScriptState.OverlayDetached` | content.js:96 | the page removing the node clears only its connected flag |
| `ScriptState.NewKoreanCaption` | content.js:187-194 | a cached caption is shown at once; any other suspends on its request, new or shared |
| `ScriptState.HandleCaption` | content.js:170-194 | empty text schedules a hide and forgets the last text; the last text changes nothing; a new caption becomes the last text and then schedules a hide if it is not Korean, is shown if cached, or waits |
| `ScriptState.HandleSubtitleChange` | content.js:154-199 | inactive changes nothing; no container schedules a hide and keeps the last text; otherwise the extracted caption is handled |
| `ScriptState.ResumeSubtitleChange` | content.js:194-198 | the evaluation leaves the waiting list and shows its translation only when it is non-empty and its caption is still the last text; otherwise nothing else changes |
| `ScriptState.NewCaptionRequested` | content.js:177-194 | a new Korean caption that is neither cached nor pending issues one call, becomes the last text and waits on that call |
| `ScriptState.InFlightCaptionShared` | content.js:48-49 | a new Korean caption already in flight waits on the existing call, with no new call |
| `ScriptState.CachedCaptionShown` | content.js:187-190 | a new Korean caption with a cached translation shows it and cancels the pending hide |
| `ScriptState.CaptionCleared` | content.js:171-175 | an empty caption forgets the last text and arms a new hide timer |
| `ScriptState.ResumeDrops` | content.js:196 | a failed or superseded evaluation is dropped without a trace |
| `ScriptState.ResumeShowsCurrent` | content.js:196-197 | a successful evaluation whose caption is still current shows its translation and cancels the pending hide |
| `ScriptState.TranslateKeepsInv` | content.js:43-92 | a new request keeps the invariant and its request is for the text asked |
| `ScriptState.NewKoreanCaptionKeepsInv` | content.js:187-194 | handling a new Korean caption keeps the invariant |
| `ScriptState.HandleSubtitleChangeKeepsInv` | content.js:154-194 | every caption mutation keeps the invariant |
| `ScriptState.SettleKeepsInv` | content.js:66-87 | settling an issued, unsettled call keeps the invariant |
| `ScriptState.ResumeKeepsInv` | content.js:194-198 | resuming an evaluation keeps the invariant |
| `ScriptState.ShownTranslationIsCurrent` | content.js:194-197 | whatever a resume puts on screen is the result of a call for the caption that is current |
| `ScriptState.Enabled` | content.js:16-212 | when each event can occur: mutations only once the observer exists, a call settles only once it was issued and only once, an evaluation resumes only after its call settled, only an armed timer fires, only an existing overlay is removed |
| `ScriptState.Next` | content.js:16-212 | routes each event to its handler (listeners at lines 16, 25 and 109, the timer callback at 126, the observer callback at 210-212): storage read and change, observer callback, settling call, resumed evaluation, timer callback, fullscreen listener, overlay removal |
| `ScriptState.NextKeepsInv` | content.js:16-221 | every event keeps the invariant |
| `ScriptState.NewKoreanCaptionKeepsHistory` | content.js:187-194 | a Korean caption adds at most one call, at the end of the log; settled values and timer numbers are untouched |
| `ScriptState.HandleSubtitleChangeKeepsHistory` | content.js:154-194 | a caption mutation keeps the history: the call log and timer count only grow and settled values stay |
| `ScriptState.NextKeepsHistory` | content.js:16-221 | no event rewrites the past: the call log is only appended to, the timer count only grows, and a settled call's value never changes (a promise settles once) |
| `ScriptState.RunCons` | content.js:16-221 | a run is its first event followed by the rest |
| `ScriptState.RunAppend` | content.js:16-221 | runs compose: a run of `es1 + es2` continues from where `es1` ends |
| `ScriptState.RunKeepsInv` | content.js:16-221 | any run from a state satisfying the invariant ends in one satisfying it |
| `ScriptState.ReachableInv` | content.js:7-221 | every state reachable from load satisfies the invariant |
| `ScriptState.ReachableCacheBounded` | content.js:73-79 | in every reachable state the cache has at most 500 distinct keys, exactly those of its table |
| `ScriptState.ReachableOneCallPerText` | content.js:48-50 | in every reachable state no two unsettled calls are for the same text |
| `ScriptState.ReachablePendingNotCached` | content.js:44-50 | in every reachable state a pending text is not cached and has exactly its own unsettled call |
| `Coordinators.Coordinator.constructor` | content.js:7-13 | the object starts in the state at load and is valid |
| `Coordinators.Coordinator.CreateOverlay` | content.js:95-106 | the new state is `ScriptState.CreateOverlay` of the old |
| `Coordinators.Coordinator.Init` | content.js:203-221 | the new state is `ScriptState.Init` of the old |
| `Coordinators.Coordinator.LoadSettings` | content.js:16-22 | the new state is `ScriptState.LoadSettings` of the old |
| `Coordinators.Coordinator.SettingsChanged` | content.js:25-40 | the new state is `ScriptState.SettingsChanged` of the old |
| `Coordinators.Coordinator.TranslateText` | content.js:43-92 | the reply and the new state are those of `ScriptState.TranslateText` |
| `Coordinators.Coordinator.SettleRequest` | content.js:66-87 | the new state is `ScriptState.SettleRequest` of the old |
| `Coordinators.Coordinator.ShowTranslation` | content.js:115-120 | the new state is `ScriptState.ShowTranslation` of the old |
| `Coordinators.Coordinator.HideTranslation` | content.js:122-132 | the new state is `ScriptState.HideTranslation` of the old |
| `Coordinators.Coordinator.HideTimerFires` | content.js:126-131 | the new state is `ScriptState.HideTimerFires` of the old |
| `Coordinators.Coordinator.FullscreenChanged` | content.js:109-113 | the new state is `ScriptState.FullscreenChanged` of the old |
| `Coordinators.Coordinator.OverlayDetached` | content.js:96 | the new state is `ScriptState.OverlayDetached` of the old |
| `Coordinators.Coordinator.NewKoreanCaption` | content.js:187-194 | the new state is `ScriptState.NewKoreanCaption` of the old |
| `Coordinators.Coordinator.HandleCaption` | content.js:170-194 | the new state is `ScriptState.HandleCaption` of the old |
| `Coordinators.Coordinator.HandleSubtitleChange` | content.js:154-199 | the new state is `ScriptState.HandleSubtitleChange` of the old |
| `Coordinators.Coordinator.ResumeSubtitleChange` | content.js:194-198 | the new state is `ScriptState.ResumeSubtitleChange` of the old |
| `Coordinators.Coordinator.Dispatch` | content.js:16-221 | any event that can happen keeps the object valid, and the new state is `ScriptState.Next` of the old |
| `Scenarios.StartedWithKey` | content.js:16-22 | a stored non-empty key at load hides the native captions, attaches the overlay and starts observing |
| `Scenarios.SwitchedOff` | content.js:34-39 | switching off removes the overlay and `nlt-active` and changes nothing else |
| `Scenarios.OpeningRequests` | content.js:154-194 | the first Korean caption after load issues exactly one call and waits on it |
| `Scenarios.CallSucceeds` | content.js:73-86 | a successful first call is cached and leaves pending |
| `Scenarios.CurrentResumeShows` | content.js:194-197 | its evaluation resumes with the caption still current and shows the translation |
| `Scenarios.TranslationArrives` | content.js:66-197 | success then resume leaves the translation cached and on screen |
| `Scenarios.FirstCaptionShown` | content.js:154-199 | load, caption, success and resume: one call, translation visible in the overlay |
| `Scenarios.InFlightCaptionReturns` | content.js:171-194 | a caption that vanishes and returns during its call waits on the same call again |
| `Scenarios.ReturningCaptionSharesCall` | content.js:48-50 | from load: two evaluations wait, but only one call is made |
| `Scenarios.SecondCaptionRequested` | content.js:177-194 | a different second caption issues its own call and becomes the last text |
| `Scenarios.FirstCallSucceedsLate` | content.js:73-86 | the first call then succeeds: cached, and only the second text stays pending |
| `Scenarios.SecondCaptionOvertakes` | content.js:177-194 | a different second caption, then call 0 succeeding: the first text is cached, only the second stays pending, and both evaluations still wait |
| `Scenarios.StaleResumeThenCacheHit` | content.js:187-196 | the superseded evaluation shows nothing; the first caption's return shows the cached translation with no new call |
| `Scenarios.StaleTranslationCached` | content.js:187-196 | from load: a stale result never reaches the screen, but serves the caption's next appearance from the cache |
| `Scenarios.CallFails` | content.js:66-69 | a failed call leaves nothing cached, pending or shown |
| `Scenarios.CaptionRetried` | content.js:171-194 | after a failure the caption's next appearance makes a second call |
| `Scenarios.FailureRetried` | content.js:82-87 | from load: a failure shows nothing, caches nothing, and is retried on the next appearance |
| `Scenarios.SwitchedOffInFlight` | content.js:32-39 | switching off during a call, then success and resume, still shows the translation |
| `Scenarios.ShownAfterSwitchingOff` | content.js:194-197 | from load: inactive, native captions visible, and yet the late translation is shown in a new overlay |
| `Scenarios.SwitchedBackOn` | content.js:204 | switching off and on leaves the script active and observing, with no overlay and the native captions visible |
| `Scenarios.CaptionBlinks` | content.js:117-131 | a caption that clears and returns arms a hide timer, then cancels it |
| `Scenarios.CaptionGoes` | content.js:171-175 | the caption clearing again arms the next timer |
| `Scenarios.PendingHideFires` | content.js:126-130 | that timer firing empties and hides the overlay |
| `Scenarios.HideRunsItsCourse` | content.js:122-131 | a cancelled timer can no longer fire; a hide that runs its course empties and hides the overlay |
| `Scenarios.HideLingers` | content.js:122-132 | from load: a caption that returns within the delay keeps the translation on screen and its timer cannot fire; one that stays gone is hidden |

## Left out

- The network call: the URL, the `fetch`, its headers and JSON body, the response status and the JSON parsing (content.js:54-72). A call's outcome is an input event: a translation string or a failure. A response whose `translatedText` is not a string is not modelled.
- `chrome.storage` itself (content.js:16, 25). The stored values and the change notifications are event inputs. A removed `enabled` key reads as falsy and arrives as `false`. A removed API key arrives as `None`.
- DOM lookups with CSS selectors and the choice of player anchor (content.js:100-105, 158-161). The container is given as input, as its child lines' text and its whole text, and attachment is a `connected` flag.
- `MutationObserver` and its options (content.js:210-218). The observer is the `observing` flag, and a mutation is an event that can happen only while it is set.
- Real time: `setTimeout` and `clearTimeout` are numbered timers that are armed and disarmed. The 1500 ms delay is recorded as the constant `HideDelayMs`, which no definition uses, because time itself is not modelled, and a timer fires only when its event is supplied.
- The CSS that hides the native captions, beyond the `nlt-active` flag, and the console logging.
- popup.js, the settings form, is not part of this model.
- UTF-16: strings are sequences of Dafny characters. Every character the script tests or trims is outside the surrogate range, so the answers are the same.
- Run order: the stored settings may be read at any point in a run, or more than once, although the browser reads them once at load.
- TranslationCache.Put: its ensures hold for a bounded cache only. Every cache the script builds is bounded (`ScriptState.ReachableCacheBounded`).
- Coordinators.Coordinator: the handler methods do not carry the invariant themselves. `Dispatch` keeps `Valid` for every event, through `ScriptState.NextKeepsInv`.
