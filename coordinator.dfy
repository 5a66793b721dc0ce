/**
 * The content script's module state as one object whose fields its event
 * handlers update in place (content.js:7-13, 201), with one method per
 * event. Each method is proved to do exactly what the corresponding
 * function of `ScriptState` says of the state as a whole, so every property
 * proved there (the invariant, the runs) holds of the object too.
 */
module Coordinators {

  import opened Wrappers
  import opened Subtitles
  import opened TranslationCache
  import opened ScriptState

  class Coordinator {
    // Settings (content.js:7-8)
    var apiKey: Option<string>
    var enabled: bool
    // Translation cache and in-flight requests (content.js:9-10)
    var cache: Cache
    var pending: map<string, nat>
    // Presentation (content.js:11-13, 201)
    var overlay: Option<Overlay>
    var lastKoreanText: string
    var hideTimer: Option<nat>
    var observing: bool
    var nltActive: bool
    // Timers: how many were started (each one's id), and those still armed
    var timersStarted: nat
    var armed: set<nat>
    // Network calls, their results, and evaluations waiting at the await
    var calls: seq<string>
    var outcomes: map<nat, Option<string>>
    var suspended: seq<Suspension>

    /** The object's fields as one state value. */
    function Snapshot(): State
      reads this
    {
      State(apiKey, enabled, cache, pending, overlay, lastKoreanText, hideTimer, observing, nltActive,
            timersStarted, armed, calls, outcomes, suspended)
    }

    /** The invariant every event keeps (see `ScriptState.Inv`). */
    ghost predicate Valid()
      reads this
    {
      Inv(Snapshot())
    }

    /** The state when the content script is loaded (content.js:7-13, 201). */
    constructor ()
      ensures Snapshot() == Initial() && Valid()
    {
      apiKey := None;
      enabled := true;
      cache := Empty();
      pending := map[];
      overlay := None;
      lastKoreanText := "";
      hideTimer := None;
      observing := false;
      nltActive := false;
      timersStarted := 0;
      armed := {};
      calls := [];
      outcomes := map[];
      suspended := [];
    }

    /** `createOverlay` (content.js:95-106). */
    method CreateOverlay()
      modifies this`overlay
      ensures Snapshot() == ScriptState.CreateOverlay(old(Snapshot()))
    {
      if overlay.Some? && overlay.value.connected {
        return;
      }
      overlay := Some(FreshOverlay);
    }

    /** `init` (content.js:203-221). */
    method Init()
      modifies this`nltActive, this`overlay, this`observing
      ensures Snapshot() == ScriptState.Init(old(Snapshot()))
    {
      if observing {
        return;
      }
      nltActive := true;
      CreateOverlay();
      observing := true;
    }

    /** The callback of the settings read at start-up (content.js:16-22). */
    method LoadSettings(storedKey: Option<string>, storedEnabled: Option<bool>)
      modifies this`apiKey, this`enabled, this`nltActive, this`overlay, this`observing
      ensures Snapshot() == ScriptState.LoadSettings(old(Snapshot()), storedKey, storedEnabled)
    {
      apiKey := if storedKey == Some("") then None else storedKey;
      enabled := storedEnabled != Some(false);
      if apiKey.Some? && apiKey.value != "" && enabled {
        Init();
      }
    }

    /** The settings-change listener (content.js:25-40). */
    method SettingsChanged(delta: SettingsDelta)
      modifies this`apiKey, this`enabled, this`nltActive, this`overlay, this`observing
      ensures Snapshot() == ScriptState.SettingsChanged(old(Snapshot()), delta)
    {
      apiKey := if delta.apiKey.Some? then delta.apiKey.value else apiKey;
      enabled := if delta.enabled.Some? then delta.enabled.value else enabled;
      if apiKey.Some? && apiKey.value != "" && enabled {
        Init();
      } else {
        overlay := None;
        nltActive := false;
      }
    }

    /**
     * `translateText` (content.js:43-92) up to its first `await`: the reply
     * and the new state are those `ScriptState.TranslateText` gives.
     */
    method TranslateText(text: string) returns (reply: Reply)
      modifies this`pending, this`calls
      ensures (Snapshot(), reply) == ScriptState.TranslateText(old(Snapshot()), text)
    {
      if text in cache.entries {
        return Cached(cache.entries[text]);
      }
      if text in pending {
        return InFlight(pending[text]);
      }
      var request := |calls|;
      calls := calls + [text];
      pending := pending[text := request];
      reply := InFlight(request);
    }

    /** Network call `request` settles (content.js:66-87). */
    method SettleRequest(request: nat, outcome: Outcome)
      requires request < |calls| && request !in outcomes
      modifies this`pending, this`cache, this`outcomes
      ensures Snapshot() == ScriptState.SettleRequest(old(Snapshot()), request, outcome)
    {
      var text := calls[request];
      match outcome {
        case Received(translation) =>
          cache := Put(cache, text, translation);
          outcomes := outcomes[request := Some(translation)];
        case Failed =>
          outcomes := outcomes[request := None];
      }
      pending := pending - {text};
    }

    /** `showTranslation` (content.js:115-120). */
    method ShowTranslation(text: string)
      modifies this`overlay, this`armed
      ensures Snapshot() == ScriptState.ShowTranslation(old(Snapshot()), text)
    {
      if overlay.None? {
        CreateOverlay();
      }
      if hideTimer.Some? {
        armed := armed - {hideTimer.value};
      }
      overlay := Some(overlay.value.(text := text, display := Block));
    }

    /** `hideTranslation` (content.js:122-132): timer number `timersStarted` is armed. */
    method HideTranslation()
      modifies this`hideTimer, this`timersStarted, this`armed
      ensures Snapshot() == ScriptState.HideTranslation(old(Snapshot()))
    {
      if hideTimer.Some? {
        armed := armed - {hideTimer.value};
      }
      hideTimer := Some(timersStarted);
      armed := armed + {timersStarted};
      timersStarted := timersStarted + 1;
    }

    /** The armed hide timer `timer` fires (content.js:126-131). */
    method HideTimerFires(timer: nat)
      requires timer in armed
      modifies this`overlay, this`armed
      ensures Snapshot() == ScriptState.HideTimerFires(old(Snapshot()), timer)
    {
      armed := armed - {timer};
      if overlay.Some? {
        overlay := Some(overlay.value.(text := "", display := NoDisplay));
      }
    }

    /** The `fullscreenchange` listener (content.js:109-113). */
    method FullscreenChanged()
      modifies this`overlay
      ensures Snapshot() == ScriptState.FullscreenChanged(old(Snapshot()))
    {
      overlay := None;
      CreateOverlay();
    }

    /** The page removes the overlay element from its tree (content.js:96). */
    method OverlayDetached()
      requires overlay.Some?
      modifies this`overlay
      ensures Snapshot() == ScriptState.OverlayDetached(old(Snapshot()))
    {
      overlay := Some(overlay.value.(connected := false));
    }

    /** A new Korean caption, shown from the cache or suspended on its translation (content.js:187-194). */
    method NewKoreanCaption(text: string)
      modifies this`overlay, this`armed, this`pending, this`calls, this`suspended
      ensures Snapshot() == ScriptState.NewKoreanCaption(old(Snapshot()), text)
    {
      if text in cache.entries {
        ShowTranslation(cache.entries[text]);
        return;
      }
      var reply := TranslateText(text);
      suspended := suspended + [Suspension(text, reply.request)];
    }

    /** The caption `text` the container yielded, handled up to the `await` (content.js:170-194). */
    method HandleCaption(text: string)
      modifies this`lastKoreanText, this`hideTimer, this`timersStarted, this`armed, this`overlay,
               this`pending, this`calls, this`suspended
      ensures Snapshot() == ScriptState.HandleCaption(old(Snapshot()), text)
    {
      if text == "" {
        lastKoreanText := "";
        HideTranslation();
        return;
      }
      if text == lastKoreanText {
        return;
      }
      lastKoreanText := text;
      if !IsKorean(text) {
        HideTranslation();
        return;
      }
      NewKoreanCaption(text);
    }

    /** The observer's callback, `handleSubtitleChange` (content.js:154-199), up to its `await`. */
    method HandleSubtitleChange(container: Option<Container>)
      modifies this`lastKoreanText, this`hideTimer, this`timersStarted, this`armed, this`overlay,
               this`pending, this`calls, this`suspended
      ensures Snapshot() == ScriptState.HandleSubtitleChange(old(Snapshot()), container)
    {
      if !(apiKey.Some? && apiKey.value != "" && enabled) {
        return;
      }
      if container.None? {
        HideTranslation();
        return;
      }
      HandleCaption(ExtractSubtitleText(container.value));
    }

    /** The evaluation `suspended[i]` resumes after its request settled (content.js:194-198). */
    method ResumeSubtitleChange(i: nat)
      requires i < |suspended| && suspended[i].request in outcomes
      modifies this`suspended, this`overlay, this`armed
      ensures Snapshot() == ScriptState.ResumeSubtitleChange(old(Snapshot()), i)
    {
      var w := suspended[i];
      suspended := suspended[..i] + suspended[i + 1..];
      var translated := outcomes[w.request];
      if translated.Some? && translated.value != "" && w.text == lastKoreanText {
        ShowTranslation(translated.value);
      }
    }
    /**
     * The event loop hands event `e` to its handler; every event keeps the
     * invariant, and the new state is the one `ScriptState.Next` gives.
     */
    method Dispatch(e: Event)
      requires Valid() && Enabled(Snapshot(), e)
      modifies this
      ensures Valid()
      ensures Snapshot() == Next(old(Snapshot()), e)
    {
      NextKeepsInv(Snapshot(), e);
      match e {
        case StorageRead(storedKey, storedEnabled) => LoadSettings(storedKey, storedEnabled);
        case StorageChanged(delta) => SettingsChanged(delta);
        case CaptionsMutated(container) => HandleSubtitleChange(container);
        case CallSettled(request, outcome) => SettleRequest(request, outcome);
        case AwaitResumed(i) => ResumeSubtitleChange(i);
        case HideTimerFired(timer) => HideTimerFires(timer);
        case FullscreenToggled => FullscreenChanged();
        case OverlayRemoved => OverlayDetached();
      }
    }
  }
}
