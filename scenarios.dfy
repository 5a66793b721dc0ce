/**
 * Runs of the content script from its loading on, each a sequence of
 * events, with what the user then sees. Caption containers, captions, keys
 * and translations are arbitrary values of the kind named in each `requires`.
 * Each run is put together from short stretches whose end state is given
 * outright.
 */
module Scenarios {

  import opened Wrappers
  import opened Subtitles
  import opened TranslationCache
  import opened ScriptState

  // ---------------------------------------------------------------------
  // Stretches shared by several runs
  // ---------------------------------------------------------------------

  /** The page loads with a key stored, then a caption appears in `box`. */
  function Opening(key: string, box: Container): seq<Event> {
    [StorageRead(Some(key), None), CaptionsMutated(Some(box))]
  }

  /** The state once the first caption has issued call 0 and waits on it. */
  function Requested(key: string, caption: string): State {
    Initial().(apiKey := Some(key), observing := true, nltActive := true, overlay := Some(FreshOverlay),
               lastKoreanText := caption, calls := [caption], pending := map[caption := 0],
               suspended := [Suspension(caption, 0)])
  }

  /** The state once call 0 has succeeded and its translation is on screen. */
  function Displayed(key: string, caption: string, translation: string): State {
    Requested(key, caption).(pending := map[], cache := Put(Empty(), caption, translation),
                             outcomes := map[0 := Some(translation)], suspended := [],
                             overlay := Some(Overlay(translation, Block, true)))
  }

  /** A non-empty key found at start-up hides the native captions, attaches the overlay and starts the observer. */
  lemma StartedWithKey(key: string)
    requires key != ""
    ensures LoadSettings(Initial(), Some(key), None) ==
      Initial().(apiKey := Some(key), observing := true, nltActive := true, overlay := Some(FreshOverlay))
  {
  }

  /** Switching off: the overlay goes and the native captions come back; nothing else changes. */
  lemma SwitchedOff(s: State)
    requires s.apiKey.Some? && s.apiKey.value != ""
    ensures SettingsChanged(s, SettingsDelta(None, Some(false))) ==
      s.(enabled := false, overlay := None, nltActive := false)
  {
  }

  /** The first Korean caption after loading issues exactly one call and waits on it. */
  lemma OpeningRequests(box: Container, caption: string, key: string)
    requires ExtractSubtitleText(box) == caption && caption != "" && IsKorean(caption) && key != ""
    ensures Run(Initial(), Opening(key, box)) == Some(Requested(key, caption))
  {
    var e1, e2 := StorageRead(Some(key), None), CaptionsMutated(Some(box));
    var s0 := Initial();
    StartedWithKey(key);
    var s1 := LoadSettings(s0, Some(key), None);
    NewCaptionRequested(s1, box, caption);
    var s2 := HandleSubtitleChange(s1, Some(box));
    assert s2 == Requested(key, caption);
    assert Next(s0, e1) == s1 && Next(s1, e2) == s2;
    RunTwo(s0, e1, e2);
  }

  /** The state once call 0 has succeeded, before its evaluation resumes. */
  function Translated(key: string, caption: string, translation: string): State {
    Requested(key, caption).(pending := map[], cache := Put(Empty(), caption, translation),
                             outcomes := map[0 := Some(translation)])
  }

  /** Call 0 succeeds: the translation is cached and nothing is in flight. */
  lemma CallSucceeds(key: string, caption: string, translation: string)
    ensures Enabled(Requested(key, caption), CallSettled(0, Received(translation)))
    ensures Next(Requested(key, caption), CallSettled(0, Received(translation))) ==
      Translated(key, caption, translation)
  {
  }

  /** The evaluation resumes while its caption is still current and shows the translation. */
  lemma CurrentResumeShows(key: string, caption: string, translation: string)
    requires key != "" && translation != ""
    ensures Enabled(Translated(key, caption, translation), AwaitResumed(0))
    ensures Next(Translated(key, caption, translation), AwaitResumed(0)) == Displayed(key, caption, translation)
  {
    var s3 := Translated(key, caption, translation);
    assert s3.outcomes[0] == Some(translation) && s3.suspended[0] == Suspension(caption, 0);
    ResumeShowsCurrent(s3, 0, translation);
  }

  /** Call 0 succeeds while its caption is still current: the translation is cached and shown. */
  lemma TranslationArrives(key: string, caption: string, translation: string)
    requires key != "" && translation != ""
    ensures Run(Requested(key, caption), [CallSettled(0, Received(translation)), AwaitResumed(0)]) ==
      Some(Displayed(key, caption, translation))
  {
    CallSucceeds(key, caption, translation);
    CurrentResumeShows(key, caption, translation);
    RunTwo(Requested(key, caption), CallSettled(0, Received(translation)), AwaitResumed(0));
  }

  // ---------------------------------------------------------------------
  // Runs
  // ---------------------------------------------------------------------

  /**
   * The first Korean caption is translated by one call and, once the call
   * succeeds, shown in a fresh overlay.
   */
  lemma FirstCaptionShown(box: Container, caption: string, key: string, translation: string)
    requires ExtractSubtitleText(box) == caption
    requires caption != "" && IsKorean(caption) && key != "" && translation != ""
    ensures var r := Run(Initial(), Opening(key, box) + [CallSettled(0, Received(translation)), AwaitResumed(0)]);
      r.Some? && r.value.calls == [caption] && r.value.overlay == Some(Overlay(translation, Block, true))
  {
    OpeningRequests(box, caption, key);
    TranslationArrives(key, caption, translation);
    RunAppend(Initial(), Opening(key, box), [CallSettled(0, Received(translation)), AwaitResumed(0)]);
  }

  /** A caption that leaves and returns while its call is in flight waits on that call again. */
  lemma InFlightCaptionReturns(blank: Container, box: Container, caption: string, key: string)
    requires ExtractSubtitleText(box) == caption && ExtractSubtitleText(blank) == ""
    requires caption != "" && IsKorean(caption) && key != ""
    ensures var r := Run(Requested(key, caption), [CaptionsMutated(Some(blank)), CaptionsMutated(Some(box))]);
      r.Some? && r.value.calls == [caption]
      && r.value.suspended == [Suspension(caption, 0), Suspension(caption, 0)]
  {
    var e1, e2 := CaptionsMutated(Some(blank)), CaptionsMutated(Some(box));
    var s2 := Requested(key, caption);
    CaptionCleared(s2, blank);
    var s3 := HandleSubtitleChange(s2, Some(blank));
    assert Next(s2, e1) == s3;
    assert s3.pending == map[caption := 0] && s3.cache == Empty() && s3.lastKoreanText == "";
    InFlightCaptionShared(s3, box, caption);
    var s4 := HandleSubtitleChange(s3, Some(box));
    assert Next(s3, e2) == s4;
    RunTwo(s2, e1, e2);
  }

  /**
   * A caption that comes back while its translation is still in flight
   * waits on the same call: two waiting evaluations, one call.
   */
  lemma ReturningCaptionSharesCall(box: Container, blank: Container, caption: string, key: string)
    requires ExtractSubtitleText(box) == caption && ExtractSubtitleText(blank) == ""
    requires caption != "" && IsKorean(caption) && key != ""
    ensures var r := Run(Initial(), Opening(key, box) + [CaptionsMutated(Some(blank)), CaptionsMutated(Some(box))]);
      r.Some? && r.value.calls == [caption]
      && r.value.suspended == [Suspension(caption, 0), Suspension(caption, 0)]
  {
    OpeningRequests(box, caption, key);
    InFlightCaptionReturns(blank, box, caption, key);
    RunAppend(Initial(), Opening(key, box), [CaptionsMutated(Some(blank)), CaptionsMutated(Some(box))]);
  }

  /** The state once a second caption has issued call 1 and call 0, for the first, has succeeded. */
  function SecondAwaited(key: string, first: string, second: string, translation: string): State {
    Requested(key, first).(lastKoreanText := second, calls := [first, second], pending := map[second := 1],
                           suspended := [Suspension(first, 0), Suspension(second, 1)],
                           cache := Put(Empty(), first, translation), outcomes := map[0 := Some(translation)])
  }

  /** The state once a second caption has issued call 1 while call 0 is in flight. */
  function BothInFlight(key: string, first: string, second: string): State {
    Requested(key, first).(lastKoreanText := second, calls := [first, second],
                           pending := map[first := 0, second := 1],
                           suspended := [Suspension(first, 0), Suspension(second, 1)])
  }

  /** A second, different caption issues its own call. */
  lemma SecondCaptionRequested(box2: Container, first: string, second: string, key: string)
    requires ExtractSubtitleText(box2) == second && second != "" && IsKorean(second) && first != second
    requires key != ""
    ensures Enabled(Requested(key, first), CaptionsMutated(Some(box2)))
    ensures Next(Requested(key, first), CaptionsMutated(Some(box2))) == BothInFlight(key, first, second)
  {
    var s2 := Requested(key, first);
    NewCaptionRequested(s2, box2, second);
    assert Next(s2, CaptionsMutated(Some(box2))) == HandleSubtitleChange(s2, Some(box2));
    assert s2.calls + [second] == [first, second];
    assert s2.suspended + [Suspension(second, 1)] == [Suspension(first, 0), Suspension(second, 1)];
  }

  /** Call 0 succeeds after the second caption took its place. */
  lemma FirstCallSucceedsLate(first: string, second: string, key: string, translation: string)
    requires first != second
    ensures Enabled(BothInFlight(key, first, second), CallSettled(0, Received(translation)))
    ensures Next(BothInFlight(key, first, second), CallSettled(0, Received(translation))) ==
      SecondAwaited(key, first, second, translation)
  {
    var s4 := SettleRequest(BothInFlight(key, first, second), 0, Received(translation));
    assert s4.pending == map[second := 1];
  }

  /** A second caption replaces the first before the first call succeeds. */
  lemma SecondCaptionOvertakes(box2: Container, first: string, second: string, key: string, translation: string)
    requires ExtractSubtitleText(box2) == second && second != "" && IsKorean(second) && first != second
    requires key != ""
    ensures Run(Requested(key, first), [CaptionsMutated(Some(box2)), CallSettled(0, Received(translation))]) ==
      Some(SecondAwaited(key, first, second, translation))
  {
    SecondCaptionRequested(box2, first, second, key);
    FirstCallSucceedsLate(first, second, key, translation);
    RunTwo(Requested(key, first), CaptionsMutated(Some(box2)), CallSettled(0, Received(translation)));
  }

  /**
   * The first caption's evaluation resumes after the second caption took
   * its place, so its translation is not shown; when the first caption
   * returns it is shown from the cache.
   */
  lemma StaleResumeThenCacheHit(box1: Container, first: string, second: string, key: string, translation: string)
    requires ExtractSubtitleText(box1) == first && first != "" && IsKorean(first) && first != second
    requires key != "" && translation != ""
    ensures var s := SecondAwaited(key, first, second, translation);
      var dropped := Run(s, [AwaitResumed(0)]);
      var returned := Run(s, [AwaitResumed(0), CaptionsMutated(Some(box1))]);
      && dropped.Some? && dropped.value.overlay == Some(FreshOverlay)
      && returned.Some? && returned.value.calls == [first, second]
      && returned.value.overlay == Some(Overlay(translation, Block, true))
  {
    var e1, e2 := AwaitResumed(0), CaptionsMutated(Some(box1));
    var s4 := SecondAwaited(key, first, second, translation);
    assert s4.suspended[0] == Suspension(first, 0) && s4.outcomes[0] == Some(translation);
    ResumeDrops(s4, 0);
    var s5 := ResumeSubtitleChange(s4, 0);
    assert Next(s4, e1) == s5;
    assert s5.cache.entries == map[first := translation];
    CachedCaptionShown(s5, box1, first);
    var s6 := HandleSubtitleChange(s5, Some(box1));
    assert Next(s5, e2) == s6;
    RunOne(s4, e1);
    RunTwo(s4, e1, e2);
  }

  /**
   * A translation that arrives after the next caption replaced its own is
   * not shown, but it is cached: when its caption returns it is shown at
   * once, without a further call.
   */
  lemma StaleTranslationCached(box1: Container, box2: Container, first: string, second: string,
                               key: string, translation: string)
    requires ExtractSubtitleText(box1) == first && ExtractSubtitleText(box2) == second
    requires first != "" && IsKorean(first) && second != "" && IsKorean(second) && first != second
    requires key != "" && translation != ""
    ensures var both := Opening(key, box1) + [CaptionsMutated(Some(box2)), CallSettled(0, Received(translation))];
      var dropped := Run(Initial(), both + [AwaitResumed(0)]);
      var returned := Run(Initial(), both + [AwaitResumed(0), CaptionsMutated(Some(box1))]);
      && dropped.Some? && dropped.value.overlay == Some(FreshOverlay)
      && returned.Some? && |returned.value.calls| == 2
      && returned.value.overlay == Some(Overlay(translation, Block, true))
  {
    var tail := [CaptionsMutated(Some(box2)), CallSettled(0, Received(translation))];
    OpeningRequests(box1, first, key);
    SecondCaptionOvertakes(box2, first, second, key, translation);
    RunAppend(Initial(), Opening(key, box1), tail);
    StaleResumeThenCacheHit(box1, first, second, key, translation);
    RunAppend(Initial(), Opening(key, box1) + tail, [AwaitResumed(0)]);
    RunAppend(Initial(), Opening(key, box1) + tail, [AwaitResumed(0), CaptionsMutated(Some(box1))]);
  }

  /** The state once call 0 has failed and its evaluation has resumed. */
  function FailedOnce(key: string, caption: string): State {
    Requested(key, caption).(pending := map[], outcomes := map[0 := None], suspended := [])
  }

  /** Call 0 fails: nothing is cached or shown and nothing is in flight. */
  lemma CallFails(key: string, caption: string)
    ensures Run(Requested(key, caption), [CallSettled(0, Failed), AwaitResumed(0)]) == Some(FailedOnce(key, caption))
  {
    var e1, e2 := CallSettled(0, Failed), AwaitResumed(0);
    var s2 := Requested(key, caption);
    var s3 := SettleRequest(s2, 0, Failed);
    assert Next(s2, e1) == s3;
    assert s3.outcomes[0] == None && s3.suspended[0] == Suspension(caption, 0);
    ResumeDrops(s3, 0);
    var s4 := ResumeSubtitleChange(s3, 0);
    assert s4 == FailedOnce(key, caption);
    assert Next(s3, e2) == s4;
    RunTwo(s2, e1, e2);
  }

  /** After a failure the caption's next appearance calls the service again. */
  lemma CaptionRetried(blank: Container, box: Container, caption: string, key: string)
    requires ExtractSubtitleText(box) == caption && ExtractSubtitleText(blank) == ""
    requires caption != "" && IsKorean(caption) && key != ""
    ensures var r := Run(FailedOnce(key, caption), [CaptionsMutated(Some(blank)), CaptionsMutated(Some(box))]);
      r.Some? && r.value.calls == [caption, caption]
  {
    var e1, e2 := CaptionsMutated(Some(blank)), CaptionsMutated(Some(box));
    var s4 := FailedOnce(key, caption);
    CaptionCleared(s4, blank);
    var s5 := HandleSubtitleChange(s4, Some(blank));
    assert Next(s4, e1) == s5;
    assert s5.cache == Empty() && s5.pending == map[] && s5.lastKoreanText == "";
    NewCaptionRequested(s5, box, caption);
    var s6 := HandleSubtitleChange(s5, Some(box));
    assert Next(s5, e2) == s6;
    RunTwo(s4, e1, e2);
  }

  /**
   * A failed call shows nothing and caches nothing, so the caption's next
   * appearance calls the service again.
   */
  lemma FailureRetried(box: Container, blank: Container, caption: string, key: string)
    requires ExtractSubtitleText(box) == caption && ExtractSubtitleText(blank) == ""
    requires caption != "" && IsKorean(caption) && key != ""
    ensures var failed := Opening(key, box) + [CallSettled(0, Failed), AwaitResumed(0)];
      var afterFailure := Run(Initial(), failed);
      var retried := Run(Initial(), failed + [CaptionsMutated(Some(blank)), CaptionsMutated(Some(box))]);
      && afterFailure.Some? && afterFailure.value.overlay == Some(FreshOverlay)
      && afterFailure.value.cache == Empty()
      && retried.Some? && retried.value.calls == [caption, caption]
  {
    var failure := [CallSettled(0, Failed), AwaitResumed(0)];
    OpeningRequests(box, caption, key);
    CallFails(key, caption);
    RunAppend(Initial(), Opening(key, box), failure);
    CaptionRetried(blank, box, caption, key);
    RunAppend(Initial(), Opening(key, box) + failure, [CaptionsMutated(Some(blank)), CaptionsMutated(Some(box))]);
  }

  /** Switching off, then call 0 succeeding: the evaluation still shows the translation. */
  lemma SwitchedOffInFlight(key: string, caption: string, translation: string)
    requires key != "" && translation != ""
    ensures var r := Run(Requested(key, caption), [StorageChanged(SettingsDelta(None, Some(false))),
                                                   CallSettled(0, Received(translation)), AwaitResumed(0)]);
      && r.Some? && !Active(r.value) && !r.value.nltActive
      && r.value.overlay == Some(Overlay(translation, Block, true))
  {
    var e1, e2, e3 :=
      StorageChanged(SettingsDelta(None, Some(false))), CallSettled(0, Received(translation)), AwaitResumed(0);
    var s2 := Requested(key, caption);
    SwitchedOff(s2);
    var s3 := SettingsChanged(s2, SettingsDelta(None, Some(false)));
    assert Next(s2, e1) == s3;
    var s4 := SettleRequest(s3, 0, Received(translation));
    assert Next(s3, e2) == s4;
    assert s4.outcomes[0] == Some(translation) && s4.suspended[0] == Suspension(caption, 0);
    ResumeShowsCurrent(s4, 0, translation);
    var s5 := ResumeSubtitleChange(s4, 0);
    assert Next(s4, e3) == s5;
    RunThree(s2, e1, e2, e3);
  }

  /**
   * Switching off while a translation is in flight removes the overlay and
   * shows the native captions, yet the translation that then arrives
   * creates a new overlay and shows itself.
   */
  lemma ShownAfterSwitchingOff(box: Container, caption: string, key: string, translation: string)
    requires ExtractSubtitleText(box) == caption
    requires caption != "" && IsKorean(caption) && key != "" && translation != ""
    ensures var r := Run(Initial(), Opening(key, box) + [StorageChanged(SettingsDelta(None, Some(false))),
                                                        CallSettled(0, Received(translation)), AwaitResumed(0)]);
      && r.Some? && !Active(r.value) && !r.value.nltActive
      && r.value.overlay == Some(Overlay(translation, Block, true))
  {
    OpeningRequests(box, caption, key);
    SwitchedOffInFlight(key, caption, translation);
    RunAppend(Initial(), Opening(key, box), [StorageChanged(SettingsDelta(None, Some(false))),
                                            CallSettled(0, Received(translation)), AwaitResumed(0)]);
  }

  /**
   * Switching off and on again leaves the observer running but neither
   * hides the native captions nor brings the overlay back, because `init`
   * returns at once when the observer exists.
   */
  lemma SwitchedBackOn(key: string)
    requires key != ""
    ensures var r := Run(Initial(), [StorageRead(Some(key), None),
                                     StorageChanged(SettingsDelta(None, Some(false))),
                                     StorageChanged(SettingsDelta(None, Some(true)))]);
      r.Some? && Active(r.value) && r.value.observing && !r.value.nltActive && r.value.overlay == None
  {
    var e1, e2, e3 :=
      StorageRead(Some(key), None), StorageChanged(SettingsDelta(None, Some(false))),
      StorageChanged(SettingsDelta(None, Some(true)));
    var s0 := Initial();
    StartedWithKey(key);
    var s1 := LoadSettings(s0, Some(key), None);
    SwitchedOff(s1);
    var s2 := SettingsChanged(s1, SettingsDelta(None, Some(false)));
    var s3 := SettingsChanged(s2, SettingsDelta(None, Some(true)));
    assert s3 == s2.(enabled := true);
    assert Next(s0, e1) == s1 && Next(s1, e2) == s2 && Next(s2, e3) == s3;
    RunThree(s0, e1, e2, e3);
  }

  /** The state once the shown caption has gone and come back within the hide delay. */
  function HideCancelled(key: string, caption: string, translation: string): State {
    Displayed(key, caption, translation).(hideTimer := Some(0), timersStarted := 1)
  }

  /** The caption goes and comes back: hide timer 0 is armed, then cleared. */
  lemma CaptionBlinks(blank: Container, box: Container, caption: string, key: string, translation: string)
    requires ExtractSubtitleText(box) == caption && ExtractSubtitleText(blank) == ""
    requires caption != "" && IsKorean(caption) && key != "" && translation != ""
    ensures Run(Displayed(key, caption, translation), [CaptionsMutated(Some(blank)), CaptionsMutated(Some(box))]) ==
      Some(HideCancelled(key, caption, translation))
  {
    var e1, e2 := CaptionsMutated(Some(blank)), CaptionsMutated(Some(box));
    var s4 := Displayed(key, caption, translation);
    CaptionCleared(s4, blank);
    var s5 := HandleSubtitleChange(s4, Some(blank));
    assert Next(s4, e1) == s5;
    assert s5.armed == {0} && s5.hideTimer == Some(0) && s5.lastKoreanText == "";
    assert s5.cache.entries == map[caption := translation];
    CachedCaptionShown(s5, box, caption);
    var s6 := HandleSubtitleChange(s5, Some(box));
    assert s6 == HideCancelled(key, caption, translation);
    assert Next(s5, e2) == s6;
    RunTwo(s4, e1, e2);
  }

  /** The state once the caption has gone again and hide timer 1 is armed. */
  function HidePending(key: string, caption: string, translation: string): State {
    HideCancelled(key, caption, translation).(lastKoreanText := "", hideTimer := Some(1), armed := {1},
                                              timersStarted := 2)
  }

  /** The caption goes again: timer 1 is armed. */
  lemma CaptionGoes(blank: Container, key: string, caption: string, translation: string)
    requires ExtractSubtitleText(blank) == "" && key != ""
    ensures Enabled(HideCancelled(key, caption, translation), CaptionsMutated(Some(blank)))
    ensures Next(HideCancelled(key, caption, translation), CaptionsMutated(Some(blank))) ==
      HidePending(key, caption, translation)
  {
    CaptionCleared(HideCancelled(key, caption, translation), blank);
  }

  /** Timer 1 fires: the overlay is emptied and hidden. */
  lemma PendingHideFires(key: string, caption: string, translation: string)
    ensures Enabled(HidePending(key, caption, translation), HideTimerFired(1))
    ensures Next(HidePending(key, caption, translation), HideTimerFired(1)).overlay ==
      Some(Overlay("", NoDisplay, true))
  {
  }

  /** Timer 0 was cleared and cannot fire; a caption that goes for good arms timer 1, which hides the overlay. */
  lemma HideRunsItsCourse(blank: Container, key: string, caption: string, translation: string)
    requires ExtractSubtitleText(blank) == ""
    requires key != ""
    ensures var s := HideCancelled(key, caption, translation);
      var cleared := Run(s, [CaptionsMutated(Some(blank)), HideTimerFired(1)]);
      && Run(s, [HideTimerFired(0)]).None?
      && cleared.Some? && cleared.value.overlay == Some(Overlay("", NoDisplay, true))
  {
    var s6 := HideCancelled(key, caption, translation);
    assert !Enabled(s6, HideTimerFired(0));
    CaptionGoes(blank, key, caption, translation);
    PendingHideFires(key, caption, translation);
    RunTwo(s6, CaptionsMutated(Some(blank)), HideTimerFired(1));
  }

  /**
   * A caption that returns within the hide delay clears the pending hide,
   * so the translation stays on screen and that timer can no longer fire;
   * a hide that runs its course empties and hides the overlay.
   */
  lemma HideLingers(box: Container, blank: Container, caption: string, key: string, translation: string)
    requires ExtractSubtitleText(box) == caption && ExtractSubtitleText(blank) == ""
    requires caption != "" && IsKorean(caption) && key != "" && translation != ""
    ensures var shown := Opening(key, box) + [CallSettled(0, Received(translation)), AwaitResumed(0)];
      var back := shown + [CaptionsMutated(Some(blank)), CaptionsMutated(Some(box))];
      var kept := Run(Initial(), back);
      var cleared := Run(Initial(), back + [CaptionsMutated(Some(blank)), HideTimerFired(1)]);
      && kept.Some? && kept.value.overlay == Some(Overlay(translation, Block, true))
      && Run(Initial(), back + [HideTimerFired(0)]).None?
      && cleared.Some? && cleared.value.overlay == Some(Overlay("", NoDisplay, true))
  {
    var arrival := [CallSettled(0, Received(translation)), AwaitResumed(0)];
    var blink := [CaptionsMutated(Some(blank)), CaptionsMutated(Some(box))];
    var shown := Opening(key, box) + arrival;
    OpeningRequests(box, caption, key);
    TranslationArrives(key, caption, translation);
    RunAppend(Initial(), Opening(key, box), arrival);
    CaptionBlinks(blank, box, caption, key, translation);
    RunAppend(Initial(), shown, blink);
    HideRunsItsCourse(blank, key, caption, translation);
    RunAppend(Initial(), shown + blink, [HideTimerFired(0)]);
    RunAppend(Initial(), shown + blink, [CaptionsMutated(Some(blank)), HideTimerFired(1)]);
  }
}
