/**
 * The training page (Training): a per-card loop idle -> demo playing ->
 * prompt-hold -> recording -> success feedback -> next card, driven by the
 * voice-activity monitor, the star rating and the session gate.
 *
 * Every handler of the page is a method; every timer firing and every
 * finished-speaking callback is a method call too. The page owns one
 * `VoiceDetector` and one `AntiAddiction` gate.
 */
module Training {
  import opened Base
  import Words
  import StarRating
  import SessionGate
  import VoiceDetection

  /** `nextCard` is declared by the page but never entered. */
  datatype TrainingState = Idle | DemoPlaying | PromptHold | Recording | SuccessFeedback | NextCard

  const MaxAttempts: nat := 3

  /** Number of taps on the hidden button that open the parent settings. */
  const SecretTaps: nat := 5

  /** Where the page has navigated to; `Stay` while it is showing. */
  datatype Navigation = Stay | ToRewards(completed: nat) | ToParent | ToHome

  /** What a finished recording does to the card's attempt counter. */
  datatype Outcome = Outcome(state: TrainingState, attempts: nat, stars: Option<int>)

  /**
   * The attempt policy of handleRecordingComplete. `rating` is the star count
   * the rating function gives the recording.
   */
  function AttemptOutcome(attempts: nat, detected: bool, rating: int): (o: Outcome)
    ensures o.attempts < MaxAttempts
    ensures o.state == SuccessFeedback <==> detected || attempts + 1 >= MaxAttempts
    ensures o.state != SuccessFeedback ==> o.state == PromptHold && o.attempts == attempts + 1 && o.stars.None?
    ensures o.state == SuccessFeedback ==> o.attempts == 0 && o.stars == Some(if detected then rating else 3)
  {
    if detected then Outcome(SuccessFeedback, 0, Some(rating))
    else
      var newAttempts := attempts + 1;
      if newAttempts >= MaxAttempts then Outcome(SuccessFeedback, 0, Some(3))
      else Outcome(PromptHold, newAttempts, None)
  }

  /** The attempt counter after `k` undetected recordings in a row on a fresh card. */
  function MissCounter(k: nat): nat
    decreases k
  {
    if k == 0 then 0 else AttemptOutcome(MissCounter(k - 1), false, 1).attempts
  }

  /**
   * However many misses in a row, the counter cycles 0, 1, 2: every third
   * miss is let through, and no other.
   */
  lemma {:induction false} MissesCount(k: nat)
    ensures MissCounter(k) == k % MaxAttempts
    ensures AttemptOutcome(MissCounter(k), false, 1).state == SuccessFeedback <==> k % MaxAttempts == MaxAttempts - 1
  {
    if k > 0 {
      MissesCount(k - 1);
    }
  }

  /** Soft failure: the third undetected recording in a row succeeds with three stars. */
  lemma ThirdMissSucceeds(rating: int)
    ensures var first := AttemptOutcome(0, false, rating);
            var second := AttemptOutcome(first.attempts, false, rating);
            var third := AttemptOutcome(second.attempts, false, rating);
            first.state == PromptHold && second.state == PromptHold &&
            third == Outcome(SuccessFeedback, 0, Some(3))
  {
  }

  /** The page's own state, without the monitor and the gate. */
  datatype View = View(
    state: TrainingState,
    currentIndex: nat,
    attempts: nat,
    completedCount: nat,
    earnedStars: int,
    secretTapCount: nat,
    secretTapTimerArmed: bool,
    showEncouragement: bool,
    showCelebration: bool,
    isPlaying: bool,
    navigation: Navigation)

  /** handleRecordingComplete on a view, given the monitor as it stands and the rating mode. */
  function AfterRecording(v: View, m: VoiceDetection.Monitor, mode: StarRating.RatingMode): (r: View)
    ensures v.state != Recording ==> r == v
  {
    if v.state != Recording then v
    else
      var rating := StarRating.CalculateStarRating(m.averageVolume, m.recordingDuration, mode);
      var o := AttemptOutcome(v.attempts, m.isDetected, rating.stars);
      if o.state == SuccessFeedback then
        v.(state := SuccessFeedback, attempts := 0, earnedStars := o.stars.value, showCelebration := true)
      else
        v.(state := PromptHold, attempts := o.attempts, showEncouragement := true)
  }

  /** The page invariant is kept by the recording policy. */
  lemma AfterRecordingKeepsBounds(v: View, m: VoiceDetection.Monitor, mode: StarRating.RatingMode)
    requires v.attempts < MaxAttempts && 1 <= v.earnedStars <= 3
    ensures AfterRecording(v, m, mode).attempts < MaxAttempts
    ensures 1 <= AfterRecording(v, m, mode).earnedStars <= 3
  {
  }

  class TrainingPage {
    const trainingWords: seq<Words.Word>
    const mode: StarRating.RatingMode
    const voice: VoiceDetection.VoiceDetector
    const gate: SessionGate.AntiAddiction

    var state: TrainingState
    var currentIndex: nat
    var attempts: nat
    var completedCount: nat
    var earnedStars: int
    var secretTapCount: nat
    var secretTapTimerArmed: bool
    var showEncouragement: bool
    var showCelebration: bool
    var isPlaying: bool
    var navigation: Navigation

    function Snapshot(): View
      reads this
    {
      View(state, currentIndex, attempts, completedCount, earnedStars, secretTapCount, secretTapTimerArmed,
           showEncouragement, showCelebration, isPlaying, navigation)
    }

    /**
     * The card index stays on a card, the attempt counter below the soft-failure
     * bound, the earned stars in 1..3; `nextCard` is never entered.
     */
    ghost predicate Valid()
      reads this, gate
    {
      currentIndex < |trainingWords| && attempts < MaxAttempts && 1 <= earnedStars <= 3 &&
      state != NextCard && secretTapCount < SecretTaps && gate.Valid() &&
      // every completed card was celebrated on its way to the card shown, and the
      // hand-off to the rewards page carries the count
      completedCount <= currentIndex + (if navigation.ToRewards? then 1 else 0) &&
      (navigation.ToRewards? ==> navigation.completed == completedCount)
    }

    /**
     * Mounting the page: shuffle the words, read the rating mode, set up the
     * gate from storage and open a session.
     */
    constructor (words: seq<Words.Word>, draws: seq<real>, storedMode: Option<string>,
                 record: Option<SessionGate.StoredData>, settingsRecord: Option<SessionGate.PartialSettings>,
                 today: Day, now: int)
      requires |words| > 0 && |draws| >= |words| - 1 && Words.ValidDraws(draws)
      ensures Valid() && fresh(voice) && fresh(gate)
      ensures trainingWords == Words.Shuffled(words, draws) && mode == StarRating.LoadRatingMode(storedMode)
      ensures Snapshot() == View(Idle, 0, 0, 0, 3, 0, false, false, false, false, Stay)
      ensures voice.options == VoiceDetection.DefaultOptions && voice.Snapshot() == VoiceDetection.Initial
      ensures gate.settings == SessionGate.GetSettings(settingsRecord)
      ensures gate.state.canPlay ==> gate.sessionStartTime == Some(now)
      ensures !gate.state.canPlay ==> gate.sessionStartTime.None?
    {
      var shuffled := Words.ShuffleWords(words, draws);
      trainingWords := shuffled;
      mode := StarRating.LoadRatingMode(storedMode);
      voice := new VoiceDetection.VoiceDetector(VoiceDetection.DefaultOptions);
      var g := new SessionGate.AntiAddiction(record, settingsRecord, today, now);
      g.StartSession(now, today);
      gate := g;
      state, currentIndex, attempts, completedCount, earnedStars := Idle, 0, 0, 0, 3;
      secretTapCount, secretTapTimerArmed := 0, false;
      showEncouragement, showCelebration, isPlaying, navigation := false, false, false, Stay;
    }

    /** handleSecretTap and the effect that watches the count: five taps end the session and open the parent page. */
    method SecretTap(now: int)
      requires Valid() && navigation == Stay
      modifies this, gate
      ensures Valid()
      ensures old(secretTapCount) + 1 >= SecretTaps ==>
                Snapshot() == old(Snapshot()).(secretTapCount := 0, secretTapTimerArmed := true, navigation := ToParent) &&
                gate.SessionEnded(now)
      ensures old(secretTapCount) + 1 < SecretTaps ==>
                Snapshot() == old(Snapshot()).(secretTapCount := old(secretTapCount) + 1, secretTapTimerArmed := true) &&
                unchanged(gate)
    {
      secretTapCount := secretTapCount + 1;
      secretTapTimerArmed := true;
      if secretTapCount >= SecretTaps {
        secretTapCount := 0;
        gate.EndSession(now);
        navigation := ToParent;
      }
    }

    /** The two-second timer after the last tap resets the count. */
    method SecretTapTimeout()
      requires Valid() && navigation == Stay
      modifies this
      ensures Valid()
      ensures old(secretTapTimerArmed) ==> Snapshot() == old(Snapshot()).(secretTapCount := 0, secretTapTimerArmed := false)
      ensures !old(secretTapTimerArmed) ==> Snapshot() == old(Snapshot())
    {
      if secretTapTimerArmed {
        secretTapCount := 0;
        secretTapTimerArmed := false;
      }
    }

    /** playDemo: acts only from idle or prompt-hold. */
    method PlayDemo()
      requires Valid() && navigation == Stay
      modifies this
      ensures Valid()
      ensures old(state) == Idle || old(state) == PromptHold ==>
                Snapshot() == old(Snapshot()).(state := DemoPlaying, isPlaying := true)
      ensures old(state) != Idle && old(state) != PromptHold ==> Snapshot() == old(Snapshot())
    {
      if state != Idle && state != PromptHold {
        return;
      }
      state := DemoPlaying;
      isPlaying := true;
    }

    /** The 500 ms auto-play timer of a freshly shown card; its cleanup cancels it once the state moves on. */
    method IdleTimeout()
      requires Valid() && navigation == Stay
      modifies this
      ensures Valid()
      ensures old(state) == Idle ==> Snapshot() == old(Snapshot()).(state := DemoPlaying, isPlaying := true)
      ensures old(state) != Idle ==> Snapshot() == old(Snapshot())
    {
      if state == Idle {
        PlayDemo();
      }
    }

    /** The demo's finished-speaking callback: prompt only if the demo is still what is showing. */
    method DemoFinished()
      requires Valid() && navigation == Stay
      modifies this
      ensures Valid()
      ensures old(state) == DemoPlaying ==> Snapshot() == old(Snapshot()).(isPlaying := false, state := PromptHold)
      ensures old(state) != DemoPlaying ==> Snapshot() == old(Snapshot()).(isPlaying := false)
    {
      isPlaying := false;
      if state == DemoPlaying {
        state := PromptHold;
      }
    }

    /** handleRecordingComplete: acts only while recording; applies the attempt policy. */
    method RecordingComplete()
      requires Valid() && navigation == Stay
      modifies this
      ensures Valid()
      ensures Snapshot() == AfterRecording(old(Snapshot()), voice.Snapshot(), mode)
    {
      if state != Recording {
        return;
      }
      var rating := StarRating.CalculateStarRating(voice.averageVolume, voice.recordingDuration, mode);
      var outcome := AttemptOutcome(attempts, voice.isDetected, rating.stars);
      if outcome.state == SuccessFeedback {
        earnedStars := outcome.stars.value;
        state := SuccessFeedback;
        showCelebration := true;
        attempts := 0;
      } else {
        attempts := outcome.attempts;
        state := PromptHold;
        showEncouragement := true;
      }
    }

    /** The effect that notices the monitor stopped by itself (silence or the hard cap) during a recording. */
    method RecorderStopped()
      requires Valid() && navigation == Stay
      modifies this
      ensures Valid()
      ensures old(state) == Recording && !voice.isRecording ==>
                Snapshot() == AfterRecording(old(Snapshot()), voice.Snapshot(), mode)
      ensures !(old(state) == Recording && !voice.isRecording) ==> Snapshot() == old(Snapshot())
    {
      if state == Recording && !voice.isRecording {
        RecordingComplete();
      }
    }

    /**
     * handleToggleRecording: nothing while the gate forbids play; a running
     * recording is stopped and completed; from prompt-hold a recording starts.
     */
    method ToggleRecording(now: int, granted: bool)
      requires Valid() && navigation == Stay
      modifies this, voice
      ensures Valid()
      ensures !gate.state.canPlay ==> Snapshot() == old(Snapshot()) && voice.Snapshot() == old(voice.Snapshot())
      ensures gate.state.canPlay && old(voice.isRecording) ==>
                voice.Snapshot() == VoiceDetection.Stop(old(voice.Snapshot())) &&
                Snapshot() == AfterRecording(old(Snapshot()), voice.Snapshot(), mode)
      ensures gate.state.canPlay && !old(voice.isRecording) && old(state) == PromptHold ==>
                Snapshot() == old(Snapshot()).(state := Recording, showEncouragement := false) &&
                voice.Snapshot() == VoiceDetection.Start(old(voice.Snapshot()), now, granted)
      ensures gate.state.canPlay && !old(voice.isRecording) && old(state) != PromptHold ==>
                Snapshot() == old(Snapshot()) && voice.Snapshot() == old(voice.Snapshot())
    {
      if !gate.state.canPlay {
        return;
      }
      if voice.isRecording {
        voice.StopRecording();
        RecordingComplete();
      } else if state == PromptHold {
        state := Recording;
        showEncouragement := false;
        voice.StartRecording(now, granted);
      }
    }

    /** handlePressStart (hold mode): starts a recording from prompt-hold while play is allowed. */
    method PressStart(now: int, granted: bool)
      requires Valid() && navigation == Stay
      modifies this, voice
      ensures Valid()
      ensures old(state) == PromptHold && gate.state.canPlay ==>
                Snapshot() == old(Snapshot()).(state := Recording, showEncouragement := false) &&
                voice.Snapshot() == VoiceDetection.Start(old(voice.Snapshot()), now, granted)
      ensures !(old(state) == PromptHold && gate.state.canPlay) ==>
                Snapshot() == old(Snapshot()) && voice.Snapshot() == old(voice.Snapshot())
    {
      if state != PromptHold || !gate.state.canPlay {
        return;
      }
      state := Recording;
      showEncouragement := false;
      voice.StartRecording(now, granted);
    }

    /** handlePressEnd (hold mode): stops and completes a recording. */
    method PressEnd()
      requires Valid() && navigation == Stay
      modifies this, voice
      ensures Valid()
      ensures old(state) == Recording ==>
                voice.Snapshot() == VoiceDetection.Stop(old(voice.Snapshot())) &&
                Snapshot() == AfterRecording(old(Snapshot()), voice.Snapshot(), mode)
      ensures old(state) != Recording ==> Snapshot() == old(Snapshot()) && voice.Snapshot() == old(voice.Snapshot())
    {
      if state != Recording {
        return;
      }
      voice.StopRecording();
      RecordingComplete();
    }

    /** The 2.5 s timer that hides the encouragement toast. */
    method EncouragementTimeout()
      requires Valid() && navigation == Stay
      modifies this
      ensures Valid()
      ensures Snapshot() == old(Snapshot()).(showEncouragement := false)
    {
      showEncouragement := false;
    }

    /**
     * handleCelebrationComplete: one more completed card; the next card, or on
     * the last card the hand-off of the completed count to the rewards page.
     */
    method CelebrationComplete()
      requires Valid() && navigation == Stay
      modifies this
      ensures Valid()
      ensures completedCount == old(completedCount) + 1
      ensures old(currentIndex) < |trainingWords| - 1 ==>
                Snapshot() == old(Snapshot()).(showCelebration := false, completedCount := completedCount,
                                              currentIndex := old(currentIndex) + 1, state := Idle)
      ensures old(currentIndex) == |trainingWords| - 1 ==>
                Snapshot() == old(Snapshot()).(showCelebration := false, completedCount := completedCount,
                                              navigation := ToRewards(completedCount))
    {
      showCelebration := false;
      var handedOff := completedCount + 1;
      completedCount := handedOff;
      if currentIndex < |trainingWords| - 1 {
        currentIndex := currentIndex + 1;
        state := Idle;
      } else {
        navigation := ToRewards(handedOff);
      }
    }

    /** handleDragEnd: a downward swipe skips to the next card, granting nothing. */
    method DragEnd(offsetY: real, velocityY: real)
      requires Valid() && navigation == Stay
      modifies this
      ensures Valid()
      ensures offsetY > 100.0 && velocityY > 0.0 && old(currentIndex) < |trainingWords| - 1 ==>
                Snapshot() == old(Snapshot()).(currentIndex := old(currentIndex) + 1, state := Idle)
      ensures !(offsetY > 100.0 && velocityY > 0.0 && old(currentIndex) < |trainingWords| - 1) ==>
                Snapshot() == old(Snapshot())
    {
      if offsetY > 100.0 && velocityY > 0.0 {
        if currentIndex < |trainingWords| - 1 {
          currentIndex := currentIndex + 1;
          state := Idle;
        }
      }
    }

    /** handleExit: end the session and go home, reporting nothing to the rewards page. */
    method Exit(now: int)
      requires Valid() && navigation == Stay
      modifies this, gate
      ensures Valid()
      ensures Snapshot() == old(Snapshot()).(navigation := ToHome)
      ensures gate.SessionEnded(now)
    {
      gate.EndSession(now);
      navigation := ToHome;
    }
  }

  /**
   * Three undetected recordings in a row on a card: the third lands in success
   * feedback with three stars and a cleared counter, with no detection at all.
   */
  method SoftFailureScenario(page: TrainingPage, now: int)
    requires page.Valid() && page.navigation == Stay && page.state == PromptHold && page.attempts == 0
    requires page.gate.state.canPlay
    requires !page.voice.isRecording
    modifies page, page.voice
    ensures page.state == SuccessFeedback && page.earnedStars == 3 && page.attempts == 0
  {
    // each attempt: start, hear nothing, stop by hand
    page.ToggleRecording(now, true);
    assert !page.voice.isDetected;
    page.ToggleRecording(now, true);
    assert page.state == PromptHold && page.attempts == 1;
    page.ToggleRecording(now, true);
    assert !page.voice.isDetected;
    page.ToggleRecording(now, true);
    assert page.state == PromptHold && page.attempts == 2;
    page.ToggleRecording(now, true);
    assert !page.voice.isDetected;
    page.ToggleRecording(now, true);
  }

  /**
   * A run in which every card, from the first, is celebrated: the page hands
   * the number of cards to the rewards page, and having left it takes no
   * further handler call, so the count is handed over once.
   */
  method CelebrateEveryCard(page: TrainingPage)
    requires page.Valid() && page.navigation == Stay && page.currentIndex == 0 && page.completedCount == 0
    modifies page
    ensures page.Valid() && page.navigation == ToRewards(|page.trainingWords|)
  {
    var k := 0;
    while page.navigation == Stay
      invariant page.Valid() && k <= |page.trainingWords|
      invariant page.navigation == Stay ==> page.currentIndex == k && page.completedCount == k
      invariant page.navigation != Stay ==> page.navigation == ToRewards(|page.trainingWords|)
      decreases |page.trainingWords| - k
    {
      page.CelebrationComplete();
      k := k + 1;
    }
  }
}
