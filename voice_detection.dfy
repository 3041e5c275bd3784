/**
 * The voice-activity monitor (useVoiceDetection). Each animation frame brings
 * one normalised amplitude sample; the monitor decides whether sustained sound
 * above a threshold has lasted long enough, and stops itself on long silence
 * after speech or at a hard time cap.
 *
 * The pure functions below say what each event does to the monitor's state;
 * the class `VoiceDetector` holds that state in fields and is proved to follow
 * them. Times are integer milliseconds; amplitudes are reals.
 */
module VoiceDetection {
  import opened Base

  datatype Options = Options(minDuration: int, volumeThreshold: real, maxDuration: int, silenceTimeout: int)

  const DefaultOptions := Options(400, 0.05, 6000, 2000)

  /**
   * The monitor's observable state and its refs. `maxTimerArmed` and
   * `frameScheduled` say whether the hard-cap timeout and the next animation
   * frame are pending; while recording, the audio stream and analyser are open.
   */
  datatype Monitor = Monitor(
    isRecording: bool,
    isDetected: bool,
    volume: real,
    hasPermission: Option<bool>,
    recordingDuration: int,
    averageVolume: real,
    recordingStart: int,
    speechStart: Option<int>,
    lastSoundTime: int,
    samples: seq<real>,
    maxTimerArmed: bool,
    frameScheduled: bool)

  const Initial := Monitor(false, false, 0.0, None, 0, 0.0, 0, None, 0, [], false, false)

  // ---------------------------------------------------------------------------
  // The mean of the collected samples

  /** The left-to-right sum `reduce((a, b) => a + b, 0)`. */
  function Sum(s: seq<real>): (r: real)
    ensures |s| == 0 ==> r == 0.0
  {
    if |s| == 0 then 0.0 else Sum(s[..|s| - 1]) + s[|s| - 1]
  }

  /** The average: count times mean is the sum. */
  function Mean(s: seq<real>): (m: real)
    requires |s| > 0
    ensures m * (|s| as real) == Sum(s)
  {
    Sum(s) / (|s| as real)
  }

  /** Non-negative samples have a non-negative sum. */
  lemma {:induction false} SumNonNegative(s: seq<real>)
    requires forall k :: 0 <= k < |s| ==> s[k] >= 0.0
    ensures Sum(s) >= 0.0
  {
    if |s| > 0 {
      SumNonNegative(s[..|s| - 1]);
    }
  }

  lemma {:induction false} SumBounds(s: seq<real>, lo: real, hi: real)
    requires forall k :: 0 <= k < |s| ==> lo < s[k] <= hi
    ensures |s| > 0 ==> lo * (|s| as real) < Sum(s)
    ensures Sum(s) <= hi * (|s| as real)
  {
    if |s| > 0 {
      var init := s[..|s| - 1];
      SumBounds(init, lo, hi);
      var n := |init| as real;
      assert lo * (n + 1.0) == lo * n + lo;
      assert hi * (n + 1.0) == hi * n + hi;
    }
  }

  /** The mean of samples in (lo, hi] lies in (lo, hi]. */
  lemma MeanBounds(s: seq<real>, lo: real, hi: real)
    requires |s| > 0
    requires forall k :: 0 <= k < |s| ==> lo < s[k] <= hi
    ensures lo < Mean(s) <= hi
  {
    SumBounds(s, lo, hi);
    var n := |s| as real;
    assert Mean(s) * n == Sum(s);
  }

  // ---------------------------------------------------------------------------
  // The events

  /**
   * startRecording. A no-op while recording. `granted` says whether the
   * microphone was obtained; when it was not, only the permission flag changes.
   * The first frame analysis runs at once: it is the first frame delivered.
   */
  function Start(d: Monitor, now: int, granted: bool): (r: Monitor)
    ensures !d.isRecording && granted ==>
              r.isRecording && !r.isDetected && r.recordingDuration == 0 && r.averageVolume == 0.0 &&
              r.speechStart.None? && r.samples == [] && r.lastSoundTime == now && r.maxTimerArmed &&
              r.recordingStart == now && r.hasPermission == Some(true) && r.frameScheduled && r.volume == d.volume
    ensures d.isRecording ==> r == d
    ensures !d.isRecording && !granted ==> r == d.(hasPermission := Some(false))
  {
    if d.isRecording then d
    else if !granted then d.(hasPermission := Some(false))
    else d.(hasPermission := Some(true), isRecording := true, isDetected := false, recordingDuration := 0,
            averageVolume := 0.0, recordingStart := now, speechStart := None, lastSoundTime := now,
            samples := [], maxTimerArmed := true, frameScheduled := true)
  }

  /**
   * stopRecording: cancel both timers and the frame loop, release the audio,
   * finalise the average when samples were collected, and go idle.
   */
  function Stop(d: Monitor): (r: Monitor)
    ensures !r.isRecording && r.volume == 0.0 && !r.maxTimerArmed && !r.frameScheduled
    ensures |d.samples| > 0 ==> r.averageVolume == Mean(d.samples)
    ensures |d.samples| == 0 ==> r.averageVolume == d.averageVolume
    ensures r.isDetected == d.isDetected && r.samples == d.samples && r.recordingDuration == d.recordingDuration
  {
    d.(maxTimerArmed := false, frameScheduled := false,
       averageVolume := if |d.samples| > 0 then Mean(d.samples) else d.averageVolume,
       isRecording := false, volume := 0.0)
  }

  /**
   * analyzeVolume: one animation frame at time `now` with normalised volume
   * `sample`. Does nothing once the analyser is released.
   */
  function Frame(o: Options, d: Monitor, now: int, sample: real): (r: Monitor)
    ensures !d.isRecording ==> r == d
    ensures d.samples <= r.samples && (d.isDetected ==> r.isDetected)
    ensures d.isRecording && sample > o.volumeThreshold ==>
              r.isRecording && r.volume == sample && r.lastSoundTime == now && r.samples == d.samples + [sample] &&
              r.speechStart == Some(if d.speechStart.Some? then d.speechStart.value else now)
    ensures d.isRecording && sample > o.volumeThreshold ==>
              r.recordingDuration == (if d.speechStart.Some? then now - d.speechStart.value else d.recordingDuration) &&
              r.isDetected == (d.isDetected || (d.speechStart.Some? && now - d.speechStart.value >= o.minDuration))
    ensures d.isRecording && sample <= o.volumeThreshold ==>
              r.samples == d.samples && r.speechStart == d.speechStart && r.isDetected == d.isDetected &&
              (r.isRecording <==> !(d.speechStart.Some? && now - d.lastSoundTime >= o.silenceTimeout)) &&
              r.volume == (if r.isRecording then sample else 0.0)
  {
    if !d.isRecording then d
    else if sample > o.volumeThreshold then
      var heard := d.(volume := sample, lastSoundTime := now, samples := d.samples + [sample], frameScheduled := true);
      match d.speechStart
      case None => heard.(speechStart := Some(now))
      case Some(start) =>
        heard.(recordingDuration := now - start, isDetected := d.isDetected || now - start >= o.minDuration)
    else if d.speechStart.Some? && now - d.lastSoundTime >= o.silenceTimeout then Stop(d.(volume := sample))
    else d.(volume := sample, frameScheduled := true)
  }

  /** The hard-cap timeout firing; a cleared timeout never fires. */
  function MaxDurationElapsed(d: Monitor): (r: Monitor)
    ensures d.maxTimerArmed ==> !r.isRecording
    ensures !d.maxTimerArmed ==> r == d
  {
    if d.maxTimerArmed then Stop(d) else d
  }

  /** toggleRecording. */
  function Toggle(d: Monitor, now: int, granted: bool): (r: Monitor)
    ensures d.isRecording ==> r == Stop(d)
    ensures !d.isRecording ==> r == Start(d, now, granted)
  {
    if d.isRecording then Stop(d) else Start(d, now, granted)
  }

  /** The frame loop: frames `(time, sample)` in order, until the monitor stops. */
  function Run(o: Options, d: Monitor, frames: seq<(int, real)>): (r: Monitor)
    ensures |frames| == 0 || !d.isRecording ==> r == d
    ensures d.samples <= r.samples && |r.samples| <= |d.samples| + |frames|
    decreases |frames|
  {
    if |frames| == 0 || !d.isRecording then d
    else Run(o, Frame(o, d, frames[0].0, frames[0].1), frames[1..])
  }

  // ---------------------------------------------------------------------------
  // Properties

  /**
   * The invariant every event keeps: a recording always has its hard-cap
   * timer pending, an idle monitor has neither timer nor frame pending, and
   * every collected sample was above the threshold.
   */
  predicate Inv(o: Options, d: Monitor) {
    (d.isRecording ==> d.maxTimerArmed) &&
    (!d.isRecording ==> !d.maxTimerArmed && !d.frameScheduled) &&
    (forall k :: 0 <= k < |d.samples| ==> d.samples[k] > o.volumeThreshold)
  }

  lemma InitialInv(o: Options)
    ensures Inv(o, Initial)
  {
  }

  lemma InvPreserved(o: Options, d: Monitor, now: int, sample: real, granted: bool)
    requires Inv(o, d)
    ensures Inv(o, Start(d, now, granted))
    ensures Inv(o, Frame(o, d, now, sample))
    ensures Inv(o, Stop(d))
    ensures Inv(o, MaxDurationElapsed(d))
    ensures Inv(o, Toggle(d, now, granted))
  {
    if d.isRecording && sample > o.volumeThreshold {
      var s := d.samples + [sample];
      assert forall k :: 0 <= k < |s| ==> s[k] > o.volumeThreshold by {
        forall k | 0 <= k < |s| ensures s[k] > o.volumeThreshold {
          if k < |d.samples| { assert s[k] == d.samples[k]; }
        }
      }
    }
  }

  lemma {:induction false} RunInv(o: Options, d: Monitor, frames: seq<(int, real)>)
    requires Inv(o, d)
    ensures Inv(o, Run(o, d, frames))
    decreases |frames|
  {
    if |frames| > 0 && d.isRecording {
      InvPreserved(o, d, frames[0].0, frames[0].1, false);
      RunInv(o, Frame(o, d, frames[0].0, frames[0].1), frames[1..]);
    }
  }

  /** Whatever stops a recording, the hard cap can always still stop it. */
  lemma HardCapAlwaysStops(o: Options, d: Monitor)
    requires Inv(o, d) && d.isRecording
    ensures !MaxDurationElapsed(d).isRecording
  {
  }

  /** The average reported on stop lies above the threshold whenever speech was heard, and at most 1 for samples at most 1. */
  lemma AverageAboveThreshold(o: Options, d: Monitor)
    requires Inv(o, d) && |d.samples| > 0
    requires forall k :: 0 <= k < |d.samples| ==> d.samples[k] <= 1.0
    ensures o.volumeThreshold < Stop(d).averageVolume <= 1.0
  {
    MeanBounds(d.samples, o.volumeThreshold, 1.0);
  }

  /** Stopping twice is stopping once. */
  lemma StopIdempotent(d: Monitor)
    ensures Stop(Stop(d)) == Stop(d)
  {
  }

  /** Detection is switched on only inside a recording. */
  lemma DetectionOnlyWhileRecording(o: Options, d: Monitor, now: int, sample: real)
    requires !d.isDetected && Frame(o, d, now, sample).isDetected
    ensures d.isRecording && sample > o.volumeThreshold && d.speechStart.Some?
    ensures now - d.speechStart.value >= o.minDuration
  {
  }

  /** Once detected, a recording stays detected through any frames (and through the stop). */
  lemma {:induction false} DetectionSticky(o: Options, d: Monitor, frames: seq<(int, real)>)
    requires d.isDetected
    ensures Run(o, d, frames).isDetected
    ensures Stop(Run(o, d, frames)).isDetected
    decreases |frames|
  {
    if |frames| > 0 && d.isRecording {
      DetectionSticky(o, Frame(o, d, frames[0].0, frames[0].1), frames[1..]);
    }
  }

  /** A frame ends the recording exactly when it is quiet, speech has begun and the silence is long enough. */
  lemma SilenceStopIff(o: Options, d: Monitor, now: int, sample: real)
    requires d.isRecording
    ensures !Frame(o, d, now, sample).isRecording <==>
              sample <= o.volumeThreshold && d.speechStart.Some? && now - d.lastSoundTime >= o.silenceTimeout
  {
  }

  predicate AllQuiet(o: Options, frames: seq<(int, real)>) {
    forall k :: 0 <= k < |frames| ==> frames[k].1 <= o.volumeThreshold
  }

  predicate AllLoud(o: Options, frames: seq<(int, real)>) {
    forall k :: 0 <= k < |frames| ==> frames[k].1 > o.volumeThreshold
  }

  /** Before any speech, quiet frames never stop the recording: only the hard cap does. */
  lemma {:induction false} NoSpeechNoAutoStop(o: Options, d: Monitor, frames: seq<(int, real)>)
    requires d.isRecording && d.speechStart.None? && AllQuiet(o, frames)
    ensures Run(o, d, frames).isRecording && Run(o, d, frames).speechStart.None?
    ensures Run(o, d, frames).samples == d.samples && Run(o, d, frames).isDetected == d.isDetected
    decreases |frames|
  {
    if |frames| > 0 {
      NoSpeechNoAutoStop(o, Frame(o, d, frames[0].0, frames[0].1), frames[1..]);
    }
  }

  /**
   * Loud frames after speech has begun at `t0` keep the recording going, keep
   * the speech start, and leave the duration measured from `t0` to the last frame.
   */
  lemma {:induction false} LoudRun(o: Options, d: Monitor, t0: int, frames: seq<(int, real)>)
    requires d.isRecording && d.speechStart == Some(t0) && AllLoud(o, frames)
    ensures var r := Run(o, d, frames);
            r.isRecording && r.speechStart == Some(t0) &&
            |r.samples| == |d.samples| + |frames| &&
            (|frames| > 0 ==> r.recordingDuration == frames[|frames| - 1].0 - t0 &&
                              (frames[|frames| - 1].0 - t0 >= o.minDuration ==> r.isDetected))
    decreases |frames|
  {
    if |frames| > 0 {
      var d1 := Frame(o, d, frames[0].0, frames[0].1);
      LoudRun(o, d1, t0, frames[1..]);
      if |frames| > 1 {
        assert frames[1..][|frames[1..]| - 1] == frames[|frames| - 1];
        if frames[|frames| - 1].0 - t0 >= o.minDuration {
          assert Run(o, d, frames) == Run(o, d1, frames[1..]);
        }
      }
    }
  }

  /**
   * Sustained sound: from a fresh recording, at least two frames all above the
   * threshold, the last at least `minDuration` after the first, end detected
   * and still recording.
   */
  lemma SustainedSoundDetected(o: Options, d: Monitor, frames: seq<(int, real)>)
    requires d.isRecording && d.speechStart.None? && |frames| >= 2 && AllLoud(o, frames)
    requires frames[|frames| - 1].0 - frames[0].0 >= o.minDuration
    ensures Run(o, d, frames).isDetected && Run(o, d, frames).isRecording
  {
    var d1 := Frame(o, d, frames[0].0, frames[0].1);
    assert d1.speechStart == Some(frames[0].0);
    LoudRun(o, d1, frames[0].0, frames[1..]);
    assert frames[1..][|frames[1..]| - 1] == frames[|frames| - 1];
  }

  /** A fresh start resets everything the previous recording left behind. */
  lemma StartForgetsPreviousRecording(o: Options, d1: Monitor, d2: Monitor, now: int)
    requires !d1.isRecording && !d2.isRecording && d1.volume == d2.volume
    ensures Start(d1, now, true) == Start(d2, now, true)
  {
  }

  // ---------------------------------------------------------------------------
  // The hook's refs and state, updated in place

  class VoiceDetector {
    const options: Options

    var isRecording: bool
    var isDetected: bool
    var volume: real
    var hasPermission: Option<bool>
    var recordingDuration: int
    var averageVolume: real
    var recordingStart: int
    var speechStart: Option<int>
    var lastSoundTime: int
    var samples: seq<real>
    var maxTimerArmed: bool
    var frameScheduled: bool

    /** The fields as one value. */
    function Snapshot(): Monitor
      reads this
    {
      Monitor(isRecording, isDetected, volume, hasPermission, recordingDuration, averageVolume,
              recordingStart, speechStart, lastSoundTime, samples, maxTimerArmed, frameScheduled)
    }

    constructor (o: Options)
      ensures options == o && Snapshot() == Initial
    {
      options := o;
      isRecording, isDetected, volume, hasPermission := false, false, 0.0, None;
      recordingDuration, averageVolume, recordingStart := 0, 0.0, 0;
      speechStart, lastSoundTime, samples := None, 0, [];
      maxTimerArmed, frameScheduled := false, false;
    }

    method StopRecording()
      modifies this
      ensures Snapshot() == Stop(old(Snapshot()))
    {
      maxTimerArmed := false;
      frameScheduled := false;
      if |samples| > 0 {
        averageVolume := Mean(samples);
      }
      isRecording := false;
      volume := 0.0;
    }

    method StartRecording(now: int, granted: bool)
      modifies this
      ensures Snapshot() == Start(old(Snapshot()), now, granted)
    {
      ghost var d := Snapshot();
      if isRecording {
        return;
      }
      if !granted {
        hasPermission := Some(false);
        assert Snapshot() == d.(hasPermission := Some(false));
        return;
      }
      hasPermission := Some(true);
      isRecording, isDetected, recordingDuration, averageVolume := true, false, 0, 0.0;
      recordingStart, speechStart, lastSoundTime, samples := now, None, now, [];
      // the hard-cap timeout and the first frame
      maxTimerArmed, frameScheduled := true, true;
      assert Snapshot() == Start(d, now, true);
    }

    /** One call of the frame callback. */
    method AnalyzeVolume(now: int, sample: real)
      modifies this
      ensures Snapshot() == Frame(options, old(Snapshot()), now, sample)
    {
      if !isRecording {
        return;
      }
      volume := sample;
      if sample > options.volumeThreshold {
        lastSoundTime := now;
        samples := samples + [sample];
        if speechStart.None? {
          speechStart := Some(now);
        } else {
          var speechDuration := now - speechStart.value;
          recordingDuration := speechDuration;
          if speechDuration >= options.minDuration {
            isDetected := true;
          }
        }
      } else {
        var silenceDuration := now - lastSoundTime;
        if speechStart.Some? && silenceDuration >= options.silenceTimeout {
          StopRecording();
          return;
        }
      }
      frameScheduled := true;
    }

    method MaxDurationTimeout()
      modifies this
      ensures Snapshot() == MaxDurationElapsed(old(Snapshot()))
    {
      if maxTimerArmed {
        StopRecording();
      }
    }

    method ToggleRecording(now: int, granted: bool)
      modifies this
      ensures Snapshot() == Toggle(old(Snapshot()), now, granted)
    {
      if isRecording {
        StopRecording();
      } else {
        StartRecording(now, granted);
      }
    }

    /** The self-rescheduling frame loop fed with `frames`, until it stops. */
    method RunFrames(frames: seq<(int, real)>)
      modifies this
      ensures Snapshot() == Run(options, old(Snapshot()), frames)
    {
      var i := 0;
      while i < |frames| && isRecording
        invariant 0 <= i <= |frames|
        invariant Run(options, Snapshot(), frames[i..]) == Run(options, old(Snapshot()), frames)
      {
        assert frames[i..][1..] == frames[i + 1..];
        AnalyzeVolume(frames[i].0, frames[i].1);
        i := i + 1;
      }
    }
  }
}
