/** What the synchroniser promises over whole runs: the error of the video clock against an ideal audio
    clock stays in a band, is driven into it, and without noise never overshoots. */
module SyncTheorems {
  import opened Doubles
  import opened MediaClocks
  import opened MediaSync

  /** Kept by every pass: both clocks run at speed 1 and show what was last shown or heard, or are unset. */
  predicate Settled(s: Sync) {
    && Consistent(s.video) && s.video.speed == 1.0
    && Consistent(s.audio) && s.audio.speed == 1.0
    && (s.video.pts == s.lastFramePts || (s.video.pts.NaN? && s.lastFramePts == Num(0.0)))
    && (s.audio.pts == s.lastAudioPts || (s.audio.pts.NaN? && s.lastAudioPts == Num(0.0)))
  }

  lemma {:induction false} HearKeepsSettled(s: Sync, callbacks: seq<Callback>)
    requires Settled(s)
    ensures var h := Hear(s, callbacks);
            && Settled(h)
            && h.video == s.video && h.lastFramePts == s.lastFramePts
            && h.resumeAfterPause == s.resumeAfterPause
            && (callbacks == [] ==> h == s)
            && (callbacks != [] ==> var c := callbacks[|callbacks| - 1];
                                    h.lastAudioPts == c.pts && h.audio == SetClock(s.audio, c.pts, c.at))
    decreases callbacks
  {
    if callbacks != [] {
      HearKeepsSettled(AudioCallback(s, callbacks[0]), callbacks[1..]);
    }
  }

  lemma StepKeepsSettled(s: Sync, p: Pass)
    requires Settled(s)
    ensures Settled(Step(s, p))
  {
    match p.poll
    case Abort =>
    case Paused =>
      HearKeepsSettled(s.(resumeAfterPause := true), p.during);
      HearKeepsSettled(Hear(s.(resumeAfterPause := true), p.during), p.after);
    case NoFrame =>
      HearKeepsSettled(s, p.during);
      HearKeepsSettled(Hear(s, p.during), p.after);
    case Frame(pts, scheduledAt, _) =>
      HearKeepsSettled(Resume(s, scheduledAt), p.during);
      var slept := Hear(Resume(s, scheduledAt), p.during);
      HearKeepsSettled(
        slept.(video := SetClock(slept.video, pts, PresentedAt(s, p.poll)), lastFramePts := pts), p.after);
  }

  lemma {:induction false} RunKeepsSettled(s: Sync, passes: seq<Pass>)
    requires Settled(s)
    ensures Settled(Run(s, passes))
    decreases passes
  {
    if passes != [] && !passes[0].poll.Abort? {
      StepKeepsSettled(s, passes[0]);
      RunKeepsSettled(Step(s, passes[0]), passes[1..]);
    }
  }

  lemma ReachableIsSettled(now: real, passes: seq<Pass>)
    ensures Settled(Run(Initial(now), passes))
  {
    RunKeepsSettled(Initial(now), passes);
  }

  /** With both clocks at speed 1 their difference does not depend on when it is read. */
  lemma DiffIsDriftDifference(s: Sync, now: real)
    requires Settled(s)
    ensures ClockDiff(s, now) == Sub(s.video.drift, s.audio.drift)
  {
    ReadsLinearly(s.video, now);
    ReadsLinearly(s.audio, now);
  }

  // ---------------------------------------------------------------------------------------------
  // One frame of the controller
  // ---------------------------------------------------------------------------------------------

  /** How far the video clock is ahead of an audio clock with drift `ideal`. */
  function Error(s: Sync, ideal: real): real
    requires s.video.drift.Num?
  {
    s.video.drift.r - ideal
  }

  /** The time between two settings of the video clock falls short of the chosen delay by this much:
      rounding of the sleep to milliseconds, minus everything that took time besides the sleep. */
  function Noise(s: Sync, f: Poll): real
    requires f.Frame? && ChosenDelay(s, f).Num?
  {
    ChosenDelay(s, f).r - (PresentedAt(s, f) - s.video.updated)
  }

  /** The audio clock is set, within `jitter` of the ideal drift. */
  predicate Near(drift: Double, ideal: real, jitter: real) {
    drift.Num? && Abs(drift.r - ideal) <= jitter
  }

  predicate SteadyCallbacks(callbacks: seq<Callback>, ideal: real, jitter: real) {
    forall i :: 0 <= i < |callbacks| ==> Near(Sub(callbacks[i].pts, Num(callbacks[i].at)), ideal, jitter)
  }

  /** Both clocks are set, no pause is pending and the audio clock is steady. */
  predicate Playing(s: Sync, ideal: real, jitter: real) {
    Settled(s) && s.video.pts.Num? && !s.resumeAfterPause && Near(s.audio.drift, ideal, jitter)
  }

  /** The error after a frame: the error before, plus the pts gap, minus the chosen delay, plus the noise. */
  lemma FrameMovesError(s: Sync, p: Pass, ideal: real, jitter: real)
    requires Playing(s, ideal, jitter) && p.poll.Frame? && p.poll.pts.Num?
    requires SteadyCallbacks(p.during, ideal, jitter) && SteadyCallbacks(p.after, ideal, jitter)
    ensures var gap, measured := p.poll.pts.r - s.lastFramePts.r, s.video.drift.r - s.audio.drift.r;
            && Playing(Step(s, p), ideal, jitter)
            && Step(s, p).lastFramePts == p.poll.pts
            && ChosenDelay(s, p.poll) == CorrectDelay(Num(measured), Num(gap))
            && ChosenDelay(s, p.poll).Num?
            && Error(Step(s, p), ideal) == Error(s, ideal) + gap - ChosenDelay(s, p.poll).r + Noise(s, p.poll)
  {
    var now := p.poll.scheduledAt;
    DiffIsDriftDifference(s, now);
    HearKeepsSettled(s, p.during);
    var slept := Hear(s, p.during);
    var shown := slept.(video := SetClock(slept.video, p.poll.pts, PresentedAt(s, p.poll)),
                        lastFramePts := p.poll.pts);
    HearKeepsSettled(shown, p.after);
  }

  lemma IdlePassKeepsError(s: Sync, p: Pass, ideal: real, jitter: real)
    requires Playing(s, ideal, jitter) && p.poll.NoFrame?
    requires SteadyCallbacks(p.during, ideal, jitter) && SteadyCallbacks(p.after, ideal, jitter)
    ensures Playing(Step(s, p), ideal, jitter)
    ensures Step(s, p).video == s.video
  {
    HearKeepsSettled(s, p.during);
    HearKeepsSettled(Hear(s, p.during), p.after);
  }

  /** The controller over plain numbers: `e` is the error, `m` the measured one, `w` the noise. */
  function NextError(e: real, m: real, gap: real, w: real): real {
    var delay := CorrectDelay(Num(m), Num(gap));
    e + gap - (if delay.Num? then delay.r else 0.0) + w
  }

  /** How much error the environment may cause: callbacks are off by up to `jitter`, a frame is shown up
      to `late` too late and up to `early` too early. */
  datatype Limits = Limits(jitter: real, late: real, early: real) {
    predicate Valid() {
      && 0.0 <= jitter && 0.0 <= late && 0.0 <= early
      && 2.0 * jitter + late < 9.9 && 2.0 * jitter + early < 9.9
    }

    function Worst(): real {
      Max(late, early)
    }

    predicate InBand(e: real) {
      -(SYNC_THRESHOLD_MAX + jitter + late) < e < SYNC_THRESHOLD_MAX + jitter + early
    }
  }

  /** From error `e` to error `e'`: the band is kept, and outside it the error shrinks by `step` at least. */
  predicate Closer(l: Limits, step: real, e: real, e': real) {
    && Abs(e') + l.jitter < MAX_FRAME_DURATION
    && (l.InBand(e) ==> l.InBand(e'))
    && (l.InBand(e') || Abs(e') <= Abs(e) - step)
  }

  /** One frame keeps the band, and moves an error outside it into the band or closer to it. */
  lemma ControllerStep(l: Limits, least: real, e: real, m: real, gap: real, w: real)
    requires l.Valid()
    requires Abs(e - m) <= l.jitter && -l.late <= w <= l.early && gap >= least >= l.Worst()
    requires Abs(e) + l.jitter < MAX_FRAME_DURATION
    ensures Closer(l, least - l.Worst(), e, NextError(e, m, gap, w))
  {}

  // ---------------------------------------------------------------------------------------------
  // Whole runs
  // ---------------------------------------------------------------------------------------------

  /** The pass finds no frame, or a frame at least `gap` after the last one; noise and jitter are within
      the limits. */
  predicate PassWithin(s: Sync, p: Pass, gap: real, l: Limits, ideal: real) {
    && SteadyCallbacks(p.during, ideal, l.jitter) && SteadyCallbacks(p.after, ideal, l.jitter)
    && (p.poll.NoFrame? || (
          && p.poll.Frame? && p.poll.pts.Num?
          && Ge(Sub(p.poll.pts, s.lastFramePts), Num(gap))
          && ChosenDelay(s, p.poll).Num?
          && -l.late <= Noise(s, p.poll) <= l.early))
  }

  predicate WithinLimits(s: Sync, passes: seq<Pass>, gap: real, l: Limits, ideal: real)
    decreases passes
  {
    passes == [] || (
      && PassWithin(s, passes[0], gap, l, ideal)
      && WithinLimits(Step(s, passes[0]), passes[1..], gap, l, ideal))
  }

  function Frames(passes: seq<Pass>): nat {
    if passes == [] then 0 else (if passes[0].poll.Frame? then 1 else 0) + Frames(passes[1..])
  }

  /** `step` for each frame of the run. */
  function Travel(passes: seq<Pass>, step: real): (r: real)
    ensures step >= 0.0 ==> r >= 0.0
  {
    if passes == [] then 0.0 else (if passes[0].poll.Frame? then step else 0.0) + Travel(passes[1..], step)
  }

  lemma {:induction false} TravelCountsFrames(passes: seq<Pass>, step: real)
    ensures Travel(passes, step) == Frames(passes) as real * step
  {
    if passes != [] {
      TravelCountsFrames(passes[1..], step);
    }
  }

  /** One frame within the limits, on the error. */
  lemma FrameWithinLimits(s: Sync, p: Pass, gap: real, l: Limits, ideal: real)
    requires l.Valid() && gap >= l.Worst() && p.poll.Frame?
    requires Playing(s, ideal, l.jitter) && PassWithin(s, p, gap, l, ideal)
    requires Abs(Error(s, ideal)) + l.jitter < MAX_FRAME_DURATION
    ensures Playing(Step(s, p), ideal, l.jitter)
    ensures Closer(l, gap - l.Worst(), Error(s, ideal), Error(Step(s, p), ideal))
  {
    FrameMovesError(s, p, ideal, l.jitter);
    ControllerStep(l, gap, Error(s, ideal), s.video.drift.r - s.audio.drift.r,
                   p.poll.pts.r - s.lastFramePts.r, Noise(s, p.poll));
  }

  /** Steps towards the band add up. */
  lemma CloserTwice(l: Limits, a: real, b: real, e: real, e': real, e'': real)
    requires a >= 0.0 && b >= 0.0 && Closer(l, a, e, e') && Closer(l, b, e', e'')
    ensures Closer(l, a + b, e, e'')
  {}

  /** The band is forward invariant, and from anywhere within ten seconds the run either is in the band or
      has come closer by the guaranteed amount per frame. */
  lemma {:induction false} RunApproachesBand(s: Sync, passes: seq<Pass>, gap: real, l: Limits, ideal: real)
    requires l.Valid() && gap >= l.Worst()
    requires Playing(s, ideal, l.jitter) && WithinLimits(s, passes, gap, l, ideal)
    requires Abs(Error(s, ideal)) + l.jitter < MAX_FRAME_DURATION
    ensures Playing(Run(s, passes), ideal, l.jitter)
    ensures Closer(l, Travel(passes, gap - l.Worst()), Error(s, ideal), Error(Run(s, passes), ideal))
    decreases passes
  {
    if passes != [] {
      var p, step := passes[0], gap - l.Worst();
      if p.poll.Frame? {
        FrameWithinLimits(s, p, gap, l, ideal);
      } else {
        IdlePassKeepsError(s, p, ideal, l.jitter);
      }
      RunApproachesBand(Step(s, p), passes[1..], gap, l, ideal);
      CloserTwice(l, if p.poll.Frame? then step else 0.0, Travel(passes[1..], step),
                  Error(s, ideal), Error(Step(s, p), ideal), Error(Run(s, passes), ideal));
    }
  }

  /** Convergence: when gaps exceed the worst noise by `step`, `Abs(error) / step` frames bring the error into
      the band, and all longer runs stay there. */
  lemma SyncConverges(s: Sync, passes: seq<Pass>, step: real, l: Limits, ideal: real)
    requires l.Valid() && step > 0.0
    requires Playing(s, ideal, l.jitter) && WithinLimits(s, passes, l.Worst() + step, l, ideal)
    requires Abs(Error(s, ideal)) + l.jitter < MAX_FRAME_DURATION
    requires Frames(passes) as real * step >= Abs(Error(s, ideal))
    ensures Playing(Run(s, passes), ideal, l.jitter)
    ensures l.InBand(Error(Run(s, passes), ideal))
  {
    TravelCountsFrames(passes, step);
    RunApproachesBand(s, passes, l.Worst() + step, l, ideal);
    ArrivedInBand(l, Travel(passes, step), Error(s, ideal), Error(Run(s, passes), ideal));
  }

  lemma ArrivedInBand(l: Limits, travel: real, e: real, e': real)
    requires l.Valid() && Closer(l, travel, e, e') && travel >= Abs(e)
    ensures l.InBand(e')
  {}

  const EXACT := Limits(0.0, 0.0, 0.0)

  /** Same side, not further away; out of reach of the controller, not moved at all. */
  predicate NoOvershoot(e: real, e': real) {
    && Abs(e') <= Abs(e)
    && (e >= 0.0 ==> e' >= 0.0) && (e <= 0.0 ==> e' <= 0.0)
    && (Abs(e) >= MAX_FRAME_DURATION ==> e' == e)
  }

  /** Without noise and jitter a frame neither increases the error nor flips its sign. */
  lemma FrameNeverOvershoots(s: Sync, p: Pass, ideal: real)
    requires Playing(s, ideal, 0.0) && p.poll.Frame? && PassWithin(s, p, 0.0, EXACT, ideal)
    ensures Playing(Step(s, p), ideal, 0.0)
    ensures NoOvershoot(Error(s, ideal), Error(Step(s, p), ideal))
  {
    FrameMovesError(s, p, ideal, 0.0);
  }

  /** With exact sleeps and steady audio a whole run never flips the sign of the clock difference and never
      increases it; a difference of ten seconds or more is never corrected. */
  lemma {:induction false} RunNeverOvershoots(s: Sync, passes: seq<Pass>, ideal: real)
    requires Playing(s, ideal, 0.0) && WithinLimits(s, passes, 0.0, EXACT, ideal)
    ensures Playing(Run(s, passes), ideal, 0.0)
    ensures NoOvershoot(Error(s, ideal), Error(Run(s, passes), ideal))
    decreases passes
  {
    if passes != [] {
      var p := passes[0];
      if p.poll.Frame? {
        FrameNeverOvershoots(s, p, ideal);
      } else {
        IdlePassKeepsError(s, p, ideal, 0.0);
      }
      RunNeverOvershoots(Step(s, p), passes[1..], ideal);
    }
  }

  lemma {:induction false} SmallerGapIsWeaker(s: Sync, passes: seq<Pass>, gap: real, less: real, l: Limits, ideal: real)
    requires less <= gap && WithinLimits(s, passes, gap, l, ideal)
    ensures WithinLimits(s, passes, less, l, ideal)
    decreases passes
  {
    if passes != [] {
      SmallerGapIsWeaker(Step(s, passes[0]), passes[1..], gap, less, l, ideal);
    }
  }

  /** With exact sleeps, steady audio and gaps of at least `gap`, the difference gets below 0.1 s within
      `Abs(diff) / gap` frames exactly when it starts below ten seconds. */
  lemma ConvergesIffWithinTenSeconds(s: Sync, passes: seq<Pass>, gap: real, ideal: real)
    requires gap > 0.0
    requires Playing(s, ideal, 0.0) && WithinLimits(s, passes, gap, EXACT, ideal)
    requires Frames(passes) as real * gap >= Abs(Error(s, ideal))
    ensures Playing(Run(s, passes), ideal, 0.0)
    ensures Abs(Error(Run(s, passes), ideal)) < SYNC_THRESHOLD_MAX <==> Abs(Error(s, ideal)) < MAX_FRAME_DURATION
  {
    if Abs(Error(s, ideal)) < MAX_FRAME_DURATION {
      SyncConverges(s, passes, gap, EXACT, ideal);
    } else {
      SmallerGapIsWeaker(s, passes, gap, 0.0, EXACT, ideal);
      RunNeverOvershoots(s, passes, ideal);
    }
  }

  /** The error read off the clocks at any time, when the audio clock is exact. */
  lemma ErrorIsClockDiff(s: Sync, ideal: real, now: real)
    requires Playing(s, ideal, 0.0)
    ensures ClockDiff(s, now) == Num(Error(s, ideal))
  {
    DiffIsDriftDifference(s, now);
  }

  // ---------------------------------------------------------------------------------------------
  // The noise of real sleeps: whole milliseconds and lateness
  // ---------------------------------------------------------------------------------------------

  /** The time between two settings of the video clock that is not asked-for sleep: drawing, polling,
      and sleeping too long. */
  function Lateness(s: Sync, f: Poll): real
    requires f.Frame?
  {
    f.scheduledAt - s.video.updated + f.overrun
  }

  /** As `WithinLimits`, but bounding how late frames are instead of the noise. */
  predicate Timely(s: Sync, passes: seq<Pass>, gap: real, late: real, jitter: real, ideal: real)
    decreases passes
  {
    passes == [] || (
      var p := passes[0];
      && SteadyCallbacks(p.during, ideal, jitter) && SteadyCallbacks(p.after, ideal, jitter)
      && (p.poll.NoFrame? || (
            && p.poll.Frame? && p.poll.pts.Num?
            && Ge(Sub(p.poll.pts, s.lastFramePts), Num(gap))
            && 0.0 <= Lateness(s, p.poll) <= late))
      && Timely(Step(s, p), passes[1..], gap, late, jitter, ideal))
  }

  /** Truncation loses less than a millisecond of a nonnegative delay. */
  lemma SleepTruncates(delay: real)
    requires delay >= 0.0
    ensures 0.0 <= delay - SleepTime(Num(delay)) < 0.001
  {}

  lemma CorrectedDelayNonnegative(m: real, gap: real)
    requires gap >= 0.0
    ensures CorrectDelay(Num(m), Num(gap)).Num? && CorrectDelay(Num(m), Num(gap)).r >= 0.0
  {}

  lemma {:induction false} TimelyRunsAreWithinLimits(
    s: Sync, passes: seq<Pass>, gap: real, late: real, jitter: real, ideal: real)
    requires gap >= 0.0 && Playing(s, ideal, jitter)
    requires Timely(s, passes, gap, late, jitter, ideal)
    ensures WithinLimits(s, passes, gap, Limits(jitter, late, 0.001), ideal)
    decreases passes
  {
    if passes != [] {
      var p := passes[0];
      if p.poll.Frame? {
        FrameMovesError(s, p, ideal, jitter);
        CorrectedDelayNonnegative(s.video.drift.r - s.audio.drift.r, p.poll.pts.r - s.lastFramePts.r);
        SleepTruncates(ChosenDelay(s, p.poll).r);
      } else {
        IdlePassKeepsError(s, p, ideal, jitter);
      }
      TimelyRunsAreWithinLimits(Step(s, p), passes[1..], gap, late, jitter, ideal);
    }
  }

  /** The error band with real sleeps: frames up to `late` seconds late and callbacks off by up to `jitter`
      never push the error out of the band, when pts gaps are at least `late` and a millisecond. */
  lemma ErrorBand(s: Sync, passes: seq<Pass>, late: real, jitter: real, ideal: real)
    requires 0.0 <= late && 0.0 <= jitter && 2.0 * jitter + late < 9.9 && 2.0 * jitter + 0.001 < 9.9
    requires Playing(s, ideal, jitter) && Timely(s, passes, Max(late, 0.001), late, jitter, ideal)
    requires -(0.1 + jitter + late) < Error(s, ideal) < 0.101 + jitter
    ensures Playing(Run(s, passes), ideal, jitter)
    ensures -(0.1 + jitter + late) < Error(Run(s, passes), ideal) < 0.101 + jitter
  {
    TimelyRunsAreWithinLimits(s, passes, Max(late, 0.001), late, jitter, ideal);
    RunApproachesBand(s, passes, Max(late, 0.001), Limits(jitter, late, 0.001), ideal);
  }

  // ---------------------------------------------------------------------------------------------
  // Pauses and unset timestamps
  // ---------------------------------------------------------------------------------------------

  predicate Waiting(passes: seq<Pass>) {
    forall i :: 0 <= i < |passes| ==> passes[i].poll.Paused? || passes[i].poll.NoFrame?
  }

  predicate SeesPause(passes: seq<Pass>) {
    exists i :: 0 <= i < |passes| && passes[i].poll.Paused?
  }

  predicate Silent(passes: seq<Pass>) {
    forall i :: 0 <= i < |passes| ==> passes[i].during == [] && passes[i].after == []
  }

  lemma {:induction false} WaitingShowsNothing(s: Sync, passes: seq<Pass>)
    requires Settled(s) && Waiting(passes)
    ensures var w := Run(s, passes);
            && Settled(w)
            && w.video == s.video && w.lastFramePts == s.lastFramePts
            && (w.resumeAfterPause <==> s.resumeAfterPause || SeesPause(passes))
            && (Silent(passes) ==> w.audio == s.audio && w.lastAudioPts == s.lastAudioPts)
    decreases passes
  {
    if passes != [] {
      var p, first := passes[0], if passes[0].poll.Paused? then s.(resumeAfterPause := true) else s;
      HearKeepsSettled(first, p.during);
      HearKeepsSettled(Hear(first, p.during), p.after);
      WaitingShowsNothing(Step(s, p), passes[1..]);
      assert SeesPause(passes) <==> p.poll.Paused? || SeesPause(passes[1..]) by {
        if i :| 0 <= i < |passes[1..]| && passes[1..][i].poll.Paused? {
          assert passes[i + 1].poll.Paused?;
        }
        if i :| 0 < i < |passes| && passes[i].poll.Paused? {
          assert passes[1..][i - 1].poll.Paused?;
        }
      }
    }
  }

  /** However long the pause and whenever it ends, the difference after it is the last pts shown minus the
      last pts heard. */
  lemma PauseLengthIsForgotten(s: Sync, pause: seq<Pass>, resumedAt: real, readAt: real)
    requires Settled(s) && Waiting(pause) && SeesPause(pause)
    ensures var resumed := Resume(Run(s, pause), resumedAt);
            ClockDiff(resumed, readAt) == Sub(s.lastFramePts, Run(s, pause).lastAudioPts)
  {
    WaitingShowsNothing(s, pause);
    DiffIsDriftDifference(Resume(Run(s, pause), resumedAt), readAt);
  }

  /** Without callbacks during it, a pause changes the difference by the time between the last settings of
      the two clocks; it changes nothing exactly when both were last set at the same time. */
  lemma PauseNeutrality(s: Sync, pause: seq<Pass>, resumedAt: real, readAt: real, pausedAt: real)
    requires Settled(s) && s.video.pts.Num? && s.audio.pts.Num?
    requires Waiting(pause) && SeesPause(pause) && Silent(pause)
    ensures var before, after := ClockDiff(s, pausedAt), ClockDiff(Resume(Run(s, pause), resumedAt), readAt);
            && after == Add(before, Num(s.video.updated - s.audio.updated))
            && (after == before <==> s.video.updated == s.audio.updated)
  {
    PauseLengthIsForgotten(s, pause, resumedAt, readAt);
    WaitingShowsNothing(s, pause);
    DiffIsDriftDifference(s, pausedAt);
  }

  /** A frame without a pts costs two frames of synchronisation: neither it nor the next one is slept for,
      and the next one sets the video clock again. */
  lemma UnsetPtsRecovers(s: Sync, p: Pass, q: Pass)
    requires Settled(s) && p.poll.Frame? && p.poll.pts.NaN? && q.poll.Frame? && q.poll.pts.Num?
    ensures SleepTime(ChosenDelay(s, p.poll)) == 0.0
    ensures SleepTime(ChosenDelay(Step(s, p), q.poll)) == 0.0
    ensures Step(Step(s, p), q).video.pts == q.poll.pts
  {
    StepKeepsSettled(s, p);
    HearKeepsSettled(Resume(s, p.poll.scheduledAt), p.during);
    var slept := Hear(Resume(s, p.poll.scheduledAt), p.during);
    HearKeepsSettled(slept.(video := SetClock(slept.video, NaN, PresentedAt(s, p.poll)), lastFramePts := NaN), p.after);
    var t := Step(s, p);
    HearKeepsSettled(Resume(t, q.poll.scheduledAt), q.during);
    var slept' := Hear(Resume(t, q.poll.scheduledAt), q.during);
    HearKeepsSettled(
      slept'.(video := SetClock(slept'.video, q.poll.pts, PresentedAt(t, q.poll)), lastFramePts := q.poll.pts),
      q.after);
  }
}
