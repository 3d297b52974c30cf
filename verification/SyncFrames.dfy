/** What the video loop does in numbers: one frame exactly, the first frame after a pause, and the end of the loop. */
module SyncFrames {
  import opened Doubles
  import opened MediaClocks
  import opened MediaSync
  import opened SyncTheorems

  // ---------------------------------------------------------------------------------------------
  // One frame
  // ---------------------------------------------------------------------------------------------

  /** One frame with an exact sleep and steady audio. Let the picture be `m` seconds ahead and the gap of the
      timestamps `d`, and let `t` be `d` kept between 40 and 100 ms. A difference below `t`, or of ten seconds or
      more, stays. A picture that is behind catches up by the whole gap, until it is even. One that is ahead is even
      after a gap of more than 100 ms, and otherwise loses one gap. */
  lemma ExactFrame(s: Sync, p: Pass, ideal: real)
    requires Playing(s, ideal, 0.0) && p.poll.Frame? && PassWithin(s, p, 0.0, EXACT, ideal)
    ensures Playing(Step(s, p), ideal, 0.0)
    ensures var m, d := Error(s, ideal), p.poll.pts.r - s.lastFramePts.r;
            var t := if d < 0.04 then 0.04 else if d > 0.1 then 0.1 else d;
            var m' := Error(Step(s, p), ideal);
            && (Abs(m) < t || Abs(m) >= 10.0 ==> m' == m)
            && (-10.0 < m <= -t ==> m' == if m + d < 0.0 then m + d else 0.0)
            && (t <= m < 10.0 && d > 0.1 ==> m' == 0.0)
            && (t <= m < 10.0 && d <= 0.1 ==> m' == m - d)
  {
    FrameMovesError(s, p, ideal, 0.0);
  }

  /** The time that such a frame lets its predecessor stay: the gap, as long as the difference is small or hopeless;
      nothing at least and the gap at most, if the picture is behind; and never more than two gaps of up to 100 ms. */
  lemma TimeOnScreen(s: Sync, p: Pass, ideal: real)
    requires Playing(s, ideal, 0.0) && p.poll.Frame? && PassWithin(s, p, 0.0, EXACT, ideal)
    ensures Playing(Step(s, p), ideal, 0.0)
    ensures var m, d := Error(s, ideal), p.poll.pts.r - s.lastFramePts.r;
            var shown := PresentedAt(s, p.poll) - s.video.updated;
            && shown == m + d - Error(Step(s, p), ideal)
            && (Abs(m) < 0.04 || Abs(m) >= 10.0 ==> shown == d)
            && (m <= 0.0 ==> 0.0 <= shown <= d)
            && (m >= 0.0 ==> shown >= d)
            && (d <= 0.1 ==> shown <= 2.0 * d)
            && (d > 0.1 ==> shown <= d + Abs(m))
  {
    FrameMovesError(s, p, ideal, 0.0);
  }

  /** While one of the clocks is unset nothing is corrected: the frame's predecessor is to stay for the gap. */
  lemma UnsetClockCorrectsNothing(s: Sync, f: Poll)
    requires Settled(s) && !s.resumeAfterPause && f.Frame? && (s.video.pts.NaN? || s.audio.pts.NaN?)
    ensures ChosenDelay(s, f) == Sub(f.pts, s.lastFramePts)
  {
    ReadsLinearly(s.video, f.scheduledAt);
    ReadsLinearly(s.audio, f.scheduledAt);
  }

  /** A new synchroniser shows nothing and has heard nothing, so its first frame is to wait for its whole pts. */
  lemma FirstFrame(now: real, f: Poll)
    requires f.Frame?
    ensures var s := Initial(now);
            && ReadClock(s.video, f.scheduledAt) == NaN && ReadClock(s.audio, f.scheduledAt) == NaN
            && s.lastFramePts == s.lastAudioPts == Num(0.0) && !s.resumeAfterPause
            && ChosenDelay(s, f) == Sub(f.pts, Num(0.0))
  {
    ReachableIsSettled(now, []);
    UnsetClockCorrectsNothing(Initial(now), f);
  }

  /** A sleep is the largest whole number of milliseconds that the delay has room for; a delay that is not positive,
      or not a number, is not slept for. */
  lemma SleepsWholeMilliseconds(delay: Double)
    ensures var ms := SleepTime(delay) * 1000.0;
            && ms == ms.Floor as real
            && (delay.Num? && delay.r > 0.0 ==> 0.0 <= ms <= delay.r * 1000.0 < ms + 1.0)
            && (delay.NaN? || delay.r <= 0.0 ==> ms == 0.0)
  {
    if delay.Num? && delay.r > 0.0 {
      var n := (delay.r * 1000.0).Floor;
      assert SleepTime(delay) * 1000.0 == n as real;
    }
  }

  /** After a frame the video clock shows its pts at the time at which it was presented, and goes on from there; the
      audio clock shows the last pts heard at the time at which it was heard, if any was heard meanwhile. */
  lemma FrameSetsClocks(s: Sync, p: Pass, now: real)
    requires Settled(s) && p.poll.Frame? && p.poll.pts.Num?
    ensures var s', heard := Step(s, p), p.during + p.after;
            && s'.lastFramePts == p.poll.pts && !s'.resumeAfterPause
            && ReadClock(s'.video, now) == Num(p.poll.pts.r + (now - PresentedAt(s, p.poll)))
            && (heard != [] ==>
                  var c := heard[|heard| - 1];
                  && s'.lastAudioPts == c.pts
                  && (c.pts.Num? ==> ReadClock(s'.audio, now) == Num(c.pts.r + (now - c.at))))
            && (heard == [] ==> s'.lastAudioPts == s.lastAudioPts && s'.audio == Resume(s, p.poll.scheduledAt).audio)
  {
    var resumed := Resume(s, p.poll.scheduledAt);
    HearKeepsSettled(resumed, p.during);
    var slept := Hear(resumed, p.during);
    var shown := slept.(video := SetClock(slept.video, p.poll.pts, PresentedAt(s, p.poll)),
                        lastFramePts := p.poll.pts);
    HearKeepsSettled(shown, p.after);
    StepKeepsSettled(s, p);
    ReadsLinearly(Step(s, p).video, now);
    ReadsLinearly(Step(s, p).audio, now);
  }

  // ---------------------------------------------------------------------------------------------
  // The first frame after a pause
  // ---------------------------------------------------------------------------------------------

  /** It finds each clock at what was shown or heard last; its delay is corrected for the difference of the two. */
  lemma FrameAfterPause(s: Sync, p: Pass)
    requires Settled(s) && s.resumeAfterPause && p.poll.Frame?
    ensures var at := p.poll.scheduledAt;
            && ReadClock(Resume(s, at).video, at) == s.lastFramePts
            && ReadClock(Resume(s, at).audio, at) == s.lastAudioPts
            && ChosenDelay(s, p.poll)
               == CorrectDelay(Sub(s.lastFramePts, s.lastAudioPts), Sub(p.poll.pts, s.lastFramePts))
            && Step(s, p) == Step(Resume(s, at), p)
    ensures !Step(s, p).resumeAfterPause
  {
    var at := p.poll.scheduledAt;
    ReadsLinearly(Resume(s, at).video, at);
    ReadsLinearly(Resume(s, at).audio, at);
    StepKeepsSettled(s, p);
    HearKeepsSettled(Resume(s, at), p.during);
    var slept := Hear(Resume(s, at), p.during);
    HearKeepsSettled(
      slept.(video := SetClock(slept.video, p.poll.pts, PresentedAt(s, p.poll)), lastFramePts := p.poll.pts), p.after);
  }

  /** With clocks that are set, the player is playing again from that moment: the error is that of the picture shown
      last, against the audio that starts anew. */
  lemma ResumedIsPlaying(s: Sync, at: real, ideal: real, jitter: real)
    requires Settled(s) && s.resumeAfterPause && s.lastFramePts.Num?
    requires Near(Sub(s.lastAudioPts, Num(at)), ideal, jitter)
    ensures Playing(Resume(s, at), ideal, jitter)
    ensures Error(Resume(s, at), ideal) == s.lastFramePts.r - at - ideal
  {}

  /** A pause, however long, and then frames: if the picture shown last is less than ten seconds off, the error comes
      into the band as it does without a pause. */
  lemma ConvergesAfterPause(s: Sync, pause: seq<Pass>, passes: seq<Pass>, step: real, l: Limits, ideal: real)
    requires Settled(s) && Waiting(pause) && SeesPause(pause) && passes != [] && passes[0].poll.Frame?
    requires l.Valid() && step > 0.0 && s.lastFramePts.Num?
    requires var w, at := Run(s, pause), passes[0].poll.scheduledAt;
             && Near(Sub(w.lastAudioPts, Num(at)), ideal, l.jitter)
             && WithinLimits(Resume(w, at), passes, l.Worst() + step, l, ideal)
             && Abs(s.lastFramePts.r - at - ideal) + l.jitter < MAX_FRAME_DURATION
             && Frames(passes) as real * step >= Abs(s.lastFramePts.r - at - ideal)
    ensures Playing(Run(s, pause + passes), ideal, l.jitter)
    ensures l.InBand(Error(Run(s, pause + passes), ideal))
  {
    var w, at := Run(s, pause), passes[0].poll.scheduledAt;
    WaitingShowsNothing(s, pause);
    ResumedIsPlaying(w, at, ideal, l.jitter);
    SyncConverges(Resume(w, at), passes, step, l, ideal);
    FrameAfterPause(w, passes[0]);
    RunSplits(s, pause, passes);
    assert !HasAbort(pause);
  }

  // ---------------------------------------------------------------------------------------------
  // What was heard
  // ---------------------------------------------------------------------------------------------

  /** The callbacks of a run, until the loop ends. */
  function Callbacks(passes: seq<Pass>): seq<Callback>
    decreases passes
  {
    if passes == [] || passes[0].poll.Abort? then []
    else passes[0].during + passes[0].after + Callbacks(passes[1..])
  }

  function LastPts(before: Double, heard: seq<Callback>): Double {
    if heard == [] then before else heard[|heard| - 1].pts
  }

  lemma {:induction false} HearsLast(s: Sync, heard: seq<Callback>)
    ensures Hear(s, heard).lastAudioPts == LastPts(s.lastAudioPts, heard)
    decreases heard
  {
    if heard != [] {
      HearsLast(AudioCallback(s, heard[0]), heard[1..]);
    }
  }

  lemma StepHears(s: Sync, p: Pass)
    requires !p.poll.Abort?
    ensures Step(s, p).lastAudioPts == LastPts(s.lastAudioPts, p.during + p.after)
  {
    forall s: Sync ensures Hear(s, p.during).lastAudioPts == LastPts(s.lastAudioPts, p.during) {
      HearsLast(s, p.during);
    }
    forall s: Sync ensures Hear(s, p.after).lastAudioPts == LastPts(s.lastAudioPts, p.after) {
      HearsLast(s, p.after);
    }
  }

  /** Whatever the passes find, no callback is missed: the last pts heard is that of the last callback of the run. */
  lemma {:induction false} LastCallbackCounts(s: Sync, passes: seq<Pass>)
    ensures Run(s, passes).lastAudioPts == LastPts(s.lastAudioPts, Callbacks(passes))
    decreases passes
  {
    if passes != [] && !passes[0].poll.Abort? {
      StepHears(s, passes[0]);
      LastCallbackCounts(Step(s, passes[0]), passes[1..]);
    }
  }

  // ---------------------------------------------------------------------------------------------
  // The end of the loop
  // ---------------------------------------------------------------------------------------------

  predicate HasAbort(passes: seq<Pass>) {
    exists i :: 0 <= i < |passes| && passes[i].poll.Abort?
  }

  /** The pass that finds the abort flag is the last one, and does nothing. */
  lemma {:induction false} AbortEndsTheLoop(s: Sync, a: seq<Pass>, p: Pass, b: seq<Pass>)
    requires p.poll.Abort?
    ensures Run(s, a + [p] + b) == Run(s, a)
    decreases a
  {
    if a == [] {
      assert (a + [p] + b)[0] == p;
    } else {
      assert (a + [p] + b)[0] == a[0] && (a + [p] + b)[1..] == a[1..] + [p] + b;
      AbortEndsTheLoop(Step(s, a[0]), a[1..], p, b);
    }
  }

  /** Until then one run goes on where the other stopped. */
  lemma {:induction false} RunSplits(s: Sync, a: seq<Pass>, b: seq<Pass>)
    requires !HasAbort(a)
    ensures Run(s, a + b) == Run(Run(s, a), b)
    decreases a
  {
    if a == [] {
      assert a + b == b;
    } else {
      assert (a + b)[0] == a[0] && (a + b)[1..] == a[1..] + b;
      assert !HasAbort(a[1..]) by {
        forall i | 0 <= i < |a[1..]| ensures !a[1..][i].poll.Abort? {
          assert a[1..][i] == a[i + 1];
        }
      }
      RunSplits(Step(s, a[0]), a[1..], b);
    }
  }
}
