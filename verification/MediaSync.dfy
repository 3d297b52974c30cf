/** The audio/video synchroniser of sync/MediaSync2.cpp: the video loop is a feedback controller that
    stretches or shortens the time a frame stays on screen, from the difference of the two clocks.
    Audio callbacks come from another thread; a run fixes where they land between the loop's own steps. */
module MediaSync {
  import opened Doubles
  import opened MediaClocks

  const SYNC_THRESHOLD_MIN := 0.04
  const SYNC_THRESHOLD_MAX := 0.1
  const FRAMEDUP_THRESHOLD := 0.1
  const MAX_FRAME_DURATION := 10.0

  /** The clocks and fields the two loops share. */
  datatype Sync = Sync(
    video: Clock,
    audio: Clock,
    lastFramePts: Double,
    lastAudioPts: Double,
    resumeAfterPause: bool)

  /** The audio device reports that it plays `pts` at time `at`. */
  datatype Callback = Callback(pts: Double, at: real)

  function Initial(now: real): Sync {
    Sync(InitialClock(now), InitialClock(now), Num(0.0), Num(0.0), false)
  }

  /** What one pass of the video loop finds. `overrun` is how much longer the sleep took than asked for. */
  datatype Poll =
    | Abort
    | Paused
    | NoFrame
    | Frame(pts: Double, scheduledAt: real, overrun: real)

  /** One pass, with the audio callbacks that land during its sleep and after it. */
  datatype Pass = Pass(poll: Poll, during: seq<Callback>, after: seq<Callback>)

  function CorrectDelay(diff: Double, delay: Double): Double {
    var threshold := FFMax(Num(SYNC_THRESHOLD_MIN), FFMin(Num(SYNC_THRESHOLD_MAX), delay));
    if diff.NaN? || Abs(diff.r) >= MAX_FRAME_DURATION then delay
    else if Ge(Sub(Num(0.0), threshold), diff) then FFMax(Num(0.0), Add(delay, diff))
    else if Ge(diff, threshold) && Gt(delay, Num(FRAMEDUP_THRESHOLD)) then Add(delay, diff)
    else if Ge(diff, threshold) then Add(delay, delay)
    else delay
  }

  function ClockDiff(s: Sync, now: real): Double {
    Sub(ReadClock(s.video, now), ReadClock(s.audio, now))
  }

  /** Sleeps last a whole number of milliseconds; a NaN or nonpositive delay does not sleep at all. */
  function SleepTime(delay: Double): real {
    if Gt(delay, Num(0.0)) then (delay.r * 1000.0).Floor as real / 1000.0 else 0.0
  }

  function AudioCallback(s: Sync, c: Callback): Sync {
    s.(lastAudioPts := c.pts, audio := SetClock(s.audio, c.pts, c.at))
  }

  function Hear(s: Sync, callbacks: seq<Callback>): Sync
    decreases callbacks
  {
    if callbacks == [] then s else Hear(AudioCallback(s, callbacks[0]), callbacks[1..])
  }

  /** The first frame after a pause restarts both clocks from what was shown and heard last. */
  function Resume(s: Sync, now: real): Sync {
    if s.resumeAfterPause
    then s.(resumeAfterPause := false,
            video := SetClock(s.video, s.lastFramePts, now),
            audio := SetClock(s.audio, s.lastAudioPts, now))
    else s
  }

  function ChosenDelay(s: Sync, f: Poll): Double
    requires f.Frame?
  {
    CorrectDelay(ClockDiff(Resume(s, f.scheduledAt), f.scheduledAt), Sub(f.pts, s.lastFramePts))
  }

  function PresentedAt(s: Sync, f: Poll): real
    requires f.Frame?
  {
    f.scheduledAt + SleepTime(ChosenDelay(s, f)) + f.overrun
  }

  function Step(s: Sync, p: Pass): Sync {
    match p.poll
    case Abort => s
    case Paused => Hear(Hear(s.(resumeAfterPause := true), p.during), p.after)
    case NoFrame => Hear(Hear(s, p.during), p.after)
    case Frame(pts, scheduledAt, _) =>
      var slept := Hear(Resume(s, scheduledAt), p.during);
      Hear(slept.(video := SetClock(slept.video, pts, PresentedAt(s, p.poll)), lastFramePts := pts), p.after)
  }

  /** The video loop over a run; it ends at the first pass that finds the abort flag. */
  function Run(s: Sync, passes: seq<Pass>): Sync
    decreases passes
  {
    if passes == [] || passes[0].poll.Abort? then s else Run(Step(s, passes[0]), passes[1..])
  }

  class MediaSync2 {
    const audioClock: MediaClock
    const videoClock: MediaClock
    var lastFramePts: Double
    var lastAudioPts: Double
    var resumeAfterPause: bool
    const maxFrameDuration: real

    ghost predicate Valid() {
      audioClock != videoClock && maxFrameDuration == MAX_FRAME_DURATION
    }

    ghost function State(): Sync
      reads this, audioClock, videoClock
    {
      Sync(videoClock.State(), audioClock.State(), lastFramePts, lastAudioPts, resumeAfterPause)
    }

    constructor (now: real)
      ensures Valid() && fresh(audioClock) && fresh(videoClock)
      ensures State() == Initial(now)
    {
      audioClock := new MediaClock(now);
      videoClock := new MediaClock(now);
      maxFrameDuration := 10.0;
      lastFramePts := Num(0.0);
      lastAudioPts := Num(0.0);
      resumeAfterPause := false;
    }

    method CalculateDelay(requested: Double, now: real) returns (delay: Double)
      requires Valid()
      ensures delay == CorrectDelay(ClockDiff(State(), now), requested)
    {
      delay := requested;
      var video := videoClock.Get(now);
      var master := audioClock.Get(now);
      var diff := Sub(video, master);
      var threshold := FFMax(Num(SYNC_THRESHOLD_MIN), FFMin(Num(SYNC_THRESHOLD_MAX), delay));
      if diff.Num? && Abs(diff.r) < maxFrameDuration {
        if Ge(Sub(Num(0.0), threshold), diff) {
          delay := FFMax(Num(0.0), Add(delay, diff));
        } else if Ge(diff, threshold) && Gt(delay, Num(FRAMEDUP_THRESHOLD)) {
          delay := Add(delay, diff);
        } else if Ge(diff, threshold) {
          delay := Add(delay, delay);
        }
      }
    }

    method AudioCallBack(pts: Double, at: real)
      requires Valid()
      modifies this, audioClock
      ensures State() == AudioCallback(old(State()), Callback(pts, at))
    {
      lastAudioPts := pts;
      audioClock.Set(pts, at);
    }

    /** The other thread's callbacks of one stretch of time. */
    method AudioThread(callbacks: seq<Callback>)
      requires Valid()
      modifies this, audioClock
      ensures State() == Hear(old(State()), callbacks)
    {
      for i := 0 to |callbacks|
        invariant Hear(State(), callbacks[i..]) == Hear(old(State()), callbacks)
      {
        AudioCallBack(callbacks[i].pts, callbacks[i].at);
      }
    }

    method VideoPlay(passes: seq<Pass>)
      requires Valid()
      modifies this, audioClock, videoClock
      ensures State() == Run(old(State()), passes)
    {
      for i := 0 to |passes|
        invariant Run(State(), passes[i..]) == Run(old(State()), passes)
      {
        var pass := passes[i];
        assert passes[i..][0] == pass && passes[i..][1..] == passes[i + 1..];
        match pass.poll {
          case Abort =>
            return;
          case Paused =>
            resumeAfterPause := true;
            AudioThread(pass.during);
          case NoFrame =>
            AudioThread(pass.during);
          case Frame(pts, scheduledAt, overrun) =>
            PlayFrame(pts, scheduledAt, overrun, pass.during);
        }
        AudioThread(pass.after);
      }
    }

    /** The part of the loop that handles a frame it found. */
    method PlayFrame(pts: Double, scheduledAt: real, overrun: real, during: seq<Callback>)
      requires Valid()
      modifies this, audioClock, videoClock
      ensures State() == Step(old(State()), Pass(Frame(pts, scheduledAt, overrun), during, []))
    {
      if resumeAfterPause {
        resumeAfterPause := false;
        videoClock.Set(lastFramePts, scheduledAt);
        audioClock.Set(lastAudioPts, scheduledAt);
      }
      var lastDuration := Sub(pts, lastFramePts);
      var delay := CalculateDelay(lastDuration, scheduledAt);
      var now := scheduledAt + overrun;
      if Gt(delay, Num(0.0)) {
        now := now + (delay.r * 1000.0).Floor as real / 1000.0;
      }
      AudioThread(during);
      videoClock.Set(pts, now);
      lastFramePts := pts;
    }
  }
}
