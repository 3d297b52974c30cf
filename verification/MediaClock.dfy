/** The drift-based clock of sync/MediaClock.cpp. Time stamps that the source reads from the system
    clock are parameters. */
module MediaClocks {
  import opened Doubles

  const NOSYNC_THRESHOLD := 10.0

  /** The fields of a MediaClock object. */
  datatype Clock = Clock(pts: Double, drift: Double, updated: real, speed: real, paused: bool)

  function ReadClock(c: Clock, now: real): Double {
    if c.paused then c.pts
    else Sub(Add(c.drift, Num(now)), Num((now - c.updated) * (1.0 - c.speed)))
  }

  function SetClock(c: Clock, pts: Double, time: real): Clock {
    c.(pts := pts, updated := time, drift := Sub(pts, Num(time)))
  }

  /** The clock is read at `readAt` and set again at `setAt`. */
  function SetSpeed(c: Clock, speed: real, readAt: real, setAt: real): Clock {
    SetClock(c, ReadClock(c, readAt), setAt).(speed := speed)
  }

  /** The clock and its slave are read one after the other, and then the clock may be set. */
  function SyncToSlave(c: Clock, slave: Clock, readAt: real, slaveAt: real, setAt: real): Clock {
    var clock, slaveClock := ReadClock(c, readAt), ReadClock(slave, slaveAt);
    if slaveClock.Num? && (clock.NaN? || Abs(clock.r - slaveClock.r) > NOSYNC_THRESHOLD)
    then SetClock(c, slaveClock, setAt)
    else c
  }

  const INITIAL_SPEED := 1.0

  function InitialClock(now: real): Clock {
    Clock(NaN, NaN, now, INITIAL_SPEED, false)
  }

  /** What every operation keeps: the clock runs, and its drift is the offset it was last set with. */
  predicate Consistent(c: Clock) {
    !c.paused && c.drift == Sub(c.pts, Num(c.updated))
  }

  lemma OperationsKeepConsistent(c: Clock, slave: Clock, pts: Double, t: real, u: real, v: real, speed: real)
    requires Consistent(c)
    ensures Consistent(InitialClock(t))
    ensures Consistent(SetClock(c, pts, t))
    ensures Consistent(SetSpeed(c, speed, t, u))
    ensures Consistent(SyncToSlave(c, slave, t, u, v))
  {}

  /** The drift formula is linear interpolation from the last setting. */
  lemma ReadsLinearly(c: Clock, now: real)
    requires Consistent(c)
    ensures c.pts.NaN? ==> ReadClock(c, now) == NaN
    ensures c.pts.Num? ==> ReadClock(c, now) == Num(c.pts.r + c.speed * (now - c.updated))
  {
    if c.pts.Num? {
      var e := now - c.updated;
      assert e * (1.0 - c.speed) == e - c.speed * e;
    }
  }

  /** A paused clock shows the pts it was set to, whatever the time; set again, it shows the new one at once. */
  lemma PausedClockStands(c: Clock, pts: Double, time: real, now: real)
    ensures c.paused ==> ReadClock(c, now) == c.pts && ReadClock(SetClock(c, pts, time), now) == pts
    ensures !c.paused ==> ReadClock(SetClock(c, pts, time), time) == pts
    ensures SetClock(c, pts, time).paused == c.paused && SetClock(c, pts, time).speed == c.speed
  {}

  datatype SpeedChange = SpeedChange(speed: real, readAt: real, setAt: real)

  function ChangeSpeeds(c: Clock, changes: seq<SpeedChange>): Clock
    decreases changes
  {
    if changes == [] then c
    else ChangeSpeeds(SetSpeed(c, changes[0].speed, changes[0].readAt, changes[0].setAt), changes[1..])
  }

  /** The sum of speed times elapsed time from `from` to `until`, over the intervals the changes cut out. */
  function Elapsed(from: real, speed: real, changes: seq<SpeedChange>, until: real): real
    decreases changes
  {
    if changes == [] then speed * (until - from)
    else speed * (changes[0].readAt - from) + Elapsed(changes[0].setAt, changes[0].speed, changes[1..], until)
  }

  /** The clock integrates its speed over any sequence of speed changes. */
  lemma {:induction false} ClockIsIntegral(c: Clock, changes: seq<SpeedChange>, now: real)
    requires Consistent(c)
    ensures Consistent(ChangeSpeeds(c, changes))
    ensures c.pts.NaN? ==> ReadClock(ChangeSpeeds(c, changes), now) == NaN
    ensures c.pts.Num? ==>
              ReadClock(ChangeSpeeds(c, changes), now)
              == Num(c.pts.r + Elapsed(c.updated, c.speed, changes, now))
    decreases changes
  {
    if changes == [] {
      ReadsLinearly(c, now);
    } else {
      var next := SetSpeed(c, changes[0].speed, changes[0].readAt, changes[0].setAt);
      ReadsLinearly(c, changes[0].readAt);
      ClockIsIntegral(next, changes[1..], now);
    }
  }

  /** Each change is read no earlier than the previous one was set, and no speed is negative. */
  predicate Forward(from: real, speed: real, changes: seq<SpeedChange>, until: real)
    decreases changes
  {
    if changes == [] then from <= until && speed >= 0.0
    else from <= changes[0].readAt && speed >= 0.0
         && Forward(changes[0].setAt, changes[0].speed, changes[1..], until)
  }

  lemma {:induction false} ElapsedNonnegative(from: real, speed: real, changes: seq<SpeedChange>, until: real)
    requires Forward(from, speed, changes, until)
    ensures Elapsed(from, speed, changes, until) >= 0.0
    decreases changes
  {
    if changes != [] {
      ElapsedNonnegative(changes[0].setAt, changes[0].speed, changes[1..], until);
    }
  }

  /** Starting to count later leaves out exactly the time in between. */
  lemma ElapsedShift(a: real, b: real, speed: real, changes: seq<SpeedChange>, until: real)
    ensures Elapsed(a, speed, changes, until) == speed * (b - a) + Elapsed(b, speed, changes, until)
  {
    var u := if changes == [] then until else changes[0].readAt;
    assert speed * (u - a) == speed * (b - a) + speed * (u - b);
  }

  /** With nonnegative speeds the clock never shows less later on, whatever speed changes lie between. */
  lemma ClockIsMonotone(c: Clock, changes: seq<SpeedChange>, from: real, until: real)
    requires Consistent(c) && c.pts.Num?
    requires Forward(from, c.speed, changes, until)
    ensures Ge(ReadClock(ChangeSpeeds(c, changes), until), ReadClock(c, from))
  {
    var before := Elapsed(c.updated, c.speed, [], from);
    var whole := Elapsed(c.updated, c.speed, changes, until);
    assert before <= whole by {
      ElapsedShift(c.updated, from, c.speed, changes, until);
      ElapsedNonnegative(from, c.speed, changes, until);
    }
    ClockIsIntegral(c, [], from);
    assert ReadClock(c, from) == Num(c.pts.r + before);
    ClockIsIntegral(c, changes, until);
  }

  /** A speed change whose two clock reads fall on one instant does not move the clock at that instant. */
  lemma SpeedChangeIsContinuous(c: Clock, speed: real, at: real)
    requires Consistent(c)
    ensures ReadClock(SetSpeed(c, speed, at, at), at) == ReadClock(c, at)
  {
    ReadsLinearly(c, at);
    ReadsLinearly(SetSpeed(c, speed, at, at), at);
  }

  /** After synchronising, the clock has been set to what the slave was read as, exactly if it was unset or further
      from that than the threshold; otherwise it runs on as before, within the threshold of a slave that is set. */
  lemma SlaveIsFollowed(c: Clock, slave: Clock, readAt: real, slaveAt: real, setAt: real)
    requires Consistent(c) && Consistent(slave)
    ensures var c', mine, other :=
              SyncToSlave(c, slave, readAt, slaveAt, setAt), ReadClock(c, readAt), ReadClock(slave, slaveAt);
            if slave.pts.Num? && (c.pts.NaN? || Abs(mine.r - other.r) > 10.0)
            then ReadClock(c', setAt) == other && other.Num?
            else c' == c && (slave.pts.Num? ==> Abs(mine.r - other.r) <= 10.0)
  {
    ReadsLinearly(c, readAt);
    ReadsLinearly(slave, slaveAt);
    ReadsLinearly(SyncToSlave(c, slave, readAt, slaveAt, setAt), setAt);
  }

  /** After synchronising to a valid slave at one instant the gap is at most the threshold; the clock is touched
      exactly when it was unset or further away than that, and an unset slave never touches it. */
  lemma SlaveGap(c: Clock, slave: Clock, now: real)
    requires Consistent(c) && Consistent(slave)
    ensures var c' := SyncToSlave(c, slave, now, now, now);
            && (slave.pts.Num? ==>
                  && ReadClock(c', now).Num?
                  && Abs(ReadClock(c', now).r - ReadClock(slave, now).r) <= 10.0)
            && (ReadClock(c', now) != ReadClock(c, now) <==>
                  && slave.pts.Num?
                  && (c.pts.NaN? || Abs(ReadClock(c, now).r - ReadClock(slave, now).r) > 10.0))
            && (ReadClock(c', now) != ReadClock(c, now) ==> ReadClock(c', now) == ReadClock(slave, now))
  {
    ReadsLinearly(c, now);
    ReadsLinearly(slave, now);
    ReadsLinearly(SyncToSlave(c, slave, now, now, now), now);
  }

  /** The mutable object. Its methods are specified by the functions above. */
  class MediaClock {
    var pts: Double
    var ptsDrift: Double
    var lastUpdated: real
    var speed: real
    var paused: bool

    ghost function State(): Clock
      reads this
    {
      Clock(pts, ptsDrift, lastUpdated, speed, paused)
    }

    constructor (now: real)
      ensures State() == InitialClock(now) && Consistent(State())
    {
      speed := 1.0;
      paused := false;
      new;
      Set(NaN, now);
    }

    method Get(now: real) returns (r: Double)
      ensures r == ReadClock(State(), now)
    {
      if paused {
        r := pts;
      } else {
        r := Sub(Add(ptsDrift, Num(now)), Num((now - lastUpdated) * (1.0 - speed)));
      }
    }

    method Set(pts: Double, time: real)
      modifies this
      ensures State() == SetClock(old(State()), pts, time)
      ensures old(!paused) ==> Consistent(State())
    {
      this.pts := pts;
      lastUpdated := time;
      ptsDrift := Sub(this.pts, Num(time));
    }

    method ChangeSpeed(speed: real, readAt: real, setAt: real)
      modifies this
      ensures State() == SetSpeed(old(State()), speed, readAt, setAt)
      ensures old(!paused) ==> Consistent(State())
    {
      var clock := Get(readAt);
      Set(clock, setAt);
      this.speed := speed;
    }

    method FollowSlave(slave: MediaClock, readAt: real, slaveAt: real, setAt: real)
      modifies this
      ensures State() == SyncToSlave(old(State()), old(slave.State()), readAt, slaveAt, setAt)
      ensures slave != this ==> slave.State() == old(slave.State())
    {
      var clock := Get(readAt);
      var slaveClock := slave.Get(slaveAt);
      if slaveClock.Num? && (clock.NaN? || Abs(clock.r - slaveClock.r) > NOSYNC_THRESHOLD) {
        Set(slaveClock, setAt);
      }
    }
  }
}
