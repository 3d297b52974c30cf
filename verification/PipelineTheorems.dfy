/** When the player plays every file to its end, and when its threads block one another. */
module PipelineTheorems {
  import opened Doubles
  import opened Options
  import opened Pipeline

  /** The audio packets that fit between the demuxer and the closed gate: the queue, the decoder, the ring. */
  const BACKLOG: nat := PACKETS + 1 + FRAMES

  /** The position of the first video packet with a nonzero pts from position `z` on, or the length of the file. */
  function NextOpening(packets: seq<Packet>, z: nat): (n: nat)
    requires z <= |packets|
    ensures z <= n <= |packets|
    ensures n < |packets| ==> Opens(packets[n])
    ensures forall i :: z <= i < n ==> !Opens(packets[i])
    decreases |packets| - z
  {
    if z == |packets| || Opens(packets[z]) then z else NextOpening(packets, z + 1)
  }

  /** The position of the first video packet with a nonzero pts, or the length of the file. */
  function FirstOpening(packets: seq<Packet>): (n: nat)
    ensures n <= |packets|
    ensures n < |packets| ==> Opens(packets[n])
    ensures forall i :: 0 <= i < n ==> !Opens(packets[i])
  {
    NextOpening(packets, 0)
  }

  /** The gate is closed when everything before position `z` was shown: at the start, and after pts zero. */
  predicate ClosesAt(input: seq<Packet>, z: nat) {
    z == 0 || (z <= |input| && input[z - 1].Video? && IsZero(input[z - 1]))
  }

  /** From `z` the demuxer can get at the next opening video packet with the gate closed: the audio before that
      packet fits into the backlog, or none of it comes after `z`. Without such a packet there is no audio. */
  predicate Fits(input: seq<Packet>, z: nat)
    requires z <= |input|
  {
    var v := NextOpening(input, z);
    if v == |input| then Only(AudioTrack, input) == []
    else |Only(AudioTrack, input[..v])| <= BACKLOG || Only(AudioTrack, input[z..v]) == []
  }

  predicate NeverBlocks(input: seq<Packet>) {
    forall z: nat :: z <= |input| && ClosesAt(input, z) ==> Fits(input, z)
  }

  /** The number of audio packets before the first opening video packet. */
  function AudioLead(input: seq<Packet>): nat {
    |Only(AudioTrack, input[..FirstOpening(input)])|
  }

  /** The audio before the first opening video packet fits into the backlog; without such a packet there is
      no audio. */
  predicate Playable(input: seq<Packet>) {
    AudioLead(input) <= BACKLOG && (FirstOpening(input) < |input| || AudioLead(input) == 0)
  }

  /** No video packet with pts zero comes after one with a nonzero pts. */
  predicate NeverRecloses(input: seq<Packet>) {
    var v := Only(VideoTrack, input);
    forall i, j :: 0 <= i < j < |v| && !IsZero(v[i]) ==> !IsZero(v[j])
  }

  predicate IncreasingTimes(input: seq<Packet>) {
    var v := Only(VideoTrack, input);
    && (forall i :: 0 <= i < |v| ==> !v[i].Other? && v[i].pts.Num? && v[i].pts.r >= 0.0)
    && (forall i, j :: 0 <= i < j < |v| ==> v[i].pts.r < v[j].pts.r)
  }

  /** Strictly increasing nonnegative timestamps never close the gate again. */
  lemma IncreasingTimesNeverReclose(input: seq<Packet>)
    requires IncreasingTimes(input)
    ensures NeverRecloses(input)
  {}

  // ---------------------------------------------------------------------------------------------
  // Packets of one kind
  // ---------------------------------------------------------------------------------------------

  lemma {:induction false} OnlyGrows(k: Kind, packets: seq<Packet>, i: nat, j: nat)
    requires i <= j <= |packets|
    ensures Only(k, packets[..i]) <= Only(k, packets[..j])
    decreases j - i
  {
    if i < j {
      OnlyGrows(k, packets, i, j - 1);
      assert packets[..j][..j - 1] == packets[..j - 1];
    }
  }

  lemma {:induction false} OnlyHas(k: Kind, packets: seq<Packet>, i: nat)
    requires i < |packets| && !packets[i].Other? && KindOf(packets[i]) == k
    ensures packets[i] in Only(k, packets)
    decreases |packets|
  {
    if i < |packets| - 1 {
      OnlyHas(k, packets[..|packets| - 1], i);
    }
  }

  lemma {:induction false} OnlySkips(k: Kind, packets: seq<Packet>, i: nat, j: nat)
    requires i <= j <= |packets|
    requires forall m :: i <= m < j ==> packets[m].Other? || KindOf(packets[m]) != k
    ensures Only(k, packets[..j]) == Only(k, packets[..i])
    decreases j - i
  {
    if i < j {
      OnlySkips(k, packets, i, j - 1);
      assert packets[..j][..j - 1] == packets[..j - 1];
    }
  }

  /** The position after the last video packet among the first `n`. */
  function AfterLastVideo(packets: seq<Packet>, n: nat): (w: nat)
    requires n <= |packets|
    ensures w <= n && (w == 0 || packets[w - 1].Video?)
    ensures forall i :: w <= i < n ==> !packets[i].Video?
  {
    if n == 0 || packets[n - 1].Video? then n else AfterLastVideo(packets, n - 1)
  }

  lemma LastVideo(packets: seq<Packet>, n: nat)
    requires n <= |packets|
    ensures var w, v := AfterLastVideo(packets, n), Only(VideoTrack, packets[..n]);
            if w == 0 then v == [] else v != [] && v[|v| - 1] == packets[w - 1]
  {
    var w := AfterLastVideo(packets, n);
    OnlySkips(VideoTrack, packets, w, n);
    if w > 0 {
      EndsWith(packets, w);
    }
  }

  lemma EndsWith(packets: seq<Packet>, w: nat)
    requires 0 < w <= |packets| && packets[w - 1].Video?
    ensures Only(VideoTrack, packets[..w]) == Only(VideoTrack, packets[..w - 1]) + [packets[w - 1]]
  {
    assert packets[..w][..w - 1] == packets[..w - 1];
  }

  /** With all video shown that was read, the gate is closed exactly after pts zero and before any video. */
  lemma GateAfterVideo(s: Player)
    requires s.read <= |s.input| && s.shown == Only(VideoTrack, s.input[..s.read])
    ensures !s.GateOpen() <==> ClosesAt(s.input, AfterLastVideo(s.input, s.read))
  {
    LastVideo(s.input, s.read);
  }

  // ---------------------------------------------------------------------------------------------
  // Stuck states
  // ---------------------------------------------------------------------------------------------

  /** A track whose ring has nothing to give holds nothing at all, or some thread has a step. */
  lemma StuckTrackIsEmpty(s: Player, k: Kind)
    requires Inv(s) && Stuck(s) && s.At(k).frames == []
    ensures s.At(k).Waiting() == [] && Pushing(s, k) == []
  {
    assert !Can(s, PushFrame(k)) && !Can(s, PopPacket(k)) && !Can(s, PushPacket);
  }

  lemma StuckVideoIsShown(s: Player)
    requires Inv(s) && Stuck(s)
    ensures s.video.frames == [] && Pushing(s, VideoTrack) == []
    ensures s.shown == Only(VideoTrack, s.input[..s.read])
  {
    assert !Can(s, TakeFrame(VideoTrack)) && !Can(s, DeliverFrame(VideoTrack)) && !Can(s, PopFrame(VideoTrack));
    StuckTrackIsEmpty(s, VideoTrack);
  }

  lemma StuckAudioIsGated(s: Player)
    requires Inv(s) && Stuck(s)
    ensures s.pcm == [] && s.audio.stage.Polling? && (s.audio.frames == [] || !s.GateOpen())
  {
    assert !Can(s, PlayPcm) && !Can(s, DeliverFrame(AudioTrack)) && !Can(s, PopFrame(AudioTrack));
    assert !Can(s, TakeFrame(AudioTrack));
  }

  lemma StuckIsFinished(s: Player)
    requires Inv(s) && Stuck(s) && s.audio.frames == []
    ensures AllPlayed(s)
  {
    StuckVideoIsShown(s);
    StuckAudioIsGated(s);
    StuckTrackIsEmpty(s, AudioTrack);
    assert !Can(s, ReadPacket);
    assert s.input[..s.read] == s.input;
  }

  /** A demuxer that cannot push audio has the backlog before it, and if the ring retains a frame, that frame
      was audio too. */
  lemma StuckAudioFillsBacklog(s: Player)
    requires Inv(s) && Stuck(s) && s.hand.Some?
    ensures s.hand.value.Audio? && |Only(AudioTrack, s.input[..s.read])| > BACKLOG
  {
    StuckVideoIsShown(s);
    StuckAudioIsGated(s);
    assert !Can(s, PushPacket) && !Can(s, PopPacket(AudioTrack)) && !Can(s, PushFrame(AudioTrack));
  }

  /** A file that never blocks is never stuck before everything is played. */
  lemma NeverStuck(s: Player)
    requires Inv(s) && Stuck(s) && NeverBlocks(s.input)
    ensures AllPlayed(s)
  {
    if s.audio.frames == [] {
      StuckIsFinished(s);
    } else {
      var z := AfterLastVideo(s.input, s.read);
      StuckAudioIsGated(s);
      StuckVideoIsShown(s);
      GateAfterVideo(s);
      assert Fits(s.input, z);
      StuckDoesNotFit(s, z);
      assert false;
    }
  }

  lemma StuckDoesNotFit(s: Player, z: nat)
    requires Inv(s) && Stuck(s) && s.audio.frames != [] && z == AfterLastVideo(s.input, s.read)
    ensures !Fits(s.input, z)
  {
    var v := NextOpening(s.input, z);
    assert s.read <= v;
    StuckAudioIsGated(s);
    OnlyGrows(AudioTrack, s.input, s.read, v);
    OnlyGrows(AudioTrack, s.input, v, |s.input|);
    assert s.input[..|s.input|] == s.input;
    if v < |s.input| {
      assert !Can(s, ReadPacket);
      StuckAudioFillsBacklog(s);
      OnlyHas(AudioTrack, s.input[z..v], s.read - 1 - z);
    }
  }

  // ---------------------------------------------------------------------------------------------
  // Every run is finite
  // ---------------------------------------------------------------------------------------------

  function TrackWork(t: Track): int {
    7 * |t.packets| + (if t.hand.Some? then 6 else 0) + 5 * |t.frames|
    - (match t.stage case Polling => 0 case Delivering => 1 case Popping => 3)
  }

  /** The steps the packets still have before them, at most. */
  function Work(s: Player): int {
    9 * (|s.input| - s.read) + (if s.hand.Some? then 8 else 0) + TrackWork(s.audio) + TrackWork(s.video) + |s.pcm|
  }

  lemma WorkIsBounded(s: Player)
    requires Inv(s)
    ensures Work(s) >= 0
  {}

  lemma StepsWork(s: Player, e: Step)
    requires Inv(s) && Can(s, e)
    ensures Work(Do(s, e)) < Work(s)
  {}

  /** The steps of the run that change the state. */
  function Effective(s: Player, steps: seq<Step>): nat
    decreases steps
  {
    if steps == [] then 0 else (if Can(s, steps[0]) then 1 else 0) + Effective(Next(s, steps[0]), steps[1..])
  }

  lemma {:induction false} RunsAreFinite(s: Player, steps: seq<Step>)
    requires Inv(s)
    ensures Effective(s, steps) <= Work(s)
    decreases steps
  {
    WorkIsBounded(s);
    if steps != [] {
      StepKeepsInv(s, steps[0]);
      if Can(s, steps[0]) {
        StepsWork(s, steps[0]);
      }
      RunsAreFinite(Next(s, steps[0]), steps[1..]);
    }
  }

  /** Letting threads step as long as one can reaches a stuck state. */
  lemma {:induction false} RunUntilStuck(s: Player) returns (steps: seq<Step>)
    requires Inv(s)
    ensures Stuck(Run(s, steps))
    decreases Work(s)
  {
    WorkIsBounded(s);
    if Stuck(s) {
      steps := [];
    } else {
      var e :| Can(s, e);
      StepsWork(s, e);
      StepKeepsInv(s, e);
      var rest := RunUntilStuck(Next(s, e));
      steps := [e] + rest;
      assert steps[1..] == rest;
    }
  }

  lemma {:induction false} RunSplits(s: Player, a: seq<Step>, b: seq<Step>)
    ensures Run(s, a + b) == Run(Run(s, a), b)
    decreases a
  {
    if a == [] {
      assert a + b == b;
    } else {
      assert (a + b)[1..] == a[1..] + b;
      RunSplits(Next(s, a[0]), a[1..], b);
    }
  }

  /** Every run of a file that never blocks can be continued until everything is heard and shown, and no run
      takes more than nine steps per packet. */
  lemma PlaysToTheEnd(input: seq<Packet>, steps: seq<Step>) returns (more: seq<Step>)
    requires NeverBlocks(input)
    ensures AllPlayed(Run(Start(input), steps + more))
    ensures Effective(Start(input), steps) <= 9 * |input|
  {
    StartInv(input);
    RunKeepsInv(Start(input), steps);
    var s := Run(Start(input), steps);
    more := RunUntilStuck(s);
    RunKeepsInv(s, more);
    NeverStuck(Run(s, more));
    RunSplits(Start(input), steps, more);
    RunsAreFinite(Start(input), steps);
  }

  // ---------------------------------------------------------------------------------------------
  // Files that block
  // ---------------------------------------------------------------------------------------------

  /** The audio between the demuxer and the audio device. */
  function InFlight(s: Player): nat {
    |s.audio.Waiting()| + |Pushing(s, AudioTrack)|
  }

  /** Audio is taken only when the demuxer cannot go on without. Then, once some was taken, the backlog is full
      but for the retained frame; and audio read from `z` on, with the gate closed, comes on top of that. */
  predicate Lazy(s: Player, z: nat, v: nat) {
    && z <= v <= |s.input| && s.read <= v && s.audio.stage.Polling?
    && (Untouched(s) || (
          && s.audio.retained
          && InFlight(s) >= BACKLOG - 1
          && (s.read > z && Only(AudioTrack, s.input[z..s.read]) != [] ==> InFlight(s) >= BACKLOG)))
  }

  /** `z` shows that the file blocks, with `v` the opening video packet that is never read. */
  predicate Blocked(input: seq<Packet>, z: nat, v: nat) {
    z <= |input| && ClosesAt(input, z) && v == NextOpening(input, z) && !Fits(input, z)
  }

  /** With nothing in the demuxer's hand, what is in flight fits into the backlog, less a retained frame. */
  lemma FlightFits(s: Player)
    requires Inv(s) && s.hand.None?
    ensures InFlight(s) + (if s.audio.retained then 1 else 0) <= BACKLOG
  {}

  lemma InFlightIsUnheard(s: Player)
    requires Inv(s)
    ensures |Only(AudioTrack, s.input[..s.read])| == |s.heard| + |s.pcm| + InFlight(s)
  {}

  lemma NeverReadsOpening(s: Player, z: nat, v: nat)
    requires Inv(s) && Blocked(s.input, z, v) && Lazy(s, z, v) && Can(s, ReadPacket)
    ensures s.read < v
  {
    FlightFits(s);
    InFlightIsUnheard(s);
  }

  lemma ReadStaysLazy(s: Player, z: nat, v: nat)
    requires Inv(s) && Blocked(s.input, z, v) && Lazy(s, z, v) && Can(s, ReadPacket)
    ensures Lazy(Do(s, ReadPacket), z, v)
  {
    NeverReadsOpening(s, z, v);
    if s.read >= z {
      AudioOfSlice(s.input, z, s.read);
    }
  }

  lemma AudioOfSlice(input: seq<Packet>, z: nat, n: nat)
    requires z <= n < |input|
    ensures Only(AudioTrack, input[z..n + 1])
            == Only(AudioTrack, input[z..n]) + (if input[n].Audio? then [input[n]] else [])
  {
    assert input[z..n + 1][..n - z] == input[z..n];
  }

  lemma PushStaysLazy(s: Player, z: nat, v: nat)
    requires Inv(s) && Lazy(s, z, v) && Can(s, PushPacket)
    ensures Lazy(Do(s, PushPacket), z, v)
  {}

  lemma DecodeStaysLazy(s: Player, e: Step, z: nat, v: nat)
    requires Inv(s) && Lazy(s, z, v) && Can(s, e) && (e.PopPacket? || e.PushFrame?)
    ensures Lazy(Do(s, e), z, v)
  {
    DecodeOnTrack(s.At(e.k));
  }

  lemma StepStaysLazy(s: Player, e: Step, z: nat, v: nat)
    requires Inv(s) && Blocked(s.input, z, v) && Lazy(s, z, v) && Can(s, e) && e != TakeFrame(AudioTrack)
    ensures Lazy(Do(s, e), z, v)
  {
    match e
    case ReadPacket => ReadStaysLazy(s, z, v);
    case PushPacket => PushStaysLazy(s, z, v);
    case PopPacket(_) => DecodeStaysLazy(s, e, z, v);
    case PushFrame(_) => DecodeStaysLazy(s, e, z, v);
    case PlayPcm =>
    case TakeFrame(_) =>
    case DeliverFrame(_) =>
    case PopFrame(_) =>
  }

  ghost predicate OnlyAudioIsLeft(s: Player) {
    forall e: Step :: Can(s, e) ==> e == TakeFrame(AudioTrack)
  }

  /** Then all video read was shown. */
  lemma AllVideoShown(s: Player)
    requires Inv(s) && OnlyAudioIsLeft(s)
    ensures s.shown == Only(VideoTrack, s.input[..s.read]) && Pushing(s, VideoTrack) == []
  {
    assert !Can(s, TakeFrame(VideoTrack)) && !Can(s, DeliverFrame(VideoTrack)) && !Can(s, PopFrame(VideoTrack));
    assert !Can(s, PushFrame(VideoTrack)) && !Can(s, PopPacket(VideoTrack)) && !Can(s, PushPacket);
  }

  /** Past `z` and before `v` the gate is closed as soon as all video is shown. */
  lemma GateStaysClosed(s: Player, z: nat, v: nat)
    requires Inv(s) && ClosesAt(s.input, z) && z <= s.read <= v <= |s.input|
    requires forall i :: z <= i < v ==> !Opens(s.input[i])
    requires s.shown == Only(VideoTrack, s.input[..s.read])
    ensures !s.GateOpen()
  {
    GateAfterVideo(s);
    var w := AfterLastVideo(s.input, s.read);
    assert w == z || w == 0 || !Opens(s.input[w - 1]);
  }

  /** A demuxer that cannot go on holds audio, and everything up to the ring is full. */
  lemma DemuxerIsBlocked(s: Player)
    requires Inv(s) && OnlyAudioIsLeft(s) && s.read < |s.input| && s.audio.stage.Polling?
    ensures InFlight(s) + (if s.audio.retained then 1 else 0) == BACKLOG + 1
  {
    AllVideoShown(s);
    assert !Can(s, ReadPacket) && !Can(s, PushPacket);
    assert !Can(s, PopPacket(AudioTrack)) && !Can(s, PushFrame(AudioTrack));
  }

  /** The audio thread takes one frame, from polling to polling. */
  function TakeAudio(s: Player): Player {
    Next(Next(Next(s, TakeFrame(AudioTrack)), DeliverFrame(AudioTrack)), PopFrame(AudioTrack))
  }

  const TAKE: seq<Step> := [TakeFrame(AudioTrack), DeliverFrame(AudioTrack), PopFrame(AudioTrack)]

  lemma TakesOne(s: Player)
    requires Inv(s) && OnlyAudioIsLeft(s) && Can(s, TakeFrame(AudioTrack))
    ensures var t := TakeAudio(s);
            && Inv(t) && t.input == s.input && t.read == s.read && Work(t) < Work(s)
            && t.audio.stage.Polling? && t.audio.retained && InFlight(t) == InFlight(s) - 1
  {
    assert !Can(s, PlayPcm);
    var s1 := Next(s, TakeFrame(AudioTrack));
    var s2 := Next(s1, DeliverFrame(AudioTrack));
    StepKeepsInv(s, TakeFrame(AudioTrack));
    StepsWork(s, TakeFrame(AudioTrack));
    StepKeepsInv(s1, DeliverFrame(AudioTrack));
    StepsWork(s1, DeliverFrame(AudioTrack));
    StepKeepsInv(s2, PopFrame(AudioTrack));
    StepsWork(s2, PopFrame(AudioTrack));
  }

  lemma TakeStaysLazy(s: Player, z: nat, v: nat)
    requires Inv(s) && Blocked(s.input, z, v) && Lazy(s, z, v)
    requires OnlyAudioIsLeft(s) && Can(s, TakeFrame(AudioTrack))
    ensures Lazy(TakeAudio(s), z, v)
  {
    AllVideoShown(s);
    if s.read >= z {
      GateStaysClosed(s, z, v);
    }
    DemuxerIsBlocked(s);
    TakesOne(s);
  }

  lemma LazyIsUnplayed(s: Player, z: nat, v: nat)
    requires Inv(s) && Blocked(s.input, z, v) && Lazy(s, z, v)
    ensures !AllPlayed(s)
  {
    InFlightIsUnheard(s);
    OnlyGrows(AudioTrack, s.input, s.read, |s.input|);
    OnlyGrows(AudioTrack, s.input, v, |s.input|);
    assert s.input[..|s.input|] == s.input;
  }

  /** In a file that blocks, taking audio only when nothing else can step leads to a stuck state with audio
      unheard. */
  lemma {:induction false} LazyGetsStuck(s: Player, z: nat, v: nat) returns (steps: seq<Step>)
    requires Inv(s) && Blocked(s.input, z, v) && Lazy(s, z, v)
    ensures Stuck(Run(s, steps)) && !AllPlayed(Run(s, steps))
    decreases Work(s)
  {
    WorkIsBounded(s);
    if Stuck(s) {
      LazyIsUnplayed(s, z, v);
      steps := [];
    } else if e :| Can(s, e) && e != TakeFrame(AudioTrack) {
      StepsWork(s, e);
      StepKeepsInv(s, e);
      StepStaysLazy(s, e, z, v);
      var rest := LazyGetsStuck(Next(s, e), z, v);
      steps := [e] + rest;
      assert steps[1..] == rest;
    } else {
      TakesOne(s);
      TakeStaysLazy(s, z, v);
      var rest := LazyGetsStuck(TakeAudio(s), z, v);
      steps := TAKE + rest;
      RunThree(s, TakeFrame(AudioTrack), DeliverFrame(AudioTrack), PopFrame(AudioTrack));
      RunSplits(s, TAKE, rest);
    }
  }

  lemma RunThree(s: Player, a: Step, b: Step, c: Step)
    ensures Run(s, [a, b, c]) == Next(Next(Next(s, a), b), c)
  {
    assert [a, b, c][1..] == [b, c] && [b, c][1..] == [c] && [c][1..] == [];
    assert Run(Next(Next(s, a), b), [c]) == Next(Next(Next(s, a), b), c);
    assert Run(Next(s, a), [b, c]) == Run(Next(Next(s, a), b), [c]);
  }

  /** A file with a position from which it does not fit has a run that blocks. */
  lemma BlockedFileBlocks(input: seq<Packet>, z: nat) returns (steps: seq<Step>)
    requires z <= |input| && ClosesAt(input, z) && !Fits(input, z)
    ensures Stuck(Run(Start(input), steps)) && !AllPlayed(Run(Start(input), steps))
  {
    StartInv(input);
    steps := LazyGetsStuck(Start(input), z, NextOpening(input, z));
  }

  /** Every reachable state with unplayed packets has a step other than polling, exactly for the files that
      never block. */
  lemma DeadlockFreeIff(input: seq<Packet>)
    ensures (forall steps :: Stuck(Run(Start(input), steps)) ==> AllPlayed(Run(Start(input), steps)))
            <==> NeverBlocks(input)
  {
    if NeverBlocks(input) {
      StartInv(input);
      forall steps | Stuck(Run(Start(input), steps))
        ensures AllPlayed(Run(Start(input), steps))
      {
        RunKeepsInv(Start(input), steps);
        NeverStuck(Run(Start(input), steps));
      }
    } else {
      var z: nat :| z <= |input| && ClosesAt(input, z) && !Fits(input, z);
      var steps := BlockedFileBlocks(input, z);
    }
  }

  // ---------------------------------------------------------------------------------------------
  // Files that keep the gate open, and files that do not
  // ---------------------------------------------------------------------------------------------

  /** Before the first opening packet every position has that one as its next. */
  lemma {:induction false} SameOpening(packets: seq<Packet>, z: nat)
    requires z <= FirstOpening(packets)
    ensures NextOpening(packets, z) == FirstOpening(packets)
  {
    var v, f := NextOpening(packets, z), FirstOpening(packets);
    assert v < |packets| ==> v >= f;
    assert f < |packets| ==> f >= v;
  }

  /** Video packet `g` of the file comes right after the video packets before it. */
  lemma VideoPosition(input: seq<Packet>, g: nat) returns (j: nat)
    requires g < |input| && input[g].Video?
    ensures j == |Only(VideoTrack, input[..g])| && |Only(VideoTrack, input[..g + 1])| == j + 1
    ensures var v := Only(VideoTrack, input); j < |v| && v[j] == input[g]
  {
    j := |Only(VideoTrack, input[..g])|;
    EndsWith(input, g + 1);
    OnlyGrows(VideoTrack, input, g + 1, |input|);
    assert input[..|input|] == input;
  }

  /** Two video packets of the file are found in the same order among its video packets. */
  lemma VideoPositions(input: seq<Packet>, f: nat, g: nat) returns (i: nat, j: nat)
    requires f < g < |input| && input[f].Video? && input[g].Video?
    ensures var v := Only(VideoTrack, input); i < j < |v| && v[i] == input[f] && v[j] == input[g]
  {
    i := VideoPosition(input, f);
    j := VideoPosition(input, g);
    OnlyGrows(VideoTrack, input, f + 1, g);
  }

  /** Pts zero after an opening packet would close the gate again. */
  lemma ClosesBeforeOpening(input: seq<Packet>, z: nat)
    requires NeverRecloses(input) && z <= |input| && ClosesAt(input, z)
    ensures z <= FirstOpening(input)
  {
    var f := FirstOpening(input);
    if f < z - 1 {
      var i, j := VideoPositions(input, f, z - 1);
      assert false;
    }
  }

  /** For files that never close the gate again, never to block is to have the audio before the first opening
      packet fit into the backlog. */
  lemma NeverBlocksIffPlayable(input: seq<Packet>)
    requires NeverRecloses(input)
    ensures NeverBlocks(input) <==> Playable(input)
  {
    var f := FirstOpening(input);
    assert input[0..f] == input[..f] && input[..|input|] == input;
    if Playable(input) {
      forall z: nat | z <= |input| && ClosesAt(input, z) ensures Fits(input, z) {
        ClosesBeforeOpening(input, z);
        SameOpening(input, z);
      }
    } else {
      assert ClosesAt(input, 0) && !Fits(input, 0);
    }
  }

  /** A playable file that never closes the gate again is never stuck before everything is played. */
  lemma PlayableNeverStuck(s: Player)
    requires Inv(s) && Stuck(s) && Playable(s.input) && NeverRecloses(s.input)
    ensures AllPlayed(s)
  {
    NeverBlocksIffPlayable(s.input);
    NeverStuck(s);
  }

  // ---------------------------------------------------------------------------------------------
  // Files that no schedule plays
  // ---------------------------------------------------------------------------------------------

  /** The demuxer gets past the first opening packet only with the audio before it in the backlog. */
  predicate LeadFits(s: Player) {
    s.read > FirstOpening(s.input) ==> AudioLead(s.input) <= BACKLOG
  }

  /** What was shown was read: before the first opening packet is read, the gate never was open. */
  lemma ShownBeforeOpening(s: Player)
    requires Inv(s) && s.read <= FirstOpening(s.input)
    ensures !EverOpened(s)
  {
    var v := Only(VideoTrack, s.input[..s.read]);
    forall i | 0 <= i < |s.shown| ensures IsZero(s.shown[i]) {
      assert v[i] == s.shown[i];
      var j := FromInput(s.input, s.read, v[i]);
    }
  }

  lemma {:induction false} FromInput(packets: seq<Packet>, n: nat, p: Packet) returns (j: nat)
    requires n <= |packets| && p in Only(VideoTrack, packets[..n])
    ensures j < n && packets[j] == p && p.Video?
    decreases n
  {
    assert packets[..n][..n - 1] == packets[..n - 1];
    if p in Only(VideoTrack, packets[..n - 1]) {
      j := FromInput(packets, n - 1, p);
    } else {
      j := n - 1;
    }
  }

  lemma StepKeepsLead(s: Player, e: Step)
    requires Inv(s) && LeadFits(s)
    ensures LeadFits(Next(s, e))
  {
    if e.ReadPacket? && Can(s, e) && s.read == FirstOpening(s.input) {
      ShownBeforeOpening(s);
      WaitingFits(s.audio);
      assert Only(AudioTrack, s.input[..s.read]) == s.audio.Waiting();
    }
  }

  lemma WaitingFits(t: Track)
    requires TrackOk(t)
    ensures |t.Waiting()| <= BACKLOG
  {}

  lemma {:induction false} RunKeepsLead(s: Player, steps: seq<Step>)
    requires Inv(s) && LeadFits(s)
    ensures LeadFits(Run(s, steps))
    decreases steps
  {
    if steps != [] {
      StepKeepsInv(s, steps[0]);
      StepKeepsLead(s, steps[0]);
      RunKeepsLead(Next(s, steps[0]), steps[1..]);
    }
  }

  lemma WithoutAudio(input: seq<Packet>)
    ensures Only(AudioTrack, input) == [] ==> Playable(input)
  {
    OnlyGrows(AudioTrack, input, FirstOpening(input), |input|);
    assert input[..|input|] == input;
  }

  /** A state that has played everything has read the first opening packet, if there is any audio. */
  lemma PlayedPastOpening(s: Player)
    requires Inv(s) && AllPlayed(s) && !Playable(s.input)
    ensures s.read > FirstOpening(s.input)
  {
    var f := FirstOpening(s.input);
    if s.read <= f {
      ShownBeforeOpening(s);
      WithoutAudio(s.input);
    }
  }

  /** With more audio before the first opening packet than the backlog takes, or audio and no such packet, no run
      plays everything: whatever the schedule, the player gets stuck. */
  lemma UnplayableNeverPlays(input: seq<Packet>, steps: seq<Step>)
    requires !Playable(input)
    ensures !AllPlayed(Run(Start(input), steps))
  {
    StartInv(input);
    RunKeepsInv(Start(input), steps);
    RunKeepsLead(Start(input), steps);
    var s := Run(Start(input), steps);
    if AllPlayed(s) {
      PlayedPastOpening(s);
    }
  }

  /** If the gate never closes again, some run plays everything exactly if every maximal one does. */
  lemma SomeRunPlaysIff(input: seq<Packet>)
    requires NeverRecloses(input)
    ensures (exists steps :: AllPlayed(Run(Start(input), steps))) <==> NeverBlocks(input)
  {
    NeverBlocksIffPlayable(input);
    if NeverBlocks(input) {
      var more := PlaysToTheEnd(input, []);
      assert [] + more == more;
      assert exists steps :: AllPlayed(Run(Start(input), steps));
    } else {
      forall steps ensures !AllPlayed(Run(Start(input), steps)) {
        UnplayableNeverPlays(input, steps);
      }
    }
  }

  /** Strictly increasing timestamps, starting below zero or not. */
  predicate StrictlyIncreasing(input: seq<Packet>) {
    var v := Only(VideoTrack, input);
    && (forall i :: 0 <= i < |v| ==> !v[i].Other? && v[i].pts.Num?)
    && (forall i, j :: 0 <= i < j < |v| ==> v[i].pts.r < v[j].pts.r)
  }

  function Reclosing(early: real, late: Double, audio: seq<Packet>): seq<Packet> {
    [Video(Num(early)), Video(Num(0.0))] + audio + [Video(late)]
  }

  /** A video frame with pts zero after one with another pts closes the gate again, and then any audio beyond the
      backlog blocks the player, although the audio before the first opening packet fits. */
  lemma ReclosingBlocks(early: real, late: Double, audio: seq<Packet>) returns (steps: seq<Step>)
    requires early != 0.0 && |audio| > BACKLOG && forall i :: 0 <= i < |audio| ==> audio[i].Audio?
    ensures var input := Reclosing(early, late, audio);
            && Playable(input)
            && Stuck(Run(Start(input), steps)) && !AllPlayed(Run(Start(input), steps))
  {
    var input := Reclosing(early, late, audio);
    ReclosingDoesNotFit(early, late, audio);
    steps := BlockedFileBlocks(input, 2);
  }

  /** Without the last packet, which is all that can open the gate from position 2 on, it is mostly audio. */
  lemma ReclosingAudio(early: real, late: Double, audio: seq<Packet>)
    requires forall i :: 0 <= i < |audio| ==> audio[i].Audio?
    ensures var input, n := Reclosing(early, late, audio), |audio| + 2;
            && NextOpening(input, 2) >= n
            && Only(AudioTrack, input[2..n]) == audio
            && |Only(AudioTrack, input[..n])| >= |audio|
  {
    var input, n := Reclosing(early, late, audio), |audio| + 2;
    assert input[2..n] == audio;
    assert input[..n] == input[..2] + audio;
    AllAudio(audio);
    OnlySplits(input[..2], audio);
  }

  lemma ReclosingDoesNotFit(early: real, late: Double, audio: seq<Packet>)
    requires |audio| > BACKLOG && forall i :: 0 <= i < |audio| ==> audio[i].Audio?
    ensures !Fits(Reclosing(early, late, audio), 2)
  {
    var input, n := Reclosing(early, late, audio), |audio| + 2;
    ReclosingAudio(early, late, audio);
    OnlyGrows(AudioTrack, input, n, n + 1);
    assert input[..n + 1] == input;
  }

  lemma TwoVideos(a: Packet, b: Packet)
    requires a.Video? && b.Video?
    ensures Only(VideoTrack, [a, b]) == [a, b]
  {
    assert [a, b][..1] == [a] && [a][..0] == [];
    assert Only(VideoTrack, [a]) == [a];
  }

  lemma ReclosingVideos(early: real, late: Double, audio: seq<Packet>)
    requires forall i :: 0 <= i < |audio| ==> audio[i].Audio?
    ensures Only(VideoTrack, Reclosing(early, late, audio)) == [Video(Num(early)), Video(Num(0.0)), Video(late)]
  {
    var input, n := Reclosing(early, late, audio), |audio| + 2;
    OnlySkips(VideoTrack, input, 2, n);
    assert input[..2] == [Video(Num(early)), Video(Num(0.0))];
    TwoVideos(input[0], input[1]);
    EndsWith(input, n + 1);
    assert input[..n + 1] == input;
  }

  /** Strictly increasing timestamps are not enough: these files have them. */
  lemma ReclosingIncreases(early: real, late: real, audio: seq<Packet>)
    requires early < 0.0 < late && forall i :: 0 <= i < |audio| ==> audio[i].Audio?
    ensures StrictlyIncreasing(Reclosing(early, Num(late), audio))
  {
    ReclosingVideos(early, Num(late), audio);
  }

  lemma {:induction false} AllAudio(audio: seq<Packet>)
    requires forall i :: 0 <= i < |audio| ==> audio[i].Audio?
    ensures Only(AudioTrack, audio) == audio
  {
    if audio != [] {
      AllAudio(audio[..|audio| - 1]);
    }
  }

  lemma {:induction false} OnlySplits(a: seq<Packet>, b: seq<Packet>)
    ensures Only(AudioTrack, a + b) == Only(AudioTrack, a) + Only(AudioTrack, b)
    decreases b
  {
    if b == [] {
      assert a + b == a;
    } else {
      assert (a + b)[..|a + b| - 1] == a + b[..|b| - 1];
      OnlySplits(a, b[..|b| - 1]);
    }
  }
}
