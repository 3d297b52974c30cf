/** How much each buffer of the player holds, in numbers, and what that makes of the conditions of PipelineTheorems. */
module PipelineCapacities {
  import opened Doubles
  import opened Options
  import opened Pipeline
  import opened PipelineTheorems
  import B = BoundedQueue
  import M = PipelineRefinement
  import Q = QueueTheorems
  import R = FrameRing

  // ---------------------------------------------------------------------------------------------
  // The buffers
  // ---------------------------------------------------------------------------------------------

  /** A decoder's queue takes 100 packets that nobody takes out, each push returning, and lets the next push wait. */
  lemma HundredPacketsFit(unused: Double, order: M.T.Order, packets: seq<Packet>, p: Packet)
    requires |packets| == 100
    ensures var q := B.Run(M.NewLine(unused, order).queue, Q.PushCalls(M.DEMUXER, packets));
            && M.Values(q.contents) == packets && q.At(M.DEMUXER).Idle?
            && |q.log| == 100 && forall i :: 0 <= i < 100 ==> q.log[i].Pushed? && q.log[i].item.value == packets[i]
    ensures var q := B.Run(M.NewLine(unused, order).queue,
                           Q.PushCalls(M.DEMUXER, packets) + Q.PushCall(M.DEMUXER, p));
            q.At(M.DEMUXER) == B.PushWaiting(p)
  {
    Q.PushesFill(100, M.DEMUXER, packets);
    Q.FullQueueMakesWait(100, M.DEMUXER, packets, p);
  }

  /** A decoder's ring has ten slots. */
  lemma TenFramesFit(unused: Double, order: M.T.Order, frames: seq<R.XData>)
    ensures var q := M.NewLine(unused, order).ring.ring;
            && R.Valid(q) && q.maxSize == |q.slots| == 10 && q.keepLast
            && R.Pending(R.ApplyAll(q, R.Pushes(frames))) == R.Fitting(frames, 10)
  {
    R.StartedHolds(R.FRAME_QUEUE_SIZE, true, unused, frames);
  }

  /** The audio device's list never has more than 101 frames; with as many, no further one is delivered. */
  lemma DeviceHoldsAtMost101(input: seq<Packet>, steps: seq<Step>)
    ensures var s := Run(Start(input), steps);
            |s.pcm| <= 101 && (|s.pcm| == 101 ==> !Can(s, DeliverFrame(AudioTrack)))
  {
    StartInv(input);
    RunKeepsInv(Start(input), steps);
  }

  const PICTURE := Video(Num(1.0))

  /** The picture is on the screen, and the first `n` packets after it were delivered to the audio device. */
  function Delivered(audio: seq<Packet>, n: nat): Player
    requires n <= |audio|
  {
    Player([PICTURE] + audio, n + 1, None, IDLE.(retained := n > 0),
           Track([], None, [PICTURE], false, Popping), audio[..n], [], [PICTURE])
  }

  /** The next packet got from the file to the decoder. */
  function Fetched(audio: seq<Packet>, n: nat): Player
    requires n < |audio|
  {
    Delivered(audio, n).(read := n + 2, audio := IDLE.(retained := n > 0, hand := Some(audio[n])))
  }

  const FETCH := [ReadPacket, PushPacket, PopPacket(AudioTrack)]

  lemma Fetches(audio: seq<Packet>, n: nat)
    requires n < |audio| && audio[n].Audio?
    ensures Run(Delivered(audio, n), FETCH) == Fetched(audio, n)
  {
    RunThree(Delivered(audio, n), ReadPacket, PushPacket, PopPacket(AudioTrack));
  }

  /** A frame with room in the device's list gets there. */
  lemma Delivers(audio: seq<Packet>, n: nat)
    requires n < |audio| && n <= 100
    ensures Run(Fetched(audio, n), [PushFrame(AudioTrack)] + TAKE) == Delivered(audio, n + 1)
  {
    var s, steps := Fetched(audio, n), [PushFrame(AudioTrack)] + TAKE;
    assert steps[1..] == TAKE;
    RunThree(Next(s, PushFrame(AudioTrack)), TakeFrame(AudioTrack), DeliverFrame(AudioTrack), PopFrame(AudioTrack));
    assert audio[..n + 1] == audio[..n] + [audio[n]];
  }

  lemma PictureFirst(audio: seq<Packet>) returns (steps: seq<Step>)
    ensures Run(Start([PICTURE] + audio), steps) == Delivered(audio, 0)
  {
    var s0 := Start([PICTURE] + audio);
    var s1 := s0.(read := 1, video := IDLE.(hand := Some(PICTURE)));
    var first := [ReadPacket, PushPacket, PopPacket(VideoTrack)];
    var second := [PushFrame(VideoTrack), TakeFrame(VideoTrack), DeliverFrame(VideoTrack)];
    RunThree(s0, ReadPacket, PushPacket, PopPacket(VideoTrack));
    assert Run(s0, first) == s1;
    RunThree(s1, PushFrame(VideoTrack), TakeFrame(VideoTrack), DeliverFrame(VideoTrack));
    assert Run(s1, second) == Delivered(audio, 0);
    RunSplits(s0, first, second);
    steps := first + second;
  }

  /** And it takes that many: whatever audio follows a first picture, a run delivers 101 frames of it without any
      being played. */
  lemma {:induction false} DeviceTakes101(audio: seq<Packet>, n: nat) returns (steps: seq<Step>)
    requires n <= |audio| && n <= 101 && forall i :: 0 <= i < |audio| ==> audio[i].Audio?
    ensures var s := Run(Start([PICTURE] + audio), steps); s == Delivered(audio, n) && |s.pcm| == n && s.heard == []
    decreases n
  {
    if n == 0 {
      steps := PictureFirst(audio);
    } else {
      var before := DeviceTakes101(audio, n - 1);
      Fetches(audio, n - 1);
      Delivers(audio, n - 1);
      var more := FETCH + ([PushFrame(AudioTrack)] + TAKE);
      RunSplits(Delivered(audio, n - 1), FETCH, [PushFrame(AudioTrack)] + TAKE);
      RunSplits(Start([PICTURE] + audio), before, more);
      steps := before + more;
    }
  }

  // ---------------------------------------------------------------------------------------------
  // The conditions in numbers
  // ---------------------------------------------------------------------------------------------

  /** The positions of the audio packets before position `n`. */
  function AudioBefore(input: seq<Packet>, n: nat): set<nat>
    requires n <= |input|
  {
    set i: nat | i < n && input[i].Audio?
  }

  /** Only keeps exactly the audio packets. */
  lemma {:induction false} OnlyCountsAudio(input: seq<Packet>, n: nat)
    requires n <= |input|
    ensures |Only(AudioTrack, input[..n])| == |AudioBefore(input, n)|
    decreases n
  {
    if n == 0 {
      assert AudioBefore(input, n) == {};
    } else {
      OnlyCountsAudio(input, n - 1);
      assert input[..n][..n - 1] == input[..n - 1];
      var before := AudioBefore(input, n - 1);
      assert AudioBefore(input, n) == if input[n - 1].Audio? then before + {n - 1} else before;
    }
  }

  /** At most 111 audio packets come before the next video packet with a nonzero pts from position `z` on, or all of
      those come before `z` too; without such a video packet the file has no audio. */
  predicate FitsIn111(input: seq<Packet>, z: nat)
    requires z <= |input|
  {
    var v := NextOpening(input, z);
    if v == |input| then AudioBefore(input, |input|) == {}
    else |AudioBefore(input, v)| <= 111 || AudioBefore(input, v) == AudioBefore(input, z)
  }

  /** For every file: the player never blocks if and only if that holds of the start and of every position after a
      video packet with pts zero. */
  lemma NeverBlocksInNumbers(input: seq<Packet>)
    ensures (forall steps :: Stuck(Run(Start(input), steps)) ==> AllPlayed(Run(Start(input), steps)))
            <==> forall z: nat :: z <= |input| && (z == 0 || input[z - 1] == Video(Num(0.0))) ==> FitsIn111(input, z)
  {
    DeadlockFreeIff(input);
    ClosedInNumbers(input);
    if forall z: nat :: z <= |input| && (z == 0 || input[z - 1] == Video(Num(0.0))) ==> FitsIn111(input, z) {
      forall z: nat | z <= |input| && ClosesAt(input, z) ensures Fits(input, z) {
        FitsInNumbers(input, z);
      }
    } else {
      var z: nat :| z <= |input| && (z == 0 || input[z - 1] == Video(Num(0.0))) && !FitsIn111(input, z);
      FitsInNumbers(input, z);
      assert ClosesAt(input, z) && !Fits(input, z);
    }
  }

  lemma ClosedInNumbers(input: seq<Packet>)
    ensures forall z: nat :: z <= |input| ==> (ClosesAt(input, z) <==> z == 0 || input[z - 1] == Video(Num(0.0)))
  {}

  lemma FitsInNumbers(input: seq<Packet>, z: nat)
    requires z <= |input|
    ensures Fits(input, z) <==> FitsIn111(input, z)
  {
    var v := NextOpening(input, z);
    OnlyCountsAudio(input, |input|);
    assert input[..|input|] == input;
    OnlyCountsAudio(input, v);
    NoAudioBetween(input, z, v);
  }

  lemma {:induction false} NoAudioBetween(input: seq<Packet>, z: nat, v: nat)
    requires z <= v <= |input|
    ensures Only(AudioTrack, input[z..v]) == [] <==> AudioBefore(input, v) == AudioBefore(input, z)
    decreases v
  {
    if z < v {
      NoAudioBetween(input, z, v - 1);
      assert input[z..v][..v - 1 - z] == input[z..v - 1];
      if input[v - 1].Audio? {
        assert v - 1 in AudioBefore(input, v) && v - 1 !in AudioBefore(input, z);
      } else {
        assert AudioBefore(input, v) == AudioBefore(input, v - 1);
      }
      assert Only(AudioTrack, input[z..v]) == []
             <==> Only(AudioTrack, input[z..v - 1]) == [] && !input[v - 1].Audio?;
    }
  }

  /** For a file whose gate never closes again: the player never blocks if and only if at most 111 audio packets come
      before the first video packet with a nonzero pts; without such a packet, if there is no audio. */
  lemma PlayableInNumbers(input: seq<Packet>)
    requires NeverRecloses(input)
    ensures (forall steps :: Stuck(Run(Start(input), steps)) ==> AllPlayed(Run(Start(input), steps)))
            <==> var f := FirstOpening(input);
                 |AudioBefore(input, f)| <= 111 && (f < |input| || AudioBefore(input, |input|) == {})
  {
    DeadlockFreeIff(input);
    NeverBlocksIffPlayable(input);
    OnlyCountsAudio(input, FirstOpening(input));
  }

  /** No run plays a file with 112 audio packets before the first video packet with a nonzero pts. */
  lemma TooMuchAudioNeverPlays(input: seq<Packet>, steps: seq<Step>)
    requires |AudioBefore(input, FirstOpening(input))| >= 112
    ensures !AllPlayed(Run(Start(input), steps))
  {
    OnlyCountsAudio(input, FirstOpening(input));
    UnplayableNeverPlays(input, steps);
  }
}
