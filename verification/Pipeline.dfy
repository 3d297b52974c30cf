/** The whole player as a step system: the demuxer reads packets and routes them to two bounded queues, each
    decoder turns packets into frames in its ring, the sync threads take frames out, and the audio device
    plays what the audio thread delivers. Audio frames are taken only while the last video frame shown has a
    nonzero pts. Here a packet decodes to one frame, nothing is paused or stopped, and drawing completes. */
module Pipeline {
  import opened Doubles
  import opened Options
  import FrameRing

  datatype Packet = Audio(pts: Double) | Video(pts: Double) | Other

  datatype Kind = AudioTrack | VideoTrack

  /** Capacity of a decoder's packet queue and of its frame ring. */
  const PACKETS: nat := 100
  const FRAMES: nat := FrameRing.FRAME_QUEUE_SIZE
  /** The audio device's list takes another frame while it has at most this many. */
  const MAX_FRAME_BUFFER: nat := 100

  /** Where a sync thread is with the frame it found. */
  datatype Stage = Polling | Delivering | Popping

  /** One decoder with its queue and ring, and the sync thread that empties the ring. */
  datatype Track = Track(
    packets: seq<Packet>,
    hand: Option<Packet>,   // taken by the decoder, not in the ring yet
    frames: seq<Packet>,    // in the ring and not popped
    retained: bool,         // the ring also keeps the frame popped last
    stage: Stage)
  {
    function Size(): nat {
      |frames| + if retained then 1 else 0
    }

    /** The track's packets that were not delivered yet, oldest first. */
    function Waiting(): seq<Packet> {
      (if stage.Popping? && frames != [] then frames[1..] else frames)
      + (if hand.Some? then [hand.value] else [])
      + packets
    }
  }

  datatype Player = Player(
    input: seq<Packet>,
    read: nat,              // packets the demuxer has read
    hand: Option<Packet>,   // the one it is pushing
    audio: Track,
    video: Track,
    pcm: seq<Packet>,
    heard: seq<Packet>,
    shown: seq<Packet>)
  {
    function At(k: Kind): Track {
      if k.AudioTrack? then audio else video
    }

    function With(k: Kind, t: Track): Player {
      if k.AudioTrack? then this.(audio := t) else this.(video := t)
    }

    /** Tests lastFramePts == 0, which is how the field starts. */
    predicate GateOpen() {
      shown != [] && !IsZero(shown[|shown| - 1])
    }
  }

  predicate IsZero(p: Packet) {
    !p.Other? && p.pts == Num(0.0)
  }

  predicate Opens(p: Packet) {
    p.Video? && !IsZero(p)
  }

  /** The steps of the threads other than sleeping and polling again. */
  datatype Step =
    | ReadPacket
    | PushPacket
    | PopPacket(k: Kind)
    | PushFrame(k: Kind)
    | TakeFrame(k: Kind)
    | DeliverFrame(k: Kind)
    | PopFrame(k: Kind)
    | PlayPcm

  function KindOf(p: Packet): Kind {
    if p.Audio? then AudioTrack else VideoTrack
  }

  predicate Can(s: Player, e: Step) {
    match e
    case ReadPacket => s.hand.None? && s.read < |s.input|
    case PushPacket => s.hand.Some? && |s.At(KindOf(s.hand.value)).packets| < PACKETS
    case PopPacket(k) => s.At(k).hand.None? && s.At(k).packets != []
    case PushFrame(k) => s.At(k).hand.Some? && s.At(k).Size() < FRAMES
    case TakeFrame(k) => s.At(k).stage.Polling? && s.At(k).frames != [] && (k.AudioTrack? ==> s.GateOpen())
    case DeliverFrame(k) =>
      s.At(k).stage.Delivering? && s.At(k).frames != [] && (k.AudioTrack? ==> |s.pcm| <= MAX_FRAME_BUFFER)
    case PopFrame(k) => s.At(k).stage.Popping? && s.At(k).frames != []
    case PlayPcm => s.pcm != []
  }

  function Do(s: Player, e: Step): Player
    requires Can(s, e)
  {
    match e
    case ReadPacket =>
      var p := s.input[s.read];
      s.(read := s.read + 1, hand := if p.Other? then None else Some(p))
    case PushPacket =>
      var k := KindOf(s.hand.value);
      s.With(k, s.At(k).(packets := s.At(k).packets + [s.hand.value])).(hand := None)
    case PopPacket(k) =>
      s.With(k, s.At(k).(hand := Some(s.At(k).packets[0]), packets := s.At(k).packets[1..]))
    case PushFrame(k) =>
      s.With(k, s.At(k).(frames := s.At(k).frames + [s.At(k).hand.value], hand := None))
    case TakeFrame(k) => s.With(k, s.At(k).(stage := Delivering))
    case DeliverFrame(k) =>
      var s' := s.With(k, s.At(k).(stage := Popping));
      if k.AudioTrack? then s'.(pcm := s.pcm + [s.audio.frames[0]]) else s'.(shown := s.shown + [s.video.frames[0]])
    case PopFrame(k) =>
      s.With(k, s.At(k).(stage := Polling, frames := s.At(k).frames[1..], retained := true))
    case PlayPcm => s.(heard := s.heard + [s.pcm[0]], pcm := s.pcm[1..])
  }

  function Next(s: Player, e: Step): Player {
    if Can(s, e) then Do(s, e) else s
  }

  function Run(s: Player, steps: seq<Step>): Player
    decreases steps
  {
    if steps == [] then s else Run(Next(s, steps[0]), steps[1..])
  }

  const IDLE := Track([], None, [], false, Polling)

  function Start(input: seq<Packet>): Player {
    Player(input, 0, None, IDLE, IDLE, [], [], [])
  }

  /** The packets of one kind. */
  function Only(k: Kind, packets: seq<Packet>): seq<Packet> {
    if packets == [] then []
    else Only(k, packets[..|packets| - 1])
         + (var p := packets[|packets| - 1]; if !p.Other? && KindOf(p) == k then [p] else [])
  }

  predicate AllPlayed(s: Player) {
    s.heard == Only(AudioTrack, s.input) && s.shown == Only(VideoTrack, s.input)
  }

  ghost predicate Stuck(s: Player) {
    forall e: Step :: !Can(s, e)
  }

  // ---------------------------------------------------------------------------------------------
  // The invariant
  // ---------------------------------------------------------------------------------------------

  predicate TrackOk(t: Track) {
    && |t.packets| <= PACKETS && t.Size() <= FRAMES
    && (!t.stage.Polling? ==> t.frames != [])
  }

  /** What the demuxer is pushing, if it is of kind `k`. */
  function Pushing(s: Player, k: Kind): seq<Packet> {
    if s.hand.Some? && KindOf(s.hand.value) == k then [s.hand.value] else []
  }

  /** No packet is lost, doubled or overtaken: what was read of each kind is, in order, what was played,
      what the audio device holds, what waits in the track, and what the demuxer is pushing. */
  predicate Conserved(s: Player) {
    && s.read <= |s.input|
    && (s.hand.Some? ==> !s.hand.value.Other? && s.read > 0 && s.hand.value == s.input[s.read - 1])
    && Only(AudioTrack, s.input[..s.read]) == s.heard + s.pcm + s.audio.Waiting() + Pushing(s, AudioTrack)
    && Only(VideoTrack, s.input[..s.read]) == s.shown + s.video.Waiting() + Pushing(s, VideoTrack)
  }

  predicate EverOpened(s: Player) {
    exists i :: 0 <= i < |s.shown| && !IsZero(s.shown[i])
  }

  predicate Untouched(s: Player) {
    s.heard == [] && s.pcm == [] && s.audio.stage.Polling? && !s.audio.retained
  }

  /** A frame popped, or about to be, has been handed to the audio device. */
  predicate HandedOver(s: Player) {
    s.audio.retained || s.audio.stage.Popping? ==> s.heard + s.pcm != []
  }

  predicate Inv(s: Player) {
    && TrackOk(s.audio) && TrackOk(s.video) && |s.pcm| <= MAX_FRAME_BUFFER + 1
    && Conserved(s) && HandedOver(s)
    && (!EverOpened(s) ==> Untouched(s))
  }

  lemma ReadKeepsInv(s: Player)
    requires Inv(s) && Can(s, ReadPacket)
    ensures Inv(Do(s, ReadPacket))
  {
    assert s.input[..s.read + 1][..s.read] == s.input[..s.read];
  }

  lemma PushOnTrack(t: Track, p: Packet)
    requires TrackOk(t) && |t.packets| < PACKETS
    ensures var t' := t.(packets := t.packets + [p]); TrackOk(t') && t'.Waiting() == t.Waiting() + [p]
  {}

  lemma PushKeepsInv(s: Player)
    requires Inv(s) && Can(s, PushPacket)
    ensures Inv(Do(s, PushPacket))
  {
    var p := s.hand.value;
    PushOnTrack(s.At(KindOf(p)), p);
    Passes(s.heard + s.pcm, s.audio.Waiting(), p);
    Passes(s.shown, s.video.Waiting(), p);
  }

  lemma Passes<T>(before: seq<T>, waiting: seq<T>, x: T)
    ensures before + waiting + [x] == before + (waiting + [x]) + []
  {}

  lemma HandsOver<T>(heard: seq<T>, pcm: seq<T>, x: T, waiting: seq<T>, pushing: seq<T>)
    ensures heard + pcm + ([x] + waiting) + pushing == heard + (pcm + [x]) + waiting + pushing
  {}

  lemma DecodeOnTrack(t: Track)
    requires TrackOk(t)
    ensures t.hand.None? && t.packets != [] ==>
              var t' := t.(hand := Some(t.packets[0]), packets := t.packets[1..]);
              TrackOk(t') && t'.Waiting() == t.Waiting()
    ensures t.hand.Some? && t.Size() < FRAMES ==>
              var t' := t.(frames := t.frames + [t.hand.value], hand := None);
              TrackOk(t') && t'.Waiting() == t.Waiting()
  {
    if t.hand.None? && t.packets != [] {
      assert t.packets == [t.packets[0]] + t.packets[1..];
    }
  }

  lemma DeliverOnTrack(t: Track)
    requires TrackOk(t) && t.frames != []
    ensures t.stage.Polling? ==>
              var t' := t.(stage := Delivering); TrackOk(t') && t'.Waiting() == t.Waiting()
    ensures t.stage.Delivering? ==>
              var t' := t.(stage := Popping); TrackOk(t') && t.Waiting() == [t.frames[0]] + t'.Waiting()
    ensures t.stage.Popping? ==>
              var t' := t.(stage := Polling, frames := t.frames[1..], retained := true);
              TrackOk(t') && t'.Waiting() == t.Waiting()
  {
    assert t.frames == [t.frames[0]] + t.frames[1..];
  }

  /** A track that keeps what waits in it, and touches the audio track only after the gate opened. */
  lemma TrackStepKeepsInv(s: Player, k: Kind, t: Track)
    requires Inv(s) && TrackOk(t) && t.Waiting() == s.At(k).Waiting()
    requires k.AudioTrack? && !EverOpened(s) ==> t.stage.Polling? && !t.retained
    requires k.AudioTrack? && (t.retained || t.stage.Popping?) ==> s.heard + s.pcm != []
    ensures Inv(s.With(k, t))
  {}

  lemma DecodeKeepsInv(s: Player, e: Step)
    requires Inv(s) && Can(s, e) && (e.PopPacket? || e.PushFrame?)
    ensures Inv(Do(s, e))
  {
    var t := s.At(e.k);
    DecodeOnTrack(t);
    TrackStepKeepsInv(s, e.k, if e.PopPacket? then t.(hand := Some(t.packets[0]), packets := t.packets[1..])
                              else t.(frames := t.frames + [t.hand.value], hand := None));
  }

  lemma MoveKeepsInv(s: Player, e: Step)
    requires Inv(s) && Can(s, e) && (e.TakeFrame? || e.PopFrame?)
    ensures Inv(Do(s, e))
  {
    var t := s.At(e.k);
    DeliverOnTrack(t);
    if e.TakeFrame? && e.k.AudioTrack? {
      assert !IsZero(s.shown[|s.shown| - 1]);
    }
    TrackStepKeepsInv(s, e.k, if e.TakeFrame? then t.(stage := Delivering)
                              else t.(stage := Polling, frames := t.frames[1..], retained := true));
  }

  lemma DeliverAudioKeepsInv(s: Player)
    requires Inv(s) && Can(s, DeliverFrame(AudioTrack))
    ensures Inv(Do(s, DeliverFrame(AudioTrack)))
  {
    DeliverOnTrack(s.audio);
    HandsOver(s.heard, s.pcm, s.audio.frames[0], s.audio.(stage := Popping).Waiting(), Pushing(s, AudioTrack));
  }

  lemma DeliverVideoKeepsInv(s: Player)
    requires Inv(s) && Can(s, DeliverFrame(VideoTrack))
    ensures Inv(Do(s, DeliverFrame(VideoTrack)))
  {
    DeliverOnTrack(s.video);
    if i :| 0 <= i < |s.shown| && !IsZero(s.shown[i]) {
      assert !IsZero(Do(s, DeliverFrame(VideoTrack)).shown[i]);
    }
  }

  lemma PlayKeepsInv(s: Player)
    requires Inv(s) && Can(s, PlayPcm)
    ensures Inv(Do(s, PlayPcm))
  {}

  lemma StepKeepsInv(s: Player, e: Step)
    requires Inv(s)
    ensures Inv(Next(s, e)) && Next(s, e).input == s.input
  {
    if Can(s, e) {
      match e
      case ReadPacket => ReadKeepsInv(s);
      case PushPacket => PushKeepsInv(s);
      case PopPacket(_) => DecodeKeepsInv(s, e);
      case PushFrame(_) => DecodeKeepsInv(s, e);
      case TakeFrame(_) => MoveKeepsInv(s, e);
      case DeliverFrame(k) => if k.AudioTrack? { DeliverAudioKeepsInv(s); } else { DeliverVideoKeepsInv(s); }
      case PopFrame(_) => MoveKeepsInv(s, e);
      case PlayPcm => PlayKeepsInv(s);
    }
  }

  lemma {:induction false} RunKeepsInv(s: Player, steps: seq<Step>)
    requires Inv(s)
    ensures Inv(Run(s, steps)) && Run(s, steps).input == s.input
    decreases steps
  {
    if steps != [] {
      StepKeepsInv(s, steps[0]);
      RunKeepsInv(Next(s, steps[0]), steps[1..]);
    }
  }

  lemma StartInv(input: seq<Packet>)
    ensures Inv(Start(input))
  {}

  /** No audio reaches the speaker before a picture with a nonzero pts was on the screen. */
  lemma AudioWaitsForVideo(input: seq<Packet>, steps: seq<Step>)
    ensures var s := Run(Start(input), steps);
            s.heard != [] ==> exists i :: 0 <= i < |s.shown| && !IsZero(s.shown[i])
  {
    StartInv(input);
    RunKeepsInv(Start(input), steps);
  }

  /** Packets reach the speaker and the screen in file order, none lost and none twice, in every run. */
  lemma PlaysInOrder(input: seq<Packet>, steps: seq<Step>)
    ensures var s := Run(Start(input), steps);
            && s.input == input && Conserved(s)
            && s.heard <= Only(AudioTrack, input[..s.read]) && s.shown <= Only(VideoTrack, input[..s.read])
  {
    StartInv(input);
    RunKeepsInv(Start(input), steps);
  }
}
