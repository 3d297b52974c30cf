/** The player's threads as methods over shared mutable state: the blocking queues, the frame rings and the audio
    device's list. Each method is what its thread does between two points at which another thread can act; it says
    whether the thread got on or has to wait. */
module PipelineObjects {
  import opened Doubles
  import opened Options
  import opened Pipeline
  import B = BoundedQueue
  import M = PipelineRefinement
  import PipelineTheorems
  import R = FrameRing
  import T = FrameRingThreads

  datatype UpdateResult = Ignored | WaitForRoom | Added
  datatype DataResult = WaitForData | Stopped | Data(frame: R.XData)

  /** The audio device's list of frames (audio/IAudioPlay.cpp). */
  class AudioPlay {
    var frames: seq<R.XData>
    var isExit: bool
    const maxFrameBuffer: nat

    constructor ()
      ensures frames == [] && !isExit && maxFrameBuffer == MAX_FRAME_BUFFER
    {
      frames, isExit, maxFrameBuffer := [], false, 100;
    }

    /** Empty data is ignored; a list longer than the buffer makes the caller wait. */
    method Update(data: R.XData) returns (r: UpdateResult)
      modifies this`frames
      ensures r == (if data.size <= 0 then Ignored else if old(|frames|) > maxFrameBuffer then WaitForRoom else Added)
      ensures frames == if r.Added? then old(frames) + [data] else old(frames)
    {
      if data.size <= 0 {
        return Ignored;
      }
      if |frames| > maxFrameBuffer {
        return WaitForRoom;
      }
      frames := frames + [data];
      return Added;
    }

    /** How update goes on after its wait: it does not test the length again. */
    method UpdateWoken(data: R.XData)
      modifies this`frames
      ensures frames == old(frames) + [data]
    {
      frames := frames + [data];
    }

    /** How getData goes on after its wait: it does not test for emptiness again, and needs that a frame came. */
    method GetDataWoken() returns (r: DataResult)
      requires isExit || frames != []
      modifies this`frames
      ensures isExit ==> r == Stopped && frames == old(frames)
      ensures !isExit ==> r.Data? && old(frames) == [r.frame] + frames
    {
      if isExit {
        return Stopped;
      }
      var d := frames[0];
      frames := frames[1..];
      return Data(d);
    }

    /** An empty list makes the caller wait, even when the device is stopped already. */
    method GetData() returns (r: DataResult)
      modifies this`frames
      ensures old(frames) == [] ==> r == WaitForData && frames == []
      ensures old(frames) != [] && isExit ==> r == Stopped && frames == old(frames)
      ensures old(frames) != [] && !isExit ==> r.Data? && old(frames) == [r.frame] + frames
    {
      if frames == [] {
        return WaitForData;
      }
      if isExit {
        return Stopped;
      }
      var d := frames[0];
      frames := frames[1..];
      return Data(d);
    }

    method Stop()
      modifies this`isExit
      ensures isExit
    {
      isExit := true;
    }
  }

  /** The next step of a decoder's thread that has a frame for the ring. */
  function DecoderEvent(p: T.Producer, x: R.XData): T.Event {
    match p
    case Decoding => T.Peek
    case Waiting => T.Peek
    case Woken => T.WakeUp
    case Writing => T.Write(x)
    case Storing(_) => T.FinishWrite
    case Filled => T.BumpWindex
    case WriteBumped => T.CountPush
  }

  /** The next step of a sync thread in the ring. */
  function SyncEvent(c: T.Consumer): T.Event {
    if c.Polling? then T.Look else T.PopStep
  }

  /** A ring made and started. */
  method StartedQueue(maxSize: nat, keepLast: bool, unused: Double) returns (q: R.FrameQueue)
    ensures fresh(q) && fresh(q.queue) && q.State() == R.New(maxSize, keepLast, unused).(abortRequest := false)
  {
    q := new R.FrameQueue(maxSize, keepLast, unused);
    q.Start();
  }

  /** A decoder with its queue and its ring, and the places of the decoder's and the sync thread. */
  class DecodeLine {
    const packetQueue: B.BlockingQueue<Packet>
    const frameQueue: R.FrameQueue
    const order: T.Order
    var hand: Option<Packet>
    var producer: T.Producer
    var consumer: T.Consumer
    var delivered: bool
    ghost var filled: seq<R.XData>
    ghost var consumed: seq<R.XData>

    ghost function Objects(): set<object> {
      {this, packetQueue, frameQueue, frameQueue.queue}
    }

    ghost function Ring(): T.System
      reads this, frameQueue, frameQueue.queue
    {
      T.System(frameQueue.State(), producer, consumer, T.SlotSize, order, filled, consumed)
    }

    ghost function State(): M.Line
      reads Objects()
    {
      M.Line(packetQueue.State(), hand, Ring(), delivered)
    }

    constructor (unused: Double, order: T.Order)
      ensures fresh(Objects()) && State() == M.NewLine(unused, order)
    {
      packetQueue := new B.BlockingQueue<Packet>(100);
      var q := StartedQueue(R.FRAME_QUEUE_SIZE, true, unused);
      frameQueue := q;
      this.order := order;
      hand, producer, consumer, delivered := None, T.Decoding, T.Polling, false;
      filled, consumed := [], [];
    }

    /** peekWritable, up to its wait or after it. */
    method GetSlot()
      requires T.WellShaped(Ring()) && (producer.Decoding? || producer.Woken?)
      modifies this`producer
      ensures Ring() == T.Next(old(Ring()), if old(producer).Decoding? then T.Peek else T.WakeUp)
    {
      var slot: R.Writable;
      if producer.Decoding? {
        slot := frameQueue.PeekWritable();
      } else {
        slot := frameQueue.PeekWoken();
      }
      match slot {
        case WaitForRoom => producer := T.Waiting;
        case Aborted => producer := T.Decoding;
        case Slot(_) => producer := T.Writing;
      }
    }

    /** A decoder's stores to the slot it got. */
    method StoreFirst(x: R.XData)
      requires T.WellShaped(Ring()) && producer.Writing?
      modifies this`producer, this`filled, frameQueue.queue
      ensures Ring() == T.Next(old(Ring()), T.Write(x))
    {
      if order.SizeFirst? {
        frameQueue.StoreSize(x);
        filled := filled + [x];
      } else {
        frameQueue.StoreRest(x);
      }
      producer := T.Storing(x);
    }

    method StoreSecond(x: R.XData)
      requires T.WellShaped(Ring()) && producer == T.Storing(x)
      modifies this`producer, this`filled, frameQueue.queue
      ensures Ring() == T.Next(old(Ring()), T.FinishWrite)
    {
      if order.SizeFirst? {
        frameQueue.StoreRest(x);
      } else {
        frameQueue.StoreSize(x);
        filled := filled + [x];
      }
      producer := T.Filled;
    }

    /** The decoder's next step with its frame, unless it waits for a slot. */
    method Store(x: R.XData) returns (progress: bool)
      requires T.WellShaped(Ring()) && (producer.Storing? ==> producer.x == x) && (delivered ==> consumer.Holding?)
      modifies this, frameQueue, frameQueue.queue
      ensures State() == M.LineAfter(old(State()), DecoderEvent(old(producer), x))
      ensures progress == !old(producer).Waiting?
    {
      match producer {
        case Waiting =>
          return false;
        case Decoding => GetSlot();
        case Woken => GetSlot();
        case Writing => StoreFirst(x);
        case Storing(_) => StoreSecond(x);
        case Filled =>
          frameQueue.AdvanceWrite();
          producer := T.WriteBumped;
        case WriteBumped =>
          frameQueue.AddFrame();
          producer := T.Decoding;
          hand := None;
      }
      return true;
    }

    /** The sync thread looks for a frame. */
    method Look() returns (progress: bool)
      requires T.WellShaped(Ring()) && consumer.Polling? && !delivered
      modifies this`consumer
      ensures progress == T.Open(old(Ring())) && State() == M.LineAfter(old(State()), T.Look)
    {
      var index := frameQueue.CurrentFrame();
      if frameQueue.queue[index].size == 0 {
        return false;
      }
      consumer := T.Holding(index);
      return true;
    }

    /** The sync thread's next step in popFrame. */
    method Pop()
      requires T.WellShaped(Ring()) && !consumer.Polling?
      modifies this, frameQueue, frameQueue.queue
      ensures State() == M.LineAfter(old(State()), T.PopStep)
    {
      match consumer {
        case Holding(index) =>
          consumed := consumed + [frameQueue.queue[index]];
          var done := frameQueue.DropFrame();
          consumer := if done then T.Polling else T.Unrefed;
        case Unrefed =>
          frameQueue.AdvanceRead();
          consumer := T.ReadBumped;
        case ReadBumped =>
          frameQueue.RemoveFrame();
          consumer := T.Polling;
          producer := T.Notified(producer);
      }
      delivered := false;
    }

    /** The decoder's next step to a packet: it calls pop, or goes on inside, unless it has to wait. */
    method PopPacket() returns (progress: bool)
      requires packetQueue.Valid() && hand.None? && !packetQueue.State().At(M.DECODER).Pushing()
      modifies this`hand, packetQueue
      ensures packetQueue.Valid()
      ensures var q := old(packetQueue.State());
              && progress == B.Enabled(q, PopEvent(q))
              && State() == old(State()).(queue := B.Next(q, PopEvent(q)), hand := Popped(q))
    {
      var idle := packetQueue.IsIdle(M.DECODER);
      if idle {
        packetQueue.Perform(B.CallPop(M.DECODER));
        return true;
      }
      progress := packetQueue.CanAdvance(M.DECODER);
      if progress {
        var r := packetQueue.Pop(M.DECODER);
        match r {
          case Some(Some(item)) => hand := Some(item.value);
          case _ =>
        }
      }
    }

    /** The decoder's next step. */
    method Decode(decode: M.Decoder) returns (progress: bool)
      requires Sound(State(), decode)
      modifies Objects()
      ensures State() == AfterDecoder(old(State()), decode) && progress == DecoderCan(old(State()))
    {
      if hand.None? {
        progress := PopPacket();
      } else {
        progress := Store(decode(hand.value));
      }
    }

    /** The demuxer's next step to push a packet; `done` when push returns. */
    method PushPacket(p: Packet) returns (progress: bool, done: bool)
      requires packetQueue.Valid() && !packetQueue.State().At(M.DEMUXER).Popping()
      modifies packetQueue
      ensures packetQueue.Valid()
      ensures var q := old(packetQueue.State());
              && progress == B.Enabled(q, PushEvent(q, p))
              && done == Pushed(q)
              && State() == old(State()).(queue := B.Next(q, PushEvent(q, p)))
    {
      var idle := packetQueue.IsIdle(M.DEMUXER);
      if idle {
        packetQueue.Perform(B.CallPush(M.DEMUXER, p));
        return true, false;
      }
      progress := packetQueue.CanAdvance(M.DEMUXER);
      done := false;
      if progress {
        var r := packetQueue.Push(M.DEMUXER);
        done := r == Some(true);
      }
    }
  }

  function PopEvent(q: B.Queue<Packet>): B.Event<Packet> {
    if q.At(M.DECODER).Idle? then B.CallPop(M.DECODER) else B.Advance(M.DECODER)
  }

  function PushEvent(q: B.Queue<Packet>, p: Packet): B.Event<Packet> {
    if q.At(M.DEMUXER).Idle? then B.CallPush(M.DEMUXER, p) else B.Advance(M.DEMUXER)
  }

  /** The packet that the decoder's next step takes out. */
  function Popped(q: B.Queue<Packet>): Option<Packet> {
    if !B.Enabled(q, B.Advance(M.DECODER)) then None
    else match B.Outcome(q, M.DECODER) { case Some(Popped(_, item)) => Some(item.value) case _ => None }
  }

  predicate Pushed(q: B.Queue<Packet>) {
    B.Enabled(q, B.Advance(M.DEMUXER)) && B.Outcome(q, M.DEMUXER).Some? && B.Outcome(q, M.DEMUXER).value.Pushed?
  }

  // ---------------------------------------------------------------------------------------------
  // The player
  // ---------------------------------------------------------------------------------------------

  /** The next move of each thread. */
  function PushMove(m: M.Machine): M.Move
    requires m.hand.Some?
  {
    var p := m.hand.value;
    M.InQueue(KindOf(p), PushEvent(m.At(KindOf(p)).queue, p))
  }

  function DecoderMove(m: M.Machine, decode: M.Decoder, k: Kind): M.Move {
    var l := m.At(k);
    if l.hand.None? then M.InQueue(k, PopEvent(l.queue))
    else M.InRing(k, DecoderEvent(l.ring.producer, decode(l.hand.value)))
  }

  function SyncMove(m: M.Machine, k: Kind): M.Move {
    var l := m.At(k);
    if M.StageOf(l).Delivering? then M.Deliver(k) else M.InRing(k, SyncEvent(l.ring.consumer))
  }

  /** What the threads of a line rely on. */
  ghost predicate Sound(l: M.Line, decode: M.Decoder) {
    && B.Inv(l.queue) && !l.queue.At(M.DECODER).Pushing() && !l.queue.At(M.DEMUXER).Popping()
    && T.WellShaped(l.ring) && M.InHand(l.ring, decode, l.hand)
    && (l.delivered ==> l.ring.consumer.Holding?)
    && (l.ring.consumer.Holding? ==> M.Found(l).size > 0)
  }

  lemma LineIsSound(l: M.Line, decode: M.Decoder, t: Track, toPush: Option<Packet>)
    requires M.LineShows(l, decode, t, toPush) && M.Decodes(decode)
    ensures Sound(l, decode)
  {
    M.ShownIsShaped(l, decode, t, toPush);
    if l.ring.consumer.Holding? {
      M.RingRead(l.ring, decode, t.frames, t.retained);
    }
  }

  /** After any moves both lines are sound. */
  lemma ReachedIsSound(input: seq<Packet>, decode: M.Decoder, unused: Double, order: T.Order, moves: seq<M.Move>,
                       k: Kind)
    requires M.Decodes(decode)
    ensures Sound(M.MachineRun(M.NewMachine(input, unused, order), decode, moves).At(k), decode)
  {
    var m0 := M.NewMachine(input, unused, order);
    StartInv(input);
    M.StartShows(input, decode, unused, order);
    var steps := M.MachineRefines(m0, decode, Start(input), moves);
    var s := Run(Start(input), steps);
    M.LineOf(M.MachineRun(m0, decode, moves), decode, s, k);
    LineIsSound(M.MachineRun(m0, decode, moves).At(k), decode, s.At(k), M.ToPush(s.hand, k));
  }

  lemma {:induction false} RunAppends(m: M.Machine, decode: M.Decoder, moves: seq<M.Move>, e: M.Move)
    ensures M.MachineRun(m, decode, moves + [e]) == M.MachineNext(M.MachineRun(m, decode, moves), decode, e)
    decreases moves
  {
    if moves == [] {
      assert [e][1..] == [];
      assert M.MachineRun(m, decode, [e]) == M.MachineRun(M.MachineNext(m, decode, e), decode, []);
    } else {
      assert (moves + [e])[1..] == moves[1..] + [e];
      RunAppends(M.MachineNext(m, decode, moves[0]), decode, moves[1..], e);
    }
  }

  /** The line after the decoder's next step, and whether it has one. */
  function AfterDecoder(l: M.Line, decode: M.Decoder): M.Line
    requires T.WellShaped(l.ring)
  {
    if l.hand.None? then l.(queue := B.Next(l.queue, PopEvent(l.queue)), hand := Popped(l.queue))
    else M.LineAfter(l, DecoderEvent(l.ring.producer, decode(l.hand.value)))
  }

  predicate DecoderCan(l: M.Line) {
    if l.hand.None? then B.Enabled(l.queue, PopEvent(l.queue)) else !l.ring.producer.Waiting?
  }

  lemma DecoderMoves(m: M.Machine, decode: M.Decoder, k: Kind)
    requires Sound(m.At(k), decode)
    ensures var e := DecoderMove(m, decode, k);
            && M.CanMove(m, decode, e) == DecoderCan(m.At(k))
            && M.MachineNext(m, decode, e) == m.With(k, AfterDecoder(m.At(k), decode))
  {}

  lemma PushMoves(m: M.Machine, decode: M.Decoder)
    requires m.hand.Some? && Sound(m.At(KindOf(m.hand.value)), decode)
    ensures var k, p := KindOf(m.hand.value), m.hand.value;
            var q := m.At(k).queue;
            && M.CanMove(m, decode, PushMove(m)) == B.Enabled(q, PushEvent(q, p))
            && M.MachineNext(m, decode, PushMove(m))
               == m.With(k, m.At(k).(queue := B.Next(q, PushEvent(q, p)))).(hand := if Pushed(q) then None else m.hand)
  {}

  /** None of the player's threads can make its next move. */
  predicate NobodyMoves(m: M.Machine, decode: M.Decoder) {
    && !M.CanMove(m, decode, M.Read) && !M.CanMove(m, decode, M.Play)
    && (m.hand.Some? ==> !M.CanMove(m, decode, PushMove(m)))
    && !M.CanMove(m, decode, DecoderMove(m, decode, AudioTrack)) && !M.CanMove(m, decode, SyncMove(m, AudioTrack))
    && !M.CanMove(m, decode, DecoderMove(m, decode, VideoTrack)) && !M.CanMove(m, decode, SyncMove(m, VideoTrack))
  }

  lemma QueueMoveIsNext(m: M.Machine, decode: M.Decoder, s: Player, k: Kind, e: B.Event<Packet>)
    requires M.Shows(m, decode, s) && M.CanMove(m, decode, M.InQueue(k, e)) && !e.Spurious?
    ensures (m.hand.Some? && M.InQueue(k, e) == PushMove(m)) || M.InQueue(k, e) == DecoderMove(m, decode, k)
  {
    M.LineOf(m, decode, s, k);
    if e.Advance? {
      assert m.At(k).queue.At(e.t).Pushing() || m.At(k).queue.At(e.t).Popping();
    }
  }

  lemma RingMoveIsNext(m: M.Machine, decode: M.Decoder, s: Player, k: Kind, e: T.Event)
    requires M.Shows(m, decode, s) && M.CanMove(m, decode, M.InRing(k, e))
    ensures M.InRing(k, e) == DecoderMove(m, decode, k) || M.InRing(k, e) == SyncMove(m, k)
  {
    M.LineOf(m, decode, s, k);
    M.ShownIsShaped(m.At(k), decode, s.At(k), M.ToPush(s.hand, k));
  }

  /** The threads' next moves are all the moves there are, but for spurious wakeups. */
  lemma NobodyMovesIsStill(m: M.Machine, decode: M.Decoder, s: Player)
    requires M.Shows(m, decode, s) && NobodyMoves(m, decode)
    ensures M.Still(m, decode)
  {
    forall e: M.Move | M.CanMove(m, decode, e) ensures e.InQueue? && e.e.Spurious? {
      match e
      case Read =>
      case Play =>
      case Deliver(_) =>
      case InQueue(k, qe) => if !qe.Spurious? { QueueMoveIsNext(m, decode, s, k, qe); }
      case InRing(k, re) => RingMoveIsNext(m, decode, s, k, re);
    }
  }

  class MediaPlayer {
    const input: seq<Packet>
    const decode: M.Decoder
    const unused: Double
    const audio: DecodeLine
    const video: DecodeLine
    const device: AudioPlay
    var read: nat
    var avPacket: Option<Packet>
    var lastFramePts: Double
    ghost var heard: seq<R.XData>
    ghost var shown: seq<R.XData>
    ghost var trace: seq<M.Move>  // every move so far

    ghost function State(): M.Machine
      reads this, device, audio.Objects(), video.Objects()
    {
      M.Machine(input, read, avPacket, audio.State(), video.State(), device.frames, heard, shown)
    }

    ghost predicate Apart() {
      && this !in audio.Objects() && this !in video.Objects()
      && device !in audio.Objects() && device !in video.Objects()
      && audio.Objects() !! video.Objects()
    }

    /** The state is the one that the moves made lead to. */
    ghost predicate Valid()
      reads this, device, audio.Objects(), video.Objects()
    {
      && Apart() && M.Decodes(decode)
      && State() == M.MachineRun(M.NewMachine(input, unused, audio.order), decode, trace)
      && !device.isExit && device.maxFrameBuffer == MAX_FRAME_BUFFER
      && (lastFramePts == Num(0.0) <==> !State().GateOpen())
    }

    function At(k: Kind): DecodeLine {
      if k.AudioTrack? then audio else video
    }

    constructor (input: seq<Packet>, decode: M.Decoder, unused: Double, order: T.Order)
      requires M.Decodes(decode)
      ensures Valid() && fresh(device) && fresh(audio.Objects()) && fresh(video.Objects())
      ensures State() == M.NewMachine(input, unused, order) && trace == []
    {
      this.input, this.decode, this.unused := input, decode, unused;
      audio := new DecodeLine(unused, order);
      video := new DecodeLine(unused, T.SizeLast);
      device := new AudioPlay();
      read, avPacket, lastFramePts := 0, None, Num(0.0);
      heard, shown, trace := [], [], [];
    }

    /** A move made from `m` is noted. */
    ghost method Note(m: M.Machine, e: M.Move)
      requires m == M.MachineRun(M.NewMachine(input, unused, audio.order), decode, trace)
      modifies this`trace
      ensures trace == old(trace) + [e]
      ensures M.MachineRun(M.NewMachine(input, unused, audio.order), decode, trace) == M.MachineNext(m, decode, e)
    {
      RunAppends(M.NewMachine(input, unused, audio.order), decode, trace, e);
      trace := trace + [e];
    }

    lemma LineIsSound(k: Kind)
      requires Valid()
      ensures Sound(At(k).State(), decode)
    {
      ReachedIsSound(input, decode, unused, audio.order, trace, k);
    }

    /** The demuxer's loop up to the push. */
    method ReadFrame() returns (progress: bool)
      requires Valid()
      modifies this
      ensures Valid() && trace == old(trace) + [M.Read]
      ensures progress == M.CanMove(old(State()), decode, M.Read)
      ensures State() == M.MachineNext(old(State()), decode, M.Read)
    {
      Note(State(), M.Read);
      if avPacket.Some? || read >= |input| {
        return false;
      }
      var packet := input[read];
      read := read + 1;
      avPacket := if packet.Other? then None else Some(packet);
      return true;
    }

    /** The demuxer's next step to push its packet into the queue of the packet's stream. */
    method PushToDecoder() returns (progress: bool)
      requires Valid() && avPacket.Some?
      modifies this, audio.Objects(), video.Objects()
      ensures Valid() && trace == old(trace) + [PushMove(old(State()))]
      ensures progress == M.CanMove(old(State()), decode, PushMove(old(State())))
      ensures State() == M.MachineNext(old(State()), decode, PushMove(old(State())))
    {
      ghost var m := State();
      LineIsSound(KindOf(avPacket.value));
      var done;
      progress, done := PushStep(avPacket.value);
      if done {
        avPacket := None;
      }
      assert State() == M.MachineNext(m, decode, PushMove(m));
      Note(m, PushMove(m));
    }

    /** The same, up to what the demuxer does when push returns. */
    method PushStep(packet: Packet) returns (progress: bool, done: bool)
      requires avPacket == Some(packet) && Apart() && Sound(At(KindOf(packet)).State(), decode)
      modifies At(KindOf(packet)).Objects()
      ensures var m := old(State());
              && progress == M.CanMove(m, decode, PushMove(m))
              && M.MachineNext(m, decode, PushMove(m)) == (if done then State().(hand := None) else State())
              && State().shown == m.shown
    {
      PushMoves(State(), decode);
      if packet.Audio? {
        progress, done := audio.PushPacket(packet);
      } else {
        progress, done := video.PushPacket(packet);
      }
    }

    /** The decoder's next step: to a packet, or with the frame it has decoded. */
    method DecodePacket(k: Kind) returns (progress: bool)
      requires Valid()
      modifies this`trace, At(k).Objects()
      ensures Valid() && trace == old(trace) + [DecoderMove(old(State()), decode, k)]
      ensures progress == M.CanMove(old(State()), decode, DecoderMove(old(State()), decode, k))
      ensures State() == M.MachineNext(old(State()), decode, DecoderMove(old(State()), decode, k))
    {
      LineIsSound(k);
      Note(State(), DecoderMove(State(), decode, k));
      progress := DecodeStep(k);
    }

    method DecodeStep(k: Kind) returns (progress: bool)
      requires Apart() && Sound(At(k).State(), decode)
      modifies At(k).Objects()
      ensures var m := old(State());
              && progress == M.CanMove(m, decode, DecoderMove(m, decode, k))
              && State() == M.MachineNext(m, decode, DecoderMove(m, decode, k))
              && State().shown == m.shown
    {
      DecoderMoves(State(), decode, k);
      if k.AudioTrack? {
        progress := audio.Decode(decode);
      } else {
        progress := video.Decode(decode);
      }
    }

    /** The audio sync thread: it polls until there is a frame and a picture was shown, hands the frame to the
        device, and pops it. */
    method AudioPlayPass() returns (progress: bool)
      requires Valid()
      modifies this`trace, audio.Objects(), device
      ensures Valid() && trace == old(trace) + [SyncMove(old(State()), AudioTrack)]
      ensures progress == M.CanMove(old(State()), decode, SyncMove(old(State()), AudioTrack))
      ensures State() == M.MachineNext(old(State()), decode, SyncMove(old(State()), AudioTrack))
    {
      LineIsSound(AudioTrack);
      Note(State(), SyncMove(State(), AudioTrack));
      progress := AudioStep();
    }

    method AudioStep() returns (progress: bool)
      requires Apart() && Sound(audio.State(), decode) && device.maxFrameBuffer == MAX_FRAME_BUFFER
      requires lastFramePts == Num(0.0) <==> !State().GateOpen()
      modifies audio.Objects(), device
      ensures device.isExit == old(device.isExit)
      ensures var m := old(State());
              && progress == M.CanMove(m, decode, SyncMove(m, AudioTrack))
              && State() == M.MachineNext(m, decode, SyncMove(m, AudioTrack))
              && State().shown == m.shown
    {
      match audio.consumer {
        case Polling =>
          if lastFramePts == Num(0.0) {
            return false;
          }
          progress := audio.Look();
        case Holding(index) =>
          if !audio.delivered {
            var r := device.Update(audio.frameQueue.queue[index]);
            audio.delivered := r.Added?;
            return r.Added?;
          }
          audio.Pop();
          return true;
        case _ =>
          audio.Pop();
          return true;
      }
    }

    /** The video sync thread: it polls until there is a frame, shows it and remembers its pts, and pops it. */
    method VideoPlayPass() returns (progress: bool)
      requires Valid()
      modifies this, video.Objects()
      ensures Valid() && trace == old(trace) + [SyncMove(old(State()), VideoTrack)]
      ensures progress == M.CanMove(old(State()), decode, SyncMove(old(State()), VideoTrack))
      ensures State() == M.MachineNext(old(State()), decode, SyncMove(old(State()), VideoTrack))
    {
      LineIsSound(VideoTrack);
      Note(State(), SyncMove(State(), VideoTrack));
      progress := VideoStep();
    }

    method VideoStep() returns (progress: bool)
      requires Apart() && Sound(video.State(), decode)
      requires lastFramePts == Num(0.0) <==> !State().GateOpen()
      modifies this`lastFramePts, this`shown, video.Objects()
      ensures lastFramePts == Num(0.0) <==> !State().GateOpen()
      ensures var m := old(State());
              && progress == M.CanMove(m, decode, SyncMove(m, VideoTrack))
              && State() == M.MachineNext(m, decode, SyncMove(m, VideoTrack))
    {
      match video.consumer {
        case Polling =>
          progress := video.Look();
        case Holding(index) =>
          if !video.delivered {
            Render(index);
          } else {
            video.Pop();
          }
          return true;
        case _ =>
          video.Pop();
          return true;
      }
    }

    /** The frame found is shown, and its pts remembered. */
    method Render(index: nat)
      requires Apart() && Sound(video.State(), decode) && video.consumer == T.Holding(index) && !video.delivered
      modifies this`lastFramePts, this`shown, video.Objects()
      ensures lastFramePts == Num(0.0) <==> !State().GateOpen()
      ensures M.CanMove(old(State()), decode, M.Deliver(VideoTrack))
      ensures State() == M.Moved(old(State()), decode, M.Deliver(VideoTrack))
    {
      lastFramePts := video.frameQueue.queue[index].pts;
      shown := shown + [video.frameQueue.queue[index]];
      video.delivered := true;
    }

    /** The audio device asks for data. */
    method PlayCall() returns (progress: bool)
      requires Valid()
      modifies this, device
      ensures Valid() && trace == old(trace) + [M.Play]
      ensures progress == M.CanMove(old(State()), decode, M.Play)
      ensures State() == M.MachineNext(old(State()), decode, M.Play)
    {
      Note(State(), M.Play);
      var d := device.GetData();
      if d.Data? {
        heard := heard + [d.frame];
        return true;
      }
      return false;
    }

    /** When no method makes progress any more, a file that never blocks was played to its end. */
    lemma PlaysAll()
      requires Valid() && NobodyMoves(State(), decode) && PipelineTheorems.NeverBlocks(input)
      ensures shown == M.Frames(decode, Only(VideoTrack, input))
      ensures M.Carries(audio.order, heard, M.Frames(decode, Only(AudioTrack, input)))
    {
      var m0 := M.NewMachine(input, unused, audio.order);
      StartInv(input);
      M.StartShows(input, decode, unused, audio.order);
      var steps := M.MachineRefines(m0, decode, Start(input), trace);
      NobodyMovesIsStill(State(), decode, Run(Start(input), steps));
      M.MachinePlaysAll(input, decode, unused, audio.order, trace);
    }

    /** What was heard and shown so far. */
    lemma PlaysInOrder()
      requires Valid()
      ensures read <= |input|
      ensures shown <= M.Frames(decode, Only(VideoTrack, input[..read]))
      ensures T.SizesOf(heard, M.Frames(decode, Only(AudioTrack, input[..read])))
    {
      M.MachinePlaysInOrder(input, decode, unused, audio.order, trace);
    }
  }
}
