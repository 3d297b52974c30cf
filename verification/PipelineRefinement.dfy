/** The player assembled from its parts: real blocking queues between demuxer and decoders, with every step of
    push and pop, and real frame rings behind the decoders, with every step of their two threads. It refines the
    player of Pipeline, in which a queue is a bounded sequence and a ring a sequence with a flag. */
module PipelineRefinement {
  import opened Doubles
  import opened Options
  import opened Pipeline
  import opened PipelineTheorems
  import B = BoundedQueue
  import R = FrameRing
  import T = FrameRingThreads

  /** Every packet that is not dropped decodes to one frame with its pts, and frames are not empty. */
  type Decoder = Packet -> R.XData

  ghost predicate Decodes(decode: Decoder) {
    forall p: Packet :: !p.Other? ==> decode(p).size > 0 && decode(p).pts == p.pts
  }

  function Frames(decode: Decoder, packets: seq<Packet>): seq<R.XData> {
    seq(|packets|, i requires 0 <= i < |packets| => decode(packets[i]))
  }

  const DEMUXER: B.Tid := 0
  const DECODER: B.Tid := 1

  // ---------------------------------------------------------------------------------------------
  // A ring is a sequence with a flag
  // ---------------------------------------------------------------------------------------------

  /** The decoder has stored the size of the frame it holds. */
  predicate SizeStored(q: T.System) {
    T.Visible(q) || q.producer.WriteBumped?
  }

  /** What the decoder holds and still has to show in the ring. */
  function Unshown(q: T.System, hand: Option<Packet>): Option<Packet> {
    if SizeStored(q) then None else hand
  }

  /** A started ring of the player, polled by the size field of the current slot. */
  predicate RingOk(q: T.System) {
    T.Inv(q) && q.ring.maxSize == FRAMES && q.ring.keepLast && !q.ring.abortRequest && q.gate.SlotSize?
  }

  /** The decoder's thread is as far with the frame it holds as the ring says. */
  predicate InHand(q: T.System, decode: Decoder, hand: Option<Packet>) {
    && (hand.None? ==> q.producer.Decoding?)
    && (q.producer.Storing? ==> hand.Some? && q.producer.x == decode(hand.value))
  }

  /** A ring shows these packets as pending, and retains the last one popped or not. */
  ghost predicate RingShows(q: T.System, decode: Decoder, frames: seq<Packet>, retained: bool) {
    && RingOk(q)
    && q.filled[|q.consumed|..] == Frames(decode, frames)
    && (retained <==> q.ring.showIndex == 1)
    && (forall i :: 0 <= i < |frames| ==> !frames[i].Other?)
  }

  function NewRing(unused: Double, order: T.Order): T.System {
    T.Initial(FRAMES, true, unused, T.SlotSize, order)
  }

  lemma EmptyRingShows(q: T.System, decode: Decoder)
    requires RingOk(q) && q.filled == [] && q.ring.showIndex == 0
    ensures RingShows(q, decode, [], false)
  {}

  lemma StartedRing(n: nat, keepLast: bool, unused: Double, gate: T.Gate, order: T.Order)
    requires n == FRAMES && keepLast && gate.SlotSize?
    ensures RingOk(T.Initial(n, keepLast, unused, gate, order))
  {
    T.InitialInv(n, keepLast, unused, gate, order);
  }

  lemma NewRingShows(decode: Decoder, unused: Double, order: T.Order)
    ensures RingShows(NewRing(unused, order), decode, [], false)
  {
    StartedRing(FRAMES, true, unused, T.SlotSize, order);
    EmptyRingShows(NewRing(unused, order), decode);
  }

  /** The event stores the size field. */
  predicate ShowsFrame(q: T.System, e: T.Event) {
    if q.order.SizeFirst? then e.Write? && q.producer.Writing? else e.FinishWrite? && q.producer.Storing?
  }

  lemma RingCounts(q: T.System, decode: Decoder, frames: seq<Packet>, retained: bool)
    requires RingShows(q, decode, frames, retained)
    ensures |frames| == T.Total(q) - T.Used(q) && q.ring.showIndex == (if retained then 1 else 0)
  {
    assert |q.filled[|q.consumed|..]| == |Frames(decode, frames)|;
  }

  /** The store of the size makes the ring show one packet more, for which there was room. */
  lemma RingPush(q: T.System, decode: Decoder, frames: seq<Packet>, retained: bool, e: T.Event, p: Packet)
    requires RingShows(q, decode, frames, retained) && ShowsFrame(q, e) && !p.Other?
    requires T.Load(q, e) == decode(p)
    ensures |frames| + (if retained then 1 else 0) < FRAMES
    ensures RingShows(T.Next(q, e), decode, frames + [p], retained)
  {
    T.StepKeepsInv(q, e);
    T.StepKeepsSetup(q, e);
    T.RoomToStore(q);
    RingCounts(q, decode, frames, retained);
    assert Frames(decode, frames + [p]) == Frames(decode, frames) + [decode(p)];
  }

  /** The first step of popFrame: the ring shows one packet less and retains it. */
  lemma RingPop(q: T.System, decode: Decoder, frames: seq<Packet>, retained: bool)
    requires RingShows(q, decode, frames, retained) && q.consumer.Holding?
    ensures frames != [] && RingShows(T.Next(q, T.PopStep), decode, frames[1..], true)
  {
    T.StepKeepsInv(q, T.PopStep);
    T.StepKeepsSetup(q, T.PopStep);
    RingCounts(q, decode, frames, retained);
    assert Frames(decode, frames)[1..] == Frames(decode, frames[1..]);
  }

  /** Every other event of the two threads shows nothing. */
  lemma RingKeeps(q: T.System, decode: Decoder, frames: seq<Packet>, retained: bool, e: T.Event)
    requires RingShows(q, decode, frames, retained)
    requires !ShowsFrame(q, e) && !(e.PopStep? && q.consumer.Holding?) && !e.AbortQueue?
    ensures RingShows(T.Next(q, e), decode, frames, retained)
  {
    T.StepKeepsInv(q, e);
    T.StepKeepsSetup(q, e);
  }

  /** The size field of the current slot tells whether the ring shows anything. */
  lemma RingLook(q: T.System, decode: Decoder, frames: seq<Packet>, retained: bool)
    requires RingShows(q, decode, frames, retained) && Decodes(decode) && q.consumer.Polling?
    ensures T.Open(q) <==> frames != []
  {
    RingCounts(q, decode, frames, retained);
    if frames == [] {
      if T.Open(q) { T.OpenMeansUnused(q); }
    } else {
      R.ModIsWrap(q.ring.rindex + q.ring.showIndex, FRAMES);
      assert q.ring.slots[R.Current(q.ring)] == T.Window(q.ring)[q.ring.showIndex];
      assert q.filled[|q.consumed|..][0] == decode(frames[0]);
    }
  }

  /** The slot the sync thread found shows the size of the ring's first packet; and all of it, if the size is
      stored last. */
  lemma RingRead(q: T.System, decode: Decoder, frames: seq<Packet>, retained: bool)
    requires RingShows(q, decode, frames, retained) && q.consumer.Holding?
    ensures frames != [] && q.consumer.index < |q.ring.slots|
    ensures var x := q.ring.slots[q.consumer.index];
            x.size == decode(frames[0]).size && (q.order.SizeLast? ==> x == decode(frames[0]))
  {
    RingCounts(q, decode, frames, retained);
    T.HeldIsNext(q);
    assert q.filled[|q.consumed|..][0] == decode(frames[0]);
  }

  /** A decoder that waits, with no pop under way, waits on a full ring. */
  lemma RingFull(q: T.System, decode: Decoder, frames: seq<Packet>, retained: bool)
    requires RingShows(q, decode, frames, retained) && q.producer.Waiting?
    requires q.consumer.Polling? || q.consumer.Holding?
    ensures |frames| + (if retained then 1 else 0) == FRAMES
  {
    RingCounts(q, decode, frames, retained);
  }

  /** A decoder about to ask for a slot, with no pop under way, finds one exactly if the ring is not full. */
  lemma RingRoom(q: T.System, decode: Decoder, frames: seq<Packet>, retained: bool)
    requires RingShows(q, decode, frames, retained) && q.producer.Decoding?
    requires q.consumer.Polling? || q.consumer.Holding?
    ensures q.ring.size == |frames| + (if retained then 1 else 0)
  {
    RingCounts(q, decode, frames, retained);
  }

  // ---------------------------------------------------------------------------------------------
  // A blocking queue is a bounded sequence
  // ---------------------------------------------------------------------------------------------

  function Values(items: seq<B.Item<Packet>>): seq<Packet> {
    seq(|items|, i requires 0 <= i < |items| => items[i].value)
  }

  /** The queue holds these packets; the demuxer is the only producer and the decoder the only consumer, and
      neither flag is set. */
  ghost predicate QueueHolds(q: B.Queue<Packet>, packets: seq<Packet>, pushing: Option<Packet>, idle: bool) {
    && B.Inv(q) && q.capacity == PACKETS && !q.quit && !q.finished
    && Values(q.contents) == packets
    && (forall t: B.Tid :: q.At(t).Pushing() ==> t == DEMUXER && pushing == Some(q.At(t).value))
    && (forall t: B.Tid :: q.At(t).Popping() ==> t == DECODER && idle)
  }

  lemma NewQueue()
    ensures QueueHolds(B.Empty(PACKETS), [], None, true)
  {}

  /** What an event of the queue does to the packets: a push that returns adds the demuxer's packet, a pop that
      returns takes the first, and every other event leaves them alone. */
  lemma OtherEvents(q: B.Queue<Packet>, packets: seq<Packet>, pushing: Option<Packet>, idle: bool, e: B.Event<Packet>)
    requires QueueHolds(q, packets, pushing, idle)
    requires e.Spurious? || (e.CallPush? && e.t == DEMUXER && pushing == Some(e.value))
             || (e.CallPop? && e.t == DECODER && idle)
    ensures QueueHolds(B.Next(q, e), packets, pushing, idle)
  {
    B.StepKeepsInv(q, e);
    B.OtherEventsKeepOrder(q, e);
    OtherPlaces(q, e);
  }

  lemma OtherPlaces(q: B.Queue<Packet>, e: B.Event<Packet>)
    requires e.Spurious? || e.CallPush? || e.CallPop?
    ensures var q' := B.Next(q, e);
            && q'.quit == q.quit && q'.finished == q.finished
            && (forall u: B.Tid :: q'.At(u).Pushing() ==>
                  (q.At(u).Pushing() && q'.At(u).value == q.At(u).value)
                  || (e.CallPush? && u == e.t && q'.At(u).value == e.value))
            && (forall u: B.Tid :: q'.At(u).Popping() ==> q.At(u).Popping() || (e.CallPop? && u == e.t))
  {}

  lemma StaysInside(q: B.Queue<Packet>, packets: seq<Packet>, pushing: Option<Packet>, idle: bool, t: B.Tid)
    requires QueueHolds(q, packets, pushing, idle) && B.Enabled(q, B.Advance(t)) && B.Outcome(q, t).None?
    ensures QueueHolds(B.AdvanceThread(q, t), packets, pushing, idle)
  {
    B.AdvanceKeepsInv(q, t);
    B.AdvanceHasOutcome(q, t);
    Places(q, t);
  }

  lemma Places(q: B.Queue<Packet>, t: B.Tid)
    requires B.Enabled(q, B.Advance(t))
    ensures var q' := B.AdvanceThread(q, t);
            forall u: B.Tid ::
              && (q'.At(u).Pushing() ==> q.At(u).Pushing() && q'.At(u).value == q.At(u).value)
              && (q'.At(u).Popping() ==> q.At(u).Popping())
              && (u == t && B.Outcome(q, t).Some? ==> q'.At(u).Idle?)
  {
    if q.At(t).Pushing() { PushPlaces(q, t); } else { PopPlaces(q, t); }
  }

  lemma PushPlaces(q: B.Queue<Packet>, t: B.Tid)
    requires B.Enabled(q, B.Advance(t)) && q.At(t).Pushing()
    ensures var q' := B.AdvanceThread(q, t);
            forall u: B.Tid ::
              && (q'.At(u).Pushing() ==> q.At(u).Pushing() && q'.At(u).value == q.At(u).value)
              && (q'.At(u).Popping() ==> q.At(u).Popping())
              && (u == t && B.Outcome(q, t).Some? ==> q'.At(u).Idle?)
  {}

  lemma PopPlaces(q: B.Queue<Packet>, t: B.Tid)
    requires B.Enabled(q, B.Advance(t)) && q.At(t).Popping()
    ensures var q' := B.AdvanceThread(q, t);
            forall u: B.Tid ::
              && (q'.At(u).Pushing() ==> q.At(u).Pushing() && q'.At(u).value == q.At(u).value)
              && (q'.At(u).Popping() ==> q.At(u).Popping())
              && (u == t && B.Outcome(q, t).Some? ==> q'.At(u).Idle?)
  {}

  /** A call that returns has pushed the demuxer's packet or popped the first one: without the flags it is not
      refused, and then there was room, or a packet. */
  lemma CallReturns(q: B.Queue<Packet>, packets: seq<Packet>, pushing: Option<Packet>, idle: bool, t: B.Tid)
    requires QueueHolds(q, packets, pushing, idle) && B.Enabled(q, B.Advance(t)) && B.Outcome(q, t).Some?
    ensures var r, q' := B.Outcome(q, t).value, B.AdvanceThread(q, t);
            && (t == DEMUXER ==> r.Pushed? && pushing == Some(r.item.value) && |packets| < PACKETS)
            && (t == DEMUXER ==> QueueHolds(q', packets + [r.item.value], None, idle))
            && (t != DEMUXER ==> t == DECODER && idle && r.Popped? && packets != [] && r.item.value == packets[0])
            && (t != DEMUXER ==> QueueHolds(q', packets[1..], pushing, false))
  {
    B.AdvanceKeepsInv(q, t);
    B.AdvanceHasOutcome(q, t);
    Places(q, t);
  }

  /** A demuxer that is inside push and has no step of its own, nor has anyone who holds the mutex, waits on a
      full queue. */
  lemma PushBlocks(q: B.Queue<Packet>, packets: seq<Packet>, pushing: Option<Packet>, idle: bool)
    requires QueueHolds(q, packets, pushing, idle)
    requires !q.At(DEMUXER).Idle? && forall t: B.Tid :: !B.Enabled(q, B.Advance(t))
    ensures |packets| >= PACKETS
  {
    NoHolder(q);
    assert !B.Enabled(q, B.Advance(DEMUXER));
    assert q.threads[DEMUXER].PushWaiting?;
  }

  lemma PopBlocks(q: B.Queue<Packet>, packets: seq<Packet>, pushing: Option<Packet>, idle: bool)
    requires QueueHolds(q, packets, pushing, idle)
    requires !q.At(DECODER).Idle? && forall t: B.Tid :: !B.Enabled(q, B.Advance(t))
    ensures packets == []
  {
    NoHolder(q);
    assert !B.Enabled(q, B.Advance(DECODER));
    assert q.threads[DECODER].PopWaiting?;
  }

  lemma NoHolder(q: B.Queue<Packet>)
    requires B.Inv(q) && forall t: B.Tid :: !B.Enabled(q, B.Advance(t))
    ensures q.holder.None?
  {
    if q.holder.Some? {
      assert q.threads[q.holder.value].HasMutex();
      assert B.Enabled(q, B.Advance(q.holder.value));
      assert false;
    }
  }

  // ---------------------------------------------------------------------------------------------
  // A decoder's line is a track
  // ---------------------------------------------------------------------------------------------

  /** A decoder with its queue and ring, and the sync thread behind it. */
  datatype Line = Line(
    queue: B.Queue<Packet>,
    hand: Option<Packet>,  // the packet whose frame the decoder's thread is bringing into the ring
    ring: T.System,
    delivered: bool)       // the sync thread has handed on the frame it found

  function StageOf(l: Line): Stage {
    if !l.ring.consumer.Holding? then Polling else if l.delivered then Popping else Delivering
  }

  /** A step that decoder or sync thread can take in the ring. */
  predicate LineCan(l: Line, decode: Decoder, e: T.Event) {
    && T.WellShaped(l.ring)
    && match e
       case Peek => l.ring.producer.Decoding? && l.hand.Some?
       case WakeUp => l.ring.producer.Woken?
       case Write(x) => l.ring.producer.Writing? && l.hand.Some? && x == decode(l.hand.value)
       case FinishWrite => l.ring.producer.Storing?
       case BumpWindex => l.ring.producer.Filled?
       case CountPush => l.ring.producer.WriteBumped?
       case Look => l.ring.consumer.Polling? && T.Open(l.ring)
       case PopStep => !l.ring.consumer.Polling? && (l.ring.consumer.Holding? ==> l.delivered)
       case AbortQueue => false
  }

  function LineAfter(l: Line, e: T.Event): Line
    requires T.WellShaped(l.ring)
  {
    var q := T.Next(l.ring, e);
    Line(l.queue, if e.CountPush? then None else l.hand, q, l.delivered && q.consumer.Holding?)
  }

  /** The line shows a track: what the queue and the ring hold, and where the threads are. */
  ghost predicate LineShows(l: Line, decode: Decoder, t: Track, toPush: Option<Packet>) {
    && QueueHolds(l.queue, t.packets, toPush, l.hand.None?)
    && RingShows(l.ring, decode, t.frames, t.retained) && InHand(l.ring, decode, l.hand)
    && t.hand == Unshown(l.ring, l.hand) && t.stage == StageOf(l) && (l.delivered ==> l.ring.consumer.Holding?)
    && (l.hand.Some? ==> !l.hand.value.Other?)
    && (forall i :: 0 <= i < |t.packets| ==> !t.packets[i].Other?)
  }

  /** The step of the player that the event is, if it is any. */
  function Shown(l: Line, k: Kind, e: T.Event): Option<Step> {
    if ShowsFrame(l.ring, e) then Some(PushFrame(k))
    else if e.Look? then Some(TakeFrame(k))
    else if e.PopStep? && l.ring.consumer.Holding? then Some(PopFrame(k))
    else None
  }

  lemma StoreRefines(l: Line, decode: Decoder, t: Track, toPush: Option<Packet>, e: T.Event)
    requires LineShows(l, decode, t, toPush) && LineCan(l, decode, e) && ShowsFrame(l.ring, e)
    ensures t.hand.Some? && t.Size() < FRAMES
    ensures LineShows(LineAfter(l, e), decode, t.(frames := t.frames + [t.hand.value], hand := None), toPush)
  {
    RingPush(l.ring, decode, t.frames, t.retained, e, l.hand.value);
  }

  lemma LookRefines(l: Line, decode: Decoder, t: Track, toPush: Option<Packet>)
    requires LineShows(l, decode, t, toPush) && Decodes(decode) && LineCan(l, decode, T.Look)
    ensures t.stage.Polling? && t.frames != []
    ensures LineShows(LineAfter(l, T.Look), decode, t.(stage := Delivering), toPush)
  {
    RingLook(l.ring, decode, t.frames, t.retained);
    RingKeeps(l.ring, decode, t.frames, t.retained, T.Look);
  }

  lemma PopFrameRefines(l: Line, decode: Decoder, t: Track, toPush: Option<Packet>)
    requires LineShows(l, decode, t, toPush) && LineCan(l, decode, T.PopStep) && l.ring.consumer.Holding?
    ensures t.stage.Popping? && t.frames != []
    ensures LineShows(LineAfter(l, T.PopStep), decode,
                      t.(stage := Polling, frames := t.frames[1..], retained := true), toPush)
  {
    RingPop(l.ring, decode, t.frames, t.retained);
  }

  /** Where the decoder is with its frame changes for the player only with the store of the size. */
  lemma HandKeeps(l: Line, decode: Decoder, e: T.Event)
    requires LineCan(l, decode, e) && InHand(l.ring, decode, l.hand) && !ShowsFrame(l.ring, e)
    requires T.WellShaped(T.Next(l.ring, e))
    ensures var l' := LineAfter(l, e);
            && InHand(l'.ring, decode, l'.hand) && Unshown(l'.ring, l'.hand) == Unshown(l.ring, l.hand)
            && (l'.hand.Some? ==> l'.hand == l.hand) && (l.hand.None? ==> l'.hand.None?)
            && (e.CountPush? || l'.hand == l.hand)
  {}

  /** The other steps of the two threads are none of the player's. */
  lemma RingStepRefines(l: Line, decode: Decoder, t: Track, toPush: Option<Packet>, e: T.Event)
    requires LineShows(l, decode, t, toPush) && LineCan(l, decode, e)
    requires !ShowsFrame(l.ring, e) && !e.Look? && !(e.PopStep? && l.ring.consumer.Holding?)
    ensures LineShows(LineAfter(l, e), decode, t, toPush)
  {
    RingKeeps(l.ring, decode, t.frames, t.retained, e);
    HandKeeps(l, decode, e);
    DecoderFree(l.queue, t.packets, toPush, l.hand.None?);
  }

  lemma DecoderFree(q: B.Queue<Packet>, packets: seq<Packet>, pushing: Option<Packet>, idle: bool)
    requires QueueHolds(q, packets, pushing, idle)
    ensures QueueHolds(q, packets, pushing, true)
  {}

  // ---------------------------------------------------------------------------------------------
  // The machine
  // ---------------------------------------------------------------------------------------------

  datatype Machine = Machine(
    input: seq<Packet>,
    read: nat,
    hand: Option<Packet>,
    audio: Line,
    video: Line,
    pcm: seq<R.XData>,
    heard: seq<R.XData>,
    shown: seq<R.XData>)
  {
    function At(k: Kind): Line {
      if k.AudioTrack? then audio else video
    }

    function With(k: Kind, l: Line): Machine {
      if k.AudioTrack? then this.(audio := l) else this.(video := l)
    }

    /** Tests lastFramePts == 0, which is how the field starts. */
    predicate GateOpen() {
      shown != [] && shown[|shown| - 1].pts != Num(0.0)
    }
  }

  datatype Move =
    | Read
    | InQueue(k: Kind, e: B.Event<Packet>)  // a call of push or pop, a thread's next step in it, a spurious wakeup
    | InRing(k: Kind, ring: T.Event)        // a thread's next step between its calls, or inside the ring
    | Deliver(k: Kind)
    | Play

  /** The queue's events that the demuxer and the decoder of line `k` bring about. */
  predicate Brings(m: Machine, k: Kind, e: B.Event<Packet>) {
    match e
    case CallPush(t, p) => t == DEMUXER && m.hand == Some(p) && KindOf(p) == k
    case CallPop(t) => t == DECODER && m.At(k).hand.None?
    case Advance(_) => true
    case Spurious(_) => true
    case _ => false
  }

  predicate CanMove(m: Machine, decode: Decoder, e: Move) {
    match e
    case Read => m.hand.None? && m.read < |m.input|
    case InQueue(k, e) => Brings(m, k, e) && B.Enabled(m.At(k).queue, e)
    case InRing(k, e) => LineCan(m.At(k), decode, e) && (e.Look? && k.AudioTrack? ==> m.GateOpen())
    case Deliver(k) =>
      && StageOf(m.At(k)).Delivering? && T.WellShaped(m.At(k).ring)
      && (k.AudioTrack? ==> |m.pcm| <= MAX_FRAME_BUFFER)
    case Play => m.pcm != []
  }

  /** What the caller of push or pop does when it returns `r`. */
  function Returned(m: Machine, k: Kind, r: B.Return<Packet>): Machine {
    match r
    case Pushed(_) => m.(hand := None)
    case Popped(_, item) => m.With(k, m.At(k).(hand := Some(item.value)))
    case _ => m
  }

  /** The slot that the sync thread found, as it is now. */
  function Found(l: Line): R.XData
    requires T.WellShaped(l.ring) && l.ring.consumer.Holding?
  {
    l.ring.ring.slots[l.ring.consumer.index]
  }

  function Moved(m: Machine, decode: Decoder, e: Move): Machine
    requires CanMove(m, decode, e)
  {
    match e
    case Read =>
      var p := m.input[m.read];
      m.(read := m.read + 1, hand := if p.Other? then None else Some(p))
    case InQueue(k, e) =>
      var m' := m.With(k, m.At(k).(queue := B.Next(m.At(k).queue, e)));
      if e.Advance? && B.Outcome(m.At(k).queue, e.t).Some?
      then Returned(m', k, B.Outcome(m.At(k).queue, e.t).value) else m'
    case InRing(k, e) => m.With(k, LineAfter(m.At(k), e))
    case Deliver(k) =>
      var x, m' := Found(m.At(k)), m.With(k, m.At(k).(delivered := true));
      if k.AudioTrack? then m'.(pcm := m.pcm + [x]) else m'.(shown := m.shown + [x])
    case Play => m.(heard := m.heard + [m.pcm[0]], pcm := m.pcm[1..])
  }

  function MachineNext(m: Machine, decode: Decoder, e: Move): Machine {
    if CanMove(m, decode, e) then Moved(m, decode, e) else m
  }

  function MachineRun(m: Machine, decode: Decoder, moves: seq<Move>): Machine
    decreases moves
  {
    if moves == [] then m else MachineRun(MachineNext(m, decode, moves[0]), decode, moves[1..])
  }

  function NewLine(unused: Double, order: T.Order): Line {
    Line(B.Empty(PACKETS), None, NewRing(unused, order), false)
  }

  /** The video decoder stores the pts before the size; where the audio decoder does is a parameter. */
  function NewMachine(input: seq<Packet>, unused: Double, order: T.Order): Machine {
    Machine(input, 0, None, NewLine(unused, order), NewLine(unused, T.SizeLast), [], [], [])
  }

  // ---------------------------------------------------------------------------------------------
  // It refines the player
  // ---------------------------------------------------------------------------------------------

  /** What the demuxer has to push into the queue of line `k`. */
  function ToPush(hand: Option<Packet>, k: Kind): Option<Packet> {
    if hand.Some? && KindOf(hand.value) == k then hand else None
  }

  /** `a` are the frames `b`, by number and size; and in all of their contents, if the size is stored last. */
  predicate Carries(order: T.Order, a: seq<R.XData>, b: seq<R.XData>) {
    |a| == |b| && T.SizesOf(a, b) && (order.SizeLast? ==> a == b)
  }

  ghost predicate Shows(m: Machine, decode: Decoder, s: Player) {
    && m.input == s.input && m.read == s.read && m.hand == s.hand && (s.hand.Some? ==> !s.hand.value.Other?)
    && LineShows(m.audio, decode, s.audio, ToPush(s.hand, AudioTrack))
    && LineShows(m.video, decode, s.video, ToPush(s.hand, VideoTrack))
    && PlayShows(m, decode, s)
  }

  /** What reached the audio device and the screen. */
  ghost predicate PlayShows(m: Machine, decode: Decoder, s: Player) {
    && m.video.ring.order.SizeLast?
    && Carries(m.audio.ring.order, m.pcm, Frames(decode, s.pcm))
    && Carries(m.audio.ring.order, m.heard, Frames(decode, s.heard))
    && m.shown == Frames(decode, s.shown)
    && (forall i :: 0 <= i < |s.shown| ==> !s.shown[i].Other?)
  }

  lemma NewLineShows(decode: Decoder, unused: Double, order: T.Order)
    ensures LineShows(NewLine(unused, order), decode, IDLE, None)
  {
    NewQueue();
    NewRingShows(decode, unused, order);
  }

  lemma StartShows(input: seq<Packet>, decode: Decoder, unused: Double, order: T.Order)
    ensures Shows(NewMachine(input, unused, order), decode, Start(input))
  {
    NewLineShows(decode, unused, order);
    NewLineShows(decode, unused, T.SizeLast);
  }

  /** The player's step that a move takes, or none for a move inside a call. */
  function StepOf(m: Machine, e: Move): Option<Step> {
    match e
    case Read => Some(ReadPacket)
    case InQueue(k, e) =>
      if e.Advance? && B.Outcome(m.At(k).queue, e.t).Some?
      then Some(if e.t == DEMUXER then PushPacket else PopPacket(k)) else None
    case InRing(k, e) => Shown(m.At(k), k, e)
    case Deliver(k) => Some(DeliverFrame(k))
    case Play => Some(PlayPcm)
  }

  lemma GatesAgree(m: Machine, decode: Decoder, s: Player)
    requires PlayShows(m, decode, s) && Decodes(decode)
    ensures m.GateOpen() == s.GateOpen()
  {}

  lemma LineOf(m: Machine, decode: Decoder, s: Player, k: Kind)
    requires Shows(m, decode, s)
    ensures LineShows(m.At(k), decode, s.At(k), ToPush(s.hand, k))
  {}

  /** A line that changes alone. */
  lemma LineChanges(m: Machine, decode: Decoder, s: Player, k: Kind, l: Line, t: Track)
    requires Shows(m, decode, s) && LineShows(l, decode, t, ToPush(s.hand, k)) && l.ring.order == m.At(k).ring.order
    ensures Shows(m.With(k, l), decode, s.With(k, t))
  {}

  lemma QueueWithoutPusher(q: B.Queue<Packet>, packets: seq<Packet>, pushing: Option<Packet>, idle: bool)
    requires QueueHolds(q, packets, None, idle)
    ensures QueueHolds(q, packets, pushing, idle)
  {}

  lemma ReadRefines(m: Machine, decode: Decoder, s: Player)
    requires Shows(m, decode, s) && CanMove(m, decode, Read)
    ensures Can(s, ReadPacket) && Shows(Moved(m, decode, Read), decode, Do(s, ReadPacket))
  {
    var s' := Do(s, ReadPacket);
    QueueWithoutPusher(m.audio.queue, s.audio.packets, ToPush(s'.hand, AudioTrack), m.audio.hand.None?);
    QueueWithoutPusher(m.video.queue, s.video.packets, ToPush(s'.hand, VideoTrack), m.video.hand.None?);
  }

  /** A move inside a call changes nothing that the player sees. */
  lemma InsideRefines(m: Machine, decode: Decoder, s: Player, k: Kind, e: B.Event<Packet>)
    requires Shows(m, decode, s) && CanMove(m, decode, InQueue(k, e)) && StepOf(m, InQueue(k, e)).None?
    ensures Shows(Moved(m, decode, InQueue(k, e)), decode, s)
  {
    LineOf(m, decode, s, k);
    var l, t := m.At(k), s.At(k);
    if e.Advance? {
      StaysInside(l.queue, t.packets, ToPush(s.hand, k), l.hand.None?, e.t);
    } else {
      OtherEvents(l.queue, t.packets, ToPush(s.hand, k), l.hand.None?, e);
    }
    LineChanges(m, decode, s, k, l.(queue := B.Next(l.queue, e)), t);
  }

  /** The line after a push that returned. */
  lemma LinePushed(l: Line, decode: Decoder, t: Track, p: Packet)
    requires LineShows(l, decode, t, Some(p)) && !p.Other?
    requires B.Enabled(l.queue, B.Advance(DEMUXER)) && B.Outcome(l.queue, DEMUXER).Some?
    ensures B.Outcome(l.queue, DEMUXER).value.Pushed? && |t.packets| < PACKETS
    ensures LineShows(l.(queue := B.AdvanceThread(l.queue, DEMUXER)), decode, t.(packets := t.packets + [p]), None)
  {
    CallReturns(l.queue, t.packets, Some(p), l.hand.None?, DEMUXER);
  }

  /** The line after a pop that returned. */
  lemma LinePopped(l: Line, decode: Decoder, t: Track, toPush: Option<Packet>, u: B.Tid)
    requires LineShows(l, decode, t, toPush) && u != DEMUXER
    requires B.Enabled(l.queue, B.Advance(u)) && B.Outcome(l.queue, u).Some?
    ensures t.hand.None? && t.packets != []
    ensures var r := B.Outcome(l.queue, u).value; r.Popped? && r.item.value == t.packets[0]
    ensures LineShows(l.(queue := B.AdvanceThread(l.queue, u), hand := Some(t.packets[0])), decode,
                      t.(hand := Some(t.packets[0]), packets := t.packets[1..]), toPush)
  {
    CallReturns(l.queue, t.packets, toPush, l.hand.None?, u);
  }

  /** Only the demuxer is inside push, with the packet it holds. */
  lemma PusherHolds(l: Line, decode: Decoder, t: Track, toPush: Option<Packet>)
    requires LineShows(l, decode, t, toPush)
    requires B.Enabled(l.queue, B.Advance(DEMUXER)) && B.Outcome(l.queue, DEMUXER).Some?
    ensures toPush.Some?
  {
    CallReturns(l.queue, t.packets, toPush, l.hand.None?, DEMUXER);
  }

  lemma HandPushed(m: Machine, decode: Decoder, s: Player, k: Kind, l: Line, t: Track)
    requires Shows(m, decode, s) && s.hand.Some? && KindOf(s.hand.value) == k
    requires LineShows(l, decode, t, None) && l.ring == m.At(k).ring
    ensures Shows(m.With(k, l).(hand := None), decode, s.With(k, t).(hand := None))
  {}

  lemma PushRefines(m: Machine, decode: Decoder, s: Player, k: Kind)
    requires Shows(m, decode, s) && CanMove(m, decode, InQueue(k, B.Advance(DEMUXER)))
    requires B.Outcome(m.At(k).queue, DEMUXER).Some?
    ensures Can(s, PushPacket)
    ensures Shows(Moved(m, decode, InQueue(k, B.Advance(DEMUXER))), decode, Do(s, PushPacket))
  {
    LineOf(m, decode, s, k);
    var l, t := m.At(k), s.At(k);
    PusherHolds(l, decode, t, ToPush(s.hand, k));
    LinePushed(l, decode, t, s.hand.value);
    HandPushed(m, decode, s, k, l.(queue := B.AdvanceThread(l.queue, DEMUXER)),
               t.(packets := t.packets + [s.hand.value]));
  }

  lemma PopReturns(m: Machine, decode: Decoder, k: Kind, u: B.Tid)
    requires CanMove(m, decode, InQueue(k, B.Advance(u)))
    requires B.Outcome(m.At(k).queue, u).Some? && B.Outcome(m.At(k).queue, u).value.Popped?
    ensures Moved(m, decode, InQueue(k, B.Advance(u)))
         == m.With(k, m.At(k).(queue := B.AdvanceThread(m.At(k).queue, u),
                               hand := Some(B.Outcome(m.At(k).queue, u).value.item.value)))
  {}

  lemma PopRefines(m: Machine, decode: Decoder, s: Player, k: Kind, u: B.Tid)
    requires Shows(m, decode, s) && CanMove(m, decode, InQueue(k, B.Advance(u))) && u != DEMUXER
    requires B.Outcome(m.At(k).queue, u).Some?
    ensures Can(s, PopPacket(k))
    ensures Shows(Moved(m, decode, InQueue(k, B.Advance(u))), decode, Do(s, PopPacket(k)))
  {
    LineOf(m, decode, s, k);
    var l, t := m.At(k), s.At(k);
    LinePopped(l, decode, t, ToPush(s.hand, k), u);
    PopReturns(m, decode, k, u);
    LineChanges(m, decode, s, k, l.(queue := B.AdvanceThread(l.queue, u), hand := Some(t.packets[0])),
                t.(hand := Some(t.packets[0]), packets := t.packets[1..]));
  }

  lemma MachineStores(m: Machine, decode: Decoder, s: Player, k: Kind, e: T.Event)
    requires Shows(m, decode, s) && LineCan(m.At(k), decode, e) && ShowsFrame(m.At(k).ring, e)
    ensures Can(s, PushFrame(k)) && Shows(m.With(k, LineAfter(m.At(k), e)), decode, Do(s, PushFrame(k)))
  {
    LineOf(m, decode, s, k);
    T.StepKeepsSetup(m.At(k).ring, e);
    var l, t := m.At(k), s.At(k);
    StoreRefines(l, decode, t, ToPush(s.hand, k), e);
    LineChanges(m, decode, s, k, LineAfter(l, e), t.(frames := t.frames + [t.hand.value], hand := None));
  }

  lemma MachineLooks(m: Machine, decode: Decoder, s: Player, k: Kind)
    requires Shows(m, decode, s) && Decodes(decode) && CanMove(m, decode, InRing(k, T.Look))
    ensures Can(s, TakeFrame(k)) && Shows(m.With(k, LineAfter(m.At(k), T.Look)), decode, Do(s, TakeFrame(k)))
  {
    LineOf(m, decode, s, k);
    GatesAgree(m, decode, s);
    T.StepKeepsSetup(m.At(k).ring, T.Look);
    var l, t := m.At(k), s.At(k);
    LookRefines(l, decode, t, ToPush(s.hand, k));
    LineChanges(m, decode, s, k, LineAfter(l, T.Look), t.(stage := Delivering));
  }

  lemma MachinePops(m: Machine, decode: Decoder, s: Player, k: Kind)
    requires Shows(m, decode, s) && LineCan(m.At(k), decode, T.PopStep) && m.At(k).ring.consumer.Holding?
    ensures Can(s, PopFrame(k)) && Shows(m.With(k, LineAfter(m.At(k), T.PopStep)), decode, Do(s, PopFrame(k)))
  {
    LineOf(m, decode, s, k);
    T.StepKeepsSetup(m.At(k).ring, T.PopStep);
    var l, t := m.At(k), s.At(k);
    PopFrameRefines(l, decode, t, ToPush(s.hand, k));
    LineChanges(m, decode, s, k, LineAfter(l, T.PopStep),
                t.(stage := Polling, frames := t.frames[1..], retained := true));
  }

  lemma MachineGoesOn(m: Machine, decode: Decoder, s: Player, k: Kind, e: T.Event)
    requires Shows(m, decode, s) && LineCan(m.At(k), decode, e) && Shown(m.At(k), k, e).None?
    ensures Shows(m.With(k, LineAfter(m.At(k), e)), decode, s)
  {
    LineOf(m, decode, s, k);
    T.StepKeepsSetup(m.At(k).ring, e);
    RingStepRefines(m.At(k), decode, s.At(k), ToPush(s.hand, k), e);
    LineChanges(m, decode, s, k, LineAfter(m.At(k), e), s.At(k));
  }

  lemma RingRefines(m: Machine, decode: Decoder, s: Player, k: Kind, e: T.Event)
    requires Shows(m, decode, s) && Decodes(decode) && CanMove(m, decode, InRing(k, e))
    ensures var m' := Moved(m, decode, InRing(k, e));
            match Shown(m.At(k), k, e)
            case None => Shows(m', decode, s)
            case Some(a) => Can(s, a) && Shows(m', decode, Do(s, a))
  {
    if ShowsFrame(m.At(k).ring, e) { MachineStores(m, decode, s, k, e); }
    else if e.Look? { MachineLooks(m, decode, s, k); }
    else if e.PopStep? && m.At(k).ring.consumer.Holding? { MachinePops(m, decode, s, k); }
    else { MachineGoesOn(m, decode, s, k, e); }
  }

  lemma CarriesOne(order: T.Order, decode: Decoder, a: seq<R.XData>, b: seq<Packet>, x: R.XData, p: Packet)
    requires Carries(order, a, Frames(decode, b))
    requires x.size == decode(p).size && (order.SizeLast? ==> x == decode(p))
    ensures Carries(order, a + [x], Frames(decode, b + [p]))
  {
    assert Frames(decode, b + [p]) == Frames(decode, b) + [decode(p)];
  }

  lemma CarriesRest(order: T.Order, decode: Decoder, a: seq<R.XData>, b: seq<Packet>)
    requires Carries(order, a, Frames(decode, b)) && b != []
    ensures Carries(order, a[1..], Frames(decode, b[1..]))
    ensures a[0].size == decode(b[0]).size && (order.SizeLast? ==> a[0] == decode(b[0]))
  {
    assert Frames(decode, b)[1..] == Frames(decode, b[1..]) && Frames(decode, b)[0] == decode(b[0]);
  }

  lemma LineDelivers(l: Line, decode: Decoder, t: Track, toPush: Option<Packet>)
    requires LineShows(l, decode, t, toPush) && StageOf(l).Delivering? && T.WellShaped(l.ring)
    ensures t.stage.Delivering? && t.frames != [] && !t.frames[0].Other?
    ensures Found(l).size == decode(t.frames[0]).size && (l.ring.order.SizeLast? ==> Found(l) == decode(t.frames[0]))
    ensures LineShows(l.(delivered := true), decode, t.(stage := Popping), toPush)
  {
    RingRead(l.ring, decode, t.frames, t.retained);
  }

  lemma AudioDelivers(m: Machine, decode: Decoder, s: Player)
    requires Shows(m, decode, s) && CanMove(m, decode, Deliver(AudioTrack))
    ensures Can(s, DeliverFrame(AudioTrack))
    ensures Shows(Moved(m, decode, Deliver(AudioTrack)), decode, Do(s, DeliverFrame(AudioTrack)))
  {
    var l, t := m.audio, s.audio;
    LineDelivers(l, decode, t, ToPush(s.hand, AudioTrack));
    LineChanges(m, decode, s, AudioTrack, l.(delivered := true), t.(stage := Popping));
    CarriesOne(l.ring.order, decode, m.pcm, s.pcm, Found(l), t.frames[0]);
  }

  lemma VideoDelivers(m: Machine, decode: Decoder, s: Player)
    requires Shows(m, decode, s) && CanMove(m, decode, Deliver(VideoTrack))
    ensures Can(s, DeliverFrame(VideoTrack))
    ensures Shows(Moved(m, decode, Deliver(VideoTrack)), decode, Do(s, DeliverFrame(VideoTrack)))
  {
    var l, t := m.video, s.video;
    LineDelivers(l, decode, t, ToPush(s.hand, VideoTrack));
    LineChanges(m, decode, s, VideoTrack, l.(delivered := true), t.(stage := Popping));
    CarriesOne(l.ring.order, decode, m.shown, s.shown, Found(l), t.frames[0]);
  }

  lemma DeliverRefines(m: Machine, decode: Decoder, s: Player, k: Kind)
    requires Shows(m, decode, s) && CanMove(m, decode, Deliver(k))
    ensures Can(s, DeliverFrame(k)) && Shows(Moved(m, decode, Deliver(k)), decode, Do(s, DeliverFrame(k)))
  {
    match k
    case AudioTrack => AudioDelivers(m, decode, s);
    case VideoTrack => VideoDelivers(m, decode, s);
  }

  lemma QueueRefines(m: Machine, decode: Decoder, s: Player, k: Kind, e: B.Event<Packet>)
    requires Shows(m, decode, s) && CanMove(m, decode, InQueue(k, e))
    ensures var m' := Moved(m, decode, InQueue(k, e));
            match StepOf(m, InQueue(k, e))
            case None => Shows(m', decode, s)
            case Some(a) => Can(s, a) && Shows(m', decode, Do(s, a))
  {
    if StepOf(m, InQueue(k, e)).None? { InsideRefines(m, decode, s, k, e); }
    else if e.t == DEMUXER { PushRefines(m, decode, s, k); }
    else { PopRefines(m, decode, s, k, e.t); }
  }

  lemma PlayRefines(m: Machine, decode: Decoder, s: Player)
    requires Shows(m, decode, s) && CanMove(m, decode, Play)
    ensures Can(s, PlayPcm) && Shows(Moved(m, decode, Play), decode, Do(s, PlayPcm))
  {
    CarriesRest(m.audio.ring.order, decode, m.pcm, s.pcm);
    CarriesOne(m.audio.ring.order, decode, m.heard, s.heard, m.pcm[0], s.pcm[0]);
  }

  lemma OwnMoveRefines(m: Machine, decode: Decoder, s: Player, e: Move)
    requires Shows(m, decode, s) && CanMove(m, decode, e) && (e.Read? || e.Deliver? || e.Play?)
    ensures StepOf(m, e).Some?
    ensures var a := StepOf(m, e).value; Can(s, a) && Shows(Moved(m, decode, e), decode, Do(s, a))
  {
    match e
    case Read => ReadRefines(m, decode, s);
    case Deliver(k) => DeliverRefines(m, decode, s, k);
    case Play => PlayRefines(m, decode, s);
  }

  /** Every move is a step of the player, or none. */
  lemma MoveRefines(m: Machine, decode: Decoder, s: Player, e: Move)
    requires Shows(m, decode, s) && Decodes(decode) && CanMove(m, decode, e)
    ensures match StepOf(m, e)
            case None => Shows(Moved(m, decode, e), decode, s)
            case Some(a) => Can(s, a) && Shows(Moved(m, decode, e), decode, Do(s, a))
  {
    match e
    case InQueue(k, qe) => QueueRefines(m, decode, s, k, qe);
    case InRing(k, re) => RingRefines(m, decode, s, k, re);
    case _ => OwnMoveRefines(m, decode, s, e);
  }

  /** Every run of the machine is a run of the player. */
  lemma {:induction false} MachineRefines(m: Machine, decode: Decoder, s: Player, moves: seq<Move>)
    returns (steps: seq<Step>)
    requires Inv(s) && Shows(m, decode, s) && Decodes(decode)
    ensures Inv(Run(s, steps)) && Run(s, steps).input == s.input
    ensures Shows(MachineRun(m, decode, moves), decode, Run(s, steps))
    decreases moves
  {
    if moves == [] {
      steps := [];
    } else if !CanMove(m, decode, moves[0]) {
      steps := MachineRefines(m, decode, s, moves[1..]);
    } else {
      var e := moves[0];
      MoveRefines(m, decode, s, e);
      if StepOf(m, e).None? {
        steps := MachineRefines(Moved(m, decode, e), decode, s, moves[1..]);
      } else {
        var a := StepOf(m, e).value;
        StepKeepsInv(s, a);
        var rest := MachineRefines(Moved(m, decode, e), decode, Do(s, a), moves[1..]);
        steps := [a] + rest;
        assert steps[1..] == rest;
      }
    }
  }

  // ---------------------------------------------------------------------------------------------
  // What the machine does therefore
  // ---------------------------------------------------------------------------------------------

  /** Only spurious wakeups are left. */
  ghost predicate Still(m: Machine, decode: Decoder) {
    forall e: Move :: CanMove(m, decode, e) ==> e.InQueue? && e.e.Spurious?
  }

  lemma StillQueue(m: Machine, decode: Decoder, k: Kind)
    requires Still(m, decode)
    ensures forall t: B.Tid :: !B.Enabled(m.At(k).queue, B.Advance(t))
  {
    forall t: B.Tid ensures !B.Enabled(m.At(k).queue, B.Advance(t)) {
      assert !CanMove(m, decode, InQueue(k, B.Advance(t)));
    }
  }

  lemma StillCannotPush(m: Machine, decode: Decoder, s: Player)
    requires Shows(m, decode, s) && Still(m, decode)
    ensures !Can(s, PushPacket)
  {
    if s.hand.Some? {
      var k := KindOf(s.hand.value);
      LineOf(m, decode, s, k);
      StillQueue(m, decode, k);
      assert !CanMove(m, decode, InQueue(k, B.CallPush(DEMUXER, s.hand.value)));
      PushBlocks(m.At(k).queue, s.At(k).packets, ToPush(s.hand, k), m.At(k).hand.None?);
    }
  }

  /** No thread has a step in the ring but to look for a frame: the decoder has no frame or waits for a slot, and the
      sync thread is not in popFrame. */
  lemma IdleThreads(l: Line, decode: Decoder)
    requires T.WellShaped(l.ring) && InHand(l.ring, decode, l.hand)
    requires forall e: T.Event :: LineCan(l, decode, e) ==> e.Look?
    ensures if l.hand.None? then l.ring.producer.Decoding? else l.ring.producer.Waiting?
    ensures l.ring.consumer.Polling? || (l.ring.consumer.Holding? && !l.delivered)
  {
    assert !LineCan(l, decode, T.Peek) && !LineCan(l, decode, T.WakeUp) && !LineCan(l, decode, T.FinishWrite);
    assert l.hand.Some? ==> !LineCan(l, decode, T.Write(decode(l.hand.value)));
    assert !LineCan(l, decode, T.BumpWindex) && !LineCan(l, decode, T.CountPush) && !LineCan(l, decode, T.PopStep);
  }

  lemma ShownIsShaped(l: Line, decode: Decoder, t: Track, toPush: Option<Packet>)
    requires LineShows(l, decode, t, toPush)
    ensures T.WellShaped(l.ring) && InHand(l.ring, decode, l.hand)
  {}

  lemma StillThreads(m: Machine, decode: Decoder, s: Player, k: Kind)
    requires Shows(m, decode, s) && Still(m, decode)
    ensures var l := m.At(k);
            && T.WellShaped(l.ring)
            && (if l.hand.None? then l.ring.producer.Decoding? else l.ring.producer.Waiting?)
            && (l.ring.consumer.Polling? || (l.ring.consumer.Holding? && !l.delivered))
  {
    LineOf(m, decode, s, k);
    ShownIsShaped(m.At(k), decode, s.At(k), ToPush(s.hand, k));
    forall e: T.Event | LineCan(m.At(k), decode, e) ensures e.Look? {
      assert CanMove(m, decode, InRing(k, e)) || e.Look?;
    }
    IdleThreads(m.At(k), decode);
  }

  lemma StillCannotPop(m: Machine, decode: Decoder, s: Player, k: Kind)
    requires Shows(m, decode, s) && Still(m, decode)
    ensures !Can(s, PopPacket(k))
  {
    LineOf(m, decode, s, k);
    StillThreads(m, decode, s, k);
    if m.At(k).hand.None? {
      StillQueue(m, decode, k);
      assert !CanMove(m, decode, InQueue(k, B.CallPop(DECODER)));
      PopBlocks(m.At(k).queue, s.At(k).packets, ToPush(s.hand, k), true);
    }
  }

  lemma StillCannotStore(m: Machine, decode: Decoder, s: Player, k: Kind)
    requires Shows(m, decode, s) && Still(m, decode)
    ensures !Can(s, PushFrame(k))
  {
    LineOf(m, decode, s, k);
    StillThreads(m, decode, s, k);
    if m.At(k).hand.Some? {
      RingFull(m.At(k).ring, decode, s.At(k).frames, s.At(k).retained);
    }
  }

  lemma StillCannotTake(m: Machine, decode: Decoder, s: Player, k: Kind)
    requires Shows(m, decode, s) && Decodes(decode) && Still(m, decode)
    ensures !Can(s, TakeFrame(k))
  {
    LineOf(m, decode, s, k);
    StillThreads(m, decode, s, k);
    GatesAgree(m, decode, s);
    assert !CanMove(m, decode, InRing(k, T.Look));
    if m.At(k).ring.consumer.Polling? {
      RingLook(m.At(k).ring, decode, s.At(k).frames, s.At(k).retained);
    }
  }

  lemma StillCannotHandOn(m: Machine, decode: Decoder, s: Player, k: Kind)
    requires Shows(m, decode, s) && Still(m, decode)
    ensures !Can(s, DeliverFrame(k)) && !Can(s, PopFrame(k))
  {
    LineOf(m, decode, s, k);
    StillThreads(m, decode, s, k);
    assert !CanMove(m, decode, Deliver(k));
  }

  /** A machine that stands still shows a player that is stuck: the steps inside queues and rings add no way to
      block. */
  lemma StillIsStuck(m: Machine, decode: Decoder, s: Player)
    requires Shows(m, decode, s) && Decodes(decode) && Still(m, decode)
    ensures Stuck(s)
  {
    forall e: Step ensures !Can(s, e) {
      match e
      case ReadPacket => assert !CanMove(m, decode, Read);
      case PushPacket => StillCannotPush(m, decode, s);
      case PopPacket(k) => StillCannotPop(m, decode, s, k);
      case PlayPcm => assert !CanMove(m, decode, Play);
      case PushFrame(k) => StillCannotStore(m, decode, s, k);
      case TakeFrame(k) => StillCannotTake(m, decode, s, k);
      case DeliverFrame(k) => StillCannotHandOn(m, decode, s, k);
      case PopFrame(k) => StillCannotHandOn(m, decode, s, k);
    }
  }

  /** If the player has played the first packets of each kind, the machine has played their frames. */
  lemma FirstFrames(m: Machine, decode: Decoder, s: Player, a: seq<Packet>, v: seq<Packet>)
    requires PlayShows(m, decode, s) && s.heard <= a && s.shown <= v
    ensures m.shown <= Frames(decode, v)
    ensures T.SizesOf(m.heard, Frames(decode, a)) && (m.audio.ring.order.SizeLast? ==> m.heard <= Frames(decode, a))
  {}

  /** In every run of the machine the frames shown are those of the file's packets, in order; so are the frames
      heard, by number and size, and in all of their contents if the audio decoder stores the size last. */
  lemma MachinePlaysInOrder(input: seq<Packet>, decode: Decoder, unused: Double, order: T.Order, moves: seq<Move>)
    requires Decodes(decode)
    ensures var m := MachineRun(NewMachine(input, unused, order), decode, moves);
            && m.read <= |input|
            && m.shown <= Frames(decode, Only(VideoTrack, input[..m.read]))
            && T.SizesOf(m.heard, Frames(decode, Only(AudioTrack, input[..m.read])))
            && (order.SizeLast? ==> m.heard <= Frames(decode, Only(AudioTrack, input[..m.read])))
  {
    StartShows(input, decode, unused, order);
    StartInv(input);
    var steps := MachineRefines(NewMachine(input, unused, order), decode, Start(input), moves);
    OrderStays(NewMachine(input, unused, order), decode, moves);
    PlaysInOrder(input, steps);
    var s := Run(Start(input), steps);
    FirstFrames(MachineRun(NewMachine(input, unused, order), decode, moves), decode, s,
                Only(AudioTrack, input[..s.read]), Only(VideoTrack, input[..s.read]));
  }

  /** A file that never blocks is played to its end: when the machine stands still, everything was heard and
      shown. */
  lemma MachinePlaysAll(input: seq<Packet>, decode: Decoder, unused: Double, order: T.Order, moves: seq<Move>)
    requires Decodes(decode) && NeverBlocks(input)
    ensures var m := MachineRun(NewMachine(input, unused, order), decode, moves);
            Still(m, decode) ==>
              && m.shown == Frames(decode, Only(VideoTrack, input))
              && Carries(order, m.heard, Frames(decode, Only(AudioTrack, input)))
  {
    StartShows(input, decode, unused, order);
    StartInv(input);
    var steps := MachineRefines(NewMachine(input, unused, order), decode, Start(input), moves);
    OrderStays(NewMachine(input, unused, order), decode, moves);
    var m := MachineRun(NewMachine(input, unused, order), decode, moves);
    if Still(m, decode) {
      StillIsStuck(m, decode, Run(Start(input), steps));
      NeverStuck(Run(Start(input), steps));
    }
  }

  lemma MoveKeepsOrder(m: Machine, decode: Decoder, e: Move)
    ensures MachineNext(m, decode, e).audio.ring.order == m.audio.ring.order
  {
    if e.InRing? && CanMove(m, decode, e) {
      T.StepKeepsSetup(m.At(e.k).ring, e.ring);
    }
  }

  lemma {:induction false} OrderStays(m: Machine, decode: Decoder, moves: seq<Move>)
    ensures MachineRun(m, decode, moves).audio.ring.order == m.audio.ring.order
    decreases moves
  {
    if moves != [] {
      MoveKeepsOrder(m, decode, moves[0]);
      OrderStays(MachineNext(m, decode, moves[0]), decode, moves[1..]);
    }
  }
}
