/** The other direction of the refinement: every run of the player is one of the machine, with each call in one
    piece. So a file that blocks the player blocks the machine; and a run of the machine shows what the order of the
    audio decoder's stores decides. */
module PipelineRealization {
  import opened Doubles
  import opened Options
  import opened Pipeline
  import opened PipelineTheorems
  import opened PipelineRefinement
  import B = BoundedQueue
  import R = FrameRing
  import T = FrameRingThreads

  // ---------------------------------------------------------------------------------------------
  // Calls of push and pop
  // ---------------------------------------------------------------------------------------------

  /** Nobody is inside a call of the queue. */
  ghost predicate Calm(q: B.Queue<Packet>) {
    q.holder.None? && forall t: B.Tid :: q.At(t).Idle?
  }

  /** Nobody is inside a call of the ring. */
  predicate Quiet(q: T.System) {
    q.producer.Decoding? && (q.consumer.Polling? || q.consumer.Holding?)
  }

  ghost predicate AllRest(m: Machine) {
    && Calm(m.audio.queue) && Calm(m.video.queue)
    && Quiet(m.audio.ring) && Quiet(m.video.ring)
  }

  function Then(q: B.Queue<Packet>, t: B.Tid): B.Queue<Packet> {
    B.Next(q, B.Advance(t))
  }

  /** Nobody but `t` is inside a call. */
  ghost predicate Alone(q: B.Queue<Packet>, t: B.Tid) {
    forall u: B.Tid :: u != t ==> q.At(u).Idle?
  }

  lemma StaysAlone(q: B.Queue<Packet>, t: B.Tid)
    requires Alone(q, t) && B.Enabled(q, B.Advance(t))
    ensures Alone(Then(q, t), t)
    ensures B.Outcome(q, t).Some? ==> Calm(Then(q, t))
  {
    Places(q, t);
    var q' := Then(q, t);
    assert B.Outcome(q, t).Some? ==> q'.holder.None?;
    assert forall u: B.Tid :: !q'.At(u).Pushing() && !q'.At(u).Popping() ==> q'.At(u).Idle?;
  }

  /** A call that goes through: the event of the call, and three steps of the caller. */
  ghost predicate GoesThrough(q: B.Queue<Packet>, e: B.Event<Packet>, t: B.Tid) {
    var q1 := B.Next(q, e);
    var q2 := Then(q1, t);
    var q3 := Then(q2, t);
    && B.Enabled(q, e)
    && B.Enabled(q1, B.Advance(t)) && B.Outcome(q1, t).None?
    && B.Enabled(q2, B.Advance(t)) && B.Outcome(q2, t).None?
    && B.Enabled(q3, B.Advance(t)) && B.Outcome(q3, t).Some?
    && Calm(Then(q3, t))
  }

  lemma CallAlone(q: B.Queue<Packet>, t: B.Tid, pc: B.Thread<Packet>)
    requires Calm(q)
    ensures Alone(q.Move(t, pc), t) && q.Move(t, pc).At(t) == pc
  {
    forall u: B.Tid | u != t ensures q.Move(t, pc).At(u).Idle? {
      assert q.At(u).Idle?;
    }
  }

  /** A push that finds room, from its call to its return. */
  lemma PushGoesThrough(q: B.Queue<Packet>, p: Packet)
    requires Calm(q) && !q.quit && !q.finished && |q.contents| < q.capacity
    ensures GoesThrough(q, B.CallPush(DEMUXER, p), DEMUXER)
  {
    assert q.At(DEMUXER).Idle?;
    var q1 := B.Next(q, B.CallPush(DEMUXER, p));
    CallAlone(q, DEMUXER, B.PushStart(p));
    StaysAlone(q1, DEMUXER);
    var q2 := Then(q1, DEMUXER);
    assert q2.At(DEMUXER) == B.PushLocked(p);
    StaysAlone(q2, DEMUXER);
    var q3 := Then(q2, DEMUXER);
    assert q3.At(DEMUXER) == B.PushOpen(p);
    StaysAlone(q3, DEMUXER);
  }

  lemma PopGoesThrough(q: B.Queue<Packet>)
    requires Calm(q) && !q.quit && q.contents != []
    ensures GoesThrough(q, B.CallPop(DECODER), DECODER)
  {
    assert q.At(DECODER).Idle?;
    var q1 := B.Next(q, B.CallPop(DECODER));
    CallAlone(q, DECODER, B.PopStart);
    StaysAlone(q1, DECODER);
    var q2 := Then(q1, DECODER);
    assert q2.At(DECODER) == B.PopLocked;
    StaysAlone(q2, DECODER);
    var q3 := Then(q2, DECODER);
    assert q3.At(DECODER) == B.PopOpen;
    StaysAlone(q3, DECODER);
  }

  function Call(k: Kind, e: B.Event<Packet>, t: B.Tid): seq<Move> {
    [InQueue(k, e), InQueue(k, B.Advance(t)), InQueue(k, B.Advance(t)), InQueue(k, B.Advance(t))]
  }

  /** The machine after an event of a queue at which no call returns. */
  function Inside(m: Machine, k: Kind, e: B.Event<Packet>): Machine {
    m.With(k, m.At(k).(queue := B.Next(m.At(k).queue, e)))
  }

  lemma InsideMoves(m: Machine, decode: Decoder, k: Kind, e: B.Event<Packet>)
    requires CanMove(m, decode, InQueue(k, e)) && (e.Advance? ==> B.Outcome(m.At(k).queue, e.t).None?)
    ensures Moved(m, decode, InQueue(k, e)) == Inside(m, k, e)
    ensures Inside(m, k, e).At(k).queue == B.Next(m.At(k).queue, e)
  {}

  /** The machine before the call's last step. */
  function Returning(m: Machine, k: Kind, e: B.Event<Packet>, t: B.Tid): Machine {
    Inside(Inside(Inside(m, k, e), k, B.Advance(t)), k, B.Advance(t))
  }

  lemma CallRuns(m: Machine, decode: Decoder, k: Kind, e: B.Event<Packet>, t: B.Tid)
    requires CanMove(m, decode, InQueue(k, e)) && (e.CallPush? || e.CallPop?) && GoesThrough(m.At(k).queue, e, t)
    ensures var m3, last := Returning(m, k, e, t), InQueue(k, B.Advance(t));
            && CanMove(m3, decode, last) && B.Outcome(m3.At(k).queue, t).Some?
            && MachineRun(m, decode, Call(k, e, t)) == Moved(m3, decode, last)
            && Calm(B.Next(m3.At(k).queue, B.Advance(t)))
  {
    InsideMoves(m, decode, k, e);
    var m1 := Inside(m, k, e);
    InsideMoves(m1, decode, k, B.Advance(t));
    var m2 := Inside(m1, k, B.Advance(t));
    InsideMoves(m2, decode, k, B.Advance(t));
    RunsFour(m, decode, Call(k, e, t));
  }

  lemma InsideShows(m: Machine, decode: Decoder, s: Player, k: Kind, e: B.Event<Packet>)
    requires Shows(m, decode, s) && CanMove(m, decode, InQueue(k, e))
    requires e.Advance? ==> B.Outcome(m.At(k).queue, e.t).None?
    ensures Shows(Inside(m, k, e), decode, s)
  {
    InsideRefines(m, decode, s, k, e);
    InsideMoves(m, decode, k, e);
  }

  lemma CallShows(m: Machine, decode: Decoder, s: Player, k: Kind, e: B.Event<Packet>, t: B.Tid)
    requires Shows(m, decode, s)
    requires CanMove(m, decode, InQueue(k, e)) && (e.CallPush? || e.CallPop?) && GoesThrough(m.At(k).queue, e, t)
    ensures Shows(Returning(m, k, e, t), decode, s)
  {
    InsideShows(m, decode, s, k, e);
    InsideMoves(m, decode, k, e);
    var m1 := Inside(m, k, e);
    InsideShows(m1, decode, s, k, B.Advance(t));
    InsideMoves(m1, decode, k, B.Advance(t));
    InsideShows(Inside(m1, k, B.Advance(t)), decode, s, k, B.Advance(t));
  }

  lemma CallEndsAtRest(m: Machine, decode: Decoder, k: Kind, e: B.Event<Packet>, t: B.Tid)
    requires AllRest(m) && Calm(B.Next(Returning(m, k, e, t).At(k).queue, B.Advance(t)))
    requires CanMove(Returning(m, k, e, t), decode, InQueue(k, B.Advance(t)))
    ensures AllRest(Moved(Returning(m, k, e, t), decode, InQueue(k, B.Advance(t))))
  {
    ReturnKeepsOther(Returning(m, k, e, t), decode, k, t);
  }

  lemma ReturnKeepsOther(m: Machine, decode: Decoder, k: Kind, t: B.Tid)
    requires CanMove(m, decode, InQueue(k, B.Advance(t)))
    ensures var m' := Moved(m, decode, InQueue(k, B.Advance(t)));
            && m'.At(k).queue == Then(m.At(k).queue, t) && m'.At(k).ring == m.At(k).ring
            && forall j: Kind :: j != k ==> m'.At(j) == m.At(j)
  {}

  lemma RunsFour(m: Machine, decode: Decoder, e: seq<Move>)
    requires |e| == 4 && CanMove(m, decode, e[0])
    requires var m1 := Moved(m, decode, e[0]);
             CanMove(m1, decode, e[1]) && (
               var m2 := Moved(m1, decode, e[1]);
               CanMove(m2, decode, e[2]) && CanMove(Moved(m2, decode, e[2]), decode, e[3]))
    ensures MachineRun(m, decode, e)
            == Moved(Moved(Moved(Moved(m, decode, e[0]), decode, e[1]), decode, e[2]), decode, e[3])
  {
    var m1 := Moved(m, decode, e[0]);
    var m2 := Moved(m1, decode, e[1]);
    var m3 := Moved(m2, decode, e[2]);
    assert MachineRun(m, decode, e) == MachineRun(m1, decode, e[1..]);
    assert MachineRun(m1, decode, e[1..]) == MachineRun(m2, decode, e[1..][1..]);
    assert MachineRun(m2, decode, e[1..][1..]) == MachineRun(m3, decode, e[1..][1..][1..]);
    assert MachineRun(m3, decode, e[1..][1..][1..]) == MachineRun(Moved(m3, decode, e[3]), decode, []);
  }

  lemma PushIsRealized(m: Machine, decode: Decoder, s: Player, p: Packet, k: Kind)
    requires Shows(m, decode, s) && AllRest(m) && Can(s, PushPacket)
    requires p == s.hand.value && k == KindOf(p)
    ensures var m' := MachineRun(m, decode, Call(k, B.CallPush(DEMUXER, p), DEMUXER));
            Shows(m', decode, Do(s, PushPacket)) && AllRest(m')
  {
    LineOf(m, decode, s, k);
    QueueOf(m.At(k), decode, s.At(k), ToPush(s.hand, k));
    PushGoesThrough(m.At(k).queue, p);
    CallRuns(m, decode, k, B.CallPush(DEMUXER, p), DEMUXER);
    CallShows(m, decode, s, k, B.CallPush(DEMUXER, p), DEMUXER);
    CallEndsAtRest(m, decode, k, B.CallPush(DEMUXER, p), DEMUXER);
    PushRefines(Returning(m, k, B.CallPush(DEMUXER, p), DEMUXER), decode, s, k);
  }

  lemma QueueOf(l: Line, decode: Decoder, t: Track, toPush: Option<Packet>)
    requires LineShows(l, decode, t, toPush)
    ensures |l.queue.contents| == |t.packets| && l.queue.capacity == PACKETS && !l.queue.quit && !l.queue.finished
    ensures Quiet(l.ring) ==> t.hand == l.hand
  {
    assert |Values(l.queue.contents)| == |t.packets|;
  }

  lemma PopIsRealized(m: Machine, decode: Decoder, s: Player, k: Kind)
    requires Shows(m, decode, s) && AllRest(m) && Can(s, PopPacket(k))
    ensures var m' := MachineRun(m, decode, Call(k, B.CallPop(DECODER), DECODER));
            Shows(m', decode, Do(s, PopPacket(k))) && AllRest(m')
  {
    LineOf(m, decode, s, k);
    QueueOf(m.At(k), decode, s.At(k), ToPush(s.hand, k));
    PopGoesThrough(m.At(k).queue);
    CallRuns(m, decode, k, B.CallPop(DECODER), DECODER);
    CallShows(m, decode, s, k, B.CallPop(DECODER), DECODER);
    CallEndsAtRest(m, decode, k, B.CallPop(DECODER), DECODER);
    PopRefines(Returning(m, k, B.CallPop(DECODER), DECODER), decode, s, k, DECODER);
  }

  // ---------------------------------------------------------------------------------------------
  // Calls of peekWritable with pushFrame, and of popFrame
  // ---------------------------------------------------------------------------------------------

  function LineNext(l: Line, decode: Decoder, e: T.Event): Line {
    if LineCan(l, decode, e) then LineAfter(l, e) else l
  }

  function LineRun(l: Line, decode: Decoder, events: seq<T.Event>): Line
    decreases events
  {
    if events == [] then l else LineRun(LineNext(l, decode, events[0]), decode, events[1..])
  }

  function InRings(k: Kind, events: seq<T.Event>): seq<Move> {
    seq(|events|, i requires 0 <= i < |events| => InRing(k, events[i]))
  }

  lemma {:induction false} LineRuns(m: Machine, decode: Decoder, k: Kind, events: seq<T.Event>)
    requires forall e :: e in events ==> !e.Look?
    ensures MachineRun(m, decode, InRings(k, events)) == m.With(k, LineRun(m.At(k), decode, events))
    decreases events
  {
    if events != [] {
      assert InRings(k, events)[1..] == InRings(k, events[1..]);
      var m1 := MachineNext(m, decode, InRing(k, events[0]));
      assert events[0] in events;
      assert m1 == m.With(k, LineNext(m.At(k), decode, events[0]));
      LineRuns(m1, decode, k, events[1..]);
    }
  }

  /** A frame is brought into the ring. */
  function Storing(x: R.XData): seq<T.Event> {
    [T.Peek, T.Write(x), T.FinishWrite, T.BumpWindex, T.CountPush]
  }

  lemma RunsFive(l: Line, decode: Decoder, x: R.XData)
    ensures var l2 := LineNext(LineNext(l, decode, T.Peek), decode, T.Write(x));
            LineRun(l, decode, Storing(x))
            == LineNext(LineNext(LineNext(l2, decode, T.FinishWrite), decode, T.BumpWindex), decode, T.CountPush)
  {
    var l1 := LineNext(l, decode, T.Peek);
    var l2 := LineNext(l1, decode, T.Write(x));
    var l3 := LineNext(l2, decode, T.FinishWrite);
    var l4 := LineNext(l3, decode, T.BumpWindex);
    assert Storing(x)[1..] == [T.Write(x), T.FinishWrite, T.BumpWindex, T.CountPush];
    assert Storing(x)[1..][1..] == [T.FinishWrite, T.BumpWindex, T.CountPush];
    assert LineRun(l, decode, Storing(x)) == LineRun(l1, decode, Storing(x)[1..]);
    assert LineRun(l1, decode, Storing(x)[1..]) == LineRun(l2, decode, [T.FinishWrite, T.BumpWindex, T.CountPush]);
    assert [T.FinishWrite, T.BumpWindex, T.CountPush][1..] == [T.BumpWindex, T.CountPush];
    assert LineRun(l2, decode, [T.FinishWrite, T.BumpWindex, T.CountPush])
        == LineRun(l3, decode, [T.BumpWindex, T.CountPush]);
    assert [T.BumpWindex, T.CountPush][1..] == [T.CountPush] && [T.CountPush][1..] == [];
    assert LineRun(l3, decode, [T.BumpWindex, T.CountPush]) == LineRun(l4, decode, [T.CountPush]);
    assert LineRun(l4, decode, [T.CountPush]) == LineRun(LineNext(l4, decode, T.CountPush), decode, []);
  }

  /** Only the decoder moved between the lines. */
  predicate SameSync(l: Line, l': Line) {
    && l'.queue == l.queue && l'.ring.order == l.ring.order && l'.ring.consumer == l.ring.consumer
    && l'.hand == l.hand && l'.delivered == l.delivered
  }

  lemma SlotIsGot(l: Line, decode: Decoder, t: Track, toPush: Option<Packet>)
    requires LineShows(l, decode, t, toPush) && Quiet(l.ring) && t.hand.Some? && t.Size() < FRAMES
    ensures LineCan(l, decode, T.Peek)
    ensures var l' := LineAfter(l, T.Peek);
            LineShows(l', decode, t, toPush) && SameSync(l, l') && l'.ring.producer.Writing?
  {
    RingRoom(l.ring, decode, t.frames, t.retained);
    ShownIsShaped(l, decode, t, toPush);
    RingStepRefines(l, decode, t, toPush, T.Peek);
  }

  function WithFrame(t: Track): Track
    requires t.hand.Some?
  {
    t.(frames := t.frames + [t.hand.value], hand := None)
  }

  /** Both stores, one of which is that of the size. */
  lemma SlotIsFilled(l: Line, decode: Decoder, t: Track, toPush: Option<Packet>)
    requires LineShows(l, decode, t, toPush) && l.ring.producer.Writing? && t.hand.Some? && l.hand == t.hand
    ensures var w := T.Write(decode(t.hand.value));
            LineCan(l, decode, w) && LineCan(LineAfter(l, w), decode, T.FinishWrite) && (
              var l' := LineAfter(LineAfter(l, w), T.FinishWrite);
              LineShows(l', decode, WithFrame(t), toPush) && SameSync(l, l') && l'.ring.producer.Filled?)
  {
    var w := T.Write(decode(t.hand.value));
    ShownIsShaped(l, decode, t, toPush);
    if l.ring.order.SizeFirst? {
      StoreRefines(l, decode, t, toPush, w);
      RingStepRefines(LineAfter(l, w), decode, WithFrame(t), toPush, T.FinishWrite);
    } else {
      RingStepRefines(l, decode, t, toPush, w);
      StoreRefines(LineAfter(l, w), decode, t, toPush, T.FinishWrite);
    }
  }

  lemma FrameIsPushed(l: Line, decode: Decoder, t: Track, toPush: Option<Packet>)
    requires LineShows(l, decode, t, toPush) && l.ring.producer.Filled?
    requires l.ring.consumer.Polling? || l.ring.consumer.Holding?
    ensures LineCan(l, decode, T.BumpWindex) && LineCan(LineAfter(l, T.BumpWindex), decode, T.CountPush)
    ensures var l' := LineAfter(LineAfter(l, T.BumpWindex), T.CountPush);
            LineShows(l', decode, t, toPush) && Quiet(l'.ring) && l'.queue == l.queue && l'.ring.order == l.ring.order
  {
    ShownIsShaped(l, decode, t, toPush);
    RingStepRefines(l, decode, t, toPush, T.BumpWindex);
    ShownIsShaped(LineAfter(l, T.BumpWindex), decode, t, toPush);
    RingStepRefines(LineAfter(l, T.BumpWindex), decode, t, toPush, T.CountPush);
  }

  lemma StoreOnLine(l: Line, decode: Decoder, t: Track, toPush: Option<Packet>)
    requires LineShows(l, decode, t, toPush) && Quiet(l.ring) && t.hand.Some? && t.Size() < FRAMES
    ensures var l' := LineRun(l, decode, Storing(decode(t.hand.value)));
            LineShows(l', decode, WithFrame(t), toPush) && Quiet(l'.ring) && l'.queue == l.queue
            && l'.ring.order == l.ring.order
  {
    var x := decode(t.hand.value);
    QueueOf(l, decode, t, toPush);
    SlotIsGot(l, decode, t, toPush);
    var l1 := LineAfter(l, T.Peek);
    SlotIsFilled(l1, decode, t, toPush);
    var l3 := LineAfter(LineAfter(l1, T.Write(x)), T.FinishWrite);
    FrameIsPushed(l3, decode, WithFrame(t), toPush);
    RunsFive(l, decode, x);
  }

  lemma StoreIsRealized(m: Machine, decode: Decoder, s: Player, k: Kind)
    requires Shows(m, decode, s) && AllRest(m) && Can(s, PushFrame(k))
    ensures var m' := MachineRun(m, decode, InRings(k, Storing(decode(s.At(k).hand.value))));
            Shows(m', decode, Do(s, PushFrame(k))) && AllRest(m')
  {
    LineOf(m, decode, s, k);
    var x := decode(s.At(k).hand.value);
    StoreOnLine(m.At(k), decode, s.At(k), ToPush(s.hand, k));
    LineRuns(m, decode, k, Storing(x));
    LineChanges(m, decode, s, k, LineRun(m.At(k), decode, Storing(x)), WithFrame(s.At(k)));
  }

  const POPPING := [T.PopStep, T.PopStep, T.PopStep]

  lemma RunsThree(l: Line, decode: Decoder)
    ensures LineRun(l, decode, POPPING)
            == LineNext(LineNext(LineNext(l, decode, T.PopStep), decode, T.PopStep), decode, T.PopStep)
  {
    var l1 := LineNext(l, decode, T.PopStep);
    var l2 := LineNext(l1, decode, T.PopStep);
    assert POPPING[1..] == [T.PopStep, T.PopStep] && [T.PopStep, T.PopStep][1..] == [T.PopStep];
    assert LineRun(l, decode, POPPING) == LineRun(l1, decode, [T.PopStep, T.PopStep]);
    assert LineRun(l1, decode, [T.PopStep, T.PopStep]) == LineRun(l2, decode, [T.PopStep]);
    assert [T.PopStep][1..] == [];
    assert LineRun(l2, decode, [T.PopStep]) == LineRun(LineNext(l2, decode, T.PopStep), decode, []);
  }

  function WithoutFrame(t: Track): Track
    requires t.frames != []
  {
    t.(stage := Polling, frames := t.frames[1..], retained := true)
  }

  /** popFrame after its first step, which is its last if nothing was retained. */
  lemma PopGoesOn(l: Line, decode: Decoder, t: Track, toPush: Option<Packet>)
    requires LineShows(l, decode, t, toPush) && l.ring.producer.Decoding?
    requires l.ring.consumer.Polling? || l.ring.consumer.Unrefed?
    ensures var l' := LineNext(LineNext(l, decode, T.PopStep), decode, T.PopStep);
            LineShows(l', decode, t, toPush) && Quiet(l'.ring) && l'.queue == l.queue && l'.ring.order == l.ring.order
  {
    if l.ring.consumer.Unrefed? {
      ShownIsShaped(l, decode, t, toPush);
      RingStepRefines(l, decode, t, toPush, T.PopStep);
      var l1 := LineAfter(l, T.PopStep);
      ShownIsShaped(l1, decode, t, toPush);
      RingStepRefines(l1, decode, t, toPush, T.PopStep);
    }
  }

  lemma PopOnLine(l: Line, decode: Decoder, t: Track, toPush: Option<Packet>)
    requires LineShows(l, decode, t, toPush) && Quiet(l.ring) && t.stage.Popping?
    ensures t.frames != []
    ensures var l' := LineRun(l, decode, POPPING);
            LineShows(l', decode, WithoutFrame(t), toPush) && Quiet(l'.ring) && l'.queue == l.queue
            && l'.ring.order == l.ring.order
  {
    ShownIsShaped(l, decode, t, toPush);
    PopFrameRefines(l, decode, t, toPush);
    PopGoesOn(LineAfter(l, T.PopStep), decode, WithoutFrame(t), toPush);
    RunsThree(l, decode);
  }

  lemma PopFrameIsRealized(m: Machine, decode: Decoder, s: Player, k: Kind)
    requires Shows(m, decode, s) && AllRest(m) && Can(s, PopFrame(k))
    ensures var m' := MachineRun(m, decode, InRings(k, POPPING));
            Shows(m', decode, Do(s, PopFrame(k))) && AllRest(m')
  {
    LineOf(m, decode, s, k);
    PopOnLine(m.At(k), decode, s.At(k), ToPush(s.hand, k));
    LineRuns(m, decode, k, POPPING);
    LineChanges(m, decode, s, k, LineRun(m.At(k), decode, POPPING), WithoutFrame(s.At(k)));
  }

  // ---------------------------------------------------------------------------------------------
  // Every run of the player
  // ---------------------------------------------------------------------------------------------

  function MoveOf(a: Step): Move {
    match a
    case TakeFrame(k) => InRing(k, T.Look)
    case DeliverFrame(k) => Deliver(k)
    case PlayPcm => Play
    case _ => Read
  }

  /** What a player finds in its ring, the machine finds there too. */
  lemma LookIsPossible(m: Machine, decode: Decoder, s: Player, k: Kind)
    requires Shows(m, decode, s) && Decodes(decode) && AllRest(m) && Can(s, TakeFrame(k))
    ensures CanMove(m, decode, InRing(k, T.Look))
  {
    LineOf(m, decode, s, k);
    GatesAgree(m, decode, s);
    ShownIsShaped(m.At(k), decode, s.At(k), ToPush(s.hand, k));
    RingLook(m.At(k).ring, decode, s.At(k).frames, s.At(k).retained);
  }

  lemma DeliverIsPossible(m: Machine, decode: Decoder, s: Player, k: Kind)
    requires Shows(m, decode, s) && Can(s, DeliverFrame(k))
    ensures CanMove(m, decode, Deliver(k))
  {
    LineOf(m, decode, s, k);
    ShownIsShaped(m.At(k), decode, s.At(k), ToPush(s.hand, k));
  }

  predicate OneMove(a: Step) {
    a.ReadPacket? || a.TakeFrame? || a.DeliverFrame? || a.PlayPcm?
  }

  lemma MoveIsPossible(m: Machine, decode: Decoder, s: Player, a: Step)
    requires Shows(m, decode, s) && Decodes(decode) && AllRest(m) && Can(s, a) && OneMove(a)
    ensures CanMove(m, decode, MoveOf(a)) && StepOf(m, MoveOf(a)) == Some(a)
  {
    match a
    case TakeFrame(k) => LookIsPossible(m, decode, s, k);
    case DeliverFrame(k) => DeliverIsPossible(m, decode, s, k);
    case _ =>
  }

  lemma RunsOne(m: Machine, decode: Decoder, e: Move)
    ensures MachineRun(m, decode, [e]) == MachineNext(m, decode, e)
  {
    assert [e][1..] == [];
  }

  lemma OtherIsRealized(m: Machine, decode: Decoder, s: Player, a: Step)
    requires Shows(m, decode, s) && Decodes(decode) && AllRest(m) && Can(s, a) && OneMove(a)
    ensures var m' := MachineRun(m, decode, [MoveOf(a)]); Shows(m', decode, Do(s, a)) && AllRest(m')
  {
    MoveIsPossible(m, decode, s, a);
    RunsOne(m, decode, MoveOf(a));
    MoveRefines(m, decode, s, MoveOf(a));
    MovesAtRest(m, decode, MoveOf(a));
  }

  lemma MovesAtRest(m: Machine, decode: Decoder, e: Move)
    requires AllRest(m) && CanMove(m, decode, e)
    requires e.Read? || (e.InRing? && e.ring.Look?) || e.Deliver? || e.Play?
    ensures AllRest(Moved(m, decode, e))
  {}

  /** Every step of the player is one move, or a whole call, of a machine with nobody inside a call. */
  lemma StepIsRealized(m: Machine, decode: Decoder, s: Player, a: Step) returns (moves: seq<Move>)
    requires Shows(m, decode, s) && Decodes(decode) && AllRest(m) && Can(s, a)
    ensures Shows(MachineRun(m, decode, moves), decode, Do(s, a)) && AllRest(MachineRun(m, decode, moves))
  {
    match a
    case PushPacket =>
      var k := KindOf(s.hand.value);
      PushIsRealized(m, decode, s, s.hand.value, k);
      moves := Call(k, B.CallPush(DEMUXER, s.hand.value), DEMUXER);
    case PopPacket(k) =>
      PopIsRealized(m, decode, s, k);
      moves := Call(k, B.CallPop(DECODER), DECODER);
    case PushFrame(k) =>
      StoreIsRealized(m, decode, s, k);
      moves := InRings(k, Storing(decode(s.At(k).hand.value)));
    case PopFrame(k) =>
      PopFrameIsRealized(m, decode, s, k);
      moves := InRings(k, POPPING);
    case _ =>
      OtherIsRealized(m, decode, s, a);
      moves := [MoveOf(a)];
  }

  /** Every run of the player is a run of the machine. */
  lemma {:induction false} RunIsRealized(m: Machine, decode: Decoder, s: Player, steps: seq<Step>)
    returns (moves: seq<Move>)
    requires Inv(s) && Shows(m, decode, s) && Decodes(decode) && AllRest(m)
    ensures Inv(Run(s, steps)) && Run(s, steps).input == s.input
    ensures Shows(MachineRun(m, decode, moves), decode, Run(s, steps)) && AllRest(MachineRun(m, decode, moves))
    decreases steps
  {
    RunKeepsInv(s, steps);
    if steps == [] {
      moves := [];
    } else if !Can(s, steps[0]) {
      moves := RunIsRealized(m, decode, s, steps[1..]);
    } else {
      var first := StepIsRealized(m, decode, s, steps[0]);
      StepKeepsInv(s, steps[0]);
      var rest := RunIsRealized(MachineRun(m, decode, first), decode, Do(s, steps[0]), steps[1..]);
      moves := first + rest;
      MachineRunSplits(m, decode, first, rest);
    }
  }

  lemma {:induction false} MachineRunSplits(m: Machine, decode: Decoder, a: seq<Move>, b: seq<Move>)
    ensures MachineRun(m, decode, a + b) == MachineRun(MachineRun(m, decode, a), decode, b)
    decreases a
  {
    if a == [] {
      assert a + b == b;
    } else {
      assert (a + b)[1..] == a[1..] + b;
      MachineRunSplits(MachineNext(m, decode, a[0]), decode, a[1..], b);
    }
  }

  lemma StartRests(input: seq<Packet>, unused: Double, order: T.Order)
    ensures AllRest(NewMachine(input, unused, order))
  {}

  // ---------------------------------------------------------------------------------------------
  // A file that blocks the player blocks the machine
  // ---------------------------------------------------------------------------------------------

  /** A stuck player stays what it is, whatever goes on inside the calls. */
  lemma {:induction false} StuckForever(m: Machine, decode: Decoder, s: Player, more: seq<Move>)
    requires Shows(m, decode, s) && Decodes(decode) && Stuck(s)
    ensures Shows(MachineRun(m, decode, more), decode, s)
    decreases more
  {
    if more != [] {
      if CanMove(m, decode, more[0]) {
        MoveRefines(m, decode, s, more[0]);
      }
      StuckForever(MachineNext(m, decode, more[0]), decode, s, more[1..]);
    }
  }

  /** A file that blocks the player: a run of the machine leads to where no continuation plays it all. */
  lemma MachineBlocks(input: seq<Packet>, decode: Decoder, unused: Double, order: T.Order) returns (moves: seq<Move>)
    requires Decodes(decode) && !NeverBlocks(input)
    ensures forall more: seq<Move> ::
              var m := MachineRun(NewMachine(input, unused, order), decode, moves + more);
              |m.heard| + |m.shown| < |Only(AudioTrack, input)| + |Only(VideoTrack, input)|
  {
    var z: nat :| z <= |input| && ClosesAt(input, z) && !Fits(input, z);
    var steps := BlockedFileBlocks(input, z);
    var s, m0 := Run(Start(input), steps), NewMachine(input, unused, order);
    StartInv(input);
    StartShows(input, decode, unused, order);
    StartRests(input, unused, order);
    moves := RunIsRealized(m0, decode, Start(input), steps);
    PlayedLess(s);
    forall more: seq<Move>
      ensures var m := MachineRun(m0, decode, moves + more);
              |m.heard| + |m.shown| < |Only(AudioTrack, input)| + |Only(VideoTrack, input)|
    {
      MachineRunSplits(m0, decode, moves, more);
      StuckForever(MachineRun(m0, decode, moves), decode, s, more);
    }
  }

  /** And of a file that no schedule plays, no run of the machine plays it all. */
  lemma MachineNeverPlays(input: seq<Packet>, decode: Decoder, unused: Double, order: T.Order, moves: seq<Move>)
    requires Decodes(decode) && !Playable(input)
    ensures var m := MachineRun(NewMachine(input, unused, order), decode, moves);
            |m.heard| + |m.shown| < |Only(AudioTrack, input)| + |Only(VideoTrack, input)|
  {
    StartInv(input);
    StartShows(input, decode, unused, order);
    var steps := MachineRefines(NewMachine(input, unused, order), decode, Start(input), moves);
    UnplayableNeverPlays(input, steps);
    PlayedLess(Run(Start(input), steps));
  }

  /** What was played is part of the file, so all of it is there if as much of it is. */
  lemma PlayedLess(s: Player)
    requires Inv(s) && !AllPlayed(s)
    ensures |s.heard| + |s.shown| < |Only(AudioTrack, s.input)| + |Only(VideoTrack, s.input)|
  {
    OnlyGrows(AudioTrack, s.input, s.read, |s.input|);
    OnlyGrows(VideoTrack, s.input, s.read, |s.input|);
    assert s.input[..|s.input|] == s.input;
    assert s.heard <= Only(AudioTrack, s.input) && s.shown <= Only(VideoTrack, s.input);
  }

  // ---------------------------------------------------------------------------------------------
  // What the order of the audio decoder's stores decides
  // ---------------------------------------------------------------------------------------------

  /** The frames heard are those of the audio packets read, in order and with all of their contents. */
  predicate HeardAsWritten(m: Machine, decode: Decoder) {
    m.read <= |m.input| && m.heard <= Frames(decode, Only(AudioTrack, m.input[..m.read]))
  }

  /** Nothing was written to the ring except together with a frame, and nothing consumed but is retained. */
  predicate Fresh(q: T.System, unused: Double) {
    && q.order.SizeFirst? && q.ring.keepLast
    && (q.filled == [] ==>
          !q.producer.Storing? && forall i :: 0 <= i < |q.ring.slots| ==> q.ring.slots[i].pts == unused)
    && (q.consumed != [] ==> q.ring.showIndex > 0)
  }

  lemma StepKeepsFresh(q: T.System, unused: Double, e: T.Event)
    requires Fresh(q, unused) && T.WellShaped(q)
    ensures Fresh(T.Next(q, e), unused)
  {}

  lemma MoveKeepsFresh(m: Machine, decode: Decoder, unused: Double, e: Move)
    requires Fresh(m.audio.ring, unused)
    ensures Fresh(MachineNext(m, decode, e).audio.ring, unused) && MachineNext(m, decode, e).input == m.input
  {
    if e.InRing? && e.k.AudioTrack? && CanMove(m, decode, e) {
      StepKeepsFresh(m.At(AudioTrack).ring, unused, e.ring);
    }
  }

  lemma {:induction false} RunKeepsFresh(m: Machine, decode: Decoder, unused: Double, moves: seq<Move>)
    requires Fresh(m.audio.ring, unused)
    ensures Fresh(MachineRun(m, decode, moves).audio.ring, unused) && MachineRun(m, decode, moves).input == m.input
    decreases moves
  {
    if moves != [] {
      MoveKeepsFresh(m, decode, unused, moves[0]);
      RunKeepsFresh(MachineNext(m, decode, moves[0]), decode, unused, moves[1..]);
    }
  }

  /** A ring that shows nothing and retains nothing was never written. */
  lemma NeverWritten(q: T.System, decode: Decoder, unused: Double)
    requires RingShows(q, decode, [], false) && Fresh(q, unused)
    ensures q.filled == []
    ensures forall i :: 0 <= i < |q.ring.slots| ==> q.ring.slots[i].pts == unused
  {
    assert |q.filled[|q.consumed|..]| == |Frames(decode, [])| == 0;
  }

  /** The audio thread takes the decoder's frame between the two stores, and it is heard. */
  function Hasty(x: R.XData): seq<Move> {
    [InRing(AudioTrack, T.Peek), InRing(AudioTrack, T.Write(x)), InRing(AudioTrack, T.Look), Deliver(AudioTrack), Play]
  }

  /** A line whose decoder has a frame for a ring that was never written. */
  ghost predicate AboutToStore(l: Line, decode: Decoder, unused: Double) {
    && RingShows(l.ring, decode, [], false) && Fresh(l.ring, unused)
    && Quiet(l.ring) && l.ring.consumer.Polling? && l.hand.Some? && !l.delivered && decode(l.hand.value).size > 0
  }

  lemma HastyLine(l: Line, decode: Decoder, unused: Double)
    requires AboutToStore(l, decode, unused)
    ensures var x := decode(l.hand.value);
            LineCan(l, decode, T.Peek) && (
              var l1 := LineAfter(l, T.Peek);
              LineCan(l1, decode, T.Write(x)) && (
                var l2 := LineAfter(l1, T.Write(x));
                LineCan(l2, decode, T.Look) && (
                  var l3 := LineAfter(l2, T.Look);
                  T.WellShaped(l3.ring) && StageOf(l3).Delivering? && Found(l3) == R.XData(x.size, unused))))
  {
    NeverWritten(l.ring, decode, unused);
    RingRoom(l.ring, decode, [], false);
    RingCounts(l.ring, decode, [], false);
    var q := l.ring.ring;
    R.ModIsWrap(q.rindex, FRAMES);
    assert q.windex == q.rindex == R.Current(q);
  }

  lemma HastyMoves(m: Machine, decode: Decoder, unused: Double)
    requires AboutToStore(m.audio, decode, unused) && m.GateOpen() && m.pcm == []
    ensures var x := decode(m.audio.hand.value);
            var m' := MachineRun(m, decode, Hasty(x));
            m'.heard == m.heard + [R.XData(x.size, unused)] && m'.input == m.input && m'.read == m.read
  {
    HastyLine(m.audio, decode, unused);
    var x := decode(m.audio.hand.value);
    var m1 := MachineNext(m, decode, Hasty(x)[0]);
    var m2 := MachineNext(m1, decode, Hasty(x)[1]);
    var m3 := MachineNext(m2, decode, Hasty(x)[2]);
    var m4 := MachineNext(m3, decode, Hasty(x)[3]);
    RunsAll(m, decode, Hasty(x));
    assert m3.audio == LineAfter(LineAfter(LineAfter(m.audio, T.Peek), T.Write(x)), T.Look);
    assert m4.pcm == [R.XData(x.size, unused)];
  }

  lemma RunsAll(m: Machine, decode: Decoder, e: seq<Move>)
    requires |e| == 5
    ensures var m2 := MachineNext(MachineNext(m, decode, e[0]), decode, e[1]);
            MachineRun(m, decode, e)
            == MachineNext(MachineNext(MachineNext(m2, decode, e[2]), decode, e[3]), decode, e[4])
  {
    var m1 := MachineNext(m, decode, e[0]);
    var m2 := MachineNext(m1, decode, e[1]);
    var m3 := MachineNext(m2, decode, e[2]);
    var m4 := MachineNext(m3, decode, e[3]);
    assert MachineRun(m, decode, e) == MachineRun(m1, decode, e[1..]);
    assert MachineRun(m1, decode, e[1..]) == MachineRun(m2, decode, e[1..][1..]);
    assert MachineRun(m2, decode, e[1..][1..]) == MachineRun(m3, decode, e[1..][1..][1..]);
    assert MachineRun(m3, decode, e[1..][1..][1..]) == MachineRun(m4, decode, e[1..][1..][1..][1..]);
    assert MachineRun(m4, decode, e[1..][1..][1..][1..]) == MachineRun(MachineNext(m4, decode, e[4]), decode, []);
  }

  /** A file with one picture, which opens the gate, and one audio packet. */
  function TwoPackets(pts: Double): seq<Packet> {
    [Video(Num(1.0)), Audio(pts)]
  }

  /** The picture is shown, and the audio decoder has its packet. */
  function PictureShown(pts: Double): Player {
    var v, a := Video(Num(1.0)), Audio(pts);
    Player(TwoPackets(pts), 2, None, IDLE.(hand := Some(a)), Track([], None, [v], false, Popping), [], [], [v])
  }

  const TO_DECODER := [ReadPacket, PushPacket, PopPacket(VideoTrack)]
  const TO_SCREEN := [PushFrame(VideoTrack), TakeFrame(VideoTrack), DeliverFrame(VideoTrack)]
  const NEXT_PACKET := [ReadPacket, PushPacket, PopPacket(AudioTrack)]

  function PictureDecoded(pts: Double): Player {
    Start(TwoPackets(pts)).(read := 1, video := IDLE.(hand := Some(Video(Num(1.0)))))
  }

  lemma PictureGetsToDecoder(pts: Double)
    ensures Run(Start(TwoPackets(pts)), TO_DECODER) == PictureDecoded(pts)
  {
    RunThree(Start(TwoPackets(pts)), ReadPacket, PushPacket, PopPacket(VideoTrack));
  }

  lemma PictureGetsToScreen(pts: Double)
    ensures Run(PictureDecoded(pts), TO_SCREEN) == PictureShown(pts).(read := 1, audio := IDLE)
  {
    RunThree(PictureDecoded(pts), PushFrame(VideoTrack), TakeFrame(VideoTrack), DeliverFrame(VideoTrack));
  }

  lemma AudioGetsToDecoder(pts: Double)
    ensures Run(PictureShown(pts).(read := 1, audio := IDLE), NEXT_PACKET) == PictureShown(pts)
  {
    RunThree(PictureShown(pts).(read := 1, audio := IDLE), ReadPacket, PushPacket, PopPacket(AudioTrack));
  }

  lemma PictureIsShown(pts: Double) returns (steps: seq<Step>)
    ensures Run(Start(TwoPackets(pts)), steps) == PictureShown(pts)
  {
    PictureGetsToDecoder(pts);
    PictureGetsToScreen(pts);
    AudioGetsToDecoder(pts);
    steps := TO_DECODER + (TO_SCREEN + NEXT_PACKET);
    PipelineTheorems.RunSplits(Start(TwoPackets(pts)), TO_DECODER, TO_SCREEN + NEXT_PACKET);
    PipelineTheorems.RunSplits(PictureDecoded(pts), TO_SCREEN, NEXT_PACKET);
  }

  /** With the size stored first, a run of the machine in which the audio packet is heard with the pts that its slot
      had before. */
  lemma HastyFrameIsHeard(decode: Decoder, unused: Double, pts: Double) returns (moves: seq<Move>)
    requires Decodes(decode)
    ensures var m := MachineRun(NewMachine(TwoPackets(pts), unused, T.SizeFirst), decode, moves);
            && m.heard == [R.XData(decode(Audio(pts)).size, unused)]
            && m.input == TwoPackets(pts) && m.read == 2
  {
    var m0 := NewMachine(TwoPackets(pts), unused, T.SizeFirst);
    var steps := PictureIsShown(pts);
    StartInv(TwoPackets(pts));
    StartShows(TwoPackets(pts), decode, unused, T.SizeFirst);
    StartRests(TwoPackets(pts), unused, T.SizeFirst);
    var first := RunIsRealized(m0, decode, Start(TwoPackets(pts)), steps);
    var m1 := MachineRun(m0, decode, first);
    NewIsFresh(TwoPackets(pts), unused);
    RunKeepsFresh(m0, decode, unused, first);
    PictureMachine(m1, decode, unused, pts);
    HastyMoves(m1, decode, unused);
    moves := first + Hasty(decode(Audio(pts)));
    MachineRunSplits(m0, decode, first, Hasty(decode(Audio(pts))));
  }

  lemma NewIsFresh(input: seq<Packet>, unused: Double)
    ensures Fresh(NewMachine(input, unused, T.SizeFirst).audio.ring, unused)
  {}

  lemma PictureMachine(m: Machine, decode: Decoder, unused: Double, pts: Double)
    requires Shows(m, decode, PictureShown(pts)) && Decodes(decode) && AllRest(m) && Fresh(m.audio.ring, unused)
    ensures AboutToStore(m.audio, decode, unused) && m.GateOpen() && m.pcm == m.heard == []
    ensures m.audio.hand == Some(Audio(pts)) && m.input == TwoPackets(pts) && m.read == 2
  {
    LineOf(m, decode, PictureShown(pts), AudioTrack);
    QueueOf(m.audio, decode, PictureShown(pts).audio, None);
    GatesAgree(m, decode, PictureShown(pts));
  }

  /** Every file is heard as it was written in every run, exactly if the audio decoder stores the size last. */
  lemma HeardAsWrittenIff(decode: Decoder, unused: Double, order: T.Order)
    requires Decodes(decode)
    ensures (forall input: seq<Packet>, moves: seq<Move> ::
               HeardAsWritten(MachineRun(NewMachine(input, unused, order), decode, moves), decode))
            <==> order.SizeLast?
  {
    if order.SizeLast? {
      forall input: seq<Packet>, moves: seq<Move>
        ensures HeardAsWritten(MachineRun(NewMachine(input, unused, order), decode, moves), decode)
      {
        MachinePlaysInOrder(input, decode, unused, order, moves);
        InputStays(NewMachine(input, unused, order), decode, moves);
      }
    } else {
      var pts := if unused.NaN? then Num(0.0) else NaN;
      var moves := HastyFrameIsHeard(decode, unused, pts);
      var m := MachineRun(NewMachine(TwoPackets(pts), unused, order), decode, moves);
      assert m.input[..m.read] == TwoPackets(pts);
      assert TwoPackets(pts)[..1] == [Video(Num(1.0))] && [Video(Num(1.0))][..0] == [];
      assert Only(AudioTrack, [Video(Num(1.0))]) == [];
      assert Only(AudioTrack, TwoPackets(pts)) == [Audio(pts)];
      assert Frames(decode, [Audio(pts)])[0].pts == pts;
      assert !HeardAsWritten(m, decode);
    }
  }

  lemma {:induction false} InputStays(m: Machine, decode: Decoder, moves: seq<Move>)
    ensures MachineRun(m, decode, moves).input == m.input
    decreases moves
  {
    if moves != [] {
      InputStays(MachineNext(m, decode, moves[0]), decode, moves[1..]);
    }
  }
}
