/** The message looper of xhandler: handlers stamp messages and put them into a bounded queue under the
    looper's own mutex; one loop thread takes them out and hands each to its handler; quit stops both. */
module Loopers {
  import opened Options
  import opened BoundedQueue

  type HandlerId = nat

  datatype Message = Message(what: int, arg1: int, arg2: int, target: Option<HandlerId>)

  const CAPACITY: nat := 10

  /** The thread in _loop; every other thread sends or quits. */
  const LOOP: Tid := 0

  datatype LoopPoint =
    | Top                       // next tests isQuit
    | Popping                   // inside queue->pop
    | Dispatching(m: Message)   // pop returned true
    | Exited

  datatype Point =
    | Outside
    | SendStart(m: Message)     // needs the looper's mutex
    | SendInside(m: Message)    // has it, next tests isQuit
    | Sending                   // inside queue->push, with the mutex
    | QuitStart
    | QuitInside                // has the mutex
    | QuitMarked                // isQuit is set
    | QuitFlagged               // the queue's flag is set
    | QuitNotified              // _empty is notified
    | Leaving                   // has the mutex, next gives it back
  {
    predicate HasMutex() {
      !Outside? && !SendStart? && !QuitStart?
    }
  }

  /** A call of sendMessage: the calling thread, the handler, and the message handed in. */
  datatype Sent = Sent(sender: Tid, handler: HandlerId, m: Message)

  datatype Looper = Looper(
    queue: Queue<Message>,
    mutex: Option<Tid>,
    isQuit: bool,
    loop: LoopPoint,
    threads: map<Tid, Point>,
    stamped: seq<Sent>,
    dispatched: seq<(HandlerId, Message)>)
  {
    function At(t: Tid): Point {
      if t in threads then threads[t] else Outside
    }

    function Move(t: Tid, p: Point): Looper {
      this.(threads := threads[t := p])
    }
  }

  datatype LooperEvent =
    | SendMessage(t: Tid, handler: HandlerId, m: Message)
    | Quit(t: Tid)
    | Step(t: Tid)      // the next step of a thread outside the queue
    | InQueue(t: Tid)   // the next step of a thread inside push or pop
    | Wakeup(t: Tid)    // its wait in the queue ends spuriously
    | LoopStep

  function Stamp(m: Message, h: HandlerId): Message {
    m.(target := Some(h))
  }

  function ThreadStep(s: Looper, t: Tid): Looper {
    match s.At(t)
    case SendStart(m) => if s.mutex.None? then s.Move(t, SendInside(m)).(mutex := Some(t)) else s
    case SendInside(m) =>
      if s.isQuit then s.Move(t, Leaving)
      else s.Move(t, Sending).(queue := BoundedQueue.Next(s.queue, CallPush(t, m)))
    case QuitStart => if s.mutex.None? then s.Move(t, QuitInside).(mutex := Some(t)) else s
    case QuitInside => s.Move(t, QuitMarked).(isQuit := true)
    case QuitMarked => s.Move(t, QuitFlagged).(queue := BoundedQueue.Next(s.queue, SetQuit))
    case QuitFlagged => s.Move(t, QuitNotified).(queue := BoundedQueue.Next(s.queue, NotifyEmpty))
    case QuitNotified => s.Move(t, Leaving).(queue := BoundedQueue.Next(s.queue, NotifyFull))
    case Leaving => s.Move(t, Outside).(mutex := None)
    case _ => s
  }

  /** A step inside the queue; when push or pop returns, the caller goes on. */
  function QueueStep(s: Looper, t: Tid): Looper {
    if !Enabled(s.queue, Advance(t)) then s else
      var o, s' := Outcome(s.queue, t), s.(queue := AdvanceThread(s.queue, t));
      if o.None? then s'
      else if t == LOOP then s'.(loop := if o.value.Popped? then Dispatching(o.value.item.value) else Top)
      else s'.Move(t, Leaving)
  }

  function LoopThreadStep(s: Looper): Looper {
    match s.loop
    case Top =>
      if s.isQuit then s.(loop := Exited)
      else s.(loop := Popping, queue := BoundedQueue.Next(s.queue, CallPop(LOOP)))
    case Dispatching(m) =>
      s.(loop := Top, dispatched := if m.target.Some? then s.dispatched + [(m.target.value, m)] else s.dispatched)
    case _ => s
  }

  function After(s: Looper, e: LooperEvent): Looper {
    match e
    case SendMessage(t, h, m) =>
      if t != LOOP && s.At(t).Outside?
      then s.Move(t, SendStart(Stamp(m, h))).(stamped := s.stamped + [Sent(t, h, m)]) else s
    case Quit(t) => if t != LOOP && s.At(t).Outside? then s.Move(t, QuitStart) else s
    case Step(t) => if t != LOOP then ThreadStep(s, t) else s
    case InQueue(t) => QueueStep(s, t)
    case Wakeup(t) => s.(queue := BoundedQueue.Next(s.queue, Spurious(t)))
    case LoopStep => LoopThreadStep(s)
  }

  function Run(s: Looper, events: seq<LooperEvent>): Looper
    decreases events
  {
    if events == [] then s else Run(After(s, events[0]), events[1..])
  }

  const INITIAL := Looper(Empty(CAPACITY), None, false, Top, map[], [], [])

  function Messages(items: seq<Item<Message>>): seq<Message> {
    seq(|items|, i requires 0 <= i < |items| => items[i].value)
  }

  /** What the loop thread has taken out of the queue and not dispatched yet. */
  function InHand(s: Looper): seq<Message> {
    if s.loop.Dispatching? then [s.loop.m] else []
  }

  // ---------------------------------------------------------------------------------------------
  // The invariant
  // ---------------------------------------------------------------------------------------------

  /** Whether a thread is in push, with which message, or in pop. */
  datatype Place = NotInQueue | InPush(m: Message) | InPop

  function PlaceIn(q: Queue<Message>, t: Tid): Place {
    var pc := q.At(t);
    if pc.Pushing() then InPush(pc.value) else if pc.Popping() then InPop else NotInQueue
  }

  /** Threads are inside the queue exactly when they called push or pop, and the mutex has one holder. */
  ghost predicate Placed(s: Looper) {
    && PlaceIn(s.queue, LOOP) == (if s.loop.Popping? then InPop else NotInQueue)
    && (forall t: Tid :: t != LOOP ==> !PlaceIn(s.queue, t).InPop?)
    && (forall t: Tid :: t != LOOP ==> (PlaceIn(s.queue, t).InPush? <==> s.At(t).Sending?))
    && (forall t: Tid :: s.At(t).HasMutex() ==> s.mutex == Some(t))
    && s.At(LOOP).Outside?
  }

  /** Quitting goes on under the mutex: nobody is inside push once isQuit is set. */
  ghost predicate QuitOrder(s: Looper) {
    && (s.queue.quit ==> s.isQuit) && !s.queue.finished && (s.loop.Exited? ==> s.isQuit)
    && (s.isQuit ==> forall t: Tid :: !s.At(t).Sending?)
    && (forall t: Tid :: s.At(t).QuitMarked? || s.At(t).QuitFlagged? || s.At(t).QuitNotified? ==> s.isQuit)
  }

  /** The message is the stamped form of one that was handed to the handler it names. */
  predicate Came(stamped: seq<Sent>, m: Message) {
    exists i :: 0 <= i < |stamped| && Stamp(stamped[i].m, stamped[i].handler) == m
  }

  function Delivered(dispatched: seq<(HandlerId, Message)>): seq<Message> {
    seq(|dispatched|, i requires 0 <= i < |dispatched| => dispatched[i].1)
  }

  /** Every message on its way came from the handler it names. */
  ghost predicate Stamped(s: Looper) {
    && (forall t: Tid :: s.At(t).SendStart? || s.At(t).SendInside? ==> Came(s.stamped, s.At(t).m))
    && (forall t: Tid :: PlaceIn(s.queue, t).InPush? ==> Came(s.stamped, PlaceIn(s.queue, t).m))
    && (forall i :: 0 <= i < |s.queue.contents| ==> Came(s.stamped, s.queue.contents[i].value))
    && (s.loop.Dispatching? ==> Came(s.stamped, s.loop.m))
    && (forall i :: 0 <= i < |s.dispatched| ==>
          Came(s.stamped, s.dispatched[i].1) && s.dispatched[i].1.target == Some(s.dispatched[i].0))
  }

  /** What was taken out of the queue is dispatched, or in the loop thread's hand. */
  ghost predicate Accounted(s: Looper) {
    Messages(Taken(s.queue.log)) == Delivered(s.dispatched) + InHand(s)
  }

  ghost predicate InStep(s: Looper) {
    s.queue.capacity == CAPACITY && Placed(s) && QuitOrder(s) && Stamped(s) && Accounted(s)
  }

  ghost predicate LooperInv(s: Looper) {
    Inv(s.queue) && InStep(s)
  }

  // What the queue's events do to the places of the threads.

  /** All that a step of thread `t` inside the queue, returning `o` if anything, does to it. */
  ghost predicate Advances(q: Queue<Message>, q': Queue<Message>, t: Tid, o: Option<Return<Message>>) {
    && q'.quit == q.quit && q'.finished == q.finished && q'.capacity == q.capacity
    && q'.log == (if o.Some? then q.log + [o.value] else q.log)
    && q'.contents == (if o.Some? && o.value.Pushed? then q.contents + [o.value.item]
                       else if o.Some? && o.value.Popped? && q.contents != [] then q.contents[1..] else q.contents)
    && (forall u: Tid :: u != t ==> PlaceIn(q', u) == PlaceIn(q, u))
    && PlaceIn(q', t) == (if o.Some? then NotInQueue else PlaceIn(q, t))
    && (o.Some? ==>
          && (PlaceIn(q, t).InPop? <==> o.value.Popped? || o.value.PopRefused?)
          && (o.value.Pushed? ==> PlaceIn(q, t) == InPush(o.value.item.value))
          && (o.value.Popped? ==> q.contents != [] && o.value.item == q.contents[0]))
    && !PlaceIn(q, t).NotInQueue?
  }

  lemma PushKeepsPlaces(q: Queue<Message>, t: Tid)
    requires Enabled(q, Advance(t)) && q.At(t).Pushing()
    ensures forall u: Tid :: u != t ==> PlaceIn(AdvanceThread(q, t), u) == PlaceIn(q, u)
    ensures PlaceIn(AdvanceThread(q, t), t) == if Outcome(q, t).Some? then NotInQueue else PlaceIn(q, t)
  {}

  lemma PopKeepsPlaces(q: Queue<Message>, t: Tid)
    requires Enabled(q, Advance(t)) && q.At(t).Popping()
    ensures forall u: Tid :: u != t ==> PlaceIn(AdvanceThread(q, t), u) == PlaceIn(q, u)
    ensures PlaceIn(AdvanceThread(q, t), t) == if Outcome(q, t).Some? then NotInQueue else PlaceIn(q, t)
  {}

  lemma StepKeepsPlaces(q: Queue<Message>, t: Tid)
    requires Enabled(q, Advance(t))
    ensures forall u: Tid :: u != t ==> PlaceIn(AdvanceThread(q, t), u) == PlaceIn(q, u)
    ensures PlaceIn(AdvanceThread(q, t), t) == if Outcome(q, t).Some? then NotInQueue else PlaceIn(q, t)
  {
    if q.At(t).Pushing() { PushKeepsPlaces(q, t); } else { PopKeepsPlaces(q, t); }
  }

  /** What a step returns fits the place of the thread. */
  lemma OutcomeFitsPlace(q: Queue<Message>, t: Tid)
    requires Enabled(q, Advance(t))
    ensures !PlaceIn(q, t).NotInQueue?
    ensures var o := Outcome(q, t);
            o.Some? ==>
              && (PlaceIn(q, t).InPop? <==> o.value.Popped? || o.value.PopRefused?)
              && (o.value.Pushed? ==> PlaceIn(q, t) == InPush(o.value.item.value))
              && (o.value.Popped? ==> q.contents != [] && o.value.item == q.contents[0])
  {}

  lemma StepAdvances(q: Queue<Message>, t: Tid)
    requires Enabled(q, Advance(t))
    ensures Advances(q, AdvanceThread(q, t), t, Outcome(q, t))
  {
    AdvanceHasOutcome(q, t);
    StepKeepsPlaces(q, t);
    OutcomeFitsPlace(q, t);
  }

  lemma QueueAdvances(q: Queue<Message>, t: Tid)
    requires Inv(q) && Enabled(q, Advance(t))
    ensures Inv(AdvanceThread(q, t)) && Advances(q, AdvanceThread(q, t), t, Outcome(q, t))
  {
    AdvanceKeepsInv(q, t);
    StepAdvances(q, t);
  }

  lemma OthersKeepPlaces(q: Queue<Message>, e: Event<Message>)
    requires e.Spurious? || e.SetQuit? || e.NotifyEmpty? || e.NotifyFull?
    ensures forall u: Tid :: PlaceIn(BoundedQueue.Next(q, e), u) == PlaceIn(q, u)
  {}

  lemma CallKeepsPlaces(q: Queue<Message>, e: Event<Message>)
    requires (e.CallPush? || e.CallPop?) && PlaceIn(q, e.t).NotInQueue?
    ensures forall u: Tid :: u != e.t ==> PlaceIn(BoundedQueue.Next(q, e), u) == PlaceIn(q, u)
    ensures PlaceIn(BoundedQueue.Next(q, e), e.t) == if e.CallPush? then InPush(e.value) else InPop
  {}

  /** Events of the queue other than a thread's own steps leave its history alone. */
  lemma QueueEvent(q: Queue<Message>, e: Event<Message>)
    requires Inv(q) && !e.Advance?
    ensures var q' := BoundedQueue.Next(q, e);
            && Inv(q') && q'.capacity == q.capacity && q'.contents == q.contents && q'.log == q.log
            && q'.finished == (q.finished || e.SetFinished?) && q'.quit == (q.quit || e.SetQuit?)
  {
    StepKeepsInv(q, e);
    OtherEventsKeepOrder(q, e);
  }

  lemma CameGrows(stamped: seq<Sent>, entry: Sent)
    ensures forall m :: Came(stamped, m) ==> Came(stamped + [entry], m)
    ensures Came(stamped + [entry], Stamp(entry.m, entry.handler))
  {
    var longer := stamped + [entry];
    forall m | Came(stamped, m) ensures Came(longer, m) {
      var i :| 0 <= i < |stamped| && Stamp(stamped[i].m, stamped[i].handler) == m;
      assert longer[i] == stamped[i];
    }
    assert longer[|stamped|] == entry;
  }

  lemma CallerKeepsInv(s: Looper, e: LooperEvent)
    requires LooperInv(s) && (e.SendMessage? || e.Quit?)
    ensures LooperInv(After(s, e))
  {
    if e.SendMessage? {
      SendKeepsInv(s, e);
    }
  }

  lemma SendKeepsInv(s: Looper, e: LooperEvent)
    requires LooperInv(s) && e.SendMessage?
    ensures LooperInv(After(s, e))
  {
    CameGrows(s.stamped, Sent(e.t, e.handler, e.m));
  }

  lemma EnterPushKeepsInv(s: Looper, t: Tid)
    requires LooperInv(s) && t != LOOP && s.At(t).SendInside?
    ensures LooperInv(ThreadStep(s, t))
  {
    if !s.isQuit {
      CallKeepsPlaces(s.queue, CallPush(t, s.At(t).m));
      QueueEvent(s.queue, CallPush(t, s.At(t).m));
    }
  }

  lemma QuitStepKeepsInv(s: Looper, t: Tid, e: Event<Message>, p: Point)
    requires LooperInv(s) && t != LOOP && s.isQuit && s.At(t).HasMutex() && !s.At(t).Sending?
    requires e.SetQuit? || e.NotifyEmpty? || e.NotifyFull?
    requires p.QuitFlagged? || p.QuitNotified? || p.Leaving?
    ensures LooperInv(s.Move(t, p).(queue := BoundedQueue.Next(s.queue, e)))
  {
    OthersKeepPlaces(s.queue, e);
    QueueEvent(s.queue, e);
  }

  lemma LockKeepsInv(s: Looper, t: Tid, p: Point)
    requires InStep(s) && t != LOOP && s.mutex.None?
    requires p.SendInside? ==> s.At(t).SendStart? && p.m == s.At(t).m
    requires p.SendInside? || (p.QuitInside? && s.At(t).QuitStart?)
    ensures InStep(s.Move(t, p).(mutex := Some(t)))
  {}

  lemma MarkKeepsInv(s: Looper, t: Tid)
    requires InStep(s) && t != LOOP && s.At(t).QuitInside?
    ensures InStep(s.Move(t, QuitMarked).(isQuit := true))
  {}

  lemma UnlockKeepsInv(s: Looper, t: Tid)
    requires InStep(s) && t != LOOP && s.At(t).Leaving?
    ensures InStep(s.Move(t, Outside).(mutex := None))
  {}

  lemma ThreadKeepsInv(s: Looper, t: Tid)
    requires LooperInv(s) && t != LOOP
    ensures LooperInv(ThreadStep(s, t))
  {
    match s.At(t)
    case Outside =>
    case Sending =>
    case SendInside(_) => EnterPushKeepsInv(s, t);
    case QuitMarked => QuitStepKeepsInv(s, t, SetQuit, QuitFlagged);
    case QuitFlagged => QuitStepKeepsInv(s, t, NotifyEmpty, QuitNotified);
    case QuitNotified => QuitStepKeepsInv(s, t, NotifyFull, Leaving);
    case SendStart(m) => if s.mutex.None? { LockKeepsInv(s, t, SendInside(m)); }
    case QuitStart => if s.mutex.None? { LockKeepsInv(s, t, QuitInside); }
    case QuitInside => MarkKeepsInv(s, t);
    case Leaving => UnlockKeepsInv(s, t);
  }

  lemma TakenMessages(log: seq<Return<Message>>, r: Return<Message>)
    ensures Messages(Taken(log + [r])) == Messages(Taken(log)) + (if r.Popped? then [r.item.value] else [])
  {
    LogGrows(log, r);
  }

  /** A sender's step inside push. */
  lemma SenderStep(s: Looper, q: Queue<Message>, t: Tid, o: Option<Return<Message>>)
    requires InStep(s) && t != LOOP && Advances(s.queue, q, t, o)
    ensures InStep(if o.Some? then s.(queue := q).Move(t, Leaving) else s.(queue := q))
  {
    assert PlaceIn(s.queue, t).InPush?;
    if o.Some? {
      TakenMessages(s.queue.log, o.value);
      SenderLeaves(s, q, t, o.value);
    }
  }

  lemma SenderLeaves(s: Looper, q: Queue<Message>, t: Tid, r: Return<Message>)
    requires InStep(s) && t != LOOP && Advances(s.queue, q, t, Some(r)) && PlaceIn(s.queue, t).InPush?
    requires Messages(Taken(q.log)) == Messages(Taken(s.queue.log))
    ensures InStep(s.(queue := q).Move(t, Leaving))
  {
    var s' := s.(queue := q).Move(t, Leaving);
    assert forall u: Tid :: u != t ==> s'.At(u) == s.At(u);
    assert Accounted(s');
    assert QuitOrder(s');
  }

  /** The loop thread's step inside pop. */
  lemma PopperStep(s: Looper, q: Queue<Message>, o: Option<Return<Message>>)
    requires InStep(s) && Advances(s.queue, q, LOOP, o)
    ensures InStep(if o.None? then s.(queue := q)
                   else s.(queue := q, loop := if o.value.Popped? then Dispatching(o.value.item.value) else Top))
  {
    assert PlaceIn(s.queue, LOOP).InPop?;
    if o.Some? {
      TakenMessages(s.queue.log, o.value);
      PopperReturns(s, q, o.value);
    }
  }

  lemma PopperReturns(s: Looper, q: Queue<Message>, r: Return<Message>)
    requires InStep(s) && Advances(s.queue, q, LOOP, Some(r)) && PlaceIn(s.queue, LOOP).InPop?
    requires Messages(Taken(q.log)) == Messages(Taken(s.queue.log)) + (if r.Popped? then [r.item.value] else [])
    ensures InStep(s.(queue := q, loop := if r.Popped? then Dispatching(r.item.value) else Top))
  {
    var s' := s.(queue := q, loop := if r.Popped? then Dispatching(r.item.value) else Top);
    assert forall u: Tid :: s'.At(u) == s.At(u);
    assert Placed(s');
    assert Accounted(s');
    if r.Popped? {
      assert Came(s.stamped, s.queue.contents[0].value);
    }
  }

  lemma InQueueKeepsInv(s: Looper, t: Tid)
    requires LooperInv(s)
    ensures LooperInv(QueueStep(s, t))
  {
    if Enabled(s.queue, Advance(t)) {
      QueueAdvances(s.queue, t);
      if t == LOOP {
        PopperStep(s, AdvanceThread(s.queue, t), Outcome(s.queue, t));
      } else {
        SenderStep(s, AdvanceThread(s.queue, t), t, Outcome(s.queue, t));
      }
    }
  }

  lemma DispatchKeepsInv(s: Looper)
    requires InStep(s) && !(s.loop.Top? && !s.isQuit)
    ensures InStep(LoopThreadStep(s)) && LoopThreadStep(s).queue == s.queue
  {
    if s.loop.Dispatching? {
      DispatchIsAccounted(s);
      DispatchIsStamped(s);
    }
  }

  lemma DispatchIsAccounted(s: Looper)
    requires Stamped(s) && Accounted(s)
    requires s.loop.Dispatching?
    ensures Accounted(LoopThreadStep(s))
  {
    assert Came(s.stamped, s.loop.m);
  }

  lemma DispatchIsStamped(s: Looper)
    requires Stamped(s) && s.loop.Dispatching?
    ensures Stamped(LoopThreadStep(s))
  {
    var s' := LoopThreadStep(s);
    assert forall t: Tid :: s'.At(t) == s.At(t);
    assert s'.queue == s.queue && s'.stamped == s.stamped;
  }

  lemma CallPopKeepsInv(s: Looper, q: Queue<Message>)
    requires InStep(s) && s.loop.Top?
    requires q.capacity == s.queue.capacity && q.contents == s.queue.contents && q.log == s.queue.log
    requires q.quit == s.queue.quit && q.finished == s.queue.finished
    requires forall u: Tid :: u != LOOP ==> PlaceIn(q, u) == PlaceIn(s.queue, u)
    requires PlaceIn(q, LOOP) == InPop
    ensures InStep(s.(loop := Popping, queue := q))
  {}

  lemma LoopKeepsInv(s: Looper)
    requires LooperInv(s)
    ensures LooperInv(LoopThreadStep(s))
  {
    if s.loop.Top? && !s.isQuit {
      CallKeepsPlaces(s.queue, CallPop(LOOP));
      QueueEvent(s.queue, CallPop(LOOP));
      CallPopKeepsInv(s, BoundedQueue.Next(s.queue, CallPop(LOOP)));
    } else {
      DispatchKeepsInv(s);
    }
  }

  lemma WakeupKeepsInv(s: Looper, t: Tid)
    requires LooperInv(s)
    ensures LooperInv(After(s, Wakeup(t)))
  {
    OthersKeepPlaces(s.queue, Spurious(t));
    QueueEvent(s.queue, Spurious(t));
  }

  lemma NextKeepsInv(s: Looper, e: LooperEvent)
    requires LooperInv(s)
    ensures LooperInv(After(s, e))
  {
    match e
    case SendMessage(_, _, _) => CallerKeepsInv(s, e);
    case Quit(_) => CallerKeepsInv(s, e);
    case Step(t) => if t != LOOP { ThreadKeepsInv(s, t); }
    case InQueue(t) => InQueueKeepsInv(s, t);
    case Wakeup(t) => WakeupKeepsInv(s, t);
    case LoopStep => LoopKeepsInv(s);
  }

  lemma {:induction false} RunKeepsLooperInv(s: Looper, events: seq<LooperEvent>)
    requires LooperInv(s)
    ensures LooperInv(Run(s, events))
    decreases events
  {
    if events != [] {
      NextKeepsInv(s, events[0]);
      RunKeepsLooperInv(After(s, events[0]), events[1..]);
    }
  }

  // ---------------------------------------------------------------------------------------------
  // The object
  // ---------------------------------------------------------------------------------------------

  /** A thread that is not inside push or pop can call them. */
  lemma OutsideIsIdle(s: Looper, t: Tid)
    requires InStep(s)
    ensures t != LOOP && !s.At(t).Sending? ==> s.queue.At(t).Idle?
    ensures !s.loop.Popping? ==> s.queue.At(LOOP).Idle?
  {
    assert PlaceIn(s.queue, t).NotInQueue? ==> s.queue.At(t).Idle?;
    assert PlaceIn(s.queue, LOOP).NotInQueue? ==> s.queue.At(LOOP).Idle?;
  }

  /** The looper object, with where each thread is in its methods. */
  class XLooper {
    const queue: BlockingQueue<Message>
    var mutex: Option<Tid>
    var isQuit: bool
    var loop: LoopPoint
    var threads: map<Tid, Point>
    ghost var stamped: seq<Sent>
    ghost var dispatched: seq<(HandlerId, Message)>

    ghost function State(): Looper
      reads this, queue
    {
      Looper(queue.State(), mutex, isQuit, loop, threads, stamped, dispatched)
    }

    ghost predicate Valid()
      reads this, queue
    {
      LooperInv(State())
    }

    constructor ()
      ensures Valid() && fresh(queue) && State() == INITIAL
    {
      queue := new BlockingQueue<Message>(10);
      mutex, isQuit, loop, threads, stamped, dispatched := None, false, Top, map[], [], [];
    }

    /** A handler's sendMessage: the message gets the handler as its target and goes to the looper. */
    method SendFrom(t: Tid, handler: HandlerId, m: Message)
      requires t != LOOP && State().At(t).Outside?
      modifies this
      ensures State() == After(old(State()), SendMessage(t, handler, m))
    {
      var message := m.(target := Some(handler));
      threads := threads[t := SendStart(message)];
      stamped := stamped + [Sent(t, handler, m)];
    }

    method CallQuit(t: Tid)
      requires t != LOOP && State().At(t).Outside?
      modifies this
      ensures State() == After(old(State()), Quit(t))
    {
      threads := threads[t := QuitStart];
    }

    /** A thread's next step in sendMessage or quit, outside the queue. */
    method ThreadSteps(t: Tid)
      requires queue.Valid() && t in threads && t != LOOP && (threads[t].SendInside? ==> queue.State().At(t).Idle?)
      modifies this, queue
      ensures State() == ThreadStep(old(State()), t)
    {
      match threads[t] {
        case SendStart(m) =>
          if mutex.None? {
            mutex, threads := Some(t), threads[t := SendInside(m)];
          }
        case SendInside(m) =>
          if isQuit {
            threads := threads[t := Leaving];
          } else {
            threads := threads[t := Sending];
            queue.Perform(CallPush(t, m));
          }
        case QuitStart =>
          if mutex.None? {
            mutex, threads := Some(t), threads[t := QuitInside];
          }
        case QuitInside =>
          isQuit := true;
          threads := threads[t := QuitMarked];
        case QuitMarked =>
          queue.Perform(SetQuit);
          threads := threads[t := QuitFlagged];
        case QuitFlagged =>
          queue.Perform(NotifyEmpty);
          threads := threads[t := QuitNotified];
        case QuitNotified =>
          queue.Perform(NotifyFull);
          threads := threads[t := Leaving];
        case Leaving =>
          mutex, threads := None, threads[t := Outside];
        case _ =>
      }
    }

    /** A sender's next step inside the queue's push. */
    method PushSteps(t: Tid)
      requires queue.Valid() && t != LOOP && Enabled(queue.State(), Advance(t)) && queue.State().At(t).Pushing()
      modifies this, queue
      ensures State() == QueueStep(old(State()), t)
    {
      var done := queue.Push(t);
      if done.Some? {
        threads := threads[t := Leaving];
      }
    }

    /** The loop thread's next step inside the queue's pop. */
    method PopSteps()
      requires queue.Valid() && Enabled(queue.State(), Advance(LOOP)) && queue.State().At(LOOP).Popping()
      modifies this, queue
      ensures State() == QueueStep(old(State()), LOOP)
    {
      var popped := queue.Pop(LOOP);
      match popped {
        case None =>
        case Some(None) => loop := Top;
        case Some(Some(item)) => loop := Dispatching(item.value);
      }
    }

    /** The rest of the loop: it tests isQuit and calls pop, or dispatches what pop gave it. */
    method LoopSteps()
      requires queue.Valid() && (loop.Top? ==> queue.State().At(LOOP).Idle?)
      modifies this, queue
      ensures State() == LoopThreadStep(old(State()))
    {
      match loop {
        case Top =>
          if isQuit {
            loop := Exited;
          } else {
            loop := Popping;
            queue.Perform(CallPop(LOOP));
          }
        case Dispatching(message) =>
          if message.target.Some? {
            dispatched := dispatched + [(message.target.value, message)];
          }
          loop := Top;
        case _ =>
      }
    }

    /** What any thread does next, from one valid state to another. */
    method Perform(e: LooperEvent)
      requires Valid()
      modifies this, queue
      ensures Valid() && State() == After(old(State()), e)
    {
      NextKeepsInv(State(), e);
      match e {
        case SendMessage(t, handler, m) =>
          if t != LOOP && (t !in threads || threads[t].Outside?) {
            SendFrom(t, handler, m);
          }
        case Quit(t) =>
          if t != LOOP && (t !in threads || threads[t].Outside?) {
            CallQuit(t);
          }
        case Step(t) =>
          if t in threads && t != LOOP {
            OutsideIsIdle(State(), t);
            ThreadSteps(t);
          }
        case InQueue(t) =>
          QueueSteps(t);
        case Wakeup(t) =>
          if t in queue.threads && queue.threads[t].Waiting() {
            queue.Perform(Spurious(t));
          }
        case LoopStep =>
          OutsideIsIdle(State(), LOOP);
          LoopSteps();
      }
    }

    /** A thread's next step inside the queue, if it has one. */
    method QueueSteps(t: Tid)
      requires queue.Valid()
      requires queue.State().At(t).Popping() ==> t == LOOP
      requires queue.State().At(t).Pushing() ==> t != LOOP
      modifies this, queue
      ensures State() == QueueStep(old(State()), t)
    {
      if t in queue.threads
         && (queue.threads[t].HasMutex()
             || (queue.mutex.None? && (queue.threads[t].PushStart? || queue.threads[t].PopStart?))) {
        if queue.threads[t].Pushing() {
          PushSteps(t);
        } else {
          PopSteps();
        }
      }
    }
  }
}
