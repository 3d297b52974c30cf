/** What the looper promises over all runs: messages are delivered in order, each exactly once, until quit; and
    when the loop thread notices quit. */
module LooperTheorems {
  import opened Options
  import opened BoundedQueue
  import opened Loopers
  import Q = QueueTheorems

  // ---------------------------------------------------------------------------------------------
  // Each message once
  // ---------------------------------------------------------------------------------------------

  /** What a handler has to be given for a call: what was handed in, to that handler. */
  function Meant(c: Sent): Message {
    Message(c.m.what, c.m.arg1, c.m.arg2, Some(c.handler))
  }

  /** What thread `t` called sendMessage with, in the order of the calls. */
  function SentBy(stamped: seq<Sent>, t: Tid): seq<Message> {
    if stamped == [] then []
    else SentBy(stamped[..|stamped| - 1], t)
         + (var c := stamped[|stamped| - 1]; if c.sender == t then [Meant(c)] else [])
  }

  /** The messages of thread `t` that the queue accepted, in order. */
  function AcceptedFrom(log: seq<Return<Message>>, t: Tid): seq<Message> {
    Q.FromProducer(Accepted(log), t)
  }

  /** What thread `t` is sending right now. */
  function Carried(s: Looper, t: Tid): seq<Message> {
    match s.At(t)
    case SendStart(m) => [m]
    case SendInside(m) => [m]
    case Sending => if PlaceIn(s.queue, t).InPush? then [PlaceIn(s.queue, t).m] else []
    case _ => []
  }

  /** `a` is what is left of `b` when some elements are struck out. */
  predicate Within<T(==)>(a: seq<T>, b: seq<T>)
    decreases b
  {
    a == [] || (b != [] && (
                  || Within(a, b[..|b| - 1])
                  || (a[|a| - 1] == b[|b| - 1] && Within(a[..|a| - 1], b[..|b| - 1]))))
  }

  /** What was accepted from `t` and what it carries are among its calls, in order and once each; before quit
      they are all of its calls. */
  predicate InOrder(s: Looper, t: Tid) {
    Kept(AcceptedFrom(s.queue.log, t) + Carried(s, t), SentBy(s.stamped, t), s.isQuit)
  }

  predicate Kept(messages: seq<Message>, sent: seq<Message>, isQuit: bool) {
    Within(messages, sent) && (!isQuit ==> messages == sent)
  }

  lemma WithinGrows<T>(a: seq<T>, b: seq<T>, x: T)
    requires Within(a, b)
    ensures Within(a, b + [x]) && Within(a + [x], b + [x])
  {
    assert (b + [x])[..|b|] == b && (a + [x])[..|a|] == a;
  }

  lemma {:induction false} WithinDrops<T>(a: seq<T>, x: T, b: seq<T>)
    requires Within(a + [x], b)
    ensures Within(a, b)
    decreases b
  {
    var c := b[..|b| - 1];
    assert (a + [x])[..|a|] == a;
    if Within(a + [x], c) {
      WithinDrops(a, x, c);
    }
  }

  lemma SentGrows(stamped: seq<Sent>, c: Sent, t: Tid)
    ensures SentBy(stamped + [c], t) == SentBy(stamped, t) + (if c.sender == t then [Meant(c)] else [])
  {
    assert (stamped + [c])[..|stamped|] == stamped;
  }

  lemma AcceptedFromGrows(log: seq<Return<Message>>, r: Return<Message>, t: Tid)
    ensures AcceptedFrom(log + [r], t)
            == AcceptedFrom(log, t) + (if r.Pushed? && r.item.producer == t then [r.item.value] else [])
  {
    LogGrows(log, r);
    var a := Accepted(log);
    if r.Pushed? {
      assert (a + [r.item])[..|a|] == a;
    } else {
      assert a + [] == a;
    }
  }

  /** A thread whose calls, accepted messages and carried message stay the same is still in order. */
  lemma Unmoved(s: Looper, s': Looper, t: Tid)
    requires InOrder(s, t) && SentBy(s'.stamped, t) == SentBy(s.stamped, t)
    requires AcceptedFrom(s'.queue.log, t) + Carried(s', t) == AcceptedFrom(s.queue.log, t) + Carried(s, t)
    requires s.isQuit ==> s'.isQuit
    ensures InOrder(s', t)
  {}

  lemma OwnSendKeepsOrder(s: Looper, t: Tid, h: HandlerId, m: Message)
    requires InOrder(s, t) && t != LOOP && s.At(t).Outside?
    ensures InOrder(After(s, SendMessage(t, h, m)), t)
  {
    var a, x := AcceptedFrom(s.queue.log, t), Stamp(m, h);
    SentGrows(s.stamped, Sent(t, h, m), t);
    assert Carried(s, t) == [] && a + [] == a;
    assert Carried(After(s, SendMessage(t, h, m)), t) == [x];
    WithinGrows(a, SentBy(s.stamped, t), x);
  }

  lemma OthersSendCarries(s: Looper, u: Tid, h: HandlerId, m: Message, t: Tid)
    requires u != t
    ensures var s' := After(s, SendMessage(u, h, m));
            Carried(s', t) == Carried(s, t) && s'.queue == s.queue && s'.isQuit == s.isQuit
  {}

  lemma OthersSendRecords(s: Looper, u: Tid, h: HandlerId, m: Message, t: Tid)
    requires u != t
    ensures SentBy(After(s, SendMessage(u, h, m)).stamped, t) == SentBy(s.stamped, t)
  {
    SentGrows(s.stamped, Sent(u, h, m), t);
    assert SentBy(s.stamped, t) + [] == SentBy(s.stamped, t);
  }

  lemma OthersSendKeepsOrder(s: Looper, u: Tid, h: HandlerId, m: Message, t: Tid)
    requires InOrder(s, t) && u != t
    ensures InOrder(After(s, SendMessage(u, h, m)), t)
  {
    OthersSendCarries(s, u, h, m, t);
    OthersSendRecords(s, u, h, m, t);
    Unmoved(s, After(s, SendMessage(u, h, m)), t);
  }

  lemma SendKeepsOrder(s: Looper, e: LooperEvent, t: Tid)
    requires InOrder(s, t) && e.SendMessage?
    ensures InOrder(After(s, e), t)
  {
    if e.t != LOOP && s.At(e.t).Outside? {
      if e.t == t {
        OwnSendKeepsOrder(s, t, e.handler, e.m);
      } else {
        OthersSendKeepsOrder(s, e.t, e.handler, e.m, t);
      }
    }
  }

  /** A sender that finds isQuit set gives its message up. */
  lemma GiveUpKeepsOrder(s: Looper, u: Tid, t: Tid)
    requires InOrder(s, t) && s.At(u).SendInside? && s.isQuit
    ensures InOrder(s.Move(u, Leaving), t)
  {
    if u == t {
      WithinDrops(AcceptedFrom(s.queue.log, t), s.At(u).m, SentBy(s.stamped, t));
      assert AcceptedFrom(s.queue.log, t) + [] == AcceptedFrom(s.queue.log, t);
    } else {
      Unmoved(s, s.Move(u, Leaving), t);
    }
  }

  /** Otherwise it takes the message into the queue's push. */
  lemma CallKeepsOrder(s: Looper, q': Queue<Message>, u: Tid, t: Tid)
    requires InOrder(s, t) && s.At(u).SendInside? && q'.log == s.queue.log
    requires PlaceIn(q', u) == InPush(s.At(u).m) && (t != u ==> PlaceIn(q', t) == PlaceIn(s.queue, t))
    ensures InOrder(s.Move(u, Sending).(queue := q'), t)
  {
    CallCarries(s, q', u, t);
    Unmoved(s, s.Move(u, Sending).(queue := q'), t);
  }

  lemma CallCarries(s: Looper, q': Queue<Message>, u: Tid, t: Tid)
    requires s.At(u).SendInside?
    requires PlaceIn(q', u) == InPush(s.At(u).m) && (t != u ==> PlaceIn(q', t) == PlaceIn(s.queue, t))
    ensures Carried(s.Move(u, Sending).(queue := q'), t) == Carried(s, t)
  {}

  /** What the call of push does to the queue. */
  lemma EntersPush(q: Queue<Message>, u: Tid, m: Message, t: Tid)
    requires Inv(q) && q.At(u).Idle?
    ensures var q' := BoundedQueue.Next(q, CallPush(u, m));
            q'.log == q.log && PlaceIn(q', u) == InPush(m) && (t != u ==> PlaceIn(q', t) == PlaceIn(q, t))
  {
    CallKeepsPlaces(q, CallPush(u, m));
    QueueEvent(q, CallPush(u, m));
  }

  lemma EnterKeepsOrder(s: Looper, u: Tid, t: Tid)
    requires Inv(s.queue) && InOrder(s, t) && u != LOOP && s.At(u).SendInside? && s.queue.At(u).Idle? && !s.isQuit
    ensures InOrder(ThreadStep(s, u), t)
  {
    var q' := BoundedQueue.Next(s.queue, CallPush(u, s.At(u).m));
    EntersPush(s.queue, u, s.At(u).m, t);
    CallKeepsOrder(s, q', u, t);
    assert ThreadStep(s, u) == s.Move(u, Sending).(queue := q');
  }

  lemma ThreadKeepsOrder(s: Looper, u: Tid, t: Tid)
    requires Inv(s.queue) && InOrder(s, t) && u != LOOP && (s.At(u).SendInside? ==> s.queue.At(u).Idle?)
    ensures InOrder(ThreadStep(s, u), t)
  {
    match s.At(u)
    case SendInside(_) => if s.isQuit { GiveUpKeepsOrder(s, u, t); } else { EnterKeepsOrder(s, u, t); }
    case QuitMarked => QuitKeepsOrder(s, u, SetQuit, QuitFlagged, t);
    case QuitFlagged => QuitKeepsOrder(s, u, NotifyEmpty, QuitNotified, t);
    case QuitNotified => QuitKeepsOrder(s, u, NotifyFull, Leaving, t);
    case _ => MoveKeepsOrder(s, u, t);
  }

  predicate JustMoves(p: Point) {
    p.Outside? || p.Sending? || p.SendStart? || p.QuitStart? || p.QuitInside? || p.Leaving?
  }

  lemma MoveKeepsOrder(s: Looper, u: Tid, t: Tid)
    requires InOrder(s, t) && JustMoves(s.At(u))
    ensures InOrder(ThreadStep(s, u), t)
  {
    MoveCarries(s, u, t);
    Unmoved(s, ThreadStep(s, u), t);
  }

  lemma MoveCarries(s: Looper, u: Tid, t: Tid)
    requires JustMoves(s.At(u))
    ensures var s' := ThreadStep(s, u);
            && Carried(s', t) == Carried(s, t)
            && s'.queue == s.queue && s'.stamped == s.stamped && (s.isQuit ==> s'.isQuit)
  {}

  lemma QuitKeepsOrder(s: Looper, u: Tid, e: Event<Message>, p: Point, t: Tid)
    requires Inv(s.queue) && InOrder(s, t) && Carried(s, u) == []
    requires e.SetQuit? || e.NotifyEmpty? || e.NotifyFull?
    requires p.QuitFlagged? || p.QuitNotified? || p.Leaving?
    ensures InOrder(s.Move(u, p).(queue := BoundedQueue.Next(s.queue, e)), t)
  {
    OthersKeepPlaces(s.queue, e);
    QueueEvent(s.queue, e);
    QuitCarries(s, BoundedQueue.Next(s.queue, e), u, p, t);
    Unmoved(s, s.Move(u, p).(queue := BoundedQueue.Next(s.queue, e)), t);
  }

  lemma QuitCarries(s: Looper, q': Queue<Message>, u: Tid, p: Point, t: Tid)
    requires Carried(s, u) == [] && PlaceIn(q', t) == PlaceIn(s.queue, t)
    requires p.QuitFlagged? || p.QuitNotified? || p.Leaving?
    ensures Carried(s.Move(u, p).(queue := q'), t) == Carried(s, t)
  {}

  /** A push that succeeds turns the carried message into an accepted one. */
  lemma PushedKeepsOrder(s: Looper, q': Queue<Message>, u: Tid, i: Item<Message>, t: Tid)
    requires InOrder(s, t) && s.At(u).Sending? && PlaceIn(s.queue, u) == InPush(i.value) && i.producer == u
    requires t != u ==> PlaceIn(q', t) == PlaceIn(s.queue, t)
    requires AcceptedFrom(q'.log, t) == AcceptedFrom(s.queue.log, t) + (if t == u then [i.value] else [])
    ensures InOrder(s.(queue := q').Move(u, Leaving), t)
  {
    PushedCarries(s, q', u, i.value, t);
    Unmoved(s, s.(queue := q').Move(u, Leaving), t);
  }

  lemma PushedCarries(s: Looper, q': Queue<Message>, u: Tid, m: Message, t: Tid)
    requires s.At(u).Sending? && PlaceIn(s.queue, u) == InPush(m)
    requires t != u ==> PlaceIn(q', t) == PlaceIn(s.queue, t)
    ensures var s' := s.(queue := q').Move(u, Leaving);
            if t == u then Carried(s, t) == [m] && Carried(s', t) == [] else Carried(s', t) == Carried(s, t)
  {}

  lemma OutcomeOfSender(s: Looper, u: Tid)
    requires LooperInv(s) && Enabled(s.queue, Advance(u)) && u != LOOP && Outcome(s.queue, u).Some?
    ensures s.At(u).Sending? && PlaceIn(s.queue, u).InPush?
    ensures var r := Outcome(s.queue, u).value; r.Pushed? && r.item == Item(u, PlaceIn(s.queue, u).m)
  {
    SenderIsSending(s, u);
  }

  lemma SenderIsSending(s: Looper, t: Tid)
    requires InStep(s) && t != LOOP && Enabled(s.queue, Advance(t))
    ensures s.At(t).Sending? && PlaceIn(s.queue, t).InPush?
  {
    assert !PlaceIn(s.queue, t).NotInQueue?;
    assert !PlaceIn(s.queue, t).InPop?;
  }

  lemma PoppedAcceptsNothing(s: Looper)
    requires LooperInv(s) && Enabled(s.queue, Advance(LOOP)) && Outcome(s.queue, LOOP).Some?
    ensures !Outcome(s.queue, LOOP).value.Pushed?
  {
    assert !PlaceIn(s.queue, LOOP).InPush?;
  }

  lemma SenderReturns(s: Looper, u: Tid, t: Tid)
    requires LooperInv(s) && InOrder(s, t) && u != LOOP && Enabled(s.queue, Advance(u)) && Outcome(s.queue, u).Some?
    ensures InOrder(QueueStep(s, u), t)
  {
    QueueAdvances(s.queue, u);
    OutcomeOfSender(s, u);
    AcceptedFromGrows(s.queue.log, Outcome(s.queue, u).value, t);
    PushedKeepsOrder(s, AdvanceThread(s.queue, u), u, Outcome(s.queue, u).value.item, t);
  }

  /** A queue that accepted nothing and moved no sender. */
  lemma QueueMoves(s: Looper, q': Queue<Message>, l: LoopPoint, t: Tid)
    requires InOrder(s, t) && AcceptedFrom(q'.log, t) == AcceptedFrom(s.queue.log, t)
    requires s.At(t).Sending? ==> PlaceIn(q', t) == PlaceIn(s.queue, t)
    ensures InOrder(s.(queue := q', loop := l), t)
  {
    Unmoved(s, s.(queue := q', loop := l), t);
  }

  lemma LoopReturns(s: Looper, t: Tid)
    requires LooperInv(s) && InOrder(s, t) && Enabled(s.queue, Advance(LOOP)) && Outcome(s.queue, LOOP).Some?
    ensures InOrder(QueueStep(s, LOOP), t)
  {
    QueueAdvances(s.queue, LOOP);
    PoppedAcceptsNothing(s);
    AcceptedFromGrows(s.queue.log, Outcome(s.queue, LOOP).value, t);
    assert AcceptedFrom(s.queue.log, t) + [] == AcceptedFrom(s.queue.log, t);
    QueueMoves(s, AdvanceThread(s.queue, LOOP), QueueStep(s, LOOP).loop, t);
  }

  lemma StaysInQueue(s: Looper, u: Tid, t: Tid)
    requires LooperInv(s) && InOrder(s, t) && Enabled(s.queue, Advance(u)) && Outcome(s.queue, u).None?
    ensures InOrder(QueueStep(s, u), t)
  {
    QueueAdvances(s.queue, u);
    QueueMoves(s, AdvanceThread(s.queue, u), s.loop, t);
  }

  lemma InQueueKeepsOrder(s: Looper, u: Tid, t: Tid)
    requires LooperInv(s) && InOrder(s, t) && Enabled(s.queue, Advance(u))
    ensures InOrder(QueueStep(s, u), t)
  {
    if Outcome(s.queue, u).None? {
      StaysInQueue(s, u, t);
    } else if u == LOOP {
      LoopReturns(s, t);
    } else {
      SenderReturns(s, u, t);
    }
  }

  lemma LoopKeepsOrder(s: Looper, t: Tid)
    requires Inv(s.queue) && InOrder(s, t) && s.At(LOOP).Outside? && (s.loop.Top? ==> s.queue.At(LOOP).Idle?)
    ensures InOrder(LoopThreadStep(s), t)
  {
    if s.loop.Top? && !s.isQuit {
      CallKeepsPlaces(s.queue, CallPop(LOOP));
      QueueEvent(s.queue, CallPop(LOOP));
      QueueMoves(s, BoundedQueue.Next(s.queue, CallPop(LOOP)), Popping, t);
    } else {
      Unmoved(s, LoopThreadStep(s), t);
    }
  }

  lemma WakeupKeepsOrder(s: Looper, u: Tid, t: Tid)
    requires Inv(s.queue) && InOrder(s, t)
    ensures InOrder(After(s, Wakeup(u)), t)
  {
    OthersKeepPlaces(s.queue, Spurious(u));
    QueueEvent(s.queue, Spurious(u));
    QueueMoves(s, BoundedQueue.Next(s.queue, Spurious(u)), s.loop, t);
  }

  lemma StepKeepsOrder(s: Looper, e: LooperEvent, t: Tid)
    requires LooperInv(s) && InOrder(s, t)
    ensures InOrder(After(s, e), t)
  {
    match e
    case SendMessage(_, _, _) => SendKeepsOrder(s, e, t);
    case Quit(u) => QuitCallKeepsOrder(s, u, t);
    case Step(u) => if u != LOOP { OutsideIsIdle(s, u); ThreadKeepsOrder(s, u, t); }
    case InQueue(u) => if Enabled(s.queue, Advance(u)) { InQueueKeepsOrder(s, u, t); }
    case Wakeup(u) => WakeupKeepsOrder(s, u, t);
    case LoopStep => OutsideIsIdle(s, LOOP); LoopKeepsOrder(s, t);
  }

  lemma QuitCallKeepsOrder(s: Looper, u: Tid, t: Tid)
    requires InOrder(s, t)
    ensures InOrder(After(s, Quit(u)), t)
  {
    QuitCallCarries(s, u, t);
    Unmoved(s, After(s, Quit(u)), t);
  }

  lemma QuitCallCarries(s: Looper, u: Tid, t: Tid)
    ensures Carried(After(s, Quit(u)), t) == Carried(s, t)
  {}

  lemma {:induction false} RunKeepsOrder(s: Looper, events: seq<LooperEvent>, t: Tid)
    requires LooperInv(s) && InOrder(s, t)
    ensures LooperInv(Loopers.Run(s, events)) && InOrder(Loopers.Run(s, events), t)
    decreases events
  {
    if events != [] {
      NextKeepsInv(s, events[0]);
      StepKeepsOrder(s, events[0], t);
      RunKeepsOrder(After(s, events[0]), events[1..], t);
    }
  }

  /** Every run keeps the invariant, and every thread's messages in order. */
  lemma Reached(events: seq<LooperEvent>)
    ensures LooperInv(Loopers.Run(INITIAL, events))
    ensures forall t: Tid :: InOrder(Loopers.Run(INITIAL, events), t)
  {
    RunKeepsLooperInv(INITIAL, events);
    forall t: Tid ensures InOrder(Loopers.Run(INITIAL, events), t) {
      RunKeepsOrder(INITIAL, events, t);
    }
  }

  lemma DispatchedArePrefix(s: Looper)
    requires Accounted(s) && FirstInFirstOut(s.queue)
    ensures Delivered(s.dispatched) <= Messages(Accepted(s.queue.log))
  {
    assert Messages(Accepted(s.queue.log)) == Messages(Taken(s.queue.log)) + Messages(s.queue.contents);
  }

  /** In every run the messages dispatched are a prefix of those accepted, each goes to the handler it is stamped
      with, and what is accepted from a thread are messages it handed to handlers, in the order of its calls and
      each call once at most; before quit, all of them but the one it is sending. */
  lemma LooperDelivers(events: seq<LooperEvent>)
    ensures var s := Loopers.Run(INITIAL, events);
            && Delivered(s.dispatched) <= Messages(Accepted(s.queue.log))
            && (forall i :: 0 <= i < |s.dispatched| ==> s.dispatched[i].1.target == Some(s.dispatched[i].0))
            && (forall t: Tid :: InOrder(s, t))
  {
    Reached(events);
    DispatchedArePrefix(Loopers.Run(INITIAL, events));
  }

  /** The calls of sendMessage that the events make, as they were made. */
  function Calls(s: Looper, events: seq<LooperEvent>): seq<Sent>
    decreases events
  {
    if events == [] then []
    else (match events[0]
          case SendMessage(t, h, m) => if t != LOOP && s.At(t).Outside? then [Sent(t, h, m)] else []
          case _ => [])
         + Calls(After(s, events[0]), events[1..])
  }

  lemma {:induction false} CallsAreRecorded(s: Looper, events: seq<LooperEvent>)
    ensures Loopers.Run(s, events).stamped == s.stamped + Calls(s, events)
    decreases events
  {
    if events != [] {
      CallsAreRecorded(After(s, events[0]), events[1..]);
      RecordOne(s, events[0]);
    }
  }

  lemma RecordOne(s: Looper, e: LooperEvent)
    ensures After(s, e).stamped == s.stamped + (match e
                                                case SendMessage(t, h, m) =>
                                                  if t != LOOP && s.At(t).Outside? then [Sent(t, h, m)] else []
                                                case _ => [])
  {}

  /** The call handed this message to this handler. */
  predicate Handed(c: Sent, h: HandlerId, m: Message) {
    h == c.handler && m.what == c.m.what && m.arg1 == c.m.arg1 && m.arg2 == c.m.arg2
  }

  lemma CameFromCall(calls: seq<Sent>, h: HandlerId, m: Message)
    requires Came(calls, m) && m.target == Some(h)
    ensures exists j :: 0 <= j < |calls| && Handed(calls[j], h, m)
  {
    var j :| 0 <= j < |calls| && Stamp(calls[j].m, calls[j].handler) == m;
    assert Handed(calls[j], h, m);
  }

  lemma DispatchedCame(s: Looper, i: nat)
    requires LooperInv(s) && i < |s.dispatched|
    ensures Came(s.stamped, s.dispatched[i].1) && s.dispatched[i].1.target == Some(s.dispatched[i].0)
  {}

  /** Whatever a handler gets was handed to just this handler in some call, with the same what, arg1 and arg2. */
  lemma DispatchedWereSent(events: seq<LooperEvent>, i: nat)
    requires i < |Loopers.Run(INITIAL, events).dispatched|
    ensures var (h, m), calls := Loopers.Run(INITIAL, events).dispatched[i], Calls(INITIAL, events);
            exists j :: 0 <= j < |calls| && Handed(calls[j], h, m)
  {
    RunKeepsLooperInv(INITIAL, events);
    CallsAreRecorded(INITIAL, events);
    DispatchedCame(Loopers.Run(INITIAL, events), i);
    var (h, m) := Loopers.Run(INITIAL, events).dispatched[i];
    assert [] + Calls(INITIAL, events) == Calls(INITIAL, events);
    CameFromCall(Calls(INITIAL, events), h, m);
  }

  /** The looper's queue takes ten messages that nobody takes out, and lets the eleventh sender wait. */
  lemma TenMessagesFit(t: Tid, messages: seq<Message>, m: Message)
    requires |messages| == 10
    ensures var q := BoundedQueue.Run(INITIAL.queue, Q.PushCalls(t, messages));
            q.contents == Q.Items(t, messages) && q.At(t).Idle?
    ensures BoundedQueue.Run(INITIAL.queue, Q.PushCalls(t, messages) + Q.PushCall(t, m)).At(t) == PushWaiting(m)
  {
    Q.PushesFill(10, t, messages);
    Q.FullQueueMakesWait(10, t, messages, m);
  }

  // ---------------------------------------------------------------------------------------------
  // When nothing moves any more
  // ---------------------------------------------------------------------------------------------

  /** Whether thread `t` has a step outside the queue. */
  predicate CanStep(s: Looper, t: Tid) {
    match s.At(t)
    case Outside => false
    case Sending => false
    case SendStart(_) => s.mutex.None?
    case QuitStart => s.mutex.None?
    case _ => true
  }

  /** No thread has a step: the loop thread has exited or is inside pop, and everyone else is outside or blocked. */
  ghost predicate Quiet(s: Looper) {
    && (s.loop.Exited? || s.loop.Popping?)
    && (forall t: Tid :: !Enabled(s.queue, Advance(t)) && !CanStep(s, t))
  }

  /** It is just the state that no step of a thread changes. */
  lemma QuietIff(s: Looper)
    requires LooperInv(s)
    ensures Quiet(s) <==>
              && After(s, LoopStep) == s
              && forall t: Tid :: After(s, Step(t)) == s && After(s, InQueue(t)) == s
  {
    if Quiet(s) {
      forall t: Tid ensures After(s, Step(t)) == s && After(s, InQueue(t)) == s {
        assert !Enabled(s.queue, Advance(t)) && !CanStep(s, t);
      }
    } else if t: Tid :| Enabled(s.queue, Advance(t)) {
      StepsInQueue(s, t);
    } else if t: Tid :| CanStep(s, t) {
      StepsOutside(s, t);
    } else {
      assert s.loop.Top? || s.loop.Dispatching?;
    }
  }

  lemma StepsInQueue(s: Looper, t: Tid)
    requires Enabled(s.queue, Advance(t))
    ensures After(s, InQueue(t)) != s
  {
    assert AdvanceThread(s.queue, t).At(t) != s.queue.At(t);
  }

  lemma StepsOutside(s: Looper, t: Tid)
    requires s.At(LOOP).Outside? && CanStep(s, t)
    ensures After(s, Step(t)) != s
  {
    assert ThreadStep(s, t).At(t) != s.At(t);
  }

  /** In a quiet state nobody is inside the queue but in a wait. */
  lemma QuietQueueWaits(s: Looper, t: Tid)
    requires LooperInv(s) && Quiet(s)
    ensures s.queue.holder.None? && (s.queue.At(t).Idle? || s.queue.At(t).Waiting())
  {
    assert !Enabled(s.queue, Advance(t));
    if s.queue.holder.Some? {
      var h := s.queue.holder.value;
      assert s.queue.threads[h].HasMutex();
      assert Enabled(s.queue, Advance(h));
      assert false;
    }
  }

  /** A loop thread that waits found the queue empty, so no sender is blocked. */
  lemma QuietLoopWaits(s: Looper, t: Tid)
    requires LooperInv(s) && Quiet(s) && s.loop.Popping?
    ensures s.queue.At(LOOP).PopWaiting? && s.queue.contents == []
    ensures t != LOOP ==> !s.At(t).Sending?
  {
    QuietQueueWaits(s, LOOP);
    QuietQueueWaits(s, t);
    assert PlaceIn(s.queue, LOOP) == InPop;
    assert s.queue.threads[LOOP].PopWaiting?;
    assert !s.queue.At(t).PushWaiting?;
    assert t != LOOP && s.At(t).Sending? ==> PlaceIn(s.queue, t).InPush?;
  }

  /** Whoever has the looper's mutex has a step, or is inside push. */
  ghost predicate MutexIsHeld(s: Looper) {
    s.mutex.Some? ==> s.At(s.mutex.value).HasMutex()
  }

  lemma {:induction false} RunKeepsMutex(s: Looper, events: seq<LooperEvent>)
    requires LooperInv(s) && MutexIsHeld(s)
    ensures MutexIsHeld(Loopers.Run(s, events))
    decreases events
  {
    if events != [] {
      NextKeepsInv(s, events[0]);
      StepKeepsMutex(s, events[0]);
      RunKeepsMutex(After(s, events[0]), events[1..]);
    }
  }

  lemma StepKeepsMutex(s: Looper, e: LooperEvent)
    requires LooperInv(s) && MutexIsHeld(s)
    ensures MutexIsHeld(After(s, e))
  {
    if e.InQueue? && Enabled(s.queue, Advance(e.t)) && e.t != LOOP {
      SenderIsSending(s, e.t);
    }
  }

  lemma QuietSenders(s: Looper, t: Tid)
    requires LooperInv(s) && MutexIsHeld(s) && Quiet(s) && s.loop.Popping?
    ensures s.At(t).Outside?
  {
    QuietLoopWaits(s, t);
    assert !CanStep(s, t);
    if s.mutex.Some? {
      QuietHolder(s, s.mutex.value);
    }
  }

  lemma QuietHolder(s: Looper, h: Tid)
    requires LooperInv(s) && Quiet(s) && s.loop.Popping?
    ensures !s.At(h).HasMutex()
  {
    QuietLoopWaits(s, h);
    assert !CanStep(s, h);
  }

  /** Before quit, once no thread has a step, every message sent has been dispatched: each thread's messages are
      exactly the dispatched ones of it, in order. */
  lemma QuietDeliversAll(events: seq<LooperEvent>)
    ensures var s := Loopers.Run(INITIAL, events);
            Quiet(s) && !s.isQuit ==>
              && Delivered(s.dispatched) == Messages(Taken(s.queue.log))
              && (forall t: Tid :: Q.FromProducer(Taken(s.queue.log), t) == SentBy(s.stamped, t))
  {
    var s := Loopers.Run(INITIAL, events);
    Reached(events);
    RunKeepsMutex(INITIAL, events);
    if Quiet(s) && !s.isQuit {
      QuietLoopWaits(s, LOOP);
      assert Taken(s.queue.log) + [] == Taken(s.queue.log);
      forall t: Tid ensures Q.FromProducer(Taken(s.queue.log), t) == SentBy(s.stamped, t) {
        QuietSenders(s, t);
        assert InOrder(s, t) && Carried(s, t) == [];
        assert AcceptedFrom(s.queue.log, t) + [] == AcceptedFrom(s.queue.log, t);
      }
    }
  }

  // ---------------------------------------------------------------------------------------------
  // A message on its way
  // ---------------------------------------------------------------------------------------------

  /** Thread `t` and the loop thread are between two calls, nobody has a mutex, and nobody has quit. */
  predicate Resting(s: Looper, t: Tid) {
    && t != LOOP && s.mutex.None? && !s.isQuit && s.loop.Top? && s.At(t).Outside?
    && Q.Open(s.queue, t) && s.queue.At(LOOP).Idle?
  }

  lemma RunThree(s: Looper, a: LooperEvent, b: LooperEvent, c: LooperEvent)
    ensures Loopers.Run(s, [a, b, c]) == After(After(After(s, a), b), c)
  {
    assert [a, b, c][1..] == [b, c] && [b, c][1..] == [c] && [c][1..] == [];
    assert Loopers.Run(After(After(s, a), b), [c]) == After(After(After(s, a), b), c);
    assert Loopers.Run(After(s, a), [b, c]) == Loopers.Run(After(After(s, a), b), [c]);
  }

  lemma SendEnters(s: Looper, t: Tid, h: HandlerId, m: Message)
    requires Resting(s, t)
    ensures Loopers.Run(s, [SendMessage(t, h, m), Step(t), Step(t)])
            == s.(queue := BoundedQueue.Next(s.queue, CallPush(t, Meant(Sent(t, h, m)))), mutex := Some(t),
                  threads := s.threads[t := Sending], stamped := s.stamped + [Sent(t, h, m)])
  {
    RunThree(s, SendMessage(t, h, m), Step(t), Step(t));
    var s1 := After(s, SendMessage(t, h, m));
    assert s1.At(t) == SendStart(Meant(Sent(t, h, m)));
    assert s1.threads[t := SendInside(Meant(Sent(t, h, m)))][t := Sending] == s.threads[t := Sending];
  }

  /** A call of push or pop with nobody else in the queue, up to its return. */
  lemma InsideQueue(s: Looper, t: Tid)
    requires var q := s.queue;
             var q1 := AdvanceThread(q, t);
             var q2 := AdvanceThread(q1, t);
             && Enabled(q, Advance(t)) && Outcome(q, t).None? && Enabled(q1, Advance(t)) && Outcome(q1, t).None?
             && Enabled(q2, Advance(t)) && Outcome(q2, t).Some?
    ensures var q2 := AdvanceThread(AdvanceThread(s.queue, t), t);
            Loopers.Run(s, [InQueue(t), InQueue(t), InQueue(t)])
            == QueueStep(s.(queue := q2), t)
  {
    RunThree(s, InQueue(t), InQueue(t), InQueue(t));
  }

  lemma PushSteps(q: Queue<Message>, t: Tid, m: Message)
    requires Q.Open(q, t) && |q.contents| < q.capacity && q.At(LOOP).Idle? && t != LOOP
    ensures var q0 := BoundedQueue.Next(q, CallPush(t, m));
            var q1 := AdvanceThread(q0, t);
            var q2 := AdvanceThread(q1, t);
            var q3 := AdvanceThread(q2, t);
            && Enabled(q0, Advance(t)) && Outcome(q0, t).None? && Enabled(q1, Advance(t)) && Outcome(q1, t).None?
            && Enabled(q2, Advance(t)) && Outcome(q2, t) == Some(Pushed(Item(t, m)))
            && Q.Open(q3, t) && q3.At(LOOP).Idle? && q3.contents == q.contents + [Item(t, m)]
            && q3.capacity == q.capacity
  {
    var q0 := BoundedQueue.Next(q, CallPush(t, m));
    var q1 := AdvanceThread(q0, t);
    assert q0.At(t) == PushStart(m) && q1.At(t) == PushLocked(m);
  }

  lemma PopSteps(q: Queue<Message>, t: Tid)
    requires Q.Open(q, t) && q.contents != [] && q.At(LOOP).Idle? && t != LOOP
    ensures var q0 := BoundedQueue.Next(q, CallPop(LOOP));
            var q1 := AdvanceThread(q0, LOOP);
            var q2 := AdvanceThread(q1, LOOP);
            var q3 := AdvanceThread(q2, LOOP);
            && Enabled(q0, Advance(LOOP)) && Outcome(q0, LOOP).None?
            && Enabled(q1, Advance(LOOP)) && Outcome(q1, LOOP).None?
            && Enabled(q2, Advance(LOOP)) && Outcome(q2, LOOP) == Some(Popped(LOOP, q.contents[0]))
            && Q.Open(q3, t) && q3.At(LOOP).Idle? && q3.contents == q.contents[1..] && q3.capacity == q.capacity
  {
    var q0 := BoundedQueue.Next(q, CallPop(LOOP));
    var q1 := AdvanceThread(q0, LOOP);
    assert q0.At(LOOP) == PopStart && q1.At(LOOP) == PopLocked;
  }

  function SendEvents(t: Tid, h: HandlerId, m: Message): seq<LooperEvent> {
    [SendMessage(t, h, m), Step(t), Step(t)] + ([InQueue(t), InQueue(t), InQueue(t)] + [Step(t)])
  }

  const LOOP_EVENTS := [LoopStep] + ([InQueue(LOOP), InQueue(LOOP), InQueue(LOOP)] + [LoopStep])

  /** A call of sendMessage that nobody disturbs puts the message behind the others, if there is room. */
  lemma SendRuns(s: Looper, t: Tid, h: HandlerId, m: Message)
    requires Resting(s, t) && |s.queue.contents| < s.queue.capacity
    ensures var s' := Loopers.Run(s, SendEvents(t, h, m));
            && Resting(s', t) && s'.queue.capacity == s.queue.capacity && s'.dispatched == s.dispatched
            && s'.queue.contents == s.queue.contents + [Item(t, Message(m.what, m.arg1, m.arg2, Some(h)))]
  {
    var x, a, b, c := Meant(Sent(t, h, m)), [SendMessage(t, h, m), Step(t), Step(t)],
                      [InQueue(t), InQueue(t), InQueue(t)], [Step(t)];
    RunSplits(s, a, b + c);
    SendEnters(s, t, h, m);
    var s1 := Loopers.Run(s, a);
    RunSplits(s1, b, c);
    PushSteps(s.queue, t, x);
    InsideQueue(s1, t);
    var s2 := Loopers.Run(s1, b);
    assert s2.At(t) == Leaving;
    assert Loopers.Run(s2, c) == After(s2, Step(t));
  }

  /** A pass of the loop that nobody disturbs hands the first message to its handler. */
  lemma LoopRuns(s: Looper, t: Tid, h: HandlerId)
    requires Resting(s, t) && s.queue.contents != [] && s.queue.contents[0].value.target == Some(h)
    ensures var s' := Loopers.Run(s, LOOP_EVENTS);
            && Resting(s', t) && s'.queue.capacity == s.queue.capacity
            && s'.dispatched == s.dispatched + [(h, s.queue.contents[0].value)]
            && s'.queue.contents == s.queue.contents[1..]
  {
    var b, c := [InQueue(LOOP), InQueue(LOOP), InQueue(LOOP)], [LoopStep];
    RunSplits(s, c, b + c);
    var s1 := After(s, LoopStep);
    assert Loopers.Run(s, c) == s1;
    RunSplits(s1, b, c);
    PopSteps(s.queue, t);
    InsideQueue(s1, LOOP);
    var s2 := Loopers.Run(s1, b);
    assert s2.loop == Dispatching(s.queue.contents[0].value);
    assert Loopers.Run(s2, c) == After(s2, LoopStep);
  }

  /** Any messages can go through a new looper: the handlers get them all, in order, with what was handed in. */
  lemma {:induction false} MessagesArrive(t: Tid, calls: seq<(HandlerId, Message)>) returns (events: seq<LooperEvent>)
    requires t != LOOP
    ensures var s := Loopers.Run(INITIAL, events);
            && Resting(s, t) && s.queue.contents == [] && s.queue.capacity == 10 && |s.dispatched| == |calls|
            && forall i :: 0 <= i < |calls| ==>
                 var (h, m) := calls[i];
                 s.dispatched[i] == (h, Message(m.what, m.arg1, m.arg2, Some(h)))
    decreases calls
  {
    if calls == [] {
      events := [];
    } else {
      var n := |calls| - 1;
      var before := MessagesArrive(t, calls[..n]);
      var (h, m) := calls[n];
      var s := Loopers.Run(INITIAL, before);
      SendRuns(s, t, h, m);
      LoopRuns(Loopers.Run(s, SendEvents(t, h, m)), t, h);
      RunSplits(s, SendEvents(t, h, m), LOOP_EVENTS);
      RunSplits(INITIAL, before, SendEvents(t, h, m) + LOOP_EVENTS);
      events := before + (SendEvents(t, h, m) + LOOP_EVENTS);
    }
  }

  // ---------------------------------------------------------------------------------------------
  // quit()
  // ---------------------------------------------------------------------------------------------

  /** quit() has set both flags. */
  predicate Quitted(s: Looper) {
    s.isQuit && s.queue.quit
  }

  /** How many more messages the loop thread can dispatch: one in its hand, or one it is about to take. */
  function Budget(s: Looper): nat {
    if s.loop.Dispatching? || s.queue.At(LOOP).PopOpen? then 1 else 0
  }

  lemma QueueQuits(q: Queue<Message>, e: Event<Message>)
    requires q.quit && !e.Advance?
    ensures BoundedQueue.Next(q, e).quit && BoundedQueue.Next(q, e).log == q.log
    ensures BoundedQueue.Next(q, e).At(LOOP).PopOpen? ==> q.At(LOOP).PopOpen?
  {}

  /** With quit set the loop thread leaves pop, with a message only if it had tested the flag before. */
  lemma PopQuits(q: Queue<Message>)
    requires q.quit && Enabled(q, Advance(LOOP)) && PlaceIn(q, LOOP) == InPop
    ensures var q' := AdvanceThread(q, LOOP);
            && q'.quit && !q'.At(LOOP).PopOpen? && Accepted(q'.log) == Accepted(q.log)
            && (Outcome(q, LOOP).Some? && Outcome(q, LOOP).value.Popped? ==> q.At(LOOP).PopOpen?)
  {
    AdvanceHasOutcome(q, LOOP);
    if Outcome(q, LOOP).Some? {
      LogGrows(q.log, Outcome(q, LOOP).value);
    }
  }

  lemma PopAfterQuit(s: Looper, t: Tid)
    requires LooperInv(s) && Quitted(s) && Enabled(s.queue, Advance(t))
    ensures var s' := QueueStep(s, t);
            && Quitted(s') && Accepted(s'.queue.log) == Accepted(s.queue.log)
            && |s'.dispatched| + Budget(s') <= |s.dispatched| + Budget(s)
  {
    StepAdvances(s.queue, t);
    assert t == LOOP && s.loop.Popping?;
    PopQuits(s.queue);
  }

  lemma ThreadAfterQuit(s: Looper, t: Tid)
    requires LooperInv(s) && Quitted(s) && t != LOOP
    ensures var s' := ThreadStep(s, t);
            Quitted(s') && s'.queue.log == s.queue.log && s'.dispatched == s.dispatched && Budget(s') <= Budget(s)
  {
    if s.At(t).QuitMarked? { QueueQuits(s.queue, SetQuit); }
    if s.At(t).QuitFlagged? { QueueQuits(s.queue, NotifyEmpty); }
    if s.At(t).QuitNotified? { QueueQuits(s.queue, NotifyFull); }
  }

  lemma LoopAfterQuit(s: Looper)
    requires LooperInv(s) && Quitted(s)
    ensures var s' := LoopThreadStep(s);
            && Quitted(s') && s'.queue.log == s.queue.log
            && |s'.dispatched| + Budget(s') <= |s.dispatched| + Budget(s)
  {
    assert s.loop.Dispatching? ==> PlaceIn(s.queue, LOOP) == NotInQueue;
  }

  lemma StepAfterQuit(s: Looper, e: LooperEvent)
    requires LooperInv(s) && Quitted(s)
    ensures Quitted(After(s, e))
    ensures |After(s, e).dispatched| + Budget(After(s, e)) <= |s.dispatched| + Budget(s)
    ensures Accepted(After(s, e).queue.log) == Accepted(s.queue.log)
  {
    match e
    case SendMessage(_, _, _) =>
    case Quit(_) =>
    case Step(t) => if t != LOOP { ThreadAfterQuit(s, t); }
    case InQueue(t) => if Enabled(s.queue, Advance(t)) { PopAfterQuit(s, t); }
    case Wakeup(t) => QueueQuits(s.queue, Spurious(t));
    case LoopStep => LoopAfterQuit(s);
  }

  lemma {:induction false} AfterQuit(s: Looper, more: seq<LooperEvent>)
    requires LooperInv(s) && Quitted(s)
    ensures |Loopers.Run(s, more).dispatched| <= |s.dispatched| + Budget(s)
    ensures Accepted(Loopers.Run(s, more).queue.log) == Accepted(s.queue.log)
    decreases more
  {
    if more != [] {
      StepAfterQuit(s, more[0]);
      NextKeepsInv(s, more[0]);
      AfterQuit(After(s, more[0]), more[1..]);
    }
  }

  /** Once quit() has set its flags at most one further message is dispatched and none is accepted, however
      the run goes on. */
  lemma AtMostOneAfterQuit(events: seq<LooperEvent>, more: seq<LooperEvent>)
    ensures var s := Loopers.Run(INITIAL, events);
            Quitted(s) ==>
              && |Loopers.Run(s, more).dispatched| <= |s.dispatched| + 1
              && Accepted(Loopers.Run(s, more).queue.log) == Accepted(s.queue.log)
  {
    RunKeepsLooperInv(INITIAL, events);
    if Quitted(Loopers.Run(INITIAL, events)) {
      AfterQuit(Loopers.Run(INITIAL, events), more);
    }
  }

  /** How many steps of its own the loop thread takes at most until it has ended, once quit() has set its flags. */
  function StepsLeft(s: Looper): nat {
    match s.loop
    case Exited => 0
    case Top => 1
    case Dispatching(_) => 2
    case Popping => PopStepsLeft(s.queue.At(LOOP))
  }

  function PopStepsLeft(p: Thread<Message>): nat {
    match p
    case PopLocked => 2
    case PopStart => 3
    case PopWaiting => 4
    case PopSleepy => 5
    case _ => 6
  }

  /** The loop thread does something. */
  predicate LoopActs(s: Looper, e: LooperEvent) {
    (e == LoopStep || e == InQueue(LOOP)) && After(s, e) != s
  }

  function LoopActions(s: Looper, events: seq<LooperEvent>): nat
    decreases events
  {
    if events == [] then 0
    else (if LoopActs(s, events[0]) then 1 else 0) + LoopActions(After(s, events[0]), events[1..])
  }

  lemma OthersBringCloser(q: Queue<Message>, e: Event<Message>)
    requires e.Spurious? || e.SetQuit? || e.NotifyEmpty? || e.NotifyFull?
    ensures PopStepsLeft(BoundedQueue.Next(q, e).At(LOOP)) <= PopStepsLeft(q.At(LOOP))
  {}

  lemma ThreadBringsCloser(s: Looper, t: Tid)
    requires Quitted(s) && t != LOOP
    ensures StepsLeft(ThreadStep(s, t)) <= StepsLeft(s)
  {
    OthersBringCloser(s.queue, SetQuit);
    OthersBringCloser(s.queue, NotifyEmpty);
    OthersBringCloser(s.queue, NotifyFull);
  }

  lemma PopBringsCloser(s: Looper, t: Tid)
    requires LooperInv(s) && Quitted(s) && Enabled(s.queue, Advance(t))
    ensures StepsLeft(QueueStep(s, t)) < StepsLeft(s)
  {
    StepAdvances(s.queue, t);
    assert t == LOOP && s.loop.Popping?;
  }

  lemma BringsCloser(s: Looper, e: LooperEvent)
    requires LooperInv(s) && Quitted(s)
    ensures StepsLeft(After(s, e)) + (if LoopActs(s, e) then 1 else 0) <= StepsLeft(s)
  {
    match e
    case SendMessage(_, _, _) =>
    case Quit(_) =>
    case Step(t) => if t != LOOP { ThreadBringsCloser(s, t); }
    case InQueue(t) => if Enabled(s.queue, Advance(t)) { PopBringsCloser(s, t); }
    case Wakeup(t) => OthersBringCloser(s.queue, Spurious(t));
    case LoopStep =>
  }

  /** Once quit() has set its flags the loop thread takes at most six steps more, whatever is still in the queue and
      whatever the other threads do; the count is zero exactly when it has ended. */
  lemma {:induction false} LoopEndsWithinSix(s: Looper, more: seq<LooperEvent>)
    requires LooperInv(s) && Quitted(s)
    ensures LoopActions(s, more) + StepsLeft(Loopers.Run(s, more)) <= StepsLeft(s) <= 6
    ensures StepsLeft(Loopers.Run(s, more)) == 0 <==> Loopers.Run(s, more).loop.Exited?
    decreases more
  {
    if more != [] {
      BringsCloser(s, more[0]);
      StepAfterQuit(s, more[0]);
      NextKeepsInv(s, more[0]);
      LoopEndsWithinSix(After(s, more[0]), more[1..]);
    }
  }

  function QuitEvents(t: Tid): seq<LooperEvent> {
    [Quit(t), Step(t), Step(t)] + [Step(t), Step(t), Step(t), Step(t)]
  }

  /** A call of quit() that nobody disturbs sets both flags and returns, and the loop ends at its next test, with what
      is still in the queue left there. */
  lemma QuitRuns(s: Looper, t: Tid)
    requires Resting(s, t)
    ensures var s' := Loopers.Run(s, QuitEvents(t));
            && Quitted(s') && s'.At(t).Outside? && s'.mutex.None? && s'.queue.contents == s.queue.contents
            && After(s', LoopStep).loop.Exited? && After(s', LoopStep).dispatched == s.dispatched
  {
    var a, b := [Quit(t), Step(t), Step(t)], [Step(t), Step(t), Step(t), Step(t)];
    RunSplits(s, a, b);
    RunThree(s, Quit(t), Step(t), Step(t));
    var s1 := After(s, Quit(t));
    assert s1.At(t) == QuitStart;
    assert After(s1, Step(t)).At(t) == QuitInside;
    var s3 := Loopers.Run(s, a);
    assert s3.At(t) == QuitMarked && s3.isQuit && s3.queue == s.queue && s3.loop.Top?;
    RunFour(s3, Step(t));
    FlagAndNotify(s3, t);
    NotifyAndLeave(After(After(s3, Step(t)), Step(t)), t);
  }

  /** While a sender waits for room the loop thread is not asleep; as long as the loop runs, it has a step, or has
      to wait for a thread that holds the queue's mutex. */
  lemma BlockedSenderIsServed(events: seq<LooperEvent>, t: Tid)
    ensures var s := Loopers.Run(INITIAL, events);
            s.queue.At(t).PushWaiting? ==>
              && !s.queue.At(LOOP).PopWaiting?
              && (!s.loop.Exited? ==>
                    s.loop.Top? || s.loop.Dispatching? || s.queue.holder.Some? || Enabled(s.queue, Advance(LOOP)))
  {
    var s := Loopers.Run(INITIAL, events);
    RunKeepsLooperInv(INITIAL, events);
    if s.queue.At(t).PushWaiting? {
      FullQueueKeepsConsumersAwake(s.queue, t, LOOP);
      if s.loop.Popping? {
        assert PlaceIn(s.queue, LOOP) == InPop;
      }
    }
  }

  lemma FullQueueKeepsConsumersAwake(q: Queue<Message>, t: Tid, u: Tid)
    requires Orderly(q) && q.capacity > 0 && q.At(t).PushWaiting?
    ensures !q.At(u).PopWaiting?
  {
    assert q.threads[t].PushWaiting?;
  }

  /** What an event does to the queue, if anything. */
  function QueueEventOf(s: Looper, e: LooperEvent): Option<Event<Message>> {
    match e
    case Step(t) =>
      if t == LOOP then None else (
        match s.At(t)
        case SendInside(m) => if s.isQuit then None else Some(CallPush(t, m))
        case QuitMarked => Some(SetQuit)
        case QuitFlagged => Some(NotifyEmpty)
        case QuitNotified => Some(NotifyFull)
        case _ => None)
    case InQueue(t) => Some(Advance(t))
    case Wakeup(t) => Some(Spurious(t))
    case LoopStep => if s.loop.Top? && !s.isQuit then Some(CallPop(LOOP)) else None
    case _ => None
  }

  lemma QueueOfAfter(s: Looper, e: LooperEvent)
    ensures After(s, e).queue == (match QueueEventOf(s, e)
                                  case None => s.queue
                                  case Some(q) => BoundedQueue.Next(s.queue, q))
  {}

  /** The queue's quit is set with nobody about to wait; once `t` has notified, nobody waits either. */
  ghost predicate Noticed(s: Looper, t: Tid) {
    s.queue.quit && !Q.ConsumerAboutToWait(s.queue) && (s.At(t).QuitFlagged? || Q.NoConsumerWaits(s.queue))
  }

  lemma OnlyItsStepMoves(s: Looper, e: LooperEvent, t: Tid)
    requires InStep(s) && t != LOOP && s.At(t).QuitFlagged? && e != Step(t)
    ensures After(s, e).At(t).QuitFlagged?
  {
    if e.InQueue? && Enabled(s.queue, Advance(e.t)) && e.t != LOOP {
      SenderIsSending(s, e.t);
    }
  }

  lemma StepKeepsNoticed(s: Looper, e: LooperEvent, t: Tid)
    requires LooperInv(s) && t != LOOP && Noticed(s, t)
    ensures Noticed(After(s, e), t)
  {
    QueueOfAfter(s, e);
    var qe := QueueEventOf(s, e);
    if qe.Some? {
      Q.StepKeepsAwake(s.queue, qe.value);
    }
    if s.At(t).QuitFlagged? {
      if e == Step(t) {
        Q.Notified(s.queue);
      } else {
        OnlyItsStepMoves(s, e, t);
      }
    }
  }

  lemma {:induction false} RunKeepsNoticed(s: Looper, events: seq<LooperEvent>, t: Tid)
    requires LooperInv(s) && t != LOOP && Noticed(s, t)
    ensures LooperInv(Loopers.Run(s, events)) && Noticed(Loopers.Run(s, events), t)
    decreases events
  {
    if events != [] {
      NextKeepsInv(s, events[0]);
      StepKeepsNoticed(s, events[0], t);
      RunKeepsNoticed(After(s, events[0]), events[1..], t);
    }
  }

  /** The state after quit()'s thread has set the queue's flag, and after whatever comes then. */
  function QuitRun(s: Looper, t: Tid, events: seq<LooperEvent>): Looper {
    Loopers.Run(After(s, Step(t)), events)
  }

  lemma LoopNotices(s: Looper, t: Tid, events: seq<LooperEvent>)
    requires LooperInv(s) && t != LOOP && s.At(t).QuitMarked? && !Q.ConsumerAboutToWait(s.queue)
    ensures var s' := QuitRun(s, t, events);
            LooperInv(s') && (s'.At(t).Outside? ==> !s'.queue.At(LOOP).PopWaiting?)
  {
    NextKeepsInv(s, Step(t));
    RunKeepsNoticed(After(s, Step(t)), events, t);
    var q := QuitRun(s, t, events).queue;
    assert LOOP in q.threads ==> Q.NoConsumerWaits(q) ==> !q.threads[LOOP].PopWaiting?;
  }

  /** Only the loop thread is a consumer. */
  lemma ConsumerIsLoop(s: Looper)
    requires LooperInv(s) && Q.ConsumerAboutToWait(s.queue)
    ensures s.queue.holder == Some(LOOP)
  {
    assert s.queue.holder.value != LOOP ==> !PlaceIn(s.queue, s.queue.holder.value).InPop?;
  }

  lemma FlagAndNotify(s: Looper, t: Tid)
    requires t != LOOP && s.At(t).QuitMarked?
    ensures After(After(s, Step(t)), Step(t))
            == s.(queue := BoundedQueue.Next(BoundedQueue.Next(s.queue, SetQuit), NotifyEmpty)).Move(t, QuitNotified)
  {
    var s1 := After(s, Step(t));
    assert s1.At(t) == QuitFlagged;
    assert s.threads[t := QuitFlagged][t := QuitNotified] == s.threads[t := QuitNotified];
  }

  lemma NotifyAndLeave(s: Looper, t: Tid)
    requires t != LOOP && s.At(t).QuitNotified?
    ensures After(After(s, Step(t)), Step(t))
            == s.(queue := BoundedQueue.Next(s.queue, NotifyFull), mutex := None).Move(t, Outside)
  {
    var s1 := After(s, Step(t));
    assert s1.At(t) == Leaving;
    assert s.threads[t := Leaving][t := Outside] == s.threads[t := Outside];
  }

  lemma NotifiesAndReturns(s: Looper, t: Tid)
    requires t != LOOP && s.At(t).QuitMarked?
    ensures var s' := Loopers.Run(s, [Step(t), Step(t), Step(t), Step(t)]);
            && s'.At(t).Outside?
            && s'.queue == BoundedQueue.Next(BoundedQueue.Next(BoundedQueue.Next(s.queue, SetQuit), NotifyEmpty),
                                             NotifyFull)
  {
    RunFour(s, Step(t));
    FlagAndNotify(s, t);
    NotifyAndLeave(After(After(s, Step(t)), Step(t)), t);
  }

  lemma RunFour(s: Looper, e: LooperEvent)
    ensures Loopers.Run(s, [e, e, e, e]) == After(After(After(After(s, e), e), e), e)
  {
    var s1 := After(s, e);
    var s2 := After(s1, e);
    var s3 := After(s2, e);
    assert [e, e, e, e][1..] == [e, e, e] && [e, e, e][1..] == [e, e] && [e, e][1..] == [e] && [e][1..] == [];
    assert Loopers.Run(s3, [e]) == After(s3, e);
    assert Loopers.Run(s2, [e, e]) == Loopers.Run(s3, [e]);
    assert Loopers.Run(s1, [e, e, e]) == Loopers.Run(s2, [e, e]);
  }

  lemma FlagsAndNotifications(q: Queue<Message>, h: Tid)
    requires q.holder == Some(h) && (q.At(h).PopSleepy? || q.At(h).PopOpen?)
    ensures var q' := BoundedQueue.Next(BoundedQueue.Next(BoundedQueue.Next(q, SetQuit), NotifyEmpty), NotifyFull);
            q'.holder == q.holder && q'.At(h) == q.At(h) && q'.contents == q.contents && q'.finished == q.finished
  {}

  /** With the mutex held by a consumer about to wait, its next steps take it into the wait. */
  lemma LoopFallsAsleep(s: Looper) returns (events: seq<LooperEvent>)
    requires s.queue.holder == Some(LOOP) && Q.ConsumerAboutToWait(s.queue)
    ensures var s' := Loopers.Run(s, events); s'.queue.At(LOOP).PopWaiting? && s'.threads == s.threads
  {
    var e := InQueue(LOOP);
    var s1 := After(s, e);
    events := if s.queue.At(LOOP).PopOpen? then [e, e] else [e];
    assert Loopers.Run(s, events) == Loopers.Run(s1, events[1..]);
    if s.queue.At(LOOP).PopOpen? {
      assert s1.queue.At(LOOP).PopSleepy?;
      assert Loopers.Run(s1, events[1..]) == Loopers.Run(After(s1, e), []);
    }
  }

  lemma {:induction false} RunSplits(s: Looper, a: seq<LooperEvent>, b: seq<LooperEvent>)
    ensures Loopers.Run(s, a + b) == Loopers.Run(Loopers.Run(s, a), b)
    decreases a
  {
    if a == [] {
      assert a + b == b;
    } else {
      assert (a + b)[1..] == a[1..] + b;
      RunSplits(After(s, a[0]), a[1..], b);
    }
  }

  lemma LoopMisses(s: Looper, t: Tid) returns (events: seq<LooperEvent>)
    requires LooperInv(s) && t != LOOP && s.At(t).QuitMarked? && Q.ConsumerAboutToWait(s.queue)
    ensures var s' := QuitRun(s, t, events); s'.At(t).Outside? && s'.queue.At(LOOP).PopWaiting?
  {
    var e := Step(t);
    var quit := [e, e, e, e];
    ConsumerIsLoop(s);
    NotifiesAndReturns(s, t);
    FlagsAndNotifications(s.queue, LOOP);
    var rest := LoopFallsAsleep(Loopers.Run(s, quit));
    RunSplits(s, quit, rest);
    events := quit[1..] + rest;
    assert (quit + rest)[1..] == events;
  }

  /** After quit() has returned the loop thread is not asleep, and never will be, exactly if it was not about to
      wait when quit() set the queue's flag. */
  lemma LoopWakesIff(s: Looper, t: Tid)
    requires LooperInv(s) && t != LOOP && s.At(t).QuitMarked?
    ensures (forall events :: QuitRun(s, t, events).At(t).Outside? ==>
                                !QuitRun(s, t, events).queue.At(LOOP).PopWaiting?)
            <==> !Q.ConsumerAboutToWait(s.queue)
  {
    if Q.ConsumerAboutToWait(s.queue) {
      var events := LoopMisses(s, t);
    } else {
      forall events
        ensures QuitRun(s, t, events).At(t).Outside? ==> !QuitRun(s, t, events).queue.At(LOOP).PopWaiting?
      {
        LoopNotices(s, t, events);
      }
    }
  }

  /** Then, when no thread has a step any more, the loop has ended. */
  lemma LoopExits(s: Looper, t: Tid, events: seq<LooperEvent>)
    requires LooperInv(s) && t != LOOP && s.At(t).QuitMarked? && !Q.ConsumerAboutToWait(s.queue)
    ensures var s' := QuitRun(s, t, events); s'.At(t).Outside? && Quiet(s') ==> s'.loop.Exited?
  {
    var s' := QuitRun(s, t, events);
    LoopNotices(s, t, events);
    if Quiet(s') && s'.loop.Popping? {
      QuietLoopWaits(s', LOOP);
    }
  }
}
