/** The blocking queue of queue/Queue.h and of xhandler/XMessageQueue.h, which use one algorithm: any number
    of producers and consumers under a mutex, two condition variables, and the atomic flags quit and finished,
    which are set without the mutex. The model is a step system; a run is any sequence of events, and an event
    that cannot happen in a state leaves it as it is. */
module BoundedQueue {

  import opened Options

  type Tid = nat

  datatype Item<T> = Item(producer: Tid, value: T)

  /** Where a thread is in push or pop. */
  datatype Thread<T> =
    | Idle
    | PushStart(value: T)   // needs the mutex: just called, or woken from the wait
    | PushLocked(value: T)  // has the mutex, next tests the flags
    | PushOpen(value: T)    // has the mutex, found both flags unset
    | PushWaiting(value: T) // waits for room
    | PopStart
    | PopLocked
    | PopOpen               // has the mutex, found quit unset
    | PopSleepy             // has the mutex, found the queue empty and not finished, next waits
    | PopWaiting
  {
    predicate HasMutex() {
      PushLocked? || PushOpen? || PopLocked? || PopOpen? || PopSleepy?
    }

    predicate Pushing() {
      PushStart? || PushLocked? || PushOpen? || PushWaiting?
    }

    predicate Popping() {
      PopStart? || PopLocked? || PopOpen? || PopSleepy? || PopWaiting?
    }

    predicate Waiting() {
      PushWaiting? || PopWaiting?
    }
  }

  /** A call that returned, and what it returned. */
  datatype Return<T> =
    | Pushed(item: Item<T>)
    | PushRefused(thread: Tid, value: T)
    | Popped(thread: Tid, item: Item<T>)
    | PopRefused(thread: Tid)

  datatype Queue<T> = Queue(
    contents: seq<Item<T>>,
    capacity: nat,
    quit: bool,
    finished: bool,
    holder: Option<Tid>,
    threads: map<Tid, Thread<T>>,
    log: seq<Return<T>>)
  {
    function At(t: Tid): Thread<T> {
      if t in threads then threads[t] else Idle
    }

    function Move(t: Tid, pc: Thread<T>): Queue<T> {
      this.(threads := threads[t := pc])
    }

    /** The call of thread `t` returns and gives the mutex back. */
    function Leave(t: Tid, r: Return<T>): Queue<T> {
      this.(threads := threads[t := Idle], holder := None, log := log + [r])
    }
  }

  datatype Event<T> =
    | CallPush(t: Tid, value: T)
    | CallPop(t: Tid)
    | Advance(t: Tid)   // the thread's own next step
    | Spurious(t: Tid)  // a wait ends without a notification
    | SetFinished
    | SetQuit
    | NotifyEmpty
    | NotifyFull

  function WakeEmpty<T>(threads: map<Tid, Thread<T>>): map<Tid, Thread<T>> {
    map t | t in threads :: if threads[t].PopWaiting? then PopStart else threads[t]
  }

  function WakeFull<T>(threads: map<Tid, Thread<T>>): map<Tid, Thread<T>> {
    map t | t in threads :: if threads[t].PushWaiting? then PushStart(threads[t].value) else threads[t]
  }

  predicate Enabled<T>(s: Queue<T>, e: Event<T>) {
    match e
    case CallPush(t, _) => s.At(t).Idle?
    case CallPop(t) => s.At(t).Idle?
    case Advance(t) => s.At(t).HasMutex() || (s.holder.None? && (s.At(t).PushStart? || s.At(t).PopStart?))
    case Spurious(t) => s.At(t).Waiting()
    case _ => true
  }

  /** One step of thread `t` inside push or pop. */
  function AdvanceThread<T>(s: Queue<T>, t: Tid): Queue<T> {
    match s.At(t)
    case PushStart(v) => s.Move(t, PushLocked(v)).(holder := Some(t))
    case PushLocked(v) => if s.quit || s.finished then s.Leave(t, PushRefused(t, v)) else s.Move(t, PushOpen(v))
    case PushOpen(v) =>
      if |s.contents| < s.capacity
      then s.(contents := s.contents + [Item(t, v)], threads := WakeEmpty(s.threads)).Leave(t, Pushed(Item(t, v)))
      else s.Move(t, PushWaiting(v)).(holder := None)
    case PopStart => s.Move(t, PopLocked).(holder := Some(t))
    case PopLocked => if s.quit then s.Leave(t, PopRefused(t)) else s.Move(t, PopOpen)
    case PopOpen =>
      if s.contents != []
      then s.(contents := s.contents[1..], threads := WakeFull(s.threads)).Leave(t, Popped(t, s.contents[0]))
      else if s.finished then s.Leave(t, PopRefused(t))
      else s.Move(t, PopSleepy)
    case PopSleepy => s.Move(t, PopWaiting).(holder := None)
    case _ => s
  }

  function Next<T>(s: Queue<T>, e: Event<T>): Queue<T> {
    if !Enabled(s, e) then s else
      match e
      case CallPush(t, v) => s.Move(t, PushStart(v))
      case CallPop(t) => s.Move(t, PopStart)
      case Advance(t) => AdvanceThread(s, t)
      case Spurious(t) => s.Move(t, if s.At(t).PushWaiting? then PushStart(s.At(t).value) else PopStart)
      case SetFinished => s.(finished := true)
      case SetQuit => s.(quit := true)
      case NotifyEmpty => s.(threads := WakeEmpty(s.threads))
      case NotifyFull => s.(threads := WakeFull(s.threads))
  }

  function Run<T>(s: Queue<T>, events: seq<Event<T>>): Queue<T>
    decreases events
  {
    if events == [] then s else Run(Next(s, events[0]), events[1..])
  }

  function Empty<T>(capacity: nat): Queue<T> {
    Queue([], capacity, false, false, None, map[], [])
  }

  /** The items whose push returned true, in the order the calls returned. */
  function Accepted<T>(log: seq<Return<T>>): seq<Item<T>> {
    if log == [] then []
    else Accepted(log[..|log| - 1]) + (var r := log[|log| - 1]; if r.Pushed? then [r.item] else [])
  }

  /** The items handed out by pops that returned true, in the order the calls returned. */
  function Taken<T>(log: seq<Return<T>>): seq<Item<T>> {
    if log == [] then []
    else Taken(log[..|log| - 1]) + (var r := log[|log| - 1]; if r.Popped? then [r.item] else [])
  }

  predicate SomePopRefused<T>(log: seq<Return<T>>) {
    log != [] && (log[|log| - 1].PopRefused? || SomePopRefused(log[..|log| - 1]))
  }

  // ---------------------------------------------------------------------------------------------
  // The invariant
  // ---------------------------------------------------------------------------------------------

  /** The holder, and nobody else, is at a point that has the mutex. */
  predicate Exclusive<T>(s: Queue<T>) {
    forall t :: t in s.threads ==> (s.threads[t].HasMutex() <==> s.holder == Some(t))
  }

  /** Consumers wait only on an empty queue, producers only on a full one. */
  predicate NoLostWakeup<T>(s: Queue<T>) {
    && (forall t :: t in s.threads && (s.threads[t].PopWaiting? || s.threads[t].PopSleepy?) ==> s.contents == [])
    && (forall t :: t in s.threads && s.threads[t].PushWaiting? ==> |s.contents| >= s.capacity)
  }

  ghost predicate FirstInFirstOut<T>(s: Queue<T>) {
    Accepted(s.log) == Taken(s.log) + s.contents && |s.contents| <= s.capacity
  }

  /** No push can succeed any more. */
  predicate Closed<T>(s: Queue<T>) {
    (s.quit || s.finished) && forall t :: t in s.threads ==> !s.threads[t].PushOpen?
  }

  ghost predicate Inv<T>(s: Queue<T>) {
    && Orderly(s)
    && FirstInFirstOut(s)
    && (SomePopRefused(s.log) && !s.quit ==> Closed(s) && s.contents == [])
  }

  lemma LogGrows<T>(log: seq<Return<T>>, r: Return<T>)
    ensures Accepted(log + [r]) == Accepted(log) + (if r.Pushed? then [r.item] else [])
    ensures Taken(log + [r]) == Taken(log) + (if r.Popped? then [r.item] else [])
    ensures SomePopRefused(log + [r]) <==> SomePopRefused(log) || r.PopRefused?
  {
    var l := log + [r];
    assert l[..|l| - 1] == log && l[|log|] == r;
  }

  /** What thread `t` returns with its next step, if anything. */
  function Outcome<T>(s: Queue<T>, t: Tid): Option<Return<T>> {
    match s.At(t)
    case PushLocked(v) => if s.quit || s.finished then Some(PushRefused(t, v)) else None
    case PushOpen(v) => if |s.contents| < s.capacity then Some(Pushed(Item(t, v))) else None
    case PopLocked => if s.quit then Some(PopRefused(t)) else None
    case PopOpen =>
      if s.contents != [] then Some(Popped(t, s.contents[0]))
      else if s.finished then Some(PopRefused(t)) else None
    case _ => None
  }

  lemma AdvanceHasOutcome<T>(s: Queue<T>, t: Tid)
    ensures var s', o := AdvanceThread(s, t), Outcome(s, t);
            && s'.quit == s.quit && s'.finished == s.finished && s'.capacity == s.capacity
            && s'.log == (if o.Some? then s.log + [o.value] else s.log)
            && s'.contents == (if o.Some? && o.value.Pushed? then s.contents + [o.value.item]
                               else if o.Some? && o.value.Popped? then s.contents[1..] else s.contents)
  {}

  lemma OutcomeFits<T>(s: Queue<T>, t: Tid)
    requires Outcome(s, t).Some?
    ensures var r := Outcome(s, t).value;
            && (r.Pushed? ==> |s.contents| < s.capacity)
            && (r.Popped? ==> s.contents != [] && r.item == s.contents[0])
            && (r.PopRefused? && !s.quit ==> s.At(t).PopOpen? && s.finished && s.contents == [])
  {}

  /** A push appends to both sides of the history, a pop moves the first item across. */
  lemma ReturnKeepsHistory<T>(log: seq<Return<T>>, contents: seq<Item<T>>, r: Return<T>)
    requires Accepted(log) == Taken(log) + contents
    requires r.Popped? ==> contents != [] && r.item == contents[0]
    ensures var left := if r.Pushed? then contents + [r.item] else if r.Popped? then contents[1..] else contents;
            Accepted(log + [r]) == Taken(log + [r]) + left
  {
    LogGrows(log, r);
    if r.Popped? {
      assert contents == [contents[0]] + contents[1..];
    }
  }

  /** What a thread's step does to the history. */
  lemma AdvanceKeepsHistory<T>(s: Queue<T>, t: Tid)
    requires FirstInFirstOut(s)
    ensures FirstInFirstOut(AdvanceThread(s, t))
    ensures SomePopRefused(s.log) ==> SomePopRefused(AdvanceThread(s, t).log)
    ensures SomePopRefused(AdvanceThread(s, t).log) && !SomePopRefused(s.log) && !s.quit ==>
              s.At(t).PopOpen? && s.finished && s.contents == []
  {
    AdvanceHasOutcome(s, t);
    if Outcome(s, t).Some? {
      var r := Outcome(s, t).value;
      OutcomeFits(s, t);
      ReturnKeepsHistory(s.log, s.contents, r);
      LogGrows(s.log, r);
    }
  }

  /** The part of the invariant about the mutex and the waits. */
  predicate Orderly<T>(s: Queue<T>) {
    Exclusive(s) && (s.holder.Some? ==> s.holder.value in s.threads) && NoLostWakeup(s)
  }

  lemma PushKeepsOrder<T>(s: Queue<T>, t: Tid)
    requires Orderly(s) && Enabled(s, Advance(t)) && s.At(t).Pushing()
    ensures Orderly(AdvanceThread(s, t)) && AdvanceThread(s, t).capacity == s.capacity
  {}

  lemma PopKeepsOrder<T>(s: Queue<T>, t: Tid)
    requires Orderly(s) && Enabled(s, Advance(t)) && s.At(t).Popping()
    ensures Orderly(AdvanceThread(s, t)) && AdvanceThread(s, t).capacity == s.capacity
  {}

  lemma OtherEventsKeepOrder<T>(s: Queue<T>, e: Event<T>)
    requires Orderly(s) && !e.Advance?
    ensures Orderly(Next(s, e)) && Next(s, e).capacity == s.capacity
    ensures Next(s, e).contents == s.contents && Next(s, e).log == s.log
    ensures Closed(s) ==> Closed(Next(s, e))
  {}

  lemma AdvanceKeepsClosed<T>(s: Queue<T>, t: Tid)
    requires Closed(s)
    ensures Closed(AdvanceThread(s, t)) && Accepted(AdvanceThread(s, t).log) == Accepted(s.log)
  {
    AdvanceHasOutcome(s, t);
    if Outcome(s, t).Some? {
      LogGrows(s.log, Outcome(s, t).value);
    }
    ClosedStaysClosed(s, t);
  }

  lemma ClosedStaysClosed<T>(s: Queue<T>, t: Tid)
    requires Closed(s)
    ensures Closed(AdvanceThread(s, t))
  {}

  /** With the mutex held by a consumer, no producer is past its test of the flags. */
  lemma RefusedPopCloses<T>(s: Queue<T>, t: Tid)
    requires Exclusive(s) && s.At(t).PopOpen? && s.finished && s.contents == []
    ensures Closed(AdvanceThread(s, t)) && AdvanceThread(s, t).contents == []
  {}

  lemma ClosedPopKeepsEmpty<T>(s: Queue<T>, t: Tid)
    requires Closed(s) && s.contents == []
    ensures AdvanceThread(s, t).contents == [] && AdvanceThread(s, t).quit == s.quit
  {}

  lemma AdvanceKeepsInv<T>(s: Queue<T>, t: Tid)
    requires Inv(s) && Enabled(s, Advance(t))
    ensures Inv(AdvanceThread(s, t)) && AdvanceThread(s, t).capacity == s.capacity
  {
    var s' := AdvanceThread(s, t);
    AdvanceKeepsHistory(s, t);
    assert Orderly(s') && s'.capacity == s.capacity by {
      if s.At(t).Pushing() { PushKeepsOrder(s, t); } else { PopKeepsOrder(s, t); }
    }
    if SomePopRefused(s'.log) && !s'.quit {
      if SomePopRefused(s.log) {
        AdvanceKeepsClosed(s, t);
        ClosedPopKeepsEmpty(s, t);
      } else {
        RefusedPopCloses(s, t);
      }
    }
  }

  lemma StepKeepsInv<T>(s: Queue<T>, e: Event<T>)
    requires Inv(s)
    ensures Inv(Next(s, e)) && Next(s, e).capacity == s.capacity
  {
    if e.Advance? {
      if Enabled(s, e) { AdvanceKeepsInv(s, e.t); }
    } else {
      OtherEventsKeepOrder(s, e);
    }
  }

  lemma {:induction false} RunKeepsInv<T>(s: Queue<T>, events: seq<Event<T>>)
    requires Inv(s)
    ensures Inv(Run(s, events)) && Run(s, events).capacity == s.capacity
    decreases events
  {
    if events != [] {
      StepKeepsInv(s, events[0]);
      RunKeepsInv(Next(s, events[0]), events[1..]);
    }
  }

  // ---------------------------------------------------------------------------------------------
  // The object
  // ---------------------------------------------------------------------------------------------

  /** The queue object, with the mutex and where each thread is. Its methods are the stretches of push and pop
      between two points at which another thread can act. */
  class BlockingQueue<T> {
    var queue: seq<Item<T>>
    const sizeMax: nat
    var quit: bool
    var finished: bool
    var mutex: Option<Tid>
    var threads: map<Tid, Thread<T>>
    ghost var log: seq<Return<T>>

    ghost function State(): Queue<T>
      reads this
    {
      Queue(queue, sizeMax, quit, finished, mutex, threads, log)
    }

    ghost predicate Valid()
      reads this
    {
      Inv(State())
    }

    constructor (sizeMax: nat)
      ensures Valid() && State() == Empty(sizeMax)
    {
      queue := [];
      this.sizeMax := sizeMax;
      quit, finished, mutex, threads, log := false, false, None, map[], [];
    }

    method Acquire(t: Tid, pc: Thread<T>)
      modifies this`threads, this`mutex
      ensures State() == old(State()).Move(t, pc).(holder := Some(t))
    {
      mutex := Some(t);
      threads := threads[t := pc];
    }

    method Wait(t: Tid, pc: Thread<T>)
      modifies this`threads, this`mutex
      ensures State() == old(State()).Move(t, pc).(holder := None)
    {
      threads := threads[t := pc];
      mutex := None;
    }

    method Return(t: Tid, ghost r: Return<T>)
      modifies this`threads, this`mutex, this`log
      ensures State() == old(State()).Leave(t, r)
    {
      threads := threads[t := Idle];
      mutex := None;
      log := log + [r];
    }

    /** Thread `t`'s next step inside push; the result is what push returns, once it does. */
    method Push(t: Tid) returns (r: Option<bool>)
      requires Valid() && Enabled(State(), Advance(t)) && State().At(t).Pushing()
      modifies this
      ensures Valid() && State() == AdvanceThread(old(State()), t)
      ensures r == match Outcome(old(State()), t) { case None => None case Some(o) => Some(o.Pushed?) }
    {
      AdvanceKeepsInv(State(), t);
      r := None;
      match threads[t] {
        case PushStart(data) =>
          Acquire(t, PushLocked(data));
        case PushLocked(data) =>
          if !quit && !finished {
            threads := threads[t := PushOpen(data)];
          } else {
            Return(t, PushRefused(t, data));
            r := Some(false);
          }
        case PushOpen(data) =>
          if |queue| < sizeMax {
            queue := queue + [Item(t, data)];
            threads := WakeEmpty(threads);
            Return(t, Pushed(Item(t, data)));
            r := Some(true);
          } else {
            Wait(t, PushWaiting(data));
          }
      }
    }

    /** What pop does past its test of the flag, with the mutex held. */
    method Take(t: Tid) returns (r: Option<Option<Item<T>>>)
      requires Enabled(State(), Advance(t)) && State().At(t).PopOpen?
      modifies this
      ensures State() == AdvanceThread(old(State()), t)
      ensures r == match Outcome(old(State()), t) {
                     case None => None
                     case Some(o) => Some(if o.Popped? then Some(o.item) else None)
                   }
    {
      r := None;
      if queue != [] {
        var data := queue[0];
        queue := queue[1..];
        threads := WakeFull(threads);
        Return(t, Popped(t, data));
        r := Some(Some(data));
      } else if finished {
        Return(t, PopRefused(t));
        r := Some(None);
      } else {
        threads := threads[t := PopSleepy];
      }
    }

    /** Thread `t`'s next step inside pop; the result is the item popped, or None within Some for a refusal. */
    method Pop(t: Tid) returns (r: Option<Option<Item<T>>>)
      requires Valid() && Enabled(State(), Advance(t)) && State().At(t).Popping()
      modifies this
      ensures Valid() && State() == AdvanceThread(old(State()), t)
      ensures r == match Outcome(old(State()), t) {
                     case None => None
                     case Some(o) => Some(if o.Popped? then Some(o.item) else None)
                   }
    {
      AdvanceKeepsInv(State(), t);
      r := None;
      match threads[t] {
        case PopStart =>
          Acquire(t, PopLocked);
        case PopLocked =>
          if !quit {
            threads := threads[t := PopOpen];
          } else {
            Return(t, PopRefused(t));
            r := Some(None);
          }
        case PopOpen =>
          r := Take(t);
        case PopSleepy =>
          Wait(t, PopWaiting);
      }
    }

    method IsIdle(t: Tid) returns (idle: bool)
      ensures idle == State().At(t).Idle?
    {
      idle := t in threads ==> threads[t].Idle?;
    }

    method CanAdvance(t: Tid) returns (can: bool)
      ensures can == Enabled(State(), Advance(t))
    {
      var pc := if t in threads then threads[t] else Idle;
      can := pc.HasMutex() || (mutex.None? && (pc.PushStart? || pc.PopStart?));
    }

    method Perform(e: Event<T>)
      requires Valid() && Enabled(State(), e)
      modifies this
      ensures Valid() && State() == Next(old(State()), e)
    {
      StepKeepsInv(State(), e);
      match e {
        case CallPush(t, data) => threads := threads[t := PushStart(data)];
        case CallPop(t) => threads := threads[t := PopStart];
        case Advance(t) =>
          if threads[t].Pushing() {
            var _ := Push(t);
          } else {
            var _ := Pop(t);
          }
        case Spurious(t) =>
          threads := threads[t := match threads[t] { case PushWaiting(data) => PushStart(data) case _ => PopStart }];
        case SetFinished => finished := true;
        case SetQuit => quit := true;
        case NotifyEmpty => threads := WakeEmpty(threads);
        case NotifyFull => threads := WakeFull(threads);
      }
    }
  }
}
