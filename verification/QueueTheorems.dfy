/** What the blocking queue promises over all runs, with any number of producers and consumers. */
module QueueTheorems {
  import opened Options
  import opened BoundedQueue

  /** Everything accepted was handed out, in the same order and once each, or is still in the queue, which
      never holds more than its capacity. */
  lemma QueueHistory<T>(capacity: nat, events: seq<Event<T>>)
    ensures var s := Run(Empty(capacity), events);
            Inv(s) && Accepted(s.log) == Taken(s.log) + s.contents && |s.contents| <= capacity
  {
    RunKeepsInv(Empty(capacity), events);
  }

  // ---------------------------------------------------------------------------------------------
  // Each producer's order
  // ---------------------------------------------------------------------------------------------

  function FromProducer<T>(items: seq<Item<T>>, p: Tid): seq<T> {
    if items == [] then []
    else FromProducer(items[..|items| - 1], p)
         + (var i := items[|items| - 1]; if i.producer == p then [i.value] else [])
  }

  /** The pushes of `p` that returned, in order, and whether they succeeded. */
  function PushReturns<T>(log: seq<Return<T>>, p: Tid): seq<(T, bool)> {
    if log == [] then []
    else PushReturns(log[..|log| - 1], p)
         + (match log[|log| - 1]
            case Pushed(i) => if i.producer == p then [(i.value, true)] else []
            case PushRefused(t, v) => if t == p then [(v, false)] else []
            case _ => [])
  }

  function Succeeded<T>(results: seq<(T, bool)>): seq<T> {
    if results == [] then []
    else Succeeded(results[..|results| - 1])
         + (if results[|results| - 1].1 then [results[|results| - 1].0] else [])
  }

  function Values<T>(results: seq<(T, bool)>): seq<T> {
    seq(|results|, i requires 0 <= i < |results| => results[i].0)
  }

  /** The value `p` is pushing right now. */
  function Pending<T>(s: Queue<T>, p: Tid): seq<T> {
    if s.At(p).Pushing() then [s.At(p).value] else []
  }

  /** The values `p` calls push with during the run, in program order. */
  function Offered<T>(s: Queue<T>, events: seq<Event<T>>, p: Tid): seq<T>
    decreases events
  {
    if events == [] then []
    else (if events[0].CallPush? && events[0].t == p && Enabled(s, events[0]) then [events[0].value] else [])
         + Offered(Next(s, events[0]), events[1..], p)
  }

  lemma {:induction false} FromProducerSplits<T>(a: seq<Item<T>>, b: seq<Item<T>>, p: Tid)
    ensures FromProducer(a + b, p) == FromProducer(a, p) + FromProducer(b, p)
    decreases b
  {
    if b == [] {
      assert a + b == a;
    } else {
      var c := b[..|b| - 1];
      assert (a + b)[..|a + b| - 1] == a + c;
      FromProducerSplits(a, c, p);
    }
  }

  lemma {:induction false} AcceptedAreSuccesses<T>(log: seq<Return<T>>, p: Tid)
    ensures FromProducer(Accepted(log), p) == Succeeded(PushReturns(log, p))
  {
    if log != [] {
      var init, r := log[..|log| - 1], log[|log| - 1];
      AcceptedAreSuccesses(init, p);
      FromProducerSplits(Accepted(init), if r.Pushed? then [r.item] else [], p);
      var results := PushReturns(init, p);
      assert forall x: (T, bool) :: (results + [x])[..|results|] == results;
      assert results + [] == results;
    }
  }

  lemma ReturnsGrow<T>(log: seq<Return<T>>, r: Return<T>, p: Tid)
    ensures PushReturns(log + [r], p)
            == PushReturns(log, p)
               + (match r
                  case Pushed(i) => if i.producer == p then [(i.value, true)] else []
                  case PushRefused(t, v) => if t == p then [(v, false)] else []
                  case _ => [])
  {
    assert (log + [r])[..|log|] == log;
  }

  lemma AdvanceKeepsOffers<T>(s: Queue<T>, t: Tid, p: Tid)
    ensures var s' := AdvanceThread(s, t);
            Values(PushReturns(s'.log, p)) + Pending(s', p) == Values(PushReturns(s.log, p)) + Pending(s, p)
  {
    AdvanceHasOutcome(s, t);
    AdvancePending(s, t, p);
    if Outcome(s, t).Some? {
      ReturnsGrow(s.log, Outcome(s, t).value, p);
    }
  }

  /** One step: what `p` offers is pending until it returns. */
  lemma StepKeepsOffers<T>(s: Queue<T>, e: Event<T>, p: Tid)
    ensures var s' := Next(s, e);
            Values(PushReturns(s'.log, p)) + Pending(s', p)
            == Values(PushReturns(s.log, p)) + Pending(s, p) + Offered(s, [e], p)
  {
    if e.Advance? && Enabled(s, e) {
      AdvanceKeepsOffers(s, e.t, p);
    } else {
      OtherPending(s, e, p);
    }
  }

  lemma OtherPending<T>(s: Queue<T>, e: Event<T>, p: Tid)
    requires e.Advance? ==> !Enabled(s, e)
    ensures Next(s, e).log == s.log
    ensures Pending(Next(s, e), p) == Pending(s, p) + Offered(s, [e], p)
  {}

  lemma AdvancePending<T>(s: Queue<T>, t: Tid, p: Tid)
    ensures var s', o := AdvanceThread(s, t), Outcome(s, t);
            Pending(s, p) == (if t == p && o.Some? && o.value.Pushed? then [o.value.item.value]
                              else if t == p && o.Some? && o.value.PushRefused? then [o.value.value]
                              else Pending(s', p))
            && (t == p && o.Some? ==> Pending(s', p) == [])
  {
    if t != p {
      OthersPending(s, t, p);
    }
  }

  lemma OthersPending<T>(s: Queue<T>, t: Tid, p: Tid)
    requires t != p
    ensures Pending(AdvanceThread(s, t), p) == Pending(s, p)
  {}

  lemma OfferedSplits<T>(s: Queue<T>, events: seq<Event<T>>, p: Tid)
    requires events != []
    ensures Offered(s, events, p) == Offered(s, [events[0]], p) + Offered(Next(s, events[0]), events[1..], p)
  {
    assert [events[0]][1..] == [];
  }

  lemma ConcatAssociates<T>(a: seq<T>, b: seq<T>, c: seq<T>)
    ensures (a + b) + c == a + (b + c)
  {}

  lemma {:induction false} RunKeepsOffers<T>(s: Queue<T>, events: seq<Event<T>>, p: Tid)
    ensures var s' := Run(s, events);
            Values(PushReturns(s'.log, p)) + Pending(s', p)
            == Values(PushReturns(s.log, p)) + Pending(s, p) + Offered(s, events, p)
    decreases events
  {
    if events != [] {
      var s1 := Next(s, events[0]);
      StepKeepsOffers(s, events[0], p);
      RunKeepsOffers(s1, events[1..], p);
      OfferedSplits(s, events, p);
      ConcatAssociates(Values(PushReturns(s.log, p)) + Pending(s, p), Offered(s, [events[0]], p),
                       Offered(s1, events[1..], p));
    }
  }

  /** A producer's items come out in the order in which it pushed them: what was taken of them is a prefix
      of its successful pushes, and its pushes return in the order of its calls. */
  lemma ProducerOrder<T>(capacity: nat, events: seq<Event<T>>, p: Tid)
    ensures var s := Run(Empty(capacity), events);
            var results := PushReturns(s.log, p);
            && FromProducer(Taken(s.log), p) <= Succeeded(results)
            && Values(results) + Pending(s, p) == Offered(Empty(capacity), events, p)
  {
    QueueHistory(capacity, events);
    TakenAreSuccesses(Run(Empty(capacity), events), p);
    RunKeepsOffers(Empty(capacity), events, p);
    NothingPending<T>(capacity, p);
  }

  lemma TakenAreSuccesses<T>(s: Queue<T>, p: Tid)
    requires Accepted(s.log) == Taken(s.log) + s.contents
    ensures FromProducer(Taken(s.log), p) <= Succeeded(PushReturns(s.log, p))
  {
    FromProducerSplits(Taken(s.log), s.contents, p);
    AcceptedAreSuccesses(s.log, p);
  }

  lemma NothingPending<T>(capacity: nat, p: Tid)
    ensures var s := Empty<T>(capacity);
            forall a: seq<T> :: Values(PushReturns(s.log, p)) + Pending(s, p) + a == a
  {}

  // ---------------------------------------------------------------------------------------------
  // Closing
  // ---------------------------------------------------------------------------------------------

  lemma {:induction false} ClosedForever<T>(s: Queue<T>, more: seq<Event<T>>)
    requires Closed(s)
    ensures Closed(Run(s, more)) && Accepted(Run(s, more).log) == Accepted(s.log)
    decreases more
  {
    if more != [] {
      if more[0].Advance? {
        AdvanceKeepsClosed(s, more[0].t);
      }
      ClosedForever(Next(s, more[0]), more[1..]);
    }
  }

  /** Without quit, once a pop has returned false everything accepted has been taken, and in no continuation
      of the run is anything accepted again. */
  lemma Draining<T>(capacity: nat, events: seq<Event<T>>, more: seq<Event<T>>)
    ensures var s := Run(Empty(capacity), events);
            !s.quit && SomePopRefused(s.log) ==>
              && Taken(s.log) == Accepted(s.log)
              && Accepted(Run(s, more).log) == Accepted(s.log)
  {
    var s := Run(Empty(capacity), events);
    QueueHistory(capacity, events);
    if !s.quit && SomePopRefused(s.log) {
      ClosedForever(s, more);
    }
  }

  /** Whether the thread that has the mutex is already past its test of quit. */
  predicate PastTest<T>(s: Queue<T>) {
    s.holder.Some? && (s.At(s.holder.value).PushOpen? || s.At(s.holder.value).PopOpen?)
  }

  function Operations<T>(log: seq<Return<T>>): nat {
    |Accepted(log)| + |Taken(log)|
  }

  lemma {:induction false} AfterQuit<T>(s: Queue<T>, more: seq<Event<T>>)
    requires Inv(s) && s.quit
    ensures Run(s, more).quit
    ensures Operations(Run(s, more).log) <= Operations(s.log) + (if PastTest(s) then 1 else 0)
    decreases more
  {
    if more != [] {
      var e := more[0];
      StepKeepsInv(s, e);
      if e.Advance? && Enabled(s, e) {
        AdvanceAfterQuit(s, e.t);
      } else {
        OthersAfterQuit(s, e);
      }
      AfterQuit(Next(s, e), more[1..]);
    }
  }

  lemma AdvanceAfterQuit<T>(s: Queue<T>, t: Tid)
    requires Orderly(s) && s.quit && Enabled(s, Advance(t))
    ensures var s' := AdvanceThread(s, t);
            && s'.quit
            && Operations(s'.log) + (if PastTest(s') then 1 else 0)
               <= Operations(s.log) + (if PastTest(s) then 1 else 0)
  {
    AdvanceHasOutcome(s, t);
    if Outcome(s, t).Some? {
      LogGrows(s.log, Outcome(s, t).value);
    }
    AfterTest(s, t);
  }

  /** With quit set no thread gets past the test, and one that did leaves with its next step. */
  lemma AfterTest<T>(s: Queue<T>, t: Tid)
    requires Orderly(s) && s.quit && Enabled(s, Advance(t))
    ensures !PastTest(AdvanceThread(s, t))
    ensures Outcome(s, t).Some? && (Outcome(s, t).value.Pushed? || Outcome(s, t).value.Popped?) ==> PastTest(s)
  {}

  lemma OthersAfterQuit<T>(s: Queue<T>, e: Event<T>)
    requires Orderly(s) && s.quit && (e.Advance? ==> !Enabled(s, e))
    ensures var s' := Next(s, e); s'.quit && s'.log == s.log && (PastTest(s') <==> PastTest(s))
  {}

  /** After quit is set at most one more operation, push or pop, succeeds: that of a thread which has the
      mutex and has tested the flag already. */
  lemma QuitAdmitsOneMore<T>(capacity: nat, events: seq<Event<T>>, more: seq<Event<T>>)
    ensures var s := Run(Empty(capacity), events);
            s.quit ==> Operations(Run(s, more).log) <= Operations(s.log) + (if PastTest(s) then 1 else 0)
  {
    var s := Run(Empty(capacity), events);
    QueueHistory(capacity, events);
    if s.quit {
      AfterQuit(s, more);
    }
  }

  // ---------------------------------------------------------------------------------------------
  // Waiting
  // ---------------------------------------------------------------------------------------------

  /** With room for one item, a producer and a consumer inside their calls are never both stuck: some thread
      has a step. Spurious wakeups and late notifications do not change that. */
  lemma NeverAllBlocked<T>(capacity: nat, events: seq<Event<T>>, producer: Tid, consumer: Tid)
    requires capacity >= 1
    ensures var s := Run(Empty(capacity), events);
            s.At(producer).Pushing() && s.At(consumer).Popping() ==> exists t: Tid :: Enabled(s, Advance(t))
  {
    var s := Run(Empty(capacity), events);
    RunKeepsInv(Empty(capacity), events);
    if s.At(producer).Pushing() && s.At(consumer).Popping() {
      if s.holder.Some? {
        assert Enabled(s, Advance(s.holder.value));
      } else if s.At(producer).PushStart? {
        assert Enabled(s, Advance(producer));
      } else {
        assert s.threads[producer].PushWaiting?;
        assert Enabled(s, Advance(consumer));
      }
    }
  }

  ghost predicate NoConsumerWaits<T>(s: Queue<T>) {
    forall t :: t in s.threads ==> !s.threads[t].PopWaiting?
  }

  ghost predicate NoProducerWaits<T>(s: Queue<T>) {
    forall t :: t in s.threads ==> !s.threads[t].PushWaiting?
  }

  ghost predicate NobodyWaits<T>(s: Queue<T>) {
    NoConsumerWaits(s) && NoProducerWaits(s)
  }

  /** A consumer with the mutex passed its tests and is about to wait, whatever the flags are by then. */
  predicate ConsumerAboutToWait<T>(s: Queue<T>) {
    s.holder.Some? && (
      match s.At(s.holder.value)
      case PopSleepy => true
      case PopOpen => s.contents == [] && !s.finished
      case _ => false)
  }

  predicate ProducerAboutToWait<T>(s: Queue<T>) {
    s.holder.Some? && s.At(s.holder.value).PushOpen? && |s.contents| >= s.capacity
  }

  predicate AboutToWait<T>(s: Queue<T>) {
    ConsumerAboutToWait(s) || ProducerAboutToWait(s)
  }

  lemma AdvanceKeepsConsumersAwake<T>(s: Queue<T>, t: Tid)
    requires Orderly(s) && (s.quit || s.finished) && !ConsumerAboutToWait(s) && Enabled(s, Advance(t))
    ensures !ConsumerAboutToWait(AdvanceThread(s, t))
    ensures NoConsumerWaits(s) ==> NoConsumerWaits(AdvanceThread(s, t))
  {}

  lemma AdvanceKeepsProducersAwake<T>(s: Queue<T>, t: Tid)
    requires Orderly(s) && s.quit && !ProducerAboutToWait(s) && Enabled(s, Advance(t))
    ensures !ProducerAboutToWait(AdvanceThread(s, t))
    ensures NoProducerWaits(s) ==> NoProducerWaits(AdvanceThread(s, t))
  {}

  lemma OthersKeepAwake<T>(s: Queue<T>, e: Event<T>)
    requires Orderly(s) && !e.Advance?
    ensures !ConsumerAboutToWait(s) ==> !ConsumerAboutToWait(Next(s, e))
    ensures !ProducerAboutToWait(s) ==> !ProducerAboutToWait(Next(s, e))
    ensures NoConsumerWaits(s) ==> NoConsumerWaits(Next(s, e))
    ensures NoProducerWaits(s) ==> NoProducerWaits(Next(s, e))
  {}

  lemma FlagsStay<T>(s: Queue<T>, e: Event<T>)
    ensures s.quit ==> Next(s, e).quit
    ensures s.finished ==> Next(s, e).finished
  {
    if e.Advance? {
      AdvanceHasOutcome(s, e.t);
    }
  }

  /** With a flag set no consumer comes to wait, unless it was about to; with quit set no producer either. */
  lemma StepKeepsAwake<T>(s: Queue<T>, e: Event<T>)
    requires Inv(s) && (s.quit || s.finished)
    ensures var s' := Next(s, e);
            && Inv(s') && (s'.quit || s'.finished) && (s.quit ==> s'.quit)
            && (!ConsumerAboutToWait(s) ==> !ConsumerAboutToWait(s') && (NoConsumerWaits(s) ==> NoConsumerWaits(s')))
            && (s.quit && !ProducerAboutToWait(s) ==>
                  !ProducerAboutToWait(s') && (NoProducerWaits(s) ==> NoProducerWaits(s')))
  {
    StepKeepsInv(s, e);
    FlagsStay(s, e);
    if !e.Advance? {
      OthersKeepAwake(s, e);
    } else if Enabled(s, e) {
      if !ConsumerAboutToWait(s) { AdvanceKeepsConsumersAwake(s, e.t); }
      if s.quit && !ProducerAboutToWait(s) { AdvanceKeepsProducersAwake(s, e.t); }
    }
  }

  lemma {:induction false} RunKeepsAwake<T>(s: Queue<T>, more: seq<Event<T>>)
    requires Inv(s) && (s.quit || s.finished)
    ensures var s' := Run(s, more);
            && Inv(s') && (s'.quit || s'.finished) && (s.quit ==> s'.quit)
            && (!ConsumerAboutToWait(s) ==> !ConsumerAboutToWait(s') && (NoConsumerWaits(s) ==> NoConsumerWaits(s')))
            && (s.quit && !ProducerAboutToWait(s) ==>
                  !ProducerAboutToWait(s') && (NoProducerWaits(s) ==> NoProducerWaits(s')))
    decreases more
  {
    if more != [] {
      StepKeepsAwake(s, more[0]);
      RunKeepsAwake(Next(s, more[0]), more[1..]);
    }
  }

  /** A notification wakes its side for that moment, and changes nothing about who is about to wait. */
  lemma Notified<T>(s: Queue<T>)
    requires Inv(s)
    ensures Inv(Next(s, NotifyEmpty)) && NoConsumerWaits(Next(s, NotifyEmpty))
    ensures Inv(Next(s, NotifyFull)) && NoProducerWaits(Next(s, NotifyFull))
  {
    StepKeepsInv(s, NotifyEmpty);
    StepKeepsInv(s, NotifyFull);
  }

  lemma NotifiedAboutToWait<T>(s: Queue<T>, e: Event<T>)
    requires Orderly(s) && (e.NotifyEmpty? || e.NotifyFull?)
    ensures ConsumerAboutToWait(Next(s, e)) == ConsumerAboutToWait(s)
    ensures ProducerAboutToWait(Next(s, e)) == ProducerAboutToWait(s)
  {}

  /** One or two steps of its own and the thread waits. */
  lemma AboutToWaitWaits<T>(s: Queue<T>) returns (more: seq<Event<T>>)
    requires Orderly(s) && AboutToWait(s)
    ensures ConsumerAboutToWait(s) ==> !NoConsumerWaits(Run(s, more))
    ensures ProducerAboutToWait(s) ==> !NoProducerWaits(Run(s, more))
  {
    var h := s.holder.value;
    var s' := Next(s, Advance(h));
    more := if s.At(h).PopOpen? then [Advance(h), Advance(h)] else [Advance(h)];
    assert Run(s, more) == Run(s', more[1..]);
    if s.At(h).PopOpen? {
      assert s'.At(h).PopSleepy?;
      assert Run(s', more[1..]) == Run(Next(s', Advance(h)), []);
    }
    assert Run(s, more).threads[h].Waiting();
  }

  /** quit() sets the flag and notifies twice without the mutex; anything happens between those three, and after
      them. */
  function QuitCall<T>(s: Queue<T>, a: seq<Event<T>>, b: seq<Event<T>>, c: seq<Event<T>>): Queue<T> {
    Run(Next(Run(Next(Run(Next(s, SetQuit), a), NotifyEmpty), b), NotifyFull), c)
  }

  lemma QuitWakesEveryone<T>(s: Queue<T>, a: seq<Event<T>>, b: seq<Event<T>>, c: seq<Event<T>>)
    requires Inv(s) && !AboutToWait(s)
    ensures NobodyWaits(QuitCall(s, a, b, c))
  {
    var s0 := Next(s, SetQuit);
    StepKeepsInv(s, SetQuit);
    RunKeepsAwake(s0, a);
    var s1 := Next(Run(s0, a), NotifyEmpty);
    Notified(Run(s0, a));
    StepKeepsAwake(Run(s0, a), NotifyEmpty);
    RunKeepsAwake(s1, b);
    Notified(Run(s1, b));
    StepKeepsAwake(Run(s1, b), NotifyFull);
    RunKeepsAwake(Next(Run(s1, b), NotifyFull), c);
  }

  lemma QuitMissesSomeone<T>(s: Queue<T>) returns (c: seq<Event<T>>)
    requires Inv(s) && AboutToWait(s)
    ensures !NobodyWaits(QuitCall(s, [], [], c))
  {
    var s0 := Next(s, SetQuit);
    var s2 := Next(Next(s0, NotifyEmpty), NotifyFull);
    StepKeepsInv(s, SetQuit);
    Notified(s0);
    Notified(Next(s0, NotifyEmpty));
    NotifiedAboutToWait(s0, NotifyEmpty);
    NotifiedAboutToWait(Next(s0, NotifyEmpty), NotifyFull);
    c := AboutToWaitWaits(s2);
    assert Run(s0, []) == s0 && Run(Next(s0, NotifyEmpty), []) == Next(s0, NotifyEmpty);
  }

  /** However quit() is overtaken, after its notifications no thread waits and none ever will: exactly if the
      thread that has the mutex when the flag is set is not about to wait. */
  lemma QuitWakesEveryoneIff<T>(s: Queue<T>)
    requires Inv(s)
    ensures (forall a: seq<Event<T>>, b: seq<Event<T>>, c: seq<Event<T>> :: NobodyWaits(QuitCall(s, a, b, c)))
            <==> !AboutToWait(s)
  {
    if AboutToWait(s) {
      var c := QuitMissesSomeone(s);
    } else {
      forall a: seq<Event<T>>, b: seq<Event<T>>, c: seq<Event<T>> ensures NobodyWaits(QuitCall(s, a, b, c)) {
        QuitWakesEveryone(s, a, b, c);
      }
    }
  }

  /** With quit set the two notifications leave nobody waiting at the moment of the second one, whatever happens
      between them: exactly if no consumer is about to wait at the first. A producer that comes to wait in
      between is woken by the second. */
  lemma NotificationsWake<T>(s: Queue<T>)
    requires Inv(s) && s.quit
    ensures (forall b: seq<Event<T>> :: NobodyWaits(Next(Run(Next(s, NotifyEmpty), b), NotifyFull)))
            <==> !ConsumerAboutToWait(s)
  {
    var s1 := Next(s, NotifyEmpty);
    Notified(s);
    NotifiedAboutToWait(s, NotifyEmpty);
    if ConsumerAboutToWait(s) {
      var b := AboutToWaitWaits(s1);
      RunKeepsAwake(s1, b);
      NotifyFullKeepsConsumers(Run(s1, b));
      assert !NobodyWaits(Next(Run(s1, b), NotifyFull));
    } else {
      forall b: seq<Event<T>> ensures NobodyWaits(Next(Run(s1, b), NotifyFull)) {
        RunKeepsAwake(s1, b);
        Notified(Run(s1, b));
        StepKeepsAwake(Run(s1, b), NotifyFull);
      }
    }
  }

  lemma NotifyFullKeepsConsumers<T>(s: Queue<T>)
    ensures NoConsumerWaits(Next(s, NotifyFull)) <==> NoConsumerWaits(s)
  {
    forall t | t in s.threads ensures t in Next(s, NotifyFull).threads &&
                                      (Next(s, NotifyFull).threads[t].PopWaiting? <==> s.threads[t].PopWaiting?)
    {}
  }

  // ---------------------------------------------------------------------------------------------
  // finished()
  // ---------------------------------------------------------------------------------------------

  /** finished() sets its flag and notifies consumers only; anything happens between the two, and after them. */
  function FinishedCall<T>(s: Queue<T>, a: seq<Event<T>>, c: seq<Event<T>>): Queue<T> {
    Run(Next(Run(Next(s, SetFinished), a), NotifyEmpty), c)
  }

  /** After finished() no consumer waits, and none ever will: exactly if the consumer that has the mutex when the
      flag is set is not past its last test. */
  lemma FinishedWakesConsumersIff<T>(s: Queue<T>)
    requires Inv(s)
    ensures (forall a: seq<Event<T>>, c: seq<Event<T>> :: NoConsumerWaits(FinishedCall(s, a, c)))
            <==> !ConsumerAboutToWait(Next(s, SetFinished))
  {
    var s0 := Next(s, SetFinished);
    StepKeepsInv(s, SetFinished);
    if ConsumerAboutToWait(s0) {
      Notified(s0);
      NotifiedAboutToWait(s0, NotifyEmpty);
      var c := AboutToWaitWaits(Next(s0, NotifyEmpty));
      assert Run(s0, []) == s0;
      assert !NoConsumerWaits(FinishedCall(s, [], c));
    } else {
      forall a: seq<Event<T>>, c: seq<Event<T>> ensures NoConsumerWaits(FinishedCall(s, a, c)) {
        RunKeepsAwake(s0, a);
        Notified(Run(s0, a));
        StepKeepsAwake(Run(s0, a), NotifyEmpty);
        RunKeepsAwake(Next(Run(s0, a), NotifyEmpty), c);
      }
    }
  }

  /** Whether `e` notifies producers from outside, or ends the wait of `p` spuriously. */
  predicate Wakes<T>(e: Event<T>, p: Tid) {
    e.NotifyFull? || e == Spurious(p)
  }

  /** A producer that a flag sends away cannot come to wait again. */
  lemma AdvanceOfSleeper<T>(s: Queue<T>, t: Tid, p: Tid)
    requires Orderly(s) && s.finished && Enabled(s, Advance(t))
    requires p in s.threads && !s.threads[p].PushOpen?
    ensures var s' := AdvanceThread(s, t);
            && s'.finished && p in s'.threads && !s'.threads[p].PushOpen?
            && (s'.threads[p].PushWaiting? <==>
                  s.threads[p].PushWaiting? && !(Outcome(s, t).Some? && Outcome(s, t).value.Popped?))
  {}

  lemma OtherOfSleeper<T>(s: Queue<T>, e: Event<T>, p: Tid)
    requires Orderly(s) && s.finished && !e.Advance? && !Wakes(e, p)
    requires p in s.threads && !s.threads[p].PushOpen?
    ensures var s' := Next(s, e);
            && s'.finished && p in s'.threads && !s'.threads[p].PushOpen? && s'.log == s.log
            && (s'.threads[p].PushWaiting? <==> s.threads[p].PushWaiting?)
  {}

  lemma {:induction false} SleeperRun<T>(s: Queue<T>, more: seq<Event<T>>, p: Tid)
    requires Inv(s) && s.finished && p in s.threads && !s.threads[p].PushOpen?
    requires forall e :: e in more ==> !Wakes(e, p)
    ensures var s' := Run(s, more);
            && |Taken(s'.log)| >= |Taken(s.log)|
            && (s'.At(p).PushWaiting? <==> s.At(p).PushWaiting? && |Taken(s'.log)| == |Taken(s.log)|)
    decreases more
  {
    if more != [] {
      var e := more[0];
      assert e in more;
      StepKeepsInv(s, e);
      if !e.Advance? {
        OtherOfSleeper(s, e, p);
      } else if Enabled(s, e) {
        AdvanceOfSleeper(s, e.t, p);
        AdvanceHasOutcome(s, e.t);
        if Outcome(s, e.t).Some? {
          LogGrows(s.log, Outcome(s, e.t).value);
        }
      }
      SleeperRun(Next(s, e), more[1..], p);
    }
  }

  /** finished() does not wake a producer that waits for room: without quit and spurious wakeups it sleeps on
      exactly as long as nothing is popped. */
  lemma FinishedLeavesProducersWaiting<T>(s: Queue<T>, more: seq<Event<T>>, p: Tid)
    requires Inv(s) && s.finished && s.At(p).PushWaiting?
    requires forall e :: e in more ==> !Wakes(e, p)
    ensures Run(s, more).At(p).PushWaiting? <==> |Taken(Run(s, more).log)| == |Taken(s.log)|
  {
    SleeperRun(s, more, p);
  }

  /** A queue of capacity one in which thread 0 is at `pc` and no call has returned. */
  function Lonely(pc: Thread<int>, holder: Option<Tid>, quit: bool): Queue<int> {
    Queue([], 1, quit, false, holder, map[0 := pc], [])
  }

  const CALLING: seq<Event<int>> := [CallPop(0), Advance(0), Advance(0), Advance(0)]
  const QUITTING: seq<Event<int>> := [SetQuit, NotifyEmpty, NotifyFull, Advance(0)]

  lemma ConsumerFindsEmpty()
    ensures Run(Empty<int>(1), CALLING) == Lonely(PopSleepy, Some(0), false)
  {
    RunFour(Empty<int>(1), CALLING);
    assert Next(Empty<int>(1), CallPop(0)) == Lonely(PopStart, None, false);
    assert Next(Lonely(PopStart, None, false), Advance(0)) == Lonely(PopLocked, Some(0), false);
    assert Next(Lonely(PopLocked, Some(0), false), Advance(0)) == Lonely(PopOpen, Some(0), false);
  }

  lemma QuitComesTooEarly()
    ensures Run(Lonely(PopSleepy, Some(0), false), QUITTING) == Lonely(PopWaiting, None, true)
  {
    var s := Lonely(PopSleepy, Some(0), true);
    RunFour(Lonely(PopSleepy, Some(0), false), QUITTING);
    assert Next(Lonely(PopSleepy, Some(0), false), SetQuit) == s;
    assert WakeEmpty(s.threads) == s.threads && WakeFull(s.threads) == s.threads;
  }

  /** A run in which quit() misses a consumer: the flag is set and both notifications are given after the
      consumer tested the flag and before it waits, and then nobody has a step. */
  lemma QuitCanBeMissed()
    ensures var s := Run(Empty<int>(1), CALLING + QUITTING);
            s.quit && s.At(0).PopWaiting? && forall t: Tid :: !Enabled(s, Advance(t))
  {
    ConsumerFindsEmpty();
    QuitComesTooEarly();
    RunSplits(Empty<int>(1), CALLING, QUITTING);
    NoStepLeft(Lonely(PopWaiting, None, true));
  }

  lemma NoStepLeft(s: Queue<int>)
    requires s == Lonely(PopWaiting, None, true)
    ensures s.quit && s.At(0).PopWaiting? && forall t: Tid :: !Enabled(s, Advance(t))
  {}

  lemma RunFour<T>(s: Queue<T>, e: seq<Event<T>>)
    requires |e| == 4
    ensures Run(s, e) == Next(Next(Next(Next(s, e[0]), e[1]), e[2]), e[3])
  {
    var s1, e1 := Next(s, e[0]), e[1..];
    var s2, e2 := Next(s1, e1[0]), e1[1..];
    var s3, e3 := Next(s2, e2[0]), e2[1..];
    assert Run(s1, e1) == Run(s2, e2);
    assert Run(s2, e2) == Run(s3, e3);
    assert Run(s3, e3) == Run(Next(s3, e3[0]), e3[1..]);
  }

  lemma {:induction false} RunSplits<T>(s: Queue<T>, a: seq<Event<T>>, b: seq<Event<T>>)
    ensures Run(s, a + b) == Run(Run(s, a), b)
    decreases a
  {
    if a == [] {
      assert a + b == b;
    } else {
      assert (a + b)[1..] == a[1..] + b;
      RunSplits(Next(s, a[0]), a[1..], b);
    }
  }

  // ---------------------------------------------------------------------------------------------
  // Filling a queue
  // ---------------------------------------------------------------------------------------------

  /** Whole calls of push by one thread, one after the other. */
  function PushCall<T>(t: Tid, v: T): seq<Event<T>> {
    [CallPush(t, v), Advance(t), Advance(t), Advance(t)]
  }

  function PushCalls<T>(t: Tid, values: seq<T>): seq<Event<T>> {
    if values == [] then [] else PushCalls(t, values[..|values| - 1]) + PushCall(t, values[|values| - 1])
  }

  function Items<T>(t: Tid, values: seq<T>): seq<Item<T>> {
    seq(|values|, i requires 0 <= i < |values| => Item(t, values[i]))
  }

  /** Thread `t` is outside, nobody has the mutex, and no flag is set. */
  predicate Open<T>(s: Queue<T>, t: Tid) {
    s.At(t).Idle? && s.holder.None? && !s.quit && !s.finished
  }

  lemma PushCallRuns<T>(s: Queue<T>, t: Tid, v: T)
    requires Open(s, t)
    ensures var s' := Run(s, PushCall(t, v));
            && s'.capacity == s.capacity
            && (|s.contents| < s.capacity ==>
                  Open(s', t) && s'.contents == s.contents + [Item(t, v)] && s'.log == s.log + [Pushed(Item(t, v))])
            && (|s.contents| >= s.capacity ==>
                  s'.At(t) == PushWaiting(v) && s'.contents == s.contents && s'.log == s.log)
  {
    RunFour(s, PushCall(t, v));
    var s1 := Next(s, CallPush(t, v));
    var s2 := Next(s1, Advance(t));
    var s3 := Next(s2, Advance(t));
    assert s1.At(t) == PushStart(v) && s2.At(t) == PushLocked(v) && s3.At(t) == PushOpen(v);
  }

  /** As long as there is room every push returns with its item behind the others. */
  lemma {:induction false} PushesFill<T>(capacity: nat, t: Tid, values: seq<T>)
    requires |values| <= capacity
    ensures var s := Run(Empty(capacity), PushCalls(t, values));
            && Open(s, t) && s.capacity == capacity && s.contents == Items(t, values)
            && |s.log| == |values| && forall i :: 0 <= i < |values| ==> s.log[i] == Pushed(Item(t, values[i]))
    decreases values
  {
    if values != [] {
      var n := |values| - 1;
      PushesFill(capacity, t, values[..n]);
      RunSplits(Empty(capacity), PushCalls(t, values[..n]), PushCall(t, values[n]));
      PushCallRuns(Run(Empty(capacity), PushCalls(t, values[..n])), t, values[n]);
      assert Items(t, values) == Items(t, values[..n]) + [Item(t, values[n])];
    }
  }

  /** The push after the one that filled the queue waits. */
  lemma FullQueueMakesWait<T>(capacity: nat, t: Tid, values: seq<T>, v: T)
    requires |values| == capacity
    ensures var s := Run(Empty(capacity), PushCalls(t, values) + PushCall(t, v));
            s.At(t) == PushWaiting(v) && s.contents == Items(t, values)
  {
    PushesFill(capacity, t, values);
    RunSplits(Empty(capacity), PushCalls(t, values), PushCall(t, v));
    PushCallRuns(Run(Empty(capacity), PushCalls(t, values)), t, v);
  }
}
