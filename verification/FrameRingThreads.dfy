/** The frame ring with its two threads interleaved: peekWritable, the decoder's stores of the size field and of
    the rest of the slot, and every unlocked piece of pushFrame and popFrame are steps of their own. */
module FrameRingThreads {
  import opened Doubles
  import opened FrameRing

  datatype Producer =
    | Decoding
    | Waiting  // in mNotFull.wait, which peekWritable leaves without testing the size again
    | Woken
    | Writing             // got the write slot, has not stored anything in it
    | Storing(x: XData)   // has made the first of its two stores
    | Filled
    | WriteBumped

  datatype Consumer =
    | Polling
    | Holding(index: nat) // found a frame in this slot
    | Unrefed
    | ReadBumped

  /** How the consumer finds out about a frame: by getFrameSize, or by the size field of the current slot. */
  datatype Gate = FrameCount | SlotSize

  /** Whether a decoder stores the size field before or after the rest of the slot. */
  datatype Order = SizeFirst | SizeLast

  datatype System = System(
    ring: Ring,
    producer: Producer,
    consumer: Consumer,
    gate: Gate,
    order: Order,
    filled: seq<XData>,   // every frame whose size field was stored so far, as the decoder means it
    consumed: seq<XData>) // every frame popped so far

  datatype Event =
    | Peek | WakeUp | Write(x: XData) | FinishWrite | BumpWindex | CountPush
    | Look | PopStep
    | AbortQueue

  predicate WellShaped(s: System) {
    Indexed(s.ring) && s.ring.windex < |s.ring.slots| && (s.consumer.Holding? ==> s.consumer.index < |s.ring.slots|)
  }

  predicate Open(s: System)
    requires WellShaped(s)
  {
    match s.gate
    case FrameCount => FrameSize(s.ring) > 0
    case SlotSize => s.ring.slots[Current(s.ring)].size != 0
  }

  function Notified(p: Producer): Producer {
    if p.Waiting? then Woken else p
  }

  function StoreSize(q: Ring, x: XData): Ring
    requires q.windex < |q.slots|
  {
    q.(slots := q.slots[q.windex := q.slots[q.windex].(size := x.size)])
  }

  /** Everything but the size field. */
  function StoreRest(q: Ring, x: XData): Ring
    requires q.windex < |q.slots|
  {
    q.(slots := q.slots[q.windex := q.slots[q.windex].(pts := x.pts)])
  }

  function ProducerStep(s: System, e: Event): System
    requires WellShaped(s)
  {
    var q := s.ring;
    match (e, s.producer)
    case (Peek, Decoding) =>
      if q.size >= q.maxSize && !q.abortRequest then s.(producer := Waiting)
      else if q.abortRequest then s
      else s.(producer := Writing)
    case (WakeUp, Woken) => s.(producer := if q.abortRequest then Decoding else Writing)
    case (Write(x), Writing) =>
      if s.order.SizeFirst? then s.(ring := StoreSize(q, x), producer := Storing(x), filled := s.filled + [x])
      else s.(ring := StoreRest(q, x), producer := Storing(x))
    case (FinishWrite, Storing(x)) =>
      if s.order.SizeFirst? then s.(ring := StoreRest(q, x), producer := Filled)
      else s.(ring := StoreSize(q, x), producer := Filled, filled := s.filled + [x])
    case (BumpWindex, Filled) => s.(ring := BumpWrite(q), producer := WriteBumped)
    case (CountPush, WriteBumped) => s.(ring := CountUp(q), producer := Decoding)
    case _ => s
  }

  function ConsumerStep(s: System, e: Event): System
    requires WellShaped(s)
  {
    var q := s.ring;
    match (e, s.consumer)
    case (Look, Polling) => if Open(s) then s.(consumer := Holding(Current(q))) else s
    case (PopStep, Holding(i)) =>
      if q.keepLast && q.showIndex == 0
      then s.(ring := q.(showIndex := 1), consumer := Polling, consumed := s.consumed + [q.slots[i]])
      else s.(ring := Unref(q), consumer := Unrefed, consumed := s.consumed + [q.slots[i]])
    case (PopStep, Unrefed) => s.(ring := BumpRead(q), consumer := ReadBumped)
    case (PopStep, ReadBumped) => s.(ring := CountDown(q), consumer := Polling, producer := Notified(s.producer))
    case _ => s
  }

  function Next(s: System, e: Event): System
    requires WellShaped(s)
  {
    match e
    case Look => ConsumerStep(s, e)
    case PopStep => ConsumerStep(s, e)
    case AbortQueue => s.(ring := s.ring.(abortRequest := true), producer := Notified(s.producer))
    case _ => ProducerStep(s, e)
  }

  /** A started queue. */
  function Initial(maxSize: nat, keepLast: bool, unused: Double, gate: Gate, order: Order): System {
    System(New(maxSize, keepLast, unused).(abortRequest := false), Decoding, Polling, gate, order, [], [])
  }

  // ---------------------------------------------------------------------------------------------
  // The invariant
  // ---------------------------------------------------------------------------------------------

  function One(b: bool): nat {
    if b then 1 else 0
  }

  /** The distance from the read to the write index. */
  function Occupied(s: System): int {
    s.ring.size + One(s.producer.WriteBumped?) - One(s.consumer.ReadBumped?)
  }

  /** The write slot shows a size, and is not counted by the write index yet. */
  predicate Visible(s: System) {
    s.producer.Filled? || (s.producer.Storing? && s.order.SizeFirst?)
  }

  /** The slots that show a size: those, and the write slot once its size is stored. */
  function Total(s: System): int {
    Occupied(s) + One(Visible(s))
  }

  /** The slots from the read slot on whose frame is consumed. */
  function Used(s: System): nat {
    s.ring.showIndex + One(s.consumer.Unrefed?)
  }

  /** Where keep_last and the way of polling fit: a retained frame needs a second slot, and only retained
      frames make up for a frame taken before it is counted. */
  predicate Configured(q: Ring, g: Gate) {
    if q.keepLast then q.maxSize >= 2 else g.FrameCount?
  }

  predicate Counters(s: System) {
    var q := s.ring;
    && Indexed(q) && q.windex < q.maxSize && Configured(q, s.gate)
    && q.showIndex <= One(q.keepLast)
    && 0 <= q.size <= q.maxSize
    && (s.producer.Writing? || s.producer.Storing? || s.producer.Filled? || s.producer.WriteBumped? ==>
          q.size < q.maxSize)
    && (s.producer.Woken? && !q.abortRequest ==> q.size < q.maxSize)
    && (s.producer.Waiting? ==> q.size == q.maxSize && !q.abortRequest)
    && 0 <= Occupied(s)
    && q.windex == Wrap(q.rindex + Occupied(s), q.maxSize)
    && (s.consumer.Unrefed? || s.consumer.ReadBumped? ==> q.showIndex == One(q.keepLast))
  }

  predicate Behind(s: System) {
    var q := s.ring;
    && Used(s) <= Total(s)
    && (s.consumer.Holding? ==> Used(s) < Total(s) && s.consumer.index == Wrap(q.rindex + q.showIndex, q.maxSize))
    && (s.gate.FrameCount? ==>
          && Used(s) <= Occupied(s) - One(s.producer.WriteBumped?)
          && (s.consumer.Holding? ==> Used(s) < Occupied(s) - One(s.producer.WriteBumped?)))
  }

  /** The consumer never sees a frame between the decoder's two stores: it polls the count, or the size field
      that is stored last. */
  predicate Coherent(gate: Gate, order: Order) {
    gate.FrameCount? || order.SizeLast?
  }

  /** The slots from the read slot on, once around. */
  function Window(q: Ring): seq<XData>
    requires Indexed(q)
  {
    seq(q.maxSize, k requires 0 <= k < q.maxSize => At(q, k))
  }

  /** The place of the slot that shows its size, and not the rest of its frame yet; -1 if there is none. */
  function Torn(s: System): int {
    if s.producer.Storing? && s.order.SizeFirst? then Occupied(s) else -1
  }

  /** The `t` first slots of the window hold the last frames of `f`, but for the first `from` of them, emptied
      already, and the one at `torn`, which shows only the size; the other slots are empty. */
  predicate Holds(w: seq<XData>, f: seq<XData>, t: nat, from: nat, torn: int)
    requires t <= |f|
  {
    && (forall k :: t <= k < |w| ==> w[k].size == 0)
    && (forall k :: from <= k < t && k < |w| ==> w[k].size == f[|f| - t + k].size)
    && (forall k :: from <= k < t && k < |w| && k != torn ==> w[k] == f[|f| - t + k])
    && (from > 0 && |w| > 0 ==> w[0].size == 0)
  }

  predicate SlotsHold(s: System)
    requires Counters(s) && 0 <= Total(s) <= |s.filled|
  {
    Holds(Window(s.ring), s.filled, Total(s), One(s.consumer.Unrefed?), Torn(s))
  }

  /** What the store still to come finds in the slot. */
  predicate HalfStored(s: System)
    requires Counters(s)
  {
    s.producer.Storing? ==>
      if s.order.SizeFirst? then s.filled != [] && s.filled[|s.filled| - 1] == s.producer.x
      else Occupied(s) < s.ring.maxSize && Window(s.ring)[Occupied(s)].pts == s.producer.x.pts
  }

  /** `a` shows the sizes of the first frames of `b`. */
  predicate SizesOf(a: seq<XData>, b: seq<XData>) {
    |a| <= |b| && forall i :: 0 <= i < |a| ==> a[i].size == b[i].size
  }

  predicate Consumption(s: System) {
    && Used(s) <= Total(s) <= |s.filled|
    && |s.consumed| == |s.filled| - Total(s) + Used(s)
    && SizesOf(s.consumed, s.filled)
    && (Coherent(s.gate, s.order) ==> s.consumed <= s.filled)
  }

  predicate Contents(s: System)
    requires Counters(s)
  {
    Consumption(s) && SlotsHold(s) && HalfStored(s)
  }

  predicate Inv(s: System) {
    Counters(s) && Behind(s) && Contents(s)
  }

  predicate Configurable(maxSize: nat, keepLast: bool, gate: Gate) {
    maxSize >= 1 && (if keepLast then maxSize >= 2 else gate.FrameCount?)
  }

  lemma InitialInv(maxSize: nat, keepLast: bool, unused: Double, gate: Gate, order: Order)
    requires Configurable(maxSize, keepLast, gate)
    ensures Inv(Initial(maxSize, keepLast, unused, gate, order))
  {}

  /** A step that moves only counters between the threads leaves the contents as they were. */
  lemma SameSlots(s: System, s': System)
    requires Counters(s) && Contents(s) && Counters(s')
    requires s'.ring.slots == s.ring.slots && s'.ring.rindex == s.ring.rindex && s'.ring.maxSize == s.ring.maxSize
    requires Total(s') == Total(s) && Used(s') == Used(s) && (s'.consumer.Unrefed? <==> s.consumer.Unrefed?)
    requires s'.filled == s.filled && s'.consumed == s.consumed && s'.gate == s.gate && s'.order == s.order
    requires s'.producer.Storing? ==> s'.producer == s.producer && Occupied(s') == Occupied(s)
    requires s.producer.Storing? ==> s'.producer.Storing?
    ensures Contents(s')
  {
    SameWindow(s.ring, s'.ring);
  }

  lemma SameWindow(q: Ring, q': Ring)
    requires Indexed(q) && Indexed(q')
    requires q'.slots == q.slots && q'.rindex == q.rindex && q'.maxSize == q.maxSize
    ensures Window(q') == Window(q)
  {}

  // Steps of the window.

  lemma SizeShown(w: seq<XData>, f: seq<XData>, t: nat, from: nat, x: XData)
    requires from <= t <= |f| && t < |w| && Holds(w, f, t, from, -1)
    ensures var w' := w[t := w[t].(size := x.size)];
            Holds(w', f + [x], t + 1, from, t) && (w[t].pts == x.pts ==> Holds(w', f + [x], t + 1, from, -1))
  {}

  lemma RestStored(w: seq<XData>, f: seq<XData>, t: nat, from: nat, x: XData)
    requires from < t <= |f| && t - 1 < |w| && Holds(w, f, t, from, t - 1) && f[|f| - 1] == x
    ensures Holds(w[t - 1 := w[t - 1].(pts := x.pts)], f, t, from, -1)
  {}

  lemma RestStoredEarly(w: seq<XData>, f: seq<XData>, t: nat, from: nat, x: XData)
    requires from <= t <= |f| && t < |w| && Holds(w, f, t, from, -1)
    ensures Holds(w[t := w[t].(pts := x.pts)], f, t, from, -1)
  {}

  lemma Emptied(w: seq<XData>, f: seq<XData>, t: nat, torn: int)
    requires t <= |f| && w != [] && Holds(w, f, t, 0, torn)
    ensures Holds(w[0 := w[0].(size := 0)], f, t, 1, torn)
  {}

  lemma Shifted(w: seq<XData>, f: seq<XData>, t: nat, torn: int)
    requires 0 < t <= |f| && t <= |w| && Holds(w, f, t, 1, torn) && torn != 0
    ensures Holds(w[1..] + [w[0]], f, t - 1, 0, if torn < 0 then -1 else torn - 1)
  {
    var w' := w[1..] + [w[0]];
    assert forall k :: 0 <= k < |w| - 1 ==> w'[k] == w[k + 1];
  }

  lemma PeekKeepsCounters(s: System, e: Event)
    requires Counters(s) && Behind(s) && (e.Peek? || e.WakeUp?)
    ensures Counters(ProducerStep(s, e)) && Behind(ProducerStep(s, e))
  {}

  lemma FirstStoreKeepsCounters(s: System, x: XData)
    requires Counters(s) && Behind(s)
    ensures Counters(ProducerStep(s, Write(x))) && Behind(ProducerStep(s, Write(x)))
  {}

  lemma SecondStoreKeepsCounters(s: System)
    requires Counters(s) && Behind(s)
    ensures Counters(ProducerStep(s, FinishWrite)) && Behind(ProducerStep(s, FinishWrite))
  {}

  lemma CountKeepsCounters(s: System, e: Event)
    requires Counters(s) && Behind(s) && (e.BumpWindex? || e.CountPush?)
    ensures Counters(ProducerStep(s, e)) && Behind(ProducerStep(s, e))
  {}

  lemma ProducerKeepsCounters(s: System, e: Event)
    requires Inv(s)
    ensures Counters(ProducerStep(s, e)) && Behind(ProducerStep(s, e))
  {
    match e
    case Peek => PeekKeepsCounters(s, e);
    case WakeUp => PeekKeepsCounters(s, e);
    case Write(x) => FirstStoreKeepsCounters(s, x);
    case FinishWrite => SecondStoreKeepsCounters(s);
    case BumpWindex => CountKeepsCounters(s, e);
    case CountPush => CountKeepsCounters(s, e);
    case _ =>
  }

  predicate Stores(s: System, e: Event) {
    (e.Write? && s.producer.Writing?) || (e.FinishWrite? && s.producer.Storing?)
  }

  /** What is stored: by the first store what the decoder brings, by the second what it still has. */
  function Load(s: System, e: Event): XData
    requires Stores(s, e)
  {
    if e.Write? then e.x else s.producer.x
  }

  lemma StoreWindow(q: Ring, o: nat, v: XData)
    requires Indexed(q) && o < q.maxSize && q.windex == Wrap(q.rindex + o, q.maxSize)
    ensures q.windex < |q.slots| && q.slots[q.windex] == Window(q)[o]
    ensures Window(q.(slots := q.slots[q.windex := v])) == Window(q)[o := v]
  {
    var q' := q.(slots := q.slots[q.windex := v]);
    forall k: nat | k < q.maxSize && k != o ensures At(q', k) == At(q, k) {}
  }

  lemma RoomToStore(s: System)
    requires Counters(s) && (s.producer.Writing? || s.producer.Storing?)
    ensures 0 <= Occupied(s) < s.ring.maxSize
  {}

  /** The slot written is the one after those counted, and a store changes no other. */
  lemma StoredSlot(s: System, e: Event)
    requires WellShaped(s) && Counters(s) && Stores(s, e)
    ensures 0 <= Occupied(s) < s.ring.maxSize && Indexed(ProducerStep(s, e).ring)
    ensures var w, o, x := Window(s.ring), Occupied(s), Load(s, e);
            Window(ProducerStep(s, e).ring)
            == if e.Write? == s.order.SizeFirst? then w[o := w[o].(size := x.size)] else w[o := w[o].(pts := x.pts)]
  {
    RoomToStore(s);
    var q := s.ring;
    StoreWindow(q, Occupied(s), q.slots[q.windex].(size := Load(s, e).size));
    StoreWindow(q, Occupied(s), q.slots[q.windex].(pts := Load(s, e).pts));
  }

  /** The store of the size shows one more frame, and the other store none. */
  lemma StoreKeepsConsumption(s: System, e: Event)
    requires Counters(s) && Behind(s) && Consumption(s) && Stores(s, e)
    ensures Consumption(ProducerStep(s, e))
  {}

  /** `s'` is `s` but for the producer, the frames filled, and the write slot at `n`, which is `v` now. */
  predicate Changed(s: System, s': System, n: nat, v: XData)
    requires Indexed(s.ring) && Indexed(s'.ring) && n < s.ring.maxSize
  {
    && Occupied(s') == Occupied(s) == n
    && Window(s'.ring) == Window(s.ring)[n := v]
    && s'.order == s.order && s'.ring.maxSize == s.ring.maxSize
    && s'.consumer == s.consumer
  }

  lemma StoreChanges(s: System, e: Event)
    requires WellShaped(s) && Counters(s) && Stores(s, e)
    ensures var s', n, x := ProducerStep(s, e), Occupied(s), Load(s, e);
            && 0 <= n < s.ring.maxSize && Indexed(s'.ring)
            && Changed(s, s', n, if e.Write? == s.order.SizeFirst? then Window(s.ring)[n].(size := x.size)
                                 else Window(s.ring)[n].(pts := x.pts))
            && s'.filled == (if e.Write? == s.order.SizeFirst? then s.filled + [x] else s.filled)
            && s'.producer == (if e.Write? then Storing(x) else Filled)
  {
    StoredSlot(s, e);
  }

  lemma SizeStoreKeepsSlots(s: System, s': System, x: XData, n: nat, from: nat)
    requires Counters(s) && Counters(s') && n < s.ring.maxSize && from == One(s.consumer.Unrefed?)
    requires Changed(s, s', n, Window(s.ring)[n].(size := x.size)) && s'.filled == s.filled + [x]
    requires s'.producer == if s.order.SizeFirst? then Storing(x) else Filled
    requires s.order.SizeLast? ==> Window(s.ring)[n].pts == x.pts
    requires from <= n <= |s.filled| && Holds(Window(s.ring), s.filled, n, from, -1)
    ensures 0 <= Total(s') <= |s'.filled| && SlotsHold(s') && HalfStored(s')
  {
    SizeShown(Window(s.ring), s.filled, n, from, x);
  }

  lemma EarlyStoreKeepsSlots(s: System, s': System, x: XData, n: nat, from: nat)
    requires Counters(s) && Counters(s') && n < s.ring.maxSize && from == One(s.consumer.Unrefed?)
    requires Changed(s, s', n, Window(s.ring)[n].(pts := x.pts)) && s'.filled == s.filled
    requires s.order.SizeLast? && s'.producer == Storing(x)
    requires from <= n <= |s.filled| && Holds(Window(s.ring), s.filled, n, from, -1)
    ensures 0 <= Total(s') <= |s'.filled| && SlotsHold(s') && HalfStored(s')
  {
    RestStoredEarly(Window(s.ring), s.filled, n, from, x);
  }

  lemma LateStoreKeepsSlots(s: System, s': System, x: XData, n: nat, from: nat)
    requires Counters(s) && Counters(s') && n < s.ring.maxSize && from == One(s.consumer.Unrefed?)
    requires Changed(s, s', n, Window(s.ring)[n].(pts := x.pts)) && s'.filled == s.filled && s'.producer.Filled?
    requires from <= n < |s.filled| && Holds(Window(s.ring), s.filled, n + 1, from, n) && s.filled[|s.filled| - 1] == x
    ensures 0 <= Total(s') <= |s'.filled| && SlotsHold(s') && HalfStored(s')
  {
    RestStored(Window(s.ring), s.filled, n + 1, from, x);
  }

  lemma StoreKeepsContents(s: System, e: Event)
    requires Inv(s) && Stores(s, e) && Counters(ProducerStep(s, e))
    ensures Contents(ProducerStep(s, e))
  {
    StoreKeepsConsumption(s, e);
    StoreKeepsSlots(s, e);
  }

  lemma StoreKeepsSlots(s: System, e: Event)
    requires Inv(s) && Stores(s, e) && Counters(ProducerStep(s, e))
    ensures var s' := ProducerStep(s, e); 0 <= Total(s') <= |s'.filled| && SlotsHold(s') && HalfStored(s')
  {
    if e.Write? {
      FirstStoreKeepsSlots(s, e.x);
    } else {
      SecondStoreKeepsSlots(s);
    }
  }

  lemma FirstStoreKeepsSlots(s: System, x: XData)
    requires Inv(s) && s.producer.Writing? && Counters(ProducerStep(s, Write(x)))
    ensures var s' := ProducerStep(s, Write(x)); 0 <= Total(s') <= |s'.filled| && SlotsHold(s') && HalfStored(s')
  {
    StoreChanges(s, Write(x));
    UnrefedIsBehind(s);
    if s.order.SizeFirst? {
      SizeStoreKeepsSlots(s, ProducerStep(s, Write(x)), x, Occupied(s), One(s.consumer.Unrefed?));
    } else {
      EarlyStoreKeepsSlots(s, ProducerStep(s, Write(x)), x, Occupied(s), One(s.consumer.Unrefed?));
    }
  }

  lemma SecondStoreKeepsSlots(s: System)
    requires Inv(s) && s.producer.Storing? && Counters(ProducerStep(s, FinishWrite))
    ensures var s' := ProducerStep(s, FinishWrite); 0 <= Total(s') <= |s'.filled| && SlotsHold(s') && HalfStored(s')
  {
    StoreChanges(s, FinishWrite);
    UnrefedIsBehind(s);
    var x := s.producer.x;
    if s.order.SizeFirst? {
      LateStoreKeepsSlots(s, ProducerStep(s, FinishWrite), x, Occupied(s), One(s.consumer.Unrefed?));
    } else {
      SizeStoreKeepsSlots(s, ProducerStep(s, FinishWrite), x, Occupied(s), One(s.consumer.Unrefed?));
    }
  }

  lemma UnrefedIsBehind(s: System)
    requires Counters(s) && Behind(s)
    ensures One(s.consumer.Unrefed?) <= Occupied(s)
  {}

  lemma ProducerMovesNoSlots(s: System, e: Event)
    requires WellShaped(s) && Counters(s) && !Stores(s, e)
    ensures var s' := ProducerStep(s, e);
            && s'.ring.slots == s.ring.slots && s'.ring.rindex == s.ring.rindex && s'.ring.maxSize == s.ring.maxSize
            && Total(s') == Total(s) && Used(s') == Used(s) && (s'.consumer.Unrefed? <==> s.consumer.Unrefed?)
            && s'.filled == s.filled && s'.consumed == s.consumed && s'.gate == s.gate && s'.order == s.order
            && (s'.producer.Storing? ==> s' == s) && (s.producer.Storing? ==> s' == s)
  {}

  lemma ProducerKeepsInv(s: System, e: Event)
    requires Inv(s)
    ensures Inv(ProducerStep(s, e))
  {
    ProducerKeepsCounters(s, e);
    if Stores(s, e) {
      StoreKeepsContents(s, e);
    } else {
      ProducerMovesNoSlots(s, e);
      SameSlots(s, ProducerStep(s, e));
    }
  }

  lemma LookKeepsInv(s: System)
    requires Inv(s)
    ensures Inv(ConsumerStep(s, Look))
  {
    if s.consumer.Polling? && Open(s) {
      OpenMeansUnused(s);
      ModIsWrap(s.ring.rindex + s.ring.showIndex, s.ring.maxSize);
      SameSlots(s, ConsumerStep(s, Look));
    }
  }

  /** The gate opens only on a frame whose size was stored and that was not consumed; polling the count, on a
      counted one. */
  lemma OpenMeansUnused(s: System)
    requires Inv(s) && s.consumer.Polling? && Open(s)
    ensures Used(s) < Total(s)
    ensures s.gate.FrameCount? ==> Used(s) < Occupied(s) - One(s.producer.WriteBumped?)
  {
    var q := s.ring;
    ModIsWrap(q.rindex + q.showIndex, q.maxSize);
    assert q.slots[Current(q)] == At(q, q.showIndex) == Window(q)[q.showIndex];
  }

  lemma PopKeepsCounters(s: System)
    requires Counters(s) && Behind(s) && s.consumer.Holding?
    ensures Counters(ConsumerStep(s, PopStep)) && Behind(ConsumerStep(s, PopStep))
    ensures Total(ConsumerStep(s, PopStep)) == Total(s) && Used(ConsumerStep(s, PopStep)) == Used(s) + 1
  {}

  /** The frame popped is the next one that was written: its size is, and all of it unless the decoder is between
      its stores. */
  lemma HeldIsNext(s: System)
    requires Inv(s) && s.consumer.Holding?
    ensures |s.consumed| < |s.filled|
    ensures s.ring.slots[s.consumer.index].size == s.filled[|s.consumed|].size
    ensures Coherent(s.gate, s.order) ==> s.ring.slots[s.consumer.index] == s.filled[|s.consumed|]
  {
    var q := s.ring;
    assert q.slots[s.consumer.index] == At(q, q.showIndex) == Window(q)[q.showIndex];
  }

  /** The first frame consumed is retained, and no slot changes. */
  lemma RetainKeepsSlots(s: System)
    requires Inv(s) && s.consumer.Holding? && s.ring.keepLast && s.ring.showIndex == 0
    requires Counters(ConsumerStep(s, PopStep))
    ensures Total(ConsumerStep(s, PopStep)) <= |s.filled|
    ensures SlotsHold(ConsumerStep(s, PopStep)) && HalfStored(ConsumerStep(s, PopStep))
  {
    SameWindow(s.ring, ConsumerStep(s, PopStep).ring);
  }

  lemma UnrefKeepsSlots(s: System)
    requires Inv(s) && s.consumer.Holding? && !(s.ring.keepLast && s.ring.showIndex == 0)
    requires Counters(ConsumerStep(s, PopStep))
    ensures Total(ConsumerStep(s, PopStep)) <= |s.filled|
    ensures SlotsHold(ConsumerStep(s, PopStep)) && HalfStored(ConsumerStep(s, PopStep))
  {
    UnrefWindow(s.ring);
    Emptied(Window(s.ring), s.filled, Total(s), Torn(s));
  }

  lemma UnrefWindow(q: Ring)
    requires Indexed(q)
    ensures Indexed(Unref(q)) && Window(Unref(q)) == Window(q)[0 := Window(q)[0].(size := 0)]
  {
    forall k: nat | k < q.maxSize ensures At(Unref(q), k) == if k == 0 then At(q, 0).(size := 0) else At(q, k) {}
  }

  lemma BumpWindow(q: Ring)
    requires Indexed(q)
    ensures Indexed(BumpRead(q)) && Window(BumpRead(q)) == Window(q)[1..] + [Window(q)[0]]
  {
    forall k: nat | k < q.maxSize
      ensures At(BumpRead(q), k) == if k + 1 < q.maxSize then At(q, k + 1) else At(q, 0)
    {}
  }

  lemma PopKeepsConsumption(s: System)
    requires Inv(s) && s.consumer.Holding?
    ensures Consumption(ConsumerStep(s, PopStep))
  {
    PopKeepsCounters(s);
    HeldIsNext(s);
  }

  lemma BumpKeepsCounters(s: System)
    requires Counters(s) && Behind(s) && s.consumer.Unrefed?
    ensures Counters(ConsumerStep(s, PopStep)) && Behind(ConsumerStep(s, PopStep))
    ensures Total(ConsumerStep(s, PopStep)) == Total(s) - 1 && Used(ConsumerStep(s, PopStep)) == Used(s) - 1
  {}

  lemma BumpKeepsConsumption(s: System)
    requires Counters(s) && Consumption(s) && s.consumer.Unrefed?
    requires Total(ConsumerStep(s, PopStep)) == Total(s) - 1 && Used(ConsumerStep(s, PopStep)) == Used(s) - 1
    ensures Consumption(ConsumerStep(s, PopStep))
  {}

  lemma BumpKeepsSlots(s: System, s': System, t: nat)
    requires Counters(s) && Counters(s') && s'.ring == BumpRead(s.ring) && s'.filled == s.filled
    requires Total(s') == t - 1 && Torn(s') == (if Torn(s) < 0 then -1 else Torn(s) - 1) && !s'.consumer.Unrefed?
    requires 0 < t <= |s.filled| && t <= s.ring.maxSize && Torn(s) != 0
    requires Holds(Window(s.ring), s.filled, t, 1, Torn(s))
    ensures SlotsHold(s')
  {
    BumpWindow(s.ring);
    Shifted(Window(s.ring), s.filled, t, Torn(s));
  }

  lemma BumpChanges(s: System)
    requires Counters(s) && s.consumer.Unrefed? && 0 < Occupied(s)
    ensures var s' := ConsumerStep(s, PopStep);
            && s'.ring == BumpRead(s.ring) && s'.filled == s.filled && !s'.consumer.Unrefed?
            && Total(s') == Total(s) - 1 && Torn(s') == (if Torn(s) < 0 then -1 else Torn(s) - 1) && Torn(s) != 0
  {}

  lemma BumpKeepsHalf(s: System)
    requires Counters(s) && s.consumer.Unrefed? && Counters(ConsumerStep(s, PopStep))
    requires 0 < Occupied(s) && HalfStored(s)
    ensures HalfStored(ConsumerStep(s, PopStep))
  {
    BumpWindow(s.ring);
  }

  lemma FitsInRing(s: System)
    requires Counters(s) && Behind(s)
    ensures 0 <= Occupied(s) <= Total(s) <= s.ring.maxSize
  {}

  lemma BumpKeepsContents(s: System)
    requires Inv(s) && s.consumer.Unrefed? && Counters(ConsumerStep(s, PopStep))
    requires Total(ConsumerStep(s, PopStep)) == Total(s) - 1 && Used(ConsumerStep(s, PopStep)) == Used(s) - 1
    ensures Contents(ConsumerStep(s, PopStep))
  {
    BumpKeepsConsumption(s);
    UnrefedIsBehind(s);
    FitsInRing(s);
    BumpChanges(s);
    BumpKeepsSlots(s, ConsumerStep(s, PopStep), Total(s));
    BumpKeepsHalf(s);
  }

  lemma CountDownKeepsInv(s: System)
    requires Inv(s) && s.consumer.ReadBumped?
    ensures Inv(ConsumerStep(s, PopStep))
  {
    SameSlots(s, ConsumerStep(s, PopStep));
  }

  lemma PopKeepsInv(s: System)
    requires Inv(s)
    ensures Inv(ConsumerStep(s, PopStep))
  {
    match s.consumer
    case Polling =>
    case Holding(_) =>
      PopKeepsCounters(s);
      PopKeepsConsumption(s);
      if s.ring.keepLast && s.ring.showIndex == 0 { RetainKeepsSlots(s); } else { UnrefKeepsSlots(s); }
    case Unrefed =>
      BumpKeepsCounters(s);
      BumpKeepsContents(s);
    case ReadBumped => CountDownKeepsInv(s);
  }

  lemma AbortKeepsInv(s: System)
    requires Inv(s)
    ensures Inv(Next(s, AbortQueue))
  {
    SameSlots(s, Next(s, AbortQueue));
  }

  lemma StepKeepsInv(s: System, e: Event)
    requires Inv(s)
    ensures Inv(Next(s, e))
  {
    match e
    case Look => LookKeepsInv(s);
    case PopStep => PopKeepsInv(s);
    case AbortQueue => AbortKeepsInv(s);
    case _ => ProducerKeepsInv(s, e);
  }

  function Run(s: System, events: seq<Event>): System
    requires Inv(s)
    ensures Inv(Run(s, events))
    decreases events
  {
    if events == [] then s else (StepKeepsInv(s, events[0]); Run(Next(s, events[0]), events[1..]))
  }

  /** How a ring is set up and used. */
  datatype Setup = Setup(maxSize: nat, keepLast: bool, unused: Double, gate: Gate, order: Order) {
    predicate Ok() {
      Configurable(maxSize, keepLast, gate)
    }
  }

  /** The state after any interleaving of the two threads on a started queue. */
  function Reached(c: Setup, events: seq<Event>): System
    requires c.Ok()
    ensures Inv(Reached(c, events))
  {
    InitialInv(c.maxSize, c.keepLast, c.unused, c.gate, c.order);
    Run(Initial(c.maxSize, c.keepLast, c.unused, c.gate, c.order), events)
  }

  /** The frames pushFrame has counted. */
  function Counted(s: System): seq<XData>
    requires Inv(s)
  {
    s.filled[..|s.filled| - One(Visible(s)) - One(s.producer.WriteBumped?)]
  }

  lemma StepKeepsSetup(s: System, e: Event)
    requires WellShaped(s)
    ensures Next(s, e).gate == s.gate && Next(s, e).order == s.order && Next(s, e).ring.keepLast == s.ring.keepLast
  {}

  lemma {:induction false} RunKeepsSetup(s: System, events: seq<Event>)
    requires Inv(s)
    ensures var s' := Run(s, events);
            s'.gate == s.gate && s'.order == s.order && s'.ring.keepLast == s.ring.keepLast
    decreases events
  {
    if events != [] {
      StepKeepsInv(s, events[0]);
      StepKeepsSetup(s, events[0]);
      RunKeepsSetup(Next(s, events[0]), events[1..]);
    }
  }

  lemma ReachedSetup(c: Setup, events: seq<Event>)
    requires c.Ok()
    ensures var s := Reached(c, events); s.gate == c.gate && s.order == c.order && s.ring.keepLast == c.keepLast
  {
    InitialInv(c.maxSize, c.keepLast, c.unused, c.gate, c.order);
    RunKeepsSetup(Initial(c.maxSize, c.keepLast, c.unused, c.gate, c.order), events);
  }

  // ---------------------------------------------------------------------------------------------
  // What holds for every order of the stores
  // ---------------------------------------------------------------------------------------------

  /** The write slot is neither the retained slot nor the one the consumer holds. */
  predicate Apart(s: System) {
    (s.ring.showIndex == 1 ==> s.ring.windex != s.ring.rindex)
    && (s.consumer.Holding? ==> s.ring.windex != s.consumer.index)
  }

  /** A slot that a decoder got and did not touch yet is empty, and apart from the consumer's. */
  lemma WriteSlotIsApart(c: Setup, events: seq<Event>)
    requires c.Ok()
    ensures var s := Reached(c, events);
            s.producer.Writing? ==> s.ring.slots[s.ring.windex].size == 0 && Apart(s)
  {
    var s := Reached(c, events);
    if s.producer.Writing? {
      assert s.ring.slots[s.ring.windex] == At(s.ring, Occupied(s)) == Window(s.ring)[Occupied(s)];
    }
  }

  /** As many frames are consumed as were written, none twice and none skipped, with the sizes they were written
      with; polling the count never runs ahead of pushFrame, polling the slot by one frame at most. */
  lemma ConsumedAreWritten(c: Setup, events: seq<Event>)
    requires c.Ok()
    ensures var s := Reached(c, events);
            && SizesOf(s.consumed, s.filled)
            && |s.consumed| <= |Counted(s)| + 1 && FrameSize(s.ring) >= -1
            && (c.gate.FrameCount? ==> |s.consumed| <= |Counted(s)| && FrameSize(s.ring) >= 0)
  {
    ReachedSetup(c, events);
  }

  predicate BetweenCalls(s: System) {
    (s.producer.Decoding? || s.producer.Waiting?) && s.consumer.Polling?
  }

  lemma ValidWhenIdle(s: System)
    requires Inv(s) && BetweenCalls(s)
    ensures Valid(s.ring)
  {
    assert forall k: nat :: k < s.ring.maxSize ==> At(s.ring, k) == Window(s.ring)[k];
  }

  lemma StoredWhenIdle(s: System)
    requires Inv(s) && BetweenCalls(s) && Valid(s.ring)
    ensures s.ring.size <= |s.filled| && Stored(s.ring) == s.filled[|s.filled| - s.ring.size..]
  {
    assert Stored(s.ring) == Window(s.ring)[..s.ring.size];
  }

  lemma PendingWhenIdle(s: System)
    requires Inv(s) && BetweenCalls(s) && Valid(s.ring)
    ensures |s.consumed| <= |s.filled| && Pending(s.ring) == s.filled[|s.consumed|..]
  {
    StoredWhenIdle(s);
    ConsumedWhenIdle(s);
    DropTwice(s.filled, |s.filled| - s.ring.size, s.ring.showIndex);
  }

  lemma ConsumedWhenIdle(s: System)
    requires Inv(s) && BetweenCalls(s)
    ensures 0 <= s.ring.showIndex <= s.ring.size <= |s.filled|
    ensures |s.consumed| == |s.filled| - s.ring.size + s.ring.showIndex
  {}

  lemma DropTwice(f: seq<XData>, n: nat, k: nat)
    requires n + k <= |f|
    ensures f[n..][k..] == f[n + k..]
  {}

  lemma WaitingLeavesFrames(s: System)
    requires Inv(s) && BetweenCalls(s) && Valid(s.ring)
    ensures s.producer.Waiting? ==> Pending(s.ring) != [] && FrameSize(s.ring) > 0
  {}

  /** Whenever both threads are between their calls, early pops or not, the ring is valid and its pending
      frames are exactly those written after the ones consumed; a waiting producer leaves the consumer something
      to take, so the two never wait for each other. */
  lemma ValidBetweenCalls(c: Setup, events: seq<Event>)
    requires c.Ok()
    ensures var s := Reached(c, events);
            BetweenCalls(s) ==>
              && Valid(s.ring)
              && |s.consumed| <= |s.filled| && Pending(s.ring) == s.filled[|s.consumed|..]
              && (s.producer.Waiting? ==> Pending(s.ring) != [] && FrameSize(s.ring) > 0)
  {
    var s := Reached(c, events);
    if BetweenCalls(s) {
      ValidWhenIdle(s);
      PendingWhenIdle(s);
      WaitingLeavesFrames(s);
    }
  }

  // ---------------------------------------------------------------------------------------------
  // What holds only without a view between the stores
  // ---------------------------------------------------------------------------------------------

  /** The consumed frames are the first of those written; polling the count, of those counted. */
  predicate ConsumesWhatWasWritten(s: System)
    requires Inv(s)
  {
    s.consumed <= s.filled && (s.gate.FrameCount? ==> s.consumed <= Counted(s))
  }

  /** From when a decoder gets the write slot until it is done with it, the slot is apart from the consumer's. */
  predicate ApartWhileWritten(s: System) {
    s.producer.Writing? || s.producer.Storing? ==> Apart(s)
  }

  /** A frame is taken after its size field was stored and before the rest was. */
  function Hasty(pts: Double): seq<Event> {
    [Peek, Write(XData(1, pts)), Look, PopStep]
  }

  /** The write slot is polled between the stores. */
  lemma HastyStore(c: Setup, pts: Double)
    requires c.Ok() && c.gate.SlotSize? && c.order.SizeFirst?
    ensures var s0 := Initial(c.maxSize, c.keepLast, c.unused, c.gate, c.order);
            var s1 := Next(s0, Peek);
            && WellShaped(s0) && WellShaped(s1)
            && Next(s1, Write(XData(1, pts))) == HalfWritten(c, pts)
  {}

  function HalfWritten(c: Setup, pts: Double): System
    requires c.Ok()
  {
    var s0, x := Initial(c.maxSize, c.keepLast, c.unused, c.gate, c.order), XData(1, pts);
    s0.(ring := s0.ring.(slots := s0.ring.slots[0 := XData(1, c.unused)]), producer := Storing(x), filled := [x])
  }

  lemma HastyLook(c: Setup, pts: Double)
    requires c.Ok() && c.gate.SlotSize? && c.order.SizeFirst?
    ensures WellShaped(HalfWritten(c, pts))
    ensures Next(HalfWritten(c, pts), Look) == HalfWritten(c, pts).(consumer := Holding(0))
  {
    assert HalfWritten(c, pts).ring.slots[0] == XData(1, c.unused);
  }

  lemma HastyPop(c: Setup, pts: Double)
    requires c.Ok() && c.gate.SlotSize? && c.order.SizeFirst?
    ensures var s3 := HalfWritten(c, pts).(consumer := Holding(0));
            var s := Next(s3, PopStep);
            && s.filled == [XData(1, pts)] && s.consumed == [XData(1, c.unused)]
            && s.producer.Storing? && s.ring.showIndex == 1 && s.ring.windex == s.ring.rindex
  {
    assert HalfWritten(c, pts).ring.slots[0] == XData(1, c.unused);
  }

  /** The state after it: a frame was consumed with what the slot held before, and the slot being written is the
      retained one. */
  lemma HastyRun(c: Setup, pts: Double)
    requires c.Ok() && c.gate.SlotSize? && c.order.SizeFirst?
    ensures var s := Reached(c, Hasty(pts));
            && s.filled == [XData(1, pts)] && s.consumed == [XData(1, c.unused)]
            && s.producer.Storing? && s.ring.showIndex == 1 && s.ring.windex == s.ring.rindex
  {
    InitialInv(c.maxSize, c.keepLast, c.unused, c.gate, c.order);
    RunFour(Initial(c.maxSize, c.keepLast, c.unused, c.gate, c.order), Hasty(pts));
    HastyStore(c, pts);
    HastyLook(c, pts);
    HastyPop(c, pts);
  }

  lemma RunOne(s: System, e: seq<Event>)
    requires e != [] && Inv(s)
    ensures Inv(Next(s, e[0])) && Run(s, e) == Run(Next(s, e[0]), e[1..])
  {
    StepKeepsInv(s, e[0]);
  }

  lemma RunFour(s: System, e: seq<Event>)
    requires |e| == 4 && Inv(s)
    ensures var s1 := Next(s, e[0]);
            && Inv(s1) && Inv(Next(s1, e[1])) && Inv(Next(Next(s1, e[1]), e[2]))
            && Run(s, e) == Next(Next(Next(s1, e[1]), e[2]), e[3])
  {
    var s1 := Next(s, e[0]);
    RunOne(s, e);
    var s2 := Next(s1, e[1]);
    RunOne(s1, e[1..]);
    var s3 := Next(s2, e[2]);
    RunOne(s2, e[1..][1..]);
    RunOne(s3, e[1..][1..][1..]);
    assert Run(Next(s3, e[3]), []) == Next(s3, e[3]);
  }

  lemma CoherentConsumption(c: Setup, events: seq<Event>)
    requires c.Ok() && Coherent(c.gate, c.order)
    ensures ConsumesWhatWasWritten(Reached(c, events)) && ApartWhileWritten(Reached(c, events))
  {
    ReachedSetup(c, events);
  }

  /** In every interleaving frames are consumed as they were written: exactly if the consumer polls the count, or
      the decoder stores the size field last. */
  lemma ConsumedInOrderIff(c: Setup)
    requires c.Ok()
    ensures (forall events :: ConsumesWhatWasWritten(Reached(c, events))) <==> Coherent(c.gate, c.order)
  {
    if Coherent(c.gate, c.order) {
      forall events ensures ConsumesWhatWasWritten(Reached(c, events)) {
        CoherentConsumption(c, events);
      }
    } else {
      var pts := if c.unused.NaN? then Num(0.0) else NaN;
      HastyRun(c, pts);
      assert !ConsumesWhatWasWritten(Reached(c, Hasty(pts)));
    }
  }

  /** In every interleaving a slot being written is apart from the consumer's: under the same condition. */
  lemma ApartWhileWrittenIff(c: Setup)
    requires c.Ok()
    ensures (forall events :: ApartWhileWritten(Reached(c, events))) <==> Coherent(c.gate, c.order)
  {
    if Coherent(c.gate, c.order) {
      forall events ensures ApartWhileWritten(Reached(c, events)) {
        CoherentConsumption(c, events);
      }
    } else {
      HastyRun(c, NaN);
      assert !ApartWhileWritten(Reached(c, Hasty(NaN)));
    }
  }

  // ---------------------------------------------------------------------------------------------
  // What is written, and what an abort leaves to write
  // ---------------------------------------------------------------------------------------------

  function BegunBy(s: System, e: Event): seq<XData> {
    if e.Write? && s.producer.Writing? then [e.x] else []
  }

  /** The frames that the decoder began to write. */
  function Begun(s: System, events: seq<Event>): seq<XData>
    requires Inv(s)
    decreases events
  {
    if events == [] then []
    else (StepKeepsInv(s, events[0]); BegunBy(s, events[0]) + Begun(Next(s, events[0]), events[1..]))
  }

  /** The frame whose size is not stored yet. */
  function Unfilled(s: System): seq<XData> {
    if s.producer.Storing? && s.order.SizeLast? then [s.producer.x] else []
  }

  lemma StepFills(s: System, e: Event)
    requires Inv(s)
    ensures Next(s, e).filled + Unfilled(Next(s, e)) == s.filled + Unfilled(s) + BegunBy(s, e)
  {}

  /** Every frame that a decoder writes counts once, as it was meant, and nothing else does. */
  lemma {:induction false} FilledAreBegun(s: System, events: seq<Event>)
    requires Inv(s)
    ensures Run(s, events).filled + Unfilled(Run(s, events)) == s.filled + Unfilled(s) + Begun(s, events)
    decreases events
  {
    if events != [] {
      RunOne(s, events);
      StepFills(s, events[0]);
      FilledAreBegun(Next(s, events[0]), events[1..]);
      var rest := Begun(Next(s, events[0]), events[1..]);
      assert Begun(s, events) == BegunBy(s, events[0]) + rest;
      Associates(s.filled + Unfilled(s), BegunBy(s, events[0]), rest);
    }
  }

  lemma Associates<T>(a: seq<T>, b: seq<T>, c: seq<T>)
    ensures (a + b) + c == a + (b + c)
  {}

  /** The decoder got a slot before the abort and has not shown a size in it. */
  predicate StillWrites(s: System) {
    s.producer.Writing? || Unfilled(s) != []
  }

  lemma StepAfterAbort(s: System, e: Event)
    requires Inv(s) && s.ring.abortRequest
    ensures var s' := Next(s, e);
            && s'.ring.abortRequest && !s'.producer.Waiting?
            && |s'.filled| + One(StillWrites(s')) <= |s.filled| + One(StillWrites(s))
  {}

  /** After an abort no decoder waits, and none gets another slot: at most the frame it is writing is still added. */
  lemma {:induction false} AbortStopsWriting(s: System, events: seq<Event>)
    requires Inv(s) && s.ring.abortRequest
    ensures var s' := Run(s, events);
            && s'.ring.abortRequest && !s'.producer.Waiting?
            && |s'.filled| + One(StillWrites(s')) <= |s.filled| + One(StillWrites(s))
    decreases events
  {
    if events != [] {
      StepKeepsInv(s, events[0]);
      StepAfterAbort(s, events[0]);
      AbortStopsWriting(Next(s, events[0]), events[1..]);
    }
  }

  /** peekWritable waits once: whatever the ring looks like by then, the decoder that the last step of a pop wakes gets
      its slot, and the one that an abort wakes gets none. Nothing else wakes it. */
  lemma WaitsOnce(s: System, e: Event)
    requires WellShaped(s) && s.producer.Waiting?
    ensures var s' := Next(s, e);
            WellShaped(s') &&
            if e.PopStep? && s.consumer.ReadBumped? then
              Next(s', WakeUp).producer == (if s.ring.abortRequest then Decoding else Writing)
            else if e.AbortQueue? then Next(s', WakeUp).producer.Decoding? && Next(s', WakeUp).filled == s.filled
            else s'.producer.Waiting?
  {
    var s' := Next(s, e);
    assert Next(s', WakeUp) == ProducerStep(s', WakeUp);
  }
}
