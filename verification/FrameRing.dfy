/** The ring of decoded frames of queue/FrameQueue.cpp: one producer, one consumer, and with keep_last the
    frame consumed last stays in the ring until the next one is consumed. */
module FrameRing {
  import opened Doubles

  const FRAME_QUEUE_SIZE := 10

  /** A slot: its size field, which consumers poll, and the rest of what a decoder writes. */
  datatype XData = XData(size: int, pts: Double)

  datatype Ring = Ring(
    slots: seq<XData>,
    rindex: nat,
    windex: nat,
    size: int,
    maxSize: nat,
    keepLast: bool,
    showIndex: nat,
    abortRequest: bool)

  /** An index that ran at most once past the end of `m` slots. */
  function Wrap(i: nat, m: nat): nat {
    if i < m then i else i - m
  }

  lemma ModIsWrap(i: nat, m: nat)
    requires i < 2 * m
    ensures i % m == Wrap(i, m)
  {
    if i >= m {
      assert i == m * 1 + (i - m);
    }
  }

  // The pieces of pushFrame and popFrame between which the other thread can act.

  function Fill(q: Ring, x: XData): Ring
    requires q.windex < |q.slots|
  {
    q.(slots := q.slots[q.windex := x])
  }

  function BumpWrite(q: Ring): Ring {
    q.(windex := if q.windex + 1 == q.maxSize then 0 else q.windex + 1)
  }

  function CountUp(q: Ring): Ring {
    q.(size := q.size + 1)
  }

  function UnrefSlot(q: Ring, i: nat): Ring
    requires i < |q.slots|
  {
    q.(slots := q.slots[i := q.slots[i].(size := 0)])
  }

  function Unref(q: Ring): Ring
    requires q.rindex < |q.slots|
  {
    UnrefSlot(q, q.rindex)
  }

  function BumpRead(q: Ring): Ring {
    q.(rindex := if q.rindex + 1 == q.maxSize then 0 else q.rindex + 1)
  }

  function CountDown(q: Ring): Ring {
    if q.size > 0 then q.(size := q.size - 1) else q
  }

  function AfterPush(q: Ring): Ring {
    CountUp(BumpWrite(q))
  }

  function AfterPop(q: Ring): Ring
    requires q.rindex < |q.slots|
  {
    if q.keepLast && q.showIndex == 0 then q.(showIndex := 1)
    else CountDown(BumpRead(Unref(q)))
  }

  function FrameSize(q: Ring): int {
    q.size - q.showIndex
  }

  function Current(q: Ring): nat
    requires 0 < q.maxSize
  {
    (q.rindex + q.showIndex) % q.maxSize
  }

  // ---------------------------------------------------------------------------------------------
  // Between calls
  // ---------------------------------------------------------------------------------------------

  predicate Indexed(q: Ring) {
    q.rindex < q.maxSize <= |q.slots|
  }

  /** The slot `k` places after the read slot. */
  function At(q: Ring, k: nat): XData
    requires Indexed(q) && k < q.maxSize
  {
    q.slots[Wrap(q.rindex + k, q.maxSize)]
  }

  /** The indices fit together, and the slots outside the window of `size` frames are empty. */
  predicate Valid(q: Ring) {
    && Indexed(q)
    && 0 <= q.size <= q.maxSize
    && q.windex == Wrap(q.rindex + q.size, q.maxSize)
    && q.showIndex <= 1
    && (q.showIndex == 1 ==> q.keepLast && q.size >= 1)
    && (forall k: nat :: q.size <= k < q.maxSize ==> At(q, k).size == 0)
  }

  function New(maxSize: nat, keepLast: bool, unused: Double): Ring {
    var capacity := if maxSize > FRAME_QUEUE_SIZE then FRAME_QUEUE_SIZE else maxSize;
    Ring(seq(FRAME_QUEUE_SIZE, _ => XData(0, unused)), 0, 0, 0, capacity, keepLast, 0, true)
  }

  /** The frames in the ring, oldest first. */
  function Stored(q: Ring): seq<XData>
    requires Valid(q)
  {
    seq(q.size, k requires 0 <= k < q.size => At(q, k))
  }

  /** The frames not consumed yet. */
  function Pending(q: Ring): seq<XData>
    requires Valid(q)
  {
    Stored(q)[q.showIndex..]
  }

  lemma PushAppends(q: Ring, x: XData)
    requires Valid(q) && q.size < q.maxSize
    ensures var q' := AfterPush(Fill(q, x));
            && Valid(q')
            && Stored(q') == Stored(q) + [x] && Pending(q') == Pending(q) + [x]
            && FrameSize(q') == FrameSize(q) + 1
            && (q.size > 0 ==> q'.slots[q'.rindex] == q.slots[q.rindex])
  {
    var q' := AfterPush(Fill(q, x));
    forall k: nat | k < q.maxSize ensures At(q', k) == if k == q.size then x else At(q, k) {}
  }

  lemma DropsOldest(q: Ring)
    requires Valid(q) && q.size > q.showIndex
    ensures var q' := CountDown(BumpRead(Unref(q)));
            Valid(q') && Stored(q') == Stored(q)[1..]
  {
    var q' := CountDown(BumpRead(Unref(q)));
    forall k: nat | k < q.maxSize
      ensures At(q', k) == if k + 1 < q.maxSize then At(q, k + 1) else At(q, 0).(size := 0)
    {}
  }

  /** Popping consumes the oldest pending frame; with keep_last that frame is the retained one from then on. */
  lemma PopConsumes(q: Ring)
    requires Valid(q) && FrameSize(q) > 0
    ensures var q' := AfterPop(q);
            && Valid(q')
            && Pending(q') == Pending(q)[1..]
            && (q.keepLast ==> q'.showIndex == 1 && q'.slots[q'.rindex] == Pending(q)[0])
            && (!q.keepLast ==> q'.showIndex == 0)
            && FrameSize(q') == FrameSize(q) - 1
  {
    var q' := AfterPop(q);
    if q.keepLast && q.showIndex == 0 {
      forall k: nat | k < q.maxSize ensures At(q', k) == At(q, k) {}
    } else {
      DropsOldest(q);
    }
    if q.keepLast {
      assert q'.slots[q'.rindex] == At(q', 0) == Stored(q')[0];
    }
  }

  /** The current slot's size field tells whether a frame is pending: for nonempty frames exactly, unless
      the only slot holds the retained frame. */
  lemma CurrentSlotTellsPending(q: Ring)
    requires Valid(q)
    ensures FrameSize(q) > 0 ==> q.slots[Current(q)] == Pending(q)[0]
    ensures q.maxSize >= 2 || q.showIndex == 0 ==>
              (q.slots[Current(q)].size == 0 <==> FrameSize(q) == 0 || Pending(q)[0].size == 0)
    ensures q.maxSize == 1 && q.showIndex == 1 ==>
              FrameSize(q) == 0 && q.slots[Current(q)] == Stored(q)[0]
  {
    ModIsWrap(q.rindex + q.showIndex, q.maxSize);
    if q.maxSize >= 2 || q.showIndex == 0 {
      assert q.slots[Current(q)] == At(q, q.showIndex);
    } else {
      assert q.slots[Current(q)] == At(q, 0);
    }
  }

  /** A frame taken as soon as its slot is filled, before pushFrame counts it, leads to the same ring as one
      taken afterwards; except that without a retained frame there must be something to count down. */
  lemma EarlyPopCommutes(q: Ring)
    requires 0 < q.maxSize <= |q.slots| && q.rindex < q.maxSize && q.windex < q.maxSize && q.size >= 0
    ensures AfterPop(AfterPush(q)) == AfterPush(AfterPop(q))
            <==> (q.keepLast && q.showIndex == 0) || q.size > 0
  {}

  datatype Op = Push(x: XData) | Pop

  /** A full ring refuses pushes, a ring without pending frames refuses pops. */
  function Apply(q: Ring, op: Op): Ring
    requires Valid(q)
    ensures Valid(Apply(q, op))
  {
    match op
    case Push(x) =>
      if q.size < q.maxSize then (PushAppends(q, x); AfterPush(Fill(q, x))) else q
    case Pop =>
      if FrameSize(q) > 0 then (PopConsumes(q); AfterPop(q)) else q
  }

  function ApplyAll(q: Ring, ops: seq<Op>): Ring
    requires Valid(q)
    ensures Valid(ApplyAll(q, ops))
    decreases ops
  {
    if ops == [] then q else ApplyAll(Apply(q, ops[0]), ops[1..])
  }

  function Consumes(q: Ring, op: Op): seq<XData>
    requires Valid(q)
  {
    if op.Pop? && FrameSize(q) > 0 then [Pending(q)[0]] else []
  }

  function Produces(q: Ring, op: Op): seq<XData> {
    if op.Push? && q.size < q.maxSize then [op.x] else []
  }

  /** The frames the operations consume, in order. */
  function Consumed(q: Ring, ops: seq<Op>): seq<XData>
    requires Valid(q)
    decreases ops
  {
    if ops == [] then [] else Consumes(q, ops[0]) + Consumed(Apply(q, ops[0]), ops[1..])
  }

  /** The frames the operations put in, in order. */
  function Produced(q: Ring, ops: seq<Op>): seq<XData>
    requires Valid(q)
    decreases ops
  {
    if ops == [] then [] else Produces(q, ops[0]) + Produced(Apply(q, ops[0]), ops[1..])
  }

  /** The ring retains `x` in its read slot. */
  predicate Retains(q: Ring, x: XData)
    requires Valid(q)
  {
    q.showIndex == 1 && q.slots[q.rindex] == x
  }

  lemma PopOperation(q: Ring)
    requires Valid(q) && FrameSize(q) > 0
    ensures var q', x := AfterPop(q), Pending(q)[0];
            && Valid(q') && Pending(q) == [x] + Pending(q') && q'.keepLast == q.keepLast
            && (q.keepLast ==> Retains(q', x))
  {
    PopConsumes(q);
  }

  lemma OneOperation(q: Ring, op: Op)
    requires Valid(q)
    ensures var q', consumed := Apply(q, op), Consumes(q, op);
            && Pending(q) + Produces(q, op) == consumed + Pending(q')
            && q'.keepLast == q.keepLast
            && (q.keepLast && consumed != [] ==> Retains(q', consumed[0]))
            && (consumed == [] && q.showIndex == 1 ==> Retains(q', q.slots[q.rindex]))
  {
    if op.Push? && q.size < q.maxSize {
      PushAppends(q, op.x);
    }
    if op.Pop? && FrameSize(q) > 0 {
      PopOperation(q);
    }
  }

  // Filling a ring.

  function Pushes(frames: seq<XData>): seq<Op> {
    seq(|frames|, i requires 0 <= i < |frames| => Push(frames[i]))
  }

  /** As many of the frames as there are free slots, or all of them. */
  function Fitting(frames: seq<XData>, room: int): seq<XData>
    requires room >= 0
  {
    if |frames| <= room then frames else frames[..room]
  }

  lemma OnePush(q: Ring, x: XData)
    requires Valid(q)
    ensures var q', room := Apply(q, Push(x)), q.size < q.maxSize;
            && Valid(q') && q'.maxSize == q.maxSize && q'.size == (if room then q.size + 1 else q.size)
            && Pending(q') == (if room then Pending(q) + [x] else Pending(q))
  {
    if q.size < q.maxSize {
      PushAppends(q, x);
    }
  }

  lemma FittingSplits(frames: seq<XData>, room: nat)
    requires frames != [] && room > 0
    ensures Fitting(frames, room) == [frames[0]] + Fitting(frames[1..], room - 1)
  {}

  lemma PushesGoOn(q: Ring, frames: seq<XData>)
    requires Valid(q) && frames != []
    ensures ApplyAll(q, Pushes(frames)) == ApplyAll(Apply(q, Push(frames[0])), Pushes(frames[1..]))
  {
    assert Pushes(frames)[0] == Push(frames[0]) && Pushes(frames)[1..] == Pushes(frames[1..]);
  }

  lemma {:induction false} PushesFill(q: Ring, frames: seq<XData>)
    requires Valid(q)
    ensures Pending(ApplyAll(q, Pushes(frames))) == Pending(q) + Fitting(frames, q.maxSize - q.size)
    decreases frames
  {
    if frames == [] {
      assert Pushes(frames) == [];
    } else {
      var q' := Apply(q, Push(frames[0]));
      PushesGoOn(q, frames);
      OnePush(q, frames[0]);
      PushesFill(q', frames[1..]);
      FillsOneMore(Pending(q), Pending(q'), frames, q.maxSize - q.size, q'.maxSize - q'.size);
    }
  }

  lemma FillsOneMore(a: seq<XData>, b: seq<XData>, frames: seq<XData>, room: int, room': int)
    requires frames != [] && room >= 0
    requires if room > 0 then b == a + [frames[0]] && room' == room - 1 else b == a && room' == 0
    ensures b + Fitting(frames[1..], room') == a + Fitting(frames, room)
  {
    if room > 0 {
      FittingSplits(frames, room);
    }
  }

  lemma NewIsValid(maxSize: nat, keepLast: bool, unused: Double)
    requires maxSize > 0
    ensures var q := New(maxSize, keepLast, unused);
            && Valid(q) && Pending(q) == [] && q.size == 0 && q.keepLast == keepLast && q.abortRequest
            && |q.slots| == 10 && q.maxSize == if maxSize > 10 then 10 else maxSize
  {
    assert Stored(New(maxSize, keepLast, unused)) == [];
  }

  /** A new ring of `maxSize` slots, ten at most, takes so many frames. */
  lemma StartedHolds(maxSize: nat, keepLast: bool, unused: Double, frames: seq<XData>)
    requires maxSize > 0
    ensures var q := New(maxSize, keepLast, unused).(abortRequest := false);
            var slots := if maxSize > 10 then 10 else maxSize;
            && Valid(q) && q.maxSize == slots && |q.slots| == 10 && q.keepLast == keepLast
            && Pending(ApplyAll(q, Pushes(frames))) == Fitting(frames, slots)
  {
    NewIsValid(maxSize, keepLast, unused);
    var q := New(maxSize, keepLast, unused).(abortRequest := false);
    assert Stored(q) == [];
    PushesFill(q, frames);
  }

  // Flushing a ring.

  /** `k` of the frames that were pending are consumed. */
  predicate Flushed(q: Ring, pending: seq<XData>, k: nat) {
    && Valid(q) && k <= |pending| && FrameSize(q) == |pending| - k
    && Pending(q) == pending[k..]
    && (k > 0 ==> q.showIndex == (if q.keepLast then 1 else 0)
                  && (q.keepLast ==> q.slots[q.rindex] == pending[k - 1]))
  }

  lemma FlushOne(q: Ring, pending: seq<XData>, k: nat)
    requires Flushed(q, pending, k) && FrameSize(q) > 0
    ensures Flushed(AfterPop(q), pending, k + 1)
  {
    PopConsumes(q);
    assert pending[k..][1..] == pending[k + 1..] && pending[k..][0] == pending[k];
  }

  lemma AllFlushed(q: Ring, pending: seq<XData>, k: nat)
    requires Flushed(q, pending, k) && FrameSize(q) <= 0
    ensures Pending(q) == [] && k == |pending|
    ensures k > 0 ==> Stored(q) == if q.keepLast then [pending[k - 1]] else []
  {
    if k > 0 && q.keepLast {
      assert At(q, 0) == q.slots[q.rindex];
    }
  }

  /** Frames are consumed in the order they were produced, none lost; and with keep_last the read slot shows
      the frame consumed last. */
  lemma {:induction false} KeepsLastConsumed(q: Ring, ops: seq<Op>)
    requires Valid(q)
    ensures var q', consumed := ApplyAll(q, ops), Consumed(q, ops);
            && Pending(q) + Produced(q, ops) == consumed + Pending(q')
            && q'.keepLast == q.keepLast
            && (q.keepLast && consumed != [] ==> Retains(q', consumed[|consumed| - 1]))
            && (consumed == [] && q.showIndex == 1 ==> Retains(q', q.slots[q.rindex]))
    decreases ops
  {
    if ops != [] {
      var op, q1 := ops[0], Apply(q, ops[0]);
      OneOperation(q, op);
      KeepsLastConsumed(q1, ops[1..]);
      ChainFlows(Pending(q), Produces(q, op), Consumes(q, op), Pending(q1),
                 Produced(q1, ops[1..]), Consumed(q1, ops[1..]), Pending(ApplyAll(q, ops)));
    }
  }

  lemma ChainFlows<T>(a: seq<T>, inn: seq<T>, out: seq<T>, b: seq<T>, inn': seq<T>, out': seq<T>, c: seq<T>)
    requires a + inn == out + b && b + inn' == out' + c
    ensures a + (inn + inn') == (out + out') + c
  {
    assert a + (inn + inn') == (a + inn) + inn';
    assert (out + b) + inn' == out + (b + inn');
    assert out + (out' + c) == (out + out') + c;
  }

  datatype Writable = Slot(index: nat) | Aborted | WaitForRoom

  /** The object, with its array of slots. A pointer into the array is an index. */
  class FrameQueue {
    const queue: array<XData>
    var rindex: nat
    var windex: nat
    var size: int
    const maxSize: nat
    const keepLast: bool
    var showIndex: nat
    var abortRequest: bool

    ghost function State(): Ring
      reads this, queue
    {
      Ring(queue[..], rindex, windex, size, maxSize, keepLast, showIndex, abortRequest)
    }

    constructor (maxSize: nat, keepLast: bool, unused: Double)
      ensures fresh(queue)
      ensures State() == New(maxSize, keepLast, unused) && (maxSize > 0 ==> Valid(State()))
    {
      queue := new XData[FRAME_QUEUE_SIZE](_ => XData(0, unused));
      this.maxSize := if maxSize > FRAME_QUEUE_SIZE then FRAME_QUEUE_SIZE else maxSize;
      this.keepLast := keepLast;
      abortRequest := true;
      rindex, windex, size, showIndex := 0, 0, 0, 0;
      new;
      assert queue[..] == New(maxSize, keepLast, unused).slots;
      assert maxSize > 0 ==> forall k: nat :: k < this.maxSize ==> At(State(), k).size == 0;
    }

    method Start()
      modifies this`abortRequest
      ensures State() == old(State()).(abortRequest := false)
    {
      abortRequest := false;
    }

    method Abort()
      modifies this`abortRequest
      ensures State() == old(State()).(abortRequest := true)
    {
      abortRequest := true;
    }

    method CurrentFrame() returns (index: nat)
      requires 0 < maxSize
      ensures index == Current(State())
      ensures Valid(State()) ==>
                index < queue.Length && (GetFrameSize() > 0 ==> queue[index] == Pending(State())[0])
    {
      index := (rindex + showIndex) % maxSize;
      if Valid(State()) {
        CurrentSlotTellsPending(State());
      }
    }

    method LastFrame() returns (index: nat)
      requires Valid(State())
      ensures index < queue.Length
      ensures size > 0 ==> queue[index] == Stored(State())[0]
    {
      index := rindex;
      assert queue[index] == At(State(), 0);
    }

    method PeekWritable() returns (r: Writable)
      ensures r.Aborted? <==> abortRequest
      ensures r.WaitForRoom? <==> !abortRequest && size >= maxSize
      ensures r.Slot? ==> r.index == windex && size < maxSize
    {
      if size >= maxSize && !abortRequest {
        return WaitForRoom;
      }
      if abortRequest {
        return Aborted;
      }
      return Slot(windex);
    }

    /** How peekWritable goes on after its wait: it does not test the size again. */
    method PeekWoken() returns (r: Writable)
      ensures r == if abortRequest then Aborted else Slot(windex)
    {
      if abortRequest {
        return Aborted;
      }
      return Slot(windex);
    }

    /** A decoder's stores to the slot it got: the size field, and the rest. */
    method StoreSize(x: XData)
      requires windex < queue.Length
      modifies queue
      ensures State() == old(State()).(slots := old(queue[..])[windex := old(queue[windex]).(size := x.size)])
    {
      queue[windex] := queue[windex].(size := x.size);
    }

    method StoreRest(x: XData)
      requires windex < queue.Length
      modifies queue
      ensures State() == old(State()).(slots := old(queue[..])[windex := old(queue[windex]).(pts := x.pts)])
    {
      queue[windex] := queue[windex].(pts := x.pts);
    }

    // The pieces of pushFrame and popFrame: the indices without the mutex, the counter under it.

    method AdvanceWrite()
      modifies this`windex
      ensures State() == BumpWrite(old(State()))
    {
      windex := windex + 1;
      if windex == maxSize {
        windex := 0;
      }
    }

    method AddFrame()
      modifies this`size
      ensures State() == CountUp(old(State()))
    {
      size := size + 1;
    }

    method AdvanceRead()
      modifies this`rindex
      ensures State() == BumpRead(old(State()))
    {
      rindex := rindex + 1;
      if rindex == maxSize {
        rindex := 0;
      }
    }

    method RemoveFrame()
      modifies this`size
      ensures State() == CountDown(old(State()))
    {
      if size > 0 {
        size := size - 1;
      }
    }

    method PushFrame()
      modifies this`windex, this`size
      ensures State() == AfterPush(old(State()))
    {
      AdvanceWrite();
      AddFrame();
    }

    /** The first piece of popFrame; it is the last one when a frame starts to be retained. */
    method DropFrame() returns (done: bool)
      requires rindex < queue.Length
      modifies this`showIndex, queue
      ensures done == (keepLast && old(showIndex) == 0)
      ensures State() == if done then old(State()).(showIndex := 1) else Unref(old(State()))
    {
      if keepLast && showIndex == 0 {
        showIndex := 1;
        return true;
      }
      UnrefFrame(rindex);
      return false;
    }

    method PopFrame()
      requires rindex < queue.Length
      modifies this, queue
      ensures State() == AfterPop(old(State()))
    {
      var done := DropFrame();
      if done {
        return;
      }
      AdvanceRead();
      RemoveFrame();
    }

    method UnrefFrame(index: nat)
      requires index < queue.Length
      modifies queue
      ensures State() == UnrefSlot(old(State()), index)
    {
      queue[index] := queue[index].(size := 0);
    }

    /** The destructor empties every slot of the ring. */
    method Destroy()
      requires maxSize <= queue.Length
      modifies queue
      ensures forall i :: 0 <= i < maxSize ==> queue[i].size == 0
      ensures forall i :: maxSize <= i < queue.Length ==> queue[i] == old(queue[i])
    {
      for i := 0 to maxSize
        invariant forall k :: 0 <= k < i ==> queue[k].size == 0
        invariant forall k :: maxSize <= k < queue.Length ==> queue[k] == old(queue[k])
      {
        UnrefFrame(i);
      }
    }

    /** Consumes everything pending; with keep_last exactly the newest frame stays, as the retained one. */
    method Flush()
      requires Valid(State())
      modifies this, queue
      ensures Valid(State())
      ensures Pending(State()) == []
      ensures old(GetFrameSize()) <= 0 ==> State() == old(State())
      ensures old(GetFrameSize()) > 0 ==>
                var newest := old(Pending(State()))[old(GetFrameSize()) - 1];
                Stored(State()) == if keepLast then [newest] else []
    {
      ghost var pending := Pending(State());
      ghost var k := 0;
      while GetFrameSize() > 0
        invariant Flushed(State(), pending, k)
        invariant k == 0 ==> State() == old(State())
        decreases GetFrameSize()
      {
        FlushOne(State(), pending, k);
        PopFrame();
        k := k + 1;
      }
      AllFlushed(State(), pending, k);
    }

    function GetFrameSize(): int
      reads this
    {
      size - showIndex
    }
  }
}
