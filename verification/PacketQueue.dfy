/** The packet queue of queue/PacketQueue.cpp: a linked list with running counters of its packets, their
    bytes and their duration. */
module PacketQueues {

  datatype Packet = Packet(id: int, size: int, duration: int)

  /** The abstract queue. */
  datatype Fifo = Fifo(packets: seq<Packet>, aborted: bool)

  datatype Op =
    | Push(pkt: Packet, hasMemory: bool) // whether there was memory for the list node
    | Get(block: bool)
    | Flush
    | Abort
    | Start

  datatype GetResult = Aborted | Got(pkt: Packet) | Nothing | WouldWait

  function GetOutcome(f: Fifo, block: bool): GetResult {
    if f.aborted then Aborted
    else if f.packets != [] then Got(f.packets[0])
    else if block then WouldWait else Nothing
  }

  function Apply(f: Fifo, op: Op): Fifo {
    match op
    case Push(pkt, hasMemory) => if f.aborted || !hasMemory then f else f.(packets := f.packets + [pkt])
    case Get(block) => if GetOutcome(f, block).Got? then f.(packets := f.packets[1..]) else f
    case Flush => f.(packets := [])
    case Abort => f.(aborted := true)
    case Start => f.(aborted := false)
  }

  function ApplyAll(f: Fifo, ops: seq<Op>): Fifo
    decreases ops
  {
    if ops == [] then f else ApplyAll(Apply(f, ops[0]), ops[1..])
  }

  /** Bytes accounted for: each packet's data and its list node. */
  function Bytes(packets: seq<Packet>, nodeBytes: int): int {
    if packets == [] then 0 else packets[0].size + nodeBytes + Bytes(packets[1..], nodeBytes)
  }

  function Duration(packets: seq<Packet>): int {
    if packets == [] then 0 else packets[0].duration + Duration(packets[1..])
  }

  lemma {:induction false} SumsAppend(packets: seq<Packet>, pkt: Packet, nodeBytes: int)
    ensures Bytes(packets + [pkt], nodeBytes) == Bytes(packets, nodeBytes) + pkt.size + nodeBytes
    ensures Duration(packets + [pkt]) == Duration(packets) + pkt.duration
  {
    if packets != [] {
      assert (packets + [pkt])[1..] == packets[1..] + [pkt];
      SumsAppend(packets[1..], pkt, nodeBytes);
    }
  }

  // ---------------------------------------------------------------------------------------------
  // Histories
  // ---------------------------------------------------------------------------------------------

  function Enters(f: Fifo, op: Op): seq<Packet> {
    if op.Push? && op.hasMemory && !f.aborted then [op.pkt] else []
  }

  /** What an operation takes out, and whether a caller got it. */
  function Leaves(f: Fifo, op: Op): seq<(Packet, bool)> {
    match op
    case Get(block) => if GetOutcome(f, block).Got? then [(f.packets[0], true)] else []
    case Flush => seq(|f.packets|, i requires 0 <= i < |f.packets| => (f.packets[i], false))
    case _ => []
  }

  function Entered(f: Fifo, ops: seq<Op>): seq<Packet>
    decreases ops
  {
    if ops == [] then [] else Enters(f, ops[0]) + Entered(Apply(f, ops[0]), ops[1..])
  }

  function Left(f: Fifo, ops: seq<Op>): seq<(Packet, bool)>
    decreases ops
  {
    if ops == [] then [] else Leaves(f, ops[0]) + Left(Apply(f, ops[0]), ops[1..])
  }

  function Packets(left: seq<(Packet, bool)>): seq<Packet> {
    seq(|left|, i requires 0 <= i < |left| => left[i].0)
  }

  lemma OneOperation(f: Fifo, op: Op)
    ensures f.packets + Enters(f, op) == Packets(Leaves(f, op)) + Apply(f, op).packets
  {}

  lemma PacketsAppend(a: seq<(Packet, bool)>, b: seq<(Packet, bool)>)
    ensures Packets(a + b) == Packets(a) + Packets(b)
  {}

  lemma Chained(p: seq<Packet>, a: seq<Packet>, b: seq<Packet>, x: seq<Packet>, g: seq<Packet>,
                y: seq<Packet>, z: seq<Packet>)
    requires p + a == x + g && g + b == y + z
    ensures p + (a + b) == (x + y) + z
  {
    assert p + (a + b) == (p + a) + b;
    assert (x + g) + b == x + (g + b);
    assert x + (y + z) == (x + y) + z;
  }

  /** Packets leave in the order they entered; abort and start lose none. */
  lemma {:induction false} NoPacketIsLost(f: Fifo, ops: seq<Op>)
    ensures f.packets + Entered(f, ops) == Packets(Left(f, ops)) + ApplyAll(f, ops).packets
    decreases ops
  {
    if ops == [] {
      assert Packets(Left(f, ops)) == [];
    } else {
      var op, g, rest := ops[0], Apply(f, ops[0]), ops[1..];
      OneOperation(f, op);
      NoPacketIsLost(g, rest);
      PacketsAppend(Leaves(f, op), Left(g, rest));
      Chained(f.packets, Enters(f, op), Entered(g, rest), Packets(Leaves(f, op)), g.packets,
              Packets(Left(g, rest)), ApplyAll(g, rest).packets);
    }
  }

  /** Only flush drops packets: whatever else leaves goes to a caller. */
  lemma {:induction false} OnlyFlushDrops(f: Fifo, ops: seq<Op>)
    requires Flush !in ops
    ensures forall i :: 0 <= i < |Left(f, ops)| ==> Left(f, ops)[i].1
    decreases ops
  {
    if ops != [] {
      assert ops[0] in ops;
      OnlyFlushDrops(Apply(f, ops[0]), ops[1..]);
    }
  }

  /** A call gets a packet if and only if the queue is not aborted and has one, and then the first. A blocking call
      waits if and only if there is none and the queue is not aborted, and a call that does not block never waits. */
  lemma WhatGetMeans(f: Fifo, block: bool)
    ensures var r := GetOutcome(f, block);
            && (r.Got? <==> !f.aborted && f.packets != []) && (r.Got? ==> r.pkt == f.packets[0])
            && (r.WouldWait? <==> block && !f.aborted && f.packets == [])
            && (r.Nothing? <==> !block && !f.aborted && f.packets == [])
            && (r.Aborted? <==> f.aborted)
  {}

  /** Between abort and start no packet comes in and none goes to a caller; what was there stays, unless flushed. */
  lemma {:induction false} AbortFreezes(f: Fifo, ops: seq<Op>)
    requires f.aborted && Start !in ops && Flush !in ops
    ensures ApplyAll(f, ops) == f && Entered(f, ops) == [] && Left(f, ops) == []
    decreases ops
  {
    if ops != [] {
      assert ops[0] in ops;
      AbortFreezes(f, ops[1..]);
    }
  }

  /** Abort and start take effect at once, and only on what comes after; an aborted queue refuses every push. */
  lemma AbortAndStart(f: Fifo, pkt: Packet)
    ensures Apply(f, Abort) == Fifo(f.packets, true) && Apply(f, Start) == Fifo(f.packets, false)
    ensures Apply(Apply(f, Abort), Push(pkt, true)).packets == f.packets
    ensures Apply(Apply(f, Start), Push(pkt, true)).packets == f.packets + [pkt]
    ensures Apply(f, Push(pkt, false)) == f && Apply(f, Flush) == Fifo([], f.aborted)
  {}

  class PacketList {
    var pkt: Packet
    var next: PacketList?

    constructor (pkt: Packet)
      ensures this.pkt == pkt && next == null
    {
      this.pkt := pkt;
      next := null;
    }
  }

  ghost function Successor(nodes: seq<PacketList>, i: nat): PacketList? {
    if i + 1 < |nodes| then nodes[i + 1] else null
  }

  class PacketQueue {
    var firstPkt: PacketList?
    var lastPkt: PacketList?
    var nbPackets: int
    var size: int
    var duration: int
    var abortRequest: bool
    const nodeBytes: int
    ghost var nodes: seq<PacketList>
    ghost var packets: seq<Packet>

    /** The list from first to last is exactly `nodes`, without a cycle, and its packets are `packets`. */
    ghost predicate Linked()
      reads this`firstPkt, this`lastPkt, this`nodes, this`packets, nodes
    {
      && (firstPkt == if nodes == [] then null else nodes[0])
      && (lastPkt == if nodes == [] then null else nodes[|nodes| - 1])
      && (forall i :: 0 <= i < |nodes| ==> nodes[i].next == Successor(nodes, i))
      && (forall i, j :: 0 <= i < j < |nodes| ==> nodes[i] != nodes[j])
      && |packets| == |nodes|
      && (forall i :: 0 <= i < |nodes| ==> nodes[i].pkt == packets[i])
    }

    ghost predicate Valid()
      reads this, nodes
    {
      && Linked()
      && nbPackets == |packets|
      && size == Bytes(packets, nodeBytes)
      && duration == Duration(packets)
    }

    ghost function State(): Fifo
      reads this
    {
      Fifo(packets, abortRequest)
    }

    constructor (nodeBytes: int)
      ensures Valid() && State() == Fifo([], false) && nodes == []
    {
      this.nodeBytes := nodeBytes;
      firstPkt, lastPkt, nbPackets, size, duration, abortRequest := null, null, 0, 0, 0, false;
      nodes, packets := [], [];
    }

    method PushPacket(pkt: Packet, hasMemory: bool) returns (ret: int)
      requires Valid()
      modifies this, nodes
      ensures Valid() && forall n :: n in nodes ==> n in old(nodes) || fresh(n)
      ensures State() == Apply(old(State()), Push(pkt, hasMemory))
      ensures ret == if old(abortRequest) || !hasMemory then -1 else 0
    {
      if abortRequest {
        return -1;
      }
      if !hasMemory {
        return -1;
      }
      var pkt1 := new PacketList(pkt);
      Link(pkt1);
      CountIn(pkt);
      return 0;
    }

    /** Adds an appended packet to the counters. */
    method CountIn(pkt: Packet)
      modifies this`nbPackets, this`size, this`duration
      ensures nbPackets == old(nbPackets) + 1
      ensures forall ps :: old(size) == Bytes(ps, nodeBytes) ==> size == Bytes(ps + [pkt], nodeBytes)
      ensures forall ps :: old(duration) == Duration(ps) ==> duration == Duration(ps + [pkt])
    {
      nbPackets := nbPackets + 1;
      size := size + pkt.size + nodeBytes;
      duration := duration + pkt.duration;
      forall ps { SumsAppend(ps, pkt, nodeBytes); }
    }

    /** Appends a node to the list. */
    method Link(node: PacketList)
      requires Linked() && node !in nodes && node.next == null
      modifies this`firstPkt, this`lastPkt, this`nodes, this`packets, nodes
      ensures Linked() && nodes == old(nodes) + [node] && packets == old(packets) + [node.pkt]
      ensures node.pkt == old(node.pkt)
    {
      if lastPkt == null {
        firstPkt := node;
      } else {
        lastPkt.next := node;
      }
      lastPkt := node;
      nodes, packets := nodes + [node], packets + [node.pkt];
    }

    /** Takes the first node off the list. */
    method Unlink() returns (node: PacketList)
      requires Linked() && firstPkt != null
      modifies this`firstPkt, this`lastPkt, this`nodes, this`packets
      ensures Linked() && old(nodes) == [node] + nodes && old(packets) == [node.pkt] + packets
    {
      node := firstPkt;
      firstPkt := node.next;
      if firstPkt == null {
        lastPkt := null;
      }
      assert forall i :: 0 <= i < |nodes| - 1 ==> Successor(nodes[1..], i) == Successor(nodes, i + 1);
      nodes, packets := nodes[1..], packets[1..];
    }

    method GetPacket(block: bool) returns (r: GetResult)
      requires Valid()
      modifies this
      ensures Valid() && forall n :: n in nodes ==> n in old(nodes)
      ensures State() == Apply(old(State()), Get(block))
      ensures r == GetOutcome(old(State()), block)
    {
      if abortRequest {
        return Aborted;
      }
      if firstPkt != null {
        var pkt1 := Unlink();
        nbPackets := nbPackets - 1;
        size := size - (pkt1.pkt.size + nodeBytes);
        duration := duration - pkt1.pkt.duration;
        return Got(pkt1.pkt);
      } else if !block {
        return Nothing;
      } else {
        return WouldWait;
      }
    }

    method FlushPackets()
      requires Valid()
      modifies this
      ensures Valid() && nodes == []
      ensures State() == Apply(old(State()), Flush)
    {
      var pkt := firstPkt;
      ghost var k := 0;
      while pkt != null
        invariant 0 <= k <= |nodes|
        invariant pkt == if k < |nodes| then nodes[k] else null
        decreases |nodes| - k
      {
        pkt := pkt.next;
        k := k + 1;
      }
      lastPkt := null;
      firstPkt := null;
      nbPackets := 0;
      size := 0;
      duration := 0;
      nodes, packets := [], [];
    }

    method AbortQueue()
      requires Valid()
      modifies this`abortRequest
      ensures Valid() && State() == Apply(old(State()), Abort)
    {
      abortRequest := true;
    }

    method StartQueue()
      requires Valid()
      modifies this`abortRequest
      ensures Valid() && State() == Apply(old(State()), Start)
    {
      abortRequest := false;
    }

    /** Any mix of operations: the list stays a list, the counters stay exact, and the queue is the abstract one. */
    method Perform(ops: seq<Op>)
      requires Valid()
      modifies this, nodes
      ensures Valid() && State() == ApplyAll(old(State()), ops)
      ensures forall n :: n in nodes ==> n in old(nodes) || fresh(n)
    {
      for i := 0 to |ops|
        invariant Valid() && ApplyAll(State(), ops[i..]) == ApplyAll(old(State()), ops)
        invariant forall n :: n in nodes ==> n in old(nodes) || fresh(n)
      {
        assert ops[i..][0] == ops[i] && ops[i..][1..] == ops[i + 1..];
        assert forall k :: 0 <= k < |nodes| ==> nodes[k] in nodes;
        PerformOne(ops[i]);
      }
    }

    method PerformOne(op: Op)
      requires Valid()
      modifies this, nodes
      ensures Valid() && State() == Apply(old(State()), op)
      ensures forall n :: n in nodes ==> n in old(nodes) || fresh(n)
    {
      match op {
        case Push(pkt, hasMemory) => var _ := PushPacket(pkt, hasMemory);
        case Get(block) => var _ := GetPacket(block);
        case Flush => FlushPackets();
        case Abort => AbortQueue();
        case Start => StartQueue();
      }
    }
  }
}
