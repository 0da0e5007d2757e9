/**
 The datagram queue under a QUIC listener (quic/detail/h3q_addr.c).  A batch read from the
 socket is queued and handed on one datagram at a time, so that the peer address noted for a
 new connection is that of its own datagram.
 */
module DatagramQueue {
  import opened Bytes

  type Address = nat

  /** A datagram as it arrived; an address is missing when its message had no place to put it. */
  datatype Packet = Packet(data: seq<byte>, peer: Option<Address>, local: Option<Address>)

  /** One BIO_MSG: a buffer of `room` bytes, if there is one, and places for the addresses, if there are. */
  datatype Message = Message(data: Option<seq<byte>>, room: nat, peer: Option<Address>, local: Option<Address>)

  /** The message after `p` was copied into it. */
  function Filled(msg: Message, p: Packet): (r: Message)
  {
    msg.(data := Some(p.data), room := |p.data|,
         peer := if msg.peer.Some? && p.peer.Some? then p.peer else msg.peer,
         local := if msg.local.Some? && p.local.Some? then p.local else msg.local)
  }

  /** What the socket may put into the messages: datagrams that fit, with addresses where there are places for them. */
  predicate Received(msgs: seq<Message>, batch: seq<Packet>)
  {
    && |batch| <= |msgs|
    && forall i | 0 <= i < |batch| ::
         && msgs[i].data.Some? && |batch[i].data| <= msgs[i].room
         && (msgs[i].peer.Some? <==> batch[i].peer.Some?) && (msgs[i].local.Some? <==> batch[i].local.Some?)
  }

  // ---- the queue as a value ----

  /** The datagrams waiting, and the peer address noted for the next new connection; none is AF_UNSPEC. */
  datatype Inbox = Inbox(waiting: seq<Packet>, noted: Option<Address>)

  /** The first waiting datagram is handed over, or dropped when the buffer is too small for it. */
  function Hand(q: Inbox, msg: Message): (r: (Inbox, Option<Packet>))
  {
    if q.waiting == [] || msg.data.None? then (q.(noted := None), None)
    else
      var p, rest := q.waiting[0], q.waiting[1..];
      if msg.room < |p.data| then (Inbox(rest, None), None) else (Inbox(rest, Filled(msg, p).peer), Some(p))
  }

  /** No datagram of a batch is empty. */
  predicate NoneEmpty(batch: seq<Packet>)
  {
    forall i | 0 <= i < |batch| :: batch[i].data != []
  }

  /** One call: `batch` is what the socket gives if it is asked, `memory` says that it can be copied. */
  datatype Call = Call(msgs: seq<Message>, batch: seq<Packet>, memory: bool)

  function Recv(q: Inbox, c: Call): (r: (Inbox, Option<Packet>))
  {
    if c.msgs == [] then (q, None)
    else if q.waiting != [] then Hand(q, c.msgs[0])
    else if c.batch == [] || !c.memory || !NoneEmpty(c.batch) then (Inbox([], None), None)
    else Hand(Inbox(c.batch, None), Filled(c.msgs[0], c.batch[0]))
  }

  function After(calls: seq<Call>): (q: Inbox)
  {
    if calls == [] then Inbox([], None) else Recv(After(calls[..|calls| - 1]), calls[|calls| - 1]).0
  }

  /** Every message of every call has a place for its peer. */
  ghost predicate Placed(calls: seq<Call>)
  {
    forall k | 0 <= k < |calls| :: Received(calls[k].msgs, calls[k].batch) && HasPlaces(calls[k].msgs)
  }

  predicate HasPlaces(msgs: seq<Message>)
  {
    forall i | 0 <= i < |msgs| :: msgs[i].peer.Some?
  }

  ghost predicate HavePeers(ps: seq<Packet>)
  {
    forall i | 0 <= i < |ps| :: ps[i].peer.Some?
  }

  /** Then every datagram that waits has its peer with it. */
  lemma {:induction false} WaitingHavePeers(calls: seq<Call>)
    requires Placed(calls)
    ensures HavePeers(After(calls).waiting)
    decreases |calls|
  {
    if calls != [] {
      var n := |calls| - 1;
      WaitingHavePeers(calls[..n]);
      assert Received(calls[n].msgs, calls[n].batch) && HasPlaces(calls[n].msgs);
    }
  }

  /**
   If every message has a place for its peer, then over any sequence of calls the address noted
   after a delivery is the peer of the datagram just delivered.
   */
  lemma NotesOwnPeer(calls: seq<Call>, k: nat)
    requires Placed(calls) && k < |calls|
    ensures var (q, p) := Recv(After(calls[..k]), calls[k]);
            p.Some? ==> p.value.peer.Some? && q.noted == p.value.peer
  {
    WaitingHavePeers(calls[..k]);
    assert Received(calls[k].msgs, calls[k].batch) && HasPlaces(calls[k].msgs);
  }

  /**
   Without that, a delivery notes another address than the datagram's own exactly when the
   datagram had waited and its message had a place while the message it goes into has none, or
   the other way round.
   */
  lemma NotesOwnPeerExactly(q: Inbox, c: Call)
    requires Received(c.msgs, c.batch) && Recv(q, c).1.Some?
    ensures Recv(q, c).0.noted == Recv(q, c).1.value.peer <==>
            (q.waiting == [] || (c.msgs[0].peer.Some? <==> q.waiting[0].peer.Some?))
  {
  }

  /** Two datagrams arrive in messages without a place; the second is delivered into one with an old address in it. */
  function StaleCalls(): (calls: seq<Call>)
    ensures |calls| == 2
  {
    var bare, old' := Message(Some([]), 9, None, None), Message(Some([]), 9, Some(5), None);
    [Call([bare, bare], [Packet([1], None, None), Packet([2], None, None)], true), Call([old'], [], true)]
  }

  /** That address is noted, though it belongs to neither datagram. */
  lemma StaleAddressNoted()
    ensures forall k | 0 <= k < 2 :: Received(StaleCalls()[k].msgs, StaleCalls()[k].batch)
    ensures var (q, p) := Recv(After(StaleCalls()[..1]), StaleCalls()[1]);
            p == Some(Packet([2], None, None)) && q.noted == Some(5)
  {
    var calls := StaleCalls();
    assert calls[..1][..0] == [];
    var first := Recv(Inbox([], None), calls[0]).0;
    assert After(calls[..1]) == first && first.waiting == [Packet([2], None, None)];
  }

  // ---- what is delivered, over any sequence of calls ----

  /** The socket is asked only when nothing waits. */
  predicate Asks(q: Inbox, c: Call)
  {
    c.msgs != [] && q.waiting == []
  }

  /** All that was read from the socket. */
  function Arrived(calls: seq<Call>): (ps: seq<Packet>)
  {
    if calls == [] then [] else
      var before, c := calls[..|calls| - 1], calls[|calls| - 1];
      Arrived(before) + if Asks(After(before), c) then c.batch else []
  }

  /** The datagram call k delivered, if it did. */
  function Delivery(calls: seq<Call>, k: nat): (p: Option<Packet>)
    requires k < |calls|
  {
    Recv(After(calls[..k]), calls[k]).1
  }

  /** How many of the datagrams read have left the queue again. */
  function Left(calls: seq<Call>): (n: int)
  {
    |Arrived(calls)| - |After(calls).waiting|
  }

  /** One call on a queue that is the end of what arrived: it delivers the datagram that left last. */
  lemma CallTakes(all: seq<Packet>, q: Inbox, c: Call)
    requires |q.waiting| <= |all| && q.waiting == all[|all| - |q.waiting|..]
    ensures var (r, p), now := Recv(q, c), all + if Asks(q, c) then c.batch else [];
            && |all| - |q.waiting| <= |now| - |r.waiting| <= |now| && r.waiting == now[|now| - |r.waiting|..]
            && (p.Some? ==> |all| - |q.waiting| < |now| - |r.waiting| && p.value == now[|now| - |r.waiting| - 1])
  {
  }

  /** What waits is the end of what arrived. */
  lemma {:induction false} WaitingIsTheEnd(calls: seq<Call>)
    ensures 0 <= Left(calls) && After(calls).waiting == Arrived(calls)[Left(calls)..]
    decreases |calls|
  {
    if calls != [] {
      var before := calls[..|calls| - 1];
      WaitingIsTheEnd(before);
      CallTakes(Arrived(before), After(before), calls[|calls| - 1]);
    }
  }

  /** A call delivers the datagram that left last, and one only; nothing that left comes back. */
  lemma DeliversTheLast(calls: seq<Call>)
    requires calls != []
    ensures var before := calls[..|calls| - 1];
            && Arrived(before) <= Arrived(calls) && 0 <= Left(before) <= Left(calls) <= |Arrived(calls)|
            && var p := Delivery(calls, |calls| - 1);
               p.Some? ==> Left(before) < Left(calls) && p.value == Arrived(calls)[Left(calls) - 1]
  {
    var before := calls[..|calls| - 1];
    WaitingIsTheEnd(before);
    CallTakes(Arrived(before), After(before), calls[|calls| - 1]);
  }

  /** Longer runs have read more, and more has left. */
  lemma {:induction false} ArrivalsGrow(calls: seq<Call>, k: nat)
    requires k <= |calls|
    ensures Arrived(calls[..k]) <= Arrived(calls) && 0 <= Left(calls[..k]) <= Left(calls)
    decreases |calls|
  {
    if k < |calls| {
      var before := calls[..|calls| - 1];
      ArrivalsGrow(before, k);
      DeliversTheLast(calls);
      assert before[..k] == calls[..k];
    } else {
      WaitingIsTheEnd(calls);
      assert calls[..k] == calls;
    }
  }

  /**
   Over any sequence of calls, what is delivered is an in-order subsequence of what arrived, with
   none of it twice: call k delivers the datagram at a place that grows from delivery to delivery.
   */
  lemma DeliveredInOrder(calls: seq<Call>, j: nat, k: nat)
    requires j < k < |calls| && Delivery(calls, j).Some? && Delivery(calls, k).Some?
    ensures var at, next := Left(calls[..j + 1]) - 1, Left(calls[..k + 1]) - 1;
            && 0 <= at < next < |Arrived(calls)|
            && Delivery(calls, j).value == Arrived(calls)[at] && Delivery(calls, k).value == Arrived(calls)[next]
  {
    DeliveredAt(calls, j);
    DeliveredAt(calls, k);
    ArrivalsGrow(calls[..k], j + 1);
    assert calls[..k][..j + 1] == calls[..j + 1];
  }

  lemma DeliveredAt(calls: seq<Call>, k: nat)
    requires k < |calls| && Delivery(calls, k).Some?
    ensures 0 <= Left(calls[..k]) <= Left(calls[..k + 1]) - 1 < |Arrived(calls)|
    ensures Delivery(calls, k).value == Arrived(calls)[Left(calls[..k + 1]) - 1]
  {
    var run := calls[..k + 1];
    assert run[..k] == calls[..k] && run[k] == calls[k];
    DeliversTheLast(run);
    assert Delivery(run, k) == Delivery(calls, k);
    ArrivalsGrow(calls, k + 1);
  }

  /** A queue that meets a buffer gets shorter, also when the datagram does not fit. */
  lemma QueueShrinks(q: Inbox, c: Call)
    requires q.waiting != [] && c.msgs != [] && c.msgs[0].data.Some?
    ensures var (r, p) := Recv(q, c);
            r.waiting == q.waiting[1..] && (p.Some? <==> |q.waiting[0].data| <= c.msgs[0].room)
  {
  }

  // ---- the linked list ----

  class Datagram {
    const packet: Packet
    var next: Datagram?
    /** how many were queued before it */
    ghost const place: nat
    /** set by h3q_datagram_free(); no method may touch a datagram afterwards */
    ghost var freed: bool

    constructor (packet: Packet, ghost place: nat)
      ensures this.packet == packet && this.place == place && next == null && !freed
    {
      this.packet, this.place := packet, place;
      next, freed := null, false;
    }

    /** A link may be read only while its datagram is there. */
    function Next(): (n: Datagram?)
      requires !freed
      reads this
    {
      next
    }

    ghost method Free()
      requires !freed
      modifies this`freed
      ensures freed
    {
      freed := true;
    }
  }

  class Engine {
    var head: Datagram?
    var tail: Datagram?
    var currentPeer: Option<Address>

    /** every datagram ever queued, of which the first `gone` have left, and what is in them */
    ghost var nodes: seq<Datagram>
    ghost var gone: nat
    ghost var packets: seq<Packet>
    ghost var repr: set<Datagram>

    /** Exactly the datagrams that left are freed. */
    ghost predicate Kept()
      reads this`nodes, this`gone, this`packets, this`repr, repr`freed
    {
      && gone <= |nodes| == |packets|
      && forall i | 0 <= i < |nodes| ::
           && nodes[i] in repr && nodes[i].place == i && nodes[i].packet == packets[i]
           && (nodes[i].freed <==> i < gone)
    }

    ghost predicate Valid()
      reads this`head, this`tail, this`nodes, this`gone, this`packets, this`repr, repr`next, repr`freed
    {
      && Kept()
      && (forall i {:trigger nodes[i].next} | gone <= i < |nodes| - 1 :: nodes[i].next == nodes[i + 1])
      && (if gone < |nodes| then head == nodes[gone] && tail == nodes[|nodes| - 1] && tail.next == null
          else head == null && tail == null)
    }

    /** The datagrams waiting. */
    ghost function Waiting(): (ps: seq<Packet>)
      requires gone <= |packets|
      reads this`packets, this`gone
    {
      packets[gone..]
    }

    ghost function Model(): (q: Inbox)
      requires gone <= |packets|
      reads this`packets, this`gone, this`currentPeer
    {
      Inbox(Waiting(), currentPeer)
    }

    constructor ()
      ensures Valid() && Model() == After([])
    {
      head, tail, currentPeer := null, null, None;
      nodes, gone, packets, repr := [], 0, [], {};
    }

    /** h3q_queue_drop_head */
    method DropHead()
      requires Valid() && gone < |nodes|
      modifies this`head, this`tail, this`gone, repr`freed
      ensures Valid() && gone == old(gone) + 1 && Waiting() == old(Waiting())[1..]
    {
      var item := head;
      head := item.Next();
      if head == null {
        tail := null;
      }
      item.Free();
      gone := gone + 1;
    }

    /** h3q_peer_addr_queue_clear: every datagram is freed once, and its link is read before that. */
    method Clear()
      requires Valid()
      modifies this`head, this`tail, this`gone, repr`freed
      ensures Valid() && Waiting() == [] && gone == |nodes|
    {
      var item := head;
      ghost var k := gone;
      while item != null
        invariant gone <= k <= |nodes| && item == if k < |nodes| then nodes[k] else null
        invariant forall i | 0 <= i < |nodes| :: nodes[i].freed <==> i < k
        decreases |nodes| - k
      {
        var next := item.Next();
        item.Free();
        item := next;
        k := k + 1;
      }
      head, tail := null, null;
      gone := |nodes|;
    }

    /** A datagram read is linked at the tail. */
    method Enqueue(p: Packet)
      requires Valid()
      modifies this`head, this`tail, this`nodes, this`packets, this`repr, repr`next
      ensures Valid() && gone == old(gone) && packets == old(packets) + [p] && fresh(repr - old(repr))
    {
      var item := new Datagram(p, |nodes|);
      if tail != null {
        tail.next := item;
      } else {
        head := item;
      }
      tail := item;
      nodes, packets, repr := nodes + [item], packets + [p], repr + {item};
    }

    /** h3q_queue_fill: all of a batch is queued, or, when memory runs out or a datagram is empty, none of it. */
    method Fill(batch: seq<Packet>) returns (ok: bool, ghost memory: bool)
      requires Valid() && Waiting() == []
      modifies this`head, this`tail, this`nodes, this`gone, this`packets, this`repr, repr`next, repr`freed
      ensures Valid() && fresh(repr - old(repr))
      ensures ok == (memory && NoneEmpty(batch))
      ensures Waiting() == if ok then batch else []
    {
      for i := 0 to |batch|
        invariant Valid() && gone == old(gone) && packets == old(packets) + batch[..i]
        invariant fresh(repr - old(repr))
        invariant NoneEmpty(batch[..i])
      {
        var noMemory: bool := *;
        if noMemory || batch[i].data == [] {
          Clear();
          return false, !noMemory;
        }
        Enqueue(batch[i]);
      }
      assert batch[..|batch|] == batch;
      ok, memory := true, true;
    }

    /** h3q_queue_pop: the head is delivered, or dropped when the buffer is too small for it. */
    method Pop(msg: Message) returns (ok: bool, out: Message)
      requires Valid()
      modifies this`head, this`tail, this`gone, repr`freed
      ensures Valid()
      ensures ok == Hand(old(Model()), msg).1.Some?
      ensures Inbox(Waiting(), if ok then out.peer else None) == Hand(old(Model()), msg).0
      ensures out == if ok then Filled(msg, Hand(old(Model()), msg).1.value) else msg
    {
      out := msg;
      if head == null || msg.data.None? {
        return false, msg;
      }
      if msg.room < |head.packet.data| {
        DropHead();
        return false, msg;
      }
      out := Filled(msg, head.packet);
      DropHead();
      ok := true;
    }

    /** Hand the head to the caller and note its peer. */
    method Deliver(msg: Message) returns (ok: bool, out: Message)
      requires Valid() && currentPeer == None
      modifies this`head, this`tail, this`gone, this`currentPeer, repr`freed
      ensures Valid()
      ensures Model() == Hand(old(Model()), msg).0 && ok == Hand(old(Model()), msg).1.Some?
      ensures out == if ok then Filled(msg, Hand(old(Model()), msg).1.value) else msg
    {
      ghost var q := Hand(Model(), msg).0;
      ok, out := Pop(msg);
      if ok && out.peer.Some? {
        assert Valid() && q == Inbox(Waiting(), out.peer);
        currentPeer := out.peer;
        assert Valid();
      }
    }

    /** What the socket gave is queued and its first datagram handed on. */
    method Refill(msg: Message, batch: seq<Packet>) returns (ok: bool, out: Message, ghost memory: bool)
      requires Valid() && Model() == Inbox([], None) && batch != []
      modifies this, repr`next, repr`freed
      ensures Valid() && fresh(repr - old(repr))
      ensures var (q, p) := Recv(Inbox([], None), Call([msg], batch, memory));
              Model() == q && ok == p.Some? && (ok ==> out == Filled(msg, p.value))
    {
      out := Filled(msg, batch[0]);
      ok, memory := Fill(batch);
      if ok {
        ok, out := Deliver(out);
      }
    }

    /** h3q_peer_addr_bio_recvmmsg: the value step, for a socket that gives `batch` if it is asked. */
    method RecvMmsg(msgs: seq<Message>, batch: seq<Packet>)
      returns (asked: bool, out: Option<Message>, ghost memory: bool)
      requires Valid() && Received(msgs, batch)
      modifies this, repr`next, repr`freed
      ensures Valid() && fresh(repr - old(repr)) && asked == Asks(old(Model()), Call(msgs, batch, memory))
      ensures var (q, p) := Recv(old(Model()), Call(msgs, batch, memory));
              Model() == q && out == if p.Some? then Some(Filled(msgs[0], p.value)) else None
    {
      asked, out, memory := false, None, true;
      if msgs == [] {
        return;
      }
      currentPeer := None;
      var ok, msg := false, msgs[0];
      if head != null {
        ok, msg := Deliver(msg);
      } else {
        asked := true;
        if batch != [] {
          ok, msg, memory := Refill(msg, batch);
        }
      }
      if ok {
        out := Some(msg);
      }
    }

    /** h3q_new_pending_conn_cb: a new connection records the address noted last, if there is one. */
    method NewPendingConn() returns (recorded: Option<Address>, ok: bool)
      ensures ok ==> recorded == currentPeer
      ensures !ok ==> recorded == None && currentPeer.Some?
    {
      if currentPeer.None? {
        return None, true;
      }
      var noMemory: bool := *;
      if noMemory {
        return None, false;
      }
      return currentPeer, true;
    }
  }
}
