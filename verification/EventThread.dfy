/**
 The event thread's work on one session (h3_stream.c, h3_io.c): flushing nghttp3, draining the
 streams, dispatching requests and shutting down.  Every method is proved to be a run of the
 session machine, so all that is proved of runs holds between any two of its steps.
 */
module EventThread {
  import opened Bytes
  import opened SendQueue
  import opened OutQueue
  import opened Transmit
  import opened SessionModel
  import opened SessionInvariant
  import opened SessionRecords
  import opened SessionTheorems
  import opened QuicStream
  import opened DrainSchedule
  import opened SessionSteps

  const DRAIN_READ_BUDGET: nat := 256
  const DRAIN_BYTE_BUDGET: nat := 1024 * 1024
  /** three seconds, in microseconds */
  const GOAWAY_GRACE: nat := 3_000_000

  /** h3q_stream_write on the stream's handle: what the transport's record of the stream becomes. */
  method StreamWrite(t: Tx, count: nat) returns (res: WriteResult, r: Tx)
    requires TxOk(t) && t.open && !t.clean && count <= |t.out|
    ensures res.accepted <= Expected(t, count) && !(res.blocked && res.broken)
    ensures res.blocked || res.broken ==> res.accepted < Expected(t, count)
    ensures !res.blocked && !res.broken ==> res.accepted == Expected(t, count) && (t.failed ==> count == 0)
    ensures t.failed && 0 < count ==> res == WriteResult(0, false, true)
    ensures r == Took(t, res.accepted, Fin(t, count) && !res.blocked && !res.broken).(failed := t.failed || res.broken)
  {
    PendingInside(t.q, t.out);
    var items := t.out[..count];
    var handle := new Handle.Resume([], t.concluded, t.failed);
    PayloadIsCarried(t.q.chunks, items, 0);
    res := handle.Write(Gather(t.q.chunks, items), Fin(t, count));
    PayloadIsCarried(t.q.chunks, items, res.accepted);
    assert handle.sent == Flatten(Gather(t.q.chunks, items))[..res.accepted] && res.accepted <= Expected(t, count);
    CarriedPrefix(t.q.chunks, t.out, count, res.accepted);
    r := t.(wire := t.wire + Payload(items, handle.sent), failed := handle.failed, concluded := handle.concluded);
  }

  class Session {
    var streams: seq<Stream>
    var blockedStreams: int
    var dead: bool
    var excessive: bool
    var aborted: bool
    var destroyed: bool
    var streamErrors: nat
    const maxStreamErrors: nat
    const bufferSize: nat
    var activeTasks: int
    var tasks: seq<Task>
    var event: Event
    var completed: seq<nat>
    var pendingFree: seq<nat>
    var freed: seq<nat>
    var handles: nat
    var drainCursor: nat
    var goawaySent: bool
    var goawayDeadline: nat
    /** the calls that announce and end the shutdown, in the order they were made */
    ghost var calls: seq<ShutdownCall>

    function Model(): (s: State)
      reads this`streams, this`blockedStreams, this`dead, this`excessive, this`aborted, this`destroyed
      reads this`streamErrors, this`activeTasks, this`tasks, this`event, this`completed, this`pendingFree
      reads this`freed, this`handles
    {
      State(streams, blockedStreams, dead, excessive, aborted, destroyed, streamErrors, maxStreamErrors, bufferSize,
            activeTasks, tasks, event, completed, pendingFree, freed, handles)
    }

    /** The session is in a good state and the event thread is between two steps. */
    ghost predicate Valid()
      reads this`streams, this`blockedStreams, this`dead, this`excessive, this`aborted, this`destroyed
      reads this`streamErrors, this`activeTasks, this`tasks, this`event, this`completed, this`pendingFree
      reads this`freed, this`handles
    {
      Reachable(Model()) && EventFree(Model())
    }

    constructor (maxStreamErrors: nat, bufferSize: nat)
      requires 0 < bufferSize
      ensures Valid() && Model() == Init(maxStreamErrors, bufferSize) && ShutdownOk(calls, goawaySent, aborted)
    {
      this.maxStreamErrors, this.bufferSize := maxStreamErrors, bufferSize;
      streams, blockedStreams, dead, excessive, aborted, destroyed := [], 0, false, false, false, false;
      streamErrors, activeTasks, tasks, event, completed := 0, 0, [], Idle, [];
      pendingFree, freed, handles, drainCursor := [], [], 0, 0;
      goawaySent, goawayDeadline, calls := false, 0, [];
      new;
      assert Runs(Init(maxStreamErrors, bufferSize), [], Model());
    }

    // ---- flushing ----

    /** h3_session_read_data, called back by nghttp3 for a stream it can pull from. */
    method Pull(i: nat, veccnt: nat, header: nat) returns (ghost run: seq<Action>)
      requires Valid() && !dead && i < |streams| && CanPull(streams[i].tx) && 0 < veccnt && 0 < header
      modifies this`streams
      ensures Sends(old(Model()), run, Model())
      ensures Sum(PullWeight, streams) < Sum(PullWeight, old(streams))
    {
      ghost var a := Sending(PullStep(Model(), i, veccnt, header));
      PullIsStep(Model(), i, veccnt, header);
      OneStep(Model(), a);
      run := [a];
      streams := streams[i := streams[i].(tx := Pulled(streams[i].tx, veccnt, header))];
    }

    /** nghttp3 queues a frame of its own, such as SETTINGS, QPACK instructions or GOAWAY, on one of its streams. */
    method OwnFrame() returns (ghost run: seq<Action>)
      requires Valid()
      modifies this`streams
      ensures Sends(old(Model()), run, Model())
    {
      run := [];
      var i: int, n: int := *, *;
      if 0 <= i < |streams| && streams[i].tx.open && !streams[i].tx.finDone && 0 < n {
        SendsOne(Model(), NgFrame(i, n));
        run := [Sending(NgFrame(i, n))];
        streams := streams[i := streams[i].(tx := FrameTx(streams[i].tx, n))];
      }
    }

    /**
     nghttp3_conn_writev_stream as the environment may answer: it queues frames of its own, as long
     as it has any of the `own` it may still have, and pulls from any streams it likes; then it
     fails, or offers the first items of some stream, or has nothing left.
     */
    method Writev(own: nat) returns (offer: Offer, left: nat, ghost run: seq<Action>)
      requires Valid() && !dead
      modifies this`streams
      ensures Sends(old(Model()), run, Model())
      ensures left < own || (left == own && PulledSome(old(streams), streams))
      ensures offer.Of? ==> Offers(Model(), offer.stream, offer.count)
      ensures offer.Nothing? ==> Quiet(streams)
    {
      run, left := [], own;
      while true
        invariant Sends(old(Model()), run, Model())
        invariant left < own || (left == own && PulledSome(old(streams), streams))
        decreases left, Sum(PullWeight, streams)
      {
        var fail: bool, frame: bool, pull: bool, n: int, veccnt: int, header: int := *, *, *, *, *, *;
        ghost var before, more := Model(), [];
        if fail {
          return Failed, left, run;
        }
        if frame && left > 0 {
          left := left - 1;
          more := OwnFrame();
        } else if i :| 0 <= i < |streams| && (CanPull(streams[i].tx) || CanOffer(streams[i].tx)) {
          var t := streams[i].tx;
          if CanOffer(t) && !(pull && CanPull(t)) {
            OfferedShape(Model(), i);
            return Of(i, OfferSize(|t.out|, n)), left, run;
          }
          more := Pull(i, AtLeastOne(veccnt), AtLeastOne(header));
        } else {
          return Nothing, left, run;
        }
        SendsJoin(old(Model()), run, before, more, Model());
        run := run + more;
      }
    }

    /** The stream is gone: swallow what nghttp3 offers for it. */
    method SwallowOffer(i: nat, count: nat) returns (ghost run: seq<Action>)
      requires Valid() && Offers(Model(), i, count) && (!streams[i].tracked || streams[i].qstream.None?)
      modifies this`streams
      ensures Progress(old(Model()), run, Model())
    {
      SwallowIsStep(Model(), i, count);
      run := [Sending(Swallow(i, count))];
      var t := streams[i].tx;
      streams := streams[i := streams[i].(tx := AddOffsets(t, Expected(t, count), Fin(t, count)).(lost := true))];
    }

    /** The write side broke after n bytes: drop the remainder. */
    method DropOffer(i: nat, count: nat, n: nat, t: Tx) returns (ghost run: seq<Action>)
      requires Writable(Model(), i, count) && n < Expected(streams[i].tx, count) && (streams[i].tx.failed ==> n == 0)
      requires t == Took(streams[i].tx, n, false).(failed := true)
      modifies this`streams
      ensures Progress(old(Model()), run, Model())
    {
      BreakIsStep(Model(), i, count, n);
      run := [Sending(Break(i, count, n))];
      var u := streams[i].tx;
      streams := streams[i := streams[i].(tx := AddOffsets(t, Expected(u, count), Fin(u, count)).(lost := true))];
    }

    method MarkBlocked(i: nat, t: Tx)
      requires i < |streams|
      modifies this`streams, this`blockedStreams
      ensures Model() == MarkedAt(old(Model()), i, t)
    {
      blockedStreams := if t.writeBlocked then blockedStreams else blockedStreams + 1;
      streams := streams[i := streams[i].(tx := Marked(t))];
    }

    /** The send buffer is full after n bytes: skip this stream until it has room. */
    method BlockStream(i: nat, count: nat, n: nat, t: Tx) returns (ghost run: seq<Action>)
      requires Writable(Model(), i, count) && n < Expected(streams[i].tx, count) && !streams[i].tx.failed
      requires t == Took(streams[i].tx, n, false)
      modifies this`streams, this`blockedStreams
      ensures Progress(old(Model()), run, Model())
    {
      var r := AddOffsets(t, n, false);
      BlockIsStep(Model(), i, count, n, r);
      run := [Sending(Block(i, count, n))];
      MarkBlocked(i, r);
    }

    /** Everything offered went. */
    method PassOffer(i: nat, count: nat, t: Tx) returns (ghost run: seq<Action>)
      requires Writable(Model(), i, count) && (streams[i].tx.failed ==> count == 0)
      requires t == Took(streams[i].tx, Expected(streams[i].tx, count), Fin(streams[i].tx, count))
      modifies this`streams
      ensures Progress(old(Model()), run, Model())
    {
      WentIsStep(Model(), i, count);
      run := [Sending(Went(i, count))];
      var u := streams[i].tx;
      streams := streams[i := streams[i].(tx := AddOffsets(t, Expected(u, count), Fin(u, count)))];
    }

    /** flush_nghttp3: what is done with one offer. */
    method WriteOffer(i: nat, count: nat) returns (ghost run: seq<Action>)
      requires Valid() && Offers(Model(), i, count)
      modifies this`streams, this`blockedStreams
      ensures Progress(old(Model()), run, Model())
    {
      if !streams[i].tracked || streams[i].qstream.None? {
        run := SwallowOffer(i, count);
        return;
      }
      OfferedOk(Model(), i);
      var res, t := StreamWrite(streams[i].tx, count);
      if res.broken {
        run := DropOffer(i, count, res.accepted, t);
      } else if res.blocked {
        run := BlockStream(i, count, res.accepted, t);
      } else {
        run := PassOffer(i, count, t);
      }
    }

    /** A stream whose send buffer has room again. */
    method UnblockStream(i: nat) returns (ghost run: seq<Action>)
      requires Valid() && !dead && i < |streams| && streams[i].tracked && streams[i].tx.writeBlocked
      modifies this`streams, this`blockedStreams
      ensures Sends(old(Model()), run, Model())
      ensures streams == old(streams)[i := old(streams)[i].(tx := UnblockTx(old(streams)[i].tx))]
    {
      SendsOne(Model(), Unblock(i));
      run := [Sending(Unblock(i))];
      streams := streams[i := streams[i].(tx := UnblockTx(streams[i].tx))];
      blockedStreams := blockedStreams - 1;
    }

    /** The turn of stream i: it is unblocked unless its send buffer is still full. */
    method UnblockTurn(i: nat, full: bool) returns (ghost run: seq<Action>)
      requires Valid() && !dead && i < |streams|
      modifies this`streams, this`blockedStreams
      ensures Sends(old(Model()), run, Model())
      ensures streams == old(streams)[i := UnblockedIf(old(streams)[i], full)]
    {
      run := [];
      if streams[i].tracked && streams[i].tx.writeBlocked && !(streams[i].qstream.Some? && full) {
        run := UnblockStream(i);
      }
    }

    /**
     unblock_writable_streams, where `full` says whose send buffer has no room: exactly their streams
     stay blocked.
     */
    method UnblockWritable(full: seq<bool>) returns (ghost run: seq<Action>)
      requires Valid() && !dead && |full| == |streams|
      modifies this`streams, this`blockedStreams
      ensures Sends(old(Model()), run, Model()) && Unblocked(old(streams), streams, full, |full|)
    {
      run := [];
      if blockedStreams <= 0 {
        ZeroMeansNone(Model());
        return;
      }
      for i := 0 to |full|
        invariant Sends(old(Model()), run, Model()) && Unblocked(old(streams), streams, full, i)
      {
        ghost var before, more := Model(), [];
        more := UnblockTurn(i, full[i]);
        SendsJoin(old(Model()), run, before, more, Model());
        run := run + more;
      }
    }

    /** nghttp3 cannot go on. */
    method FailWritev() returns (ghost run: seq<Action>)
      requires Valid() && !dead
      modifies this`dead
      ensures Sends(old(Model()), run, Model()) && dead
    {
      SendsOne(Model(), WritevFails);
      run := [Sending(WritevFails)];
      dead := true;
    }

    /**
     One turn of the loop of flush_nghttp3; while it goes on, nghttp3 has fewer frames of its own to
     come, or as many and there is less to pull, or as much and less to write.
     */
    method WriteTurn(own: nat) returns (goOn: bool, left: nat, ghost run: seq<Action>)
      requires Valid() && !dead
      modifies this`streams, this`blockedStreams, this`dead
      ensures Sends(old(Model()), run, Model()) && left <= own
      ensures if goOn then !dead && (left < own || Less(old(streams), streams)) else dead || Quiet(streams)
    {
      goOn := false;
      var offer;
      offer, left, run := Writev(own);
      ghost var before, more := Model(), [];
      if offer == Nothing {
        return;
      }
      if offer == Failed {
        more := FailWritev();
      } else {
        goOn := true;
        more := WriteOffer(offer.stream, offer.count);
      }
      SendsJoin(old(Model()), run, before, more, Model());
      run := run + more;
    }

    /**
     The loop of flush_nghttp3: write offers until nothing is left or nghttp3 fails.  It ends however
     many frames of its own, `own`, nghttp3 comes up with meanwhile.
     */
    method WriteAll(own: nat) returns (ghost run: seq<Action>)
      requires Valid() && !dead
      modifies this`streams, this`blockedStreams, this`dead
      ensures Sends(old(Model()), run, Model())
      ensures !dead ==> Quiet(streams)
    {
      run := [];
      var goOn, left := true, own;
      while goOn
        invariant Sends(old(Model()), run, Model()) && (goOn ==> !dead) && (!goOn && !dead ==> Quiet(streams))
        decreases goOn, left, Sum(PullWeight, streams), Sum(WriteWeight, streams)
      {
        ghost var before := Model();
        ghost var more;
        goOn, left, more := WriteTurn(left);
        SendsJoin(old(Model()), run, before, more, Model());
        run := run + more;
      }
    }

    /** Free the handle queued last. */
    method FreeLast() returns (ghost run: seq<Action>)
      requires Valid() && pendingFree != []
      modifies this`pendingFree, this`freed
      ensures Sends(old(Model()), run, Model())
      ensures pendingFree == old(pendingFree)[..|old(pendingFree)| - 1]
      ensures freed + Reversed(pendingFree) == old(freed) + Reversed(old(pendingFree))
    {
      SendsOne(Model(), FreeHandle);
      ReversedLast(freed, pendingFree);
      run := [Sending(FreeHandle)];
      var last := |pendingFree| - 1;
      freed, pendingFree := freed + [pendingFree[last]], pendingFree[..last];
    }

    /** Free the handles queued for it, last first. */
    method FreePending() returns (ghost run: seq<Action>)
      requires Valid()
      modifies this`pendingFree, this`freed
      ensures Sends(old(Model()), run, Model())
      ensures pendingFree == [] && freed == old(freed) + Reversed(old(pendingFree))
    {
      run := [];
      while |pendingFree| > 0
        invariant Sends(old(Model()), run, Model())
        invariant freed + Reversed(pendingFree) == old(freed) + Reversed(old(pendingFree))
      {
        ghost var before := Model();
        ghost var more := FreeLast();
        SendsJoin(old(Model()), run, before, more, Model());
        run := run + more;
      }
    }

    /**
     flush_nghttp3.  It ends, it is a run of sending steps, and unless nghttp3 fails it leaves
     nothing to pull or offer on any stream.
     */
    method Flush() returns (ghost run: seq<Action>)
      requires Valid()
      modifies this`streams, this`blockedStreams, this`dead, this`pendingFree, this`freed
      ensures Sends(old(Model()), run, Model())
      ensures old(dead) ==> run == []
      ensures !dead ==> Quiet(streams)
      ensures !old(dead) ==> pendingFree == [] && freed == old(freed) + Reversed(old(pendingFree))
    {
      run := [];
      if dead {
        return;
      }
      var answers: seq<bool> := *;
      run := UnblockWritable(seq(|streams|, i => 0 <= i < |answers| && answers[i]));
      ghost var before := Model();
      var own: int := *;
      ghost var more := WriteAll(if own < 0 then 0 else own);
      SendsJoin(old(Model()), run, before, more, Model());
      run, before := run + more, Model();
      more := FreePending();
      SendsJoin(old(Model()), run, before, more, Model());
      run := run + more;
    }

    // ---- callbacks (h3_callbacks.c) ----

    /** h3_session_queue_free on the stream's handle, if it still has one. */
    method QueueHandle(i: nat)
      requires i < |streams|
      modifies this`streams, this`pendingFree
      ensures Model() == QueueFree(old(Model()), i)
    {
      if streams[i].qstream.Some? {
        pendingFree := pendingFree + [streams[i].qstream.value];
        streams := streams[i := streams[i].(qstream := None)];
      }
    }

    method OnStopSending(i: nat)
      requires i < |streams|
      modifies this`streams, this`pendingFree
      ensures Model() == StopSendingCb(old(Model()), i)
    {
      var st := CancelStream(streams[i]);
      streams := streams[i := st.(done := true, rx := st.rx.(bodyComplete := true))];
      QueueHandle(i);
    }

    /** nghttp3_conn_close_stream, which calls on_stream_close back. */
    method CloseStream(i: nat)
      requires i < |streams|
      modifies this`streams, this`pendingFree
      ensures Model() == OnCallback(old(Model()), i, StreamClosed)
    {
      if streams[i].tx.open {
        var st := streams[i].(tx := CloseTx(streams[i].tx));
        streams := streams[i := st];
        if st.rx.userData {
          streams := streams[i := CancelStream(st).(done := true)];
          assert Model() == Put(old(Model()), i, CancelStream(st).(done := true));
          QueueHandle(i);
        }
      }
    }

    /** One callback of nghttp3 for stream i. */
    method Deliver(i: nat, cb: Callback)
      requires i < |streams|
      modifies this`streams, this`pendingFree
      ensures Model() == OnCallback(old(Model()), i, cb)
    {
      match cb
      case StopSending =>
        if streams[i].rx.userData {
          OnStopSending(i);
        }
      case ResetStream =>
        if streams[i].rx.userData {
          streams := streams[i := CancelStream(streams[i]).(done := true)];
        }
      case StreamClosed =>
        CloseStream(i);
      case _ =>
        streams := streams[i := Receive(streams[i], cb)];
    }

    /** The callbacks nghttp3 makes during one read. */
    method DeliverAll(i: nat, cbs: seq<Callback>)
      requires i < |streams|
      modifies this`streams, this`pendingFree
      ensures Model() == OnCallbacks(old(Model()), i, cbs)
    {
      var k := 0;
      while k < |cbs|
        invariant 0 <= k <= |cbs| && i < |streams|
        invariant OnCallbacks(Model(), i, cbs[k..]) == OnCallbacks(old(Model()), i, cbs)
      {
        Deliver(i, cbs[k]);
        assert cbs[k..][1..] == cbs[k + 1..];
        k := k + 1;
      }
    }

    // ---- reading ----

    /** reject_malformed_stream */
    method RejectMalformed(i: nat)
      requires i < |streams|
      modifies this`streams, this`pendingFree, this`streamErrors, this`dead, this`excessive
      ensures Model() == SessionModel.Reject(old(Model()), i)
    {
      CloseStream(i);
      var st := streams[i];
      streams := streams[i := st.(done := true, rejected := true, rx := st.rx.(bodyComplete := true))];
      streamErrors := streamErrors + 1;
      if streamErrors > maxStreamErrors {
        excessive, dead := true, true;
      }
    }

    /** What drain_one_stream does once nghttp3 has read. */
    method Judge(i: nat, end: ReadEnd)
      requires i < |streams|
      modifies this`streams, this`pendingFree, this`streamErrors, this`dead, this`excessive
      ensures Model() == AfterRead(old(Model()), i, end)
    {
      if end == Malformed {
        RejectMalformed(i);
      } else if end == Fatal {
        dead := true;
        streams := streams[i := streams[i].(done := true)];
      } else if streams[i].rx.malformed && !streams[i].done {
        RejectMalformed(i);
      }
    }

    /** nghttp3_conn_read_stream on bytes read from stream i, and what follows. */
    method ReadBytes(i: nat) returns (fine: bool, ghost run: seq<Action>)
      requires Valid() && Drainable(Model(), i)
      modifies this`streams, this`pendingFree, this`streamErrors, this`dead, this`excessive
      ensures Steps(old(Model()), run, Model()) && Apart(old(Model()), Model(), i) && Reads(run) == 1
      ensures fine ==> Drainable(Model(), i)
    {
      var cbs: seq<Callback>, end: ReadEnd := *, *;
      if !Permitted(streams[i].rx, cbs, false) {
        cbs := [];
      }
      ghost var a := Receiving(ReadStream(i, cbs, end));
      ReadIsStep(Model(), i, cbs, end);
      DeliverAll(i, cbs);
      Judge(i, end);
      fine, run := end == Fine && !streams[i].done, [a];
    }

    /** feed_stream_fin */
    method FeedStreamFin(i: nat) returns (ghost run: seq<Action>)
      requires Valid() && Drainable(Model(), i)
      modifies this`streams, this`pendingFree, this`streamErrors, this`dead, this`excessive
      ensures Steps(old(Model()), run, Model()) && Apart(old(Model()), Model(), i) && Reads(run) == 0
      ensures streams[i].rx.bodyComplete
    {
      var cbs: seq<Callback>, end: ReadEnd := *, *;
      if !Permitted(streams[i].rx, cbs, true) {
        cbs := [];
      }
      run := [Receiving(FeedFin(i, cbs, end))];
      FinIsStep(Model(), i, cbs, end);
      DeliverAll(i, cbs);
      if end == Fatal {
        dead := true;
      } else {
        Judge(i, end);
      }
      streams := streams[i := streams[i].(rx := streams[i].rx.(bodyComplete := true, fin := true))];
    }

    /** Read stream i until it has nothing more, is done, or a budget is spent. */
    method ReadWhileBudget(i: nat, readBudget: nat, byteBudget: nat) 
      returns (readsLeft: nat, bytesLeft: nat, ghost got: nat, ghost run: seq<Action>)
      requires Valid() && Drainable(Model(), i)
      modifies this`streams, this`pendingFree, this`streamErrors, this`dead, this`excessive
      ensures Steps(old(Model()), run, Model()) && Apart(old(Model()), Model(), i)
      ensures Reads(run) == readBudget - readsLeft && got == byteBudget - bytesLeft
    {
      readsLeft, bytesLeft, got, run := readBudget, byteBudget, 0, [];
      while readsLeft > 0 && bytesLeft > 0
        invariant Drainable(Model(), i) && Apart(old(Model()), Model(), i) && Steps(old(Model()), run, Model())
        invariant Reads(run) == readBudget - readsLeft && got == byteBudget - bytesLeft
        decreases readsLeft
      {
        ghost var before := Model();
        ghost var more;
        var size := if bufferSize < bytesLeft then bufferSize else bytesLeft;
        var n: int, fin: bool := *, *;
        var nread := AtMost(n, size);
        if nread > 0 {
          readsLeft, bytesLeft, got := readsLeft - 1, bytesLeft - nread, got + nread;
          var fine;
          fine, more := ReadBytes(i);
          StepsJoin(old(Model()), run, before, more, Model());
          run := run + more;
          if !fine {
            break;
          }
        } else {
          if fin {
            more := FeedStreamFin(i);
            StepsJoin(old(Model()), run, before, more, Model());
            run := run + more;
          }
          break;
        }
      }
    }

    /** The peer's half is finished: feed the end of the stream, and close it if ours is finished too. */
    method FinishReading(i: nat, writeFinished: bool) returns (ghost run: seq<Action>)
      requires Valid() && Drainable(Model(), i)
      modifies this`streams, this`pendingFree, this`streamErrors, this`dead, this`excessive
      ensures Steps(old(Model()), run, Model()) && Apart(old(Model()), Model(), i) && Reads(run) == 0
    {
      run := [];
      if !streams[i].rx.bodyComplete {
        run := FeedStreamFin(i);
      }
      if streams[i].qstream.Some? && writeFinished {
        ghost var before := Model();
        CloseIsStep(before, i);
        CloseStream(i);
        StepsJoin(old(Model()), run, before, [Receiving(Notify(i, StreamClosed))], Model());
        run := run + [Receiving(Notify(i, StreamClosed))];
      }
    }

    /** drain_one_stream: both budgets are positive on entry, and neither can pass below zero. */
    method DrainOne(i: nat, readBudget: nat, byteBudget: nat)
      returns (ready: bool, readsLeft: nat, bytesLeft: nat, ghost got: nat, ghost run: seq<Action>)
      requires Valid() && Drainable(Model(), i) && 0 < readBudget && 0 < byteBudget
      modifies this`streams, this`pendingFree, this`streamErrors, this`dead, this`excessive
      ensures Steps(old(Model()), run, Model()) && Apart(old(Model()), Model(), i)
      ensures Reads(run) == readBudget - readsLeft && got == byteBudget - bytesLeft
      ensures ready == Ready(streams[i])
    {
      readsLeft, bytesLeft, got := readBudget, byteBudget, 0;
      var readFinished: bool, writeFinished: bool := *, *;
      if readFinished {
        run := FinishReading(i, writeFinished);
      } else {
        readsLeft, bytesLeft, got, run := ReadWhileBudget(i, readBudget, byteBudget);
      }
      ready := Ready(streams[i]);
    }

    /** The turn of stream i in a pass. */
    method Visit(i: nat, readBudget: nat, byteBudget: nat)
      returns (drained: bool, readsLeft: nat, bytesLeft: nat, ghost got: nat, ghost run: seq<Action>)
      requires Valid() && !dead && i < |streams| && streams[i].tracked && i !in completed
      requires 0 < readBudget && 0 < byteBudget
      modifies this`streams, this`pendingFree, this`streamErrors, this`dead, this`excessive, this`completed
      ensures Steps(old(Model()), run, Model()) && Visited(old(streams), streams, i)
      ensures Reads(run) == readBudget - readsLeft && got == byteBudget - bytesLeft
      ensures drained == Eligible(old(streams)[i])
      ensures drained && !dead && Ready(streams[i]) ==> completed == old(completed) + [i]
      ensures !(drained && !dead && Ready(streams[i])) ==> completed == old(completed)
      ensures !drained ==> run == [] && got == 0 && streams == old(streams)
    {
      readsLeft, bytesLeft, got, run := readBudget, byteBudget, 0, [];
      drained := Eligible(streams[i]);
      if drained {
        var ready;
        ready, readsLeft, bytesLeft, got, run := DrainOne(i, readBudget, byteBudget);
        if ready && !dead {
          CollectIsStep(Model(), i);
          StepsJoin(old(Model()), run, Model(), [Dispatching(Collect(i))], Model().(completed := completed + [i]));
          run := run + [Dispatching(Collect(i))];
          completed := completed + [i];
        }
      }
    }

    /** One turn of the drain loop, for the stream whose turn it is. */
    method TakeTurn(readBudget: nat, byteBudget: nat, i: nat, ghost s: State, ghost run: seq<Action>,
                    ghost turns: seq<nat>, ghost offset: nat, ghost drained: seq<nat>)
      returns (read: bool, readsLeft: nat, bytesLeft: nat, ghost got: nat, ghost run': seq<Action>,
               ghost drained': seq<nat>)
      requires Steps(s, run, Model()) && !dead && 0 < readBudget && 0 < byteBudget
      requires Drained(s.streams, streams, turns, offset, drained) && Collected(streams, drained, completed)
      requires Distinct(turns) && offset < |turns| && i == turns[offset] && streams[i].tracked
      modifies this`streams, this`pendingFree, this`streamErrors, this`dead, this`excessive, this`completed
      ensures Steps(s, run', Model())
      ensures Reads(run') == Reads(run) + readBudget - readsLeft && got == byteBudget - bytesLeft
      ensures !read ==> readsLeft == readBudget && bytesLeft == byteBudget
      ensures Drained(s.streams, streams, turns, offset + 1, drained')
      ensures !dead ==> Collected(streams, drained', completed)
    {
      NotYet(s.streams, streams, turns, offset, drained);
      ghost var before, more := Model(), [];
      read, readsLeft, bytesLeft, got, more := Visit(i, readBudget, byteBudget);
      StepsJoin(s, run, before, more, Model());
      run' := run + more;
      DrainedNext(s.streams, before.streams, streams, turns, offset, drained);
      drained' := drained;
      if read {
        CollectedNext(before.streams, streams, i, drained, before.completed);
        drained' := drained + [i];
      }
    }

    /**
     The drain loop of drain_ready_streams: `visited` streams had their turn, and `drained`
     lists those that were read.
     */
    method DrainPass(order: seq<nat>)
      returns (ghost visited: nat, ghost drained: seq<nat>, ghost got: nat, ghost run: seq<Action>)
      requires Valid() && Iterates(order, streams) && completed == []
      modifies this`streams, this`pendingFree, this`streamErrors, this`dead, this`excessive, this`completed,
               this`drainCursor
      ensures Steps(old(Model()), run, Model())
      ensures Reads(run) <= DRAIN_READ_BUDGET && got <= DRAIN_BYTE_BUDGET
      ensures Drained(old(streams), streams, Rotated(order, old(drainCursor)), visited, drained)
      ensures !dead && order != [] ==> PassOf(|order|, old(drainCursor), drainCursor, visited)
      ensures !dead ==> Collected(streams, drained, completed)
    {
      var readsLeft, bytesLeft := DRAIN_READ_BUDGET, DRAIN_BYTE_BUDGET;
      var n, offset, spent := |order|, 0, false;
      visited, drained, got, run := 0, [], 0, [];
      ghost var turns := Rotated(order, drainCursor);
      RotatedDistinct(order, drainCursor);
      while offset < n && !dead && !spent
        invariant drainCursor == old(drainCursor)
        invariant 0 <= offset <= n && (spent ==> 0 < offset) && (!spent ==> 0 < readsLeft && 0 < bytesLeft)
        invariant Steps(old(Model()), run, Model())
        invariant Reads(run) == DRAIN_READ_BUDGET - readsLeft && got == DRAIN_BYTE_BUDGET - bytesLeft
        invariant Drained(old(streams), streams, turns, offset, drained)
        invariant !dead ==> Collected(streams, drained, completed)
      {
        var i := order[Turn(drainCursor, n, offset)];
        assert i == turns[offset] && old(streams)[i].tracked;
        var read;
        ghost var bytes;
        read, readsLeft, bytesLeft, bytes, run, drained :=
          TakeTurn(readsLeft, bytesLeft, i, old(Model()), run, turns, offset, drained);
        got := got + bytes;
        offset := offset + 1;
        spent := read && (readsLeft == 0 || bytesLeft == 0);
      }
      visited := offset;
      if spent {
        drainCursor := Behind(drainCursor, n, offset);
      }
    }

    /** Take a finished stream out of the hash and free its queue. */
    method ReclaimStream(i: nat) returns (ghost run: seq<Action>)
      requires Valid() && i < |streams| && streams[i].tracked && Finished(streams[i])
      modifies this`streams, this`blockedStreams
      ensures Steps(old(Model()), run, Model()) && Reads(run) == 0
      ensures |streams| == |old(streams)| && streams == old(streams)[i := streams[i]] && !streams[i].tracked
    {
      ReclaimIsStep(Model(), i);
      run := [Ending(Reclaim(i))];
      var st := streams[i];
      if st.tx.writeBlocked {
        blockedStreams := blockedStreams - 1;
      }
      streams := streams[i := st.(tracked := false, tx := CleanTx(st.tx))];
    }

    /** The last loop of drain_ready_streams: exactly the finished streams leave the hash. */
    method ReclaimFinished(order: seq<nat>) returns (ghost run: seq<Action>)
      requires Valid() && Iterates(order, streams)
      modifies this`streams, this`blockedStreams
      ensures Steps(old(Model()), run, Model()) && Reads(run) == 0
      ensures |streams| == |old(streams)| && NoneFinished(streams)
      ensures forall i | 0 <= i < |streams| :: Finished(old(streams)[i]) || streams[i] == old(streams)[i]
    {
      run := [];
      for k := 0 to |order|
        invariant Steps(old(Model()), run, Model()) && Reads(run) == 0
        invariant Reclaimed(old(streams), streams, order, k)
      {
        ghost var before := Model();
        if Finished(streams[order[k]]) {
          ghost var more := ReclaimStream(order[k]);
          StepsJoin(old(Model()), run, before, more, Model());
          run := run + more;
        }
        ReclaimedNext(old(streams), before.streams, streams, order, k);
      }
      ReclaimedAll(old(streams), streams, order);
    }

    /**
     drain_ready_streams.  Besides what `DrainPass` says of the pass, no stream whose work is
     over is left in the hash.
     */
    method DrainReady(order: seq<nat>)
      returns (ghost visited: nat, ghost drained: seq<nat>, ghost after: seq<Stream>, ghost got: nat,
               ghost run: seq<Action>)
      requires Valid() && Iterates(order, streams)
      modifies this`streams, this`pendingFree, this`streamErrors, this`dead, this`excessive, this`completed
      modifies this`drainCursor, this`blockedStreams
      ensures Steps(old(Model()), run, Model()) && |streams| == |old(streams)|
      ensures Reads(run) <= DRAIN_READ_BUDGET && got <= DRAIN_BYTE_BUDGET && NoneFinished(streams)
      ensures !dead && order != [] ==>
                PassLog(order, old(streams), after, old(drainCursor), drainCursor, visited, drained)
    {
      NewPassIsStep(Model());
      ghost var before := Model().(completed := []);
      run := [Dispatching(NewPass)];
      completed := [];
      ghost var more;
      visited, drained, got, more := DrainPass(order);
      StepsJoin(old(Model()), run, before, more, Model());
      StillIterates(order, old(streams), streams);
      after := streams;
      run, before := run + more, Model();
      more := ReclaimFinished(order);
      StepsJoin(old(Model()), run, before, more, Model());
      run := run + more;
    }

    // ---- dispatching, with workers taking steps in between ----

    /** Some worker takes a step, if it can. */
    method WorkerTurn() returns (ghost run: seq<Action>)
      requires Reachable(Model())
      modifies this`streams, this`tasks, this`activeTasks
      ensures Goes(old(Model()), run, Model()) && TakesNothing(run)
      ensures old(activeTasks) == 0 && event == Idle ==> Model() == old(Model())
    {
      run := [];
      var w: WorkerStep := *;
      if WorkerEnabled(Model(), w) {
        NoTaskNoStep(Model(), w);
        GoesOne(Model(), Worker(w));
        WorkerFrame(Model(), w);
        run := [Worker(w)];
        var s := WorkerApply(Model(), w);
        streams, tasks, activeTasks := s.streams, s.tasks, s.activeTasks;
      }
    }

    /** The request workers take any steps they can. */
    method Workers() returns (ghost run: seq<Action>)
      requires Reachable(Model())
      modifies this`streams, this`tasks, this`activeTasks
      ensures Goes(old(Model()), run, Model()) && TakesNothing(run)
      ensures old(activeTasks) == 0 && event == Idle ==> Model() == old(Model())
    {
      run := [];
      var n: int := *;
      while n > 0
        invariant Goes(old(Model()), run, Model()) && TakesNothing(run)
        invariant old(activeTasks) == 0 && event == Idle ==> Model() == old(Model())
        decreases n
      {
        ghost var before := Model();
        ghost var more := WorkerTurn();
        GoesJoin(old(Model()), run, before, more, Model());
        run := run + more;
        n := n - 1;
      }
    }

    /** Reserve the next collected stream, unless a task has it already. */
    method ReserveNext() returns (ghost run: seq<Action>)
      requires Valid() && !dead && completed != []
      modifies this`streams, this`completed, this`event
      ensures Goes(old(Model()), run, Model()) && completed == old(completed)[1..] && (event.Idle? || event.Reserved?)
    {
      CompletedExist(Model());
      GoesOne(Model(), Dispatching(Reserve));
      run := [Dispatching(Reserve)];
      var i := completed[0];
      completed := completed[1..];
      if !streams[i].dispatched {
        streams := streams[i := streams[i].(dispatched := true)];
        event := Reserved(i);
      }
    }

    /** Give the reserved stream back, before or after the task was counted. */
    method Unreserve() returns (ghost run: seq<Action>)
      requires Reachable(Model()) && !destroyed && (event.Reserved? || event.Counted?)
      modifies this`streams, this`event
      ensures Goes(old(Model()), run, Model()) && event == if old(event).Reserved? then Idle else Uncounting
    {
      HeldExists(Model());
      var i, a := event.stream, if event.Reserved? then ReserveFails else PushFails;
      GoesOne(Model(), Dispatching(a));
      run := [Dispatching(a)];
      streams := streams[i := streams[i].(dispatched := false)];
      event := if event.Reserved? then Idle else Uncounting;
    }

    method CountTask() returns (ghost run: seq<Action>)
      requires Reachable(Model()) && !destroyed && event.Reserved?
      modifies this`activeTasks, this`event
      ensures Goes(old(Model()), run, Model()) && event.Counted?
    {
      GoesOne(Model(), Dispatching(Count));
      run := [Dispatching(Count)];
      activeTasks := activeTasks + 1;
      event := Counted(event.stream);
    }

    method StartTask() returns (ghost run: seq<Action>)
      requires Reachable(Model()) && !destroyed && event.Counted?
      modifies this`tasks, this`event
      ensures Goes(old(Model()), run, Model()) && event == Idle
    {
      GoesOne(Model(), Dispatching(PushTask));
      run := [Dispatching(PushTask)];
      tasks := tasks + [Task(event.stream, Starting)];
      event := Idle;
    }

    method UncountTask() returns (ghost run: seq<Action>)
      requires Reachable(Model()) && !destroyed && event.Uncounting?
      modifies this`activeTasks, this`event
      ensures Goes(old(Model()), run, Model()) && event == Idle
    {
      GoesOne(Model(), Dispatching(Uncount));
      run := [Dispatching(Uncount)];
      activeTasks := activeTasks - 1;
      event := Idle;
    }

    /** The workers run on while the event thread is between two steps. */
    method Meanwhile(ghost s: State, ghost run: seq<Action>) returns (ghost run': seq<Action>)
      requires Goes(s, run, Model())
      modifies this`streams, this`tasks, this`activeTasks
      ensures Goes(s, run', Model()) && (TakesNothing(run) ==> TakesNothing(run'))
      ensures old(activeTasks) == 0 && event == Idle ==> Model() == old(Model())
    {
      ghost var before := Model();
      ghost var more := Workers();
      GoesJoin(s, run, before, more, Model());
      run' := run + more;
    }

    /** The counted task is pushed to the workers, or taken back when that fails. */
    method HandOver() returns (ghost run: seq<Action>)
      requires Reachable(Model()) && !destroyed && event.Counted?
      modifies this`streams, this`event, this`tasks, this`activeTasks
      ensures Goes(old(Model()), run, Model()) && event == Idle
    {
      var pushFails: bool := *;
      if !pushFails {
        run := StartTask();
        return;
      }
      run := Unreserve();
      run := Meanwhile(old(Model()), run);
      ghost var before := Model();
      ghost var more := UncountTask();
      GoesJoin(old(Model()), run, before, more, Model());
      run := run + more;
    }

    /** h3_process_request for the next collected stream, on every path through it. */
    method ProcessRequest() returns (ghost run: seq<Action>)
      requires Valid() && !dead && completed != []
      modifies this`streams, this`completed, this`event, this`tasks, this`activeTasks
      ensures Goes(old(Model()), run, Model()) && event == Idle && completed == old(completed)[1..]
    {
      var poolFails: bool := *;
      run := ReserveNext();
      if event.Idle? {
        return;
      }
      run := Meanwhile(old(Model()), run);
      ghost var before, more := Model(), [];
      if poolFails {
        more := Unreserve();
        GoesJoin(old(Model()), run, before, more, Model());
        run := run + more;
        return;
      }
      more := CountTask();
      GoesJoin(old(Model()), run, before, more, Model());
      run := Meanwhile(old(Model()), run + more);
      before := Model();
      more := HandOver();
      GoesJoin(old(Model()), run, before, more, Model());
      run := run + more;
    }

    /** Every collected request is processed. */
    method ProcessCompleted() returns (ghost run: seq<Action>)
      requires Valid() && !dead
      modifies this`streams, this`completed, this`event, this`tasks, this`activeTasks
      ensures Goes(old(Model()), run, Model()) && event == Idle && completed == []
    {
      run := [];
      while completed != []
        invariant Goes(old(Model()), run, Model()) && event == Idle
        decreases |completed|
      {
        ghost var before := Model();
        ghost var more := ProcessRequest();
        GoesJoin(old(Model()), run, before, more, Model());
        run := run + more;
      }
    }

    // ---- the service pass (h3_io.c) ----

    /** Whichever order the hash iterates in, these are the tracked streams. */
    method Snapshot() returns (order: seq<nat>)
      ensures Iterates(order, streams)
    {
      order := [];
      for i := 0 to |streams|
        invariant Lists(order, streams, i)
      {
        ListsMore(order, streams, i);
        if streams[i].tracked {
          order := order + [i];
        }
      }
    }

    /** One stream the transport hands over: tracked, or freed at once. */
    method AcceptStream(id: int, fails: bool) returns (ghost run: seq<Action>)
      requires Valid()
      modifies this`streams, this`freed, this`handles
      ensures Goes(old(Model()), run, Model())
    {
      run := [];
      if id < 0 || fails {
        GoesOne(Model(), Receiving(Refuse));
        run := [Receiving(Refuse)];
        freed := freed + [handles];
        handles := handles + 1;
      } else if forall i | 0 <= i < |streams| :: streams[i].id != id {
        GoesOne(Model(), Receiving(Track(id)));
        run := [Receiving(Track(id))];
        streams := streams + [NewStream(id, handles, bufferSize)];
        handles := handles + 1;
      }
    }

    /** Take in the streams the peer has opened; workers may run between any two. */
    method AcceptStreams() returns (ghost run: seq<Action>)
      requires Valid()
      modifies this`streams, this`freed, this`handles, this`tasks, this`activeTasks
      ensures Goes(old(Model()), run, Model())
    {
      run := [];
      var n: int := *;
      while n > 0
        invariant Goes(old(Model()), run, Model())
        decreases n
      {
        var id: int, fails: bool := *, *;
        ghost var before := Model();
        ghost var more := AcceptStream(id, fails);
        GoesJoin(old(Model()), run, before, more, Model());
        run := Meanwhile(old(Model()), run + more);
        n := n - 1;
      }
    }

    /** The turn of stream i: its response is cancelled if its queue is full and made no progress. */
    method AbandonIfStalled(i: nat) returns (ghost run: seq<Action>)
      requires Valid() && i < |streams|
      modifies this`streams
      ensures Goes(old(Model()), run, Model()) && TakesNothing(run)
      ensures |streams| == |old(streams)| && streams == old(streams)[i := streams[i]]
      ensures streams[i] == old(streams)[i] || Abandoned(old(streams)[i], streams[i])
    {
      run := [];
      var stalled: bool := *;
      var q := streams[i].tx.q;
      QueueIsValid(Model(), i);
      if streams[i].tracked && !q.cancelled && !q.complete && Buffered(q) >= q.limit && stalled {
        run := [Ending(Abandon(i))];
        GoesOne(Model(), Ending(Abandon(i)));
        streams := streams[i := streams[i].(tx := CancelTx(streams[i].tx))];
      }
    }

    /** abandon_stalled_responses: full queues that made no progress are cancelled. */
    method AbandonStalled() returns (ghost run: seq<Action>)
      requires Valid()
      modifies this`streams
      ensures Goes(old(Model()), run, Model()) && TakesNothing(run) && |streams| == |old(streams)|
      ensures forall i | 0 <= i < |streams| :: streams[i] == old(streams)[i] || Abandoned(old(streams)[i], streams[i])
    {
      run := [];
      var n := |streams|;
      for i := 0 to n
        invariant |streams| == n && Goes(old(Model()), run, Model()) && TakesNothing(run)
        invariant forall k | 0 <= k < i :: streams[k] == old(streams)[k] || Abandoned(old(streams)[k], streams[k])
        invariant forall k | i <= k < n :: streams[k] == old(streams)[k]
      {
        ghost var before := Model();
        ghost var more := AbandonIfStalled(i);
        GoesJoin(old(Model()), run, before, more, Model());
        run := run + more;
      }
    }

    /** The session is to be closed. */
    method MarkAborted() returns (ghost run: seq<Action>)
      requires Valid()
      modifies this`aborted
      ensures Goes(old(Model()), run, Model()) && aborted && TakesNothing(run)
    {
      GoesOne(Model(), Ending(Abort));
      run := [Ending(Abort)];
      aborted := true;
    }

    /** Queue a GOAWAY frame and flush it. */
    method SendGoaway(queue: bool) returns (ghost run: seq<Action>)
      requires Valid()
      modifies this`streams, this`blockedStreams, this`dead, this`pendingFree, this`freed
      ensures Goes(old(Model()), run, Model()) && TakesNothing(run)
    {
      run := [];
      if queue {
        run := OwnFrame();
      }
      ghost var before := Model();
      ghost var more := Flush();
      GoesJoin(old(Model()), run, before, more, Model());
      run := run + more;
    }

    /** The lock is free for a while, and then the session is to be closed. */
    method AbortAfter(ghost s: State, ghost run: seq<Action>) returns (ghost run': seq<Action>)
      requires Goes(s, run, Model()) && Valid()
      modifies this`streams, this`tasks, this`activeTasks, this`aborted
      ensures Goes(s, run', Model()) && aborted && (TakesNothing(run) ==> TakesNothing(run'))
    {
      run' := Meanwhile(s, run);
      ghost var before := Model();
      ghost var more := MarkAborted();
      GoesJoin(s, run', before, more, Model());
      run' := run' + more;
    }

    /** nghttp3_conn_shutdown, a last flush, and the session is over. */
    method CloseDown() returns (ghost run: seq<Action>)
      requires Valid() && calls == [Notice]
      modifies this`streams, this`blockedStreams, this`dead, this`pendingFree, this`freed, this`aborted, this`calls
      modifies this`tasks, this`activeTasks
      ensures Goes(old(Model()), run, Model()) && TakesNothing(run) && aborted && calls == [Notice, Final]
    {
      calls := calls + [Final];
      run := SendGoaway(true);
      run := AbortAfter(old(Model()), run);
    }

    /** The shutdown notice, once, and the deadline, once the server stops. */
    method Announce(running: bool, now: nat) returns (ghost run: seq<Action>)
      requires Valid() && !aborted && ShutdownOk(calls, goawaySent, aborted)
      modifies this`streams, this`blockedStreams, this`dead, this`pendingFree, this`freed
      modifies this`goawaySent, this`goawayDeadline, this`calls
      ensures Goes(old(Model()), run, Model()) && TakesNothing(run) && goawaySent && calls == [Notice]
      ensures goawayDeadline == if !running && old(goawayDeadline) == 0 then now + GOAWAY_GRACE else old(goawayDeadline)
    {
      run := SendGoaway(!goawaySent);
      if !goawaySent {
        calls := calls + [Notice];
        goawaySent := true;
      }
      if !running && goawayDeadline == 0 {
        goawayDeadline := now + GOAWAY_GRACE;
      }
    }

    /**
     The part of service_session_pass for a server that is draining or stopping.  Time only
     matters through the deadline.
     */
    method Shutdown(running: bool, now: nat, later: nat) returns (ghost run: seq<Action>)
      requires Valid() && !aborted && ShutdownOk(calls, goawaySent, aborted)
      modifies this`streams, this`blockedStreams, this`dead, this`pendingFree, this`freed
      modifies this`goawaySent, this`goawayDeadline, this`calls, this`aborted, this`tasks, this`activeTasks
      ensures Goes(old(Model()), run, Model()) && TakesNothing(run)
      ensures goawaySent && calls == if aborted then [Notice, Final] else [Notice]
      ensures goawayDeadline == if !running && old(goawayDeadline) == 0 then now + GOAWAY_GRACE else old(goawayDeadline)
      ensures goawayDeadline != 0 && later >= goawayDeadline ==> aborted
    {
      run := Announce(running, now);
      var drained: bool := *;
      run := Meanwhile(old(Model()), run);
      if drained || (goawayDeadline != 0 && later >= goawayDeadline) {
        ghost var before := Model();
        ghost var more := CloseDown();
        GoesJoin(old(Model()), run, before, more, Model());
        run := run + more;
      }
    }

    /** Under one lock: drain what is ready to read, then flush. */
    method DrainAndFlush() returns (ghost run: seq<Action>)
      requires Valid()
      modifies this`streams, this`pendingFree, this`streamErrors, this`dead, this`excessive, this`completed
      modifies this`drainCursor, this`blockedStreams, this`freed
      ensures Goes(old(Model()), run, Model()) && (!dead ==> Quiet(streams))
    {
      var order := Snapshot();
      ghost var visited, drained, after, got;
      visited, drained, after, got, run := DrainReady(order);
      ghost var before := Model();
      ghost var more := Flush();
      GoesJoin(old(Model()), run, before, more, Model());
      run := run + more;
    }

    /** The end of a pass: flush what the workers queued, give up on stalled responses, close an idle session. */
    method EndPass(running: bool) returns (ghost run: seq<Action>)
      requires Valid()
      modifies this`streams, this`blockedStreams, this`dead, this`pendingFree, this`freed, this`aborted
      modifies this`tasks, this`activeTasks
      ensures Goes(old(Model()), run, Model()) && (old(aborted) ==> aborted)
    {
      run := Flush();
      ghost var before := Model();
      ghost var more := AbandonStalled();
      GoesJoin(old(Model()), run, before, more, Model());
      run := Meanwhile(old(Model()), run + more);
      before := Model();
      var idle: bool := *;
      if idle && running && activeTasks == 0 {
        more := MarkAborted();
        GoesJoin(old(Model()), run, before, more, Model());
        run := run + more;
      }
    }

    /** Take in new streams, then read and write what is ready. */
    method TakeIn() returns (ghost run: seq<Action>)
      requires Valid()
      modifies this`streams, this`pendingFree, this`streamErrors, this`dead, this`excessive, this`completed
      modifies this`drainCursor, this`blockedStreams, this`freed, this`handles, this`tasks, this`activeTasks
      ensures Goes(old(Model()), run, Model()) && (excessive ==> dead)
    {
      run := AcceptStreams();
      ghost var before := Model();
      ghost var more := DrainAndFlush();
      GoesJoin(old(Model()), run, before, more, Model());
      run := Meanwhile(old(Model()), run + more);
      ExcessiveIsDead(Model());
    }

    /** Hand the collected requests to workers, then end the pass. */
    method Respond(running: bool) returns (ghost run: seq<Action>)
      requires Valid() && !dead
      modifies this`streams, this`completed, this`event, this`tasks, this`activeTasks
      modifies this`blockedStreams, this`dead, this`pendingFree, this`freed, this`aborted
      ensures Goes(old(Model()), run, Model()) && event == Idle
    {
      run := ProcessCompleted();
      run := Meanwhile(old(Model()), run);
      ghost var before := Model();
      ghost var more := EndPass(running);
      GoesJoin(old(Model()), run, before, more, Model());
      run := run + more;
    }

    /** The serving part of a pass, after the shutdown part. */
    method Serve(running: bool) returns (ghost run: seq<Action>)
      requires Valid() && !aborted
      modifies this`streams, this`pendingFree, this`streamErrors, this`dead, this`excessive, this`completed
      modifies this`drainCursor, this`blockedStreams, this`freed, this`aborted, this`handles, this`tasks
      modifies this`activeTasks, this`event
      ensures Goes(old(Model()), run, Model()) && event == Idle
      ensures excessive && !old(excessive) ==> aborted
    {
      var closed: bool, scratchFails: bool := *, *;
      run := Workers();
      ghost var before, more := Model(), [];
      if closed {
        more := MarkAborted();
        GoesJoin(old(Model()), run, before, more, Model());
        return run + more;
      }
      if scratchFails {
        return;
      }
      more := TakeIn();
      GoesJoin(old(Model()), run, before, more, Model());
      run, before := run + more, Model();
      if dead {
        more := MarkAborted();
      } else {
        more := Respond(running);
      }
      GoesJoin(old(Model()), run, before, more, Model());
      run := run + more;
    }

    /**
     service_session_pass, with workers taking steps wherever the lock is free.  The shutdown
     calls are made once each and in order; a session that has made the last one takes in
     nothing more, and once the server has stopped it makes it when the deadline has passed.
     */
    method ServicePass(draining: bool, running: bool, now: nat, later: nat) returns (ghost run: seq<Action>)
      requires Valid() && ShutdownOk(calls, goawaySent, aborted) && now <= later
      modifies this
      ensures Goes(old(Model()), run, Model()) && Valid() && ShutdownOk(calls, goawaySent, aborted)
      ensures old(aborted) ==> run == [] && aborted
      ensures Final in calls ==> TakesNothing(run)
      ensures excessive && !old(excessive) ==> aborted
      ensures !draining && running ==> calls == old(calls)
      ensures !old(aborted) && (draining || !running) ==> goawaySent
      ensures !old(aborted) && !running && old(goawayDeadline) != 0 && later >= old(goawayDeadline) ==> Final in calls
    {
      run := [];
      if aborted {
        return;
      }
      ghost var before := Model();
      if draining || !running {
        run := Shutdown(running, now, later);
        if aborted {
          return;
        }
        before := Model();
      }
      ghost var more := Serve(running);
      GoesJoin(old(Model()), run, before, more, Model());
      run := run + more;
    }

    // ---- the end of the session (h3_session.c) ----

    /** nghttp3_conn_del: nghttp3 forgets every stream, and with it every vector into a queue. */
    method CloseAll()
      modifies this`streams
      ensures |streams| == |old(streams)|
      ensures forall k | 0 <= k < |streams| :: streams[k] == old(streams)[k].(tx := CloseTx(old(streams)[k].tx))
    {
      var n := |streams|;
      for i := 0 to n
        invariant |streams| == n
        invariant forall k | 0 <= k < i :: streams[k] == old(streams)[k].(tx := CloseTx(old(streams)[k].tx))
        invariant forall k | i <= k < n :: streams[k] == old(streams)[k]
      {
        streams := streams[i := streams[i].(tx := CloseTx(streams[i].tx))];
      }
    }

    /** The queue of every stream still in the hash is cancelled and freed. */
    method ReleaseQueues()
      modifies this`streams
      ensures |streams| == |old(streams)| && forall k | 0 <= k < |streams| :: streams[k] == Released(old(streams)[k])
    {
      var n := |streams|;
      for i := 0 to n
        invariant |streams| == n
        invariant forall k | 0 <= k < i :: streams[k] == Released(old(streams)[k])
        invariant forall k | i <= k < n :: streams[k] == old(streams)[k]
      {
        if streams[i].tracked {
          var t := streams[i].tx;
          streams := streams[i := streams[i].(tx := t.(q := Cleanup(Cancel(t.q)), clean := true))];
        }
      }
    }

    /** The handles queued to be freed are, last first. */
    method FreeQueued()
      modifies this`pendingFree, this`freed
      ensures pendingFree == [] && freed == old(freed) + Reversed(old(pendingFree))
    {
      while |pendingFree| > 0
        invariant freed + Reversed(pendingFree) == old(freed) + Reversed(old(pendingFree))
      {
        ReversedLast(freed, pendingFree);
        var last := |pendingFree| - 1;
        freed, pendingFree := freed + [pendingFree[last]], pendingFree[..last];
      }
      assert freed + Reversed(pendingFree) == freed;
    }

    /** h3_session_destroy: allowed once the session is aborted and no task is counted. */
    method Destroy() returns (ghost run: seq<Action>)
      requires Valid() && aborted && activeTasks == 0
      modifies this`streams, this`pendingFree, this`freed, this`destroyed
      ensures Goes(old(Model()), run, Model()) && destroyed && pendingFree == []
    {
      CloseAll();
      ReleaseQueues();
      ReleasedIsEnded(old(streams), streams);
      FreeQueued();
      destroyed := true;
      DestroyIsStep(old(Model()), Model());
      run := [Ending(SessionModel.Destroy)];
    }

    /**
     What the event loop does with one session in a turn (h3_threads.c): service it, and destroy
     it once it is aborted, its connection is shut down and no task is counted.  No task is
     left when it is destroyed, so none can touch it any more.
     */
    method ServiceTurn(draining: bool, running: bool, now: nat, later: nat) returns (gone: bool, ghost run: seq<Action>)
      requires Valid() && ShutdownOk(calls, goawaySent, aborted) && now <= later
      modifies this
      ensures Goes(old(Model()), run, Model()) && gone == destroyed
      ensures !gone ==> Valid() && ShutdownOk(calls, goawaySent, aborted)
      ensures gone ==> aborted && pendingFree == [] && forall t | 0 <= t < |tasks| :: tasks[t].pc == Gone
    {
      run := ServicePass(draining, running, now, later);
      var shutdownDone: bool := *;
      gone := false;
      if aborted {
        run := Meanwhile(old(Model()), run);
        if shutdownDone && activeTasks == 0 {
          run := Meanwhile(old(Model()), run);
          ghost var before := Model();
          ghost var more := Destroy();
          GoesJoin(old(Model()), run, before, more, Model());
          run := run + more;
          gone := true;
          NoTaskLeft(Model());
        }
      }
    }

    /**
     As many drain passes as there are tracked streams, with workers running in between.  If the
     session lives and the hash yields the same streams in the same order each time, every
     stream that is eligible at the start of each pass is drained in one of them.
     */
    method DrainRounds(order: seq<nat>)
      returns (whole: bool, last: seq<nat>, ghost starts: seq<seq<Stream>>, ghost drained: seq<seq<nat>>,
               ghost run: seq<Action>)
      requires Valid() && Iterates(order, streams) && order != []
      modifies this`streams, this`pendingFree, this`streamErrors, this`dead, this`excessive, this`completed
      modifies this`drainCursor, this`blockedStreams, this`tasks, this`activeTasks
      ensures Goes(old(Model()), run, Model())
      ensures !whole ==> dead || (Iterates(last, streams) && last != order)
      ensures whole ==> |starts| == |drained| == |order|
      ensures whole ==> forall p | 0 <= p < |order| && AlwaysEligible(starts, order[p]) :: DrainedOnce(drained, order[p])
    {
      last, starts, drained, run := order, [], [], [];
      ghost var afters, cursors, visits := [], [drainCursor], [];
      var n := |order|;
      for m := 0 to n
        invariant Goes(old(Model()), run, Model()) && event == Idle && Iterates(order, streams)
        invariant PassLogs(order, starts, afters, cursors, visits, drained)
        invariant |starts| == m && cursors[m] == drainCursor
      {
        ghost var before := Model();
        ghost var start, cursor := streams, drainCursor;
        ghost var visited, some, after, got, more;
        visited, some, after, got, more := DrainReady(order);
        GoesJoin(old(Model()), run, before, more, Model());
        run := Meanwhile(old(Model()), run + more);
        last := Snapshot();
        if dead || last != order {
          return false, last, starts, drained, run;
        }
        PassLogsMore(order, starts, afters, cursors, visits, drained, start, after, drainCursor, visited, some);
        starts, afters, drained := starts + [start], afters + [after], drained + [some];
        cursors, visits := cursors + [drainCursor], visits + [visited];
      }
      AllDrained(order, starts, afters, cursors, visits, drained);
      whole := true;
    }
  }
}
