/**
 What the record of a session says beyond the invariant: which queues no producer has touched,
 what EOF was reported of, where every handle is, and that a dead session dispatches nothing.
 */
module SessionRecords {
  import opened Bytes
  import opened SendQueue
  import opened OutQueue
  import opened Transmit
  import opened SessionModel
  import opened SessionInvariant

  /** A queue no producer has touched; only a cancellation can have completed it. */
  predicate Blank(q: Queue)
  {
    q.chunks == [] && !q.submitted && (q.complete ==> q.cancelled)
  }

  /** EOF is reported of completed queues only, and cancelling completes. */
  predicate Recorded(t: Tx)
  {
    (t.q.cancelled ==> t.q.complete) && (t.eof ==> t.q.complete)
  }

  /** Nothing was queued after the reader reported EOF. */
  predicate Sealed(t: Tx)
  {
    t.eof ==> t.eofAt == Start(t.q.chunks, |t.q.chunks|)
  }

  /** The producer's side of a queue is as it was, except that it may have been cancelled. */
  predicate QueueLeft(a: Queue, b: Queue)
  {
    && b.chunks == a.chunks && b.submitted == a.submitted && b.limit == a.limit
    && (a.cancelled ==> b.cancelled) && (a.complete ==> b.complete) && (b.complete ==> a.complete || b.cancelled)
  }

  predicate TxLeft(a: Tx, b: Tx)
  {
    QueueLeft(a.q, b.q) && (Recorded(a) ==> Recorded(b)) && (Sealed(a) ==> Sealed(b))
  }

  /** What no other thread changes about the stream a task is at work on. */
  predicate LeftAlone(a: Stream, b: Stream)
  {
    && b.id == a.id && b.tracked == a.tracked && b.dispatched == a.dispatched && b.workerDone == a.workerDone
    && TxLeft(a.tx, b.tx)
  }

  predicate AllLeftAlone(s: State, r: State)
  {
    |s.streams| <= |r.streams| && forall i | 0 <= i < |s.streams| :: LeftAlone(s.streams[i], r.streams[i])
  }

  lemma PutLeaves(s: State, i: nat, st: Stream)
    requires i < |s.streams| && LeftAlone(s.streams[i], st)
    ensures AllLeftAlone(s, Put(s, i, st))
  {
  }

  lemma PutTxLeaves(s: State, i: nat, tx: Tx)
    requires i < |s.streams| && TxLeft(s.streams[i].tx, tx)
    ensures AllLeftAlone(s, PutTx(s, i, tx))
  {
    PutLeaves(s, i, s.streams[i].(tx := tx));
  }

  lemma LeavesJoin(s: State, m: State, r: State)
    requires AllLeftAlone(s, m) && AllLeftAlone(m, r)
    ensures AllLeftAlone(s, r)
  {
    forall i | 0 <= i < |s.streams|
      ensures LeftAlone(s.streams[i], r.streams[i])
    {
      assert LeftAlone(s.streams[i], m.streams[i]) && LeftAlone(m.streams[i], r.streams[i]);
    }
  }

  // ---- sending leaves every producer's side alone ----

  lemma PullingLeaves(s: State, a: SendStep)
    requires Inv(s) && SendingEnabled(s, a)
    requires a.NgFrame? || a.PullData? || a.PullEof? || a.PullStall? || a.Unblock?
    ensures AllLeftAlone(s, SendingApply(s, a))
  {
    var t := s.streams[a.i].tx;
    match a
    case NgFrame(i, n) => PutTxLeaves(s, i, FrameTx(t, n));
    case PullData(i, veccnt, header) =>
      assert StreamOk(s, s.streams[i]);
      ReadKeeps(t.q, veccnt);
      PutTxLeaves(s, i, TakeTx(t, veccnt, header));
    case PullEof(i) => PutTxLeaves(s, i, EofTx(t));
    case PullStall(i) => PutTxLeaves(s, i, StallTx(t));
    case Unblock(i) => PutTxLeaves(s, i, UnblockTx(t));
  }

  /** However a write ends, it leaves `r`: only the ack counters of the queue have moved. */
  lemma OffsetLeaves(t: Tx, n: nat, r: Tx)
    requires TxOk(t) && t.open && n <= Total(t.out) && r.q == Advance(t, n).q && r.eof == t.eof && r.eofAt == t.eofAt
    ensures TxLeft(t, r)
  {
    AdvanceFrame(t, n);
  }

  lemma WentLeaves(t: Tx, count: nat)
    requires TxOk(t) && t.open && count <= |t.out|
    ensures TxLeft(t, WentTx(t, count)) && TxLeft(t, SwallowTx(t, count))
  {
    OffsetLeaves(t, Expected(t, count), WentTx(t, count));
    OffsetLeaves(t, Expected(t, count), SwallowTx(t, count));
  }

  lemma BrokenLeaves(t: Tx, count: nat, n: nat)
    requires TxOk(t) && t.open && count <= |t.out| && n <= Total(t.out)
    ensures TxLeft(t, BrokenTx(t, count, n))
  {
    OffsetLeaves(t, Expected(t, count), BrokenTx(t, count, n));
  }

  lemma BlockedLeaves(t: Tx, n: nat)
    requires TxOk(t) && t.open && n <= Total(t.out)
    ensures TxLeft(t, BlockedTx(t, n))
  {
    OffsetLeaves(t, n, BlockedTx(t, n));
  }

  lemma WritingLeaves(s: State, a: SendStep)
    requires Inv(s) && SendingEnabled(s, a) && (a.Swallow? || a.Went? || a.Block? || a.Break?)
    ensures AllLeftAlone(s, SendingApply(s, a))
  {
    var t := s.streams[a.i].tx;
    assert StreamOk(s, s.streams[a.i]);
    match a
    case Swallow(i, count) =>
      WentLeaves(t, count);
      PutTxLeaves(s, i, SwallowTx(t, count));
    case Went(i, count) =>
      WentLeaves(t, count);
      PutTxLeaves(s, i, WentTx(t, count));
    case Block(i, _, n) =>
      BlockedLeaves(t, n);
      PutTxLeaves(s, i, BlockedTx(t, n));
    case Break(i, count, n) =>
      BrokenLeaves(t, count, n);
      PutTxLeaves(s, i, BrokenTx(t, count, n));
  }

  lemma SendingLeaves(s: State, a: SendStep)
    requires Inv(s) && SendingEnabled(s, a)
    ensures AllLeftAlone(s, SendingApply(s, a))
  {
    if a.Swallow? || a.Went? || a.Block? || a.Break? {
      WritingLeaves(s, a);
    } else if !a.FreeHandle? && !a.WritevFails? {
      PullingLeaves(s, a);
    }
  }

  // ---- and so does receiving ----

  lemma FreeLeaves(s: State, i: nat, st: Stream)
    requires i < |s.streams| && LeftAlone(s.streams[i], st)
    ensures AllLeftAlone(s, QueueFree(Put(s, i, st), i))
  {
    QueueFreeAt(Put(s, i, st), i);
    PutLeaves(s, i, st.(qstream := None));
  }

  lemma ClosedLeaves(s: State, i: nat)
    requires i < |s.streams|
    ensures AllLeftAlone(s, StreamClosedCb(s, i))
  {
    var st := s.streams[i].(tx := CloseTx(s.streams[i].tx));
    if st.rx.userData {
      FreeLeaves(s, i, CancelStream(st).(done := true));
    } else {
      PutLeaves(s, i, st);
    }
  }

  lemma CallbackLeaves(s: State, i: nat, cb: Callback)
    requires i < |s.streams|
    ensures AllLeftAlone(s, OnCallback(s, i, cb))
  {
    var st := s.streams[i];
    match cb
    case StopSending => FreeLeaves(s, i, CancelStream(st).(done := true, rx := st.rx.(bodyComplete := true)));
    case ResetStream => PutLeaves(s, i, CancelStream(st).(done := true));
    case StreamClosed => ClosedLeaves(s, i);
    case _ => PutLeaves(s, i, Receive(st, cb));
  }

  lemma {:induction false} CallbacksLeave(s: State, i: nat, cbs: seq<Callback>)
    requires i < |s.streams|
    ensures AllLeftAlone(s, OnCallbacks(s, i, cbs))
    decreases |cbs|
  {
    if cbs != [] {
      CallbackLeaves(s, i, cbs[0]);
      CallbacksLeave(OnCallback(s, i, cbs[0]), i, cbs[1..]);
      LeavesJoin(s, OnCallback(s, i, cbs[0]), OnCallbacks(s, i, cbs));
    }
  }

  lemma RejectLeaves(s: State, i: nat)
    requires i < |s.streams|
    ensures AllLeftAlone(s, Reject(s, i))
  {
    CallbackLeaves(s, i, StreamClosed);
    var m := OnCallback(s, i, StreamClosed);
    var st := m.streams[i].(done := true, rejected := true, rx := m.streams[i].rx.(bodyComplete := true));
    PutLeaves(m, i, st);
    LeavesJoin(s, m, Put(m, i, st));
  }

  lemma AfterReadLeaves(s: State, i: nat, end: ReadEnd)
    requires i < |s.streams|
    ensures AllLeftAlone(s, AfterRead(s, i, end))
  {
    RejectLeaves(s, i);
    PutLeaves(s, i, s.streams[i].(done := true));
  }

  lemma AfterFinLeaves(s: State, i: nat, end: ReadEnd)
    requires i < |s.streams|
    ensures AllLeftAlone(s, AfterFin(s, i, end))
  {
    AfterReadLeaves(s, i, end);
    var m := if end == Fatal then s.(dead := true) else AfterRead(s, i, end);
    var st := m.streams[i].(rx := m.streams[i].rx.(bodyComplete := true, fin := true));
    PutLeaves(m, i, st);
    LeavesJoin(s, m, Put(m, i, st));
  }

  lemma ReceivingLeaves(s: State, a: ReceiveStep)
    requires ReceivingEnabled(s, a)
    ensures AllLeftAlone(s, ReceivingApply(s, a))
  {
    match a
    case Track(id) =>
    case Refuse =>
    case ReadStream(i, cbs, end) =>
      CallbacksLeave(s, i, cbs);
      AfterReadLeaves(OnCallbacks(s, i, cbs), i, end);
      LeavesJoin(s, OnCallbacks(s, i, cbs), ReceivingApply(s, a));
    case FeedFin(i, cbs, end) =>
      CallbacksLeave(s, i, cbs);
      AfterFinLeaves(OnCallbacks(s, i, cbs), i, end);
      LeavesJoin(s, OnCallbacks(s, i, cbs), ReceivingApply(s, a));
    case Notify(i, cb) => CallbackLeaves(s, i, cb);
  }

  // ---- reading one stream touches no other ----

  ghost predicate Apart(s: State, r: State, i: nat)
    requires i < |s.streams|
  {
    && |r.streams| == |s.streams| && r.streams == s.streams[i := r.streams[i]]
    && r.streams[i].id == s.streams[i].id && r.streams[i].tracked == s.streams[i].tracked
    && r == s.(streams := r.streams, pendingFree := r.pendingFree, dead := r.dead, excessive := r.excessive,
               streamErrors := r.streamErrors)
  }

  lemma FreeApart(s: State, i: nat, st: Stream)
    requires i < |s.streams| && st.id == s.streams[i].id && st.tracked == s.streams[i].tracked
    ensures Apart(s, Put(s, i, st), i)
    ensures Apart(s, QueueFree(Put(s, i, st), i), i) && QueueFree(Put(s, i, st), i).dead == s.dead
  {
    QueueFreeAt(Put(s, i, st), i);
  }

  lemma CallbackApart(s: State, i: nat, cb: Callback)
    requires i < |s.streams|
    ensures Apart(s, OnCallback(s, i, cb), i) && OnCallback(s, i, cb).dead == s.dead
  {
    var st := s.streams[i];
    match cb
    case StopSending => FreeApart(s, i, CancelStream(st).(done := true, rx := st.rx.(bodyComplete := true)));
    case ResetStream => FreeApart(s, i, CancelStream(st).(done := true));
    case StreamClosed => ClosedApart(s, i);
    case _ => FreeApart(s, i, Receive(st, cb));
  }

  lemma ClosedApart(s: State, i: nat)
    requires i < |s.streams|
    ensures Apart(s, StreamClosedCb(s, i), i) && StreamClosedCb(s, i).dead == s.dead
  {
    var st := s.streams[i].(tx := CloseTx(s.streams[i].tx));
    if st.rx.userData {
      FreeApart(s, i, CancelStream(st).(done := true));
    } else {
      FreeApart(s, i, st);
    }
  }

  lemma ApartJoin(s: State, m: State, r: State, i: nat)
    requires i < |s.streams| && Apart(s, m, i) && Apart(m, r, i)
    ensures Apart(s, r, i)
  {
  }

  lemma {:induction false} CallbacksApart(s: State, i: nat, cbs: seq<Callback>)
    requires i < |s.streams|
    ensures Apart(s, OnCallbacks(s, i, cbs), i) && OnCallbacks(s, i, cbs).dead == s.dead
    decreases |cbs|
  {
    if cbs != [] {
      CallbackApart(s, i, cbs[0]);
      CallbacksApart(OnCallback(s, i, cbs[0]), i, cbs[1..]);
      ApartJoin(s, OnCallback(s, i, cbs[0]), OnCallbacks(s, i, cbs), i);
    }
  }

  lemma RejectApart(s: State, i: nat)
    requires i < |s.streams|
    ensures Apart(s, Reject(s, i), i)
  {
    CallbackApart(s, i, StreamClosed);
  }

  lemma AfterReadApart(s: State, i: nat, end: ReadEnd)
    requires i < |s.streams|
    ensures Apart(s, AfterRead(s, i, end), i)
    ensures end == Fine && !AfterRead(s, i, end).streams[i].done ==> AfterRead(s, i, end).dead == s.dead
  {
    RejectApart(s, i);
  }

  lemma AfterFinApart(s: State, i: nat, end: ReadEnd)
    requires i < |s.streams|
    ensures Apart(s, AfterFin(s, i, end), i)
  {
    AfterReadApart(s, i, end);
  }

  // ---- untouched queues ----

  /** A stream that no task has begun to serve. */
  predicate Untouched(s: State, i: nat)
  {
    i < |s.streams| && Blank(s.streams[i].tx.q)
  }

  /** Only a running task produces: every other stream still to be served has an empty, unsubmitted queue. */
  predicate UntouchedOk(s: State)
  {
    && (forall i | 0 <= i < |s.streams| :: Recorded(s.streams[i].tx))
    && (forall i | 0 <= i < |s.streams| && !s.streams[i].dispatched :: Untouched(s, i))
    && (forall t | 0 <= t < |s.tasks| && s.tasks[t].pc == Starting :: Untouched(s, s.tasks[t].stream))
    && (s.event.Reserved? || s.event.Counted? ==> Untouched(s, s.event.stream))
  }

  /** Steps that leave every producer's side, every task and the dispatcher alone. */
  lemma LeavingKeepsUntouched(s: State, r: State)
    requires UntouchedOk(s) && AllLeftAlone(s, r) && r.tasks == s.tasks && r.event == s.event
    requires forall i | |s.streams| <= i < |r.streams| :: Recorded(r.streams[i].tx) && Untouched(r, i)
    ensures UntouchedOk(r)
  {
    forall i | 0 <= i < |s.streams|
      ensures Recorded(r.streams[i].tx) && (Untouched(s, i) ==> Untouched(r, i))
      ensures r.streams[i].dispatched == s.streams[i].dispatched
    {
      assert LeftAlone(s.streams[i], r.streams[i]);
    }
  }

  lemma SendingFresh(s: State, a: SendStep)
    requires Inv(s) && UntouchedOk(s) && SendingEnabled(s, a)
    ensures UntouchedOk(SendingApply(s, a))
  {
    SendingLeaves(s, a);
    LeavingKeepsUntouched(s, SendingApply(s, a));
  }

  /** What receiving leaves alone of the session itself. */
  lemma ReceivingFrame(s: State, a: ReceiveStep)
    requires ReceivingEnabled(s, a)
    ensures var r := ReceivingApply(s, a);
            && r.tasks == s.tasks && r.event == s.event && r.completed == s.completed && r.activeTasks == s.activeTasks
            && r.maxStreamErrors == s.maxStreamErrors && r.bufferSize == s.bufferSize && r.aborted == s.aborted
  {
    match a
    case Track(id) =>
    case Refuse =>
    case ReadStream(i, cbs, end) =>
      CallbacksApart(s, i, cbs);
      AfterReadApart(OnCallbacks(s, i, cbs), i, end);
    case FeedFin(i, cbs, end) =>
      CallbacksApart(s, i, cbs);
      AfterFinApart(OnCallbacks(s, i, cbs), i, end);
    case Notify(i, cb) => CallbackApart(s, i, cb);
  }

  /** Receiving adds no stream, or the one it tracks. */
  lemma ReceivingSize(s: State, a: ReceiveStep)
    requires ReceivingEnabled(s, a)
    ensures |ReceivingApply(s, a).streams| == if a.Track? then |s.streams| + 1 else |s.streams|
  {
  }

  lemma ReceivingFresh(s: State, a: ReceiveStep)
    requires UntouchedOk(s) && ReceivingEnabled(s, a)
    ensures UntouchedOk(ReceivingApply(s, a))
  {
    ReceivingLeaves(s, a);
    ReceivingFrame(s, a);
    ReceivingSize(s, a);
    LeavingKeepsUntouched(s, ReceivingApply(s, a));
  }

  lemma DispatchingFresh(s: State, a: DispatchStep)
    requires UntouchedOk(s) && DispatchingEnabled(s, a)
    ensures UntouchedOk(DispatchingApply(s, a))
  {
    if a.Reserve? || a.ReserveFails? || a.PushFails? {
      FlaggedFresh(s, if a.Reserve? then s.completed[0] else s.event.stream, a.Reserve?);
    }
  }

  /** Flagging a stream dispatched, or an untouched one not. */
  lemma FlaggedFresh(s: State, i: nat, dispatched: bool)
    requires UntouchedOk(s) && i < |s.streams| && (!dispatched ==> Untouched(s, i))
    ensures UntouchedOk(Put(s, i, s.streams[i].(dispatched := dispatched)))
  {
  }

  /** The same streams, each with as blank a queue as before. */
  predicate AsBlank(s: State, r: State)
  {
    && |r.streams| == |s.streams|
    && forall i | 0 <= i < |s.streams| ::
         && r.streams[i].dispatched == s.streams[i].dispatched
         && (Recorded(s.streams[i].tx) ==> Recorded(r.streams[i].tx))
         && (Blank(s.streams[i].tx.q) ==> Blank(r.streams[i].tx.q))
  }

  lemma BlankKeepsUntouched(s: State, r: State)
    requires UntouchedOk(s) && AsBlank(s, r) && r.tasks == s.tasks && r.event == s.event
    ensures UntouchedOk(r)
  {
  }

  lemma {:induction false} EndingFresh(s: State, a: EndStep)
    requires UntouchedOk(s) && EndingEnabled(s, a)
    ensures UntouchedOk(EndingApply(s, a))
  {
    if a.Destroy? {
      EndAllAt(s.streams);
    }
    BlankKeepsUntouched(s, EndingApply(s, a));
  }

  /** A running task may do what it likes with its own stream's queue. */
  lemma ProducedFresh(s: State, t: nat, tx: Tx)
    requires TasksOk(s) && UntouchedOk(s) && TaskAt(s, t, Running) && Recorded(tx)
    ensures UntouchedOk(PutTx(s, s.tasks[t].stream, tx))
  {
    var i, r := s.tasks[t].stream, PutTx(s, s.tasks[t].stream, tx);
    assert Held(s, i) && !Reserving(s, i);
    forall u | 0 <= u < |r.tasks| && r.tasks[u].pc == Starting
      ensures Untouched(r, r.tasks[u].stream)
    {
      assert Untouched(s, s.tasks[u].stream);
      assert s.tasks[u].stream != i;
    }
  }

  lemma MovedFresh(s: State, t: nat, pc: Pc)
    requires UntouchedOk(s) && t < |s.tasks| && pc != Starting
    ensures UntouchedOk(s.(tasks := s.tasks[t := s.tasks[t].(pc := pc)]))
  {
  }

  lemma WorkerFresh(s: State, w: WorkerStep)
    requires TasksOk(s) && UntouchedOk(s) && WorkerEnabled(s, w)
    ensures UntouchedOk(WorkerApply(s, w))
  {
    var t := w.task;
    var i, st := s.tasks[t].stream, StreamOf(s, t);
    match w
    case Begin(_) => MovedFresh(s, t, Running);
    case LeaveTask(_) => MovedFresh(s, t, Gone);
    case FailTask(_) =>
      FlaggedFresh(s, i, false);
      MovedFresh(Put(s, i, st.(dispatched := false)), t, Failing);
    case FinishTask(_) =>
      BlankKeepsUntouched(s, Put(s, i, st.(workerDone := true)));
      MovedFresh(Put(s, i, st.(workerDone := true)), t, Finishing);
    case QueueBytes(_, data) => ProducedFresh(s, t, PushTx(st.tx, data[..ChunkLen(st.tx.q, data)]));
    case GiveUp(_) => ProducedFresh(s, t, CancelTx(st.tx));
    case Complete(_) => ProducedFresh(s, t, CompleteTx(st.tx));
    case Submit(_, header) => ProducedFresh(s, t, SubmitTx(st.tx, header));
    case SubmitRefused(_) => ProducedFresh(s, t, CancelTx(st.tx));
  }

  // ---- handles ----

  /** Handle h is in a stream's slot, waits to be freed, or has been freed. */
  ghost predicate Somewhere(s: State, h: nat)
  {
    h in s.pendingFree || h in s.freed || exists i | 0 <= i < |s.streams| :: s.streams[i].qstream == Some(h)
  }

  ghost predicate Covered(s: State)
  {
    forall h: nat | h < s.handles :: Somewhere(s, h)
  }

  lemma PutSomewhere(s: State, i: nat, st: Stream, h: nat)
    requires Somewhere(s, h) && i < |s.streams| && st.qstream == s.streams[i].qstream
    ensures Somewhere(Put(s, i, st), h)
  {
    var r := Put(s, i, st);
    if h !in s.pendingFree && h !in s.freed {
      var k :| 0 <= k < |s.streams| && s.streams[k].qstream == Some(h);
      assert r.streams[k].qstream == Some(h);
    }
  }

  lemma FreeSomewhere(s: State, i: nat, h: nat)
    requires Somewhere(s, h) && i < |s.streams|
    ensures Somewhere(QueueFree(s, i), h)
  {
    var r := QueueFree(s, i);
    if s.streams[i].qstream == Some(h) {
      assert r.pendingFree[|s.pendingFree|] == h;
    } else if h !in s.pendingFree && h !in s.freed {
      var k :| 0 <= k < |s.streams| && s.streams[k].qstream == Some(h);
      assert r.streams[k].qstream == Some(h);
    } else if h in s.pendingFree {
      var k :| 0 <= k < |s.pendingFree| && s.pendingFree[k] == h;
      assert r.pendingFree[k] == h;
    }
  }

  /** The same handles, in the same places. */
  lemma SameSomewhere(s: State, r: State, h: nat)
    requires Somewhere(s, h) && |r.streams| >= |s.streams| && r.pendingFree == s.pendingFree && r.freed == s.freed
    requires forall i | 0 <= i < |s.streams| :: r.streams[i].qstream == s.streams[i].qstream
    ensures Somewhere(r, h)
  {
    if h !in s.pendingFree && h !in s.freed {
      var k :| 0 <= k < |s.streams| && s.streams[k].qstream == Some(h);
      assert r.streams[k].qstream == Some(h);
    }
  }

  lemma ClosedSomewhere(s: State, i: nat, h: nat)
    requires Somewhere(s, h) && i < |s.streams|
    ensures Somewhere(StreamClosedCb(s, i), h)
  {
    var st := s.streams[i].(tx := CloseTx(s.streams[i].tx));
    if st.rx.userData {
      PutSomewhere(s, i, CancelStream(st).(done := true), h);
      FreeSomewhere(Put(s, i, CancelStream(st).(done := true)), i, h);
    } else {
      PutSomewhere(s, i, st, h);
    }
  }

  lemma CallbackSomewhere(s: State, i: nat, cb: Callback, h: nat)
    requires Somewhere(s, h) && i < |s.streams|
    ensures Somewhere(OnCallback(s, i, cb), h)
  {
    var st := s.streams[i];
    match cb
    case StopSending =>
      var m := Put(s, i, CancelStream(st).(done := true, rx := st.rx.(bodyComplete := true)));
      PutSomewhere(s, i, m.streams[i], h);
      FreeSomewhere(m, i, h);
    case ResetStream => PutSomewhere(s, i, CancelStream(st).(done := true), h);
    case StreamClosed => ClosedSomewhere(s, i, h);
    case _ => PutSomewhere(s, i, Receive(st, cb), h);
  }

  lemma {:induction false} CallbacksSomewhere(s: State, i: nat, cbs: seq<Callback>, h: nat)
    requires Somewhere(s, h) && i < |s.streams|
    ensures Somewhere(OnCallbacks(s, i, cbs), h)
    decreases |cbs|
  {
    if cbs != [] {
      CallbackSomewhere(s, i, cbs[0], h);
      CallbacksSomewhere(OnCallback(s, i, cbs[0]), i, cbs[1..], h);
    }
  }

  lemma AfterReadSomewhere(s: State, i: nat, end: ReadEnd, h: nat)
    requires Somewhere(s, h) && i < |s.streams|
    ensures Somewhere(AfterRead(s, i, end), h) && Somewhere(Reject(s, i), h)
  {
    CallbackSomewhere(s, i, StreamClosed, h);
    var m := OnCallback(s, i, StreamClosed);
    var st := m.streams[i].(done := true, rejected := true, rx := m.streams[i].rx.(bodyComplete := true));
    PutSomewhere(m, i, st, h);
    SameSomewhere(Put(m, i, st), Reject(s, i), h);
    PutSomewhere(s, i, s.streams[i].(done := true), h);
  }

  lemma AfterFinSomewhere(s: State, i: nat, end: ReadEnd, h: nat)
    requires Somewhere(s, h) && i < |s.streams|
    ensures Somewhere(AfterFin(s, i, end), h)
  {
    AfterReadSomewhere(s, i, end, h);
    var m := if end == Fatal then s.(dead := true) else AfterRead(s, i, end);
    SameSomewhere(s, s.(dead := true), h);
    PutSomewhere(m, i, m.streams[i].(rx := m.streams[i].rx.(bodyComplete := true, fin := true)), h);
  }

  lemma ReceivingSomewhere(s: State, a: ReceiveStep, h: nat)
    requires Somewhere(s, h) && ReceivingEnabled(s, a)
    ensures Somewhere(ReceivingApply(s, a), h)
  {
    match a
    case Track(id) => SameSomewhere(s, ReceivingApply(s, a), h);
    case Refuse =>
    case ReadStream(i, cbs, end) =>
      CallbacksSomewhere(s, i, cbs, h);
      AfterReadSomewhere(OnCallbacks(s, i, cbs), i, end, h);
    case FeedFin(i, cbs, end) =>
      CallbacksSomewhere(s, i, cbs, h);
      AfterFinSomewhere(OnCallbacks(s, i, cbs), i, end, h);
    case Notify(i, cb) => CallbackSomewhere(s, i, cb, h);
  }

  /** A handle taken in is tracked, or refused and freed. */
  lemma TakenIn(s: State, a: ReceiveStep, h: nat)
    requires ReceivingEnabled(s, a) && s.handles <= h < ReceivingApply(s, a).handles
    ensures Somewhere(ReceivingApply(s, a), h)
  {
    var r := ReceivingApply(s, a);
    if a.Track? {
      assert r.streams[|s.streams|].qstream == Some(h);
    } else if a.Refuse? {
      assert r.freed[|s.freed|] == h;
    } else {
      ReceivingHandles(s, a);
    }
  }

  lemma ReceivingHandles(s: State, a: ReceiveStep)
    requires ReceivingEnabled(s, a) && !a.Track? && !a.Refuse?
    ensures ReceivingApply(s, a).handles == s.handles
  {
    match a
    case ReadStream(i, cbs, end) =>
      CallbacksApart(s, i, cbs);
      AfterReadApart(OnCallbacks(s, i, cbs), i, end);
    case FeedFin(i, cbs, end) =>
      CallbacksApart(s, i, cbs);
      AfterFinApart(OnCallbacks(s, i, cbs), i, end);
    case Notify(i, cb) => CallbackApart(s, i, cb);
  }

  lemma SendingSomewhere(s: State, a: SendStep, h: nat)
    requires Somewhere(s, h) && SendingEnabled(s, a)
    ensures Somewhere(SendingApply(s, a), h) && SendingApply(s, a).handles == s.handles
  {
    var r := SendingApply(s, a);
    if a.FreeHandle? {
      var last := |s.pendingFree| - 1;
      assert r.freed[|s.freed|] == s.pendingFree[last];
      assert s.pendingFree == r.pendingFree + [s.pendingFree[last]];
      SameSomewhere(s, s.(dead := s.dead), h);
    } else {
      SameSomewhere(s, r, h);
    }
  }

  lemma WorkerSomewhere(s: State, w: WorkerStep, h: nat)
    requires Somewhere(s, h) && WorkerEnabled(s, w)
    ensures Somewhere(WorkerApply(s, w), h) && WorkerApply(s, w).handles == s.handles
  {
    SameSomewhere(s, WorkerApply(s, w), h);
  }

  lemma DispatchingSomewhere(s: State, a: DispatchStep, h: nat)
    requires Somewhere(s, h) && DispatchingEnabled(s, a)
    ensures Somewhere(DispatchingApply(s, a), h) && DispatchingApply(s, a).handles == s.handles
  {
    SameSomewhere(s, DispatchingApply(s, a), h);
  }

  lemma {:induction false} DestroySomewhere(s: State, h: nat)
    requires Somewhere(s, h)
    ensures Somewhere(DestroyAll(s), h)
  {
    if h in s.pendingFree || h in s.freed {
      FreeAllSomewhere(s.pendingFree, s.freed, h);
    } else {
      var k :| 0 <= k < |s.streams| && s.streams[k].qstream == Some(h);
      EndAllAt(s.streams);
      assert DestroyAll(s).streams[k].qstream == Some(h);
    }
  }

  lemma EndingSomewhere(s: State, a: EndStep, h: nat)
    requires Somewhere(s, h) && EndingEnabled(s, a)
    ensures Somewhere(EndingApply(s, a), h) && EndingApply(s, a).handles == s.handles
  {
    if a.Destroy? {
      DestroySomewhere(s, h);
    } else {
      SameSomewhere(s, EndingApply(s, a), h);
    }
  }

  lemma {:induction false} FreeAllSomewhere(pending: seq<nat>, freed: seq<nat>, h: nat)
    requires h in pending || h in freed
    ensures h in freed + Reversed(pending)
  {
    ReversedHas(pending);
    if h in pending {
      var k :| 0 <= k < |pending| && pending[k] == h;
      assert Reversed(pending)[|pending| - 1 - k] == h;
    }
  }

  lemma CoveredStep(s: State, a: Action, h: nat)
    requires Covered(s) && Enabled(s, a) && h < Apply(s, a).handles
    ensures Somewhere(Apply(s, a), h)
  {
    if h < s.handles {
      assert Somewhere(s, h);
      match a
      case Worker(w) => WorkerSomewhere(s, w, h);
      case Receiving(r) => ReceivingSomewhere(s, r, h);
      case Sending(t) => SendingSomewhere(s, t, h);
      case Dispatching(d) => DispatchingSomewhere(s, d, h);
      case Ending(e) => EndingSomewhere(s, e, h);
    } else {
      OnlyReceivingTakesIn(s, a);
      TakenIn(s, a.r, h);
    }
  }

  /** Workers change streams, tasks and the task count, and nothing else. */
  lemma WorkerFrame(s: State, w: WorkerStep)
    requires WorkerEnabled(s, w)
    ensures var r := WorkerApply(s, w);
            r == s.(streams := r.streams, tasks := r.tasks, activeTasks := r.activeTasks)
  {
  }

  lemma SendingFrame(s: State, t: SendStep)
    requires SendingEnabled(s, t)
    ensures var r := SendingApply(s, t);
            && r.handles == s.handles && r.event == s.event && r.aborted == s.aborted
            && (r.dead ==> s.dead || t.WritevFails?)
  {
  }

  lemma DispatchingFrame(s: State, d: DispatchStep)
    requires DispatchingEnabled(s, d)
    ensures var r := DispatchingApply(s, d); r.handles == s.handles && r.dead == s.dead && r.aborted == s.aborted
  {
  }

  lemma {:induction false} EndingFrame(s: State, e: EndStep)
    requires EndingEnabled(s, e)
    ensures var r := EndingApply(s, e);
            && r.handles == s.handles && r.dead == s.dead && r.event == s.event && (s.aborted ==> r.aborted)
  {
  }

  lemma OnlyReceivingTakesIn(s: State, a: Action)
    requires Enabled(s, a)
    ensures a.Receiving? || Apply(s, a).handles == s.handles
  {
    match a
    case Worker(w) => WorkerFrame(s, w);
    case Receiving(r) =>
    case Sending(t) => SendingFrame(s, t);
    case Dispatching(d) => DispatchingFrame(s, d);
    case Ending(e) => EndingFrame(s, e);
  }

  // ---- a dead session ----

  /** The dispatcher holds nothing of a dead session. */
  predicate Awake(s: State)
  {
    s.dead ==> s.event == Idle
  }

  lemma AwakeStep(s: State, a: Action)
    requires Awake(s) && Enabled(s, a)
    ensures Awake(Apply(s, a))
  {
    match a
    case Worker(w) => WorkerFrame(s, w);
    case Receiving(r) => ReceivingFrame(s, r);
    case Sending(t) => SendingFrame(s, t);
    case Dispatching(d) => DispatchingFrame(s, d);
    case Ending(e) => EndingFrame(s, e);
  }

  // ---- all of it, along every run ----

  ghost predicate RecordsOk(s: State)
  {
    UntouchedOk(s) && Covered(s) && Awake(s)
  }

  lemma FreshStep(s: State, a: Action)
    requires Inv(s) && UntouchedOk(s) && Enabled(s, a)
    ensures UntouchedOk(Apply(s, a))
  {
    match a
    case Worker(w) => WorkerFresh(s, w);
    case Receiving(r) => ReceivingFresh(s, r);
    case Sending(t) => SendingFresh(s, t);
    case Dispatching(d) => DispatchingFresh(s, d);
    case Ending(e) => EndingFresh(s, e);
  }

  lemma RecordsStep(s: State, a: Action)
    requires Inv(s) && RecordsOk(s) && Enabled(s, a)
    ensures RecordsOk(Apply(s, a))
  {
    FreshStep(s, a);
    AwakeStep(s, a);
    forall h: nat | h < Apply(s, a).handles
      ensures Somewhere(Apply(s, a), h)
    {
      CoveredStep(s, a, h);
    }
  }

  lemma {:induction false} RecordsRun(s: State, run: seq<Action>, r: State)
    requires Inv(s) && RecordsOk(s) && Runs(s, run, r)
    ensures RecordsOk(r)
    decreases |run|
  {
    if run != [] {
      StepOk(s, run[0]);
      RecordsStep(s, run[0]);
      RecordsRun(Apply(s, run[0]), run[1..], r);
    }
  }
}
