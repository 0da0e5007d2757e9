/** What every step of the session machine keeps. */
module SessionInvariant {
  import opened Bytes
  import opened SendQueue
  import opened OutQueue
  import opened Transmit
  import opened SessionModel

  // ---- per stream ----

  /** A request a worker may be given: complete, well formed, and fed its FIN. */
  predicate Servable(st: Stream)
  {
    IsBidi(st.id) && st.rx.headersComplete && st.rx.bodyComplete && st.rx.fin && !st.rx.malformed
  }

  /** The send side, tied to the handle and to the hash. */
  ghost predicate SendOk(st: Stream, destroyed: bool)
  {
    && TxOk(st.tx)
    && (st.qstream.None? ==> st.tx.q.cancelled)
    && (st.qstream.Some? && st.tx.lost ==> st.tx.failed)
    && (st.tracked && st.tx.clean ==> destroyed)
    && (st.tracked && st.tx.open ==> st.tx.blocked == st.tx.writeBlocked)
  }

  predicate LifeOk(st: Stream, dead: bool)
  {
    && (!st.tracked ==> st.done && st.dispatched && st.workerDone && st.qstream.None?)
    && (st.qstream.None? ==> st.done)
    && (st.workerDone ==> st.dispatched)
    && (st.dispatched ==> Servable(st))
    && (st.rejected ==> st.done)
    && (st.rx.malformed ==> st.done || dead)
    && (st.rx.bodyComplete && !st.done ==> st.rx.fin)
  }

  ghost predicate StreamOk(s: State, st: Stream)
  {
    SendOk(st, s.destroyed) && LifeOk(st, s.dead)
  }

  ghost predicate StreamsOk(s: State)
  {
    0 < s.bufferSize && forall i | 0 <= i < |s.streams| :: StreamOk(s, s.streams[i])
  }

  // ---- counters ----

  function BlockedWeight(st: Stream): (n: nat)
  {
    if st.tracked && st.tx.writeBlocked then 1 else 0
  }

  function RejectedWeight(st: Stream): (n: nat)
  {
    if st.rejected then 1 else 0
  }

  function ActiveWeight(t: Task): (n: nat)
  {
    if t.pc == Gone then 0 else 1
  }

  function EventWeight(e: Event): (n: nat)
  {
    if e.Counted? || e.Uncounting? then 1 else 0
  }

  ghost predicate CountsOk(s: State)
  {
    && s.blockedStreams == Sum(BlockedWeight, s.streams)
    && s.streamErrors == Sum(RejectedWeight, s.streams)
    && s.activeTasks == Sum(ActiveWeight, s.tasks) + EventWeight(s.event)
    && s.streamErrors <= s.maxStreamErrors + 1
    && (s.streamErrors > s.maxStreamErrors <==> s.excessive)
    && (s.excessive ==> s.dead)
  }

  // ---- tasks ----

  /** The stream a task or the dispatcher holds. */
  predicate Held(s: State, i: nat)
  {
    i < |s.streams| && s.streams[i].tracked && s.streams[i].dispatched && !s.streams[i].workerDone
  }

  predicate Reserving(s: State, i: nat)
  {
    (s.event.Reserved? || s.event.Counted?) && s.event.stream == i
  }

  predicate TasksOk(s: State)
  {
    && (forall t | 0 <= t < |s.tasks| && Touches(s.tasks[t]) ::
          Held(s, s.tasks[t].stream) && !Reserving(s, s.tasks[t].stream))
    && (forall t, u | 0 <= t < u < |s.tasks| && Touches(s.tasks[t]) && Touches(s.tasks[u]) ::
          s.tasks[t].stream != s.tasks[u].stream)
    && (forall t | 0 <= t < |s.tasks| :: s.tasks[t].stream < |s.streams|)
    && (s.event.Reserved? || s.event.Counted? ==> Held(s, s.event.stream))
    && (s.destroyed ==> s.event == Idle && forall t | 0 <= t < |s.tasks| :: s.tasks[t].pc == Gone)
  }

  predicate CompletedOk(s: State)
  {
    && (forall k | 0 <= k < |s.completed| ::
          && s.completed[k] < |s.streams|
          && s.streams[s.completed[k]].tracked && !s.streams[s.completed[k]].dispatched
          && Servable(s.streams[s.completed[k]]))
    && (forall k, l | 0 <= k < l < |s.completed| :: s.completed[k] != s.completed[l])
  }

  // ---- handles ----

  ghost predicate HandlesOk(s: State)
  {
    && Distinct(s.pendingFree + s.freed)
    && (forall h | h in s.pendingFree + s.freed :: h < s.handles)
    && (forall i | 0 <= i < |s.streams| && s.streams[i].qstream.Some? ::
          s.streams[i].qstream.value < s.handles && s.streams[i].qstream.value !in s.pendingFree + s.freed)
    && (forall i, j | 0 <= i < j < |s.streams| && s.streams[i].qstream.Some? && s.streams[j].qstream.Some? ::
          s.streams[i].qstream.value != s.streams[j].qstream.value)
  }

  ghost predicate Inv(s: State)
  {
    StreamsOk(s) && CountsOk(s) && TasksOk(s) && CompletedOk(s) && HandlesOk(s)
  }

  function Init(maxStreamErrors: nat, bufferSize: nat): (s: State)
  {
    State([], 0, false, false, false, false, 0, maxStreamErrors, bufferSize, 0, [], Idle, [], [], [], 0)
  }

  lemma InitOk(maxStreamErrors: nat, bufferSize: nat)
    requires 0 < bufferSize
    ensures Inv(Init(maxStreamErrors, bufferSize))
  {
  }

  // ---- one stream changes, nothing shared does ----

  /** The fields other parts of the state depend on are the same. */
  predicate SameLife(a: Stream, b: Stream)
  {
    && a.id == b.id && a.tracked == b.tracked && a.qstream == b.qstream && a.rejected == b.rejected
    && a.dispatched == b.dispatched && a.workerDone == b.workerDone
    && a.tx.writeBlocked == b.tx.writeBlocked
    && (Servable(a) ==> Servable(b))
  }

  lemma PutStreams(s: State, i: nat, st: Stream)
    requires StreamsOk(s) && i < |s.streams| && StreamOk(s, st)
    ensures StreamsOk(Put(s, i, st))
  {
  }

  lemma PutCounts(s: State, i: nat, st: Stream)
    requires CountsOk(s) && i < |s.streams|
    requires BlockedWeight(st) == BlockedWeight(s.streams[i]) && RejectedWeight(st) == RejectedWeight(s.streams[i])
    ensures CountsOk(Put(s, i, st))
  {
    SumUpdate(BlockedWeight, s.streams, i, st);
    SumUpdate(RejectedWeight, s.streams, i, st);
  }

  lemma PutTasks(s: State, i: nat, st: Stream)
    requires TasksOk(s) && i < |s.streams|
    requires st.tracked == s.streams[i].tracked && st.dispatched == s.streams[i].dispatched
    requires st.workerDone == s.streams[i].workerDone
    ensures TasksOk(Put(s, i, st))
  {
  }

  lemma PutCompleted(s: State, i: nat, st: Stream)
    requires CompletedOk(s) && i < |s.streams|
    requires st.tracked == s.streams[i].tracked && (s.streams[i].dispatched || !st.dispatched)
    requires !s.streams[i].dispatched && Servable(s.streams[i]) ==> Servable(st)
    ensures CompletedOk(Put(s, i, st))
  {
  }

  lemma PutHandles(s: State, i: nat, st: Stream)
    requires HandlesOk(s) && i < |s.streams| && st.qstream == s.streams[i].qstream
    ensures HandlesOk(Put(s, i, st))
  {
  }

  lemma PutKeeps(s: State, i: nat, st: Stream)
    requires Inv(s) && i < |s.streams| && SameLife(s.streams[i], st) && StreamOk(s, st)
    ensures Inv(Put(s, i, st))
  {
    PutStreams(s, i, st);
    PutCounts(s, i, st);
    PutTasks(s, i, st);
    PutCompleted(s, i, st);
    PutHandles(s, i, st);
  }

  /** The same for a change of the send side only. */
  lemma PutTxKeeps(s: State, i: nat, tx: Tx)
    requires Inv(s) && i < |s.streams| && TxOk(tx)
    requires tx.writeBlocked == s.streams[i].tx.writeBlocked
    requires tx.blocked == s.streams[i].tx.blocked && tx.open == s.streams[i].tx.open
    requires s.streams[i].tx.q.cancelled ==> tx.q.cancelled
    requires s.streams[i].qstream.Some? && tx.lost ==> tx.failed
    requires tx.clean == s.streams[i].tx.clean
    ensures Inv(PutTx(s, i, tx))
  {
    PutKeeps(s, i, s.streams[i].(tx := tx));
  }

  // ---- request workers ----

  /** A task moves on without changing whether it touches its stream. */
  lemma StepTask(s: State, t: nat, pc: Pc)
    requires TasksOk(s) && t < |s.tasks|
    requires Touches(s.tasks[t].(pc := pc)) ==> Touches(s.tasks[t])
    requires s.destroyed ==> pc == Gone
    ensures TasksOk(s.(tasks := s.tasks[t := s.tasks[t].(pc := pc)]))
  {
  }

  lemma BeginOk(s: State, t: nat)
    requires Inv(s) && WorkerEnabled(s, Begin(t))
    ensures Inv(WorkerApply(s, Begin(t)))
  {
    StepTask(s, t, Running);
    SumUpdate(ActiveWeight, s.tasks, t, s.tasks[t].(pc := Running));
  }

  lemma LeaveOk(s: State, t: nat)
    requires Inv(s) && WorkerEnabled(s, LeaveTask(t))
    ensures Inv(WorkerApply(s, LeaveTask(t)))
  {
    OnlyTasks(s, WorkerApply(s, LeaveTask(t)));
    StepTask(s, t, Gone);
    LeaveCounts(s, t);
  }

  lemma LeaveCounts(s: State, t: nat)
    requires CountsOk(s) && t < |s.tasks| && s.tasks[t].pc != Gone
    ensures CountsOk(s.(tasks := s.tasks[t := s.tasks[t].(pc := Gone)], activeTasks := s.activeTasks - 1))
  {
    SumUpdate(ActiveWeight, s.tasks, t, s.tasks[t].(pc := Gone));
  }

  /** The last use of the stream: the task no longer touches it, and its stream changes. */
  lemma ReleaseTasks(s: State, t: nat, st: Stream, pc: Pc)
    requires TasksOk(s) && t < |s.tasks| && Touches(s.tasks[t]) && !Touches(s.tasks[t].(pc := pc))
    ensures TasksOk(Put(s, s.tasks[t].stream, st).(tasks := s.tasks[t := s.tasks[t].(pc := pc)]))
  {
  }

  lemma FailOk(s: State, t: nat)
    requires Inv(s) && WorkerEnabled(s, FailTask(t))
    ensures Inv(WorkerApply(s, FailTask(t)))
  {
    var i, st := s.tasks[t].stream, StreamOf(s, t).(dispatched := false);
    ReleaseTasks(s, t, st, Failing);
    PutStreams(s, i, st);
    PutCounts(s, i, st);
    PutCompleted(s, i, st);
    PutHandles(s, i, st);
    SumUpdate(ActiveWeight, s.tasks, t, s.tasks[t].(pc := Failing));
  }

  lemma FinishOk(s: State, t: nat)
    requires Inv(s) && WorkerEnabled(s, FinishTask(t))
    ensures Inv(WorkerApply(s, FinishTask(t)))
  {
    var i, st := s.tasks[t].stream, StreamOf(s, t).(workerDone := true);
    ReleaseTasks(s, t, st, Finishing);
    PutStreams(s, i, st);
    PutCounts(s, i, st);
    PutCompleted(s, i, st);
    PutHandles(s, i, st);
    SumUpdate(ActiveWeight, s.tasks, t, s.tasks[t].(pc := Finishing));
  }

  lemma ProducerOk(s: State, a: WorkerStep)
    requires Inv(s) && WorkerEnabled(s, a)
    requires a.QueueBytes? || a.GiveUp? || a.Complete? || a.Submit? || a.SubmitRefused?
    ensures Inv(WorkerApply(s, a))
  {
    var i, tx := s.tasks[a.task].stream, StreamOf(s, a.task).tx;
    match a
    case QueueBytes(t, data) =>
      PushOk(tx, data[..ChunkLen(tx.q, data)]);
      PutTxKeeps(s, i, PushTx(tx, data[..ChunkLen(tx.q, data)]));
    case GiveUp(t) =>
      CancelOk(tx);
      PutTxKeeps(s, i, CancelTx(tx));
    case Complete(t) =>
      CompleteOk(tx);
      PutTxKeeps(s, i, CompleteTx(tx));
    case Submit(t, header) =>
      SubmitOk(tx, header);
      PutTxKeeps(s, i, SubmitTx(tx, header));
    case SubmitRefused(t) =>
      CancelOk(tx);
      PutTxKeeps(s, i, CancelTx(tx));
  }

  lemma WorkerOk(s: State, a: WorkerStep)
    requires Inv(s) && WorkerEnabled(s, a)
    ensures Inv(WorkerApply(s, a))
  {
    match a
    case Begin(t) => BeginOk(s, t);
    case LeaveTask(t) => LeaveOk(s, t);
    case FailTask(t) => FailOk(s, t);
    case FinishTask(t) => FinishOk(s, t);
    case _ => ProducerOk(s, a);
  }

  // ---- the send path ----

  /** A write on a live handle: the vectors are sound and the transport has lost nothing unless it is broken. */
  lemma WritableTx(s: State, i: nat)
    requires Inv(s) && EventFree(s) && i < |s.streams| && s.streams[i].qstream.Some?
    ensures TxOk(s.streams[i].tx) && !s.streams[i].tx.clean && (s.streams[i].tx.lost ==> s.streams[i].tx.failed)
  {
    assert StreamOk(s, s.streams[i]);
  }

  lemma PullsOk(s: State, a: SendStep)
    requires Inv(s) && SendingEnabled(s, a) && (a.NgFrame? || a.PullData? || a.PullEof? || a.PullStall?)
    ensures Inv(SendingApply(s, a))
  {
    var tx := s.streams[a.i].tx;
    assert StreamOk(s, s.streams[a.i]);
    match a
    case NgFrame(i, n) =>
      FrameOk(tx, n);
      PutTxKeeps(s, i, FrameTx(tx, n));
    case PullData(i, veccnt, header) =>
      TakeOk(tx, veccnt, header);
      ReadKeeps(tx.q, veccnt);
      PutTxKeeps(s, i, TakeTx(tx, veccnt, header));
    case PullEof(i) =>
      EofOk(tx);
      PutTxKeeps(s, i, EofTx(tx));
    case PullStall(i) =>
      StallOk(tx);
      PutTxKeeps(s, i, StallTx(tx));
  }

  lemma SwallowStep(s: State, i: nat, count: nat)
    requires Inv(s) && SendingEnabled(s, Swallow(i, count))
    ensures Inv(SendingApply(s, Swallow(i, count)))
  {
    var tx := s.streams[i].tx;
    assert StreamOk(s, s.streams[i]);
    SwallowOk(tx, count);
    AdvanceFrame(tx, Expected(tx, count));
    PutTxKeeps(s, i, SwallowTx(tx, count));
  }

  lemma WentStep(s: State, i: nat, count: nat)
    requires Inv(s) && SendingEnabled(s, Went(i, count))
    ensures Inv(SendingApply(s, Went(i, count)))
  {
    var tx := s.streams[i].tx;
    WritableTx(s, i);
    if count == 0 {
      assert tx.out[..count] == [];
    }
    WentOk(tx, count);
    AdvanceFrame(tx, Expected(tx, count));
    PutTxKeeps(s, i, WentTx(tx, count));
  }

  lemma BreakStep(s: State, i: nat, count: nat, n: nat)
    requires Inv(s) && SendingEnabled(s, Break(i, count, n))
    ensures Inv(SendingApply(s, Break(i, count, n)))
  {
    var tx := s.streams[i].tx;
    WritableTx(s, i);
    BrokenOk(tx, count, n);
    AdvanceFrame(tx, Expected(tx, count));
    PutTxKeeps(s, i, BrokenTx(tx, count, n));
  }

  /** Block and unblock move the counter with the flag. */
  lemma FlagKeeps(s: State, i: nat, tx: Tx, blocked: int)
    requires Inv(s) && i < |s.streams| && s.streams[i].tracked && TxOk(tx)
    requires tx.blocked == tx.writeBlocked
    requires tx.q.cancelled == s.streams[i].tx.q.cancelled && tx.clean == s.streams[i].tx.clean
    requires tx.lost == s.streams[i].tx.lost && tx.failed == s.streams[i].tx.failed
    requires blocked == s.blockedStreams + (if tx.writeBlocked then 1 else 0) - BlockedWeight(s.streams[i])
    ensures Inv(PutTx(s, i, tx).(blockedStreams := blocked))
  {
    var st := s.streams[i].(tx := tx);
    FlagStream(s, i, tx);
    PutStreams(s, i, st);
    PutBlocked(s, i, st, blocked);
    PutTasks(s, i, st);
    PutCompleted(s, i, st);
    PutHandles(s, i, st);
  }

  lemma FlagStream(s: State, i: nat, tx: Tx)
    requires StreamsOk(s) && i < |s.streams| && TxOk(tx) && tx.blocked == tx.writeBlocked
    requires tx.q.cancelled == s.streams[i].tx.q.cancelled && tx.clean == s.streams[i].tx.clean
    requires tx.lost == s.streams[i].tx.lost && tx.failed == s.streams[i].tx.failed
    ensures StreamOk(s, s.streams[i].(tx := tx))
  {
    assert StreamOk(s, s.streams[i]);
  }

  lemma PutBlocked(s: State, i: nat, st: Stream, blocked: int)
    requires CountsOk(s) && i < |s.streams| && RejectedWeight(st) == RejectedWeight(s.streams[i])
    requires blocked == s.blockedStreams + BlockedWeight(st) - BlockedWeight(s.streams[i])
    ensures CountsOk(Put(s, i, st).(blockedStreams := blocked))
  {
    SumUpdate(BlockedWeight, s.streams, i, st);
    SumUpdate(RejectedWeight, s.streams, i, st);
  }

  lemma BlockStep(s: State, i: nat, count: nat, n: nat)
    requires Inv(s) && SendingEnabled(s, Block(i, count, n))
    ensures Inv(SendingApply(s, Block(i, count, n)))
  {
    WritableTx(s, i);
    BlockedFrame(s.streams[i].tx, n);
    BlockApplied(s, i, count, n);
    FlagKeeps(s, i, BlockedTx(s.streams[i].tx, n), s.blockedStreams + 1);
  }

  lemma BlockApplied(s: State, i: nat, count: nat, n: nat)
    requires StreamsOk(s) && SendingEnabled(s, Block(i, count, n))
    ensures !s.streams[i].tx.writeBlocked
    ensures SendingApply(s, Block(i, count, n))
         == PutTx(s, i, BlockedTx(s.streams[i].tx, n)).(blockedStreams := s.blockedStreams + 1)
  {
    assert StreamOk(s, s.streams[i]);
  }

  lemma BlockedFrame(t: Tx, n: nat)
    requires TxOk(t) && t.open && !t.clean && n < Total(t.out) && Alive(t, n)
    ensures var r := BlockedTx(t, n);
            && TxOk(r) && r.blocked && r.writeBlocked && r.q.cancelled == t.q.cancelled
            && r.clean == t.clean && r.lost == t.lost && r.failed == t.failed
  {
    BlockedOk(t, n);
    AdvanceFrame(t, n);
  }

  lemma UnblockStep(s: State, i: nat)
    requires Inv(s) && SendingEnabled(s, Unblock(i))
    ensures Inv(SendingApply(s, Unblock(i)))
  {
    assert StreamOk(s, s.streams[i]);
    UnblockOk(s.streams[i].tx);
    FlagKeeps(s, i, UnblockTx(s.streams[i].tx), s.blockedStreams - 1);
  }

  lemma FreeHandleStep(s: State)
    requires Inv(s) && SendingEnabled(s, FreeHandle)
    ensures Inv(SendingApply(s, FreeHandle))
  {
    var n := |s.pendingFree| - 1;
    MoveHandle(s.pendingFree, s.freed);
    assert StreamsOk(SendingApply(s, FreeHandle));
  }

  /** Moving the last queued handle to the freed ones rearranges the same handles. */
  lemma MoveHandle(pending: seq<nat>, freed: seq<nat>)
    requires pending != [] && Distinct(pending + freed)
    ensures var n := |pending| - 1;
            Distinct(pending[..n] + (freed + [pending[n]]))
    ensures var n := |pending| - 1;
            forall h :: h in pending[..n] + (freed + [pending[n]]) <==> h in pending + freed
  {
    var n, both := |pending| - 1, pending + freed;
    var moved := pending[..n] + (freed + [pending[n]]);
    forall k, l | 0 <= k < l < |moved|
      ensures moved[k] != moved[l]
    {
      assert moved[k] == both[if k < n then k else k + 1];
      if l < |moved| - 1 {
        assert moved[l] == both[if l < n then l else l + 1];
      } else {
        assert moved[l] == both[n];
      }
    }
    forall h
      ensures h in moved <==> h in both
    {
      if h in both {
        var k :| 0 <= k < |both| && both[k] == h;
        assert h == moved[if k < n then k else if k == n then |moved| - 1 else k - 1];
      }
    }
  }

  lemma WritevFailsStep(s: State)
    requires Inv(s) && SendingEnabled(s, WritevFails)
    ensures Inv(SendingApply(s, WritevFails))
  {
    var r := SendingApply(s, WritevFails);
    forall i | 0 <= i < |r.streams|
      ensures StreamOk(r, r.streams[i])
    {
      assert StreamOk(s, s.streams[i]);
    }
  }

  lemma SendingOk(s: State, a: SendStep)
    requires Inv(s) && SendingEnabled(s, a)
    ensures Inv(SendingApply(s, a))
  {
    match a
    case Swallow(i, count) => SwallowStep(s, i, count);
    case Went(i, count) => WentStep(s, i, count);
    case Block(i, count, n) => BlockStep(s, i, count, n);
    case Break(i, count, n) => BreakStep(s, i, count, n);
    case Unblock(i) => UnblockStep(s, i);
    case FreeHandle => FreeHandleStep(s);
    case WritevFails => WritevFailsStep(s);
    case _ => PullsOk(s, a);
  }

  // ---- dispatch ----

  lemma CollectOk(s: State, i: nat)
    requires Inv(s) && DispatchingEnabled(s, Collect(i))
    ensures Inv(DispatchingApply(s, Collect(i)))
  {
    assert StreamOk(s, s.streams[i]);
  }

  /** Reserving a collected stream: nobody else holds it, and it leaves the list. */
  lemma ReserveOk(s: State)
    requires Inv(s) && DispatchingEnabled(s, Reserve)
    ensures Inv(DispatchingApply(s, Reserve))
  {
    var i := s.completed[0];
    var st := s.streams[i].(dispatched := true);
    assert StreamOk(s, s.streams[i]);
    PutStreams(s, i, st);
    PutCounts(s, i, st);
    PutHandles(s, i, st);
    ReserveTasks(s);
    ReserveCompleted(s);
    ReserveApplied(s);
  }

  lemma ReserveApplied(s: State)
    requires CompletedOk(s) && DispatchingEnabled(s, Reserve)
    ensures var i := s.completed[0];
            DispatchingApply(s, Reserve) ==
            Put(s, i, s.streams[i].(dispatched := true)).(completed := s.completed[1..], event := Reserved(i))
  {
  }

  lemma ReserveTasks(s: State)
    requires TasksOk(s) && CompletedOk(s) && StreamsOk(s) && DispatchingEnabled(s, Reserve)
    ensures TasksOk(DispatchingApply(s, Reserve))
  {
    assert StreamOk(s, s.streams[s.completed[0]]);
  }

  lemma ReserveCompleted(s: State)
    requires CompletedOk(s) && DispatchingEnabled(s, Reserve)
    ensures CompletedOk(DispatchingApply(s, Reserve))
  {
    var r := DispatchingApply(s, Reserve);
    assert forall k | 0 <= k < |r.completed| :: r.completed[k] == s.completed[k + 1];
  }

  /** Giving a reservation back. */
  lemma UnreserveOk(s: State, event: Event)
    requires Inv(s) && (s.event.Reserved? || s.event.Counted?) && !s.destroyed && s.event.stream < |s.streams|
    requires event == if s.event.Reserved? then Idle else Uncounting
    ensures Inv(Put(s, s.event.stream, s.streams[s.event.stream].(dispatched := false)).(event := event))
  {
    var i := s.event.stream;
    var st := s.streams[i].(dispatched := false);
    assert StreamOk(s, s.streams[i]);
    PutStreams(s, i, st);
    PutCounts(s, i, st);
    PutHandles(s, i, st);
    PutCompleted(s, i, st);
    UnreserveTasks(s, st, event);
  }

  lemma UnreserveTasks(s: State, st: Stream, event: Event)
    requires TasksOk(s) && (s.event.Reserved? || s.event.Counted?) && !s.destroyed && s.event.stream < |s.streams|
    requires event == Idle || event == Uncounting
    ensures TasksOk(Put(s, s.event.stream, st).(event := event))
  {
  }

  /** Tasks and counters aside, nothing changed. */
  lemma OnlyTasks(s: State, r: State)
    requires StreamsOk(s) && CompletedOk(s) && HandlesOk(s)
    requires r == s.(tasks := r.tasks, event := r.event, activeTasks := r.activeTasks)
    ensures StreamsOk(r) && CompletedOk(r) && HandlesOk(r)
  {
    assert forall i | 0 <= i < |s.streams| :: StreamOk(s, s.streams[i]) ==> StreamOk(r, r.streams[i]);
  }

  lemma PushTaskOk(s: State)
    requires Inv(s) && DispatchingEnabled(s, PushTask)
    ensures Inv(DispatchingApply(s, PushTask))
  {
    OnlyTasks(s, DispatchingApply(s, PushTask));
    PushTaskTasks(s);
    PushTaskCounts(s, Task(s.event.stream, Starting));
  }

  lemma {:induction false} PushTaskCounts(s: State, t: Task)
    requires CountsOk(s) && s.event.Counted? && t.pc == Starting
    ensures CountsOk(s.(tasks := s.tasks + [t], event := Idle))
  {
    SumSnoc(ActiveWeight, s.tasks, t);
  }

  lemma PushTaskTasks(s: State)
    requires TasksOk(s) && DispatchingEnabled(s, PushTask)
    ensures TasksOk(DispatchingApply(s, PushTask))
  {
  }

  /** Counting a task up before it is queued, or down when queueing failed. */
  lemma CountingOk(s: State, a: DispatchStep)
    requires Inv(s) && DispatchingEnabled(s, a) && (a.Count? || a.Uncount? || a.NewPass?)
    ensures Inv(DispatchingApply(s, a))
  {
    CountingTasks(s, a);
  }

  lemma CountingTasks(s: State, a: DispatchStep)
    requires TasksOk(s) && DispatchingEnabled(s, a) && (a.Count? || a.Uncount? || a.NewPass?)
    ensures TasksOk(DispatchingApply(s, a))
  {
  }

  lemma DispatchingOk(s: State, a: DispatchStep)
    requires Inv(s) && DispatchingEnabled(s, a)
    ensures Inv(DispatchingApply(s, a))
  {
    match a
    case Collect(i) => CollectOk(s, i);
    case Reserve => ReserveOk(s);
    case ReserveFails => UnreserveOk(s, Idle);
    case PushTask => PushTaskOk(s);
    case PushFails => UnreserveOk(s, Uncounting);
    case _ => CountingOk(s, a);
  }

  // ---- endings ----

  lemma AbandonOk(s: State, i: nat)
    requires Inv(s) && EndingEnabled(s, Abandon(i))
    ensures Inv(EndingApply(s, Abandon(i)))
  {
    assert StreamOk(s, s.streams[i]);
    CancelOk(s.streams[i].tx);
    PutTxKeeps(s, i, CancelTx(s.streams[i].tx));
  }

  /** A reclaimed stream is held by no task and collected by nobody. */
  lemma ReclaimOk(s: State, i: nat)
    requires Inv(s) && EndingEnabled(s, Reclaim(i))
    ensures Inv(EndingApply(s, Reclaim(i)))
  {
    var st := s.streams[i].(tracked := false, tx := CleanTx(s.streams[i].tx));
    ReclaimStream(s, i);
    ReclaimPut(s, i, st, if s.streams[i].tx.writeBlocked then s.blockedStreams - 1 else s.blockedStreams);
  }

  lemma ReclaimPut(s: State, i: nat, st: Stream, blocked: int)
    requires Inv(s) && EndingEnabled(s, Reclaim(i)) && StreamOk(s, st)
    requires st.rejected == s.streams[i].rejected && st.qstream == s.streams[i].qstream
    requires blocked == s.blockedStreams + BlockedWeight(st) - BlockedWeight(s.streams[i])
    ensures Inv(Put(s, i, st).(blockedStreams := blocked))
  {
    PutStreams(s, i, st);
    PutBlocked(s, i, st, blocked);
    ReclaimTasks(s, i, st);
    ReclaimCompleted(s, i, st);
    PutHandles(s, i, st);
  }

  lemma ReclaimStream(s: State, i: nat)
    requires StreamsOk(s) && EndingEnabled(s, Reclaim(i))
    ensures StreamOk(s, s.streams[i].(tracked := false, tx := CleanTx(s.streams[i].tx)))
  {
    assert StreamOk(s, s.streams[i]);
    CleanOk(s.streams[i].tx);
  }

  lemma ReclaimTasks(s: State, i: nat, st: Stream)
    requires TasksOk(s) && i < |s.streams| && s.streams[i].workerDone && EventFree(s)
    ensures TasksOk(Put(s, i, st))
  {
  }

  lemma ReclaimCompleted(s: State, i: nat, st: Stream)
    requires CompletedOk(s) && i < |s.streams| && s.streams[i].dispatched
    ensures CompletedOk(Put(s, i, st))
  {
  }

  lemma {:induction false} EndAllAt(streams: seq<Stream>)
    ensures |EndAll(streams)| == |streams|
    ensures forall i | 0 <= i < |streams| :: EndAll(streams)[i] == Ended(streams[i])
    decreases |streams|
  {
    if streams != [] {
      EndAllAt(streams[..|streams| - 1]);
    }
  }

  lemma {:induction false} EndAllSums(streams: seq<Stream>)
    ensures Sum(BlockedWeight, EndAll(streams)) == Sum(BlockedWeight, streams)
    ensures Sum(RejectedWeight, EndAll(streams)) == Sum(RejectedWeight, streams)
    decreases |streams|
  {
    if streams != [] {
      var n := |streams| - 1;
      EndAllSums(streams[..n]);
      SumSnoc(BlockedWeight, EndAll(streams[..n]), Ended(streams[n]));
      SumSnoc(RejectedWeight, EndAll(streams[..n]), Ended(streams[n]));
    }
  }

  lemma EndedOk(s: State, st: Stream)
    requires StreamOk(s, st)
    ensures SendOk(Ended(st), true) && LifeOk(Ended(st), s.dead)
  {
    CloseOk(st.tx);
    var c := CloseTx(st.tx);
    CancelOk(c);
    CleanOk(CancelTx(c));
  }

  lemma {:induction false} ReversedHas(hs: seq<nat>)
    ensures |Reversed(hs)| == |hs|
    ensures forall k | 0 <= k < |hs| :: Reversed(hs)[k] == hs[|hs| - 1 - k]
    decreases |hs|
  {
    if hs != [] {
      ReversedHas(hs[..|hs| - 1]);
    }
  }

  /** Freeing all queued handles, last first, frees each once. */
  lemma FreeAllHandles(pending: seq<nat>, freed: seq<nat>)
    requires Distinct(pending + freed)
    ensures Distinct([] + (freed + Reversed(pending)))
    ensures forall h :: h in [] + (freed + Reversed(pending)) <==> h in pending + freed
  {
    ReversedHas(pending);
    var both, all := pending + freed, [] + (freed + Reversed(pending));
    var n, m := |pending|, |freed|;
    forall k, l | 0 <= k < l < |all|
      ensures all[k] != all[l]
    {
      assert all[k] == both[if k < m then n + k else n - 1 - (k - m)];
      assert all[l] == both[if l < m then n + l else n - 1 - (l - m)];
    }
    forall h
      ensures h in all <==> h in both
    {
      if h in both {
        var k :| 0 <= k < |both| && both[k] == h;
        assert h == all[if k < n then m + (n - 1 - k) else k - n];
      }
    }
  }

  lemma {:induction false} SumZero(tasks: seq<Task>)
    requires Sum(ActiveWeight, tasks) == 0
    ensures forall t | 0 <= t < |tasks| :: tasks[t].pc == Gone
  {
    forall t | 0 <= t < |tasks|
      ensures tasks[t].pc == Gone
    {
      SumBoundsMember(ActiveWeight, tasks, t);
    }
  }

  /** The session goes only when every task has gone. */
  lemma DestroyOk(s: State)
    requires Inv(s) && EndingEnabled(s, Destroy)
    ensures Inv(EndingApply(s, Destroy))
  {
    DestroyStreams(s);
    DestroyCounts(s);
    DestroyTasks(s);
    DestroyHandles(s);
    DestroyCompleted(s);
  }

  lemma DestroyCounts(s: State)
    requires CountsOk(s)
    ensures CountsOk(DestroyAll(s))
  {
    EndAllSums(s.streams);
  }

  lemma DestroyTasks(s: State)
    requires TasksOk(s) && CountsOk(s) && s.activeTasks == 0 && s.event == Idle
    ensures TasksOk(DestroyAll(s))
  {
    EndAllAt(s.streams);
    SumZero(s.tasks);
  }

  lemma DestroyStreams(s: State)
    requires StreamsOk(s)
    ensures StreamsOk(DestroyAll(s))
  {
    EndAllAt(s.streams);
    var r := DestroyAll(s);
    forall i | 0 <= i < |r.streams|
      ensures StreamOk(r, r.streams[i])
    {
      EndedOk(s, s.streams[i]);
    }
  }

  lemma DestroyHandles(s: State)
    requires HandlesOk(s)
    ensures HandlesOk(DestroyAll(s))
  {
    EndAllAt(s.streams);
    FreeAllHandles(s.pendingFree, s.freed);
  }

  lemma DestroyCompleted(s: State)
    requires CompletedOk(s)
    ensures CompletedOk(DestroyAll(s))
  {
    EndAllAt(s.streams);
  }

  lemma EndingOk(s: State, a: EndStep)
    requires Inv(s) && EndingEnabled(s, a)
    ensures Inv(EndingApply(s, a))
  {
    match a
    case Abandon(i) => AbandonOk(s, i);
    case Reclaim(i) => ReclaimOk(s, i);
    case Abort =>
    case Destroy => DestroyOk(s);
  }

  // ---- streams come in ----

  lemma TrackOk(s: State, id: int)
    requires Inv(s) && ReceivingEnabled(s, Track(id))
    ensures Inv(ReceivingApply(s, Track(id)))
  {
    var st := NewStream(id, s.handles, s.bufferSize);
    TrackStreams(s, id);
    TrackCounts(s, st);
    TrackTasks(s, st);
    TrackHandles(s, st);
  }

  lemma TrackStreams(s: State, id: int)
    requires StreamsOk(s)
    ensures StreamsOk(s.(streams := s.streams + [NewStream(id, s.handles, s.bufferSize)], handles := s.handles + 1))
  {
    FreshOk(s.bufferSize);
  }

  lemma TrackCounts(s: State, st: Stream)
    requires CountsOk(s) && BlockedWeight(st) == 0 && RejectedWeight(st) == 0
    ensures CountsOk(s.(streams := s.streams + [st], handles := s.handles + 1))
  {
    SumSnoc(BlockedWeight, s.streams, st);
    SumSnoc(RejectedWeight, s.streams, st);
  }

  lemma TrackTasks(s: State, st: Stream)
    requires TasksOk(s) && CompletedOk(s)
    ensures TasksOk(s.(streams := s.streams + [st], handles := s.handles + 1))
    ensures CompletedOk(s.(streams := s.streams + [st], handles := s.handles + 1))
  {
  }

  lemma TrackHandles(s: State, st: Stream)
    requires HandlesOk(s) && st.qstream == Some(s.handles)
    ensures HandlesOk(s.(streams := s.streams + [st], handles := s.handles + 1))
  {
  }

  lemma RefuseOk(s: State)
    requires Inv(s) && ReceivingEnabled(s, Refuse)
    ensures Inv(ReceivingApply(s, Refuse))
  {
    RefuseHandles(s);
  }

  lemma RefuseHandles(s: State)
    requires HandlesOk(s)
    ensures HandlesOk(s.(freed := s.freed + [s.handles], handles := s.handles + 1))
  {
    var hs := s.pendingFree + s.freed;
    var all := s.pendingFree + (s.freed + [s.handles]);
    assert all == hs + [s.handles];
    forall k, l | 0 <= k < l < |all|
      ensures all[k] != all[l]
    {
      assert all[k] == hs[k] && hs[k] in hs;
      if l < |hs| {
        assert all[l] == hs[l];
      }
    }
  }

  // ---- callbacks: stream i may be half way through a read ----

  /** The life conditions that hold between two callbacks of one read. */
  predicate LooseLife(st: Stream, feeding: bool)
  {
    && (!st.tracked ==> st.done && st.dispatched && st.workerDone && st.qstream.None?)
    && (st.qstream.None? ==> st.done)
    && (st.workerDone ==> st.dispatched)
    && (st.dispatched ==> Servable(st))
    && (st.rejected ==> st.done)
    && (!feeding && st.rx.bodyComplete && !st.done ==> st.rx.fin)
  }

  ghost predicate LooseStreams(s: State, i: nat, feeding: bool)
  {
    && 0 < s.bufferSize && i < |s.streams|
    && (forall j | 0 <= j < |s.streams| && j != i :: StreamOk(s, s.streams[j]))
    && SendOk(s.streams[i], s.destroyed) && LooseLife(s.streams[i], feeding)
  }

  ghost predicate Loose(s: State, i: nat, feeding: bool)
  {
    LooseStreams(s, i, feeding) && CountsOk(s) && TasksOk(s) && CompletedOk(s) && HandlesOk(s)
  }

  lemma LoosePut(s: State, i: nat, st: Stream, feeding: bool)
    requires Loose(s, i, feeding) && SameLife(s.streams[i], st)
    requires SendOk(st, s.destroyed) && LooseLife(st, feeding)
    ensures Loose(Put(s, i, st), i, feeding)
  {
    PutCounts(s, i, st);
    PutTasks(s, i, st);
    PutCompleted(s, i, st);
    PutHandles(s, i, st);
  }

  lemma QueueFreeHandles(s: State, i: nat)
    requires HandlesOk(s) && i < |s.streams|
    ensures HandlesOk(QueueFree(s, i))
  {
    if s.streams[i].qstream.Some? {
      var h := s.streams[i].qstream.value;
      var old', new' := s.pendingFree + s.freed, (s.pendingFree + [h]) + s.freed;
      var n := |s.pendingFree|;
      forall k, l | 0 <= k < l < |new'|
        ensures new'[k] != new'[l]
      {
        assert k != n ==> new'[k] == old'[if k < n then k else k - 1];
        assert l != n ==> new'[l] == old'[if l < n then l else l - 1];
      }
      assert forall x :: x in new' <==> x in old' || x == h;
    }
  }

  lemma QueueFreeOk(s: State, i: nat, feeding: bool)
    requires Loose(s, i, feeding) && s.streams[i].tx.q.cancelled && s.streams[i].done
    ensures Loose(QueueFree(s, i), i, feeding)
  {
    QueueFreeHandles(s, i);
    QueueFreeCounts(s, i);
    QueueFreeTasks(s, i);
    QueueFreeCompleted(s, i);
    QueueFreeStreams(s, i, feeding);
  }

  lemma QueueFreeCounts(s: State, i: nat)
    requires CountsOk(s) && i < |s.streams|
    ensures CountsOk(QueueFree(s, i))
  {
    QueueFreeAt(s, i);
    PutCounts(s, i, s.streams[i].(qstream := None));
  }

  lemma QueueFreeTasks(s: State, i: nat)
    requires TasksOk(s) && i < |s.streams|
    ensures TasksOk(QueueFree(s, i))
  {
    QueueFreeAt(s, i);
    PutTasks(s, i, s.streams[i].(qstream := None));
  }

  lemma QueueFreeCompleted(s: State, i: nat)
    requires CompletedOk(s) && i < |s.streams|
    ensures CompletedOk(QueueFree(s, i))
  {
    QueueFreeAt(s, i);
    PutCompleted(s, i, s.streams[i].(qstream := None));
  }

  lemma QueueFreeStreams(s: State, i: nat, feeding: bool)
    requires LooseStreams(s, i, feeding) && s.streams[i].tx.q.cancelled && s.streams[i].done
    ensures LooseStreams(QueueFree(s, i), i, feeding)
  {
    QueueFreeAt(s, i);
  }

  lemma CancelledOk(st: Stream, destroyed: bool)
    requires SendOk(st, destroyed)
    ensures SendOk(CancelStream(st), destroyed)
  {
    CancelOk(st.tx);
  }

  lemma StopSendingOk(s: State, i: nat, feeding: bool)
    requires Loose(s, i, feeding)
    ensures Loose(StopSendingCb(s, i), i, feeding)
  {
    var st := CancelStream(s.streams[i]);
    var stopped := st.(done := true, rx := st.rx.(bodyComplete := true));
    CancelledOk(s.streams[i], s.destroyed);
    LoosePut(s, i, stopped, feeding);
    QueueFreeOk(Put(s, i, stopped), i, feeding);
  }

  lemma StreamClosedOk(s: State, i: nat, feeding: bool)
    requires Loose(s, i, feeding)
    ensures Loose(StreamClosedCb(s, i), i, feeding)
  {
    if s.streams[i].rx.userData {
      ClosedKnown(s, i, feeding);
    } else {
      ClosedUnknown(s, i, feeding);
    }
  }

  lemma ClosedUnknown(s: State, i: nat, feeding: bool)
    requires Loose(s, i, feeding)
    ensures Loose(Put(s, i, s.streams[i].(tx := CloseTx(s.streams[i].tx))), i, feeding)
  {
    ClosedStream(s.streams[i], s.destroyed);
    LoosePut(s, i, s.streams[i].(tx := CloseTx(s.streams[i].tx)), feeding);
  }

  lemma ClosedKnown(s: State, i: nat, feeding: bool)
    requires Loose(s, i, feeding)
    ensures var st := s.streams[i].(tx := CloseTx(s.streams[i].tx));
            Loose(QueueFree(Put(s, i, CancelStream(st).(done := true)), i), i, feeding)
  {
    ClosedStream(s.streams[i], s.destroyed);
    var ended := CancelStream(s.streams[i].(tx := CloseTx(s.streams[i].tx))).(done := true);
    LoosePut(s, i, ended, feeding);
    QueueFreeOk(Put(s, i, ended), i, feeding);
  }

  lemma ClosedStream(st: Stream, destroyed: bool)
    requires SendOk(st, destroyed)
    ensures SendOk(st.(tx := CloseTx(st.tx)), destroyed)
    ensures SendOk(CancelStream(st.(tx := CloseTx(st.tx))), destroyed)
  {
    CloseOk(st.tx);
    CancelledOk(st.(tx := CloseTx(st.tx)), destroyed);
  }

  lemma ResetOk(s: State, i: nat, feeding: bool)
    requires Loose(s, i, feeding)
    ensures Loose(Put(s, i, CancelStream(s.streams[i]).(done := true)), i, feeding)
  {
    CancelledOk(s.streams[i], s.destroyed);
    LoosePut(s, i, CancelStream(s.streams[i]).(done := true), feeding);
  }

  /** Header and data callbacks come only before FIN, so never on a stream a worker has. */
  lemma ReceiveOk(s: State, i: nat, cb: Callback, feeding: bool)
    requires Loose(s, i, feeding) && !s.streams[i].rx.fin && (cb == EndHeaders(true) ==> feeding)
    ensures Loose(Put(s, i, Receive(s.streams[i], cb)), i, feeding)
  {
    LoosePut(s, i, Receive(s.streams[i], cb), feeding);
  }

  lemma CallbackOk(s: State, i: nat, cb: Callback, feeding: bool)
    requires Loose(s, i, feeding) && Permitted(s.streams[i].rx, [cb], feeding)
    ensures Loose(OnCallback(s, i, cb), i, feeding)
  {
    assert [cb][0] == cb;
    match cb
    case StopSending => StopSendingOk(s, i, feeding);
    case ResetStream => ResetOk(s, i, feeding);
    case StreamClosed => StreamClosedOk(s, i, feeding);
    case _ => ReceiveOk(s, i, cb, feeding);
  }

  /** What no callback changes. */
  predicate Framed(s: State, r: State, i: nat)
    requires i < |s.streams|
  {
    && |r.streams| == |s.streams|
    && r == s.(streams := r.streams, pendingFree := r.pendingFree)
    && r.streams[i].rx.fin == s.streams[i].rx.fin
    && r.streams[i].rejected == s.streams[i].rejected
  }

  lemma QueueFreeFrame(s: State, i: nat, st: Stream)
    requires i < |s.streams| && st.rx.fin == s.streams[i].rx.fin && st.rejected == s.streams[i].rejected
    ensures Framed(s, Put(s, i, st), i) && Framed(s, QueueFree(Put(s, i, st), i), i)
    ensures QueueFree(Put(s, i, st), i).streams[i] == st.(qstream := None)
  {
    QueueFreeAt(Put(s, i, st), i);
  }

  lemma QueueFreeAt(s: State, i: nat)
    requires i < |s.streams|
    ensures QueueFree(s, i) == s.(streams := QueueFree(s, i).streams, pendingFree := QueueFree(s, i).pendingFree)
    ensures QueueFree(s, i).streams == s.streams[i := s.streams[i].(qstream := None)]
  {
  }

  lemma CallbackFrame(s: State, i: nat, cb: Callback)
    requires i < |s.streams|
    ensures Framed(s, OnCallback(s, i, cb), i)
  {
    var st := s.streams[i];
    match cb
    case StopSending =>
      QueueFreeFrame(s, i, CancelStream(st).(done := true, rx := st.rx.(bodyComplete := true)));
    case ResetStream => QueueFreeFrame(s, i, CancelStream(st).(done := true));
    case StreamClosed => CloseFrame(s, i);
    case _ => QueueFreeFrame(s, i, Receive(st, cb));
  }

  lemma CloseFrame(s: State, i: nat)
    requires i < |s.streams|
    ensures Framed(s, StreamClosedCb(s, i), i)
    ensures StreamClosedCb(s, i).streams[i].rx == s.streams[i].rx
  {
    var st := s.streams[i].(tx := CloseTx(s.streams[i].tx));
    QueueFreeFrame(s, i, st);
    QueueFreeFrame(s, i, CancelStream(st).(done := true));
  }

  lemma {:induction false} CallbacksOk(s: State, i: nat, cbs: seq<Callback>, feeding: bool)
    requires Loose(s, i, feeding) && Permitted(s.streams[i].rx, cbs, feeding)
    ensures Loose(OnCallbacks(s, i, cbs), i, feeding)
    ensures Framed(s, OnCallbacks(s, i, cbs), i)
    decreases |cbs|
  {
    if cbs != [] {
      assert Permitted(s.streams[i].rx, [cbs[0]], feeding);
      CallbackOk(s, i, cbs[0], feeding);
      CallbackFrame(s, i, cbs[0]);
      CallbacksOk(OnCallback(s, i, cbs[0]), i, cbs[1..], feeding);
    }
  }

  // ---- reads ----

  lemma Tighten(s: State, i: nat, feeding: bool)
    requires Loose(s, i, feeding) && LifeOk(s.streams[i], s.dead)
    ensures Inv(s)
  {
  }

  lemma Loosen(s: State, i: nat, feeding: bool)
    requires Inv(s) && i < |s.streams|
    ensures Loose(s, i, feeding)
  {
    assert StreamOk(s, s.streams[i]);
  }

  function Rejected(st: Stream): (r: Stream)
  {
    st.(done := true, rejected := true, rx := st.rx.(bodyComplete := true))
  }

  /** A rejected stream is counted once, and the count stops one past the limit. */
  lemma RejectOk(s: State, i: nat, feeding: bool)
    requires Loose(s, i, feeding) && !s.streams[i].rejected && s.streamErrors <= s.maxStreamErrors
    ensures Loose(Reject(s, i), i, feeding) && Reject(s, i).streams[i].done
  {
    CallbackOk(s, i, StreamClosed, feeding);
    CallbackFrame(s, i, StreamClosed);
    var s1 := OnCallback(s, i, StreamClosed);
    RejectedPut(s1, i, feeding);
    assert Reject(s, i) == CountError(Put(s1, i, Rejected(s1.streams[i])));
  }

  function CountError(s: State): (r: State)
  {
    var over := s.streamErrors + 1 > s.maxStreamErrors;
    s.(streamErrors := s.streamErrors + 1, dead := s.dead || over, excessive := s.excessive || over)
  }

  lemma RejectedPut(s: State, i: nat, feeding: bool)
    requires Loose(s, i, feeding) && !s.streams[i].rejected && s.streamErrors <= s.maxStreamErrors
    ensures Loose(CountError(Put(s, i, Rejected(s.streams[i]))), i, feeding)
  {
    var st := Rejected(s.streams[i]);
    PutTasks(s, i, st);
    PutCompleted(s, i, st);
    PutHandles(s, i, st);
    RejectedCounts(s, i);
    RejectedStreams(s, i, feeding);
  }

  lemma RejectedCounts(s: State, i: nat)
    requires CountsOk(s) && i < |s.streams| && !s.streams[i].rejected && s.streamErrors <= s.maxStreamErrors
    ensures CountsOk(CountError(Put(s, i, Rejected(s.streams[i]))))
  {
    SumUpdate(BlockedWeight, s.streams, i, Rejected(s.streams[i]));
    SumUpdate(RejectedWeight, s.streams, i, Rejected(s.streams[i]));
  }

  lemma RejectedStreams(s: State, i: nat, feeding: bool)
    requires LooseStreams(s, i, feeding)
    ensures LooseStreams(CountError(Put(s, i, Rejected(s.streams[i]))), i, feeding)
  {
    var r := CountError(Put(s, i, Rejected(s.streams[i])));
    forall j | 0 <= j < |r.streams| && j != i
      ensures StreamOk(r, r.streams[j])
    {
      assert StreamOk(s, s.streams[j]);
    }
  }

  lemma ReadStreamOk(s: State, i: nat, cbs: seq<Callback>, end: ReadEnd)
    requires Inv(s) && ReceivingEnabled(s, ReadStream(i, cbs, end))
    ensures Inv(ReceivingApply(s, ReadStream(i, cbs, end)))
  {
    Loosen(s, i, false);
    assert StreamOk(s, s.streams[i]);
    CallbacksOk(s, i, cbs, false);
    AfterReadOk(OnCallbacks(s, i, cbs), i, end);
  }

  lemma AfterReadOk(s: State, i: nat, end: ReadEnd)
    requires Loose(s, i, false) && !s.streams[i].rejected && !s.dead
    ensures Inv(AfterRead(s, i, end))
  {
    if end == Fatal {
      FatalOk(s, i);
    } else if end == Malformed || (s.streams[i].rx.malformed && !s.streams[i].done) {
      RejectOk(s, i, false);
      TightenDone(Reject(s, i), i, false);
    } else {
      Tighten(s, i, false);
    }
  }

  lemma FatalOk(s: State, i: nat)
    requires Loose(s, i, false)
    ensures Inv(Put(s, i, s.streams[i].(done := true)).(dead := true))
  {
    LoosePut(s, i, s.streams[i].(done := true), false);
    DieOk(Put(s, i, s.streams[i].(done := true)), i, false);
    TightenDone(Put(s, i, s.streams[i].(done := true)).(dead := true), i, false);
  }

  lemma DieOk(s: State, i: nat, feeding: bool)
    requires Loose(s, i, feeding)
    ensures Loose(s.(dead := true), i, feeding)
  {
    forall j | 0 <= j < |s.streams| && j != i
      ensures StreamOk(s.(dead := true), s.streams[j])
    {
      assert StreamOk(s, s.streams[j]);
    }
  }

  lemma TightenDone(s: State, i: nat, feeding: bool)
    requires Loose(s, i, feeding) && s.streams[i].done
    ensures Inv(s)
  {
    Tighten(s, i, feeding);
  }

  lemma FeedFinOk(s: State, i: nat, cbs: seq<Callback>, end: ReadEnd)
    requires Inv(s) && ReceivingEnabled(s, FeedFin(i, cbs, end))
    ensures Inv(ReceivingApply(s, FeedFin(i, cbs, end)))
  {
    Loosen(s, i, true);
    assert StreamOk(s, s.streams[i]);
    CallbacksOk(s, i, cbs, true);
    AfterFinOk(OnCallbacks(s, i, cbs), i, end);
  }

  lemma AfterFinOk(s: State, i: nat, end: ReadEnd)
    requires Loose(s, i, true) && !s.streams[i].rejected && !s.dead
    ensures Inv(AfterFin(s, i, end))
  {
    var s1 := if end == Fatal then s.(dead := true) else AfterRead(s, i, end);
    if end == Fatal {
      DieOk(s, i, true);
    } else if end == Malformed || (s.streams[i].rx.malformed && !s.streams[i].done) {
      RejectOk(s, i, true);
    }
    assert Loose(s1, i, true) && (s1.streams[i].rx.malformed ==> s1.streams[i].done || s1.dead);
    FinishedOk(s1, i);
  }

  lemma FinishedOk(s: State, i: nat)
    requires Loose(s, i, true) && (s.streams[i].rx.malformed ==> s.streams[i].done || s.dead)
    ensures Inv(Put(s, i, s.streams[i].(rx := s.streams[i].rx.(bodyComplete := true, fin := true))))
  {
    var st := s.streams[i].(rx := s.streams[i].rx.(bodyComplete := true, fin := true));
    FinishedStream(s.streams[i], s.dead);
    LoosePut(s, i, st, true);
    assert Put(s, i, st).streams[i] == st;
    Tighten(Put(s, i, st), i, true);
  }

  lemma FinishedStream(st: Stream, dead: bool)
    requires LooseLife(st, true) && (st.rx.malformed ==> st.done || dead)
    ensures var f := st.(rx := st.rx.(bodyComplete := true, fin := true));
            LifeOk(f, dead) && LooseLife(f, true) && SameLife(st, f)
  {
  }

  lemma NotifyOk(s: State, i: nat, cb: Callback)
    requires Inv(s) && ReceivingEnabled(s, Notify(i, cb))
    ensures Inv(ReceivingApply(s, Notify(i, cb)))
  {
    Loosen(s, i, false);
    assert StreamOk(s, s.streams[i]);
    CallbackOk(s, i, cb, false);
    NotifyMalformed(s, i, cb);
    Tighten(OnCallback(s, i, cb), i, false);
  }

  lemma NotifyMalformed(s: State, i: nat, cb: Callback)
    requires i < |s.streams| && (cb.StopSending? || cb.ResetStream? || cb.StreamClosed?)
    ensures OnCallback(s, i, cb).streams[i].rx.malformed == s.streams[i].rx.malformed
    ensures s.streams[i].done ==> OnCallback(s, i, cb).streams[i].done
    ensures OnCallback(s, i, cb).dead == s.dead
  {
    if cb.StopSending? {
      QueueFreeAt(Put(s, i, CancelStream(s.streams[i]).(done := true, rx := s.streams[i].rx.(bodyComplete := true))), i);
    } else if cb.StreamClosed? {
      ClosedMalformed(s, i);
    }
  }

  lemma ClosedMalformed(s: State, i: nat)
    requires i < |s.streams|
    ensures StreamClosedCb(s, i).streams[i].rx == s.streams[i].rx
    ensures s.streams[i].done ==> StreamClosedCb(s, i).streams[i].done
    ensures StreamClosedCb(s, i).dead == s.dead
  {
    QueueFreeAt(Put(s, i, CancelStream(s.streams[i].(tx := CloseTx(s.streams[i].tx))).(done := true)), i);
  }

  lemma ReceivingOk(s: State, a: ReceiveStep)
    requires Inv(s) && ReceivingEnabled(s, a)
    ensures Inv(ReceivingApply(s, a))
  {
    match a
    case Track(id) => TrackOk(s, id);
    case Refuse => RefuseOk(s);
    case ReadStream(i, cbs, end) => ReadStreamOk(s, i, cbs, end);
    case FeedFin(i, cbs, end) => FeedFinOk(s, i, cbs, end);
    case Notify(i, cb) => NotifyOk(s, i, cb);
  }

  // ---- runs ----

  lemma StepOk(s: State, a: Action)
    requires Inv(s) && Enabled(s, a)
    ensures Inv(Apply(s, a))
  {
    match a
    case Worker(w) => WorkerOk(s, w);
    case Receiving(r) => ReceivingOk(s, r);
    case Sending(t) => SendingOk(s, t);
    case Dispatching(d) => DispatchingOk(s, d);
    case Ending(e) => EndingOk(s, e);
  }

  /** `run` can be taken from `s` and ends in `r`. */
  ghost predicate Runs(s: State, run: seq<Action>, r: State)
    decreases |run|
  {
    if run == [] then r == s
    else Enabled(s, run[0]) && Runs(Apply(s, run[0]), run[1..], r)
  }

  /** Every state of every run is good. */
  lemma {:induction false} RunOk(s: State, run: seq<Action>, r: State)
    requires Inv(s) && Runs(s, run, r)
    ensures Inv(r)
    decreases |run|
  {
    if run != [] {
      StepOk(s, run[0]);
      RunOk(Apply(s, run[0]), run[1..], r);
    }
  }

  lemma {:induction false} OneMore(s0: State, run: seq<Action>, s: State, a: Action)
    requires Runs(s0, run, s) && Enabled(s, a)
    ensures Runs(s0, run + [a], Apply(s, a))
    decreases |run|
  {
    if run == [] {
      assert run + [a] == [a];
    } else {
      OneMore(Apply(s0, run[0]), run[1..], s, a);
      assert (run + [a])[1..] == run[1..] + [a];
    }
  }

  lemma {:induction false} RunsJoin(s: State, first: seq<Action>, m: State, second: seq<Action>, r: State)
    requires Runs(s, first, m) && Runs(m, second, r)
    ensures Runs(s, first + second, r)
    decreases |second|
  {
    if second == [] {
      assert first + second == first;
    } else {
      var a, rest := second[0], second[1..];
      OneMore(s, first, m, a);
      RunsJoin(s, first + [a], Apply(m, a), rest, r);
      SeqAssoc(first, a, rest, second);
    }
  }

  lemma SeqAssoc(first: seq<Action>, a: Action, rest: seq<Action>, second: seq<Action>)
    requires second == [a] + rest
    ensures (first + [a]) + rest == first + second
  {
  }
}
