/**
 A request worker (h3_request.c, stream_worker) among all the other threads: the event thread
 and the other workers may take any steps between two of its own.  Its steps are always
 possible, its stream is there until it lets go of it, and what it queues arrives in order.
 */
module RequestWorker {
  import opened Bytes
  import opened SendQueue
  import opened OutQueue
  import opened Transmit
  import opened SessionModel
  import opened SessionInvariant
  import opened SessionRecords
  import opened SessionTheorems
  import opened SessionSteps
  import opened EventThread
  import Capture = ResponseCapture

  predicate ByTask(a: Action, t: nat)
  {
    a.Worker? && a.w.task == t
  }

  // ---- every step but the task's own ----

  /** What holds for task t and its stream from `s` to `r`. */
  predicate TaskLeft(s: State, r: State, t: nat)
    requires t < |s.tasks| && s.tasks[t].stream < |s.streams|
  {
    && t < |r.tasks| && r.tasks[t] == s.tasks[t] && |s.streams| <= |r.streams|
    && LeftAlone(s.streams[s.tasks[t].stream], r.streams[s.tasks[t].stream])
  }

  lemma OtherWorkersLeave(s: State, w: WorkerStep, t: nat)
    requires Inv(s) && WorkerEnabled(s, w) && w.task != t && t < |s.tasks| && Touches(s.tasks[t])
    ensures s.tasks[t].stream < |s.streams| && TaskLeft(s, WorkerApply(s, w), t)
  {
    assert Held(s, s.tasks[t].stream);
    if Touches(s.tasks[w.task]) {
      assert s.tasks[w.task].stream != s.tasks[t].stream;
    }
  }

  lemma DispatchingLeaves(s: State, d: DispatchStep, t: nat)
    requires Inv(s) && DispatchingEnabled(s, d) && t < |s.tasks| && Touches(s.tasks[t])
    ensures s.tasks[t].stream < |s.streams| && TaskLeft(s, DispatchingApply(s, d), t)
  {
    var i := s.tasks[t].stream;
    assert Held(s, i) && !Reserving(s, i);
  }

  lemma {:induction false} EndingLeaves(s: State, e: EndStep, t: nat)
    requires Inv(s) && EndingEnabled(s, e) && t < |s.tasks| && Touches(s.tasks[t])
    ensures s.tasks[t].stream < |s.streams| && TaskLeft(s, EndingApply(s, e), t)
  {
    assert Held(s, s.tasks[t].stream);
    if e.Destroy? {
      SumBoundsMember(ActiveWeight, s.tasks, t);
    }
  }

  /** No step of another thread disturbs a task at work, its place or its stream. */
  lemma OthersLeave(s: State, a: Action, t: nat)
    requires Reachable(s) && Enabled(s, a) && !ByTask(a, t) && t < |s.tasks| && Touches(s.tasks[t])
    ensures s.tasks[t].stream < |s.streams| && TaskLeft(s, Apply(s, a), t)
  {
    ReachableOk(s);
    assert Held(s, s.tasks[t].stream);
    match a
    case Worker(w) => OtherWorkersLeave(s, w, t);
    case Receiving(r) =>
      ReceivingLeaves(s, r);
      ReceivingStays(s, r, t);
    case Sending(x) => SendingLeaves(s, x);
    case Dispatching(d) => DispatchingLeaves(s, d, t);
    case Ending(e) => EndingLeaves(s, e, t);
  }

  /** Task t is where it was, and the two limits the session was created with are the same. */
  predicate Stays(s: State, r: State, t: nat)
    requires t < |s.tasks|
  {
    && t < |r.tasks| && r.tasks[t] == s.tasks[t]
    && r.maxStreamErrors == s.maxStreamErrors && r.bufferSize == s.bufferSize
  }

  lemma WorkerStays(s: State, w: WorkerStep, t: nat)
    requires WorkerEnabled(s, w) && w.task != t && t < |s.tasks|
    ensures Stays(s, WorkerApply(s, w), t)
  {
    WorkerFrame(s, w);
  }

  lemma ReceivingStays(s: State, a: ReceiveStep, t: nat)
    requires ReceivingEnabled(s, a) && t < |s.tasks|
    ensures Stays(s, ReceivingApply(s, a), t)
  {
    ReceivingFrame(s, a);
  }

  lemma SendingStays(s: State, a: SendStep, t: nat)
    requires SendingEnabled(s, a) && t < |s.tasks|
    ensures Stays(s, SendingApply(s, a), t)
  {
  }

  lemma DispatchingStays(s: State, a: DispatchStep, t: nat)
    requires DispatchingEnabled(s, a) && t < |s.tasks|
    ensures Stays(s, DispatchingApply(s, a), t)
  {
  }

  lemma EndingStays(s: State, a: EndStep, t: nat)
    requires EndingEnabled(s, a) && t < |s.tasks|
    ensures Stays(s, EndingApply(s, a), t)
  {
  }

  lemma TaskStays(s: State, a: Action, t: nat)
    requires Enabled(s, a) && !ByTask(a, t) && t < |s.tasks|
    ensures Stays(s, Apply(s, a), t)
  {
    match a
    case Worker(w) => WorkerStays(s, w, t);
    case Receiving(r) => ReceivingStays(s, r, t);
    case Sending(x) => SendingStays(s, x, t);
    case Dispatching(d) => DispatchingStays(s, d, t);
    case Ending(e) => EndingStays(s, e, t);
  }

  // ---- the worker ----

  /** The session after a step some thread took. */
  method Adopt(session: Session, s: State)
    requires s.maxStreamErrors == session.maxStreamErrors && s.bufferSize == session.bufferSize
    modifies session
    ensures session.Model() == s
  {
    session.streams, session.blockedStreams := s.streams, s.blockedStreams;
    session.dead, session.excessive := s.dead, s.excessive;
    session.aborted, session.destroyed, session.streamErrors := s.aborted, s.destroyed, s.streamErrors;
    session.activeTasks, session.tasks, session.event := s.activeTasks, s.tasks, s.event;
    session.completed, session.pendingFree := s.completed, s.pendingFree;
    session.freed, session.handles := s.freed, s.handles;
  }

  /** One step of any thread but task t. */
  method OtherStep(session: Session, t: nat) returns (ghost run: seq<Action>)
    requires Reachable(session.Model()) && t < |session.tasks|
    modifies session
    ensures Goes(old(session.Model()), run, session.Model())
    ensures t < |session.tasks| && session.tasks[t] == old(session.tasks)[t]
    ensures old(Touches(session.tasks[t])) ==>
              old(session.tasks[t].stream < |session.streams|) && TaskLeft(old(session.Model()), session.Model(), t)
  {
    run := [];
    var a: Action := *;
    if Enabled(session.Model(), a) && !ByTask(a, t) {
      ghost var s := session.Model();
      GoesOne(s, a);
      TaskStays(s, a, t);
      if Touches(session.tasks[t]) {
        OthersLeave(s, a, t);
      }
      run := [a];
      Adopt(session, Apply(session.Model(), a));
    } else if Touches(session.tasks[t]) {
      TaskHasStream(session.Model(), t);
    }
  }

  lemma TaskHasStream(s: State, t: nat)
    requires Reachable(s) && t < |s.tasks|
    ensures s.tasks[t].stream < |s.streams|
  {
    ReachableOk(s);
  }

  lemma TaskLeftJoin(s: State, m: State, r: State, t: nat)
    requires t < |s.tasks| && s.tasks[t].stream < |s.streams| && TaskLeft(s, m, t) && TaskLeft(m, r, t)
    ensures TaskLeft(s, r, t)
  {
  }

  /** Any number of steps of the other threads. */
  method Others(session: Session, t: nat) returns (ghost run: seq<Action>)
    requires Reachable(session.Model()) && t < |session.tasks|
    modifies session
    ensures Goes(old(session.Model()), run, session.Model())
    ensures t < |session.tasks| && session.tasks[t] == old(session.tasks)[t]
    ensures old(Touches(session.tasks[t])) ==>
              old(session.tasks[t].stream < |session.streams|) && TaskLeft(old(session.Model()), session.Model(), t)
  {
    run := [];
    TaskHasStream(session.Model(), t);
    ghost var s := session.Model();
    var n: int := *;
    while n > 0
      invariant Goes(s, run, session.Model()) && t < |session.tasks| && session.tasks[t] == s.tasks[t]
      invariant Touches(s.tasks[t]) ==> TaskLeft(s, session.Model(), t)
      decreases n
    {
      ghost var before := session.Model();
      ghost var more := OtherStep(session, t);
      GoesJoin(s, run, before, more, session.Model());
      if Touches(s.tasks[t]) {
        TaskLeftJoin(s, before, session.Model(), t);
      }
      run := run + more;
      n := n - 1;
    }
  }

  /** A step of the task itself. */
  method Own(session: Session, w: WorkerStep) returns (ghost run: seq<Action>)
    requires Reachable(session.Model()) && WorkerEnabled(session.Model(), w)
    modifies session`streams, session`tasks, session`activeTasks
    ensures Goes(old(session.Model()), run, session.Model()) && session.Model() == WorkerApply(old(session.Model()), w)
  {
    GoesOne(session.Model(), Worker(w));
    WorkerFrame(session.Model(), w);
    run := [Worker(w)];
    var s := WorkerApply(session.Model(), w);
    session.streams, session.tasks, session.activeTasks := s.streams, s.tasks, s.activeTasks;
  }

  /** The task is running the request, and its stream is there to be used. */
  ghost predicate AtWork(s: State, t: nat)
  {
    && Reachable(s) && TaskAt(s, t, Running) && !s.destroyed
    && StreamOf(s, t).tracked && StreamOf(s, t).dispatched && !StreamOf(s, t).workerDone && Valid(StreamOf(s, t).tx.q)
  }

  lemma RunningIsAtWork(s: State, t: nat)
    requires Reachable(s) && t < |s.tasks| && s.tasks[t].pc == Running
    ensures AtWork(s, t)
  {
    ReachableOk(s);
    assert Held(s, s.tasks[t].stream);
    assert StreamOk(s, StreamOf(s, t));
  }

  /** The queue of the task's stream holds exactly `got`. */
  ghost predicate Holding(s: State, t: nat, got: seq<byte>)
  {
    AtWork(s, t) && Appended(StreamOf(s, t).tx.q) == got && Recorded(StreamOf(s, t).tx)
  }

  /**
   The same, and how far the response has come: while it is open only a cancellation can have
   completed its queue, afterwards it is complete, and until it is overrun nothing was queued
   after EOF.
   */
  ghost predicate Producing(s: State, t: nat, got: seq<byte>, p: Capture.Phase)
  {
    && Holding(s, t, got)
    && (p != Capture.Overrun ==> Sealed(StreamOf(s, t).tx))
    && (if p == Capture.Open then StreamOf(s, t).tx.q.complete ==> StreamOf(s, t).tx.q.cancelled
        else StreamOf(s, t).tx.q.complete)
  }

  /** A task that begins finds its stream's queue untouched. */
  lemma BeginsEmpty(s: State, t: nat)
    requires Reachable(s) && TaskAt(s, t, Starting)
    ensures Reachable(WorkerApply(s, Begin(t))) && Producing(WorkerApply(s, Begin(t)), t, [], Capture.Open)
    ensures !StreamOf(WorkerApply(s, Begin(t)), t).tx.q.submitted
  {
    var r := WorkerApply(s, Begin(t));
    StepReachable(s, Worker(Begin(t)));
    ReachableRecords(s);
    assert Untouched(s, s.tasks[t].stream);
    ReachableOk(r);
    RunningIsAtWork(r, t);
    assert StreamOk(r, StreamOf(r, t));
  }

  /** The session has no use for a response any more. */
  predicate Unwanted(s: State, t: nat)
    requires t < |s.tasks| && s.tasks[t].stream < |s.streams|
  {
    StreamOf(s, t).tx.q.cancelled || s.aborted || s.dead
  }

  /** The task still has the same stream, and its response was not submitted meanwhile. */
  predicate SameTask(s: State, r: State, t: nat)
  {
    Onward(s, r, t) && StreamOf(r, t).tx.q.submitted == StreamOf(s, t).tx.q.submitted
  }

  /**
   The task still has the same stream; a submission is not taken back, nobody comes to want the
   response again, and an unwanted one is not submitted.
   */
  predicate Onward(s: State, r: State, t: nat)
  {
    && t < |s.tasks| && s.tasks[t].stream < |s.streams| && t < |r.tasks| && r.tasks[t].stream < |r.streams|
    && r.tasks[t].stream == s.tasks[t].stream
    && (StreamOf(s, t).tx.q.submitted ==> StreamOf(r, t).tx.q.submitted)
    && (Unwanted(s, t) ==> Unwanted(r, t) && StreamOf(r, t).tx.q.submitted == StreamOf(s, t).tx.q.submitted)
  }

  lemma AbortedStays(s: State, a: Action)
    requires s.aborted && Enabled(s, a)
    ensures Apply(s, a).aborted
  {
    match a
    case Worker(w) => WorkerFrame(s, w);
    case Receiving(r) => ReceivingFrame(s, r);
    case Sending(t) => SendingFrame(s, t);
    case Dispatching(d) => DispatchingFrame(s, d);
    case Ending(e) => EndingFrame(s, e);
  }

  lemma {:induction false} OverStays(s: State, run: seq<Action>, r: State)
    requires Runs(s, run, r)
    ensures (s.aborted ==> r.aborted) && (s.dead ==> r.dead)
    decreases |run|
  {
    if run != [] {
      if s.aborted {
        AbortedStays(s, run[0]);
      }
      if s.dead {
        DeadStays(s, run[0]);
      }
      OverStays(Apply(s, run[0]), run[1..], r);
    }
  }

  /** The other threads run while the worker does not hold the lock; it finds what it queued as it left it. */
  method Wait(session: Session, t: nat, ghost got: seq<byte>, ghost p: Capture.Phase) returns (ghost run: seq<Action>)
    requires Producing(session.Model(), t, got, p)
    modifies session
    ensures Goes(old(session.Model()), run, session.Model()) && Producing(session.Model(), t, got, p)
    ensures SameTask(old(session.Model()), session.Model(), t)
  {
    run := Others(session, t);
    OverStays(old(session.Model()), run, session.Model());
    RunningIsAtWork(session.Model(), t);
  }

  lemma QueueStep(s: State, t: nat, got: seq<byte>, p: Capture.Phase, data: seq<byte>, n: nat)
    requires Producing(s, t, got, p) && WorkerEnabled(s, QueueBytes(t, data))
    requires n == ChunkLen(StreamOf(s, t).tx.q, data) && 0 < n
    ensures Reachable(WorkerApply(s, QueueBytes(t, data)))
    ensures Producing(WorkerApply(s, QueueBytes(t, data)), t, got + data[..n], Capture.Then(p, n))
    ensures SameTask(s, WorkerApply(s, QueueBytes(t, data)), t)
  {
    var r := WorkerApply(s, QueueBytes(t, data));
    StepReachable(s, Worker(QueueBytes(t, data)));
    RunningIsAtWork(r, t);
    PushKeeps(StreamOf(s, t).tx.q, data[..n]);
  }

  /** A locked round of append with room in the queue: at least one byte is queued. */
  method QueueSome(session: Session, t: nat, data: seq<byte>, ghost got: seq<byte>, ghost p: Capture.Phase)
    returns (n: nat, ghost run: seq<Action>)
    requires Producing(session.Model(), t, got, p) && WorkerEnabled(session.Model(), QueueBytes(t, data))
    modifies session`streams, session`tasks, session`activeTasks
    ensures Goes(old(session.Model()), run, session.Model())
    ensures 0 < n <= |data| && Producing(session.Model(), t, got + data[..n], Capture.Then(p, n))
    ensures SameTask(old(session.Model()), session.Model(), t)
  {
    var q := session.streams[session.tasks[t].stream].tx.q;
    var room := q.limit - Buffered(q);
    n := if |data| > room then room else |data|;
    if n > STREAM_CHUNK_BYTES {
      n := STREAM_CHUNK_BYTES;
    }
    QueueStep(session.Model(), t, got, p, data, n);
    run := Own(session, QueueBytes(t, data));
  }

  lemma CancelStep(s: State, t: nat, got: seq<byte>, p: Capture.Phase, w: WorkerStep)
    requires Producing(s, t, got, p) && WorkerEnabled(s, w)
    requires (w == GiveUp(t) || w == SubmitRefused(t) || (w.Submit? && w.task == t))
    ensures Reachable(WorkerApply(s, w)) && Producing(WorkerApply(s, w), t, got, p)
  {
    var r := WorkerApply(s, w);
    StepReachable(s, Worker(w));
    RunningIsAtWork(r, t);
  }

  /** A step of the task that queues no body bytes. */
  method Quietly(session: Session, t: nat, w: WorkerStep, ghost got: seq<byte>, ghost p: Capture.Phase)
    returns (ghost run: seq<Action>)
    requires Producing(session.Model(), t, got, p) && WorkerEnabled(session.Model(), w)
    requires w == GiveUp(t) || w == SubmitRefused(t) || (w.Submit? && w.task == t)
    modifies session`streams, session`tasks, session`activeTasks
    ensures Goes(old(session.Model()), run, session.Model()) && Producing(session.Model(), t, got, p)
    ensures session.Model() == WorkerApply(old(session.Model()), w)
  {
    CancelStep(session.Model(), t, got, p, w);
    run := Own(session, w);
  }

  /** Append's inner loop: while the queue is full the worker waits, and a wait may fail. */
  method WaitForRoom(session: Session, t: nat, ghost got: seq<byte>, ghost p: Capture.Phase)
    returns (status: Status, ghost run: seq<Action>)
    requires Producing(session.Model(), t, got, p)
    modifies session
    ensures Goes(old(session.Model()), run, session.Model()) && Producing(session.Model(), t, got, p)
    ensures SameTask(old(session.Model()), session.Model(), t)
    ensures status == Success || status == Aborted || status == WaitFailed || status == StillWaiting
    ensures status == Success ==>
              !Unwanted(session.Model(), t) && var q := StreamOf(session.Model(), t).tx.q; Buffered(q) < q.limit
    ensures status == Aborted ==> Unwanted(session.Model(), t)
  {
    run := Wait(session, t, got, p);
    var q := session.streams[session.tasks[t].stream].tx.q;
    if Buffered(q) >= q.limit && !q.cancelled && !session.aborted && !session.dead {
      var failed: bool := *;
      ghost var before := session.Model();
      ghost var more := Wait(session, t, got, p);
      GoesJoin(old(session.Model()), run, before, more, session.Model());
      run := run + more;
      if failed {
        return WaitFailed, run;
      }
      q := session.streams[session.tasks[t].stream].tx.q;
    }
    if q.cancelled || session.aborted || session.dead {
      return Aborted, run;
    }
    status := if Buffered(q) >= q.limit then StillWaiting else Success;
  }

  /** The ways in which an append ends. */
  predicate AppendEnds(status: Status)
  {
    status != ReadFailed && status != NotStarted
  }

  /** The bytes are queued, or there is no memory for them and the response is given up. */
  method QueueOrGiveUp(session: Session, t: nat, data: seq<byte>, ghost got: seq<byte>, ghost p: Capture.Phase)
    returns (status: Status, n: nat, ghost run: seq<Action>)
    requires Producing(session.Model(), t, got, p) && data != [] && !Unwanted(session.Model(), t)
    requires var q := StreamOf(session.Model(), t).tx.q; Buffered(q) < q.limit
    modifies session`streams, session`tasks, session`activeTasks
    ensures Goes(old(session.Model()), run, session.Model()) && SameTask(old(session.Model()), session.Model(), t)
    ensures n <= |data| && Producing(session.Model(), t, got + data[..n], Capture.Then(p, n))
    ensures if status == Success then 0 < n
            else n == 0 && (status == NoMemory || status == General) && Unwanted(session.Model(), t)
  {
    var noMemory: bool, tooLong: bool := *, *;
    if noMemory || tooLong {
      assert got + data[..0] == got;
      run := Quietly(session, t, GiveUp(t), got, p);
      status, n := if tooLong then General else NoMemory, 0;
    } else {
      n, run := QueueSome(session, t, data, got, p);
      status := Success;
    }
  }

  /** One turn of append: wait for room, then queue some bytes, or find out that there is no point. */
  method AppendTurn(session: Session, t: nat, data: seq<byte>, ghost got: seq<byte>, ghost p: Capture.Phase)
    returns (status: Status, n: nat, ghost run: seq<Action>)
    requires Producing(session.Model(), t, got, p) && data != []
    modifies session
    ensures Goes(old(session.Model()), run, session.Model()) && SameTask(old(session.Model()), session.Model(), t)
    ensures n <= |data| && Producing(session.Model(), t, got + data[..n], Capture.Then(p, n))
    ensures AppendEnds(status) && (status == Success <==> 0 < n)
    ensures status == Aborted || status == NoMemory || status == General ==> Unwanted(session.Model(), t)
  {
    n := 0;
    assert got + data[..0] == got;
    status, run := WaitForRoom(session, t, got, p);
    if status != Success {
      return;
    }
    ghost var before, more := session.Model(), [];
    status, n, more := QueueOrGiveUp(session, t, data, got, p);
    GoesJoin(old(session.Model()), run, before, more, session.Model());
    run := run + more;
  }

  /** The first `offset` bytes of the data are queued behind `got`. */
  ghost predicate Appending(s: State, run: seq<Action>, r: State, t: nat, got: seq<byte>, data: seq<byte>, offset: nat,
                            p: Capture.Phase)
  {
    && offset <= |data| && Goes(s, run, r) && SameTask(s, r, t)
    && Producing(r, t, got + data[..offset], Capture.Then(p, offset))
  }

  lemma AppendingNone(s: State, t: nat, got: seq<byte>, data: seq<byte>, p: Capture.Phase)
    requires Producing(s, t, got, p)
    ensures Appending(s, [], s, t, got, data, 0, p)
  {
    assert got + data[..0] == got;
  }

  lemma AppendedMore(s: State, run: seq<Action>, m: State, more: seq<Action>, r: State, t: nat, got: seq<byte>,
                     data: seq<byte>, offset: nat, n: nat, p: Capture.Phase)
    requires Appending(s, run, m, t, got, data, offset, p) && offset + n <= |data|
    requires Goes(m, more, r) && SameTask(m, r, t)
    requires Producing(r, t, got + data[..offset] + data[offset..][..n], Capture.Then(Capture.Then(p, offset), n))
    ensures Appending(s, run + more, r, t, got, data, offset + n, p)
  {
    GoesJoin(s, run, m, more, r);
    Contiguous(got, data, offset, n);
  }

  /** One more turn of an append that began in state `s`. */
  method AppendNext(session: Session, t: nat, data: seq<byte>, offset: nat, ghost got: seq<byte>,
                    ghost p: Capture.Phase, ghost s: State, ghost run: seq<Action>)
    returns (status: Status, n: nat, ghost run': seq<Action>)
    requires Appending(s, run, session.Model(), t, got, data, offset, p) && offset < |data|
    modifies session
    ensures Appending(s, run', session.Model(), t, got, data, offset + n, p)
    ensures AppendEnds(status) && (status == Success <==> 0 < n)
    ensures status == Aborted || status == NoMemory || status == General ==> Unwanted(session.Model(), t)
  {
    ghost var more;
    status, n, more := AppendTurn(session, t, data[offset..], got + data[..offset], Capture.Then(p, offset));
    AppendedMore(s, run, old(session.Model()), more, session.Model(), t, got, data, offset, n, p);
    run' := run + more;
  }

  /** h3_stream_response_append by the worker, among all other threads. */
  method Append(session: Session, t: nat, data: seq<byte>, ghost got: seq<byte>, ghost p: Capture.Phase)
    returns (status: Status, ghost queued: nat, ghost run: seq<Action>)
    requires Producing(session.Model(), t, got, p)
    modifies session
    ensures Goes(old(session.Model()), run, session.Model()) && SameTask(old(session.Model()), session.Model(), t)
    ensures queued <= |data| && Producing(session.Model(), t, got + data[..queued], Capture.Then(p, queued))
    ensures AppendEnds(status) && (status == Success <==> queued == |data|)
    ensures status == Aborted || status == NoMemory || status == General ==> Unwanted(session.Model(), t)
  {
    var offset := 0;
    run := [];
    AppendingNone(session.Model(), t, got, data, p);
    while offset < |data|
      invariant Appending(old(session.Model()), run, session.Model(), t, got, data, offset, p)
      decreases |data| - offset
    {
      var n;
      status, n, run := AppendNext(session, t, data, offset, got, p, old(session.Model()), run);
      offset := offset + n;
      if status != Success {
        return status, offset, run;
      }
    }
    status, queued := Success, offset;
  }

  /**
   submit_response_nva: a response is submitted at most once; a session that is gone takes none,
   and one nghttp3 refuses is cancelled.
   */
  method SubmitResponse(session: Session, t: nat, header: nat, ghost got: seq<byte>, ghost p: Capture.Phase)
    returns (ok: bool, ghost run: seq<Action>)
    requires Producing(session.Model(), t, got, p) && 0 < header
    modifies session`streams, session`tasks, session`activeTasks
    ensures Goes(old(session.Model()), run, session.Model()) && Producing(session.Model(), t, got, p)
    ensures session.tasks[t] == old(session.tasks)[t] && Onward(old(session.Model()), session.Model(), t)
    ensures old(StreamOf(session.Model(), t).tx.q.submitted) ==> ok && run == []
    ensures !old(StreamOf(session.Model(), t).tx.q.submitted) && old(Unwanted(session.Model(), t)) ==> !ok && run == []
    ensures ok == StreamOf(session.Model(), t).tx.q.submitted
    ensures !ok ==> Unwanted(session.Model(), t)
  {
    run := [];
    var st := session.streams[session.tasks[t].stream];
    if st.tx.q.submitted {
      return true, [];
    }
    if st.tx.q.cancelled || session.aborted || session.dead {
      return false, [];
    }
    var refused: bool := *;
    if refused || !st.tx.open {
      run := Quietly(session, t, SubmitRefused(t), got, p);
      return false, run;
    }
    run := Quietly(session, t, Submit(t, header), got, p);
    ok := true;
  }

  lemma CompleteStep(s: State, t: nat, got: seq<byte>, p: Capture.Phase)
    requires Producing(s, t, got, p) && WorkerEnabled(s, Complete(t))
    ensures Reachable(WorkerApply(s, Complete(t))) && Producing(WorkerApply(s, Complete(t)), t, got, Capture.End(p))
  {
    StepReachable(s, Worker(Complete(t)));
    RunningIsAtWork(WorkerApply(s, Complete(t)), t);
  }

  /** h3_stream_response_complete, at an end-of-stream bucket or at the end of the request. */
  method CompleteResponse(session: Session, t: nat, ghost got: seq<byte>, ghost p: Capture.Phase)
    returns (ghost run: seq<Action>)
    requires Producing(session.Model(), t, got, p)
    modifies session
    ensures Goes(old(session.Model()), run, session.Model())
    ensures Producing(session.Model(), t, got, Capture.End(p)) && StreamOf(session.Model(), t).tx.q.complete
    ensures SameTask(old(session.Model()), session.Model(), t)
  {
    run := Wait(session, t, got, p);
    ghost var before := session.Model();
    CompleteStep(before, t, got, p);
    ghost var more := Own(session, Complete(t));
    GoesJoin(old(session.Model()), run, before, more, session.Model());
    run := run + more;
  }

  // ---- streaming: brigades go straight into the queue ----

  /** What has become of streaming `f` from phase p: all of it is queued, or the first part and then it stopped. */
  ghost predicate Outcome(p: Capture.Phase, f: seq<Capture.Bucket>, done: seq<byte>, q: Capture.Phase, status: Status,
                          submitted: bool)
  {
    if status == Success then Capture.Streams(p, f, done, q, [])
    else
      && done <= Capture.Whole(f)
      && (status == ReadFailed ==> submitted && !Capture.AllRead(f) && done == Capture.Before(f))
      && (submitted && done == Capture.Whole(f) ==> status == ReadFailed)
      && Capture.Upto(q, Capture.Fate(p, f))
  }

  lemma OutcomeOn(p: Capture.Phase, f: seq<Capture.Bucket>, done: seq<byte>, q: Capture.Phase, g: seq<Capture.Bucket>,
                  c: seq<byte>, r: Capture.Phase, status: Status, submitted: bool)
    requires Capture.Streams(p, f, done, q, g) && Outcome(q, g, c, r, status, submitted)
    ensures Outcome(p, f, done + c, r, status, submitted)
  {
    Assoc(done, c, Capture.Whole([]));
    Capture.SamePrefix(done, c, Capture.Whole(g));
  }

  lemma StreamsJoin(p: Capture.Phase, f: seq<Capture.Bucket>, done: seq<byte>, q: Capture.Phase, g: seq<Capture.Bucket>,
                    c: seq<byte>, r: Capture.Phase, h: seq<Capture.Bucket>)
    requires Capture.Streams(p, f, done, q, g) && Capture.Streams(q, g, c, r, h)
    ensures Capture.Streams(p, f, done + c, r, h)
  {
    Assoc(done, c, Capture.Whole(h));
    Assoc(done, c, Capture.Before(h));
  }

  /** One piece of a body: the headers go first. */
  method StreamPiece(session: Session, t: nat, header: nat, data: seq<byte>, ghost got: seq<byte>,
                     ghost p: Capture.Phase)
    returns (status: Status, ghost queued: nat, ghost run: seq<Action>)
    requires Producing(session.Model(), t, got, p) && 0 < header
    modifies session
    ensures Goes(old(session.Model()), run, session.Model()) && Onward(old(session.Model()), session.Model(), t)
    ensures queued <= |data| && Producing(session.Model(), t, got + data[..queued], Capture.Then(p, queued))
    ensures AppendEnds(status) && (status == Success ==> queued == |data|)
    ensures StreamOf(session.Model(), t).tx.q.submitted && queued == |data| ==> status == Success
    ensures !StreamOf(session.Model(), t).tx.q.submitted ==>
              status == Aborted && queued == 0 && Unwanted(session.Model(), t)
  {
    var ok;
    queued := 0;
    assert got + data[..0] == got;
    ok, run := SubmitResponse(session, t, header, got, p);
    if !ok {
      return Aborted, 0, run;
    }
    ghost var before, more := session.Model(), [];
    status, queued, more := Append(session, t, data, got, p);
    GoesJoin(old(session.Model()), run, before, more, session.Model());
    run := run + more;
  }

  /** A piece of which not all could be queued. */
  lemma PieceStops(p: Capture.Phase, f: seq<Capture.Bucket>, n: nat, status: Status, submitted: bool)
    requires f != [] && f[0].Data? && n <= |Capture.FirstPiece(f)| && status != Success && status != ReadFailed
    requires submitted ==> n < |Capture.FirstPiece(f)|
    ensures Outcome(p, f, Capture.FirstPiece(f)[..n], Capture.Then(p, n), status, submitted)
  {
    var c := Capture.FirstPiece(f);
    Capture.PieceFirst(f);
    Capture.PieceFate(p, f);
    Capture.FateGrows(p, f);
    Capture.FateGrows(Capture.Then(p, |c|), Capture.AfterRead(f));
    assert c[..n] <= c <= Capture.Whole(f);
  }

  /** The first piece of a data bucket, of which n bytes were queued. */
  lemma PieceTurned(p: Capture.Phase, bb: seq<Capture.Bucket>, n: nat, status: Status, submitted: bool)
    requires bb != [] && bb[0].Data? && n <= |Capture.FirstPiece(bb)| && status != ReadFailed
    requires status == Success ==> n == |Capture.FirstPiece(bb)|
    requires submitted && n == |Capture.FirstPiece(bb)| ==> status == Success
    ensures Took(p, Capture.Seen(false, bb), Capture.FirstPiece(bb)[..n], Capture.Then(p, n), status, submitted,
                 Capture.Seen(false, Capture.AfterRead(bb)))
  {
    var f := Capture.Seen(false, bb);
    Capture.SeenAfterRead(bb);
    if status == Success {
      Capture.StreamsPiece(p, f, [], p, f);
      assert [] + Capture.FirstPiece(bb) == Capture.FirstPiece(bb)[..n];
    } else {
      PieceStops(p, f, n, status, submitted);
    }
  }

  /** What one turn does to the buckets `f`: `c` is queued and `g` is left, or it stops there. */
  ghost predicate Took(p: Capture.Phase, f: seq<Capture.Bucket>, c: seq<byte>, q: Capture.Phase, status: Status,
                       submitted: bool, g: seq<Capture.Bucket>)
  {
    if status == Success then Capture.Streams(p, f, c, q, g) else Outcome(p, f, c, q, status, submitted)
  }

  /** A bucket that is not data: nothing is queued. */
  lemma MarkTurned(p: Capture.Phase, f: seq<Capture.Bucket>, status: Status, submitted: bool)
    requires f != [] && !f[0].Data?
    requires status == Success ==> !f[0].Unreadable?
    requires status == ReadFailed ==> submitted && f[0].Unreadable?
    requires status != Success && status != ReadFailed ==> !submitted
    ensures Took(p, f, [], if status == Success then Capture.Step(p, f[0]) else p, status, submitted, f[1..])
  {
    if status == Success {
      Capture.StreamsPast(p, f, [], p, f);
    } else {
      Capture.FateGrows(p, f);
    }
  }

  /** No body without headers, and no failure to submit them without a reason. */
  ghost predicate InOrder(s: State, t: nat, c: seq<byte>, status: Status)
    requires t < |s.tasks| && s.tasks[t].stream < |s.streams|
  {
    && status != NotStarted && (c != [] ==> StreamOf(s, t).tx.q.submitted)
    && (status != Success && !StreamOf(s, t).tx.q.submitted ==> Unwanted(s, t))
  }

  /** A data bucket: one piece of it is read and queued. */
  method DataTurn(session: Session, t: nat, header: nat, bb: seq<Capture.Bucket>, ghost got: seq<byte>,
                  ghost p: Capture.Phase)
    returns (status: Status, ghost c: seq<byte>, ghost q: Capture.Phase, ghost run: seq<Action>)
    requires Producing(session.Model(), t, got, p) && 0 < header && bb != [] && bb[0].Data?
    modifies session
    ensures Goes(old(session.Model()), run, session.Model()) && Onward(old(session.Model()), session.Model(), t)
    ensures Producing(session.Model(), t, got + c, q) && InOrder(session.Model(), t, c, status)
    ensures Took(p, Capture.Seen(false, bb), c, q, status, StreamOf(session.Model(), t).tx.q.submitted,
                 Capture.Seen(false, Capture.AfterRead(bb)))
  {
    var data := Capture.FirstPiece(bb);
    ghost var n;
    status, n, run := StreamPiece(session, t, header, data, got, p);
    c, q := data[..n], Capture.Then(p, n);
    PieceTurned(p, bb, n, status, StreamOf(session.Model(), t).tx.q.submitted);
  }

  /** A bucket that cannot be read ends the request's output. */
  method UnreadableTurn(session: Session, t: nat, header: nat, ghost f: seq<Capture.Bucket>, ghost got: seq<byte>,
                        ghost p: Capture.Phase)
    returns (status: Status, ghost run: seq<Action>)
    requires Producing(session.Model(), t, got, p) && 0 < header && f != [] && f[0].Unreadable?
    modifies session
    ensures Goes(old(session.Model()), run, session.Model()) && Onward(old(session.Model()), session.Model(), t)
    ensures Producing(session.Model(), t, got, p) && InOrder(session.Model(), t, [], status)
    ensures status != Success && Outcome(p, f, [], p, status, StreamOf(session.Model(), t).tx.q.submitted)
  {
    var ok;
    ok, run := SubmitResponse(session, t, header, got, p);
    status := if ok then ReadFailed else Aborted;
    MarkTurned(p, f, status, ok);
  }

  /** An end-of-stream or flush bucket: the headers go out, and at the end of the stream the response is complete. */
  method MarkTurn(session: Session, t: nat, header: nat, eos: bool, ghost f: seq<Capture.Bucket>, ghost got: seq<byte>,
                  ghost p: Capture.Phase)
    returns (status: Status, ghost q: Capture.Phase, ghost run: seq<Action>)
    requires Producing(session.Model(), t, got, p) && 0 < header
    requires f != [] && if eos then f[0].Eos? else f[0].Flush?
    modifies session
    ensures Goes(old(session.Model()), run, session.Model()) && Onward(old(session.Model()), session.Model(), t)
    ensures Producing(session.Model(), t, got, q) && InOrder(session.Model(), t, [], status)
    ensures Took(p, f, [], q, status, StreamOf(session.Model(), t).tx.q.submitted, f[1..])
  {
    var ok;
    ok, run := SubmitResponse(session, t, header, got, p);
    status, q := if ok then Success else Aborted, if ok then Capture.Step(p, f[0]) else p;
    MarkTurned(p, f, status, ok);
    if ok && eos {
      ghost var before := session.Model();
      ghost var more := CompleteResponse(session, t, got, p);
      GoesJoin(old(session.Model()), run, before, more, session.Model());
      run := run + more;
    }
  }

  /** The bucket the filter is at, and the brigade it goes on with. */
  method BucketTurn(session: Session, t: nat, header: nat, headerOnly: bool, bb: seq<Capture.Bucket>,
                    ghost got: seq<byte>, ghost p: Capture.Phase)
    returns (status: Status, next: seq<Capture.Bucket>, ghost c: seq<byte>, ghost q: Capture.Phase,
             ghost run: seq<Action>)
    requires Producing(session.Model(), t, got, p) && 0 < header && bb != [] && !bb[0].Error?
    modifies session
    ensures Goes(old(session.Model()), run, session.Model()) && Onward(old(session.Model()), session.Model(), t)
    ensures Producing(session.Model(), t, got + c, q) && InOrder(session.Model(), t, c, status)
    ensures Took(p, Capture.Seen(headerOnly, bb), c, q, status, StreamOf(session.Model(), t).tx.q.submitted,
                 Capture.Seen(headerOnly, next))
    ensures Capture.Effort(next) < Capture.Effort(bb)
  {
    ghost var f := Capture.Seen(headerOnly, bb);
    next, c, q, status, run := bb[1..], [], p, Success, [];
    assert got + [] == got;
    if bb[0].Data? && !headerOnly {
      Capture.ReadTakesFirst(bb);
      next := Capture.AfterRead(bb);
      status, c, q, run := DataTurn(session, t, header, bb, got, p);
    } else if bb[0].Unreadable? && !headerOnly {
      status, run := UnreadableTurn(session, t, header, f, got, p);
    } else if bb[0].Eos? || bb[0].Flush? {
      assert f[1..] == Capture.Seen(headerOnly, bb[1..]);
      status, q, run := MarkTurn(session, t, header, bb[0].Eos?, f, got, p);
    } else if bb[0].Other? {
      assert f[1..] == Capture.Seen(headerOnly, bb[1..]);
      MarkTurned(p, f, Success, true);
    }
  }

  /**
   h3_filter_out_proto for one brigade in streaming mode: all that is seen of it is queued behind
   the headers, or the first part of it and then a failure is reported.
   */
  method StreamBrigade(session: Session, t: nat, header: nat, headerOnly: bool, bb: seq<Capture.Bucket>,
                       ghost got: seq<byte>, ghost p: Capture.Phase)
    returns (status: Status, ghost done: seq<byte>, ghost q: Capture.Phase, ghost run: seq<Action>)
    requires Producing(session.Model(), t, got, p) && 0 < header
    modifies session
    ensures Goes(old(session.Model()), run, session.Model()) && Onward(old(session.Model()), session.Model(), t)
    ensures Producing(session.Model(), t, got + done, q) && InOrder(session.Model(), t, done, status)
    ensures Outcome(p, Capture.Seen(headerOnly, bb), done, q, status, StreamOf(session.Model(), t).tx.q.submitted)
  {
    var rest := bb;
    ghost var f := Capture.Seen(headerOnly, bb);
    status, done, q, run := Success, [], p, [];
    assert got + [] == got;
    while rest != [] && !rest[0].Error?
      invariant Goes(old(session.Model()), run, session.Model()) && Onward(old(session.Model()), session.Model(), t)
      invariant Producing(session.Model(), t, got + done, q) && InOrder(session.Model(), t, done, Success)
      invariant Capture.Streams(p, f, done, q, Capture.Seen(headerOnly, rest)) && status == Success
      decreases Capture.Effort(rest)
    {
      ghost var before, g := session.Model(), Capture.Seen(headerOnly, rest);
      ghost var c, r, more;
      status, rest, c, r, more := BucketTurn(session, t, header, headerOnly, rest, got + done, q);
      GoesJoin(old(session.Model()), run, before, more, session.Model());
      Assoc(got, done, c);
      run := run + more;
      if status != Success {
        OutcomeOn(p, f, done, q, g, c, r, status, StreamOf(session.Model(), t).tx.q.submitted);
        done, q := done + c, r;
        return;
      }
      StreamsJoin(p, f, done, q, g, c, r, Capture.Seen(headerOnly, rest));
      done, q := done + c, r;
    }
  }

  // ---- brigade after brigade ----

  /** Whether a brigade whose passing ended with `status` is queued whole; an unreadable bucket may have no bytes. */
  predicate QueuedWhole(headerOnly: bool, bb: seq<Capture.Bucket>, status: Status)
  {
    var f := Capture.Seen(headerOnly, bb);
    status == Success || (status == ReadFailed && Capture.Before(f) == Capture.Whole(f))
  }

  /** How each of the brigades passed so far ended; after a failure the handlers may stop or go on. */
  predicate AllQueuedWhole(headerOnly: bool, bbs: seq<seq<Capture.Bucket>>, told: seq<Status>)
  {
    |told| <= |bbs| && forall k | 0 <= k < |told| :: QueuedWhole(headerOnly, bbs[k], told[k])
  }

  /** No brigade was passed on after one that failed. */
  predicate Heeded(told: seq<Status>)
  {
    forall k | 0 <= k < |told| - 1 :: told[k] == Success
  }

  /** What the brigades passed so far, which mean `whole`, have left in the queue, unless the response was refused. */
  ghost predicate Left(headerOnly: bool, bbs: seq<seq<Capture.Bucket>>, told: seq<Status>, got: seq<byte>,
                       whole: seq<byte>, refused: bool)
  {
    && |got| <= |whole| && (Heeded(told) ==> got <= whole)
    && (Heeded(told) && (told == [] || told[|told| - 1] == Success) ==> got == whole)
    && (refused || (got == whole <==> AllQueuedWhole(headerOnly, bbs, told)))
  }

  ghost predicate Passed(headerOnly: bool, bbs: seq<seq<Capture.Bucket>>, told: seq<Status>, got: seq<byte>,
                         q: Capture.Phase, refused: bool)
  {
    && |told| <= |bbs|
    && Left(headerOnly, bbs, told, got, Capture.Whole(Capture.SeenAll(headerOnly, bbs[..|told|])), refused)
    && Capture.Upto(q, Capture.FateAll(headerOnly, bbs[..|told|]))
  }

  /** A brigade that is passed adds all it has, or a part of it that is all exactly if it is full. */
  lemma OutcomeQueued(p: Capture.Phase, headerOnly: bool, bb: seq<Capture.Bucket>, c: seq<byte>, q: Capture.Phase,
                    status: Status, submitted: bool)
    requires Outcome(p, Capture.Seen(headerOnly, bb), c, q, status, submitted)
    ensures c <= Capture.Whole(Capture.Seen(headerOnly, bb))
    ensures Capture.Upto(q, Capture.Fate(p, Capture.Seen(headerOnly, bb)))
    ensures submitted || status == Success ==>
              (c == Capture.Whole(Capture.Seen(headerOnly, bb)) <==> QueuedWhole(headerOnly, bb, status))
    ensures status == Success ==> c == Capture.Whole(Capture.Seen(headerOnly, bb))
  {
    assert c + Capture.Whole([]) == c;
  }

  lemma LeftOne(headerOnly: bool, bbs: seq<seq<Capture.Bucket>>, told: seq<Status>, got: seq<byte>, x: seq<byte>,
                refused: bool, c: seq<byte>, y: seq<byte>, status: Status, submitted: bool)
    requires Left(headerOnly, bbs, told, got, x, refused) && |told| < |bbs| && c <= y && (status == Success ==> c == y)
    requires submitted || status == Success ==> (c == y <==> QueuedWhole(headerOnly, bbs[|told|], status))
    ensures Left(headerOnly, bbs, told + [status], got + c, x + y, refused || (status != Success && !submitted))
  {
    TellOne(headerOnly, bbs, told, status);
    Pieced(got, x, c, y);
  }

  lemma PassedOne(headerOnly: bool, bbs: seq<seq<Capture.Bucket>>, told: seq<Status>, got: seq<byte>, q: Capture.Phase,
                  refused: bool, c: seq<byte>, r: Capture.Phase, status: Status, submitted: bool)
    requires Passed(headerOnly, bbs, told, got, q, refused) && |told| < |bbs|
    requires Outcome(q, Capture.Seen(headerOnly, bbs[|told|]), c, r, status, submitted)
    ensures Passed(headerOnly, bbs, told + [status], got + c, r, refused || (status != Success && !submitted))
  {
    var k := |told|;
    var f, g := Capture.SeenAll(headerOnly, bbs[..k]), Capture.Seen(headerOnly, bbs[k]);
    OutcomeQueued(q, headerOnly, bbs[k], c, r, status, submitted);
    LeftOne(headerOnly, bbs, told, got, Capture.Whole(f), refused, c, Capture.Whole(g), status, submitted);
    assert bbs[..k + 1][..k] == bbs[..k] && |told + [status]| == k + 1;
    Capture.WholeJoined(f, g);
    Capture.FateMonotone(q, Capture.FateAll(headerOnly, bbs[..k]), g);
  }

  lemma TellOne(headerOnly: bool, bbs: seq<seq<Capture.Bucket>>, told: seq<Status>, status: Status)
    requires |told| < |bbs|
    ensures AllQueuedWhole(headerOnly, bbs, told + [status]) <==>
            AllQueuedWhole(headerOnly, bbs, told) && QueuedWhole(headerOnly, bbs[|told|], status)
    ensures Heeded(told + [status]) <==> Heeded(told) && (told == [] || told[|told| - 1] == Success)
  {
    var all := told + [status];
    assert all[|told|] == status && forall k | 0 <= k < |told| :: all[k] == told[k];
  }

  lemma Pieced(a: seq<byte>, x: seq<byte>, b: seq<byte>, y: seq<byte>)
    requires |a| <= |x| && b <= y
    ensures a + b == x + y <==> a == x && b == y
    ensures a == x ==> a + b <= x + y
  {
    if a + b == x + y {
      assert |a| == |x|;
      assert (a + b)[..|a|] == a && (x + y)[..|x|] == x;
      assert (a + b)[|a|..] == b && (x + y)[|x|..] == y;
    }
  }

  /** The response was refused: it is unwanted, and will not be submitted. */
  predicate Refused(s: State, t: nat)
    requires t < |s.tasks| && s.tasks[t].stream < |s.streams|
  {
    Unwanted(s, t) && !StreamOf(s, t).tx.q.submitted
  }

  /** A request that began in state `s` and has passed on some of its brigades. */
  ghost predicate Passing(s: State, run: seq<Action>, r: State, t: nat, headerOnly: bool, bbs: seq<seq<Capture.Bucket>>,
                          told: seq<Status>, got: seq<byte>, q: Capture.Phase)
  {
    && Goes(s, run, r) && Onward(s, r, t) && Producing(r, t, got, q)
    && (got != [] ==> StreamOf(r, t).tx.q.submitted) && Passed(headerOnly, bbs, told, got, q, Refused(r, t))
  }

  /** The last brigade passed on failed. */
  predicate Balked(told: seq<Status>)
  {
    told != [] && told[|told| - 1] != Success
  }

  lemma BalkedAt(told: seq<Status>, status: Status)
    ensures Balked(told + [status]) <==> status != Success
  {
  }

  lemma PassingNone(s: State, t: nat, headerOnly: bool, bbs: seq<seq<Capture.Bucket>>)
    requires Producing(s, t, [], Capture.Open)
    ensures Passing(s, [], s, t, headerOnly, bbs, [], [], Capture.Open)
  {
    assert bbs[..0] == [] && Runs(s, [], s);
  }

  lemma PassingOn(s: State, run: seq<Action>, m: State, more: seq<Action>, r: State, t: nat, headerOnly: bool,
                  bbs: seq<seq<Capture.Bucket>>, told: seq<Status>, got: seq<byte>, q: Capture.Phase, c: seq<byte>,
                  p: Capture.Phase, status: Status)
    requires Passing(s, run, m, t, headerOnly, bbs, told, got, q) && |told| < |bbs|
    requires Goes(m, more, r) && Onward(m, r, t) && Producing(r, t, got + c, p) && InOrder(r, t, c, status)
    requires Outcome(q, Capture.Seen(headerOnly, bbs[|told|]), c, p, status, StreamOf(r, t).tx.q.submitted)
    ensures Passing(s, run + more, r, t, headerOnly, bbs, told + [status], got + c, p)
  {
    GoesJoin(s, run, m, more, r);
    PassedOne(headerOnly, bbs, told, got, q, Refused(m, t), c, p, status, StreamOf(r, t).tx.q.submitted);
  }

  /** The next brigade is passed to the filter. */
  method PassBrigade(session: Session, t: nat, header: nat, headerOnly: bool, bbs: seq<seq<Capture.Bucket>>,
                     told: seq<Status>, ghost got: seq<byte>, ghost p: Capture.Phase, ghost s: State,
                     ghost run: seq<Action>)
    returns (status: Status, ghost got': seq<byte>, ghost q: Capture.Phase, ghost run': seq<Action>)
    requires Passing(s, run, session.Model(), t, headerOnly, bbs, told, got, p) && 0 < header && |told| < |bbs|
    modifies session
    ensures Passing(s, run', session.Model(), t, headerOnly, bbs, told + [status], got', q)
  {
    ghost var c, more;
    status, c, q, more := StreamBrigade(session, t, header, headerOnly, bbs[|told|], got, p);
    PassingOn(s, run, old(session.Model()), more, session.Model(), t, headerOnly, bbs, told, got, p, c, q, status);
    got', run' := got + c, run + more;
  }

  /**
   The brigades of a request in turn.  When one fails the handlers may stop or go on with the next;
   a worker that waits for room in one of them goes on waiting.
   */
  method PassAll(session: Session, t: nat, header: nat, headerOnly: bool, bbs: seq<seq<Capture.Bucket>>)
    returns (told: seq<Status>, ghost got: seq<byte>, ghost q: Capture.Phase, ghost run: seq<Action>)
    requires Producing(session.Model(), t, [], Capture.Open) && 0 < header
    modifies session
    ensures Passing(old(session.Model()), run, session.Model(), t, headerOnly, bbs, told, got, q)
    ensures |told| < |bbs| ==> Balked(told)
  {
    told, got, q, run := [], [], Capture.Open, [];
    var goOn := true;
    PassingNone(session.Model(), t, headerOnly, bbs);
    while goOn && |told| < |bbs|
      invariant Passing(old(session.Model()), run, session.Model(), t, headerOnly, bbs, told, got, q)
      invariant goOn || Balked(told)
      decreases |bbs| - |told|
    {
      var status;
      status, got, q, run := PassBrigade(session, t, header, headerOnly, bbs, told, got, q, old(session.Model()), run);
      BalkedAt(told, status);
      told := told + [status];
      var stop: bool := *;
      goOn := status == Success || (status != StillWaiting && !stop);
    }
  }

  // ---- the two modes ----

  /** How a request ended: each brigade it passed on in streaming mode, and what was done at its end. */
  datatype Report = Report(told: seq<Status>, last: Status)
  {
    /** A worker that still waits for room has not ended. */
    predicate Waits()
    {
      last == StillWaiting
    }
  }

  /**
   Whether the whole body of a request is queued: in buffered mode if the last step succeeded, in
   streaming mode if every brigade is queued whole and those held back after a failure are empty.
   */
  predicate AllQueued(o: Capture.Output, r: Report)
  {
    if !o.streaming then r.last == Success
    else AllQueuedWhole(o.headerOnly, o.brigades, r.told) && EmptyFrom(o.headerOnly, o.brigades, |r.told|)
  }

  /** What a request leaves in its queue before it completes the response. */
  ghost predicate Produced(s: State, t: nat, o: Capture.Output, got: seq<byte>, p: Capture.Phase, r: Report)
  {
    && Producing(s, t, got, p) && |got| <= |Capture.Body(o)| && (Heeded(r.told) ==> got <= Capture.Body(o))
    && (got != [] ==> StreamOf(s, t).tx.q.submitted)
    && (StreamOf(s, t).tx.q.submitted ==> (AllQueued(o, r) <==> got == Capture.Body(o)))
    && (p == Capture.Overrun ==> LateOutput(o))
  }

  /** The handlers of a streamed response pass on bytes behind an end of stream. */
  ghost predicate LateOutput(o: Capture.Output)
  {
    o.streaming && Capture.LateData(Capture.HeardAll(o.headerOnly, o.brigades))
  }

  /** The brigades from the n-th on have no bytes. */
  predicate EmptyFrom(headerOnly: bool, bbs: seq<seq<Capture.Bucket>>, n: nat)
  {
    forall k | n <= k < |bbs| :: Capture.Whole(Capture.Seen(headerOnly, bbs[k])) == []
  }

  lemma EmptySnoc(headerOnly: bool, bbs: seq<seq<Capture.Bucket>>, n: nat)
    requires n < |bbs|
    ensures var m := |bbs| - 1;
            EmptyFrom(headerOnly, bbs, n) <==>
            EmptyFrom(headerOnly, bbs[..m], n) && Capture.Whole(Capture.Seen(headerOnly, bbs[m])) == []
  {
    var m := |bbs| - 1;
    assert forall k | n <= k < m :: bbs[..m][k] == bbs[k];
  }

  /** The brigades that were not passed on. */
  lemma {:induction false} HeldBack(headerOnly: bool, bbs: seq<seq<Capture.Bucket>>, n: nat)
    requires n <= |bbs|
    ensures var some := Capture.Whole(Capture.SeenAll(headerOnly, bbs[..n]));
            var all := Capture.Whole(Capture.SeenAll(headerOnly, bbs));
            some <= all && (some == all <==> EmptyFrom(headerOnly, bbs, n))
    decreases |bbs|
  {
    if n == |bbs| {
      assert bbs[..n] == bbs;
    } else {
      var m := |bbs| - 1;
      HeldBack(headerOnly, bbs[..m], n);
      EmptySnoc(headerOnly, bbs, n);
      assert bbs[..m][..n] == bbs[..n];
      Capture.WholeJoined(Capture.SeenAll(headerOnly, bbs[..m]), Capture.Seen(headerOnly, bbs[m]));
    }
  }

  lemma {:induction false} FateHeldBack(headerOnly: bool, bbs: seq<seq<Capture.Bucket>>, n: nat)
    requires n <= |bbs|
    ensures Capture.Upto(Capture.FateAll(headerOnly, bbs[..n]), Capture.FateAll(headerOnly, bbs))
    decreases |bbs|
  {
    if n == |bbs| {
      assert bbs[..n] == bbs;
    } else {
      var m := |bbs| - 1;
      FateHeldBack(headerOnly, bbs[..m], n);
      assert bbs[..m][..n] == bbs[..n];
      Capture.FateGrows(Capture.FateAll(headerOnly, bbs[..m]), Capture.Seen(headerOnly, bbs[m]));
    }
  }

  lemma PassedTells(o: Capture.Output, told: seq<Status>, got: seq<byte>, q: Capture.Phase, refused: bool, last: Status)
    requires o.streaming && Passed(o.headerOnly, o.brigades, told, got, q, refused)
    ensures |got| <= |Capture.Body(o)| && (Heeded(told) ==> got <= Capture.Body(o))
    ensures refused || (AllQueued(o, Report(told, last)) <==> got == Capture.Body(o))
    ensures q == Capture.Overrun ==> LateOutput(o)
  {
    HeldBack(o.headerOnly, o.brigades, |told|);
    FateHeldBack(o.headerOnly, o.brigades, |told|);
    Capture.OverrunOverall(o.headerOnly, o.brigades);
  }

  /** h3_response_start at the end of the request, for a response whose headers are not out yet. */
  method SubmitLast(session: Session, t: nat, header: nat, ghost got: seq<byte>, ghost p: Capture.Phase)
    returns (ok: bool, ghost run: seq<Action>)
    requires Producing(session.Model(), t, got, p) && 0 < header
    modifies session
    ensures Goes(old(session.Model()), run, session.Model()) && Producing(session.Model(), t, got, p)
    ensures Onward(old(session.Model()), session.Model(), t) && ok == StreamOf(session.Model(), t).tx.q.submitted
  {
    run := Wait(session, t, got, p);
    ghost var before, more := session.Model(), [];
    ok, more := SubmitResponse(session, t, header, got, p);
    GoesJoin(old(session.Model()), run, before, more, session.Model());
    run := run + more;
  }

  /** Streaming mode: the brigades are queued as they come; the headers of a response without any go out at the end. */
  method ProduceStreamed(session: Session, t: nat, header: nat, o: Capture.Output)
    returns (r: Report, ghost got: seq<byte>, ghost p: Capture.Phase, ghost run: seq<Action>)
    requires Producing(session.Model(), t, [], Capture.Open) && 0 < header && o.streaming
    modifies session
    ensures Goes(old(session.Model()), run, session.Model()) && Onward(old(session.Model()), session.Model(), t)
    ensures Produced(session.Model(), t, o, got, p, r)
  {
    var told;
    told, got, p, run := PassAll(session, t, header, o.headerOnly, o.brigades);
    PassedTells(o, told, got, p, Refused(session.Model(), t), StillWaiting);
    if told != [] && told[|told| - 1] == StillWaiting {
      return Report(told, StillWaiting), got, p, run;
    }
    ghost var before, more := session.Model(), [];
    var ok;
    ok, more := SubmitLast(session, t, header, got, p);
    GoesJoin(old(session.Model()), run, before, more, session.Model());
    run := run + more;
    r := Report(told, if ok then Success else Aborted);
  }

  /** Buffered mode: the body is captured first and queued, or the error text for it, at the end. */
  method ProduceBuffered(session: Session, t: nat, header: nat, o: Capture.Output)
    returns (r: Report, ghost got: seq<byte>, ghost p: Capture.Phase, ghost run: seq<Action>)
    requires Producing(session.Model(), t, [], Capture.Open) && 0 < header && !o.streaming
    modifies session
    ensures Goes(old(session.Model()), run, session.Model()) && Onward(old(session.Model()), session.Model(), t)
    ensures Produced(session.Model(), t, o, got, p, r) && r.told == []
  {
    var filter := new Capture.ResponseFilter(o.headerOnly, o.limit);
    var body := filter.Capture(o.brigades);
    run := Wait(session, t, [], Capture.Open);
    ghost var before, n, more := session.Model(), 0, [];
    var status;
    status, n, more := StreamPiece(session, t, header, body, [], Capture.Open);
    GoesJoin(old(session.Model()), run, before, more, session.Model());
    run, got, p, r := run + more, body[..n], Capture.Open, Report([], status);
    assert [] + body[..n] == got;
  }

  // ---- what a finished task leaves behind ----

  /**
   The task of stream i has finished: its queue is complete and holds no more than the body, nothing
   unless it was submitted, and if it was, the whole body exactly on success.
   */
  ghost predicate Served(s: State, i: nat, body: seq<byte>, success: bool)
  {
    && i < |s.streams| && s.streams[i].workerDone && s.streams[i].tx.q.complete
    && |Appended(s.streams[i].tx.q)| <= |body|
    && (Appended(s.streams[i].tx.q) != [] ==> s.streams[i].tx.q.submitted)
    && (s.streams[i].tx.q.submitted ==> (success <==> Appended(s.streams[i].tx.q) == body))
  }

  /** Stream i has the same chunks, the same submission, and is as finished and as sealed as before. */
  predicate AsServed(s: State, r: State, i: nat)
  {
    && i < |s.streams| && i < |r.streams| && (s.streams[i].workerDone ==> r.streams[i].workerDone)
    && r.streams[i].tx.q.chunks == s.streams[i].tx.q.chunks
    && r.streams[i].tx.q.submitted == s.streams[i].tx.q.submitted
    && (s.streams[i].tx.q.complete ==> r.streams[i].tx.q.complete)
    && (Sealed(s.streams[i].tx) ==> Sealed(r.streams[i].tx))
  }

  lemma WorkerAsServed(s: State, w: WorkerStep, i: nat)
    requires TasksOk(s) && WorkerEnabled(s, w) && i < |s.streams| && s.streams[i].workerDone
    ensures AsServed(s, WorkerApply(s, w), i)
  {
    if Touches(s.tasks[w.task]) {
      assert Held(s, s.tasks[w.task].stream);
    }
  }

  lemma {:induction false} EndingAsServed(s: State, e: EndStep, i: nat)
    requires EndingEnabled(s, e) && i < |s.streams|
    ensures AsServed(s, EndingApply(s, e), i)
  {
    if e.Destroy? {
      EndAllAt(s.streams);
    }
  }

  lemma DispatchingAsServed(s: State, d: DispatchStep, i: nat)
    requires DispatchingEnabled(s, d) && i < |s.streams|
    ensures AsServed(s, DispatchingApply(s, d), i)
  {
  }

  lemma StepAsServed(s: State, a: Action, i: nat)
    requires Reachable(s) && Enabled(s, a) && i < |s.streams| && s.streams[i].workerDone
    ensures AsServed(s, Apply(s, a), i)
  {
    ReachableOk(s);
    match a
    case Worker(w) => WorkerAsServed(s, w, i);
    case Receiving(r) =>
      ReceivingLeaves(s, r);
      assert LeftAlone(s.streams[i], ReceivingApply(s, r).streams[i]);
    case Sending(x) =>
      SendingLeaves(s, x);
      assert LeftAlone(s.streams[i], SendingApply(s, x).streams[i]);
    case Dispatching(d) => DispatchingAsServed(s, d, i);
    case Ending(e) => EndingAsServed(s, e, i);
  }

  lemma {:induction false} RunServed(s: State, run: seq<Action>, r: State, i: nat, body: seq<byte>, success: bool)
    requires Reachable(s) && Runs(s, run, r) && Served(s, i, body, success)
    ensures Served(r, i, body, success) && Reachable(r)
    ensures r.streams[i].tx.q.chunks == s.streams[i].tx.q.chunks
    ensures Sealed(s.streams[i].tx) ==> Sealed(r.streams[i].tx)
    decreases |run|
  {
    if run != [] {
      StepAsServed(s, run[0], i);
      StepReachable(s, run[0]);
      RunServed(Apply(s, run[0]), run[1..], r, i, body, success);
    }
  }

  /**
   When a clean FIN means a whole response.  In every state after the task finished in which FIN
   was sent, the body on the wire is the whole body if and only if the worker succeeded, no chunk
   was left behind when EOF was reported, and no byte was queued after that.
   */
  lemma FinMeansWholeBody(s: State, run: seq<Action>, r: State, i: nat, body: seq<byte>, success: bool)
    requires Reachable(s) && Runs(s, run, r) && Served(s, i, body, success)
    ensures i < |r.streams| && r.streams[i].tx.wire <= Appended(s.streams[i].tx.q)
    ensures var t := r.streams[i].tx;
            t.concluded ==> (t.wire == body <==> success && !t.cut && t.eofAt == |Appended(t.q)|)
    ensures var t := r.streams[i].tx; t.concluded && Sealed(s.streams[i].tx) ==> t.eofAt == |Appended(t.q)|
    ensures r.streams[i].tx.cut ==> r.streams[i].tx.q.cancelled
  {
    RunServed(s, run, r, i, body, success);
    ReachableOk(r);
    assert StreamOk(r, r.streams[i]);
    var t := r.streams[i].tx;
    WireIsPrefix(t);
    StartTotal(t.q.chunks);
    if t.concluded {
      FinMeansWhole(t);
      assert Appended(t.q)[..|Appended(t.q)|] == Appended(t.q);
      assert t.wire == body ==> t.wire == Appended(t.q);
    }
  }

  // ---- the whole of stream_worker ----

  /** The worker lets go of the stream for good. */
  method LetGo(session: Session, t: nat, ghost got: seq<byte>, ghost p: Capture.Phase, ghost body: seq<byte>,
               ghost success: bool)
    returns (ghost run: seq<Action>)
    requires Producing(session.Model(), t, got, p) && p != Capture.Open && |got| <= |body|
    requires got != [] ==> StreamOf(session.Model(), t).tx.q.submitted
    requires StreamOf(session.Model(), t).tx.q.submitted ==> (success <==> got == body)
    modifies session
    ensures Goes(old(session.Model()), run, session.Model()) && t < |session.tasks| && session.tasks[t].pc == Finishing
    ensures Served(session.Model(), old(session.tasks)[t].stream, body, success)
    ensures Appended(session.streams[old(session.tasks)[t].stream].tx.q) == got
    ensures p != Capture.Overrun ==> Sealed(session.streams[old(session.tasks)[t].stream].tx)
  {
    run := Wait(session, t, got, p);
    ghost var before := session.Model();
    ghost var more := Own(session, FinishTask(t));
    GoesJoin(old(session.Model()), run, before, more, session.Model());
    run := run + more;
  }

  /**
   Stream i was served what the request put out: in order if the handlers heeded failures, and with
   nothing after EOF unless they passed on bytes behind an end of stream.
   */
  ghost predicate Answered(s: State, i: nat, o: Capture.Output, r: Report)
  {
    && Served(s, i, Capture.Body(o), AllQueued(o, r))
    && (Heeded(r.told) ==> Appended(s.streams[i].tx.q) <= Capture.Body(o))
    && (!LateOutput(o) ==> Sealed(s.streams[i].tx))
  }

  /**
   The worker from its first use of the stream to its last.  Unless it is still waiting for
   room, the request is answered.
   */
  method ServeRequest(session: Session, t: nat, header: nat, o: Capture.Output)
    returns (r: Report, ghost run: seq<Action>)
    requires Producing(session.Model(), t, [], Capture.Open) && 0 < header
    modifies session
    ensures Goes(old(session.Model()), run, session.Model()) && t < |session.tasks|
    ensures !r.Waits() ==>
              session.tasks[t].pc == Finishing && Answered(session.Model(), old(session.tasks)[t].stream, o, r)
  {
    ghost var got, p;
    if o.streaming {
      r, got, p, run := ProduceStreamed(session, t, header, o);
    } else {
      r, got, p, run := ProduceBuffered(session, t, header, o);
    }
    if r.Waits() {
      return;
    }
    ghost var before := session.Model();
    ghost var more := CompleteResponse(session, t, got, p);
    GoesJoin(old(session.Model()), run, before, more, session.Model());
    run, before := run + more, session.Model();
    more := LetGo(session, t, got, Capture.End(p), Capture.Body(o), AllQueued(o, r));
    GoesJoin(old(session.Model()), run, before, more, session.Model());
    run := run + more;
  }

  /** The last thing a task does, after it has let go of its stream: it is counted out. */
  method Leave(session: Session, t: nat) returns (ghost run: seq<Action>)
    requires Reachable(session.Model()) && t < |session.tasks|
    requires session.tasks[t].pc == Failing || session.tasks[t].pc == Finishing
    modifies session
    ensures Goes(old(session.Model()), run, session.Model()) && t < |session.tasks| && session.tasks[t].pc == Pc.Gone
  {
    run := Others(session, t);
    ghost var before := session.Model();
    TaskHasStream(before, t);
    ghost var more := Own(session, LeaveTask(t));
    GoesJoin(old(session.Model()), run, before, more, session.Model());
    run := run + more;
  }

  /** The request could not be created: the stream is given back. */
  method GiveBack(session: Session, t: nat) returns (ghost run: seq<Action>)
    requires Reachable(session.Model()) && TaskAt(session.Model(), t, Starting)
    modifies session
    ensures Goes(old(session.Model()), run, session.Model()) && t < |session.tasks| && session.tasks[t].pc == Pc.Gone
  {
    run := Own(session, FailTask(t));
    ghost var before := session.Model();
    ghost var more := Leave(session, t);
    GoesJoin(old(session.Model()), run, before, more, session.Model());
    run := run + more;
  }

  /** A task that has begun: it serves its request and is counted out. */
  method RunTask(session: Session, t: nat, header: nat, o: Capture.Output) returns (r: Report, ghost run: seq<Action>)
    requires Producing(session.Model(), t, [], Capture.Open) && 0 < header
    modifies session
    ensures Goes(old(session.Model()), run, session.Model())
    ensures !r.Waits() ==>
              && t < |session.tasks| && session.tasks[t].pc == Pc.Gone
              && Answered(session.Model(), old(session.tasks)[t].stream, o, r)
  {
    r, run := ServeRequest(session, t, header, o);
    if !r.Waits() {
      ghost var before := session.Model();
      ghost var more := Leave(session, t);
      RunServed(before, more, session.Model(), old(session.tasks)[t].stream, Capture.Body(o), AllQueued(o, r));
      GoesJoin(old(session.Model()), run, before, more, session.Model());
      run := run + more;
    }
  }

  /**
   stream_worker, from the moment its task is queued.  Every step it takes is possible whatever
   the other threads do in between.  Unless it waits for room it ends counted out, and if the
   request could be created at all it is answered.
   */
  method StreamWorker(session: Session, t: nat, header: nat, o: Capture.Output)
    returns (created: bool, r: Report, ghost run: seq<Action>)
    requires Reachable(session.Model()) && TaskAt(session.Model(), t, Starting) && 0 < header
    modifies session
    ensures Goes(old(session.Model()), run, session.Model())
    ensures !created || !r.Waits() ==> t < |session.tasks| && session.tasks[t].pc == Pc.Gone
    ensures created && !r.Waits() ==> Answered(session.Model(), old(session.tasks)[t].stream, o, r)
  {
    run := Others(session, t);
    ghost var before, more := session.Model(), [];
    TaskHasStream(before, t);
    created, r := *, Report([], NotStarted);
    if !created {
      more := GiveBack(session, t);
      GoesJoin(old(session.Model()), run, before, more, session.Model());
      run := run + more;
      return;
    }
    BeginsEmpty(before, t);
    more := Own(session, Begin(t));
    GoesJoin(old(session.Model()), run, before, more, session.Model());
    run, before := run + more, session.Model();
    r, more := RunTask(session, t, header, o);
    GoesJoin(old(session.Model()), run, before, more, session.Model());
    run := run + more;
  }
}
