/**
 One HTTP/3 session as a state machine.  The event thread and the request workers take
 atomic steps: each is one section under the session lock, or one write of a shared flag.
 nghttp3 and the QUIC transport answer as their contracts allow; an action carries their
 answer.  `Enabled` says when a step can be taken, `Apply` what it does.
 */
module SessionModel {
  import opened Bytes
  import opened SendQueue
  import opened Transmit

  /** The receiving side; `fin` records that the end of the stream was fed to nghttp3. */
  datatype Rx = Rx(
    userData: bool,
    headersComplete: bool,
    bodyComplete: bool,
    malformed: bool,
    fin: bool,
    body: seq<byte>)

  /** h3_stream; `tracked` says it is still in the session's hash. */
  datatype Stream = Stream(
    id: int,
    tracked: bool,
    qstream: Option<nat>,
    done: bool,
    dispatched: bool,
    workerDone: bool,
    rejected: bool,
    rx: Rx,
    tx: Tx)

  /** A request task: queued or starting, running the request, or past its last use of the stream. */
  datatype Pc = Starting | Running | Failing | Finishing | Gone

  datatype Task = Task(stream: nat, pc: Pc)

  /** Where the event thread is inside h3_process_request. */
  datatype Event = Idle | Reserved(stream: nat) | Counted(stream: nat) | Uncounting

  datatype State = State(
    streams: seq<Stream>,
    blockedStreams: int,
    dead: bool,
    excessive: bool,
    aborted: bool,
    destroyed: bool,
    streamErrors: nat,
    maxStreamErrors: nat,
    bufferSize: nat,
    activeTasks: int,
    tasks: seq<Task>,
    event: Event,
    completed: seq<nat>,
    pendingFree: seq<nat>,
    freed: seq<nat>,
    handles: nat)

  /** nghttp3 callbacks for one stream. */
  datatype Callback =
    | BeginHeaders | BadHeader | EndHeaders(fin: bool) | Data(bytes: seq<byte>)
    | StopSending | ResetStream | StreamClosed

  /** How nghttp3_conn_read_stream came back. */
  datatype ReadEnd = Fine | Malformed | Fatal

  /** A request worker's steps. */
  datatype WorkerStep =
    | Begin(task: nat) | FailTask(task: nat) | FinishTask(task: nat) | LeaveTask(task: nat)
    | QueueBytes(task: nat, data: seq<byte>) | GiveUp(task: nat) | Complete(task: nat)
    | Submit(task: nat, header: nat) | SubmitRefused(task: nat)

  /** The event thread takes streams in and reads them. */
  datatype ReceiveStep =
    | Track(id: int) | Refuse
    | ReadStream(i: nat, cbs: seq<Callback>, end: ReadEnd)
    | FeedFin(i: nat, cbs: seq<Callback>, end: ReadEnd)
    | Notify(i: nat, cb: Callback)

  /** The event thread flushes. */
  datatype SendStep =
    | NgFrame(i: nat, n: nat)
    | PullData(i: nat, veccnt: nat, header: nat) | PullEof(i: nat) | PullStall(i: nat)
    | Swallow(i: nat, count: nat) | Went(i: nat, count: nat)
    | Block(i: nat, count: nat, n: nat) | Break(i: nat, count: nat, n: nat)
    | Unblock(i: nat) | FreeHandle | WritevFails

  /** The event thread hands requests to workers. */
  datatype DispatchStep =
    | Collect(i: nat) | NewPass | Reserve | ReserveFails | Count | PushTask | PushFails | Uncount

  /** The event thread ends things. */
  datatype EndStep = Abandon(i: nat) | Reclaim(i: nat) | Abort | Destroy

  datatype Action =
    | Worker(w: WorkerStep) | Receiving(r: ReceiveStep) | Sending(t: SendStep)
    | Dispatching(d: DispatchStep) | Ending(e: EndStep)

  // ---- stream ids (the two low bits, RFC 9000 section 2.1) ----

  predicate IsServer(id: int)
  {
    id % 2 == 1
  }

  predicate IsBidi(id: int)
  {
    (id / 2) % 2 == 0
  }

  // ---- building blocks ----

  function NewStream(id: int, handle: nat, limit: nat): (st: Stream)
  {
    Stream(id, true, Some(handle), false, false, false, false,
           Rx(false, false, false, false, false, []), Fresh(limit))
  }

  function Put(s: State, i: nat, st: Stream): (r: State)
    requires i < |s.streams|
  {
    s.(streams := s.streams[i := st])
  }

  function PutTx(s: State, i: nat, tx: Tx): (r: State)
    requires i < |s.streams|
  {
    Put(s, i, s.streams[i].(tx := tx))
  }

  /** The event thread is between two locked sections and the session still exists. */
  predicate EventFree(s: State)
  {
    !s.destroyed && s.event == Idle
  }

  predicate Has(s: State, i: nat)
  {
    EventFree(s) && i < |s.streams|
  }

  predicate TaskAt(s: State, t: nat, pc: Pc)
  {
    t < |s.tasks| && s.tasks[t].pc == pc && s.tasks[t].stream < |s.streams|
  }

  function StreamOf(s: State, t: nat): (st: Stream)
    requires t < |s.tasks| && s.tasks[t].stream < |s.streams|
  {
    s.streams[s.tasks[t].stream]
  }

  function Touches(t: Task): (b: bool)
  {
    t.pc == Starting || t.pc == Running
  }

  /** drain_ready_streams reads this stream in this pass. */
  predicate Drainable(s: State, i: nat)
  {
    Has(s, i) && !s.dead && s.streams[i].tracked && !s.streams[i].done
    && s.streams[i].qstream.Some? && !IsServer(s.streams[i].id)
  }

  /** What drain_one_stream answers. */
  predicate Ready(st: Stream)
  {
    IsBidi(st.id) && !st.done && st.rx.headersComplete && st.rx.bodyComplete && !st.dispatched
  }

  /** Callbacks nghttp3 may make: no header or data once FIN was fed; a final header block only with FIN. */
  predicate Permitted(rx: Rx, cbs: seq<Callback>, feeding: bool)
  {
    forall k | 0 <= k < |cbs| ::
      && (rx.fin ==> cbs[k].StopSending? || cbs[k].ResetStream? || cbs[k].StreamClosed?)
      && (cbs[k] == EndHeaders(true) ==> feeding)
  }

  // ---- callbacks ----

  function CancelStream(st: Stream): (r: Stream)
  {
    st.(tx := st.tx.(q := Cancel(st.tx.q)))
  }

  /** h3_session_queue_free on the stream's handle, if it still has one. */
  function QueueFree(s: State, i: nat): (r: State)
    requires i < |s.streams|
    ensures |r.streams| == |s.streams|
  {
    match s.streams[i].qstream
    case None => s
    case Some(h) => Put(s, i, s.streams[i].(qstream := None)).(pendingFree := s.pendingFree + [h])
  }

  /** The callbacks that only touch the receiving side. */
  function Receive(st: Stream, cb: Callback): (r: Stream)
  {
    if !st.rx.userData && !cb.BeginHeaders? then st
    else
      match cb
      case BeginHeaders => st.(rx := st.rx.(userData := true))
      case BadHeader => st.(rx := st.rx.(malformed := true))
      case EndHeaders(fin) =>
        if IsBidi(st.id) then st.(rx := st.rx.(headersComplete := true, bodyComplete := st.rx.bodyComplete || fin))
        else st
      case Data(d) => if IsBidi(st.id) then st.(rx := st.rx.(body := st.rx.body + d)) else st
      case _ => st
  }

  /** on_stop_sending */
  function StopSendingCb(s: State, i: nat): (r: State)
    requires i < |s.streams|
    ensures |r.streams| == |s.streams|
  {
    var st := CancelStream(s.streams[i]);
    QueueFree(Put(s, i, st.(done := true, rx := st.rx.(bodyComplete := true))), i)
  }

  /** on_stream_close, after nghttp3 dropped the stream */
  function StreamClosedCb(s: State, i: nat): (r: State)
    requires i < |s.streams|
    ensures |r.streams| == |s.streams|
  {
    var st := s.streams[i].(tx := CloseTx(s.streams[i].tx));
    if st.rx.userData then QueueFree(Put(s, i, CancelStream(st).(done := true)), i) else Put(s, i, st)
  }

  function OnCallback(s: State, i: nat, cb: Callback): (r: State)
    requires i < |s.streams|
    ensures |r.streams| == |s.streams|
  {
    match cb
    case StopSending => if s.streams[i].rx.userData then StopSendingCb(s, i) else s
    case ResetStream => if s.streams[i].rx.userData then Put(s, i, CancelStream(s.streams[i]).(done := true)) else s
    case StreamClosed => if s.streams[i].tx.open then StreamClosedCb(s, i) else s
    case _ => Put(s, i, Receive(s.streams[i], cb))
  }

  function OnCallbacks(s: State, i: nat, cbs: seq<Callback>): (r: State)
    requires i < |s.streams|
    ensures |r.streams| == |s.streams|
    decreases |cbs|
  {
    if cbs == [] then s else OnCallbacks(OnCallback(s, i, cbs[0]), i, cbs[1..])
  }

  /** reject_malformed_stream */
  function Reject(s: State, i: nat): (r: State)
    requires i < |s.streams|
    ensures |r.streams| == |s.streams|
  {
    var s1 := OnCallback(s, i, StreamClosed);
    var st := s1.streams[i];
    var s2 := Put(s1, i, st.(done := true, rejected := true, rx := st.rx.(bodyComplete := true)));
    var over := s.streamErrors + 1 > s.maxStreamErrors;
    s2.(streamErrors := s.streamErrors + 1, dead := s2.dead || over, excessive := s2.excessive || over)
  }

  /** What drain_one_stream does with the outcome of a read. */
  function AfterRead(s: State, i: nat, end: ReadEnd): (r: State)
    requires i < |s.streams|
    ensures |r.streams| == |s.streams|
  {
    match end
    case Malformed => Reject(s, i)
    case Fatal => Put(s, i, s.streams[i].(done := true)).(dead := true)
    case Fine => if s.streams[i].rx.malformed && !s.streams[i].done then Reject(s, i) else s
  }

  /** feed_stream_fin; a fatal error here leaves the stream's done flag alone. */
  function AfterFin(s: State, i: nat, end: ReadEnd): (r: State)
    requires i < |s.streams|
    ensures |r.streams| == |s.streams|
  {
    var s1 := if end == Fatal then s.(dead := true) else AfterRead(s, i, end);
    var st := s1.streams[i];
    Put(s1, i, st.(rx := st.rx.(bodyComplete := true, fin := true)))
  }

  // ---- the steps ----

  // Conditions such as Valid(q) and index bounds below only make `Apply` well defined: they
  // hold in every reachable state, so they exclude no behaviour.

  predicate WorkerEnabled(s: State, a: WorkerStep)
  {
    match a
    case Begin(t) => TaskAt(s, t, Starting)
    case FailTask(t) => TaskAt(s, t, Starting)
    case FinishTask(t) => TaskAt(s, t, Running)
    case LeaveTask(t) => TaskAt(s, t, Failing) || TaskAt(s, t, Finishing)
    case QueueBytes(t, data) =>
      && TaskAt(s, t, Running) && data != [] && !s.aborted && !s.dead
      && var q := StreamOf(s, t).tx.q; !q.cancelled && Valid(q) && Buffered(q) < q.limit
    case GiveUp(t) => TaskAt(s, t, Running) && !s.aborted && !s.dead && !StreamOf(s, t).tx.q.cancelled
    case Complete(t) => TaskAt(s, t, Running)
    case Submit(t, header) =>
      && TaskAt(s, t, Running) && !s.aborted && !s.dead && 0 < header && StreamOf(s, t).tx.open
      && !StreamOf(s, t).tx.q.submitted && !StreamOf(s, t).tx.q.cancelled
    case SubmitRefused(t) =>
      && TaskAt(s, t, Running) && !s.aborted && !s.dead
      && !StreamOf(s, t).tx.q.submitted && !StreamOf(s, t).tx.q.cancelled
  }

  predicate ReceivingEnabled(s: State, a: ReceiveStep)
  {
    match a
    case Track(id) => EventFree(s) && 0 <= id && forall i | 0 <= i < |s.streams| :: s.streams[i].id != id
    case Refuse => EventFree(s)
    case ReadStream(i, cbs, end) => Drainable(s, i) && Permitted(s.streams[i].rx, cbs, false)
    case FeedFin(i, cbs, end) => Drainable(s, i) && Permitted(s.streams[i].rx, cbs, true)
    case Notify(i, cb) => Has(s, i) && (cb.StopSending? || cb.ResetStream? || cb.StreamClosed?)
  }

  predicate SendingEnabled(s: State, a: SendStep)
  {
    match a
    case NgFrame(i, n) => Has(s, i) && s.streams[i].tx.open && !s.streams[i].tx.finDone && 0 < n
    case PullData(i, veccnt, header) =>
      && Has(s, i) && !s.dead && CanPull(s.streams[i].tx) && Fills(s.streams[i].tx.q) && 0 < veccnt && 0 < header
    case PullEof(i) => Has(s, i) && !s.dead && CanPull(s.streams[i].tx) && Ends(s.streams[i].tx.q)
    case PullStall(i) =>
      Has(s, i) && !s.dead && CanPull(s.streams[i].tx) && !Fills(s.streams[i].tx.q) && !Ends(s.streams[i].tx.q)
    case Swallow(i, count) => Offers(s, i, count) && (!s.streams[i].tracked || s.streams[i].qstream.None?)
    case Went(i, count) =>
      && Offers(s, i, count) && s.streams[i].tracked && s.streams[i].qstream.Some?
      && (s.streams[i].tx.failed ==> count == 0)
    case Block(i, count, n) =>
      && Offers(s, i, count) && s.streams[i].tracked && s.streams[i].qstream.Some?
      && n < Expected(s.streams[i].tx, count) && !s.streams[i].tx.failed
    case Break(i, count, n) =>
      && Offers(s, i, count) && s.streams[i].tracked && s.streams[i].qstream.Some?
      && n < Expected(s.streams[i].tx, count) && (s.streams[i].tx.failed ==> n == 0)
    case Unblock(i) => Has(s, i) && !s.dead && s.streams[i].tracked && s.streams[i].tx.writeBlocked
    case FreeHandle => EventFree(s) && s.pendingFree != []
    case WritevFails => EventFree(s) && !s.dead
  }

  predicate DispatchingEnabled(s: State, a: DispatchStep)
  {
    match a
    case Collect(i) => Has(s, i) && !s.dead && s.streams[i].tracked && Ready(s.streams[i]) && i !in s.completed
    case NewPass => EventFree(s)
    case Reserve => EventFree(s) && !s.dead && s.completed != [] && s.completed[0] < |s.streams|
    case ReserveFails => !s.destroyed && s.event.Reserved? && s.event.stream < |s.streams|
    case Count => !s.destroyed && s.event.Reserved?
    case PushTask => !s.destroyed && s.event.Counted?
    case PushFails => !s.destroyed && s.event.Counted? && s.event.stream < |s.streams|
    case Uncount => !s.destroyed && s.event.Uncounting?
  }

  predicate EndingEnabled(s: State, a: EndStep)
  {
    match a
    case Abandon(i) =>
      && Has(s, i) && s.streams[i].tracked && !s.streams[i].tx.q.cancelled && !s.streams[i].tx.q.complete
      && Valid(s.streams[i].tx.q) && Buffered(s.streams[i].tx.q) >= s.streams[i].tx.q.limit
    case Reclaim(i) =>
      && Has(s, i) && s.streams[i].tracked && IsBidi(s.streams[i].id) && !IsServer(s.streams[i].id)
      && s.streams[i].done && s.streams[i].qstream.None? && s.streams[i].dispatched && s.streams[i].workerDone
    case Abort => EventFree(s)
    case Destroy => EventFree(s) && s.aborted && s.activeTasks == 0
  }

  predicate Enabled(s: State, a: Action)
  {
    match a
    case Worker(x) => WorkerEnabled(s, x)
    case Receiving(x) => ReceivingEnabled(s, x)
    case Sending(x) => SendingEnabled(s, x)
    case Dispatching(x) => DispatchingEnabled(s, x)
    case Ending(x) => EndingEnabled(s, x)
  }

  /** writev_stream offers the first `count` items of an unblocked stream, at most 16. */
  predicate Offers(s: State, i: nat, count: nat)
  {
    && Has(s, i) && !s.dead && CanOffer(s.streams[i].tx) && Shape(s.streams[i].tx.q)
    && count <= |s.streams[i].tx.out| && count <= 16 && (count == 0 ==> s.streams[i].tx.out == [])
  }

  function WorkerApply(s: State, a: WorkerStep): (r: State)
    requires WorkerEnabled(s, a)
  {
    match a
    case Begin(t) => s.(tasks := s.tasks[t := s.tasks[t].(pc := Running)])
    case FailTask(t) =>
      Put(s, s.tasks[t].stream, StreamOf(s, t).(dispatched := false)).(tasks := s.tasks[t := s.tasks[t].(pc := Failing)])
    case FinishTask(t) =>
      Put(s, s.tasks[t].stream, StreamOf(s, t).(workerDone := true)).(tasks := s.tasks[t := s.tasks[t].(pc := Finishing)])
    case LeaveTask(t) => s.(tasks := s.tasks[t := s.tasks[t].(pc := Gone)], activeTasks := s.activeTasks - 1)
    case QueueBytes(t, data) =>
      PutTx(s, s.tasks[t].stream, PushTx(StreamOf(s, t).tx, data[..ChunkLen(StreamOf(s, t).tx.q, data)]))
    case GiveUp(t) => PutTx(s, s.tasks[t].stream, CancelTx(StreamOf(s, t).tx))
    case Complete(t) => PutTx(s, s.tasks[t].stream, CompleteTx(StreamOf(s, t).tx))
    case Submit(t, header) => PutTx(s, s.tasks[t].stream, SubmitTx(StreamOf(s, t).tx, header))
    case SubmitRefused(t) => PutTx(s, s.tasks[t].stream, CancelTx(StreamOf(s, t).tx))
  }

  function ReceivingApply(s: State, a: ReceiveStep): (r: State)
    requires ReceivingEnabled(s, a)
  {
    match a
    case Track(id) => s.(streams := s.streams + [NewStream(id, s.handles, s.bufferSize)], handles := s.handles + 1)
    case Refuse => s.(freed := s.freed + [s.handles], handles := s.handles + 1)
    case ReadStream(i, cbs, end) => AfterRead(OnCallbacks(s, i, cbs), i, end)
    case FeedFin(i, cbs, end) => AfterFin(OnCallbacks(s, i, cbs), i, end)
    case Notify(i, cb) => OnCallback(s, i, cb)
  }

  function SendingApply(s: State, a: SendStep): (r: State)
    requires SendingEnabled(s, a)
  {
    match a
    case NgFrame(i, n) => PutTx(s, i, FrameTx(s.streams[i].tx, n))
    case PullData(i, veccnt, header) => PutTx(s, i, TakeTx(s.streams[i].tx, veccnt, header))
    case PullEof(i) => PutTx(s, i, EofTx(s.streams[i].tx))
    case PullStall(i) => PutTx(s, i, StallTx(s.streams[i].tx))
    case Swallow(i, count) => PutTx(s, i, SwallowTx(s.streams[i].tx, count))
    case Went(i, count) => PutTx(s, i, WentTx(s.streams[i].tx, count))
    case Block(i, count, n) =>
      PutTx(s, i, BlockedTx(s.streams[i].tx, n)).(
        blockedStreams := if s.streams[i].tx.writeBlocked then s.blockedStreams else s.blockedStreams + 1)
    case Break(i, count, n) => PutTx(s, i, BrokenTx(s.streams[i].tx, count, n))
    case Unblock(i) => PutTx(s, i, UnblockTx(s.streams[i].tx)).(blockedStreams := s.blockedStreams - 1)
    case FreeHandle =>
      var last := |s.pendingFree| - 1;
      s.(pendingFree := s.pendingFree[..last], freed := s.freed + [s.pendingFree[last]])
    case WritevFails => s.(dead := true)
  }

  function DispatchingApply(s: State, a: DispatchStep): (r: State)
    requires DispatchingEnabled(s, a)
  {
    match a
    case Collect(i) => s.(completed := s.completed + [i])
    case NewPass => s.(completed := [])
    case Reserve =>
      var i := s.completed[0];
      if s.streams[i].dispatched then s.(completed := s.completed[1..])
      else Put(s, i, s.streams[i].(dispatched := true)).(completed := s.completed[1..], event := Reserved(i))
    case ReserveFails => Put(s, s.event.stream, s.streams[s.event.stream].(dispatched := false)).(event := Idle)
    case Count => s.(activeTasks := s.activeTasks + 1, event := Counted(s.event.stream))
    case PushTask => s.(tasks := s.tasks + [Task(s.event.stream, Starting)], event := Idle)
    case PushFails =>
      Put(s, s.event.stream, s.streams[s.event.stream].(dispatched := false)).(event := Uncounting)
    case Uncount => s.(activeTasks := s.activeTasks - 1, event := Idle)
  }

  function EndingApply(s: State, a: EndStep): (r: State)
    requires EndingEnabled(s, a)
  {
    match a
    case Abandon(i) => PutTx(s, i, CancelTx(s.streams[i].tx))
    case Reclaim(i) =>
      var st := s.streams[i];
      Put(s, i, st.(tracked := false, tx := CleanTx(st.tx))).(
        blockedStreams := if st.tx.writeBlocked then s.blockedStreams - 1 else s.blockedStreams)
    case Abort => s.(aborted := true)
    case Destroy => DestroyAll(s)
  }

  function Apply(s: State, a: Action): (r: State)
    requires Enabled(s, a)
  {
    match a
    case Worker(x) => WorkerApply(s, x)
    case Receiving(x) => ReceivingApply(s, x)
    case Sending(x) => SendingApply(s, x)
    case Dispatching(x) => DispatchingApply(s, x)
    case Ending(x) => EndingApply(s, x)
  }

  /** h3_session_destroy on one stream: nghttp3 goes first, then the queue of a tracked stream. */
  function Ended(st: Stream): (r: Stream)
  {
    var closed := CloseTx(st.tx);
    if st.tracked then st.(tx := CleanTx(closed.(q := Cancel(closed.q))).(writeBlocked := st.tx.writeBlocked))
    else st.(tx := closed)
  }

  function EndAll(streams: seq<Stream>): (r: seq<Stream>)
  {
    if streams == [] then [] else EndAll(streams[..|streams| - 1]) + [Ended(streams[|streams| - 1])]
  }

  /** pending_free is popped from the back until it is empty. */
  function Reversed(hs: seq<nat>): (r: seq<nat>)
  {
    if hs == [] then [] else [hs[|hs| - 1]] + Reversed(hs[..|hs| - 1])
  }

  function DestroyAll(s: State): (r: State)
  {
    s.(streams := EndAll(s.streams), freed := s.freed + Reversed(s.pendingFree), pendingFree := [], destroyed := true)
  }
}
