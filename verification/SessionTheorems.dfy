/** What the session machine promises about every run. */
module SessionTheorems {
  import opened Bytes
  import opened SendQueue
  import opened OutQueue
  import opened Transmit
  import opened SessionModel
  import opened SessionInvariant
  import opened SessionRecords

  /** `s` is a state some run of a new session reaches. */
  ghost predicate Reachable(s: State)
  {
    exists run, maxErrors: nat, bufferSize: nat :: 0 < bufferSize && Runs(Init(maxErrors, bufferSize), run, s)
  }

  lemma ReachableOk(s: State)
    requires Reachable(s)
    ensures Inv(s)
  {
    var run, maxErrors: nat, bufferSize: nat :| 0 < bufferSize && Runs(Init(maxErrors, bufferSize), run, s);
    InitOk(maxErrors, bufferSize);
    RunOk(Init(maxErrors, bufferSize), run, s);
  }

  lemma ReachableRecords(s: State)
    requires Reachable(s)
    ensures RecordsOk(s)
  {
    var run, maxErrors: nat, bufferSize: nat :| 0 < bufferSize && Runs(Init(maxErrors, bufferSize), run, s);
    InitOk(maxErrors, bufferSize);
    RecordsRun(Init(maxErrors, bufferSize), run, s);
  }

  // ---- the response on the wire ----

  lemma StepReachable(s: State, a: Action)
    requires Reachable(s) && Enabled(s, a)
    ensures Reachable(Apply(s, a))
  {
    var run, maxErrors: nat, bufferSize: nat :| 0 < bufferSize && Runs(Init(maxErrors, bufferSize), run, s);
    OneMore(Init(maxErrors, bufferSize), run, s, a);
  }

  /** In every interleaving, the body bytes the transport accepted are a prefix of everything appended. */
  lemma ByteExactDelivery(s: State, i: nat)
    requires Reachable(s) && i < |s.streams|
    ensures s.streams[i].tx.wire <= Appended(s.streams[i].tx.q)
  {
    ReachableOk(s);
    assert StreamOk(s, s.streams[i]);
    WireIsPrefix(s.streams[i].tx);
  }

  /**
   A FIN the transport sent ends exactly the bytes queued when the reader reported EOF, if and
   only if no chunk was waiting behind the submit cursor then; one can wait only in a cancelled response.
   */
  lemma FinEndsTheBody(s: State, i: nat)
    requires Reachable(s) && i < |s.streams| && s.streams[i].tx.concluded
    ensures var t := s.streams[i].tx;
            && t.eofAt <= |Appended(t.q)|
            && (t.wire == Appended(t.q)[..t.eofAt] <==> !t.cut)
            && (t.cut ==> t.q.cancelled)
  {
    ReachableOk(s);
    assert StreamOk(s, s.streams[i]);
    FinMeansWhole(s.streams[i].tx);
  }

  /** When the reader of a response that was not cancelled reports EOF, every queued byte has been offered. */
  lemma EofOffersEverything(s: State, a: SendStep)
    requires Reachable(s) && Enabled(s, Sending(a)) && (a.PullData? || a.PullEof?)
    ensures var t := Apply(s, Sending(a)).streams[a.i].tx;
            Shape(t.q) && (t.eof && !t.q.cancelled ==> Offered(t.q) == |Appended(t.q)| == t.eofAt)
  {
    ReachableOk(s);
    StepOk(s, Sending(a));
    var r := Apply(s, Sending(a));
    assert StreamOk(r, r.streams[a.i]);
    StartTotal(r.streams[a.i].tx.q.chunks);
  }

  /** response_buffered never exceeds the limit, and acknowledgements never pass the submit cursor. */
  lemma QueueBounded(s: State, i: nat)
    requires Reachable(s) && i < |s.streams|
    ensures var q := s.streams[i].tx.q;
            Valid(q) && Buffered(q) <= q.limit && Acked(q) <= Offered(q) <= |Appended(q)|
  {
    ReachableOk(s);
    assert StreamOk(s, s.streams[i]);
    Ordered(s.streams[i].tx.q);
  }

  /** Every vector written to a live handle lies inside a chunk that has not been freed. */
  lemma ZeroCopySafety(s: State, a: SendStep, k: nat)
    requires Reachable(s) && SendingEnabled(s, a) && (a.Went? || a.Block? || a.Break?)
    requires k < a.count && s.streams[a.i].tx.out[k].Body?
    ensures var q, v := s.streams[a.i].tx.q, s.streams[a.i].tx.out[k].v;
            q.freed <= v.chunk < |q.chunks| && v.off + v.len <= |q.chunks[v.chunk]|
  {
    ReachableOk(s);
    WritableTx(s, a.i);
    PendingInside(s.streams[a.i].tx.q, s.streams[a.i].tx.out);
  }

  /** Chunks leave the heap only by acknowledgement or when their stream has no handle to write to any more. */
  lemma ChunksOutliveTheirHandle(s: State, i: nat)
    requires Reachable(s) && i < |s.streams| && !s.destroyed
    ensures s.streams[i].tx.clean ==> s.streams[i].qstream.None? && s.streams[i].tx.q.cancelled
  {
    ReachableOk(s);
    assert StreamOk(s, s.streams[i]);
  }

  /** blocked_streams is the number of tracked streams with write_blocked set. */
  lemma BlockedCounted(s: State)
    requires Reachable(s)
    ensures s.blockedStreams == Sum(BlockedWeight, s.streams)
  {
    ReachableOk(s);
  }

  /** A stream nghttp3 offers is never already marked blocked, so blocking it is progress. */
  lemma OfferedIsUnblocked(s: State, i: nat, count: nat)
    requires Reachable(s) && Offers(s, i, count) && s.streams[i].tracked
    ensures !s.streams[i].tx.writeBlocked
  {
    ReachableOk(s);
    assert StreamOk(s, s.streams[i]);
  }

  // ---- lifetimes ----

  /** While a task can touch its stream, the stream is not reclaimed and the session not destroyed. */
  lemma TasksOutlivedByTheirStream(s: State, t: nat)
    requires Reachable(s) && t < |s.tasks|
    ensures s.tasks[t].pc != Gone ==> !s.destroyed
    ensures Touches(s.tasks[t]) ==> s.tasks[t].stream < |s.streams| && s.streams[s.tasks[t].stream].tracked
                                    && !s.streams[s.tasks[t].stream].tx.clean
  {
    ReachableOk(s);
    if Touches(s.tasks[t]) {
      assert Held(s, s.tasks[t].stream);
      assert StreamOk(s, s.streams[s.tasks[t].stream]);
    }
  }

  /** active_tasks counts the tasks between their increment and their decrement. */
  lemma ActiveTasksExact(s: State)
    requires Reachable(s)
    ensures s.activeTasks == Sum(ActiveWeight, s.tasks) + EventWeight(s.event)
  {
    ReachableOk(s);
  }

  /** At most one task touches a stream, and none while the dispatcher holds it. */
  lemma OneTaskPerStream(s: State, t: nat, u: nat)
    requires Reachable(s) && t < |s.tasks| && u < |s.tasks| && Touches(s.tasks[t])
    ensures Touches(s.tasks[u]) && s.tasks[t].stream == s.tasks[u].stream ==> t == u
    ensures !Reserving(s, s.tasks[t].stream)
  {
    ReachableOk(s);
  }

  // ---- dispatch ----

  /** Every stream handed to a worker is a complete, well-formed bidirectional request. */
  lemma DispatchedAreServable(s: State, i: nat)
    requires Reachable(s) && i < |s.streams| && s.streams[i].dispatched
    ensures Servable(s.streams[i])
  {
    ReachableOk(s);
    assert StreamOk(s, s.streams[i]);
  }

  // ---- what never goes back ----

  ghost predicate TxEvolves(a: Tx, b: Tx)
  {
    && Appended(a.q) <= Appended(b.q) && a.wire <= b.wire
    && (a.q.cancelled ==> b.q.cancelled) && (a.failed ==> b.failed)
    && (a.concluded ==> b.concluded && b.wire == a.wire)
  }

  /** How one stream may change over time. */
  ghost predicate Evolves(a: Stream, b: Stream)
  {
    && b.id == a.id
    && (b.qstream == a.qstream || b.qstream == None)
    && (a.done ==> b.done) && (a.workerDone ==> b.workerDone) && (a.rejected ==> b.rejected)
    && (b.tracked ==> a.tracked)
    && a.rx.body <= b.rx.body
    && (a.rx.fin ==> b.rx.fin && b.rx.body == a.rx.body && b.rx.malformed == a.rx.malformed)
    && TxEvolves(a.tx, b.tx)
  }

  lemma EvolvesTransitive(a: Stream, b: Stream, c: Stream)
    requires Evolves(a, b) && Evolves(b, c)
    ensures Evolves(a, c)
  {
  }

  ghost predicate AllEvolve(s: State, r: State)
  {
    |s.streams| <= |r.streams| && forall i | 0 <= i < |s.streams| :: Evolves(s.streams[i], r.streams[i])
  }

  lemma EvolvesSelf(st: Stream)
    ensures Evolves(st, st)
  {
  }

  lemma PutEvolves(s: State, i: nat, st: Stream)
    requires i < |s.streams| && Evolves(s.streams[i], st)
    ensures AllEvolve(s, Put(s, i, st))
  {
    forall j | 0 <= j < |s.streams|
      ensures Evolves(s.streams[j], Put(s, i, st).streams[j])
    {
      EvolvesSelf(s.streams[j]);
    }
  }

  lemma SameStreamsEvolve(s: State, r: State)
    requires s.streams == r.streams
    ensures AllEvolve(s, r)
  {
    forall j | 0 <= j < |s.streams|
      ensures Evolves(s.streams[j], r.streams[j])
    {
      EvolvesSelf(s.streams[j]);
    }
  }

  lemma WorkerEvolves(s: State, a: WorkerStep)
    requires Inv(s) && WorkerEnabled(s, a)
    ensures AllEvolve(s, WorkerApply(s, a))
  {
    var i := s.tasks[a.task].stream;
    if a.Begin? || a.LeaveTask? {
      SameStreamsEvolve(s, WorkerApply(s, a));
    } else {
      assert StreamOk(s, s.streams[i]);
      if a.QueueBytes? {
        PushKeeps(s.streams[i].tx.q, a.data[..ChunkLen(s.streams[i].tx.q, a.data)]);
      }
      PutEvolves(s, i, WorkerApply(s, a).streams[i]);
      assert WorkerApply(s, a).streams == s.streams[i := WorkerApply(s, a).streams[i]];
    }
  }

  lemma PutTxEvolves(s: State, i: nat, tx: Tx)
    requires i < |s.streams| && TxEvolves(s.streams[i].tx, tx)
    ensures AllEvolve(s, PutTx(s, i, tx))
  {
    PutEvolves(s, i, s.streams[i].(tx := tx));
  }

  /** Sending only ever adds to the wire, and adds nothing after FIN. */
  lemma SendingEvolves(s: State, a: SendStep)
    requires Inv(s) && SendingEnabled(s, a)
    ensures AllEvolve(s, SendingApply(s, a))
  {
    if a.FreeHandle? || a.WritevFails? {
      SameStreamsEvolve(s, SendingApply(s, a));
    } else if a.Swallow? || a.Went? || a.Block? || a.Break? {
      WritingEvolves(s, a);
    } else {
      PullingEvolves(s, a);
    }
  }

  lemma PullingEvolves(s: State, a: SendStep)
    requires Inv(s) && SendingEnabled(s, a)
    requires a.NgFrame? || a.PullData? || a.PullEof? || a.PullStall? || a.Unblock?
    ensures AllEvolve(s, SendingApply(s, a))
  {
    var t := s.streams[a.i].tx;
    match a
    case NgFrame(i, n) => PutTxEvolves(s, i, FrameTx(t, n));
    case PullData(i, veccnt, header) =>
      assert StreamOk(s, s.streams[i]);
      ReadKeeps(t.q, veccnt);
      PutTxEvolves(s, i, TakeTx(t, veccnt, header));
    case PullEof(i) => PutTxEvolves(s, i, EofTx(t));
    case PullStall(i) => PutTxEvolves(s, i, StallTx(t));
    case Unblock(i) => PutTxEvolves(s, i, UnblockTx(t));
  }

  lemma WritingEvolves(s: State, a: SendStep)
    requires Inv(s) && SendingEnabled(s, a) && (a.Swallow? || a.Went? || a.Block? || a.Break?)
    ensures AllEvolve(s, SendingApply(s, a))
  {
    var t := s.streams[a.i].tx;
    assert StreamOk(s, s.streams[a.i]);
    match a
    case Swallow(i, count) =>
      OffsetsEvolve(t, t, Expected(t, count), Fin(t, count));
      PutTxEvolves(s, i, SwallowTx(t, count));
    case Went(i, count) =>
      WentEvolves(t, count);
      PutTxEvolves(s, i, WentTx(t, count));
    case Block(i, _, n) =>
      OffsetsEvolve(t, Took(t, n, false), n, false);
      PutTxEvolves(s, i, BlockedTx(t, n));
    case Break(i, count, n) =>
      BrokenEvolves(t, count, n);
      PutTxEvolves(s, i, BrokenTx(t, count, n));
  }

  lemma WentEvolves(t: Tx, count: nat)
    requires TxOk(t) && t.open && !t.concluded && count <= |t.out|
    ensures TxEvolves(t, WentTx(t, count))
  {
    var n := Expected(t, count);
    OffsetsEvolve(t, Took(t, n, Fin(t, count)), n, Fin(t, count));
  }

  lemma BrokenEvolves(t: Tx, count: nat, n: nat)
    requires TxOk(t) && t.open && !t.concluded && count <= |t.out| && n <= Total(t.out)
    ensures TxEvolves(t, BrokenTx(t, count, n))
  {
    OffsetsEvolve(t, Took(t, n, false).(failed := true), Expected(t, count), Fin(t, count));
  }

  /** `u` is what the transport made of the unfinished stream `t`. */
  lemma OffsetsEvolve(t: Tx, u: Tx, n: nat, fin: bool)
    requires TxOk(t) && t.open && !t.concluded && n <= Total(t.out)
    requires u.q == t.q && u.out == t.out && t.wire <= u.wire && (t.failed ==> u.failed)
    ensures TxEvolves(t, AddOffsets(u, n, fin))
  {
    AdvanceFrame(t, n);
  }

  lemma AllEvolveTransitive(s: State, m: State, r: State)
    requires AllEvolve(s, m) && AllEvolve(m, r)
    ensures AllEvolve(s, r)
  {
    forall i | 0 <= i < |s.streams|
      ensures Evolves(s.streams[i], r.streams[i])
    {
      EvolvesTransitive(s.streams[i], m.streams[i], r.streams[i]);
    }
  }

  lemma QueueFreeEvolves(s: State, i: nat, st: Stream)
    requires i < |s.streams| && Evolves(s.streams[i], st)
    ensures AllEvolve(s, QueueFree(Put(s, i, st), i))
  {
    QueueFreeAt(Put(s, i, st), i);
    var f := st.(qstream := None);
    PutEvolves(s, i, f);
    assert QueueFree(Put(s, i, st), i).streams == s.streams[i := f];
  }

  lemma CallbackEvolves(s: State, i: nat, cb: Callback)
    requires i < |s.streams|
    requires s.streams[i].rx.fin ==> cb.StopSending? || cb.ResetStream? || cb.StreamClosed?
    ensures AllEvolve(s, OnCallback(s, i, cb))
  {
    var st := s.streams[i];
    SameStreamsEvolve(s, s);
    if cb.StopSending? {
      QueueFreeEvolves(s, i, CancelStream(st).(done := true, rx := st.rx.(bodyComplete := true)));
    } else if cb.StreamClosed? {
      ClosedEvolves(s, i);
    } else if cb.ResetStream? {
      PutEvolves(s, i, CancelStream(st).(done := true));
    } else {
      ReceiveEvolves(st, cb);
      PutEvolves(s, i, Receive(st, cb));
    }
  }

  lemma ReceiveEvolves(st: Stream, cb: Callback)
    requires st.rx.fin ==> cb.StopSending? || cb.ResetStream? || cb.StreamClosed?
    ensures Evolves(st, Receive(st, cb))
  {
  }

  lemma ClosedEvolves(s: State, i: nat)
    requires i < |s.streams|
    ensures AllEvolve(s, StreamClosedCb(s, i))
  {
    var st := s.streams[i].(tx := CloseTx(s.streams[i].tx));
    QueueFreeEvolves(s, i, CancelStream(st).(done := true));
    PutEvolves(s, i, st);
  }

  lemma {:induction false} CallbacksEvolve(s: State, i: nat, cbs: seq<Callback>, feeding: bool)
    requires i < |s.streams| && Permitted(s.streams[i].rx, cbs, feeding)
    ensures AllEvolve(s, OnCallbacks(s, i, cbs))
    decreases |cbs|
  {
    SameStreamsEvolve(s, s);
    if cbs != [] {
      CallbackEvolves(s, i, cbs[0]);
      CallbackFrame(s, i, cbs[0]);
      var m := OnCallback(s, i, cbs[0]);
      CallbacksEvolve(m, i, cbs[1..], feeding);
      AllEvolveTransitive(s, m, OnCallbacks(m, i, cbs[1..]));
    }
  }

  lemma RejectEvolves(s: State, i: nat)
    requires i < |s.streams|
    ensures AllEvolve(s, Reject(s, i))
  {
    CallbackEvolves(s, i, StreamClosed);
    var m := OnCallback(s, i, StreamClosed);
    PutEvolves(m, i, Rejected(m.streams[i]));
    AllEvolveTransitive(s, m, Put(m, i, Rejected(m.streams[i])));
  }

  lemma AfterReadEvolves(s: State, i: nat, end: ReadEnd)
    requires i < |s.streams|
    ensures AllEvolve(s, AfterRead(s, i, end))
  {
    RejectEvolves(s, i);
    SameStreamsEvolve(s, s);
    PutEvolves(s, i, s.streams[i].(done := true));
  }

  lemma AfterFinEvolves(s: State, i: nat, end: ReadEnd)
    requires i < |s.streams|
    ensures AllEvolve(s, AfterFin(s, i, end))
  {
    AfterReadEvolves(s, i, end);
    SameStreamsEvolve(s, s.(dead := true));
    var m := if end == Fatal then s.(dead := true) else AfterRead(s, i, end);
    var st := m.streams[i].(rx := m.streams[i].rx.(bodyComplete := true, fin := true));
    PutEvolves(m, i, st);
    AllEvolveTransitive(s, m, Put(m, i, st));
  }

  lemma ReceivingEvolves(s: State, a: ReceiveStep)
    requires Inv(s) && ReceivingEnabled(s, a)
    ensures AllEvolve(s, ReceivingApply(s, a))
  {
    match a
    case Track(id) => TrackEvolves(s, NewStream(id, s.handles, s.bufferSize));
    case Refuse => SameStreamsEvolve(s, ReceivingApply(s, a));
    case ReadStream(i, cbs, end) =>
      CallbacksEvolve(s, i, cbs, false);
      AfterReadEvolves(OnCallbacks(s, i, cbs), i, end);
      AllEvolveTransitive(s, OnCallbacks(s, i, cbs), ReceivingApply(s, a));
    case FeedFin(i, cbs, end) =>
      CallbacksEvolve(s, i, cbs, true);
      AfterFinEvolves(OnCallbacks(s, i, cbs), i, end);
      AllEvolveTransitive(s, OnCallbacks(s, i, cbs), ReceivingApply(s, a));
    case Notify(i, cb) => CallbackEvolves(s, i, cb);
  }

  lemma TrackEvolves(s: State, st: Stream)
    ensures AllEvolve(s, s.(streams := s.streams + [st], handles := s.handles + 1))
  {
    forall i | 0 <= i < |s.streams|
      ensures Evolves(s.streams[i], (s.streams + [st])[i])
    {
      EvolvesSelf(s.streams[i]);
    }
  }

  lemma DispatchingEvolves(s: State, a: DispatchStep)
    requires Inv(s) && DispatchingEnabled(s, a)
    ensures AllEvolve(s, DispatchingApply(s, a))
  {
    var r := DispatchingApply(s, a);
    if s.streams == r.streams {
      SameStreamsEvolve(s, r);
    } else {
      var i := if a.Reserve? then s.completed[0] else s.event.stream;
      EvolvesSelf(s.streams[i]);
      PutEvolves(s, i, r.streams[i]);
    }
  }

  lemma EndingEvolves(s: State, a: EndStep)
    requires Inv(s) && EndingEnabled(s, a)
    ensures AllEvolve(s, EndingApply(s, a))
  {
    match a
    case Abandon(i) => PutEvolves(s, i, s.streams[i].(tx := CancelTx(s.streams[i].tx)));
    case Reclaim(i) => PutEvolves(s, i, s.streams[i].(tracked := false, tx := CleanTx(s.streams[i].tx)));
    case Abort => SameStreamsEvolve(s, EndingApply(s, a));
    case Destroy => DestroyEvolves(s);
  }

  lemma EndedEvolves(st: Stream)
    ensures Evolves(st, Ended(st))
  {
  }

  lemma DestroyEvolves(s: State)
    ensures AllEvolve(s, DestroyAll(s))
  {
    EndAllAt(s.streams);
    forall i | 0 <= i < |s.streams|
      ensures Evolves(s.streams[i], DestroyAll(s).streams[i])
    {
      EndedEvolves(s.streams[i]);
    }
  }

  lemma StepEvolves(s: State, a: Action)
    requires Inv(s) && Enabled(s, a)
    ensures AllEvolve(s, Apply(s, a))
  {
    match a
    case Worker(w) => WorkerEvolves(s, w);
    case Receiving(r) => ReceivingEvolves(s, r);
    case Sending(t) => SendingEvolves(s, t);
    case Dispatching(d) => DispatchingEvolves(s, d);
    case Ending(e) => EndingEvolves(s, e);
  }

  lemma {:induction false} RunEvolves(s: State, run: seq<Action>, r: State)
    requires Inv(s) && Runs(s, run, r)
    ensures AllEvolve(s, r) && Inv(r)
    decreases |run|
  {
    SameStreamsEvolve(s, s);
    if run != [] {
      StepOk(s, run[0]);
      StepEvolves(s, run[0]);
      RunEvolves(Apply(s, run[0]), run[1..], r);
      AllEvolveTransitive(s, Apply(s, run[0]), r);
    }
  }

  /** Once a task has finished normally, no later task ever touches its stream. */
  lemma FinishedIsFinal(s: State, run: seq<Action>, r: State, i: nat, t: nat)
    requires Reachable(s) && Runs(s, run, r) && i < |s.streams| && s.streams[i].workerDone && t < |r.tasks|
    ensures !(Touches(r.tasks[t]) && r.tasks[t].stream == i)
  {
    ReachableOk(s);
    RunEvolves(s, run, r);
  }

  /** The request body a worker reads without the lock never changes under it, nor does the verdict on it. */
  lemma BodyFrozen(s: State, run: seq<Action>, r: State, t: nat)
    requires Reachable(s) && Runs(s, run, r) && t < |s.tasks| && Touches(s.tasks[t])
    ensures var i := s.tasks[t].stream;
            i < |s.streams| <= |r.streams| && r.streams[i].rx.body == s.streams[i].rx.body && !r.streams[i].rx.malformed
  {
    ReachableOk(s);
    RunEvolves(s, run, r);
    var i := s.tasks[t].stream;
    assert Held(s, i);
    assert StreamOk(s, s.streams[i]);
  }

  /** After FIN nothing more goes on the wire of that stream. */
  lemma NothingAfterFin(s: State, run: seq<Action>, r: State, i: nat)
    requires Reachable(s) && Runs(s, run, r) && i < |s.streams| && s.streams[i].tx.concluded
    ensures i < |r.streams| && r.streams[i].tx.concluded && r.streams[i].tx.wire == s.streams[i].tx.wire
  {
    ReachableOk(s);
    RunEvolves(s, run, r);
  }

  // ---- handles ----

  /** Every handle ever taken in is in one stream's slot, queued to be freed or freed, and in only one of them, once. */
  lemma HandleOwnership(s: State, h: nat, i: nat, j: nat)
    requires Reachable(s) && i < |s.streams| && j < |s.streams|
    ensures h < s.handles <==> Somewhere(s, h)
    ensures Distinct(s.pendingFree + s.freed)
    ensures s.streams[i].qstream.Some? ==> s.streams[i].qstream.value !in s.pendingFree + s.freed
    ensures s.streams[i].qstream.Some? && s.streams[i].qstream == s.streams[j].qstream ==> i == j
  {
    ReachableOk(s);
    ReachableRecords(s);
    if Somewhere(s, h) {
      KnownHandle(s, h);
    }
  }

  lemma KnownHandle(s: State, h: nat)
    requires HandlesOk(s) && Somewhere(s, h)
    ensures h < s.handles
  {
    if h in s.pendingFree || h in s.freed {
      assert h in s.pendingFree + s.freed;
    } else {
      var k :| 0 <= k < |s.streams| && s.streams[k].qstream == Some(h);
    }
  }

  // ---- malformed requests ----

  /** Rejections are counted once each, stop one past the limit, and passing it closes the session. */
  lemma MalformedContained(s: State)
    requires Reachable(s)
    ensures s.streamErrors == Sum(RejectedWeight, s.streams) <= s.maxStreamErrors + 1
    ensures s.streamErrors > s.maxStreamErrors <==> s.excessive
    ensures s.excessive ==> s.dead
  {
    ReachableOk(s);
  }

  /** What a dead session no longer does: no stream is read or written, no request collected, dispatched or answered. */
  predicate Idles(a: Action)
  {
    match a
    case Worker(w) => !w.QueueBytes? && !w.Submit?
    case Receiving(r) => !r.ReadStream? && !r.FeedFin?
    case Sending(t) => t.NgFrame? || t.FreeHandle?
    case Dispatching(d) => d.NewPass?
    case Ending(e) => true
  }

  /** The same bodies on the wire, and no new task. */
  predicate Stands(s: State, r: State)
  {
    && |s.streams| <= |r.streams| && |r.tasks| == |s.tasks|
    && forall i | 0 <= i < |s.streams| :: r.streams[i].tx.wire == s.streams[i].tx.wire
  }

  lemma CallbackStands(s: State, i: nat, cb: Callback)
    requires i < |s.streams|
    ensures Stands(s, OnCallback(s, i, cb))
  {
    CallbackApart(s, i, cb);
    if cb.StopSending? {
      QueueFreeAt(StoppedAt(s, i), i);
    } else if cb.StreamClosed? {
      QueueFreeAt(ClosedAt(s, i), i);
    }
  }

  /** Stream i as the two callbacks that give its handle up leave it before they do. */
  function StoppedAt(s: State, i: nat): (r: State)
    requires i < |s.streams|
    ensures |r.streams| == |s.streams|
  {
    var st := CancelStream(s.streams[i]);
    Put(s, i, st.(done := true, rx := st.rx.(bodyComplete := true)))
  }

  function ClosedAt(s: State, i: nat): (r: State)
    requires i < |s.streams|
    ensures |r.streams| == |s.streams|
  {
    Put(s, i, CancelStream(s.streams[i].(tx := CloseTx(s.streams[i].tx))).(done := true))
  }

  lemma DeadIdles(s: State, a: Action)
    requires Reachable(s) && s.dead && Enabled(s, a)
    ensures Idles(a)
  {
    ReachableRecords(s);
  }

  lemma WorkerStands(s: State, w: WorkerStep)
    requires WorkerEnabled(s, w)
    ensures Stands(s, WorkerApply(s, w))
  {
  }

  lemma {:induction false} DestroyStands(s: State)
    ensures Stands(s, DestroyAll(s))
  {
    EndAllAt(s.streams);
  }

  lemma EndingStands(s: State, e: EndStep)
    requires EndingEnabled(s, e)
    ensures Stands(s, EndingApply(s, e))
  {
    if e.Destroy? {
      DestroyStands(s);
    }
  }

  lemma IdleStands(s: State, a: Action)
    requires Enabled(s, a) && Idles(a)
    ensures Stands(s, Apply(s, a))
  {
    match a
    case Worker(w) => WorkerStands(s, w);
    case Receiving(r) =>
      if r.Notify? {
        CallbackStands(s, r.i, r.cb);
      }
    case Sending(t) =>
    case Dispatching(d) =>
    case Ending(e) => EndingStands(s, e);
  }

  /** A dead session stays dead: over every run nothing more is read, written or dispatched. */
  lemma {:induction false} DeadIsQuiet(s: State, run: seq<Action>, r: State)
    requires Reachable(s) && s.dead && Runs(s, run, r)
    ensures r.dead && Stands(s, r) && forall k | 0 <= k < |run| :: Idles(run[k])
    decreases |run|
  {
    if run != [] {
      DeadIdles(s, run[0]);
      IdleStands(s, run[0]);
      DeadStays(s, run[0]);
      StepReachable(s, run[0]);
      DeadIsQuiet(Apply(s, run[0]), run[1..], r);
      assert forall k | 0 < k < |run| :: run[k] == run[1..][k - 1];
    }
  }

  lemma DeadStays(s: State, a: Action)
    requires s.dead && Enabled(s, a)
    ensures Apply(s, a).dead
  {
    if a.Receiving? && a.r.Notify? {
      CallbackFrame(s, a.r.i, a.r.cb);
    }
  }
}
