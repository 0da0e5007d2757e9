/**
 Three runs in which a response ends in a clean FIN although the peer did not get all of it, one
 for each part of the condition in `FinMeansWholeBody`: chunks cut off at EOF, an append that
 failed, and bytes queued after EOF.
 */
module TruncatedResponses {
  import opened Bytes
  import opened SendQueue
  import opened OutQueue
  import opened Transmit
  import opened SessionModel
  import opened SessionInvariant
  import opened SessionRecords
  import opened SessionTheorems
  import opened SessionSteps
  import opened RequestWorker
  import Capture = ResponseCapture

  /** A stream whose request has arrived whole. */
  ghost predicate Arrived(s: State, run: seq<Action>)
  {
    && Runs(Init(8, 1), run, s) && |s.streams| == 1
    && s == Init(8, 1).(streams := s.streams, handles := 1)
    && s.streams[0] == NewStream(0, 0, 1).(rx := Rx(true, true, true, false, true, []))
  }

  lemma OneRequest() returns (run: seq<Action>, s: State)
    ensures Arrived(s, run)
  {
    s, run := Init(8, 1), [];
    var a := Receiving(Track(0));
    OneMore(Init(8, 1), run, s, a);
    run, s := run + [a], Apply(s, a);
    a := Receiving(ReadStream(0, [BeginHeaders, EndHeaders(false)], Fine));
    OneMore(Init(8, 1), run, s, a);
    run, s := run + [a], Apply(s, a);
    assert s.streams[0].rx == Rx(true, true, false, false, false, []);
    a := Receiving(FeedFin(0, [], Fine));
    OneMore(Init(8, 1), run, s, a);
    run, s := run + [a], Apply(s, a);
  }

  /** The same stream with a worker on it. */
  ghost predicate Serving(s: State, run: seq<Action>)
  {
    && Runs(Init(8, 1), run, s) && |s.streams| == 1 && s.tasks == [Task(0, Running)]
    && EventFree(s) && !s.dead && !s.aborted
    && s.streams[0] == NewStream(0, 0, 1).(rx := Rx(true, true, true, false, true, []), dispatched := true)
  }

  lemma OneTask() returns (run: seq<Action>, s: State)
    ensures Serving(s, run)
  {
    run, s := OneRequest();
    var a := Dispatching(Collect(0));
    OneMore(Init(8, 1), run, s, a);
    run, s := run + [a], Apply(s, a);
    a := Dispatching(Reserve);
    OneMore(Init(8, 1), run, s, a);
    run, s := run + [a], Apply(s, a);
    a := Dispatching(Count);
    OneMore(Init(8, 1), run, s, a);
    run, s := run + [a], Apply(s, a);
    a := Dispatching(PushTask);
    OneMore(Init(8, 1), run, s, a);
    run, s := run + [a], Apply(s, a);
    a := Worker(Begin(0));
    OneMore(Init(8, 1), run, s, a);
    run, s := run + [a], Apply(s, a);
  }

  /** A submitted response with nothing queued. */
  ghost predicate Submitted(s: State)
  {
    && |s.streams| == 1 && s.tasks == [Task(0, Running)] && EventFree(s) && !s.dead && !s.aborted
    && s.streams[0].tracked && s.streams[0].qstream.Some? && !s.streams[0].workerDone
    && Waiting(s.streams[0].tx) && s.streams[0].tx.q.chunks == []
  }

  /** A sending side that has sent nothing: one frame is offered, nothing is pulled, and it is not complete. */
  ghost predicate Waiting(t: Tx)
  {
    && TxOk(t) && t.q.limit == 1 && t.q.cursor == 0 && t.q.freed == 0 && |t.out| == 1
    && t.open && !t.clean && !t.lost && !t.failed && !t.eof && !t.stalled && !t.finDone && !t.concluded
    && t.q.submitted && !t.q.complete && !t.q.cancelled && t.blocked == t.writeBlocked
  }

  lemma OneSubmit() returns (run: seq<Action>, s: State)
    ensures Runs(Init(8, 1), run, s) && Submitted(s) && !s.streams[0].tx.blocked
  {
    run, s := OneTask();
    FreshOk(1);
    var a, t := Worker(Submit(0, 1)), s.streams[0].tx;
    SubmitOk(t, 1);
    OneMore(Init(8, 1), run, s, a);
    run, s := run + [a], Apply(s, a);
  }

  /** One byte fills the queue. */
  ghost predicate Full(s: State)
  {
    && |s.streams| == 1 && s.tasks == [Task(0, Running)] && EventFree(s) && !s.dead && !s.aborted
    && s.streams[0].tracked && s.streams[0].qstream.Some? && !s.streams[0].workerDone
    && Waiting(s.streams[0].tx) && s.streams[0].tx.q.chunks == [[7]] && Buffered(s.streams[0].tx.q) == 1
  }

  lemma OneByteFits(t: Tx)
    requires Waiting(t) && t.q.chunks == []
    ensures ChunkLen(t.q, [7]) == 1 && Buffered(t.q) == 0
    ensures Waiting(PushTx(t, [7])) && Buffered(PushTx(t, [7]).q) == 1 && PushTx(t, [7]).q.chunks == [[7]]
  {
    PushOk(t, [7]);
    PushValid(t.q, [7]);
  }

  /** The worker queues a byte; it may have another one, for which it then has to wait. */
  lemma QueueOne(run: seq<Action>, s: State) returns (run': seq<Action>, s': State)
    requires Runs(Init(8, 1), run, s) && Submitted(s)
    ensures Runs(Init(8, 1), run', s') && Full(s') && s'.streams[0].tx.blocked == s.streams[0].tx.blocked
  {
    var a := Worker(QueueBytes(0, [7]));
    OneByteFits(s.streams[0].tx);
    assert [7][..1] == [7];
    OneMore(Init(8, 1), run, s, a);
    run', s' := run + [a], Apply(s, a);
  }

  // ---- abandoned for lack of progress ----

  /** A send buffer that takes nothing: the frame stays, and the stream is blocked. */
  lemma NothingTaken(t: Tx)
    requires Waiting(t) && !t.blocked
    ensures CanOffer(t) && 0 < Expected(t, 1) && Waiting(BlockedTx(t, 0)) && BlockedTx(t, 0).q == t.q
    ensures BlockedTx(t, 0).blocked
  {
    OfferCounts(t, 1);
    BlockedOk(t, 0);
  }

  lemma BlockStep(s: State)
    requires Submitted(s) && !s.streams[0].tx.blocked
    ensures Enabled(s, Sending(Block(0, 1, 0)))
    ensures var r := Apply(s, Sending(Block(0, 1, 0))); Submitted(r) && r.streams[0].tx.blocked
  {
    NothingTaken(s.streams[0].tx);
    var r := Apply(s, Sending(Block(0, 1, 0)));
    assert r.streams == [s.streams[0].(tx := BlockedTx(s.streams[0].tx, 0))];
  }

  lemma OneBlocked() returns (run: seq<Action>, s: State)
    ensures Runs(Init(8, 1), run, s) && Submitted(s) && s.streams[0].tx.blocked
  {
    run, s := OneSubmit();
    BlockStep(s);
    OneMore(Init(8, 1), run, s, Sending(Block(0, 1, 0)));
    run, s := run + [Sending(Block(0, 1, 0))], Apply(s, Sending(Block(0, 1, 0)));
  }

  /** The stream is blocked before the worker queues its byte, so a flush leaves that byte in the queue. */
  lemma BlockedAndFull() returns (run: seq<Action>, s: State)
    ensures Runs(Init(8, 1), run, s) && Full(s) && s.streams[0].tx.blocked && Quiet(s.streams)
  {
    run, s := OneBlocked();
    run, s := QueueOne(run, s);
    BlockedIsQuiet(s.streams);
  }

  lemma BlockedIsQuiet(streams: seq<Stream>)
    requires |streams| == 1 && streams[0].tx.blocked
    ensures Quiet(streams)
  {
  }

  /** A FIN is accepted for a response that was cut short. */
  lemma CutConcludes(t: Tx)
    requires TxOk(t) && t.open && !t.clean && !t.lost && !t.failed && CanOffer(t)
    requires t.eof && t.cut && |t.out| == 1
    ensures WentTx(t, 1).concluded && WentTx(t, 1).cut && TxOk(WentTx(t, 1))
    ensures |WentTx(t, 1).wire| < |Appended(t.q)|
  {
    WentOk(t, 1);
  }

  /** The stalled response is abandoned; once there is room its reader reports EOF. */
  lemma CutShort(s: State) returns (run: seq<Action>, r: State)
    requires Full(s) && s.streams[0].tx.blocked && EndingEnabled(s, Abandon(0))
    ensures Runs(Apply(s, Ending(Abandon(0))), run, r) && |r.streams| == 1 && EventFree(r) && !r.dead
    ensures r.streams[0].tracked && r.streams[0].qstream.Some?
    ensures var t := r.streams[0].tx;
            t.open && !t.clean && !t.lost && !t.failed && CanOffer(t) && t.eof && t.cut && |t.out| == 1
  {
    var m := Apply(s, Ending(Abandon(0)));
    var a := Sending(Unblock(0));
    OneStep(m, a);
    run, r := [a], Apply(m, a);
    a := Sending(PullEof(0));
    OneMore(m, run, r, a);
    run, r := run + [a], Apply(r, a);
  }

  /**
   A response abandoned because it made no progress, right after a flush that could do nothing
   for it, is still closed with a clean FIN once there is room: the peer sees a finished stream
   although a queued byte was never sent.
   */
  lemma AbandonedFinishesCleanly() returns (before: seq<Action>, m: State, after: seq<Action>, r: State)
    ensures Runs(Init(8, 1), before, m) && Quiet(m.streams) && Enabled(m, Ending(Abandon(0)))
    ensures Runs(Apply(m, Ending(Abandon(0))), after, r) && |r.streams| == 1
    ensures r.streams[0].tx.concluded && r.streams[0].tx.cut && |r.streams[0].tx.wire| < |Appended(r.streams[0].tx.q)|
  {
    before, m := BlockedAndFull();
    var s := Apply(m, Ending(Abandon(0)));
    after, r := CutShort(m);
    InitOk(8, 1);
    RunOk(Init(8, 1), before, m);
    StepOk(m, Ending(Abandon(0)));
    RunOk(s, after, r);
    assert StreamOk(r, r.streams[0]);
    var a := Sending(Went(0, 1));
    CutConcludes(r.streams[0].tx);
    OneMore(s, after, r, a);
    after, r := after + [a], Apply(r, a);
  }

  // ---- a wait that fails ----

  /** The worker waits for room with the rest of its body in hand. */
  ghost predicate WaitsForRoom(s: State)
  {
    && TaskAt(s, 0, Running) && !Unwanted(s, 0) && Valid(StreamOf(s, 0).tx.q)
    && Buffered(StreamOf(s, 0).tx.q) >= StreamOf(s, 0).tx.q.limit
  }

  /** The wait has failed: the worker completes the response as far as it got and finishes. */
  lemma GivesUpWaiting(s: State) returns (run: seq<Action>, r: State)
    requires Full(s) && Reachable(s)
    ensures Runs(s, run, r) && Reachable(r) && |r.streams| == 1 && EventFree(r) && !r.dead
    ensures r.streams[0].tracked && r.streams[0].qstream.Some? && r.streams[0].workerDone
    ensures r.streams[0].tx == s.streams[0].tx.(q := s.streams[0].tx.q.(complete := true))
  {
    var a := Worker(Complete(0));
    OneStep(s, a);
    StepReachable(s, a);
    run, r := [a], Apply(s, a);
    a := Worker(FinishTask(0));
    OneMore(s, run, r, a);
    StepReachable(r, a);
    run, r := run + [a], Apply(r, a);
  }

  /** The reader finds a completed queue of one chunk: it hands it out and reports EOF. */
  lemma LastPull(t: Tx)
    requires TxOk(t) && t.q.chunks == [[7]] && t.q.cursor == 0 && t.q.complete && !t.q.cancelled && |t.out| == 1
    requires CanPull(t) && !t.clean && !t.failed && !t.lost && !t.finDone
    ensures var u := TakeTx(t, 1, 1);
            && TxOk(u) && u.eof && !u.cut && |u.out| == 3 && u.q.chunks == t.q.chunks && !u.q.cancelled && CanOffer(u)
            && Sealed(u) && u.q.limit == t.q.limit && u.q.submitted == t.q.submitted && u.q.complete
  {
    TakeOk(t, 1, 1);
    SpanAt(t.q.chunks, 0, 1);
    WrapBodies(Read(t.q, 1).1);
  }

  lemma LastWrite(t: Tx)
    requires TxOk(t) && t.eof && !t.cut && |t.out| == 3 && CanOffer(t) && !t.clean && !t.failed && !t.lost
    ensures WentTx(t, 3).concluded && WentOut(WentTx(t, 3), t.q) && (Sealed(t) ==> Sealed(WentTx(t, 3)))
  {
    AdvanceFrame(t, Expected(t, 3));
  }

  /** Nothing was dropped or cut off, and the queue is the one of before but for what is acknowledged. */
  predicate WentOut(t: Tx, q: Queue)
  {
    && !t.cut && !t.lost && !t.clean
    && t.q.chunks == q.chunks && t.q.cancelled == q.cancelled && t.q.complete == q.complete
    && t.q.limit == q.limit && t.q.submitted == q.submitted
  }

  /** A stream that has one chunk to send and is complete. */
  ghost predicate LastChunk(s: State)
  {
    && Reachable(s) && |s.streams| == 1 && EventFree(s) && !s.dead && s.streams[0].tracked
    && s.streams[0].qstream.Some?
    && var t := s.streams[0].tx;
       && t.q.chunks == [[7]] && t.q.cursor == 0 && t.q.complete && !t.q.cancelled && |t.out| == 1
       && CanPull(t) && !t.clean && !t.failed && !t.lost && !t.finDone
  }

  /** What was queued is written, and FIN with it. */
  lemma WritesOut(s: State) returns (run: seq<Action>, r: State)
    requires LastChunk(s)
    ensures Runs(s, run, r) && |r.streams| == 1 && r == s.(streams := r.streams)
    ensures r.streams[0] == s.streams[0].(tx := r.streams[0].tx)
    ensures r.streams[0].tx.concluded && WentOut(r.streams[0].tx, s.streams[0].tx.q) && Sealed(r.streams[0].tx)
  {
    ReachableOk(s);
    assert StreamOk(s, s.streams[0]);
    var t := s.streams[0].tx;
    LastPull(t);
    var a := Sending(PullData(0, 1, 1));
    OneStep(s, a);
    run, r := [a], Apply(s, a);
    LastWrite(r.streams[0].tx);
    a := Sending(Went(0, 3));
    OneMore(s, run, r, a);
    run, r := run + [a], Apply(r, a);
  }

  /** From a full queue to the clean FIN of what was in it. */
  lemma EndsEarly(m: State) returns (run: seq<Action>, r: State)
    requires Full(m) && Reachable(m) && !m.streams[0].tx.blocked
    ensures Runs(m, run, r) && |r.streams| == 1 && Served(r, 0, [7, 8], false)
    ensures r.streams[0].tx.concluded && r.streams[0].tx.wire == [7]
    ensures !r.streams[0].tx.cut && !r.streams[0].tx.q.cancelled
  {
    OneChunk([7]);
    var done, rest;
    run, done := GivesUpWaiting(m);
    rest, r := WritesOut(done);
    RunsJoin(m, run, done, rest, r);
    RunServed(done, rest, r, 0, [7, 8], false);
    ServedWire(done, rest, r, 0, [7]);
    run := run + rest;
  }

  /**
   A worker with two bytes to send queues one and waits for room; the wait fails.  Nothing is
   cancelled, the response is completed as it stands, and it ends in a clean FIN after one byte.
   */
  lemma FailedWaitFinishesCleanly() returns (before: seq<Action>, m: State, after: seq<Action>, r: State)
    ensures Runs(Init(8, 1), before, m) && WaitsForRoom(m) && Appended(StreamOf(m, 0).tx.q) == [7]
    ensures Runs(m, after, r) && |r.streams| == 1 && Served(r, 0, [7, 8], false)
    ensures r.streams[0].tx.concluded && r.streams[0].tx.wire == [7]
    ensures !r.streams[0].tx.cut && !r.streams[0].tx.q.cancelled
  {
    before, m := OneFull();
    OneChunk([7]);
    after, r := EndsEarly(m);
  }

  lemma OneFull() returns (run: seq<Action>, s: State)
    ensures Runs(Init(8, 1), run, s) && Full(s) && !s.streams[0].tx.blocked && Reachable(s)
  {
    run, s := OneSubmit();
    run, s := QueueOne(run, s);
  }

  lemma OneChunk(c: seq<byte>)
    ensures Flatten([c]) == c
  {
    FlattenSnoc([], c);
    assert [] + [c] == [c];
  }

  /** Seen from what was queued alone, the worker was successful. */
  lemma ServedWire(s: State, run: seq<Action>, r: State, i: nat, got: seq<byte>)
    requires Reachable(s) && Runs(s, run, r) && i < |s.streams| && s.streams[i].workerDone && Sealed(s.streams[i].tx)
    requires Appended(s.streams[i].tx.q) == got && s.streams[i].tx.q.submitted && s.streams[i].tx.q.complete
    ensures i < |r.streams| && (r.streams[i].tx.concluded && !r.streams[i].tx.cut ==> r.streams[i].tx.wire == got)
  {
    FinMeansWholeBody(s, run, r, i, got, true);
  }

  // ---- bytes behind the end of the stream ----

  /** What a handler may pass on in streaming mode: some bytes, an end of stream, and more bytes. */
  function BytesEosBytes(x: seq<byte>, y: seq<byte>): (o: Capture.Output)
  {
    Capture.Output(true, false, 0, [[Capture.Data([x]), Capture.Eos, Capture.Data([y])]])
  }

  /** All of it is the body, and what comes second is what streaming queues late. */
  lemma SecondIsLate(x: seq<byte>, y: seq<byte>)
    requires y != []
    ensures Capture.Body(BytesEosBytes(x, y)) == x + y && LateOutput(BytesEosBytes(x, y))
  {
    var a, b, c := Capture.Data([x]), Capture.Eos, Capture.Data([y]);
    OneChunk(x);
    OneChunk(y);
    ThreeBuckets(a, b, c);
    OneBrigade([a, b, c]);
    LateThird(a, b, c);
    assert x + ([] + y) == x + y;
  }

  lemma LateThird(a: Capture.Bucket, b: Capture.Bucket, c: Capture.Bucket)
    requires b.Eos? && c.Data? && Capture.Content(c) != []
    ensures Capture.LateData([a, b, c])
  {
    var f := [a, b, c];
    assert f[1].Eos? && Capture.Carries(f, 2);
  }

  /** A request of one readable brigade without errors. */
  lemma OneBrigade(f: seq<Capture.Bucket>)
    requires Capture.AllRead(f) && forall k | 0 <= k < |f| :: !f[k].Error?
    ensures Capture.SeenAll(false, [f]) == f && Capture.HeardAll(false, [f]) == f
  {
    Capture.AllHeard(f);
    assert [f][..0] == [] && [] + f == f;
  }

  lemma ThreeBuckets(a: Capture.Bucket, b: Capture.Bucket, c: Capture.Bucket)
    ensures Capture.Whole([a, b, c]) == Capture.Content(a) + (Capture.Content(b) + Capture.Content(c))
    ensures Capture.AllRead([a, b, c]) <==> !a.Unreadable? && !b.Unreadable? && !c.Unreadable?
  {
    assert [c][1..] == [] && [b, c][1..] == [c] && [a, b, c][1..] == [b, c];
    assert Capture.Whole([c]) == Capture.Content(c) + [] == Capture.Content(c);
    assert Capture.Whole([b, c]) == Capture.Content(b) + Capture.Content(c);
    assert Capture.AllRead([c]) <==> !c.Unreadable?;
    assert Capture.AllRead([b, c]) <==> !b.Unreadable? && !c.Unreadable?;
  }

  /** An end-of-stream bucket completes the response while the worker goes on. */
  lemma CompletesEarly(m: State) returns (s: State)
    requires Full(m) && Reachable(m) && !m.streams[0].tx.blocked
    ensures Runs(m, [Worker(Complete(0))], s) && LastChunk(s) && s == m.(streams := s.streams)
    ensures s.streams[0] == m.streams[0].(tx := s.streams[0].tx)
    ensures s.streams[0].tx.q == m.streams[0].tx.q.(complete := true)
  {
    var a := Worker(Complete(0));
    OneStep(m, a);
    StepReachable(m, a);
    s := Apply(m, a);
  }

  /** Once everything is out and acknowledged there is room again. */
  lemma RoomAgain(t: Tx)
    requires TxOk(t) && t.concluded && !t.cut && !t.lost && !t.clean && Sealed(t)
    ensures Buffered(t.q) == 0 && t.wire == Appended(t.q)
  {
    StartTotal(t.q.chunks);
    assert |t.wire| == Acked(t.q) && |t.wire| == t.eofAt;
  }

  lemma RunStaysReachable(s: State, run: seq<Action>, r: State)
    requires Reachable(s) && Runs(s, run, r)
    ensures Reachable(r)
  {
    var first, maxErrors: nat, bufferSize: nat :| 0 < bufferSize && Runs(Init(maxErrors, bufferSize), first, s);
    RunsJoin(Init(maxErrors, bufferSize), first, s, run, r);
  }

  /** A response that is out whole, with one chunk ever queued. */
  ghost predicate OutWhole(t: Tx)
  {
    && TxOk(t) && t.concluded && Sealed(t) && !t.cut && !t.lost && !t.clean
    && t.q.submitted && t.q.complete && !t.q.cancelled && t.q.limit == 1 && t.q.chunks == [[7]]
  }

  /** Another chunk behind it is queued and changes nothing of what was sent. */
  predicate SentOneOfTwo(t: Tx)
  {
    && t.concluded && !t.cut && t.wire == [7] && t.eofAt == 1
    && t.q.submitted && t.q.complete && !t.q.cancelled && t.q.chunks == [[7], [8]]
  }

  lemma LateByte(t: Tx)
    requires OutWhole(t)
    ensures Buffered(t.q) == 0 && ChunkLen(t.q, [8]) == 1 && SentOneOfTwo(PushTx(t, [8]))
  {
    RoomAgain(t);
    OneChunk([7]);
    StartTotal([[7]]);
    assert [[7]] + [[8]] == [[7], [8]];
  }

  /** The worker queues its second byte after FIN, with success. */
  lemma QueuesLate(s: State) returns (r: State)
    requires |s.streams| == 1 && s.tasks == [Task(0, Running)] && !s.dead && !s.aborted && OutWhole(s.streams[0].tx)
    ensures Runs(s, [Worker(QueueBytes(0, [8]))], r) && r == s.(streams := r.streams) && |r.streams| == 1
    ensures SentOneOfTwo(r.streams[0].tx)
  {
    LateByte(s.streams[0].tx);
    assert [8][..1] == [8];
    OneStep(s, Worker(QueueBytes(0, [8])));
    r := Apply(s, Worker(QueueBytes(0, [8])));
  }

  lemma Finishes(s: State) returns (r: State)
    requires |s.streams| == 1 && s.tasks == [Task(0, Running)] && SentOneOfTwo(s.streams[0].tx)
    ensures Runs(s, [Worker(FinishTask(0))], r) && |r.streams| == 1 && SentOneOfTwo(r.streams[0].tx)
    ensures Served(r, 0, [7, 8], true)
  {
    OneStep(s, Worker(FinishTask(0)));
    r := Apply(s, Worker(FinishTask(0)));
    TwoChunks();
  }

  lemma TwoChunks()
    ensures Flatten([[7], [8]]) == [7, 8]
  {
    OneChunk([7]);
    FlattenSnoc([[7]], [8]);
    assert [[7]] + [[8]] == [[7], [8]];
  }

  /**
   A handler passes a byte behind an end-of-stream bucket.  The response is finished by then: the
   byte is queued with success and never offered.  Nothing is cancelled, no chunk was waiting at
   EOF, every append succeeded, and still the peer gets one byte of two.
   */
  lemma LateBytesAreLost() returns (before: seq<Action>, m: State, after: seq<Action>, r: State)
    ensures Runs(Init(8, 1), before, m) && Full(m)
    ensures Runs(m, after, r) && |r.streams| == 1 && Served(r, 0, [7, 8], true)
    ensures var t := r.streams[0].tx;
            t.concluded && t.wire == [7] && !t.cut && !t.q.cancelled && t.eofAt < |Appended(t.q)|
  {
    before, m := OneFull();
    var done := CompletesEarly(m);
    var sent, s, last;
    sent, s := WritesOut(done);
    RunsJoin(m, [Worker(Complete(0))], done, sent, s);
    after := [Worker(Complete(0))] + sent;
    RunStaysReachable(done, sent, s);
    ReachableOk(s);
    assert StreamOk(s, s.streams[0]);
    last := QueuesLate(s);
    RunsJoin(m, after, s, [Worker(QueueBytes(0, [8]))], last);
    after := after + [Worker(QueueBytes(0, [8]))];
    r := Finishes(last);
    RunsJoin(m, after, last, [Worker(FinishTask(0))], r);
    after := after + [Worker(FinishTask(0))];
    TwoChunks();
  }
}
