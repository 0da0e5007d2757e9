/**
 The moves of the event thread as steps of the session machine: why each is one, what it
 leaves alone, and why flushing ends.
 */
module SessionSteps {
  import opened Bytes
  import opened SendQueue
  import opened OutQueue
  import opened Transmit
  import opened SessionModel
  import opened SessionInvariant
  import opened SessionRecords
  import opened SessionTheorems
  import opened DrainSchedule

  // ---- why flushing ends ----

  /** What nghttp3 can still pull from a stream: chunks, an EOF, one answer that there is nothing yet. */
  function PullWeight(st: Stream): (n: nat)
  {
    var left := |st.tx.q.chunks| - st.tx.q.cursor;
    (if left > 0 then left else 0) + (if st.tx.eof then 0 else 1) + (if st.tx.stalled then 0 else 1)
  }

  /** What is left to write: bytes, a FIN, and one chance to find the stream blocked. */
  function WriteWeight(st: Stream): (n: nat)
  {
    Total(st.tx.out) + (if st.tx.finDone then 0 else 1) + (if st.tx.blocked then 0 else 1)
  }

  lemma PullShrinks(st: Stream, veccnt: nat, header: nat)
    requires Shape(st.tx.q) && CanPull(st.tx) && 0 < veccnt
    ensures Fills(st.tx.q) ==> PullWeight(st.(tx := TakeTx(st.tx, veccnt, header))) < PullWeight(st)
    ensures PullWeight(st.(tx := EofTx(st.tx))) < PullWeight(st)
    ensures PullWeight(st.(tx := StallTx(st.tx))) < PullWeight(st)
  {
  }

  /** Each way a write can end leaves less to write and nothing more to pull. */
  ghost predicate Wrote(t: Tx, r: Tx)
  {
    && r.q.chunks == t.q.chunks && r.q.cursor == t.q.cursor && r.eof == t.eof && r.stalled == t.stalled
    && Total(r.out) <= Total(t.out) && (t.finDone ==> r.finDone) && (t.blocked ==> r.blocked)
    && (Total(r.out) < Total(t.out) || (r.finDone && !t.finDone) || (r.blocked && !t.blocked))
  }

  lemma WroteShrinks(streams: seq<Stream>, i: nat, r: Tx)
    requires i < |streams| && Wrote(streams[i].tx, r)
    ensures Sum(PullWeight, streams[i := streams[i].(tx := r)]) == Sum(PullWeight, streams)
    ensures Sum(WriteWeight, streams[i := streams[i].(tx := r)]) < Sum(WriteWeight, streams)
  {
    SumUpdate(PullWeight, streams, i, streams[i].(tx := r));
    SumUpdate(WriteWeight, streams, i, streams[i].(tx := r));
  }

  /** The stream after nghttp3 has called the data reader. */
  function Pulled(t: Tx, veccnt: nat, header: nat): (r: Tx)
    requires t.q.cursor <= |t.q.chunks|
  {
    var (_, vec, flag) := Read(t.q, veccnt);
    if vec != [] then TakeTx(t, veccnt, header) else if flag == Eof then EofTx(t) else StallTx(t)
  }

  ghost function PullStep(s: State, i: nat, veccnt: nat, header: nat): (a: SendStep)
    requires i < |s.streams|
  {
    var q := s.streams[i].tx.q;
    if Fills(q) then PullData(i, veccnt, header) else if Ends(q) then PullEof(i) else PullStall(i)
  }

  lemma PullIsStep(s: State, i: nat, veccnt: nat, header: nat)
    requires Reachable(s) && Has(s, i) && !s.dead && CanPull(s.streams[i].tx) && 0 < veccnt && 0 < header
    ensures Shape(s.streams[i].tx.q)
    ensures Enabled(s, Sending(PullStep(s, i, veccnt, header)))
    ensures var r := PutTx(s, i, Pulled(s.streams[i].tx, veccnt, header));
            && Apply(s, Sending(PullStep(s, i, veccnt, header))) == r && Reachable(r)
            && Sum(PullWeight, r.streams) < Sum(PullWeight, s.streams)
  {
    ReachableOk(s);
    var st := s.streams[i];
    assert StreamOk(s, st);
    ReadCases(st.tx.q, veccnt);
    PullShrinks(st, veccnt, header);
    SumUpdate(PullWeight, s.streams, i, st.(tx := Pulled(st.tx, veccnt, header)));
    StepReachable(s, Sending(PullStep(s, i, veccnt, header)));
  }

  /** An offer is never empty: it has bytes, or it carries the FIN. */
  lemma OfferCounts(t: Tx, count: nat)
    requires TxOk(t) && CanOffer(t) && count <= |t.out| && (count == 0 ==> t.out == [])
    ensures 0 < Expected(t, count) || (Fin(t, count) && !t.finDone)
  {
  }

  lemma WentShrinks(t: Tx, count: nat)
    requires TxOk(t) && CanOffer(t) && count <= |t.out| && (count == 0 ==> t.out == [])
    ensures Wrote(t, WentTx(t, count))
  {
    OfferCounts(t, count);
    AdvanceFrame(t, Expected(t, count));
  }

  lemma SwallowShrinks(t: Tx, count: nat)
    requires TxOk(t) && CanOffer(t) && count <= |t.out| && (count == 0 ==> t.out == [])
    ensures Wrote(t, SwallowTx(t, count))
  {
    OfferCounts(t, count);
    AdvanceFrame(t, Expected(t, count));
  }

  lemma BrokenShrinks(t: Tx, count: nat, n: nat)
    requires TxOk(t) && CanOffer(t) && count <= |t.out| && n < Expected(t, count)
    ensures Wrote(t, BrokenTx(t, count, n))
  {
    AdvanceFrame(t, Expected(t, count));
  }

  lemma BlockedShrinks(t: Tx, n: nat)
    requires TxOk(t) && CanOffer(t) && n <= Total(t.out)
    ensures Wrote(t, BlockedTx(t, n))
  {
    AdvanceFrame(t, n);
  }

  // ---- what is handed to the transport ----

  /** The bytes behind the offered items; those of nghttp3's own frames are not modelled. */
  function Gather(chunks: seq<seq<byte>>, items: seq<Item>): (vec: seq<seq<byte>>)
    requires AllInside(chunks, items)
    ensures |vec| == |items|
    ensures forall k | 0 <= k < |vec| :: |vec[k]| == Len(items[k])
  {
    if items == [] then []
    else
      var first := match items[0] case Frame(n) => seq(n, k => 0) case Body(v) => BytesOf(chunks, v);
      [first] + Gather(chunks, items[1..])
  }

  lemma {:induction false} GatherTotal(vec: seq<seq<byte>>, items: seq<Item>)
    requires |vec| == |items| && forall k | 0 <= k < |vec| :: |vec[k]| == Len(items[k])
    ensures |Flatten(vec)| == Total(items)
    decreases |vec|
  {
    if vec != [] {
      GatherTotal(vec[1..], items[1..]);
      FlattenCons(vec[0], vec[1..]);
      assert vec == [vec[0]] + vec[1..];
    }
  }

  /** The body bytes among bytes sent for `items`: the positions of nghttp3's own frames are dropped. */
  function Payload(items: seq<Item>, sent: seq<byte>): (r: seq<byte>)
  {
    if items == [] || sent == [] then []
    else
      var n := if Len(items[0]) < |sent| then Len(items[0]) else |sent|;
      (if items[0].Body? then sent[..n] else []) + Payload(items[1..], sent[n..])
  }

  /** Of the first n bytes handed to the transport, those that are body bytes are the ones the vectors carry. */
  lemma {:induction false} PayloadIsCarried(chunks: seq<seq<byte>>, items: seq<Item>, n: nat)
    requires AllInside(chunks, items) && n <= Total(items)
    ensures |Flatten(Gather(chunks, items))| == Total(items)
    ensures Payload(items, Flatten(Gather(chunks, items))[..n]) == Carried(chunks, items, n)
    decreases |items|
  {
    GatherTotal(Gather(chunks, items), items);
    if items != [] {
      var vec, rest := Gather(chunks, items), Gather(chunks, items[1..]);
      var first := vec[0];
      FlattenCons(first, rest);
      assert vec == [first] + rest;
      if n <= |first| {
        assert Flatten(vec)[..n] == first[..n];
        PayloadEnds(items, first[..n]);
      } else {
        PayloadIsCarried(chunks, items[1..], n - |first|);
        assert Flatten(vec)[..n] == first + Flatten(rest)[..n - |first|];
        PayloadThen(items, first, Flatten(rest)[..n - |first|]);
      }
    }
  }

  /** The whole first item, then more. */
  lemma {:induction false} PayloadThen(items: seq<Item>, first: seq<byte>, rest: seq<byte>)
    requires items != [] && |first| == Len(items[0]) && rest != []
    ensures Payload(items, first + rest) == (if items[0].Body? then first else []) + Payload(items[1..], rest)
  {
    assert (first + rest)[..|first|] == first && (first + rest)[|first|..] == rest;
  }

  /** Bytes that all belong to the first item. */
  lemma {:induction false} PayloadEnds(items: seq<Item>, sent: seq<byte>)
    requires items != [] && |sent| <= Len(items[0])
    ensures Payload(items, sent) == if items[0].Body? then sent else []
  {
    assert sent[..|sent|] == sent && sent[|sent|..] == [];
  }

  lemma {:induction false} CarriedPrefix(chunks: seq<seq<byte>>, out: seq<Item>, count: nat, n: nat)
    requires AllInside(chunks, out) && count <= |out| && n <= Total(out[..count]) && n <= Total(out)
    ensures Carried(chunks, out[..count], n) == Carried(chunks, out, n)
    decreases count
  {
    if n > 0 {
      assert out[..count][1..] == out[1..][..count - 1];
      if n >= Len(out[0]) {
        CarriedPrefix(chunks, out[1..], count - 1, n - Len(out[0]));
      }
    }
  }

  /** How nghttp3_conn_writev_stream answers. */
  datatype Offer = Failed | Nothing | Of(stream: nat, count: nat)

  /** nghttp3 has nothing to pull and nothing to offer on any stream. */
  predicate Quiet(streams: seq<Stream>)
  {
    forall i | 0 <= i < |streams| :: !CanPull(streams[i].tx) && !CanOffer(streams[i].tx)
  }

  /** Some number of items, at least one if there are any, at most 16. */
  function OfferSize(available: nat, n: int): (count: nat)
    ensures count <= available && count <= 16 && (count == 0 <==> available == 0)
  {
    var most := if available < 16 then available else 16;
    if 0 < n < most then n else most
  }

  function AtLeastOne(n: int): (r: nat)
    ensures 0 < r
  {
    if n < 1 then 1 else n
  }

  lemma OfferedShape(s: State, i: nat)
    requires Reachable(s) && i < |s.streams|
    ensures Shape(s.streams[i].tx.q)
  {
    ReachableOk(s);
    assert StreamOk(s, s.streams[i]);
  }

  lemma OneStep(s: State, a: Action)
    requires Enabled(s, a)
    ensures Runs(s, [a], Apply(s, a))
  {
  }

  ghost predicate OnlySending(run: seq<Action>)
  {
    forall k | 0 <= k < |run| :: run[k].Sending?
  }

  /** A sending step from a good state leads to a good state. */
  ghost predicate Sends(s: State, run: seq<Action>, r: State)
  {
    Runs(s, run, r) && OnlySending(run) && Reachable(r) && EventFree(r)
  }

  lemma SendsJoin(s: State, first: seq<Action>, m: State, second: seq<Action>, r: State)
    requires Sends(s, first, m) && Sends(m, second, r)
    ensures Sends(s, first + second, r)
  {
    RunsJoin(s, first, m, second, r);
  }

  lemma SendsOne(s: State, a: SendStep)
    requires Reachable(s) && Enabled(s, Sending(a))
    ensures Sends(s, [Sending(a)], Apply(s, Sending(a)))
  {
    OneStep(s, Sending(a));
    StepReachable(s, Sending(a));
  }

  lemma {:induction false} ReversedLast(freed: seq<nat>, pending: seq<nat>)
    requires pending != []
    ensures var last := |pending| - 1;
            freed + [pending[last]] + Reversed(pending[..last]) == freed + Reversed(pending)
  {
  }

  /** Less to pull, or nothing has changed. */
  ghost predicate PulledSome(before: seq<Stream>, after: seq<Stream>)
  {
    Sum(PullWeight, after) < Sum(PullWeight, before) || after == before
  }

  /** Less to pull, or as much and less to write. */
  ghost predicate Less(before: seq<Stream>, after: seq<Stream>)
  {
    || Sum(PullWeight, after) < Sum(PullWeight, before)
    || (Sum(PullWeight, after) == Sum(PullWeight, before) && Sum(WriteWeight, after) < Sum(WriteWeight, before))
  }

  /** Some writing steps were taken, and less is left to write. */
  ghost predicate Progress(s: State, run: seq<Action>, r: State)
  {
    && Sends(s, run, r) && r.dead == s.dead
    && Sum(PullWeight, r.streams) == Sum(PullWeight, s.streams)
    && Sum(WriteWeight, r.streams) < Sum(WriteWeight, s.streams)
  }

  lemma WrittenBy(s: State, a: SendStep, i: nat, t: Tx)
    requires Reachable(s) && EventFree(s) && Enabled(s, Sending(a)) && i < |s.streams| && Wrote(s.streams[i].tx, t)
    requires Apply(s, Sending(a)) == PutTx(s, i, t).(blockedStreams := Apply(s, Sending(a)).blockedStreams)
    ensures Progress(s, [Sending(a)], Apply(s, Sending(a)))
  {
    SendsOne(s, a);
    WroteShrinks(s.streams, i, t);
  }

  /** What a reachable state knows about an offered stream. */
  lemma OfferedOk(s: State, i: nat)
    requires Reachable(s) && Has(s, i)
    ensures TxOk(s.streams[i].tx)
    ensures s.streams[i].tracked ==> !s.streams[i].tx.clean
    ensures s.streams[i].tracked && s.streams[i].tx.open ==> s.streams[i].tx.blocked == s.streams[i].tx.writeBlocked
  {
    ReachableOk(s);
    assert StreamOk(s, s.streams[i]);
  }

  lemma SwallowIsStep(s: State, i: nat, count: nat)
    requires Reachable(s) && Offers(s, i, count) && (!s.streams[i].tracked || s.streams[i].qstream.None?)
    ensures var u := s.streams[i].tx;
            var t := AddOffsets(u, Expected(u, count), Fin(u, count)).(lost := true);
            Progress(s, [Sending(Swallow(i, count))], PutTx(s, i, t))
  {
    OfferedOk(s, i);
    SwallowShrinks(s.streams[i].tx, count);
    WrittenBy(s, Swallow(i, count), i, SwallowTx(s.streams[i].tx, count));
  }

  /** Stream i is offered and has a handle to write to. */
  ghost predicate Writable(s: State, i: nat, count: nat)
  {
    Reachable(s) && Offers(s, i, count) && s.streams[i].tracked && s.streams[i].qstream.Some?
  }

  lemma BreakIsStep(s: State, i: nat, count: nat, n: nat)
    requires Writable(s, i, count) && n < Expected(s.streams[i].tx, count) && (s.streams[i].tx.failed ==> n == 0)
    ensures var t := BrokenTx(s.streams[i].tx, count, n); Progress(s, [Sending(Break(i, count, n))], PutTx(s, i, t))
  {
    OfferedOk(s, i);
    BrokenShrinks(s.streams[i].tx, count, n);
    WrittenBy(s, Break(i, count, n), i, BrokenTx(s.streams[i].tx, count, n));
  }

  lemma WentIsStep(s: State, i: nat, count: nat)
    requires Writable(s, i, count) && (s.streams[i].tx.failed ==> count == 0)
    ensures var t := WentTx(s.streams[i].tx, count); Progress(s, [Sending(Went(i, count))], PutTx(s, i, t))
  {
    OfferedOk(s, i);
    WentShrinks(s.streams[i].tx, count);
    WrittenBy(s, Went(i, count), i, WentTx(s.streams[i].tx, count));
  }

  /** The stream marked blocked, here and in nghttp3, unless it is marked already. */
  function Marked(t: Tx): (r: Tx)
  {
    if t.writeBlocked then t else t.(blocked := true, writeBlocked := true)
  }

  /** Stream i is marked blocked, and counted if it was not. */
  function MarkedAt(s: State, i: nat, t: Tx): (r: State)
    requires i < |s.streams|
  {
    PutTx(s, i, Marked(t)).(blockedStreams := if t.writeBlocked then s.blockedStreams else s.blockedStreams + 1)
  }

  lemma BlockIsStep(s: State, i: nat, count: nat, n: nat, t: Tx)
    requires Writable(s, i, count) && n < Expected(s.streams[i].tx, count) && !s.streams[i].tx.failed
    requires t == AddOffsets(Took(s.streams[i].tx, n, false), n, false)
    ensures Progress(s, [Sending(Block(i, count, n))], MarkedAt(s, i, t))
  {
    OfferedOk(s, i);
    BlockedShrinks(s.streams[i].tx, n);
    WrittenBy(s, Block(i, count, n), i, BlockedTx(s.streams[i].tx, n));
  }

  /** A tracked stream that was blocked stays so exactly if it has a handle and its send buffer is still full. */
  function UnblockedIf(st: Stream, full: bool): (r: Stream)
  {
    if st.tracked && st.tx.writeBlocked && !(st.qstream.Some? && full) then st.(tx := UnblockTx(st.tx)) else st
  }

  /** This has been done to the first `upto` streams. */
  predicate Unblocked(before: seq<Stream>, after: seq<Stream>, full: seq<bool>, upto: nat)
  {
    && |before| == |after| == |full| && upto <= |full|
    && (forall k | 0 <= k < upto :: after[k] == UnblockedIf(before[k], full[k]))
    && forall k | upto <= k < |after| :: after[k] == before[k]
  }

  /** When blocked_streams is zero there is nothing to unblock. */
  lemma ZeroMeansNone(s: State)
    requires Reachable(s) && s.blockedStreams <= 0
    ensures forall k | 0 <= k < |s.streams| :: !(s.streams[k].tracked && s.streams[k].tx.writeBlocked)
  {
    ReachableOk(s);
    forall k | 0 <= k < |s.streams|
      ensures !(s.streams[k].tracked && s.streams[k].tx.writeBlocked)
    {
      SumBoundsMember(BlockedWeight, s.streams, k);
    }
  }

  /** How many times a run reads bytes from a stream. */
  ghost function Reads(run: seq<Action>): (n: nat)
  {
    if run == [] then 0
    else (if run[0].Receiving? && run[0].r.ReadStream? then 1 else 0) + Reads(run[1..])
  }

  lemma {:induction false} ReadsJoin(first: seq<Action>, second: seq<Action>)
    ensures Reads(first + second) == Reads(first) + Reads(second)
  {
    if first == [] {
      assert first + second == second;
    } else {
      assert (first + second)[1..] == first[1..] + second;
      ReadsJoin(first[1..], second);
    }
  }

  /** Steps from a good state to a good state. */
  ghost predicate Steps(s: State, run: seq<Action>, r: State)
  {
    Runs(s, run, r) && Reachable(r) && EventFree(r)
  }

  lemma StepsJoin(s: State, first: seq<Action>, m: State, second: seq<Action>, r: State)
    requires Steps(s, first, m) && Steps(m, second, r)
    ensures Steps(s, first + second, r) && Reads(first + second) == Reads(first) + Reads(second)
  {
    RunsJoin(s, first, m, second, r);
    ReadsJoin(first, second);
  }

  lemma ReadIsStep(s: State, i: nat, cbs: seq<Callback>, end: ReadEnd)
    requires Reachable(s) && Drainable(s, i) && Permitted(s.streams[i].rx, cbs, false)
    ensures var r := AfterRead(OnCallbacks(s, i, cbs), i, end);
            && Steps(s, [Receiving(ReadStream(i, cbs, end))], r) && Apart(s, r, i)
            && (end == Fine && !r.streams[i].done ==> Drainable(r, i))
  {
    var m, a := OnCallbacks(s, i, cbs), Receiving(ReadStream(i, cbs, end));
    CallbacksApart(s, i, cbs);
    AfterReadApart(m, i, end);
    ApartJoin(s, m, AfterRead(m, i, end), i);
    OneStep(s, a);
    StepReachable(s, a);
    if !Apply(s, a).streams[i].done {
      HandleUntilDone(Apply(s, a), i);
    }
  }

  lemma FinIsStep(s: State, i: nat, cbs: seq<Callback>, end: ReadEnd)
    requires Reachable(s) && Drainable(s, i) && Permitted(s.streams[i].rx, cbs, true)
    ensures var r := AfterFin(OnCallbacks(s, i, cbs), i, end);
            Steps(s, [Receiving(FeedFin(i, cbs, end))], r) && Apart(s, r, i)
  {
    var m, a := OnCallbacks(s, i, cbs), Receiving(FeedFin(i, cbs, end));
    CallbacksApart(s, i, cbs);
    AfterFinApart(m, i, end);
    ApartJoin(s, m, AfterFin(m, i, end), i);
    OneStep(s, a);
    StepReachable(s, a);
  }

  lemma CloseIsStep(s: State, i: nat)
    requires Reachable(s) && Has(s, i)
    ensures Steps(s, [Receiving(Notify(i, StreamClosed))], OnCallback(s, i, StreamClosed))
    ensures Apart(s, OnCallback(s, i, StreamClosed), i)
  {
    CallbackApart(s, i, StreamClosed);
    OneStep(s, Receiving(Notify(i, StreamClosed)));
    StepReachable(s, Receiving(Notify(i, StreamClosed)));
  }

  lemma CollectIsStep(s: State, i: nat)
    requires Reachable(s) && Has(s, i) && !s.dead && s.streams[i].tracked && Ready(s.streams[i]) && i !in s.completed
    ensures Steps(s, [Dispatching(Collect(i))], s.(completed := s.completed + [i]))
  {
    OneStep(s, Dispatching(Collect(i)));
    StepReachable(s, Dispatching(Collect(i)));
  }

  /** A stream keeps its handle until it is done: reading it never finds the handle gone. */
  lemma HandleUntilDone(s: State, i: nat)
    requires Reachable(s) && i < |s.streams| && !s.streams[i].done
    ensures s.streams[i].qstream.Some?
  {
    ReachableOk(s);
    assert StreamOk(s, s.streams[i]);
  }

  /** drain_ready_streams drains this stream when its turn comes. */
  predicate Eligible(st: Stream)
  {
    !st.done && st.qstream.Some? && !IsServer(st.id)
  }

  /** Stream i had its turn; no other stream changed. */
  predicate Visited(before: seq<Stream>, after: seq<Stream>, i: nat)
  {
    && i < |before| == |after| && after == before[i := after[i]]
    && after[i].id == before[i].id && after[i].tracked == before[i].tracked
  }

  /** `order` lists exactly the tracked streams among the first n, each once. */
  ghost predicate Lists(order: seq<nat>, streams: seq<Stream>, n: nat)
    requires n <= |streams|
  {
    && Distinct(order)
    && (forall k | 0 <= k < |order| :: order[k] < n && streams[order[k]].tracked)
    && (forall i {:trigger i in order} | 0 <= i < n && streams[i].tracked :: i in order)
  }

  /** The hash yields exactly the tracked streams, each once, in some order. */
  ghost predicate Iterates(order: seq<nat>, streams: seq<Stream>)
  {
    Lists(order, streams, |streams|)
  }

  lemma DistinctSnoc(order: seq<nat>, n: nat)
    requires Distinct(order) && forall k | 0 <= k < |order| :: order[k] < n
    ensures Distinct(order + [n])
  {
  }

  lemma InLonger(order: seq<nat>, n: nat, i: nat)
    requires i in order
    ensures i in order + [n]
  {
  }

  lemma ListsMore(order: seq<nat>, streams: seq<Stream>, n: nat)
    requires n < |streams| && Lists(order, streams, n)
    ensures Lists(if streams[n].tracked then order + [n] else order, streams, n + 1)
  {
    if streams[n].tracked {
      DistinctSnoc(order, n);
      var more := order + [n];
      assert more[|order|] == n;
      forall i | 0 <= i < n + 1 && streams[i].tracked
        ensures i in more
      {
        if i < n {
          InLonger(order, n, i);
        }
      }
    }
  }

  /** The same streams are in the hash. */
  predicate SameHash(before: seq<Stream>, after: seq<Stream>)
  {
    |before| == |after| && forall i | 0 <= i < |before| :: after[i].tracked == before[i].tracked
  }

  /** The first `offset` turns of a pass are over; `drained` lists the streams read. */
  ghost predicate Drained(before: seq<Stream>, after: seq<Stream>, turns: seq<nat>, offset: nat, drained: seq<nat>)
  {
    && SameHash(before, after) && offset <= |turns| && (forall o | 0 <= o < |turns| :: turns[o] < |before|)
    && (forall o | offset <= o < |turns| :: after[turns[o]] == before[turns[o]])
    && (forall o | 0 <= o < offset :: Eligible(before[turns[o]]) ==> turns[o] in drained)
    && (forall d | d in drained :: d in turns[..offset])
  }

  /** Of the streams read, exactly those with a whole request to serve were collected. */
  ghost predicate Collected(streams: seq<Stream>, drained: seq<nat>, completed: seq<nat>)
  {
    && (forall d | d in drained :: d < |streams|)
    && forall i: nat :: i in completed <==> i in drained && Ready(streams[i])
  }

  lemma DrainedNext(before: seq<Stream>, mid: seq<Stream>, after: seq<Stream>, turns: seq<nat>, offset: nat,
                    drained: seq<nat>)
    requires Drained(before, mid, turns, offset, drained) && offset < |turns| && Distinct(turns)
    requires Visited(mid, after, turns[offset])
    ensures Eligible(mid[turns[offset]]) ==> Drained(before, after, turns, offset + 1, drained + [turns[offset]])
    ensures !Eligible(mid[turns[offset]]) ==> Drained(before, after, turns, offset + 1, drained)
  {
    assert turns[..offset + 1] == turns[..offset] + [turns[offset]];
  }

  lemma NotYet(before: seq<Stream>, mid: seq<Stream>, turns: seq<nat>, offset: nat, drained: seq<nat>)
    requires Drained(before, mid, turns, offset, drained) && offset < |turns| && Distinct(turns)
    ensures turns[offset] !in drained
  {
  }

  lemma CollectedNext(mid: seq<Stream>, after: seq<Stream>, i: nat, drained: seq<nat>, completed: seq<nat>)
    requires Collected(mid, drained, completed) && Visited(mid, after, i) && i !in drained
    ensures Ready(after[i]) ==> Collected(after, drained + [i], completed + [i])
    ensures !Ready(after[i]) ==> Collected(after, drained + [i], completed)
  {
  }

  /** A request stream nothing can reach any more. */
  predicate Finished(st: Stream)
  {
    && IsBidi(st.id) && !IsServer(st.id)
    && st.done && st.qstream.None? && st.dispatched && st.workerDone
  }

  predicate NoneFinished(streams: seq<Stream>)
  {
    forall i | 0 <= i < |streams| && streams[i].tracked :: !Finished(streams[i])
  }

  /** The first k streams of the snapshot have been looked at for reclaiming. */
  ghost predicate Reclaimed(before: seq<Stream>, after: seq<Stream>, order: seq<nat>, k: nat)
  {
    && |after| == |before| && k <= |order| && (forall l | 0 <= l < |order| :: order[l] < |before|)
    && (forall l | 0 <= l < k :: Finished(after[order[l]]) ==> !after[order[l]].tracked)
    && (forall l | k <= l < |order| :: after[order[l]] == before[order[l]])
    && (forall i | 0 <= i < |after| ::
          (after[i].tracked ==> before[i].tracked) && (Finished(before[i]) || after[i] == before[i]))
  }

  lemma ReclaimedNext(before: seq<Stream>, mid: seq<Stream>, after: seq<Stream>, order: seq<nat>, k: nat)
    requires Reclaimed(before, mid, order, k) && k < |order| && Distinct(order)
    requires if Finished(mid[order[k]])
             then |after| == |mid| && after == mid[order[k] := after[order[k]]] && !after[order[k]].tracked
             else after == mid
    ensures Reclaimed(before, after, order, k + 1)
  {
  }

  lemma ReclaimedAll(before: seq<Stream>, after: seq<Stream>, order: seq<nat>)
    requires Reclaimed(before, after, order, |order|) && Iterates(order, before)
    ensures NoneFinished(after)
  {
    forall i | 0 <= i < |after| && after[i].tracked
      ensures !Finished(after[i])
    {
      assert i in order;
    }
  }

  lemma StillIterates(order: seq<nat>, before: seq<Stream>, after: seq<Stream>)
    requires Iterates(order, before) && SameHash(before, after)
    ensures Iterates(order, after)
  {
    assert |before| == |after|;
  }

  lemma ReclaimIsStep(s: State, i: nat)
    requires Reachable(s) && Has(s, i) && s.streams[i].tracked && Finished(s.streams[i])
    ensures var st := s.streams[i];
            Steps(s, [Ending(Reclaim(i))],
                  Put(s, i, st.(tracked := false, tx := CleanTx(st.tx))).(
                    blockedStreams := if st.tx.writeBlocked then s.blockedStreams - 1 else s.blockedStreams))
  {
    OneStep(s, Ending(Reclaim(i)));
    StepReachable(s, Ending(Reclaim(i)));
  }

  lemma NewPassIsStep(s: State)
    requires Reachable(s) && EventFree(s)
    ensures Steps(s, [Dispatching(NewPass)], s.(completed := [])) && Reads([Dispatching(NewPass)]) == 0
  {
    OneStep(s, Dispatching(NewPass));
    StepReachable(s, Dispatching(NewPass));
  }

  /** What one pass of the drain loop did. */
  ghost predicate PassLog(order: seq<nat>, before: seq<Stream>, after: seq<Stream>, cursor: nat, cursor': nat,
                          visits: nat, drained: seq<nat>)
  {
    && order != [] && PassOf(|order|, cursor, cursor', visits)
    && Drained(before, after, Rotated(order, cursor), visits, drained)
  }

  /**
   Over as many consecutive passes as there are tracked streams, with the same streams in the
   hash in the same order, every stream that stays eligible is drained at least once.
   */
  lemma EveryEligibleStreamIsDrained(order: seq<nat>, before: seq<seq<Stream>>, after: seq<seq<Stream>>,
                                     cursors: seq<nat>, visits: seq<nat>, drained: seq<seq<nat>>, p: nat)
    returns (m: nat)
    requires 0 < |order| == |visits| == |before| == |after| == |drained| && |cursors| == |order| + 1 && p < |order|
    requires forall m | 0 <= m < |order| ::
               PassLog(order, before[m], after[m], cursors[m], cursors[m + 1], visits[m], drained[m])
    requires forall m | 0 <= m < |order| :: order[p] < |before[m]| && Eligible(before[m][order[p]])
    ensures m < |order| && order[p] in drained[m]
  {
    var n := |order|;
    forall k | 0 <= k < |visits|
      ensures PassOf(n, cursors[k], cursors[k + 1], visits[k])
    {
      assert PassLog(order, before[k], after[k], cursors[k], cursors[k + 1], visits[k], drained[k]);
    }
    m := EveryPositionHasItsTurn(n, cursors, visits, p);
    var o :| 0 <= o < visits[m] && Turn(cursors[m], n, o) == p;
    assert PassLog(order, before[m], after[m], cursors[m], cursors[m + 1], visits[m], drained[m]);
    assert Rotated(order, cursors[m])[o] == order[p];
  }

  // ---- a whole service pass, with workers taking steps in between ----

  /** Steps from a good state; the event thread may be half way through dispatching. */
  ghost predicate Goes(s: State, run: seq<Action>, r: State)
  {
    Runs(s, run, r) && Reachable(r)
  }

  lemma GoesJoin(s: State, first: seq<Action>, m: State, second: seq<Action>, r: State)
    requires Goes(s, first, m) && Goes(m, second, r)
    ensures Goes(s, first + second, r)
  {
    RunsJoin(s, first, m, second, r);
  }

  lemma GoesOne(s: State, a: Action)
    requires Reachable(s) && Enabled(s, a)
    ensures Goes(s, [a], Apply(s, a))
  {
    OneStep(s, a);
    StepReachable(s, a);
  }

  /** The stream the dispatcher holds exists. */
  lemma HeldExists(s: State)
    requires Reachable(s) && (s.event.Reserved? || s.event.Counted?)
    ensures s.event.stream < |s.streams|
  {
    ReachableOk(s);
  }

  lemma CompletedExist(s: State)
    requires Reachable(s) && s.completed != []
    ensures s.completed[0] < |s.streams|
  {
    ReachableOk(s);
  }

  /** nghttp3_conn_submit_shutdown_notice, then nghttp3_conn_shutdown. */
  datatype ShutdownCall = Notice | Final

  /** Each call is made at most once, the notice first; the second ends the session. */
  predicate ShutdownOk(calls: seq<ShutdownCall>, goawaySent: bool, aborted: bool)
  {
    || (calls == [] && !goawaySent)
    || (calls == [Notice] && goawaySent)
    || (calls == [Notice, Final] && goawaySent && aborted)
  }

  /** No stream is accepted or read and no request dispatched. */
  ghost predicate TakesNothing(run: seq<Action>)
  {
    forall k | 0 <= k < |run| :: !run[k].Receiving? && !run[k].Dispatching?
  }

  /** A full, unfinished, uncancelled response was cancelled, and nothing else about its stream changed. */
  predicate Abandoned(before: Stream, after: Stream)
  {
    && Valid(before.tx.q) && Buffered(before.tx.q) >= before.tx.q.limit
    && !before.tx.q.complete && !before.tx.q.cancelled && before.tracked
    && after == before.(tx := CancelTx(before.tx))
  }

  lemma QueueIsValid(s: State, i: nat)
    requires Reachable(s) && i < |s.streams|
    ensures Valid(s.streams[i].tx.q)
  {
    ReachableOk(s);
    assert StreamOk(s, s.streams[i]);
  }

  lemma ExcessiveIsDead(s: State)
    requires Reachable(s)
    ensures s.excessive ==> s.dead
  {
    ReachableOk(s);
  }

  /** A stream whose queue is released if it is still in the hash. */
  function Released(st: Stream): (r: Stream)
  {
    if st.tracked then st.(tx := st.tx.(q := Cleanup(Cancel(st.tx.q)), clean := true)) else st
  }

  lemma {:induction false} ReleasedIsEnded(before: seq<Stream>, after: seq<Stream>)
    requires |after| == |before|
    requires forall k | 0 <= k < |after| :: after[k] == Released(before[k].(tx := CloseTx(before[k].tx)))
    ensures after == EndAll(before)
  {
    EndAllAt(before);
    forall k | 0 <= k < |after|
      ensures after[k] == EndAll(before)[k]
    {
      ReleasedOne(before[k]);
    }
  }

  lemma ReleasedOne(st: Stream)
    ensures Released(st.(tx := CloseTx(st.tx))) == Ended(st)
  {
  }

  lemma {:induction false} DestroyIsStep(s: State, r: State)
    requires Reachable(s) && EventFree(s) && s.aborted && s.activeTasks == 0
    requires r == s.(streams := EndAll(s.streams), freed := s.freed + Reversed(s.pendingFree), pendingFree := [],
                     destroyed := true)
    ensures Goes(s, [Ending(Destroy)], r)
  {
    GoesOne(s, Ending(Destroy));
  }

  /** Every task has left. */
  predicate AllGone(tasks: seq<Task>)
  {
    forall t | 0 <= t < |tasks| :: tasks[t].pc == Gone
  }

  lemma NoneCounted(s: State)
    requires Reachable(s) && s.activeTasks == 0 && s.event == Idle
    ensures AllGone(s.tasks)
  {
    ReachableOk(s);
    SumZero(s.tasks);
  }

  lemma GoneNoStep(s: State, w: WorkerStep)
    requires AllGone(s.tasks)
    ensures !WorkerEnabled(s, w)
  {
    if w.task < |s.tasks| {
      assert s.tasks[w.task].pc == Gone;
    }
  }

  /** With no task counted and nothing being dispatched, no worker has a step to take. */
  lemma NoTaskNoStep(s: State, w: WorkerStep)
    requires Reachable(s)
    ensures s.activeTasks == 0 && s.event == Idle ==> !WorkerEnabled(s, w)
  {
    if s.activeTasks == 0 && s.event == Idle {
      NoneCounted(s);
      GoneNoStep(s, w);
    }
  }

  lemma NoTaskLeft(s: State)
    requires Reachable(s) && s.destroyed
    ensures forall t | 0 <= t < |s.tasks| :: s.tasks[t].pc == Gone
  {
    ReachableOk(s);
  }

  // ---- passes in a row ----

  ghost predicate PassLogs(order: seq<nat>, starts: seq<seq<Stream>>, afters: seq<seq<Stream>>, cursors: seq<nat>,
                           visits: seq<nat>, drained: seq<seq<nat>>)
  {
    && |starts| == |afters| == |visits| == |drained| && |cursors| == |starts| + 1
    && forall m | 0 <= m < |starts| ::
         PassLog(order, starts[m], afters[m], cursors[m], cursors[m + 1], visits[m], drained[m])
  }

  lemma PassLogsMore(order: seq<nat>, starts: seq<seq<Stream>>, afters: seq<seq<Stream>>, cursors: seq<nat>,
                     visits: seq<nat>, drained: seq<seq<nat>>, start: seq<Stream>, after: seq<Stream>, cursor: nat,
                     visited: nat, some: seq<nat>)
    requires PassLogs(order, starts, afters, cursors, visits, drained)
    requires PassLog(order, start, after, cursors[|starts|], cursor, visited, some)
    ensures PassLogs(order, starts + [start], afters + [after], cursors + [cursor], visits + [visited], drained + [some])
  {
  }

  /** Stream i is eligible at the start of every pass. */
  predicate AlwaysEligible(starts: seq<seq<Stream>>, i: nat)
  {
    forall m | 0 <= m < |starts| :: i < |starts[m]| && Eligible(starts[m][i])
  }

  predicate DrainedOnce(drained: seq<seq<nat>>, i: nat)
  {
    exists m | 0 <= m < |drained| :: i in drained[m]
  }

  lemma AllDrained(order: seq<nat>, starts: seq<seq<Stream>>, afters: seq<seq<Stream>>, cursors: seq<nat>,
                   visits: seq<nat>, drained: seq<seq<nat>>)
    requires order != [] && |starts| == |order| && PassLogs(order, starts, afters, cursors, visits, drained)
    ensures forall p | 0 <= p < |order| && AlwaysEligible(starts, order[p]) :: DrainedOnce(drained, order[p])
  {
    forall p | 0 <= p < |order| && AlwaysEligible(starts, order[p])
      ensures DrainedOnce(drained, order[p])
    {
      var m := EveryEligibleStreamIsDrained(order, starts, afters, cursors, visits, drained, p);
    }
  }
}
