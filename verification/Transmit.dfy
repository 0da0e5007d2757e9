/**
 The sending side of one stream, end to end: the response queue, what nghttp3 has pulled out
 of it, and what the transport has accepted.  Each operation is one locked section.
 */
module Transmit {
  import opened Bytes
  import opened SendQueue
  import opened OutQueue

  datatype Tx = Tx(
    q: Queue,
    // nghttp3's stream: bytes not yet written, and its flags
    out: seq<Item>,
    open: bool,
    blocked: bool,
    stalled: bool,
    eof: bool,
    finDone: bool,
    // the write_blocked flag of the h3_stream
    writeBlocked: bool,
    // when the reader reported EOF: chunks were still waiting behind the cursor; bytes queued by then
    cut: bool,
    eofAt: nat,
    // the transport: body bytes accepted, FIN sent, write side broken
    wire: seq<byte>,
    concluded: bool,
    failed: bool,
    // offered bytes were dropped without being sent; the chunks were freed at reclaim
    lost: bool,
    clean: bool)

  function Fresh(limit: nat): (t: Tx)
  {
    Tx(Empty(limit), [], true, false, false, false, false, false, false, 0, [], false, false, false, false)
  }

  // ---- the invariant ----

  /** nghttp3's vectors are exactly the offered, unacknowledged slices of the queue. */
  ghost predicate InStep(t: Tx)
  {
    && Valid(t.q) && Positive(t.out)
    && (t.open && !t.clean ==> Bodies(t.out) == Pending(t.q))
  }

  /** What the transport took is what was acknowledged, or, once bytes were dropped, a prefix of the body. */
  ghost predicate WireOk(t: Tx)
    requires Valid(t.q)
  {
    && Acked(t.q) <= |Appended(t.q)|
    && (if t.lost || t.clean then t.wire <= Appended(t.q) else t.wire == Appended(t.q)[..Acked(t.q)])
  }

  /** After EOF the cursor stays where it was; FIN goes after exactly the bytes before it. */
  ghost predicate FinOk(t: Tx)
    requires Valid(t.q)
  {
    && (t.eof ==> t.q.submitted && t.eofAt <= |Appended(t.q)|) && (t.cut ==> t.q.cancelled)
    && (t.eof && !t.clean ==> if t.cut then Offered(t.q) < t.eofAt else Offered(t.q) == t.eofAt)
    && (t.finDone ==> t.eof && t.out == [])
    && (t.concluded ==> t.finDone && if t.cut then |t.wire| < t.eofAt else t.wire == Appended(t.q)[..t.eofAt])
    && (t.clean ==> t.q.cancelled && t.q.freed == |t.q.chunks|)
  }

  ghost predicate TxOk(t: Tx)
  {
    InStep(t) && WireOk(t) && FinOk(t)
  }

  /** In every good state the accepted body bytes are a prefix of everything queued. */
  lemma WireIsPrefix(t: Tx)
    requires TxOk(t)
    ensures t.wire <= Appended(t.q)
  {
    if !t.lost && !t.clean {
      assert Appended(t.q)[..Acked(t.q)] <= Appended(t.q);
    }
  }

  /**
   A FIN the transport sent follows the whole of what was queued when the reader reported EOF
   exactly when no chunk was waiting behind the submit cursor at that moment.
   */
  lemma FinMeansWhole(t: Tx)
    requires TxOk(t) && t.concluded
    ensures t.eofAt <= |Appended(t.q)|
    ensures t.wire == Appended(t.q)[..t.eofAt] <==> !t.cut
  {
  }

  lemma FreshOk(limit: nat)
    requires 0 < limit
    ensures TxOk(Fresh(limit))
  {
  }

  // ---- the producer ----

  /** A chunk is queued, and a reader that had nothing to read is resumed. */
  function PushTx(t: Tx, c: seq<byte>): (r: Tx)
  {
    t.(q := Push(t.q, c), stalled := t.stalled && !t.q.submitted)
  }

  lemma PushOk(t: Tx, c: seq<byte>)
    requires TxOk(t) && !t.q.cancelled
    requires 0 < |c| <= STREAM_CHUNK_BYTES && |c| <= t.q.limit - Buffered(t.q)
    ensures TxOk(PushTx(t, c))
    ensures Appended(t.q) <= Appended(Push(t.q, c))
  {
    PushValid(t.q, c);
    PushKeeps(t.q, c);
    PrefixGrows(Appended(t.q), c, Acked(t.q));
    if t.eof {
      PrefixGrows(Appended(t.q), c, t.eofAt);
    }
  }

  lemma PrefixGrows(a: seq<byte>, c: seq<byte>, k: nat)
    requires k <= |a|
    ensures (a + c)[..k] == a[..k]
  {
  }

  function CancelTx(t: Tx): (r: Tx)
  {
    t.(q := Cancel(t.q))
  }

  lemma CancelOk(t: Tx)
    requires TxOk(t)
    ensures TxOk(CancelTx(t))
  {
  }

  /** h3_stream_response_complete */
  function CompleteTx(t: Tx): (r: Tx)
  {
    t.(q := t.q.(complete := true), stalled := t.stalled && !t.q.submitted)
  }

  lemma CompleteOk(t: Tx)
    requires TxOk(t)
    ensures TxOk(CompleteTx(t))
  {
  }

  /** A submitted response: a HEADERS frame of n bytes goes out first. */
  function SubmitTx(t: Tx, n: nat): (r: Tx)
  {
    t.(q := t.q.(submitted := true), out := t.out + [Frame(n)])
  }

  lemma {:induction false} SubmitOk(t: Tx, n: nat)
    requires TxOk(t) && !t.q.submitted && 0 < n
    ensures TxOk(SubmitTx(t, n))
  {
    FrameOk(t, n);
    var f := FrameTx(t, n);
    assert Pending(f.q.(submitted := true)) == Pending(f.q);
  }

  // ---- nghttp3 ----

  /** nghttp3 queues n bytes of its own on the stream (control frames, GOAWAY). */
  function FrameTx(t: Tx, n: nat): (r: Tx)
  {
    t.(out := t.out + [Frame(n)])
  }

  lemma FrameOk(t: Tx, n: nat)
    requires TxOk(t) && 0 < n && !t.finDone
    ensures TxOk(FrameTx(t, n))
  {
    BodiesConcat(t.out, [Frame(n)]);
  }

  predicate CanPull(t: Tx)
  {
    t.open && t.q.submitted && !t.eof && !t.blocked && !t.stalled
  }

  /** The data reader fills vectors: a DATA frame header of `header` bytes goes before them. */
  function TakeTx(t: Tx, veccnt: nat, header: nat): (r: Tx)
    requires t.q.cursor <= |t.q.chunks|
  {
    var (q', vec, flag) := Read(t.q, veccnt);
    t.(q := q',
       out := t.out + [Frame(header)] + Wrap(vec),
       eof := flag == Eof,
       cut := false,
       eofAt := if flag == Eof then Start(q'.chunks, |q'.chunks|) else t.eofAt)
  }

  /** The data reader fills nothing and reports EOF. */
  function EofTx(t: Tx): (r: Tx)
  {
    t.(eof := true, cut := t.q.cursor < |t.q.chunks|, eofAt := Start(t.q.chunks, |t.q.chunks|))
  }

  /** The data reader has nothing yet. */
  function StallTx(t: Tx): (r: Tx)
  {
    t.(stalled := true)
  }

  /** Which of the three the reader's answer is. */
  predicate Fills(q: Queue)
  {
    !q.cancelled && q.cursor < |q.chunks|
  }

  predicate Ends(q: Queue)
  {
    q.cancelled || (q.cursor >= |q.chunks| && q.complete)
  }

  /** The three cases are what the reader returns. */
  lemma ReadCases(q: Queue, veccnt: nat)
    requires Shape(q) && 0 < veccnt
    ensures Fills(q) <==> Read(q, veccnt).1 != []
    ensures Ends(q) <==> Read(q, veccnt).1 == [] && Read(q, veccnt).2 == Eof
    ensures !Fills(q) ==> Read(q, veccnt).0 == q
    ensures !Fills(q) && !Ends(q) <==> Read(q, veccnt).2 == WouldBlock
  {
    SpanAt(q.chunks, q.cursor, q.cursor + Take(q, veccnt));
  }

  lemma TakeOk(t: Tx, veccnt: nat, header: nat)
    requires TxOk(t) && CanPull(t) && Fills(t.q) && 0 < veccnt && 0 < header
    ensures TxOk(TakeTx(t, veccnt, header))
  {
    ReadKeeps(t.q, veccnt);
    ReadPending(t.q, veccnt);
    PulledItems(t.q, t.out, veccnt, header);
    StartTotal(t.q.chunks);
    if Read(t.q, veccnt).2 == Eof {
      EofMeansAll(t.q, veccnt);
    }
  }

  lemma EofOk(t: Tx)
    requires TxOk(t) && CanPull(t) && Ends(t.q)
    ensures TxOk(EofTx(t))
    ensures EofTx(t).cut ==> t.q.cancelled
  {
    StartTotal(t.q.chunks);
    if t.q.cursor < |t.q.chunks| {
      StartMonotone(t.q.chunks, t.q.cursor + 1, |t.q.chunks|);
    }
  }

  lemma StallOk(t: Tx)
    requires TxOk(t)
    ensures TxOk(StallTx(t))
  {
  }

  lemma PulledItems(q: Queue, out: seq<Item>, veccnt: nat, header: nat)
    requires Valid(q) && Positive(out) && !q.cancelled && 0 < header
    ensures var items := out + [Frame(header)] + Wrap(Read(q, veccnt).1);
            Positive(items) && Bodies(items) == Bodies(out) + Read(q, veccnt).1
  {
    var vec := Read(q, veccnt).1;
    WrapBodies(vec);
    WrappedPositive(q, veccnt);
    FrameThen(out, header, Wrap(vec));
  }

  lemma {:induction false} FrameThen(out: seq<Item>, header: nat, items: seq<Item>)
    requires Positive(out) && Positive(items) && 0 < header
    ensures Positive(out + [Frame(header)] + items)
    ensures Bodies(out + [Frame(header)] + items) == Bodies(out) + Bodies(items)
  {
    BodiesConcat(out, [Frame(header)]);
    BodiesConcat(out + [Frame(header)], items);
    PositiveConcat(out, [Frame(header)]);
    PositiveConcat(out + [Frame(header)], items);
  }

  lemma {:induction false} WrapPositive(vec: seq<Slice>)
    requires forall i | 0 <= i < |vec| :: 0 < vec[i].len
    ensures Positive(Wrap(vec))
  {
    WrapBodies(vec);
  }

  lemma {:induction false} WrappedPositive(q: Queue, veccnt: nat)
    requires Valid(q) && !q.cancelled
    ensures Positive(Wrap(Read(q, veccnt).1))
  {
    var vec := Read(q, veccnt).1;
    SpanAt(q.chunks, q.cursor, q.cursor + Take(q, veccnt));
    forall i | 0 <= i < |vec|
      ensures 0 < vec[i].len
    {
      assert vec[i].len == |q.chunks[q.cursor + i]|;
    }
    WrapPositive(vec);
  }

  lemma PositiveConcat(a: seq<Item>, b: seq<Item>)
    requires Positive(a) && Positive(b)
    ensures Positive(a + b)
  {
  }

  /** There is something to offer: unwritten bytes, or a FIN not yet written. */
  predicate CanOffer(t: Tx)
  {
    t.open && !t.blocked && (t.out != [] || (t.eof && !t.finDone))
  }

  /** nghttp3 is told the first n bytes are written and acknowledged; it reports the body bytes among them. */
  function Advance(t: Tx, n: nat): (r: Tx)
    requires Shape(t.q) && n <= Total(t.out)
  {
    t.(out := Consume(t.out, n), q := Ack(t.q, BodyIn(t.out, n)))
  }

  lemma AckNothing(q: Queue, n: nat)
    requires Shape(q) && q.freed == |q.chunks|
    ensures Ack(q, n) == q
  {
  }

  lemma {:induction false} ConsumePositive(out: seq<Item>, n: nat)
    requires Positive(out) && n <= Total(out)
    ensures Positive(Consume(out, n))
  {
    if n > 0 && n >= Len(out[0]) {
      ConsumePositive(out[1..], n - Len(out[0]));
    }
  }

  /** Advancing keeps queue and vectors in step and moves the acknowledged count by the body bytes covered. */
  lemma AdvanceOk(t: Tx, n: nat)
    requires TxOk(t) && t.open && !t.clean && n <= Total(t.out)
    ensures InStep(Advance(t, n))
    ensures Advance(t, n).q == t.q.(freed := Advance(t, n).q.freed, headAcked := Advance(t, n).q.headAcked)
    ensures BodyIn(t.out, n) <= Offered(t.q) - Acked(t.q)
    ensures Acked(Advance(t, n).q) == Acked(t.q) + BodyIn(t.out, n) <= |Appended(t.q)|
    ensures AllInside(t.q.chunks, t.out)
    ensures Carried(t.q.chunks, t.out, n) == Appended(t.q)[Acked(t.q)..Acked(t.q) + BodyIn(t.out, n)]
  {
    ConsumeTracksAck(t.out, t.q, n);
    AckKeeps(t.q, BodyIn(t.out, n));
    CarriedIsNext(t.out, t.q, n);
  }

  /** Besides its two ack counters nothing of the queue changes, and exactly n bytes leave nghttp3. */
  lemma AdvanceFrame(t: Tx, n: nat)
    requires TxOk(t) && t.open && n <= Total(t.out)
    ensures Advance(t, n).q == t.q.(freed := Advance(t, n).q.freed, headAcked := Advance(t, n).q.headAcked)
    ensures Total(Advance(t, n).out) == Total(t.out) - n
  {
    ConsumeTotal(t.out, n);
    if t.clean {
      AckNothing(t.q, BodyIn(t.out, n));
    } else {
      AdvanceOk(t, n);
    }
  }

  /** FIN goes with this offer: everything is offered and the reader has reported EOF. */
  predicate Fin(t: Tx, count: nat)
  {
    t.eof && count == |t.out|
  }

  function Expected(t: Tx, count: nat): (n: nat)
    requires count <= |t.out|
    ensures n <= Total(t.out)
  {
    PrefixTotal(t.out, count);
    Total(t.out[..count])
  }

  /** The body bytes the transport finds behind the first n offered bytes. */
  function Sent(t: Tx, n: nat): (r: seq<byte>)
    requires n <= Total(t.out)
  {
    if AllInside(t.q.chunks, t.out) then Carried(t.q.chunks, t.out, n) else []
  }

  /** The transport accepts the first n offered bytes, and FIN after them if `fin`. */
  function Took(t: Tx, n: nat, fin: bool): (r: Tx)
    requires n <= Total(t.out)
  {
    t.(wire := t.wire + Sent(t, n), concluded := t.concluded || (fin && !t.failed))
  }

  /**
   nghttp3_conn_add_write_offset and nghttp3_conn_add_ack_offset for n of the offered bytes;
   `fin` says that they are all of the offer and that the offer ends the stream.
   */
  function AddOffsets(t: Tx, n: nat, fin: bool): (r: Tx)
    requires Shape(t.q) && n <= Total(t.out)
  {
    Advance(t, n).(finDone := t.finDone || fin)
  }

  /** The stream is gone: the offered bytes are dropped. */
  function SwallowTx(t: Tx, count: nat): (r: Tx)
    requires Shape(t.q) && count <= |t.out|
  {
    AddOffsets(t, Expected(t, count), Fin(t, count)).(lost := true)
  }

  /** Every offered byte was accepted. */
  function WentTx(t: Tx, count: nat): (r: Tx)
    requires Shape(t.q) && count <= |t.out|
  {
    var n := Expected(t, count);
    AddOffsets(Took(t, n, Fin(t, count)), n, Fin(t, count))
  }

  /** The send buffer filled up after n bytes: nghttp3 skips the stream from now on. */
  function BlockedTx(t: Tx, n: nat): (r: Tx)
    requires Shape(t.q) && n <= Total(t.out)
  {
    AddOffsets(Took(t, n, false), n, false).(blocked := true, writeBlocked := true)
  }

  /** The write side broke after n bytes: the rest of the offer is dropped. */
  function BrokenTx(t: Tx, count: nat, n: nat): (r: Tx)
    requires Shape(t.q) && count <= |t.out| && n <= Total(t.out)
  {
    AddOffsets(Took(t, n, false).(failed := true), Expected(t, count), Fin(t, count)).(lost := true)
  }

  /** The transport's promise: a broken write side takes nothing more. */
  predicate Alive(t: Tx, n: nat)
  {
    (t.lost ==> t.failed) && (t.failed ==> n == 0)
  }

  /** The accepted bytes continue the body exactly where the last ones stopped. */
  lemma SentExtends(t: Tx, n: nat)
    requires TxOk(t) && t.open && !t.clean && n <= Total(t.out) && Alive(t, n)
    ensures Acked(t.q) + BodyIn(t.out, n) <= |Appended(t.q)|
    ensures t.wire + Sent(t, n) <= Appended(t.q)
    ensures !t.lost ==> t.wire + Sent(t, n) == Appended(t.q)[..Acked(t.q) + BodyIn(t.out, n)]
  {
    AdvanceOk(t, n);
    WireIsPrefix(t);
    if t.lost {
      assert t.wire + [] == t.wire;
    } else {
      Join(Appended(t.q), 0, Acked(t.q), Acked(t.q) + BodyIn(t.out, n));
    }
  }

  lemma {:induction false} ConsumeAll(out: seq<Item>)
    requires Positive(out)
    ensures Consume(out, Total(out)) == []
  {
    if out != [] {
      ConsumeAll(out[1..]);
    }
  }

  /** When nothing is left to write, everything offered is acknowledged. */
  lemma DrainedMeansAcked(t: Tx)
    requires InStep(t) && t.open && !t.clean && t.out == []
    ensures Acked(t.q) == Offered(t.q)
  {
    Ordered(t.q);
  }

  lemma WentOk(t: Tx, count: nat)
    requires TxOk(t) && t.open && !t.clean && count <= |t.out| && Alive(t, Expected(t, count))
    requires CanOffer(t)
    ensures TxOk(WentTx(t, count))
  {
    var n := Expected(t, count);
    AdvanceOk(t, n);
    SentExtends(t, n);
    if Fin(t, count) {
      assert t.out[..count] == t.out;
      ConsumeAll(t.out);
      DrainedMeansAcked(Advance(t, n));
    }
  }

  lemma BlockedOk(t: Tx, n: nat)
    requires TxOk(t) && t.open && !t.clean && n < Total(t.out) && Alive(t, n)
    ensures TxOk(BlockedTx(t, n))
  {
    AdvanceOk(t, n);
    SentExtends(t, n);
  }

  lemma BrokenOk(t: Tx, count: nat, n: nat)
    requires TxOk(t) && t.open && !t.clean && count <= |t.out| && n < Expected(t, count) && Alive(t, n)
    ensures TxOk(BrokenTx(t, count, n))
  {
    AdvanceOk(t, Expected(t, count));
    SentExtends(t, n);
    if Fin(t, count) {
      assert t.out[..count] == t.out;
      ConsumeAll(t.out);
    }
  }

  lemma SwallowOk(t: Tx, count: nat)
    requires TxOk(t) && t.open && count <= |t.out| && CanOffer(t)
    ensures TxOk(SwallowTx(t, count))
  {
    if t.clean {
      SwallowCleanOk(t, count);
    } else {
      SwallowLiveOk(t, count);
    }
  }

  lemma {:induction false} SwallowCleanOk(t: Tx, count: nat)
    requires TxOk(t) && t.open && count <= |t.out| && t.clean
    ensures TxOk(SwallowTx(t, count))
  {
    var n := Expected(t, count);
    ConsumePositive(t.out, n);
    WireIsPrefix(t);
    AckNothing(t.q, BodyIn(t.out, n));
    if Fin(t, count) {
      assert t.out[..count] == t.out;
      ConsumeAll(t.out);
    }
  }

  lemma SwallowLiveOk(t: Tx, count: nat)
    requires TxOk(t) && t.open && count <= |t.out| && !t.clean
    ensures TxOk(SwallowTx(t, count))
  {
    WireIsPrefix(t);
    AdvanceOk(t, Expected(t, count));
    if Fin(t, count) {
      assert t.out[..count] == t.out;
      ConsumeAll(t.out);
    }
  }

  // ---- lifecycle ----

  /** nghttp3 has removed the stream. */
  function CloseTx(t: Tx): (r: Tx)
  {
    t.(open := false, out := [])
  }

  lemma CloseOk(t: Tx)
    requires TxOk(t)
    ensures TxOk(CloseTx(t))
  {
  }

  function UnblockTx(t: Tx): (r: Tx)
  {
    t.(blocked := false, writeBlocked := false)
  }

  lemma UnblockOk(t: Tx)
    requires TxOk(t)
    ensures TxOk(UnblockTx(t))
  {
  }

  /** Reclaim: the chunks are freed and the stream no longer counts as blocked. */
  function CleanTx(t: Tx): (r: Tx)
  {
    t.(q := Cleanup(t.q), clean := true, writeBlocked := false)
  }

  lemma CleanOk(t: Tx)
    requires TxOk(t) && t.q.cancelled
    ensures TxOk(CleanTx(t))
  {
    CleanupKeeps(t.q);
    StartTotal(t.q.chunks);
    WireIsPrefix(t);
  }
}
