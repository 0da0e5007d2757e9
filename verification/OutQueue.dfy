/**
 What nghttp3 holds for one stream: its own frame bytes interleaved with zero-copy vectors
 into the response queue, all not yet accepted by the transport.
 */
module OutQueue {
  import opened Bytes
  import opened SendQueue

  datatype Item = Frame(n: nat) | Body(v: Slice)

  function Len(item: Item): (n: nat)
  {
    match item
    case Frame(n) => n
    case Body(v) => v.len
  }

  function Total(out: seq<Item>): (n: nat)
  {
    if out == [] then 0 else Len(out[0]) + Total(out[1..])
  }

  ghost predicate Positive(out: seq<Item>)
  {
    forall i | 0 <= i < |out| :: 0 < Len(out[i])
  }

  /** The body vectors, in order. */
  function Bodies(out: seq<Item>): (r: seq<Slice>)
  {
    if out == [] then []
    else if out[0].Body? then [out[0].v] + Bodies(out[1..])
    else Bodies(out[1..])
  }

  function Shrink(item: Item, n: nat): (r: Item)
    requires n <= Len(item)
  {
    match item
    case Frame(len) => Frame(len - n)
    case Body(v) => Body(Slice(v.chunk, v.off + n, v.len - n))
  }

  /** nghttp3_conn_add_write_offset: the first n bytes are gone. */
  function Consume(out: seq<Item>, n: nat): (r: seq<Item>)
    requires n <= Total(out)
  {
    if n == 0 then out
    else if n < Len(out[0]) then [Shrink(out[0], n)] + out[1..]
    else Consume(out[1..], n - Len(out[0]))
  }

  /** The body bytes among the first n bytes: what nghttp3_conn_add_ack_offset reports. */
  function BodyIn(out: seq<Item>, n: nat): (r: nat)
    requires n <= Total(out)
  {
    if n == 0 then 0
    else if n < Len(out[0]) then (if out[0].Body? then n else 0)
    else (if out[0].Body? then out[0].v.len else 0) + BodyIn(out[1..], n - Len(out[0]))
  }

  predicate Inside(chunks: seq<seq<byte>>, v: Slice)
  {
    v.chunk < |chunks| && v.off + v.len <= |chunks[v.chunk]|
  }

  predicate AllInside(chunks: seq<seq<byte>>, out: seq<Item>)
  {
    forall i | 0 <= i < |out| && out[i].Body? :: Inside(chunks, out[i].v)
  }

  /** The body bytes among the first n bytes, read through the vectors. */
  function Carried(chunks: seq<seq<byte>>, out: seq<Item>, n: nat): (r: seq<byte>)
    requires n <= Total(out) && AllInside(chunks, out)
  {
    if n == 0 then []
    else if n < Len(out[0]) then
      (if out[0].Body? then BytesOf(chunks, Slice(out[0].v.chunk, out[0].v.off, n)) else [])
    else
      (if out[0].Body? then BytesOf(chunks, out[0].v) else []) + Carried(chunks, out[1..], n - Len(out[0]))
  }

  /** Every pending vector lies inside its chunk, and its chunk is not freed. */
  lemma {:induction false} SpanInside(chunks: seq<seq<byte>>, from: nat, off: nat, end: nat, v: Slice)
    requires end <= |chunks|
    requires from < end ==> off <= |chunks[from]|
    requires v in Span(chunks, from, off, end)
    ensures from <= v.chunk < end && Inside(chunks, v)
    decreases end - from
  {
    if v != Slice(from, off, |chunks[from]| - off) {
      SpanInside(chunks, from + 1, 0, end, v);
    }
  }

  lemma {:induction false} BodiesHas(out: seq<Item>, i: nat)
    requires i < |out| && out[i].Body?
    ensures out[i].v in Bodies(out)
  {
    if i > 0 {
      BodiesHas(out[1..], i - 1);
    }
  }

  lemma PendingInside(q: Queue, out: seq<Item>)
    requires Shape(q) && Bodies(out) == Pending(q)
    ensures AllInside(q.chunks, out)
    ensures forall i | 0 <= i < |out| && out[i].Body? :: q.freed <= out[i].v.chunk < q.cursor
  {
    forall i | 0 <= i < |out| && out[i].Body?
      ensures Inside(q.chunks, out[i].v) && q.freed <= out[i].v.chunk < q.cursor
    {
      BodiesHas(out, i);
      SpanInside(q.chunks, q.freed, q.headAcked, q.cursor, out[i].v);
    }
  }

  lemma {:induction false} BodiesConcat(a: seq<Item>, b: seq<Item>)
    ensures Bodies(a + b) == Bodies(a) + Bodies(b)
    ensures Total(a + b) == Total(a) + Total(b)
  {
    if a == [] {
      assert a + b == b;
    } else {
      assert (a + b)[1..] == a[1..] + b;
      BodiesConcat(a[1..], b);
    }
  }

  /** Vectors wrapped as items. */
  function Wrap(vec: seq<Slice>): (r: seq<Item>)
  {
    if vec == [] then [] else [Body(vec[0])] + Wrap(vec[1..])
  }

  lemma {:induction false} WrapBodies(vec: seq<Slice>)
    ensures Bodies(Wrap(vec)) == vec
    ensures |Wrap(vec)| == |vec| && forall i | 0 <= i < |vec| :: Wrap(vec)[i] == Body(vec[i])
  {
    if vec != [] {
      WrapBodies(vec[1..]);
    }
  }

  /** The queue after its head chunk is acknowledged whole. */
  function Behead(q: Queue): (r: Queue)
  {
    q.(freed := q.freed + 1, headAcked := 0)
  }

  /** Acknowledging exactly the body bytes covered keeps nghttp3's vectors and the queue in step. */
  ghost predicate Tracks(out: seq<Item>, q: Queue, n: nat)
    requires Shape(q) && n <= Total(out)
  {
    && BodyIn(out, n) <= Offered(q) - Acked(q)
    && Shape(Ack(q, BodyIn(out, n)))
    && Bodies(Consume(out, n)) == Pending(Ack(q, BodyIn(out, n)))
    && Positive(Consume(out, n))
  }

  lemma {:induction false} ConsumeTracksAck(out: seq<Item>, q: Queue, n: nat)
    requires Shape(q) && Positive(out) && Bodies(out) == Pending(q) && n <= Total(out)
    ensures Tracks(out, q, n)
    decreases |out|
  {
    Ordered(q);
    if n > 0 {
      if out[0].Frame? {
        if n < Len(out[0]) {
          assert ([Shrink(out[0], n)] + out[1..])[1..] == out[1..];
        } else {
          ConsumeTracksAck(out[1..], q, n - Len(out[0]));
        }
      } else if n < Len(out[0]) {
        ConsumeInHead(out, q, n);
      } else {
        HeadOfPending(q, out[0].v, Bodies(out[1..]));
        ConsumeTracksAck(out[1..], Behead(q), n - Len(out[0]));
        TracksFromHead(out, q, n);
      }
    }
  }

  lemma TracksFromHead(out: seq<Item>, q: Queue, n: nat)
    requires Shape(q) && Positive(out) && Bodies(out) == Pending(q) && out != [] && out[0].Body?
    requires Len(out[0]) <= n <= Total(out) && Shape(Behead(q)) && Tracks(out[1..], Behead(q), n - Len(out[0]))
    ensures Tracks(out, q, n)
  {
    HeadOfPending(q, out[0].v, Bodies(out[1..]));
    assert Ack(q, BodyIn(out, n)) == Ack(Behead(q), BodyIn(out[1..], n - Len(out[0])));
  }

  /** The same when only part of a leading body vector is consumed. */
  lemma ConsumeInHead(out: seq<Item>, q: Queue, n: nat)
    requires Shape(q) && Positive(out) && Bodies(out) == Pending(q)
    requires out != [] && out[0].Body? && 0 < n < Len(out[0])
    ensures n <= Offered(q) - Acked(q) && Shape(Ack(q, n))
    ensures Bodies(Consume(out, n)) == Pending(Ack(q, n)) && Positive(Consume(out, n))
  {
    HeadOfPending(q, out[0].v, Bodies(out[1..]));
    AckPart(q, n);
    var shorter := [Shrink(out[0], n)] + out[1..];
    assert shorter[1..] == out[1..];
    assert Consume(out, n) == shorter && Bodies(shorter) == [shorter[0].v] + Bodies(out[1..]);
  }

  /** An acknowledgement inside the head chunk shortens the first pending vector. */
  lemma AckPart(q: Queue, n: nat)
    requires Shape(q) && q.freed < q.cursor && 0 < n < |q.chunks[q.freed]| - q.headAcked
    ensures Ack(q, n) == q.(headAcked := q.headAcked + n) && Shape(Ack(q, n))
    ensures Pending(Ack(q, n)) ==
            [Slice(q.freed, q.headAcked + n, |q.chunks[q.freed]| - q.headAcked - n)] + Pending(Behead(q))
    ensures n <= Offered(q) - Acked(q)
  {
    StartMonotone(q.chunks, q.freed + 1, q.cursor);
  }

  lemma HeadOfPending(q: Queue, v: Slice, rest: seq<Slice>)
    requires Shape(q) && [v] + rest == Pending(q)
    ensures q.freed < q.cursor && v == Slice(q.freed, q.headAcked, |q.chunks[q.freed]| - q.headAcked)
    ensures Shape(Behead(q))
    ensures rest == Pending(Behead(q))
    ensures Acked(Behead(q)) == Acked(q) + v.len <= Offered(q)
  {
    assert ([v] + rest)[0] == v;
    assert ([v] + rest)[1..] == rest;
    StartMonotone(q.chunks, q.freed + 1, q.cursor);
  }

  ghost predicate Continues(out: seq<Item>, q: Queue, n: nat)
    requires Shape(q) && n <= Total(out) && AllInside(q.chunks, out)
  {
    && Acked(q) + BodyIn(out, n) <= |Appended(q)|
    && Carried(q.chunks, out, n) == Appended(q)[Acked(q)..Acked(q) + BodyIn(out, n)]
  }

  /** The bytes carried are the queued bytes right after the acknowledged ones. */
  lemma {:induction false} CarriedIsNext(out: seq<Item>, q: Queue, n: nat)
    requires Shape(q) && Positive(out) && Bodies(out) == Pending(q) && n <= Total(out)
    ensures AllInside(q.chunks, out) && Continues(out, q, n)
    decreases |out|, 1
  {
    PendingInside(q, out);
    if n == 0 || (out[0].Frame? && n < Len(out[0])) {
      Ordered(q);
      StartTotal(q.chunks);
      assert Carried(q.chunks, out, n) == [];
    } else if out[0].Frame? {
      CarriedIsNext(out[1..], q, n - Len(out[0]));
      assert Carried(q.chunks, out, n) == Carried(q.chunks, out[1..], n - Len(out[0]));
    } else {
      CarriedBody(out, q, n);
    }
  }

  lemma {:induction false} CarriedBody(out: seq<Item>, q: Queue, n: nat)
    requires Shape(q) && Positive(out) && Bodies(out) == Pending(q) && 0 < n <= Total(out)
    requires AllInside(q.chunks, out) && out[0].Body?
    ensures Continues(out, q, n)
    decreases |out|, 0
  {
    HeadOfPending(q, out[0].v, Bodies(out[1..]));
    if n < Len(out[0]) {
      HeadBytes(q, n);
    } else {
      CarriedIsNext(out[1..], Behead(q), n - Len(out[0]));
      CarriedFromHead(out, q, n);
    }
  }

  /** The inductive step: a whole leading body vector, then the rest. */
  lemma CarriedFromHead(out: seq<Item>, q: Queue, n: nat)
    requires Shape(q) && Positive(out) && Bodies(out) == Pending(q) && out != [] && out[0].Body?
    requires Len(out[0]) <= n <= Total(out) && AllInside(q.chunks, out)
    requires Shape(Behead(q)) && Continues(out[1..], Behead(q), n - Len(out[0]))
    ensures Continues(out, q, n)
  {
    var q1 := Behead(q);
    HeadOfPending(q, out[0].v, Bodies(out[1..]));
    HeadBytes(q, Len(out[0]));
    Join(Appended(q), Acked(q), Acked(q1), Acked(q1) + BodyIn(out[1..], n - Len(out[0])));
  }

  lemma Join(s: seq<byte>, a: nat, b: nat, c: nat)
    requires a <= b <= c <= |s|
    ensures s[a..b] + s[b..c] == s[a..c]
  {
  }

  lemma {:induction false} ConsumeTotal(out: seq<Item>, n: nat)
    requires n <= Total(out)
    ensures Total(Consume(out, n)) == Total(out) - n
  {
    if n > 0 {
      if n < Len(out[0]) {
        assert ([Shrink(out[0], n)] + out[1..])[1..] == out[1..];
      } else {
        ConsumeTotal(out[1..], n - Len(out[0]));
      }
    }
  }

  lemma {:induction false} PrefixTotal(out: seq<Item>, k: nat)
    requires k <= |out|
    ensures Total(out[..k]) <= Total(out)
  {
    assert out == out[..k] + out[k..];
    BodiesConcat(out[..k], out[k..]);
  }
}
