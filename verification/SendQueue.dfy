/**
 The bounded response queue of one stream (h3_session.c), as a value.

 `chunks` is the whole history of queued chunks; the first `freed` of them have been
 released, `headAcked` bytes of the next one are acknowledged, and the submit cursor
 points at chunk `cursor` (or at nothing when `cursor == |chunks|`).  The linked list that
 the program keeps is `chunks[freed..]`.
 */
module SendQueue {
  import opened Bytes

  const STREAM_CHUNK_BYTES: nat := 4096
  const SIZE_MAX: nat := 0xFFFF_FFFF_FFFF_FFFF

  /** How an append, or a whole request, ends; a wait that has not ended shows as such. */
  datatype Status = Success | Aborted | General | NoMemory | WaitFailed | ReadFailed | NotStarted | StillWaiting

  datatype Queue = Queue(
    chunks: seq<seq<byte>>,
    freed: nat,
    headAcked: nat,
    cursor: nat,
    limit: nat,
    submitted: bool,
    complete: bool,
    cancelled: bool)

  /** One zero-copy vector handed to nghttp3: `len` bytes of chunk `chunk` from offset `off`. */
  datatype Slice = Slice(chunk: nat, off: nat, len: nat)

  datatype Flag = Data | Eof | WouldBlock

  function Empty(limit: nat): (q: Queue)
  {
    Queue([], 0, 0, 0, limit, false, false, false)
  }

  predicate ChunksOk(chunks: seq<seq<byte>>)
  {
    forall i | 0 <= i < |chunks| :: 0 < |chunks[i]| <= STREAM_CHUNK_BYTES
  }

  /** The list part of the invariant: where the head, the acked bytes and the cursor may be. */
  predicate Shape(q: Queue)
  {
    && ChunksOk(q.chunks)
    && q.freed <= q.cursor <= |q.chunks|
    && (if q.freed < |q.chunks| then q.headAcked < |q.chunks[q.freed]| else q.headAcked == 0)
    && (q.freed == q.cursor ==> q.headAcked == 0)
  }

  predicate Valid(q: Queue)
  {
    Shape(q) && 0 < q.limit && Buffered(q) <= q.limit
  }

  /** Everything the producer has queued so far. */
  function Appended(q: Queue): (r: seq<byte>)
  {
    Flatten(q.chunks)
  }

  function Acked(q: Queue): (r: nat)
    requires q.freed <= |q.chunks|
  {
    Start(q.chunks, q.freed) + q.headAcked
  }

  function Offered(q: Queue): (r: nat)
    requires q.cursor <= |q.chunks|
  {
    Start(q.chunks, q.cursor)
  }

  /** response_buffered: queued and not yet acknowledged. */
  function Buffered(q: Queue): (r: int)
    requires q.freed <= |q.chunks|
  {
    Start(q.chunks, |q.chunks|) - Acked(q)
  }

  /** The queue is valid and the program's two byte counters are right. */
  ghost predicate Tallied(q: Queue, buffered: int, length: int)
  {
    Valid(q) && buffered == Buffered(q) && length == Start(q.chunks, |q.chunks|)
  }

  /** acknowledged <= offered <= queued, in bytes */
  lemma Ordered(q: Queue)
    requires Shape(q)
    ensures Acked(q) <= Offered(q) <= |Appended(q)|
    ensures q.freed == q.cursor <==> Acked(q) == Offered(q)
  {
    StartTotal(q.chunks);
    StartMonotone(q.chunks, q.cursor, |q.chunks|);
    if q.freed < q.cursor {
      StartMonotone(q.chunks, q.freed + 1, q.cursor);
    }
  }

  // ---- operations ----

  /** The bytes one round of append takes from `data`. */
  function ChunkLen(q: Queue, data: seq<byte>): (n: nat)
    requires Valid(q)
    ensures n <= |data| && n <= q.limit - Buffered(q) && n <= STREAM_CHUNK_BYTES
    ensures n == 0 <==> data == [] || Buffered(q) == q.limit
  {
    var room := q.limit - Buffered(q);
    var n := if |data| > room then room else |data|;
    if n > STREAM_CHUNK_BYTES then STREAM_CHUNK_BYTES else n
  }

  function Push(q: Queue, chunk: seq<byte>): (r: Queue)
  {
    q.(chunks := q.chunks + [chunk])
  }

  function Ack(q: Queue, datalen: nat): (r: Queue)
    requires ChunksOk(q.chunks) && q.freed <= |q.chunks|
    requires q.freed < |q.chunks| ==> q.headAcked < |q.chunks[q.freed]|
    decreases |q.chunks| - q.freed
  {
    if datalen == 0 || q.freed == |q.chunks| then q
    else
      var available := |q.chunks[q.freed]| - q.headAcked;
      if datalen < available then q.(headAcked := q.headAcked + datalen)
      else Ack(q.(freed := q.freed + 1, headAcked := 0), datalen - available)
  }

  /** How much of an acknowledgement the head chunk takes. */
  function Portion(q: Queue, left: nat): (n: nat)
    requires q.freed < |q.chunks| && q.headAcked < |q.chunks[q.freed]|
  {
    if left < |q.chunks[q.freed]| - q.headAcked then left else |q.chunks[q.freed]| - q.headAcked
  }

  /** The same for bytes of the head chunk only: one turn of the loop. */
  function AckInHead(q: Queue, n: nat): (r: Queue)
    requires q.freed < |q.chunks| && n <= |q.chunks[q.freed]| - q.headAcked
  {
    if q.headAcked + n < |q.chunks[q.freed]| then q.(headAcked := q.headAcked + n)
    else q.(freed := q.freed + 1, headAcked := 0)
  }

  function Cancel(q: Queue): (r: Queue)
  {
    q.(cancelled := true, complete := true)
  }

  /** cleanup: every remaining chunk is freed */
  function Cleanup(q: Queue): (r: Queue)
  {
    q.(freed := |q.chunks|, headAcked := 0, cursor := |q.chunks|)
  }

  /** How many chunks one call of the data reader takes. */
  function Take(q: Queue, veccnt: nat): (n: nat)
    requires q.cursor <= |q.chunks|
  {
    if |q.chunks| - q.cursor <= veccnt then |q.chunks| - q.cursor else veccnt
  }

  /** The data reader: the queue after the call, the vectors it fills, and what it reports. */
  function Read(q: Queue, veccnt: nat): (r: (Queue, seq<Slice>, Flag))
    requires q.cursor <= |q.chunks|
  {
    if q.cancelled then (q, [], Eof)
    else
      var n := Take(q, veccnt);
      var q' := q.(cursor := q.cursor + n);
      var vec := Span(q.chunks, q.cursor, 0, q.cursor + n);
      if n > 0 then (q', vec, if q'.cursor == |q.chunks| && q.complete then Eof else Data)
      else if q.complete then (q', [], Eof)
      else (q', [], WouldBlock)
  }

  /** The vectors for chunks from..to, of which the first starts at offset `off`. */
  function Span(chunks: seq<seq<byte>>, from: nat, off: nat, end: nat): (r: seq<Slice>)
    requires end <= |chunks|
    requires from < end ==> off <= |chunks[from]|
    decreases end - from
  {
    if from >= end then [] else [Slice(from, off, |chunks[from]| - off)] + Span(chunks, from + 1, 0, end)
  }

  lemma {:induction false} SpanSplit(chunks: seq<seq<byte>>, from: nat, off: nat, mid: nat, end: nat)
    requires from <= mid <= end <= |chunks|
    requires from < end ==> off <= |chunks[from]|
    requires from == mid ==> off == 0
    ensures Span(chunks, from, off, mid) + Span(chunks, mid, 0, end) == Span(chunks, from, off, end)
    decreases mid - from
  {
    if from < mid {
      SpanSplit(chunks, from + 1, 0, mid, end);
    }
  }

  lemma {:induction false} SpanAt(chunks: seq<seq<byte>>, from: nat, end: nat)
    requires from <= end <= |chunks|
    ensures |Span(chunks, from, 0, end)| == end - from
    ensures forall i | 0 <= i < end - from :: Span(chunks, from, 0, end)[i] == Slice(from + i, 0, |chunks[from + i]|)
    decreases end - from
  {
    if from < end {
      SpanAt(chunks, from + 1, end);
      var rest := Span(chunks, from + 1, 0, end);
      forall i | 0 < i < end - from
        ensures ([Slice(from, 0, |chunks[from]|)] + rest)[i] == Slice(from + i, 0, |chunks[from + i]|)
      {
        assert rest[i - 1] == Slice(from + 1 + (i - 1), 0, |chunks[from + 1 + (i - 1)]|);
      }
    }
  }

  lemma {:induction false} SpanGrow(chunks: seq<seq<byte>>, c: seq<byte>, from: nat, off: nat, end: nat)
    requires end <= |chunks|
    requires from < end ==> off <= |chunks[from]|
    ensures Span(chunks + [c], from, off, end) == Span(chunks, from, off, end)
    decreases end - from
  {
    if from < end {
      SpanGrow(chunks, c, from + 1, 0, end);
    }
  }

  /** The vectors offered and not yet acknowledged, in order. */
  function Pending(q: Queue): (r: seq<Slice>)
    requires q.freed <= q.cursor <= |q.chunks|
    requires q.freed < |q.chunks| ==> q.headAcked <= |q.chunks[q.freed]|
  {
    Span(q.chunks, q.freed, q.headAcked, q.cursor)
  }

  // ---- what each operation keeps ----

  /** A chunk that fits the room keeps the queue within its limit. */
  lemma PushValid(q: Queue, c: seq<byte>)
    requires Valid(q) && 0 < |c| <= STREAM_CHUNK_BYTES && |c| <= q.limit - Buffered(q)
    ensures Valid(Push(q, c))
    ensures Acked(Push(q, c)) == Acked(q) && Offered(Push(q, c)) == Offered(q)
    ensures Buffered(Push(q, c)) == Buffered(q) + |c|
    ensures Start(Push(q, c).chunks, |q.chunks| + 1) == Start(q.chunks, |q.chunks|) + |c|
  {
    StartSnoc(q.chunks, c, q.freed);
    StartSnoc(q.chunks, c, q.cursor);
    StartSnoc(q.chunks, c, |q.chunks|);
  }

  lemma PushTallied(q: Queue, c: seq<byte>, buffered: int, length: int)
    requires Tallied(q, buffered, length) && 0 < |c| <= STREAM_CHUNK_BYTES && |c| <= q.limit - buffered
    ensures Tallied(Push(q, c), buffered + |c|, length + |c|)
  {
    PushValid(q, c);
  }

  /** Queueing adds bytes at the end of the byte stream and disturbs nothing already offered. */
  lemma PushKeeps(q: Queue, c: seq<byte>)
    requires Shape(q)
    ensures Appended(Push(q, c)) == Appended(q) + c
    ensures Pending(Push(q, c)) == Pending(q)
  {
    FlattenSnoc(q.chunks, c);
    SpanGrow(q.chunks, c, q.freed, q.headAcked, q.cursor);
  }

  /** An acknowledgement of n offered bytes releases exactly n bytes from the front and leaves the cursor alone. */
  lemma {:induction false} AckKeeps(q: Queue, n: nat)
    requires Shape(q) && n <= Offered(q) - Acked(q)
    ensures Shape(Ack(q, n))
    ensures Acked(Ack(q, n)) == Acked(q) + n
    ensures Buffered(Ack(q, n)) == Buffered(q) - n
    ensures Ack(q, n) == q.(freed := Ack(q, n).freed, headAcked := Ack(q, n).headAcked)
    ensures q.freed <= Ack(q, n).freed
    decreases |q.chunks| - q.freed
  {
    if n > 0 && q.freed < |q.chunks| {
      Ordered(q);
      var available := |q.chunks[q.freed]| - q.headAcked;
      if available <= n {
        AckKeeps(q.(freed := q.freed + 1, headAcked := 0), n - available);
      }
    }
  }

  /**
   An acknowledgement leaves the cursor on a chunk that is still allocated (or on none)
   exactly when it covers no byte past the cursor.
   */
  lemma AckOvertakes(q: Queue, n: nat)
    requires Shape(q) && q.cursor < |q.chunks|
    ensures Ack(q, n).freed <= q.cursor && (Ack(q, n).freed == q.cursor ==> Ack(q, n).headAcked == 0)
            <==> n <= Offered(q) - Acked(q)
  {
    Ordered(q);
    if n <= Offered(q) - Acked(q) {
      AckKeeps(q, n);
    } else {
      AckTotal(q, n);
      var r := Ack(q, n);
      StartTotal(q.chunks);
      StartMonotone(q.chunks, q.cursor + 1, |q.chunks|);
      if r.freed < q.cursor {
        StartMonotone(q.chunks, r.freed + 1, q.cursor);
      }
    }
  }

  /** Without the caller's promise: an acknowledgement covers n bytes, or all there are. */
  lemma {:induction false} AckTotal(q: Queue, n: nat)
    requires ChunksOk(q.chunks) && q.freed <= |q.chunks|
    requires if q.freed < |q.chunks| then q.headAcked < |q.chunks[q.freed]| else q.headAcked == 0
    ensures q.freed <= Ack(q, n).freed <= |q.chunks| && Ack(q, n).chunks == q.chunks
    ensures if Ack(q, n).freed < |q.chunks| then Ack(q, n).headAcked < |q.chunks[Ack(q, n).freed]|
            else Ack(q, n).headAcked == 0
    ensures Acked(q) <= |Appended(q)|
    ensures Acked(Ack(q, n)) == if n <= |Appended(q)| - Acked(q) then Acked(q) + n else |Appended(q)|
    decreases |q.chunks| - q.freed
  {
    StartTotal(q.chunks);
    if q.freed < |q.chunks| {
      StartMonotone(q.chunks, q.freed + 1, |q.chunks|);
      var available := |q.chunks[q.freed]| - q.headAcked;
      if available <= n {
        AckTotal(q.(freed := q.freed + 1, headAcked := 0), n - available);
      }
    }
  }

  lemma AckRound(q: Queue, left: nat)
    requires Valid(q) && 0 < left <= Offered(q) - Acked(q) && q.freed < |q.chunks|
    ensures q.freed < q.cursor && 0 < Portion(q, left) <= left
    ensures Valid(AckInHead(q, Portion(q, left)))
    ensures Ack(AckInHead(q, Portion(q, left)), left - Portion(q, left)) == Ack(q, left)
    ensures left - Portion(q, left) <= Offered(AckInHead(q, Portion(q, left))) - Acked(AckInHead(q, Portion(q, left)))
    ensures 0 <= Buffered(AckInHead(q, Portion(q, left))) == Buffered(q) - Portion(q, left)
  {
    Ordered(q);
    StartMonotone(q.chunks, q.cursor, |q.chunks|);
    AckKeeps(q, Portion(q, left));
    assert AckInHead(q, Portion(q, left)) == Ack(q, Portion(q, left));
  }

  lemma AckTallied(q: Queue, left: nat, buffered: int, length: int)
    requires Tallied(q, buffered, length) && 0 < left <= Offered(q) - Acked(q) && q.freed < |q.chunks|
    ensures q.freed < q.cursor && 0 < Portion(q, left) <= buffered
    ensures Tallied(AckInHead(q, Portion(q, left)), buffered - Portion(q, left), length)
  {
    AckRound(q, left);
  }

  /** When the loop stops, nothing is left to acknowledge. */
  lemma AckAll(q: Queue, left: nat)
    requires Valid(q) && left <= Offered(q) - Acked(q) && (left == 0 || q.freed == |q.chunks|)
    ensures Ack(q, left) == q
  {
    Ordered(q);
  }

  /** The counter the program keeps is the sum of len minus acked over the list. */
  lemma BufferedIsSum(q: Queue)
    requires Shape(q)
    ensures Buffered(q) == Sum((c: seq<byte>) => |c|, q.chunks[q.freed..]) - q.headAcked
  {
    var live := q.chunks[q.freed..];
    assert q.chunks == q.chunks[..q.freed] + live;
    FlattenConcat(q.chunks[..q.freed], live);
    FlattenSize(live);
    StartIsPrefix(q.chunks, q.freed);
    StartTotal(q.chunks);
  }

  lemma {:induction false} FlattenSize(pieces: seq<seq<byte>>)
    ensures |Flatten(pieces)| == Sum((c: seq<byte>) => |c|, pieces)
    decreases |pieces|
  {
    if pieces != [] {
      FlattenSize(pieces[..|pieces| - 1]);
    }
  }

  lemma CleanupKeeps(q: Queue)
    requires Shape(q) && 0 < q.limit
    ensures Valid(Cleanup(q)) && Buffered(Cleanup(q)) == 0 && Pending(Cleanup(q)) == []
    ensures Appended(Cleanup(q)) == Appended(q)
  {
    StartTotal(q.chunks);
  }

  lemma CleanupTallied(q: Queue, buffered: int, length: int)
    requires Tallied(q, buffered, length)
    ensures Tallied(Cleanup(q), 0, length)
  {
    CleanupKeeps(q);
  }

  lemma ReadTallied(q: Queue, veccnt: nat, buffered: int, length: int)
    requires Tallied(q, buffered, length)
    ensures Tallied(Read(q, veccnt).0, buffered, length)
  {
    ReadKeeps(q, veccnt);
  }

  /** The reader only moves the cursor forward. */
  lemma ReadKeeps(q: Queue, veccnt: nat)
    requires Valid(q)
    ensures var (q', vec, flag) := Read(q, veccnt);
            && Valid(q')
            && q' == q.(cursor := q'.cursor)
            && q.cursor <= q'.cursor
  {
  }

  /** The vectors handed out follow the ones still pending. */
  lemma ReadPending(q: Queue, veccnt: nat)
    requires Shape(q)
    ensures Shape(Read(q, veccnt).0)
    ensures Pending(Read(q, veccnt).0) == Pending(q) + Read(q, veccnt).1
  {
    SpanSplit(q.chunks, q.freed, q.headAcked, q.cursor, Read(q, veccnt).0.cursor);
  }

  /** EOF means every queued byte has been offered, unless a cancelled reader cut the stream short. */
  lemma EofMeansAll(q: Queue, veccnt: nat)
    requires Valid(q) && 0 < veccnt && Read(q, veccnt).2 == Eof
    ensures Offered(Read(q, veccnt).0) == |Appended(q)| <==> !q.cancelled || q.cursor == |q.chunks|
    ensures q.complete || q.cancelled
  {
    StartTotal(q.chunks);
    if q.cursor < |q.chunks| {
      StartMonotone(q.chunks, q.cursor + 1, |q.chunks|);
    }
  }

  /** The bytes a vector points at. */
  function BytesOf(chunks: seq<seq<byte>>, v: Slice): (r: seq<byte>)
    requires v.chunk < |chunks| && v.off + v.len <= |chunks[v.chunk]|
  {
    chunks[v.chunk][v.off..v.off + v.len]
  }

  /** The head of the offered vectors carries the bytes right after the acknowledged ones. */
  lemma HeadBytes(q: Queue, k: nat)
    requires Shape(q) && q.freed < q.cursor && k <= |q.chunks[q.freed]| - q.headAcked
    ensures Acked(q) + k <= |Appended(q)|
    ensures Appended(q)[Acked(q)..Acked(q) + k]
         == BytesOf(q.chunks, Slice(q.freed, q.headAcked, k))
  {
    PieceAt(q.chunks, q.freed);
    var c, s := q.chunks[q.freed], Start(q.chunks, q.freed);
    var all := Appended(q);
    assert all[s..s + |c|] == c;
    SliceOfSlice(all, s, s + |c|, q.headAcked, q.headAcked + k);
  }
}
