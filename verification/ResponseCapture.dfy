/**
 The output filter (h3_filter.c) and the end of a request (h3_request.c): a response body is
 queued bucket by bucket, or captured under a limit and queued at the end.
 */
module ResponseCapture {
  import opened Bytes
  import RequestBody

  /** What is queued instead of a body over the limit. */
  function OversizedText(): (r: seq<byte>)
    ensures |r| == 40
  {
    var text := "Response exceeded H3MaxResponseBodySize\n";
    seq(|text|, i requires 0 <= i < |text| => (text[i] as int) % 256)
  }

  /**
   A bucket.  Reading a data bucket yields its first piece and leaves the others in a bucket
   behind it; a bucket of unknown length is split in this way each time it is read.  Reading an
   unreadable one fails, and with it the bytes it stands for are lost.
   */
  datatype Bucket = Data(pieces: seq<seq<byte>>) | Unreadable(data: seq<byte>) | Eos | Flush | Other | Error

  /** What the handlers of a request pass to the filter, and how the filter is set up for it. */
  datatype Output = Output(streaming: bool, headerOnly: bool, limit: nat, brigades: seq<seq<Bucket>>)

  // ---- brigades ----

  /** The buckets of a brigade the filter acts on: those before an error, and no data for a response without a body. */
  function Seen(headerOnly: bool, bb: seq<Bucket>): (f: seq<Bucket>)
  {
    if bb == [] || bb[0].Error? then []
    else if headerOnly && (bb[0].Data? || bb[0].Unreadable?) then Seen(headerOnly, bb[1..])
    else [bb[0]] + Seen(headerOnly, bb[1..])
  }

  function SeenAll(headerOnly: bool, bbs: seq<seq<Bucket>>): (f: seq<Bucket>)
  {
    if bbs == [] then [] else SeenAll(headerOnly, bbs[..|bbs| - 1]) + Seen(headerOnly, bbs[|bbs| - 1])
  }

  /** The buckets before the first unreadable one, at which streaming stops. */
  function Heard(f: seq<Bucket>): (g: seq<Bucket>)
  {
    if f == [] || f[0].Unreadable? then [] else [f[0]] + Heard(f[1..])
  }

  /** What streaming gets to when the handlers go on after every brigade that failed. */
  function HeardAll(headerOnly: bool, bbs: seq<seq<Bucket>>): (f: seq<Bucket>)
  {
    if bbs == [] then [] else HeardAll(headerOnly, bbs[..|bbs| - 1]) + Heard(Seen(headerOnly, bbs[|bbs| - 1]))
  }

  /** The pieces that can be read, in order. */
  function Pieces(f: seq<Bucket>): (r: seq<seq<byte>>)
  {
    if f == [] then [] else (if f[0].Data? then f[0].pieces else []) + Pieces(f[1..])
  }

  /** The bytes one bucket stands for. */
  function Content(b: Bucket): (r: seq<byte>)
  {
    if b.Data? then Flatten(b.pieces) else if b.Unreadable? then b.data else []
  }

  /** All that the buckets stand for, readable or not. */
  function Whole(f: seq<Bucket>): (r: seq<byte>)
  {
    if f == [] then [] else Content(f[0]) + Whole(f[1..])
  }

  /** What comes before the first unreadable bucket. */
  function Before(f: seq<Bucket>): (r: seq<byte>)
  {
    if f == [] || f[0].Unreadable? then [] else Content(f[0]) + Before(f[1..])
  }

  /** No bucket is unreadable. */
  predicate AllRead(f: seq<Bucket>)
  {
    f == [] || (!f[0].Unreadable? && AllRead(f[1..]))
  }

  /** No bucket with bytes in it is unreadable. */
  predicate NothingLost(f: seq<Bucket>)
  {
    f == [] || ((f[0].Unreadable? ==> f[0].data == []) && NothingLost(f[1..]))
  }

  /** What can be read is all there is exactly when no bucket with bytes in it is unreadable. */
  lemma {:induction false} ReadIsWhole(f: seq<Bucket>)
    ensures |Flatten(Pieces(f))| <= |Whole(f)|
    ensures Flatten(Pieces(f)) == Whole(f) <==> NothingLost(f)
    decreases |f|
  {
    if f != [] {
      var first := if f[0].Data? then f[0].pieces else [];
      ReadIsWhole(f[1..]);
      FlattenConcat(first, Pieces(f[1..]));
      if f[0].Unreadable? && f[0].data != [] {
        assert |Flatten(Pieces(f))| < |Whole(f)|;
      } else {
        assert Content(f[0]) == Flatten(first);
        SamePrefix(Content(f[0]), Flatten(Pieces(f[1..])), Whole(f[1..]));
      }
    }
  }

  lemma SamePrefix(a: seq<byte>, b: seq<byte>, c: seq<byte>)
    ensures a + b == a + c <==> b == c
  {
    assert (a + b)[|a|..] == b && (a + c)[|a|..] == c;
  }

  lemma {:induction false} BeforeIsPrefix(f: seq<Bucket>)
    ensures Before(f) <= Whole(f) && (AllRead(f) ==> Before(f) == Whole(f))
    decreases |f|
  {
    if f != [] {
      BeforeIsPrefix(f[1..]);
    }
  }

  // ---- a response and its end ----

  /** Whether the response has been completed by an end-of-stream bucket, and bytes came after that. */
  datatype Phase = Open | Ended | Overrun

  function Then(p: Phase, n: nat): (r: Phase)
  {
    if p == Ended && 0 < n then Overrun else p
  }

  function End(p: Phase): (r: Phase)
  {
    if p == Overrun then Overrun else Ended
  }

  function Step(p: Phase, b: Bucket): (r: Phase)
  {
    if b.Eos? then End(p) else if b.Data? then Then(p, |Content(b)|) else p
  }

  /** Where streaming the buckets, up to an unreadable one, takes a response. */
  function Fate(p: Phase, f: seq<Bucket>): (r: Phase)
    decreases |f|
  {
    if f == [] || f[0].Unreadable? then p
    else Fate(Step(p, f[0]), f[1..])
  }

  /** Where streaming all the brigades takes a response. */
  function FateAll(headerOnly: bool, bbs: seq<seq<Bucket>>): (r: Phase)
  {
    if bbs == [] then Open else Fate(FateAll(headerOnly, bbs[..|bbs| - 1]), Seen(headerOnly, bbs[|bbs| - 1]))
  }

  /** Phase p is q or comes before it. */
  predicate Upto(p: Phase, q: Phase)
  {
    p == q || p == Open || q == Overrun
  }

  lemma {:induction false} FateGrows(p: Phase, f: seq<Bucket>)
    ensures Upto(p, Fate(p, f))
    decreases |f|
  {
    if f != [] && !f[0].Unreadable? {
      FateGrows(Step(p, f[0]), f[1..]);
      if p == Overrun {
        OverrunStays(f[1..]);
      }
    }
  }

  lemma {:induction false} FateMonotone(p: Phase, q: Phase, f: seq<Bucket>)
    requires Upto(p, q)
    ensures Upto(Fate(p, f), Fate(q, f))
    decreases |f|
  {
    if f != [] && !f[0].Unreadable? {
      FateMonotone(Step(p, f[0]), Step(q, f[0]), f[1..]);
    }
  }

  lemma {:induction false} OverrunStays(f: seq<Bucket>)
    ensures Fate(Overrun, f) == Overrun
    decreases |f|
  {
    if f != [] && !f[0].Unreadable? {
      OverrunStays(f[1..]);
    }
  }

  /** A data bucket with bytes in it comes behind an end-of-stream bucket. */
  ghost predicate LateData(f: seq<Bucket>)
  {
    exists i: nat, j: nat :: i < j < |f| && f[i].Eos? && Carries(f, j)
  }

  predicate Carries(f: seq<Bucket>, j: nat)
  {
    j < |f| && f[j].Data? && Content(f[j]) != []
  }

  lemma {:induction false} EndedFate(f: seq<Bucket>)
    requires AllRead(f)
    ensures Fate(Ended, f) == Overrun <==> exists j: nat :: Carries(f, j)
    decreases |f|
  {
    if f != [] {
      EndedFate(f[1..]);
      OverrunStays(f[1..]);
      assert Carries(f, 0) <==> f[0].Data? && Content(f[0]) != [];
      if j: nat :| 0 < j && Carries(f, j) {
        assert Carries(f[1..], j - 1);
      }
      if k: nat :| Carries(f[1..], k) {
        assert Carries(f, k + 1);
      }
    }
  }

  /** Streaming readable buckets queues bytes behind an end of stream exactly when there is late data among them. */
  lemma {:induction false} OverrunExactly(f: seq<Bucket>)
    requires AllRead(f)
    ensures Fate(Open, f) == Overrun <==> LateData(f)
    decreases |f|
  {
    if f != [] {
      var rest := f[1..];
      OverrunExactly(rest);
      EndedFate(rest);
      if i: nat, j: nat :| i < j < |f| && f[i].Eos? && Carries(f, j) {
        assert Carries(rest, j - 1);
        assert i > 0 ==> rest[i - 1].Eos?;
      }
      if k: nat :| Carries(rest, k) {
        assert Carries(f, k + 1);
      }
      if i: nat, j: nat :| i < j < |rest| && rest[i].Eos? && Carries(rest, j) {
        assert f[i + 1].Eos? && Carries(f, j + 1);
      }
    }
  }

  lemma {:induction false} HeardFate(p: Phase, f: seq<Bucket>)
    ensures Fate(p, Heard(f)) == Fate(p, f) && AllRead(Heard(f))
    decreases |f|
  {
    if f != [] && !f[0].Unreadable? {
      assert Heard(f)[1..] == Heard(f[1..]);
      HeardFate(Step(p, f[0]), f[1..]);
    }
  }

  /** Of readable buckets without an error all are seen and heard. */
  lemma {:induction false} AllHeard(f: seq<Bucket>)
    requires AllRead(f) && forall k | 0 <= k < |f| :: !f[k].Error?
    ensures Seen(false, f) == f && Heard(f) == f
    decreases |f|
  {
    if f != [] {
      AllHeard(f[1..]);
      assert [f[0]] + f[1..] == f;
    }
  }

  /** Bytes are queued behind an end of stream exactly when late data is heard, over all the brigades of a request. */
  lemma {:induction false} OverrunOverall(headerOnly: bool, bbs: seq<seq<Bucket>>)
    ensures FateAll(headerOnly, bbs) == Overrun <==> LateData(HeardAll(headerOnly, bbs))
  {
    HeardAllFate(headerOnly, bbs);
    OverrunExactly(HeardAll(headerOnly, bbs));
  }

  lemma {:induction false} HeardAllFate(headerOnly: bool, bbs: seq<seq<Bucket>>)
    ensures FateAll(headerOnly, bbs) == Fate(Open, HeardAll(headerOnly, bbs)) && AllRead(HeardAll(headerOnly, bbs))
    decreases |bbs|
  {
    if bbs != [] {
      var n := |bbs| - 1;
      var f, g := HeardAll(headerOnly, bbs[..n]), Seen(headerOnly, bbs[n]);
      HeardAllFate(headerOnly, bbs[..n]);
      HeardFate(FateAll(headerOnly, bbs[..n]), g);
      FateJoined(Open, f, Heard(g));
      BeforeJoined(f, Heard(g));
    }
  }

  // ---- two runs of buckets one after the other ----

  lemma {:induction false} PiecesJoined(f: seq<Bucket>, g: seq<Bucket>)
    ensures Pieces(f + g) == Pieces(f) + Pieces(g)
    decreases |f|
  {
    if f == [] {
      assert f + g == g;
    } else {
      assert (f + g)[1..] == f[1..] + g;
      PiecesJoined(f[1..], g);
    }
  }

  lemma {:induction false} WholeJoined(f: seq<Bucket>, g: seq<Bucket>)
    ensures Whole(f + g) == Whole(f) + Whole(g)
    decreases |f|
  {
    if f == [] {
      assert f + g == g;
    } else {
      assert (f + g)[1..] == f[1..] + g;
      WholeJoined(f[1..], g);
      Assoc(Content(f[0]), Whole(f[1..]), Whole(g));
    }
  }

  lemma {:induction false} BeforeJoined(f: seq<Bucket>, g: seq<Bucket>)
    ensures AllRead(f + g) <==> AllRead(f) && AllRead(g)
    ensures Before(f + g) == if AllRead(f) then Whole(f) + Before(g) else Before(f)
    decreases |f|
  {
    if f == [] {
      assert f + g == g;
    } else {
      assert (f + g)[1..] == f[1..] + g;
      BeforeJoined(f[1..], g);
      Assoc(Content(f[0]), Whole(f[1..]), Before(g));
    }
  }

  lemma {:induction false} FateJoined(p: Phase, f: seq<Bucket>, g: seq<Bucket>)
    ensures Fate(p, f + g) == if AllRead(f) then Fate(Fate(p, f), g) else Fate(p, f)
    decreases |f|
  {
    if f == [] {
      assert f + g == g;
    } else {
      assert (f + g)[1..] == f[1..] + g;
      FateJoined(Step(p, f[0]), f[1..], g);
    }
  }

  // ---- reading a bucket ----

  /** The brigade once the first piece of its first bucket has been read. */
  function AfterRead(bb: seq<Bucket>): (r: seq<Bucket>)
    requires bb != [] && bb[0].Data?
  {
    if |bb[0].pieces| > 1 then [Data(bb[0].pieces[1..])] + bb[1..] else bb[1..]
  }

  function FirstPiece(bb: seq<Bucket>): (r: seq<byte>)
    requires bb != [] && bb[0].Data?
  {
    if bb[0].pieces == [] then [] else bb[0].pieces[0]
  }

  /** How many reads a brigade takes at most. */
  function Effort(bb: seq<Bucket>): (n: nat)
  {
    if bb == [] then 0 else 1 + (if bb[0].Data? then |bb[0].pieces| else 0) + Effort(bb[1..])
  }

  /** Reading moves exactly one piece out of the brigade. */
  lemma {:induction false} ReadTakesFirst(bb: seq<Bucket>)
    requires bb != [] && bb[0].Data?
    ensures Effort(AfterRead(bb)) < Effort(bb)
    ensures bb[0].pieces == [] ==> Pieces(AfterRead(bb)) == Pieces(bb)
    ensures bb[0].pieces != [] ==> Pieces(bb) == [FirstPiece(bb)] + Pieces(AfterRead(bb))
  {
    var pieces, tail := bb[0].pieces, bb[1..];
    assert Pieces(bb) == pieces + Pieces(tail);
    if |pieces| > 1 {
      DataThen(pieces[1..], tail);
      assert pieces + Pieces(tail) == [pieces[0]] + (pieces[1..] + Pieces(tail));
    } else if pieces == [] {
      assert pieces + Pieces(tail) == Pieces(tail);
    } else {
      assert pieces == [pieces[0]];
    }
  }

  lemma {:induction false} DataThen(pieces: seq<seq<byte>>, tail: seq<Bucket>)
    ensures Pieces([Data(pieces)] + tail) == pieces + Pieces(tail)
    ensures Effort([Data(pieces)] + tail) == 1 + |pieces| + Effort(tail)
  {
    assert ([Data(pieces)] + tail)[1..] == tail;
  }

  /** For a response with a body, reading is seen as reading. */
  lemma SeenAfterRead(bb: seq<Bucket>)
    requires bb != [] && bb[0].Data?
    ensures var f := Seen(false, bb);
            f != [] && f[0] == bb[0] && FirstPiece(f) == FirstPiece(bb) && Seen(false, AfterRead(bb)) == AfterRead(f)
  {
    if |bb[0].pieces| > 1 {
      assert AfterRead(bb)[1..] == bb[1..];
    }
  }

  /** The bytes of a bucket are those of its first piece and those left in it. */
  lemma FirstOf(pieces: seq<seq<byte>>)
    requires pieces != []
    ensures Flatten(pieces) == pieces[0] + Flatten(pieces[1..])
  {
    assert pieces == [pieces[0]] + pieces[1..];
    FlattenCons(pieces[0], pieces[1..]);
  }

  /** Reading the first piece takes it off what is left. */
  lemma {:induction false} PieceFirst(f: seq<Bucket>)
    requires f != [] && f[0].Data?
    ensures var c, next := FirstPiece(f), AfterRead(f);
            Whole(f) == c + Whole(next) && Before(f) == c + Before(next) && AllRead(f) == AllRead(next)
  {
    var c, pieces, tail := FirstPiece(f), f[0].pieces, f[1..];
    if |pieces| > 1 {
      assert AfterRead(f)[1..] == tail && AfterRead(f)[0] == Data(pieces[1..]);
      FirstOf(pieces);
      Assoc(c, Flatten(pieces[1..]), Whole(tail));
      Assoc(c, Flatten(pieces[1..]), Before(tail));
    } else if |pieces| == 1 {
      FirstOf(pieces);
    }
  }

  lemma {:induction false} PieceFate(q: Phase, f: seq<Bucket>)
    requires f != [] && f[0].Data?
    ensures Fate(Then(q, |FirstPiece(f)|), AfterRead(f)) == Fate(q, f)
  {
    var pieces, tail := f[0].pieces, f[1..];
    OverrunStays(tail);
    OverrunStays(AfterRead(f));
    if |pieces| > 1 {
      assert AfterRead(f)[1..] == tail;
    }
    if pieces != [] {
      FirstOf(pieces);
    }
  }

  /** Once `done` of what `f` stands for is queued, `rest` is left to stream, in phase `q`. */
  ghost predicate Streams(p: Phase, f: seq<Bucket>, done: seq<byte>, q: Phase, rest: seq<Bucket>)
  {
    && Whole(f) == done + Whole(rest) && Before(f) == done + Before(rest)
    && AllRead(f) == AllRead(rest) && Fate(p, f) == Fate(q, rest)
  }

  /** The first piece of the first bucket is queued. */
  lemma StreamsPiece(p: Phase, f: seq<Bucket>, done: seq<byte>, q: Phase, rest: seq<Bucket>)
    requires Streams(p, f, done, q, rest) && rest != [] && rest[0].Data?
    ensures var c := FirstPiece(rest); Streams(p, f, done + c, Then(q, |c|), AfterRead(rest))
  {
    var c, next := FirstPiece(rest), AfterRead(rest);
    PieceFirst(rest);
    PieceFate(q, rest);
    Assoc(done, c, Whole(next));
    Assoc(done, c, Before(next));
  }

  /** A bucket without bytes is passed. */
  lemma StreamsPast(p: Phase, f: seq<Bucket>, done: seq<byte>, q: Phase, rest: seq<Bucket>)
    requires Streams(p, f, done, q, rest) && rest != [] && !rest[0].Data? && !rest[0].Unreadable?
    ensures Streams(p, f, done, Step(q, rest[0]), rest[1..])
  {
    assert [] + Whole(rest[1..]) == Whole(rest[1..]);
    assert [] + Before(rest[1..]) == Before(rest[1..]);
  }

  // ---- capturing, as values ----

  /** Capturing several pieces in turn. */
  function CaptureAll(limit: nat, b: RequestBody.Body, pieces: seq<seq<byte>>): (r: RequestBody.Body)
    decreases |pieces|
  {
    if pieces == [] then b else CaptureAll(limit, RequestBody.Keep(limit, b, pieces[0]), pieces[1..])
  }

  lemma {:induction false} CaptureSkips(limit: nat, b: RequestBody.Body, pieces: seq<seq<byte>>)
    requires b.overflow
    ensures CaptureAll(limit, b, pieces) == b
    decreases |pieces|
  {
    if pieces != [] {
      CaptureSkips(limit, b, pieces[1..]);
    }
  }

  lemma {:induction false} CaptureIsKeep(limit: nat, first: seq<seq<byte>>, pieces: seq<seq<byte>>)
    ensures CaptureAll(limit, RequestBody.KeepAll(limit, first), pieces) == RequestBody.KeepAll(limit, first + pieces)
    decreases |pieces|
  {
    if pieces == [] {
      assert first + pieces == first;
    } else {
      var more := first + [pieces[0]];
      assert more[..|more| - 1] == first;
      assert first + pieces == more + pieces[1..];
      CaptureIsKeep(limit, more, pieces[1..]);
    }
  }

  /** What the stream's queue holds at the end of a request whose body came in `pieces`. */
  function Streamed(pieces: seq<seq<byte>>): (r: seq<byte>)
  {
    Flatten(pieces)
  }

  function Buffered(limit: nat, pieces: seq<seq<byte>>): (r: seq<byte>)
  {
    var b := CaptureAll(limit, RequestBody.Body([], false), pieces);
    if b.overflow then OversizedText() else b.content
  }

  /** A body within the limit is queued alike in both modes; over it, only the fixed text is queued. */
  lemma {:induction false} BufferedRefinesStreamed(limit: nat, pieces: seq<seq<byte>>)
    ensures |Streamed(pieces)| <= limit ==> Buffered(limit, pieces) == Streamed(pieces)
    ensures |Streamed(pieces)| > limit ==> Buffered(limit, pieces) == OversizedText()
  {
    CaptureIsKeep(limit, [], pieces);
    assert [] + pieces == pieces;
    var k := RequestBody.KeptIsAllOrNothingMore(limit, pieces);
    assert k == |pieces| ==> pieces[..k] == pieces;
  }

  /**
   A buffered response is what could be read, if that is within the limit, and it is all that the
   handlers produced exactly when no bucket with bytes in it was unreadable: buffered mode passes
   over those and still succeeds, also when with them the limit would have been exceeded.
   */
  lemma BufferedIsWhole(limit: nat, f: seq<Bucket>)
    ensures |Streamed(Pieces(f))| <= limit ==>
              && Buffered(limit, Pieces(f)) == Streamed(Pieces(f))
              && (Buffered(limit, Pieces(f)) == Whole(f) <==> NothingLost(f))
    ensures |Streamed(Pieces(f))| > limit ==> |Whole(f)| > limit && Buffered(limit, Pieces(f)) == OversizedText()
  {
    ReadIsWhole(f);
    BufferedRefinesStreamed(limit, Pieces(f));
  }

  /** The second of two bytes cannot be read: the response succeeds with the first, also when two are over the limit. */
  lemma BufferedLosesAByte(limit: nat)
    requires 1 <= limit
    ensures var f := [Data([[1]]), Unreadable([2])]; Whole(f) == [1, 2] && Buffered(limit, Pieces(f)) == [1]
  {
    var f := [Data([[1]]), Unreadable([2])];
    assert f[1..] == [Unreadable([2])] && f[1..][1..] == [];
    FirstOf([[1]]);
    assert Pieces(f[1..]) == [] && Pieces(f) == [[1]];
    assert Whole(f[1..]) == [2];
    BufferedRefinesStreamed(limit, Pieces(f));
  }

  /** The body a request means to send. */
  function Body(o: Output): (r: seq<byte>)
  {
    var f := SeenAll(o.headerOnly, o.brigades);
    if o.streaming then Whole(f) else Buffered(o.limit, Pieces(f))
  }

  // ---- the filter, in place ----

  /** The capture buffer of a request in buffered mode. */
  class ResponseFilter {
    const headerOnly: bool
    const limit: nat
    var heap: array<byte>
    var length: nat
    var tooLarge: bool
    /** bytes moved by all the regrowths so far */
    ghost var copied: nat

    ghost predicate Valid()
      reads this
    {
      length <= heap.Length && length <= limit && copied <= heap.Length
    }

    ghost function Captured(): (b: RequestBody.Body)
      requires Valid()
      reads this, heap
    {
      RequestBody.Body(heap[..length], tooLarge)
    }

    constructor (headerOnly: bool, limit: nat)
      ensures Valid() && Captured() == RequestBody.Body([], false)
      ensures this.headerOnly == headerOnly && this.limit == limit && fresh(heap)
    {
      this.headerOnly, this.limit := headerOnly, limit;
      heap := new byte[0];
      length, tooLarge, copied := 0, false, 0;
    }

    method Grow(needed: nat)
      requires Valid() && heap.Length < needed
      modifies this`heap, this`copied
      ensures Valid() && needed <= heap.Length && fresh(heap) && Captured() == old(Captured())
      ensures 2 * old(heap.Length) <= heap.Length
      ensures heap.Length < 2 * needed || heap.Length == RequestBody.BODY_BUF_INIT_CAP
    {
      var least := if heap.Length > 0 then heap.Length * 2 else RequestBody.BODY_BUF_INIT_CAP;
      var cap := RequestBody.Doubled(least, needed);
      var grown := new byte[cap];
      forall i | 0 <= i < length {
        grown[i] := heap[i];
      }
      copied := copied + length;
      heap := grown;
    }

    /** capture_body_bucket, for the bytes the bucket yields when read */
    method CapturePiece(data: seq<byte>)
      requires Valid()
      modifies this`heap, this`length, this`tooLarge, this`copied, heap
      ensures Valid() && Captured() == RequestBody.Keep(limit, old(Captured()), data)
      ensures heap == old(heap) || fresh(heap)
    {
      if tooLarge || data == [] {
        return;
      }
      if length > limit || |data| > limit - length {
        tooLarge := true;
        return;
      }
      var needed := length + |data|;
      if needed > heap.Length {
        Grow(needed);
      }
      forall i | 0 <= i < |data| {
        heap[length + i] := data[i];
      }
      length := needed;
      assert heap[..length] == old(heap[..length]) + data;
    }

    /** A brigade in buffered mode; once the body is too large, buckets are skipped unread. */
    method CaptureBrigade(bb: seq<Bucket>)
      requires Valid()
      modifies this`heap, this`length, this`tooLarge, this`copied, heap
      ensures Valid() && Captured() == CaptureAll(limit, old(Captured()), Pieces(Seen(headerOnly, bb)))
      ensures heap == old(heap) || fresh(heap)
    {
      var rest := bb;
      while rest != []
        invariant Valid() && (heap == old(heap) || fresh(heap))
        invariant CaptureAll(limit, Captured(), Pieces(Seen(headerOnly, rest)))
               == CaptureAll(limit, old(Captured()), Pieces(Seen(headerOnly, bb)))
        decreases Effort(rest)
      {
        var b := rest[0];
        if b.Error? {
          break;
        }
        if b.Data? && !headerOnly && !tooLarge {
          ReadTakesFirst(rest);
          SeenAfterRead(rest);
          ReadTakesFirst(Seen(false, rest));
          CapturePiece(FirstPiece(rest));
          rest := AfterRead(rest);
        } else {
          if tooLarge {
            CaptureSkips(limit, Captured(), Pieces(Seen(headerOnly, rest)));
            CaptureSkips(limit, Captured(), Pieces(Seen(headerOnly, rest[1..])));
          } else {
            SeenPast(headerOnly, rest);
          }
          rest := rest[1..];
        }
      }
    }

    /** Every brigade of a request. */
    method CaptureEach(bbs: seq<seq<Bucket>>)
      requires Valid() && Captured() == RequestBody.Body([], false)
      modifies this`heap, this`length, this`tooLarge, this`copied, heap
      ensures Valid() && (heap == old(heap) || fresh(heap))
      ensures Captured() == CaptureAll(limit, RequestBody.Body([], false), Pieces(SeenAll(headerOnly, bbs)))
    {
      for k := 0 to |bbs|
        invariant Valid() && (heap == old(heap) || fresh(heap))
        invariant Captured() == CaptureAll(limit, RequestBody.Body([], false), Pieces(SeenAll(headerOnly, bbs[..k])))
      {
        SeenGrows(headerOnly, bbs, k);
        ghost var before, now := SeenAll(headerOnly, bbs[..k]), Seen(headerOnly, bbs[k]);
        PiecesJoined(before, now);
        CaptureConcat(limit, RequestBody.Body([], false), Pieces(before), Pieces(now));
        CaptureBrigade(bbs[k]);
      }
      assert bbs[..|bbs|] == bbs;
    }

    /** Capture a whole request; what is to be sent is the body, or the error text if it is too large. */
    method Capture(bbs: seq<seq<Bucket>>) returns (body: seq<byte>)
      requires Valid() && Captured() == RequestBody.Body([], false)
      modifies this`heap, this`length, this`tooLarge, this`copied, heap
      ensures body == Body(Output(false, headerOnly, limit, bbs))
    {
      CaptureEach(bbs);
      body := if tooLarge then OversizedText() else heap[..length];
    }
  }

  /** A bucket that is not read in buffered mode adds nothing to what is captured. */
  lemma SeenPast(headerOnly: bool, bb: seq<Bucket>)
    requires bb != [] && !bb[0].Error? && (headerOnly || !bb[0].Data?)
    ensures Pieces(Seen(headerOnly, bb)) == Pieces(Seen(headerOnly, bb[1..]))
  {
    var f, g := Seen(headerOnly, bb), Seen(headerOnly, bb[1..]);
    if f != g {
      assert f[1..] == g;
    }
  }

  lemma {:induction false} SeenGrows(headerOnly: bool, bbs: seq<seq<Bucket>>, k: nat)
    requires k < |bbs|
    ensures SeenAll(headerOnly, bbs[..k + 1]) == SeenAll(headerOnly, bbs[..k]) + Seen(headerOnly, bbs[k])
  {
    assert bbs[..k + 1][..k] == bbs[..k];
  }

  lemma {:induction false} CaptureConcat(limit: nat, b: RequestBody.Body, p: seq<seq<byte>>, q: seq<seq<byte>>)
    ensures CaptureAll(limit, b, p + q) == CaptureAll(limit, CaptureAll(limit, b, p), q)
    decreases |p|
  {
    if p == [] {
      assert p + q == q;
    } else {
      assert (p + q)[1..] == p[1..] + q;
      CaptureConcat(limit, RequestBody.Keep(limit, b, p[0]), p[1..], q);
    }
  }
}
