/**
 The request body: received into a capped, doubling buffer (h3_callbacks.c) and served to the
 input filter chain (h3_filter.c).
 */
module RequestBody {
  import opened Bytes

  const BODY_BUF_INIT_CAP: nat := 8 * 1024
  const NEWLINE: byte := 10

  // ---- receiving, as values ----

  /** What has been kept of the payloads so far, and whether one went over the limit. */
  datatype Body = Body(content: seq<byte>, overflow: bool)

  function Keep(max: nat, b: Body, data: seq<byte>): (r: Body)
  {
    if data == [] || b.overflow then b
    else if |b.content| + |data| > max then b.(overflow := true)
    else b.(content := b.content + data)
  }

  /** Every payload of a request, in order. */
  function KeepAll(max: nat, payloads: seq<seq<byte>>): (r: Body)
  {
    if payloads == [] then Body([], false)
    else Keep(max, KeepAll(max, payloads[..|payloads| - 1]), payloads[|payloads| - 1])
  }

  /**
   The body overflows exactly when the payloads together exceed the limit.  It is their
   concatenation when they do not, and the first so many whole payloads when they do.
   */
  lemma {:induction false} KeptIsAllOrNothingMore(max: nat, payloads: seq<seq<byte>>) returns (k: nat)
    ensures KeepAll(max, payloads).overflow <==> |Flatten(payloads)| > max
    ensures k <= |payloads| && KeepAll(max, payloads).content == Flatten(payloads[..k])
    ensures !KeepAll(max, payloads).overflow ==> k == |payloads|
    ensures |KeepAll(max, payloads).content| <= max
    decreases |payloads|
  {
    if payloads == [] {
      k := 0;
    } else {
      var n := |payloads| - 1;
      var front, last := payloads[..n], payloads[n];
      k := KeptIsAllOrNothingMore(max, front);
      assert payloads == front + [last];
      FlattenSnoc(front, last);
      assert front[..k] == payloads[..k];
      assert payloads[..|payloads|] == payloads;
      if !KeepAll(max, payloads).overflow {
        k := |payloads|;
      }
    }
  }

  // ---- serving, as values ----

  datatype Mode = ReadBytes | GetLine | Exhaustive | Speculative | Init | EatCrlf

  predicate Reads(mode: Mode)
  {
    mode != Init && mode != EatCrlf
  }

  /** The position of the first newline, or the length. */
  function FirstNewline(s: seq<byte>): (k: nat)
    ensures k <= |s| && NEWLINE !in s[..k] && (k < |s| ==> s[k] == NEWLINE)
  {
    if s == [] || s[0] == NEWLINE then 0 else
      var k := 1 + FirstNewline(s[1..]);
      assert s[..k] == [s[0]] + s[1..][..k - 1];
      k
  }

  /** How many of the unread bytes one call takes. */
  function Want(unread: seq<byte>, mode: Mode, readbytes: int): (n: nat)
    ensures n <= |unread| && (unread != [] ==> 0 < n)
  {
    match mode
    case ReadBytes => if 0 < readbytes < |unread| then readbytes else |unread|
    case Speculative => if 0 < readbytes < |unread| then readbytes else |unread|
    case GetLine => if FirstNewline(unread) < |unread| then FirstNewline(unread) + 1 else |unread|
    case _ => |unread|
  }

  /** What one call of the input filter puts into the brigade. */
  datatype Served = Served(data: seq<byte>, eos: bool)

  function Serve(body: seq<byte>, offset: nat, mode: Mode, readbytes: int): (r: (Served, nat))
    requires offset <= |body|
    ensures offset <= r.1 <= |body|
  {
    if !Reads(mode) then (Served([], false), offset)
    else if offset == |body| then (Served([], true), offset)
    else
      var n := Want(body[offset..], mode, readbytes);
      var data := body[offset..offset + n];
      if mode == Speculative then (Served(data, false), offset) else (Served(data, offset + n == |body|), offset + n)
  }

  datatype Call = Call(mode: Mode, readbytes: int)

  /** The bytes a sequence of calls hands over for good, and where it leaves the offset. */
  function Consumed(body: seq<byte>, offset: nat, calls: seq<Call>): (r: (seq<byte>, nat))
    requires offset <= |body|
    ensures offset <= r.1 <= |body|
    decreases |calls|
  {
    if calls == [] then ([], offset)
    else
      var (served, next) := Serve(body, offset, calls[0].mode, calls[0].readbytes);
      var (rest, last) := Consumed(body, next, calls[1..]);
      ((if calls[0].mode == Speculative then [] else served.data) + rest, last)
  }

  /** Whatever the mix of calls, the non-speculative buckets are the body bytes in order, none twice. */
  lemma {:induction false} ConsumedIsPrefix(body: seq<byte>, offset: nat, calls: seq<Call>)
    requires offset <= |body|
    ensures Consumed(body, offset, calls).0 == body[offset..Consumed(body, offset, calls).1]
    decreases |calls|
  {
    if calls != [] {
      var (served, next) := Serve(body, offset, calls[0].mode, calls[0].readbytes);
      ConsumedIsPrefix(body, next, calls[1..]);
      var last := Consumed(body, next, calls[1..]).1;
      assert body[offset..next] + body[next..last] == body[offset..last];
    }
  }

  /** In the reading modes a call emits EOS exactly when it leaves nothing unread. */
  lemma EosMeansRead(body: seq<byte>, offset: nat, mode: Mode, readbytes: int)
    requires offset <= |body| && Reads(mode)
    ensures Serve(body, offset, mode, readbytes).0.eos <==> Serve(body, offset, mode, readbytes).1 == |body|
  {
    if offset < |body| {
      assert 0 < Want(body[offset..], mode, readbytes);
    }
  }

  /** A speculative read shows what the same read would take. */
  lemma SpeculationIsHonest(body: seq<byte>, offset: nat, readbytes: int)
    requires offset <= |body|
    ensures Serve(body, offset, Speculative, readbytes).0.data == Serve(body, offset, ReadBytes, readbytes).0.data
    ensures Serve(body, offset, Speculative, readbytes).1 == offset
  {
  }

  /** A line ends at the first newline, or with the body. */
  lemma LineEndsAtNewline(body: seq<byte>, offset: nat)
    requires offset < |body|
    ensures var (line, next) := Serve(body, offset, GetLine, 0);
            && line.data != [] && NEWLINE !in line.data[..|line.data| - 1]
            && (line.data[|line.data| - 1] == NEWLINE || next == |body|)
  {
    var unread := body[offset..];
    var k, n := FirstNewline(unread), Want(unread, GetLine, 0);
    var data := body[offset..offset + n];
    assert data == unread[..n];
    assert data[..n - 1] == unread[..n - 1];
    if k < |unread| {
      assert unread[..n - 1] == unread[..k];
      assert data[n - 1] == unread[k];
    } else {
      assert unread[..k] == unread;
    }
  }

  ghost predicate AllTaking(calls: seq<Call>)
  {
    forall k | 0 <= k < |calls| :: Reads(calls[k].mode) && calls[k].mode != Speculative
  }

  /** Every taking call makes progress, so as many calls as there are bytes read the whole body. */
  lemma {:induction false} EnoughCallsReadAll(body: seq<byte>, offset: nat, calls: seq<Call>)
    requires offset <= |body| && AllTaking(calls) && |body| - offset <= |calls|
    ensures Consumed(body, offset, calls).1 == |body| && Consumed(body, offset, calls).0 == body[offset..]
    decreases |calls|
  {
    ConsumedIsPrefix(body, offset, calls);
    if calls != [] {
      var (served, next) := Serve(body, offset, calls[0].mode, calls[0].readbytes);
      if offset < |body| {
        assert 0 < Want(body[offset..], calls[0].mode, calls[0].readbytes);
      }
      EnoughCallsReadAll(body, next, calls[1..]);
    }
  }

  /** Within the limit, receiving and then reading gives the payloads back. */
  lemma RoundTrip(max: nat, payloads: seq<seq<byte>>, calls: seq<Call>)
    requires |Flatten(payloads)| <= max && AllTaking(calls) && |Flatten(payloads)| <= |calls|
    ensures Consumed(KeepAll(max, payloads).content, 0, calls).0 == Flatten(payloads)
  {
    var k := KeptIsAllOrNothingMore(max, payloads);
    assert payloads[..k] == payloads;
    var body := KeepAll(max, payloads).content;
    EnoughCallsReadAll(body, 0, calls);
    assert body[0..] == body;
  }

  /** Under any limit and any mix of calls, what is handed over is a prefix of what was sent. */
  lemma ServedIsPrefixOfSent(max: nat, payloads: seq<seq<byte>>, calls: seq<Call>)
    ensures Consumed(KeepAll(max, payloads).content, 0, calls).0 <= Flatten(payloads)
  {
    var k := KeptIsAllOrNothingMore(max, payloads);
    var body := KeepAll(max, payloads).content;
    ConsumedIsPrefix(body, 0, calls);
    assert payloads == payloads[..k] + payloads[k..];
    FlattenConcat(payloads[..k], payloads[k..]);
  }

  // ---- the buffer, in place ----

  /** The capacity the doubling loop arrives at, before the limit is applied. */
  method Doubled(from: nat, needed: nat) returns (cap: nat)
    requires 0 < from
    ensures needed <= cap && from <= cap && (cap == from || cap < 2 * needed)
    ensures from < needed ==> 2 * from <= cap
  {
    cap := from;
    while cap < needed
      invariant from <= cap && (cap == from || (2 * from <= cap && cap < 2 * needed))
      decreases needed - cap
    {
      cap := cap * 2;
    }
  }

  class BodyBuffer {
    const max: nat
    var buf: array<byte>
    var length: nat
    var offset: nat
    var overflow: bool
    /** bytes moved by all the regrowths so far */
    ghost var copied: nat

    ghost predicate Valid()
      reads this
    {
      && offset <= length <= buf.Length <= max
      && copied <= if buf.Length < max then buf.Length else 2 * buf.Length
    }

    ghost function Model(): (b: Body)
      requires Valid()
      reads this, buf
    {
      Body(buf[..length], overflow)
    }

    constructor (max: nat)
      ensures Valid() && Model() == KeepAll(max, []) && this.max == max && offset == 0
    {
      this.max := max;
      buf := new byte[0];
      length, offset, overflow, copied := 0, 0, false, 0;
    }

    /** Move to a larger buffer: at least `needed` bytes, never more than the limit. */
    method Grow(needed: nat)
      requires Valid() && buf.Length < needed <= max
      modifies this`buf, this`copied
      ensures Valid() && needed <= buf.Length && fresh(buf) && Model() == old(Model())
      ensures buf.Length < 2 * needed || buf.Length <= BODY_BUF_INIT_CAP
    {
      var cap := Doubled(if buf.Length > 0 then buf.Length else BODY_BUF_INIT_CAP, needed);
      if cap > max {
        cap := max;
      }
      var grown := new byte[cap];
      forall i | 0 <= i < length {
        grown[i] := buf[i];
      }
      copied := copied + length;
      buf := grown;
    }

    /** on_recv_data */
    method RecvData(data: seq<byte>)
      requires Valid()
      modifies this`buf, this`length, this`overflow, this`copied, buf
      ensures Valid() && Model() == Keep(max, old(Model()), data) && offset == old(offset)
      ensures length <= buf.Length <= max && copied <= 2 * buf.Length
    {
      if data == [] || overflow {
        return;
      }
      if length + |data| > max {
        overflow := true;
        return;
      }
      var needed := length + |data|;
      if needed > buf.Length {
        Grow(needed);
      }
      forall i | 0 <= i < |data| {
        buf[length + i] := data[i];
      }
      length := needed;
      assert buf[..length] == old(buf[..length]) + data;
    }

    /** serve_request_body */
    method ServeBody(mode: Mode, readbytes: int) returns (served: Served)
      requires Valid()
      modifies this`offset
      ensures Valid() && (served, offset) == Serve(old(Model()).content, old(offset), mode, readbytes)
    {
      if !Reads(mode) {
        return Served([], false);
      }
      var avail := length - offset;
      if avail == 0 {
        return Served([], true);
      }
      var unread := buf[offset..length];
      assert unread == buf[..length][offset..];
      var want := avail;
      if mode == ReadBytes || mode == Speculative {
        if 0 < readbytes < want {
          want := readbytes;
        }
      } else if mode == GetLine {
        var k := FirstNewline(unread);
        if k < avail {
          want := k + 1;
        }
      }
      served := Served(unread[..want], false);
      assert served.data == buf[..length][offset..offset + want];
      if mode != Speculative {
        offset := offset + want;
        served := served.(eos := offset >= length);
      }
    }
  }
}
