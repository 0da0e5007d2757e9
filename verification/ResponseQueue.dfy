/**
 The response queue as the program keeps it (h3_session.c): a singly linked list of chunks
 with head, tail and submit pointers and byte counters, changed in place under the session
 lock.  Every method is proved against the value model in `SendQueue`.
 */
module ResponseQueue {
  import opened Bytes
  import opened SendQueue

  class Chunk {
    var next: Chunk?
    const data: seq<byte>
    var acked: nat
    /** which chunk of the response this is */
    ghost const index: nat
    /** set by free(); no method may touch a chunk afterwards */
    ghost var freed: bool

    constructor (data: seq<byte>, ghost index: nat)
      ensures this.data == data && this.index == index && next == null && acked == 0 && !freed
    {
      this.data, this.index := data, index;
      next, acked, freed := null, 0, false;
    }

    ghost method Free()
      requires !freed
      modifies this`freed
      ensures freed
    {
      freed := true;
    }
  }

  /** The parts of h3_session that the producer looks at. */
  class SessionFlags {
    var aborted: bool
    var ngh3Dead: bool
    var hasNgh3: bool

    predicate Gone()
      reads this
    {
      aborted || ngh3Dead || !hasNgh3
    }

    method MayFail()
      modifies this
      ensures old(Gone()) ==> Gone()
    {
      var abort: bool, die: bool := *, *;
      aborted, ngh3Dead := aborted || abort, ngh3Dead || die;
    }
  }

  /** A zero-copy vector: `len` bytes of `chunk` from offset `off`. */
  datatype Vec = Vec(chunk: Chunk, off: nat, len: nat)

  class Response {
    const session: SessionFlags
    const limit: nat
    var head: Chunk?
    var tail: Chunk?
    var submit: Chunk?
    var submitOffset: nat
    var buffered: nat
    var length: nat
    var submitted: bool
    var complete: bool
    var cancelled: bool

    /** every chunk ever queued, in order; how many are freed; acked bytes of the next; the cursor */
    ghost var nodes: seq<Chunk>
    ghost var repr: set<Chunk>
    ghost var chunks: seq<seq<byte>>
    ghost var freed: nat
    ghost var headAcked: nat
    ghost var cursor: nat

    /** The queue this object represents. */
    ghost function Model(): Queue
      reads this`chunks, this`freed, this`headAcked, this`cursor, this`submitted, this`complete, this`cancelled
    {
      Queue(chunks, freed, headAcked, cursor, limit, submitted, complete, cancelled)
    }

    ghost predicate Stored()
      reads this`nodes, this`repr, this`chunks, this`freed, this`headAcked, repr
    {
      && |nodes| == |chunks|
      && (forall i | 0 <= i < |nodes| ::
            && nodes[i] in repr && nodes[i].index == i && nodes[i].data == chunks[i]
            && (nodes[i].freed <==> i < freed)
            && (freed < i ==> nodes[i].acked == 0))
      && (if freed < |nodes| then nodes[freed].acked == headAcked else headAcked == 0)
    }

    /** Head, links and tail run through the chunks that are not freed, in order. */
    ghost predicate Linked()
      reads this`nodes, this`repr, this`freed, this`head, this`tail, repr`next
    {
      && (forall i | 0 <= i < |nodes| :: nodes[i] in repr)
      && (forall i {:trigger nodes[i].next} | freed <= i < |nodes| - 1 :: nodes[i].next == nodes[i + 1])
      && (if freed < |nodes| then head == nodes[freed] && tail == nodes[|nodes| - 1] && tail.next == null
          else head == null && tail == null)
    }

    ghost predicate CursorAt()
      reads this`nodes, this`cursor, this`submit, this`submitOffset
    {
      submit == (if cursor < |nodes| then nodes[cursor] else null) && submitOffset == 0
    }

    /** The pointers represent the list part of the model. */
    ghost predicate List()
      reads this`nodes, this`repr, this`chunks, this`freed, this`headAcked, this`cursor
      reads this`head, this`tail, this`submit, this`submitOffset, repr
    {
      freed <= cursor <= |nodes| && Stored() && Linked() && CursorAt()
    }

    /** The counters, and the model's own invariant. */
    ghost predicate Counters()
      reads this`chunks, this`freed, this`headAcked, this`cursor, this`submitted, this`complete, this`cancelled
      reads this`buffered, this`length
    {
      Tallied(Model(), buffered, length)
    }

    ghost predicate Valid()
      reads this, repr
    {
      List() && Counters()
    }

    constructor (session: SessionFlags, limit: nat)
      requires 0 < limit
      ensures Valid() && Model() == Empty(limit) && nodes == []
      ensures this.session == session
    {
      this.session, this.limit := session, limit;
      head, tail, submit, submitOffset := null, null, null, 0;
      buffered, length := 0, 0;
      submitted, complete, cancelled := false, false, false;
      nodes, repr, chunks, freed, headAcked, cursor := [], {}, [], 0, 0, 0;
    }

    /** Link a new chunk at the tail. */
    method LinkTail(chunk: Chunk)
      requires Linked() && freed <= |nodes| && chunk.next == null && chunk !in nodes
      modifies this`head, this`tail, this`nodes, this`repr, repr`next
      ensures nodes == old(nodes) + [chunk] && repr == old(repr) + {chunk} && Linked()
    {
      if tail != null {
        tail.next := chunk;
      } else {
        head := chunk;
      }
      tail := chunk;
      nodes, repr := nodes + [chunk], repr + {chunk};
    }

    /** A new chunk behind all others. */
    method AddChunk(data: seq<byte>) returns (chunk: Chunk)
      requires freed <= |nodes| && Stored() && Linked()
      modifies this`head, this`tail, this`nodes, this`repr, this`chunks, repr`next
      ensures Stored() && Linked() && nodes == old(nodes) + [chunk] && chunks == old(chunks) + [data]
      ensures fresh(repr - old(repr))
    {
      chunk := new Chunk(data, |nodes|);
      LinkTail(chunk);
      chunks := chunks + [data];
    }

    /** Link one chunk; the cursor moves onto it when it was on nothing. */
    method LinkChunk(data: seq<byte>)
      requires List()
      modifies this`head, this`tail, this`submit, this`submitOffset, this`nodes, this`repr, this`chunks, repr`next
      ensures List() && chunks == old(chunks) + [data]
      ensures fresh(repr - old(repr))
    {
      var chunk := AddChunk(data);
      if submit == null {
        submit := chunk;
        submitOffset := 0;
      }
    }

    method PushChunk(data: seq<byte>)
      requires List()
      modifies this`head, this`tail, this`submit, this`submitOffset, this`buffered, this`length
      modifies this`nodes, this`repr, this`chunks, repr`next
      ensures List() && chunks == old(chunks) + [data]
      ensures buffered == old(buffered) + |data| && length == old(length) + |data|
      ensures fresh(repr - old(repr))
    {
      buffered := buffered + |data|;
      length := length + |data|;
      LinkChunk(data);
    }

    /** The queueing part of one round of h3_stream_response_append. */
    method Enqueue(data: seq<byte>)
      requires Valid()
      requires 0 < |data| <= STREAM_CHUNK_BYTES && |data| <= limit - buffered
      modifies this`head, this`tail, this`submit, this`submitOffset, this`buffered, this`length
      modifies this`nodes, this`repr, this`chunks, repr`next
      ensures Valid() && Model() == Push(old(Model()), data)
      ensures fresh(repr - old(repr))
    {
      PushTallied(Model(), data, buffered, length);
      PushChunk(data);
    }

    /** Take the fully acknowledged head chunk off the list and free it. */
    method DropHead()
      requires Linked() && freed < |nodes| && !nodes[freed].freed
      modifies this`head, this`tail, this`freed, head`freed
      ensures Linked() && freed == old(freed) + 1 && nodes[old(freed)].freed
    {
      var chunk := head;
      head := chunk.next;
      if head == null {
        tail := null;
      }
      chunk.Free();
      freed := freed + 1;
    }

    /** The rest of the head chunk is acknowledged: it is freed. */
    method AckWhole(consumed: nat)
      requires List() && freed < cursor && consumed <= buffered
      modifies this`head, this`tail, this`freed, this`headAcked, this`buffered, repr`acked, repr`freed
      ensures List() && freed == old(freed) + 1 && headAcked == 0 && buffered == old(buffered) - consumed
    {
      head.acked := |head.data|;
      buffered := buffered - consumed;
      DropHead();
      headAcked := 0;
    }

    /** Some more of the head chunk is acknowledged. */
    method AckPart(consumed: nat)
      requires List() && freed < cursor && consumed < |chunks[freed]| - headAcked && consumed <= buffered
      modifies this`headAcked, this`buffered, repr`acked
      ensures List() && headAcked == old(headAcked) + consumed && buffered == old(buffered) - consumed
    {
      head.acked := head.acked + consumed;
      buffered := buffered - consumed;
      headAcked := headAcked + consumed;
    }

    /** Acknowledge `consumed` bytes of the head chunk, which is freed when that is all of it. */
    method AckHead(consumed: nat)
      requires List() && freed < cursor && consumed <= buffered
      requires 0 < consumed <= |chunks[freed]| - headAcked
      modifies this`head, this`tail, this`freed, this`headAcked, this`buffered, repr`acked, repr`freed
      ensures List() && buffered == old(buffered) - consumed
      ensures Model() == AckInHead(old(Model()), consumed)
    {
      if head.acked + consumed == |head.data| {
        AckWhole(consumed);
      } else {
        AckPart(consumed);
      }
    }

    /** There are `left` bytes to acknowledge, after which the queue will be `goal`. */
    ghost predicate Acking(left: nat, goal: Queue)
      reads this`chunks, this`freed, this`headAcked, this`cursor, this`submitted, this`complete, this`cancelled
    {
      SendQueue.Valid(Model()) && left <= Offered(Model()) - Acked(Model()) && Ack(Model(), left) == goal
    }

    /** One turn of the acknowledgement loop. */
    method AckTurn(left: nat, ghost goal: Queue) returns (rest: nat)
      requires Valid() && head != null && 0 < left && Acking(left, goal)
      modifies this`head, this`tail, this`freed, this`headAcked, this`buffered, repr`acked, repr`freed
      ensures Valid() && rest < left && Acking(rest, goal)
    {
      var available := |head.data| - head.acked;
      var consumed := if left < available then left else available;
      AckTallied(Model(), left, buffered, length);
      AckRound(Model(), left);
      AckHead(consumed);
      rest := left - consumed;
    }

    /** h3_stream_response_ack_locked */
    method AckLocked(datalen: nat)
      requires Valid() && datalen <= Offered(Model()) - Acked(Model())
      modifies this`head, this`tail, this`freed, this`headAcked, this`buffered, repr`acked, repr`freed
      ensures Valid() && Model() == Ack(old(Model()), datalen)
    {
      var left := datalen;
      ghost var goal := Ack(Model(), datalen);
      while left > 0 && head != null
        invariant Valid() && Acking(left, goal)
        decreases left
      {
        left := AckTurn(left, goal);
      }
      AckAll(Model(), left);
    }

    /** h3_stream_response_cancel_locked */
    method CancelLocked()
      requires Valid()
      modifies this`cancelled, this`complete
      ensures Valid() && Model() == Cancel(old(Model()))
    {
      cancelled := true;
      complete := true;
    }

    /** h3_stream_response_complete */
    method MarkComplete()
      requires Valid()
      modifies this`complete
      ensures Valid() && Model() == old(Model()).(complete := true)
    {
      complete := true;
    }

    /** Walk the list and free every chunk, reading each link before its chunk goes. */
    method FreeAll()
      requires List()
      modifies this`freed, this`headAcked, repr`freed
      ensures Stored() && freed == |nodes| && headAcked == 0
    {
      var chunk := head;
      ghost var i := freed;
      while chunk != null
        invariant freed <= i <= |nodes|
        invariant chunk == if i < |nodes| then nodes[i] else null
        invariant forall k | 0 <= k < |nodes| :: nodes[k].freed <==> k < i
        decreases |nodes| - i
      {
        var next := chunk.next;
        chunk.Free();
        chunk := next;
        i := i + 1;
      }
      freed, headAcked := |nodes|, 0;
    }

    /** Free every chunk and leave the list empty. */
    method Unlink()
      requires List()
      modifies this`head, this`tail, this`submit, this`submitOffset, this`buffered
      modifies this`freed, this`headAcked, this`cursor, repr`freed
      ensures List() && freed == cursor == |nodes| && headAcked == 0 && buffered == 0
    {
      FreeAll();
      head, tail, submit := null, null, null;
      submitOffset, buffered := 0, 0;
      cursor := |nodes|;
    }

    /** h3_stream_response_cleanup_locked: every chunk still linked is freed, once. */
    method CleanupLocked()
      requires Valid()
      modifies this`head, this`tail, this`submit, this`submitOffset, this`buffered
      modifies this`freed, this`headAcked, this`cursor, repr`freed
      ensures Valid() && Model() == Cleanup(old(Model()))
    {
      CleanupTallied(Model(), buffered, length);
      Unlink();
    }

    /** Hand out whole chunks from the cursor on, at most `veccnt` of them. */
    method TakeChunks(veccnt: nat) returns (vec: seq<Vec>)
      requires List()
      modifies this`submit, this`submitOffset, this`cursor
      ensures List() && cursor == old(cursor) + |vec|
      ensures |vec| == Take(old(Model()), veccnt)
      ensures PointInto(nodes, vec, Span(chunks, old(cursor), 0, cursor))
    {
      vec := [];
      while submit != null && |vec| < veccnt
        invariant CursorAt() && cursor == old(cursor) + |vec| <= |nodes| && |vec| <= veccnt
        invariant forall i | 0 <= i < |vec| :: vec[i] == Whole(nodes[old(cursor) + i])
        decreases |nodes| - cursor
      {
        var chunk := submit;
        var remaining := |chunk.data| - submitOffset;
        vec := vec + [Vec(chunk, submitOffset, remaining)];
        submit := chunk.next;
        submitOffset := 0;
        cursor := cursor + 1;
      }
      SpanAt(chunks, old(cursor), cursor);
    }

    /** The vectors of a response that is not cancelled. */
    method TakeVectors(veccnt: nat) returns (vec: seq<Vec>)
      requires Valid() && 0 < veccnt && !cancelled
      modifies this`submit, this`submitOffset, this`cursor
      ensures Valid() && Model() == Read(old(Model()), veccnt).0
      ensures PointInto(nodes, vec, Read(old(Model()), veccnt).1) && |vec| == Take(old(Model()), veccnt)
    {
      ReadTallied(Model(), veccnt, buffered, length);
      vec := TakeChunks(veccnt);
    }

    /** h3_session_read_data, called with room for at least one vector. */
    method ReadData(veccnt: nat) returns (vec: seq<Vec>, flag: Flag)
      requires Valid() && 0 < veccnt
      modifies this`submit, this`submitOffset, this`cursor
      ensures Valid() && Model() == Read(old(Model()), veccnt).0 && flag == Read(old(Model()), veccnt).2
      ensures PointInto(nodes, vec, Read(old(Model()), veccnt).1)
    {
      if cancelled {
        return [], Eof;
      }
      vec := TakeVectors(veccnt);
      if |vec| > 0 {
        flag := if submit == null && complete then Eof else Data;
      } else {
        flag := if complete then Eof else WouldBlock;
      }
    }

    /** How many bytes have been offered and not acknowledged: the most nghttp3 may report. */
    method Outstanding() returns (n: nat)
      requires Valid()
      ensures n == Offered(Model()) - Acked(Model())
    {
      n := 0;
      var chunk := head;
      ghost var i := freed;
      while chunk != submit
        invariant freed <= i <= cursor
        invariant chunk == if i < |nodes| then nodes[i] else null
        invariant n == if i == freed then 0 else Start(chunks, i) - Acked(Model())
        decreases cursor - i
      {
        n := n + |chunk.data| - chunk.acked;
        chunk := chunk.next;
        i := i + 1;
      }
    }

    /** Some of what was offered is acknowledged. */
    method AckSome()
      requires Valid()
      modifies this`head, this`tail, this`freed, this`headAcked, this`buffered, repr`acked, repr`freed
      ensures Valid()
    {
      var most := Outstanding();
      var choice: int := *;
      var n := AtMost(choice, most);
      AckLocked(n);
    }

    /** Some chunks are offered. */
    method OfferSome()
      requires Valid()
      modifies this`submit, this`submitOffset, this`cursor
      ensures Valid()
    {
      var choice: int := *;
      var n := AtMost(choice, 15);
      var _, _ := ReadData(1 + n);
    }

    /** The session may come to its end. */
    method LoseSession()
      requires Valid()
      modifies session
      ensures Valid() && (old(session.Gone()) ==> session.Gone())
    {
      session.MayFail();
    }

    /** One thing the event thread may do to this queue while the producer does not hold the lock. */
    method Disturb()
      requires Valid()
      modifies this`head, this`tail, this`freed, this`headAcked, this`buffered, repr`acked, repr`freed
      modifies this`submit, this`submitOffset, this`cursor, this`cancelled, this`complete
      ensures Valid() && (old(cancelled) ==> cancelled)
    {
      var choice: int := *;
      var kind := AtMost(choice, 2);
      if kind == 0 {
        AckSome();
      } else if kind == 1 {
        OfferSome();
      } else {
        CancelLocked();
      }
    }

    /** The same, and the session may come to its end. */
    method Meddle()
      requires Valid()
      modifies this`head, this`tail, this`freed, this`headAcked, this`buffered, repr`acked, repr`freed
      modifies this`submit, this`submitOffset, this`cursor, this`cancelled, this`complete, session
      ensures Valid() && (old(cancelled) ==> cancelled) && (old(session.Gone()) ==> session.Gone())
    {
      Disturb();
      LoseSession();
    }

    /** Any number of those. */
    method Interfere()
      requires Valid()
      modifies this`head, this`tail, this`freed, this`headAcked, this`buffered, repr`acked, repr`freed
      modifies this`submit, this`submitOffset, this`cursor, this`cancelled, this`complete, session
      ensures Valid() && (old(cancelled) ==> cancelled) && (old(session.Gone()) ==> session.Gone())
    {
      var steps: int := *;
      while steps > 0
        invariant Valid() && (old(cancelled) ==> cancelled) && (old(session.Gone()) ==> session.Gone())
      {
        Meddle();
        steps := steps - 1;
      }
    }

    /** Take the lock, then append's inner loop: wait until there is room or no point in waiting. */
    method WaitForRoom() returns (status: Status)
      requires Valid()
      modifies this`head, this`tail, this`freed, this`headAcked, this`buffered, repr`acked, repr`freed
      modifies this`submit, this`submitOffset, this`cursor, this`cancelled, this`complete, session
      ensures Valid() && (status == Success || status == WaitFailed || status == StillWaiting)
      ensures status == Success ==> buffered < limit || cancelled || session.Gone()
    {
      Interfere();
      var rounds: int := *;
      while buffered >= limit && !cancelled && !session.aborted && !session.ngh3Dead
        invariant Valid()
        decreases rounds
      {
        if rounds <= 0 {
          return StillWaiting;
        }
        rounds := rounds - 1;
        Interfere();
        var failed: bool := *;
        if failed {
          return WaitFailed;
        }
      }
      status := Success;
    }

    /** One locked round of append once there is room: at least one byte is queued, or the response is cancelled. */
    method QueueRound(data: seq<byte>) returns (status: Status, n: nat)
      requires Valid() && data != [] && buffered < limit
      modifies this, repr`next
      ensures Valid() && n <= |data| && (status == Success || status == General || status == NoMemory)
      ensures Flatten(chunks) == old(Flatten(chunks)) + data[..n] && fresh(repr - old(repr))
      ensures if status == Success then 0 < n else n == 0 && cancelled
    {
      var room := limit - buffered;
      n := if |data| > room then room else |data|;
      if n > STREAM_CHUNK_BYTES {
        n := STREAM_CHUNK_BYTES;
      }
      if n == 0 || length > SIZE_MAX - n {
        CancelLocked();
        return General, 0;
      }
      var gotMemory: bool := *;
      if !gotMemory {
        CancelLocked();
        return NoMemory, 0;
      }
      FlattenSnoc(chunks, data[..n]);
      Enqueue(data[..n]);
      status := Success;
    }

    /** Wait for room, and see whether there is still a point in queueing. */
    method Prepare() returns (status: Status)
      requires Valid()
      modifies this`head, this`tail, this`freed, this`headAcked, this`buffered, repr`acked, repr`freed
      modifies this`submit, this`submitOffset, this`cursor, this`cancelled, this`complete, session
      ensures Valid() && (status == Success || status == WaitFailed || status == StillWaiting || status == Aborted)
      ensures status == Success ==> buffered < limit
      ensures status == Aborted ==> cancelled || session.Gone()
    {
      status := WaitForRoom();
      if status == Success && (cancelled || session.Gone()) {
        status := Aborted;
      }
    }

    /** Queue some bytes, if the wait before that was a success. */
    method QueueAfter(ready: Status, data: seq<byte>) returns (status: Status, n: nat)
      requires Valid() && data != [] && (ready == Success ==> buffered < limit)
      modifies this, repr`next
      ensures Valid() && n <= |data| && fresh(repr - old(repr))
      ensures Flatten(chunks) == old(Flatten(chunks)) + data[..n]
      ensures if status == Success then 0 < n else n == 0
      ensures if ready == Success then status == Success || ((status == General || status == NoMemory) && cancelled)
              else status == ready && cancelled == old(cancelled)
    {
      if ready == Success {
        status, n := QueueRound(data);
      } else {
        status, n := ready, 0;
      }
    }

    /** One turn of append's outer loop: wait, then queue some bytes. */
    method AppendTurn(data: seq<byte>) returns (status: Status, n: nat)
      requires Valid() && data != []
      modifies this, repr, session
      ensures Valid() && n <= |data| && fresh(repr - old(repr))
      ensures Flatten(chunks) == old(Flatten(chunks)) + data[..n]
      ensures if status == Success then 0 < n else n == 0
      ensures status == Aborted ==> cancelled || session.Gone()
      ensures status == General || status == NoMemory ==> cancelled
      ensures status != ReadFailed && status != NotStarted
    {
      status := Prepare();
      status, n := QueueAfter(status, data);
    }

    /**
     h3_stream_response_append.  Whatever the event thread does in between, the bytes queued
     are a prefix of `data`, right after everything queued before, and all of it on success.
     */
    method Append(data: seq<byte>) returns (status: Status, ghost queued: nat)
      requires Valid()
      modifies this, repr, session
      ensures Valid() && fresh(repr - old(repr)) && queued <= |data|
      ensures Flatten(chunks) == old(Flatten(chunks)) + data[..queued]
      ensures status == Success <==> queued == |data|
      ensures status == Aborted ==> cancelled || session.Gone()
      ensures status == General || status == NoMemory ==> cancelled
      ensures status != ReadFailed && status != NotStarted
    {
      var offset := 0;
      status := Success;
      while offset < |data|
        invariant Valid() && 0 <= offset <= |data|
        invariant fresh(repr - old(repr))
        invariant Flatten(chunks) == old(Flatten(chunks)) + data[..offset]
        invariant status == Success
        decreases |data| - offset
      {
        var n: nat;
        status, n := AppendTurn(data[offset..]);
        Contiguous(old(Flatten(chunks)), data, offset, n);
        if status != Success {
          return status, offset;
        }
        offset := offset + n;
      }
      assert data[..offset] == data;
      queued := offset;
    }
  }

  function Whole(c: Chunk): (v: Vec)
  {
    Vec(c, 0, |c.data|)
  }

  /** The vectors `vec` are the slices `slices` of the chunks `nodes`. */
  ghost predicate PointInto(nodes: seq<Chunk>, vec: seq<Vec>, slices: seq<Slice>)
  {
    && |vec| == |slices|
    && forall i | 0 <= i < |vec| ::
         slices[i].chunk < |nodes| && vec[i] == Vec(nodes[slices[i].chunk], slices[i].off, slices[i].len)
  }
}
