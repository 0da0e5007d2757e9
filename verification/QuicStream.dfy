/** The sending half of one QUIC stream and the vectored write over it (quic/h3q_stream.c). */
module QuicStream {
  import opened Bytes

  datatype WriteResult = WriteResult(accepted: nat, blocked: bool, broken: bool)

  class Handle {
    /** every byte the transport has accepted, and whether FIN was queued after them */
    var sent: seq<byte>
    var concluded: bool
    /** a broken write side stays broken */
    var failed: bool

    /** A handle as an earlier write left it. */
    constructor Resume(sent: seq<byte>, concluded: bool, failed: bool)
      ensures this.sent == sent && this.concluded == concluded && this.failed == failed
    {
      this.sent, this.concluded, this.failed := sent, concluded, failed;
    }

    /**
     SSL_write_ex, as the environment may answer: some of the bytes, or none because the send
     buffer is full, or none because the write side is broken.
     */
    method SslWrite(data: seq<byte>) returns (w: nat, ok: bool, wantWrite: bool)
      modifies this`sent, this`failed
      ensures w <= |data| && sent == old(sent) + data[..w]
      ensures old(failed) ==> !ok
      ensures !ok ==> w == 0 && (failed <==> !wantWrite)
      ensures ok ==> !failed
      ensures old(failed) ==> failed
    {
      var fail: bool, k: int := *, *;
      if failed || fail {
        failed := true;
        w, ok, wantWrite := 0, false, false;
      } else if k < 0 {
        w, ok, wantWrite := 0, false, true;
      } else {
        w := if k <= |data| then k else |data|;
        ok, wantWrite := true, false;
        sent := sent + data[..w];
      }
    }

    /** The write loop: vector by vector, until one is not taken whole. `k` is that vector. */
    method WriteVectors(vec: seq<seq<byte>>) returns (res: WriteResult, ghost k: nat)
      modifies this`sent, this`failed
      ensures !(res.blocked && res.broken) && (failed <==> old(failed) || res.broken)
      ensures if k == |vec| then !res.blocked && !res.broken && res.accepted == Start(vec, k)
              else k < |vec| && (res.blocked || res.broken)
                   && Start(vec, k) <= res.accepted && res.accepted - Start(vec, k) <= |vec[k]|
                   && (vec[k] != [] ==> res.accepted - Start(vec, k) < |vec[k]|)
      ensures res.accepted <= |Flatten(vec)| && sent == old(sent) + Flatten(vec)[..res.accepted]
      ensures old(failed) && vec != [] ==> res == WriteResult(0, false, true)
    {
      var accepted, n := 0, 0;
      while n < |vec|
        invariant 0 <= n <= |vec| && 0 <= accepted == Start(vec, n) <= |Flatten(vec)|
        invariant sent == old(sent) + Flatten(vec)[..accepted]
        invariant failed == old(failed) && (failed ==> n == 0)
      {
        PieceAt(vec, n);
        var w, ok, wantWrite := SslWrite(vec[n]);
        if !ok {
          return WriteResult(accepted, wantWrite, !wantWrite), n;
        }
        Extend(Flatten(vec), Start(vec, n), vec[n], w);
        accepted := accepted + w;
        if w < |vec[n]| {
          return WriteResult(accepted, true, false), n;
        }
        n := n + 1;
      }
      res, k := WriteResult(accepted, false, false), n;
    }

    /**
     h3q_stream_write.  The bytes accepted are the first `accepted` bytes of the vectors taken
     together; FIN follows them exactly when all of them went and FIN was asked for.
     */
    method Write(vec: seq<seq<byte>>, fin: bool) returns (res: WriteResult)
      modifies this`sent, this`concluded, this`failed
      ensures res.accepted <= |Flatten(vec)|
      ensures sent == old(sent) + Flatten(vec)[..res.accepted]
      ensures !(res.blocked && res.broken) && (failed <==> old(failed) || res.broken)
      ensures !res.blocked && !res.broken ==> res.accepted == |Flatten(vec)|
      ensures (forall i | 0 <= i < |vec| :: vec[i] != []) && (res.blocked || res.broken)
              ==> res.accepted < |Flatten(vec)|
      ensures concluded <==> old(concluded) || (fin && !res.blocked && !res.broken && !failed)
      ensures old(failed) && vec != [] ==> res == WriteResult(0, false, true)
    {
      var expected := 0;
      for i := 0 to |vec|
        invariant expected == Start(vec, i)
      {
        expected := expected + |vec[i]|;
      }
      StartTotal(vec);
      ghost var k;
      res, k := WriteVectors(vec);
      if k < |vec| {
        StartMonotone(vec, k + 1, |vec|);
      }
      if fin && !res.blocked && !res.broken && res.accepted == expected {
        concluded := concluded || !failed;
      }
    }
  }

  lemma Extend(all: seq<byte>, s: nat, piece: seq<byte>, w: nat)
    requires s + |piece| <= |all| && all[s..s + |piece|] == piece && w <= |piece|
    ensures all[..s] + piece[..w] == all[..s + w]
  {
    assert piece[..w] == all[s..s + w] by {
      SliceOfSlice(all, s, s + |piece|, 0, w);
    }
  }
}
