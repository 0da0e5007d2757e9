/**
 The service loop of h3_event_thread (h3_threads.c) over the sessions themselves: each active
 connection has its session, which is serviced and, once it is over, destroyed and taken out
 of the table.
 */
module EventLoop {
  import opened Bytes
  import opened SessionModel
  import opened SessionSteps
  import opened EventThread
  import Connections

  /** A session that can be serviced. */
  ghost predicate Serviceable(s: Session)
    reads s
  {
    s.Valid() && ShutdownOk(s.calls, s.goawaySent, s.aborted)
  }

  /** A session that has been destroyed; no task is left that could touch it. */
  ghost predicate Over(s: Session)
    reads s
  {
    s.destroyed && s.aborted && s.pendingFree == [] && AllGone(s.tasks)
  }

  lemma {:induction false} CountHas(s: seq<nat>, i: nat)
    requires i < |s|
    ensures Connections.Count(s, s[i]) >= 1
    decreases |s|
  {
    if i < |s| - 1 {
      CountHas(s[..|s| - 1], i);
    }
  }

  lemma {:induction false} OnceIsDistinct(s: seq<nat>)
    requires forall c :: Connections.Count(s, c) <= 1
    ensures Distinct(s)
    decreases |s|
  {
    if s != [] {
      var n := |s| - 1;
      assert forall c :: Connections.Count(s[..n], c) <= Connections.Count(s, c);
      OnceIsDistinct(s[..n]);
      forall k | 0 <= k < n
        ensures s[k] != s[n]
      {
        CountHas(s[..n], k);
      }
      assert forall k, l | 0 <= k < l < n :: s[..n][k] == s[k] && s[..n][l] == s[l];
    }
  }

  /** No connection is active twice. */
  lemma ActiveDistinct(io: Connections.Io)
    requires io.Valid()
    ensures Distinct(io.active)
  {
    OnceIsDistinct(io.active);
  }

  /** Taking out element i of a table without repetitions takes out that element and no other. */
  lemma SwapRemoveHas(s: seq<nat>, i: nat)
    requires i < |s| && Distinct(s)
    ensures forall c :: c in Connections.SwapRemove(s, i) <==> c in s && c != s[i]
  {
    var r := Connections.SwapRemove(s, i);
    forall c | c in s && c != s[i]
      ensures c in r
    {
      var k :| 0 <= k < |s| && s[k] == c;
      assert if k < |s| - 1 then r[k] == c else r[i] == c;
    }
  }

  class Loop {
    const io: Connections.Io
    /** the session of each connection that became active */
    var sessions: map<nat, Session>

    constructor (io: Connections.Io)
      requires io.Valid() && io.active == []
      ensures this.io == io && Alive()
    {
      this.io, sessions := io, map[];
    }

    ghost function Objects(): (r: set<Session>)
      reads this`sessions
    {
      set c | c in sessions :: sessions[c]
    }

    /** The table is in order, and the first n active connections have a session of their own that can be serviced. */
    ghost predicate AliveTo(n: nat)
      reads this, io, Objects()
    {
      && io.Valid() && n <= |io.active|
      && (forall c, d | c in sessions && d in sessions && c != d :: sessions[c] != sessions[d])
      && (forall k | 0 <= k < n :: io.active[k] in sessions && Serviceable(sessions[io.active[k]]))
    }

    ghost predicate Alive()
      reads this, io, Objects()
    {
      AliveTo(|io.active|)
    }

    /** The end of spawn_serviced_session: the connection that became active last gets its session. */
    method Attach(maxStreamErrors: nat, bufferSize: nat)
      requires io.active != [] && AliveTo(|io.active| - 1) && 0 < bufferSize
      modifies this`sessions
      ensures Alive()
    {
      ActiveDistinct(io);
      var session := new Session(maxStreamErrors, bufferSize);
      sessions := sessions[io.active[|io.active| - 1] := session];
    }

    /** Of the connections `before`, each is still active or its session is over. */
    ghost predicate Settled(before: seq<nat>)
      reads this, io, Objects()
    {
      forall c | c in before :: c in sessions && (c in io.active || Over(sessions[c]))
    }

    /** The turn of the session at position i. */
    method ServiceOne(i: nat, draining: bool, running: bool, now: nat, later: nat) returns (gone: bool)
      requires Alive() && i < |io.active| && now <= later
      modifies io`active, io`activeCount, io`freed, io`removed, sessions[io.active[i]]
      ensures Alive()
      ensures if gone then io.active == Connections.SwapRemove(old(io.active), i) && Over(sessions[old(io.active)[i]])
              else io.active == old(io.active)
    {
      ActiveDistinct(io);
      SwapRemoveHas(io.active, i);
      var c := io.active[i];
      ghost var run;
      gone, run := sessions[c].ServiceTurn(draining, running, now, later);
      if gone {
        io.DestroySession(i);
      }
    }

    /** The same, seen from the connections that were active before. */
    method ServiceNext(i: nat, draining: bool, running: bool, now: nat, later: nat, ghost before: seq<nat>)
      returns (gone: bool)
      requires Alive() && Settled(before) && i < |io.active| && now <= later
      modifies io`active, io`activeCount, io`freed, io`removed, Objects()
      ensures Alive() && Settled(before)
      ensures io.active == if gone then Connections.SwapRemove(old(io.active), i) else old(io.active)
    {
      ActiveDistinct(io);
      SwapRemoveHas(io.active, i);
      gone := ServiceOne(i, draining, running, now, later);
    }

    /**
     Every session present at the start is serviced once.  Those that leave the table are
     destroyed and have no task left; the others can be serviced again.
     */
    method ServiceSessions(draining: bool, running: bool, now: nat, later: nat) returns (serviced: seq<nat>)
      requires Alive() && now <= later
      modifies io`active, io`activeCount, io`freed, io`removed, Objects()
      ensures Alive() && Settled(old(io.active)) && multiset(serviced) == multiset(old(io.active))
    {
      serviced := [];
      var i := 0;
      assert io.active[0..] == io.active;
      while i < |io.active|
        invariant Alive() && Settled(old(io.active)) && Connections.Swept(old(io.active), io.active, serviced, i)
        decreases |io.active| - i
      {
        Connections.SweptNext(old(io.active), io.active, serviced, i);
        serviced := serviced + [io.active[i]];
        var gone := ServiceNext(i, draining, running, now, later, old(io.active));
        if !gone {
          i := i + 1;
        }
      }
      assert io.active[i..] == [];
    }
  }
}
