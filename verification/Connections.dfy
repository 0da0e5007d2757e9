/**
 The connection table of one child (h3_io.c, h3_threads.c): accepted connections wait for their
 handshake, become serviced sessions, and are freed.  Both tables are arrays from which an
 element is removed by moving the last one into its place.
 */
module Connections {
  datatype Pending = Pending(conn: nat, acceptedAt: int)

  /** How the transport reports a connection that is still shaking hands. */
  datatype Handshake = Closed | Done | Waiting

  function Conns(pending: seq<Pending>): (r: seq<nat>)
    ensures |r| == |pending| && forall i | 0 <= i < |r| :: r[i] == pending[i].conn
  {
    seq(|pending|, i requires 0 <= i < |pending| => pending[i].conn)
  }

  /** Element i goes: the last one takes its place. */
  function SwapRemove<T>(s: seq<T>, i: nat): (r: seq<T>)
    requires i < |s|
    ensures |r| == |s| - 1
  {
    s[i := s[|s| - 1]][..|s| - 1]
  }

  /** Exactly one occurrence of the element is lost. */
  lemma SwapRemoveLoses<T>(s: seq<T>, i: nat)
    requires i < |s|
    ensures multiset(SwapRemove(s, i)) + multiset{s[i]} == multiset(s)
  {
    var n := |s| - 1;
    var swapped := s[i := s[n]];
    assert swapped == swapped[..n] + [s[n]];
    assert multiset(swapped) == multiset(SwapRemove(s, i)) + multiset{s[n]};
    assert multiset(swapped) == multiset(s) - multiset{s[i]} + multiset{s[n]};
  }

  lemma ConnsSwap(pending: seq<Pending>, i: nat)
    requires i < |pending|
    ensures Conns(SwapRemove(pending, i)) == SwapRemove(Conns(pending), i)
  {
  }

  lemma ConnsSnoc(pending: seq<Pending>, p: Pending)
    ensures Conns(pending + [p]) == Conns(pending) + [p.conn]
  {
  }

  /** From position i on, the elements before the swap are the removed one and those after it. */
  lemma SwapRemoveRest<T>(s: seq<T>, i: nat)
    requires i < |s|
    ensures multiset(SwapRemove(s, i)[i..]) + multiset{s[i]} == multiset(s[i..])
    ensures SwapRemove(s, i)[..i] == s[..i]
  {
    SwapRemoveLoses(s[i..], 0);
    assert SwapRemove(s, i)[i..] == SwapRemove(s[i..], 0);
  }

  /** How often `c` occurs. */
  function Count(s: seq<nat>, c: nat): (n: nat)
  {
    if s == [] then 0 else Count(s[..|s| - 1], c) + if s[|s| - 1] == c then 1 else 0
  }

  lemma {:induction false} CountSnoc(s: seq<nat>, x: nat, c: nat)
    ensures Count(s + [x], c) == Count(s, c) + if x == c then 1 else 0
  {
    assert (s + [x])[..|s|] == s;
  }

  lemma {:induction false} CountIsMultiplicity(s: seq<nat>, c: nat)
    ensures Count(s, c) == multiset(s)[c]
    decreases |s|
  {
    if s != [] {
      var n := |s| - 1;
      CountIsMultiplicity(s[..n], c);
      assert s == s[..n] + [s[n]];
    }
  }

  lemma {:induction false} CountSwapRemove(s: seq<nat>, i: nat, c: nat)
    requires i < |s|
    ensures Count(SwapRemove(s, i), c) + (if s[i] == c then 1 else 0) == Count(s, c)
  {
    SwapRemoveLoses(s, i);
    CountIsMultiplicity(s, c);
    CountIsMultiplicity(SwapRemove(s, i), c);
  }

  /** The first n connections are pending, active or freed, each in one place and there once. */
  ghost predicate Kept(pending: seq<nat>, active: seq<nat>, freed: seq<nat>, n: nat)
  {
    forall c: nat :: Count(pending, c) + Count(active, c) + Count(freed, c) == if c < n then 1 else 0
  }

  /** When no connection is pending or active, every accepted one has been freed, each once. */
  lemma {:induction false} AllFreed(freed: seq<nat>, n: nat)
    requires Kept([], [], freed, n)
    ensures |freed| == n && forall c | 0 <= c < n :: Count(freed, c) == 1
  {
    forall c: nat
      ensures Count(freed, c) == if c < n then 1 else 0
    {
      assert Count([], c) + Count([], c) + Count(freed, c) == if c < n then 1 else 0;
    }
    EachOnce(freed, n);
  }

  /** n numbers, each of the first n once. */
  lemma {:induction false} EachOnce(s: seq<nat>, n: nat)
    requires forall c: nat :: Count(s, c) == if c < n then 1 else 0
    ensures |s| == n
  {
    var numbers := seq(n, i => i);
    forall c: nat
      ensures multiset(s)[c] == multiset(numbers)[c]
    {
      CountIsMultiplicity(s, c);
      NumbersOnce(n, c);
    }
    assert multiset(s) == multiset(numbers);
    assert |multiset(s)| == |multiset(numbers)|;
  }

  lemma {:induction false} NumbersOnce(n: nat, c: nat)
    ensures multiset(seq(n, i => i))[c] == if c < n then 1 else 0
    decreases n
  {
    if n > 0 {
      NumbersOnce(n - 1, c);
      assert seq(n, i => i) == seq(n - 1, i => i) + [n - 1];
    }
  }

  /** A new connection goes to the pending table or is freed at once. */
  lemma {:induction false} KeptAccepted(pending: seq<nat>, active: seq<nat>, freed: seq<nat>, n: nat)
    requires Kept(pending, active, freed, n)
    ensures Kept(pending + [n], active, freed, n + 1) && Kept(pending, active, freed + [n], n + 1)
  {
    forall c: nat
      ensures Count(pending + [n], c) == Count(pending, c) + if n == c then 1 else 0
      ensures Count(freed + [n], c) == Count(freed, c) + if n == c then 1 else 0
    {
      CountSnoc(pending, n, c);
      CountSnoc(freed, n, c);
    }
  }

  /** A pending connection is freed, or moves to the active table. */
  lemma {:induction false} KeptPending(pending: seq<nat>, active: seq<nat>, freed: seq<nat>, n: nat, i: nat)
    requires Kept(pending, active, freed, n) && i < |pending|
    ensures Kept(SwapRemove(pending, i), active, freed + [pending[i]], n)
    ensures Kept(SwapRemove(pending, i), active + [pending[i]], freed, n)
  {
    forall c: nat
      ensures Count(SwapRemove(pending, i), c) + (if pending[i] == c then 1 else 0) == Count(pending, c)
      ensures Count(freed + [pending[i]], c) == Count(freed, c) + if pending[i] == c then 1 else 0
      ensures Count(active + [pending[i]], c) == Count(active, c) + if pending[i] == c then 1 else 0
    {
      CountSwapRemove(pending, i, c);
      CountSnoc(freed, pending[i], c);
      CountSnoc(active, pending[i], c);
    }
  }

  /** An active connection is freed. */
  lemma {:induction false} KeptActive(pending: seq<nat>, active: seq<nat>, freed: seq<nat>, n: nat, i: nat)
    requires Kept(pending, active, freed, n) && i < |active|
    ensures Kept(pending, SwapRemove(active, i), freed + [active[i]], n)
  {
    forall c: nat
      ensures Count(SwapRemove(active, i), c) + (if active[i] == c then 1 else 0) == Count(active, c)
      ensures Count(freed + [active[i]], c) == Count(freed, c) + if active[i] == c then 1 else 0
    {
      CountSwapRemove(active, i, c);
      CountSnoc(freed, active[i], c);
    }
  }

  /** The transport's answers during one pass over the pending handshakes. */
  datatype Answers = Answers(now: int, timeout: int, status: nat -> Handshake, spawns: nat -> bool)

  predicate TimedOut(a: Answers, p: Pending)
  {
    a.now - p.acceptedAt >= a.timeout
  }

  predicate Stays(a: Answers, p: Pending)
  {
    !TimedOut(a, p) && a.status(p.conn) == Waiting
  }

  predicate Becomes(a: Answers, p: Pending)
  {
    !TimedOut(a, p) && a.status(p.conn) == Done && a.spawns(p.conn)
  }

  /** Where each handshake pending before the pass is after it. */
  ghost predicate Sorted(a: Answers, before: seq<Pending>, pending: seq<Pending>, active: seq<nat>, freed: seq<nat>)
  {
    forall p | p in before ::
      p in pending || (!Stays(a, p) && if Becomes(a, p) then p.conn in active else p.conn in freed)
  }

  ghost predicate FirstStay(a: Answers, before: seq<Pending>, pending: seq<Pending>, i: nat)
  {
    && i <= |pending| && (forall k | 0 <= k < i :: Stays(a, pending[k]))
    && forall p | p in pending :: p in before
  }

  lemma SortedNext(a: Answers, before: seq<Pending>, pending: seq<Pending>, active: seq<nat>, freed: seq<nat>, i: nat,
                   active': seq<nat>, freed': seq<nat>)
    requires Sorted(a, before, pending, active, freed) && FirstStay(a, before, pending, i)
    requires i < |pending| && !Stays(a, pending[i]) && active <= active' && freed <= freed'
    requires if Becomes(a, pending[i]) then pending[i].conn in active' else pending[i].conn in freed'
    ensures Sorted(a, before, SwapRemove(pending, i), active', freed')
    ensures FirstStay(a, before, SwapRemove(pending, i), i)
  {
    var after := SwapRemove(pending, i);
    forall p | p in pending
      ensures p == pending[i] || p in after
    {
      var k :| 0 <= k < |pending| && pending[k] == p;
      if k != i {
        assert after[if k < |pending| - 1 then k else i] == p;
      }
    }
    forall p | p in after
      ensures p in before
    {
      var k :| 0 <= k < |after| && after[k] == p;
      assert p == pending[if k == i then |pending| - 1 else k];
    }
  }

  /** Serviced and not yet serviced sessions together are those present at the start. */
  ghost predicate Swept(before: seq<nat>, active: seq<nat>, serviced: seq<nat>, i: nat)
  {
    i <= |active| && multiset(serviced) + multiset(active[i..]) == multiset(before)
  }

  lemma SweptNext(before: seq<nat>, active: seq<nat>, serviced: seq<nat>, i: nat)
    requires Swept(before, active, serviced, i) && i < |active|
    ensures Swept(before, active, serviced + [active[i]], i + 1)
    ensures Swept(before, SwapRemove(active, i), serviced + [active[i]], i) && SwapRemove(active, i)[..i] == active[..i]
  {
    SwapRemoveRest(active, i);
    assert active[i..] == [active[i]] + active[i + 1..];
  }

  /** What one turn of the event loop meets. */
  datatype Turn = Turn(running: bool, draining: bool, arrivals: seq<bool>, answers: Answers, ends: nat -> bool)

  class Io {
    const maxConnections: nat
    /** the MPM's connection hooks are both there or both missing */
    const hooks: bool
    var pending: seq<Pending>
    var active: seq<nat>
    var activeCount: int
    /** calls of note_conn_added and note_conn_removed */
    var added: int
    var removed: int
    /** connections are numbered as the listener hands them over */
    var accepted: nat
    var freed: seq<nat>

    /** Every accepted connection is in exactly one place, and freed at most once. */
    ghost predicate Conserved()
      reads this`pending, this`active, this`freed, this`accepted
    {
      Kept(Conns(pending), active, freed, accepted)
    }

    ghost predicate Balanced()
      reads this`pending, this`active, this`activeCount, this`added, this`removed
    {
      && activeCount == |active|
      && added - removed == if hooks then |pending| + |active| else 0
    }

    ghost predicate Valid()
      reads this
    {
      Conserved() && Balanced() && |pending| + |active| <= maxConnections
    }

    constructor (maxConnections: nat, hooks: bool)
      ensures Valid() && pending == [] && active == [] && freed == [] && accepted == 0
      ensures this.maxConnections == maxConnections && this.hooks == hooks
    {
      this.maxConnections, this.hooks := maxConnections, hooks;
      pending, active, freed, activeCount, added, removed, accepted := [], [], [], 0, 0, 0, 0;
    }

    /** h3_io_at_connection_limit */
    predicate AtLimit()
      reads this`pending, this`active
    {
      |active| + |pending| >= maxConnections
    }

    /** prepare_accepted_connection, once the connection is prepared */
    method AddPending(conn: nat, now: int)
      modifies this`pending, this`added
      ensures pending == old(pending) + [Pending(conn, now)]
      ensures added == old(added) + if hooks then 1 else 0
    {
      pending := pending + [Pending(conn, now)];
      if hooks {
        added := added + 1;
      }
    }

    /** The accept loop's work on one new connection. */
    method Accept(prepares: bool, now: int)
      requires Valid()
      modifies this`pending, this`added, this`accepted, this`freed
      ensures Valid() && accepted == old(accepted) + 1
      ensures if !old(AtLimit()) && prepares
              then pending == old(pending) + [Pending(old(accepted), now)] && freed == old(freed)
              else pending == old(pending) && freed == old(freed) + [old(accepted)]
    {
      KeptAccepted(Conns(pending), active, freed, accepted);
      ConnsSnoc(pending, Pending(accepted, now));
      if AtLimit() || !prepares {
        freed := freed + [accepted];
      } else {
        AddPending(accepted, now);
      }
      accepted := accepted + 1;
    }

    /** remove_pending_handshake */
    method RemovePending(index: nat, freeConn: bool)
      requires index < |pending|
      modifies this`pending, this`freed, this`removed
      ensures pending == SwapRemove(old(pending), index)
      ensures freed == if freeConn then old(freed) + [old(pending)[index].conn] else old(freed)
      ensures removed == old(removed) + if hooks then 1 else 0
    {
      if freeConn {
        freed := freed + [pending[index].conn];
      }
      if hooks {
        removed := removed + 1;
      }
      var last := |pending| - 1;
      if index < last {
        pending := pending[index := pending[last]];
      }
      pending := pending[..last];
    }

    /** spawn_serviced_session: the session joins the table, or on any failure its connection is freed. */
    method Spawn(conn: nat, spawns: bool)
      modifies this`active, this`activeCount, this`added, this`freed
      ensures spawns ==> active == old(active) + [conn] && freed == old(freed) && activeCount == old(activeCount) + 1
      ensures spawns ==> added == old(added) + if hooks then 1 else 0
      ensures !spawns ==> active == old(active) && freed == old(freed) + [conn] && activeCount == old(activeCount)
      ensures !spawns ==> added == old(added)
    {
      if !spawns {
        freed := freed + [conn];
        return;
      }
      active := active + [conn];
      activeCount := activeCount + 1;
      if hooks {
        added := added + 1;
      }
    }

    /** A handshake that is over leaves the pending table and its connection is freed. */
    method DropPending(i: nat)
      requires Valid() && i < |pending|
      modifies this`pending, this`freed, this`removed
      ensures Valid() && pending == SwapRemove(old(pending), i) && freed == old(freed) + [old(pending)[i].conn]
    {
      ConnsSwap(pending, i);
      KeptPending(Conns(pending), active, freed, accepted, i);
      RemovePending(i, true);
    }

    /** A finished handshake leaves the pending table for the active one, or its connection is freed. */
    method Promote(i: nat, spawns: bool)
      requires Valid() && i < |pending|
      modifies this`pending, this`active, this`activeCount, this`added, this`freed, this`removed
      ensures Valid() && pending == SwapRemove(old(pending), i)
      ensures if spawns then active == old(active) + [old(pending)[i].conn] && freed == old(freed)
              else active == old(active) && freed == old(freed) + [old(pending)[i].conn]
    {
      ConnsSwap(pending, i);
      KeptPending(Conns(pending), active, freed, accepted, i);
      Spawn(pending[i].conn, spawns);
      RemovePending(i, false);
    }

    /** Look at the handshake at position i: it stays, or it is over. */
    method Look(a: Answers, i: nat) returns (next: nat)
      requires Valid() && i < |pending|
      modifies this`pending, this`active, this`activeCount, this`added, this`freed, this`removed
      ensures Valid()
      ensures Stays(a, old(pending)[i]) ==>
                next == i + 1 && pending == old(pending) && active == old(active) && freed == old(freed)
      ensures !Stays(a, old(pending)[i]) ==>
                && next == i && pending == SwapRemove(old(pending), i)
                && if Becomes(a, old(pending)[i]) then active == old(active) + [old(pending)[i].conn] && freed == old(freed)
                   else active == old(active) && freed == old(freed) + [old(pending)[i].conn]
    {
      next := i;
      var p := pending[i];
      if TimedOut(a, p) || a.status(p.conn) == Closed {
        DropPending(i);
      } else if a.status(p.conn) == Done {
        Promote(i, a.spawns(p.conn));
      } else {
        next := i + 1;
      }
    }

    /**
     progress_pending_handshakes: every pending handshake is looked at; those that timed out or
     closed are freed, those that finished become sessions, and the others stay.
     */
    method ProgressPending(a: Answers)
      requires Valid()
      modifies this`pending, this`active, this`activeCount, this`added, this`freed, this`removed
      ensures Valid() && Sorted(a, old(pending), pending, active, freed)
      ensures FirstStay(a, old(pending), pending, |pending|)
    {
      var i: nat := 0;
      while i < |pending|
        invariant Valid() && Sorted(a, old(pending), pending, active, freed) && FirstStay(a, old(pending), pending, i)
        decreases |pending| - i
      {
        ghost var pending', active', freed' := pending, active, freed;
        var next := Look(a, i);
        if next == i {
          SortedNext(a, old(pending), pending', active', freed', i, active, freed);
        }
        i := next;
      }
    }

    method RemoveActive(i: nat)
      requires i < |active|
      modifies this`active
      ensures active == SwapRemove(old(active), i)
    {
      var last := |active| - 1;
      if i < last {
        active := active[i := active[last]];
      }
      active := active[..last];
    }

    /** A session that is over: its connection is freed and it leaves the table. */
    method DestroySession(i: nat)
      requires Valid() && i < |active|
      modifies this`active, this`activeCount, this`freed, this`removed
      ensures Valid() && active == SwapRemove(old(active), i) && freed == old(freed) + [old(active)[i]]
    {
      KeptActive(Conns(pending), active, freed, accepted, i);
      freed := freed + [active[i]];
      if hooks {
        removed := removed + 1;
      }
      RemoveActive(i);
      activeCount := activeCount - 1;
    }

    /**
     The service loop of the event thread.  `ends` says whose session is aborted, shut down and
     without tasks once serviced.  Although the table changes under the loop, every session
     present at its start is serviced exactly once.
     */
    method ServiceAll(ends: nat -> bool) returns (serviced: seq<nat>)
      requires Valid()
      modifies this`active, this`activeCount, this`freed, this`removed
      ensures Valid() && multiset(serviced) == multiset(old(active))
      ensures forall c | c in active :: !ends(c)
    {
      serviced := [];
      var i := 0;
      assert active[0..] == active;
      while i < |active|
        invariant Valid() && Swept(old(active), active, serviced, i)
        invariant forall c | c in active[..i] :: !ends(c)
        decreases |active| - i
      {
        SweptNext(old(active), active, serviced, i);
        serviced := serviced + [active[i]];
        if ends(active[i]) {
          DestroySession(i);
        } else {
          i := i + 1;
        }
      }
      assert active[i..] == [] && active[..i] == active;
    }

    /** The end of the event thread: what still shakes hands is freed. */
    method FreePending()
      requires Valid()
      modifies this`pending, this`freed, this`removed
      ensures Valid() && pending == []
    {
      while pending != []
        invariant Valid()
        decreases |pending|
      {
        DropPending(0);
      }
    }

    /** The accept loop: `arrivals` says of each new connection whether it can be prepared. */
    method AcceptAll(arrivals: seq<bool>, now: int)
      requires Valid()
      modifies this`pending, this`added, this`accepted, this`freed
      ensures Valid() && accepted == old(accepted) + |arrivals|
    {
      for k := 0 to |arrivals|
        invariant Valid() && accepted == old(accepted) + k
      {
        Accept(arrivals[k], now);
      }
    }

    /** One turn of the event loop. */
    method Pass(t: Turn) returns (serviced: seq<nat>)
      requires Valid()
      modifies this`pending, this`active, this`activeCount, this`added, this`removed, this`accepted, this`freed
      ensures Valid() && (!t.running || t.draining ==> accepted == old(accepted) && pending == old(pending))
      ensures forall c | c in active :: !t.ends(c)
    {
      if t.running && !t.draining {
        AcceptAll(t.arrivals, t.answers.now);
        ProgressPending(t.answers);
      }
      serviced := ServiceAll(t.ends);
    }

    /**
     h3_event_thread, for as many turns as are given.  If it leaves its loop, no connection is
     left: both tables are empty, both counters are even, and every connection ever accepted
     has been freed exactly once.
     */
    method EventThread(turns: seq<Turn>) returns (exited: bool)
      requires Valid()
      modifies this`pending, this`active, this`activeCount, this`added, this`removed, this`accepted, this`freed
      ensures Valid()
      ensures exited ==> pending == [] && active == [] && activeCount == 0 && added == removed
      ensures exited ==> |freed| == accepted && forall c | 0 <= c < accepted :: Count(freed, c) == 1
    {
      var k := 0;
      while k < |turns| && (turns[k].running || active != [])
        invariant Valid() && 0 <= k <= |turns|
      {
        var _ := Pass(turns[k]);
        k := k + 1;
      }
      exited := k < |turns|;
      if exited {
        FreePending();
        assert Conns(pending) == [];
        AllFreed(freed, accepted);
      }
    }
  }
}
