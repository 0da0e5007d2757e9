/** The order in which drain_ready_streams visits streams, and why none is left out for long. */
module DrainSchedule {
  import opened Bytes

  /** The position visited at `offset` of a pass over n streams that starts from `cursor`. */
  function Turn(cursor: nat, n: nat, offset: nat): (p: nat)
    requires 0 < n
    ensures p < n
  {
    (cursor % n + offset) % n
  }

  lemma ModSmall(x: nat, n: nat)
    requires 0 < n && x < 2 * n
    ensures x % n == if x < n then x else x - n
  {
    var q := x / n;
    assert x == q * n + x % n;
    assert q < 2 by {
      if 2 <= q {
        MulGrows(2, q, n);
      }
    }
  }

  /** Two turns of one pass are different positions. */
  lemma TurnsDiffer(cursor: nat, n: nat, o: nat, p: nat)
    requires 0 < n && o < p < n
    ensures Turn(cursor, n, o) != Turn(cursor, n, p)
  {
    ModSmall(cursor % n + o, n);
    ModSmall(cursor % n + p, n);
  }

  /** The streams in the order of their turns. */
  function Rotated(order: seq<nat>, cursor: nat): (r: seq<nat>)
    ensures |r| == |order|
    ensures forall o | 0 <= o < |order| :: r[o] == order[Turn(cursor, |order|, o)]
  {
    seq(|order|, o requires 0 <= o < |order| => order[Turn(cursor, |order|, o)])
  }

  lemma RotatedDistinct(order: seq<nat>, cursor: nat)
    requires Distinct(order)
    ensures Distinct(Rotated(order, cursor))
  {
    var r := Rotated(order, cursor);
    forall o, p | 0 <= o < p < |r|
      ensures r[o] != r[p]
    {
      TurnsDiffer(cursor, |order|, o, p);
    }
  }

  /** The cursor left behind the last of `visits` turns. */
  function Behind(cursor: nat, n: nat, visits: nat): (c: nat)
    requires 0 < n && 0 < visits
  {
    (Turn(cursor, n, visits - 1) + 1) % n
  }

  /**
   A pass over n streams moved the cursor from `before` to `after` and gave a turn to the first
   `visits` streams: it went all the way round, or it stopped when a budget was spent and
   left the cursor behind the last stream it had visited.
   */
  predicate PassOf(n: nat, before: nat, after: nat, visits: nat)
    requires 0 < n
  {
    && 1 <= visits <= n
    && (after == Behind(before, n, visits) || (visits == n && after == before))
  }

  /** n consecutive passes: `cursors[m]` is the cursor before pass m. */
  ghost predicate Passes(n: nat, cursors: seq<nat>, visits: seq<nat>)
    requires 0 < n
  {
    && |cursors| == |visits| + 1
    && forall m | 0 <= m < |visits| :: PassOf(n, cursors[m], cursors[m + 1], visits[m])
  }

  /** Position p has its turn in pass m. */
  ghost predicate TurnIn(n: nat, cursors: seq<nat>, visits: seq<nat>, p: nat, m: nat)
    requires 0 < n && |cursors| == |visits| + 1
  {
    m < |visits| && exists o | 0 <= o < visits[m] :: Turn(cursors[m], n, o) == p
  }

  /** A pass that stops short hands the next turn on. */
  lemma NextTurn(n: nat, before: nat, after: nat, visits: nat, d: nat)
    requires 0 < n && PassOf(n, before, after, visits) && visits <= d < n
    ensures Turn(after, n, d - visits) == Turn(before, n, d)
  {
    var s := before % n;
    ModSmall(s + visits - 1, n);
    ModSmall(s + d, n);
    ModSmall(Turn(before, n, visits - 1) + 1, n);
    ModSmall(after, n);
    ModSmall(after % n + (d - visits), n);
  }

  /** The position d turns ahead is reached within d + 1 passes. */
  lemma {:induction false} ReachedFrom(n: nat, cursors: seq<nat>, visits: seq<nat>, k: nat, d: nat) returns (m: nat)
    requires 0 < n && Passes(n, cursors, visits) && d < n && k + d < |visits|
    ensures k <= m <= k + d && TurnIn(n, cursors, visits, Turn(cursors[k], n, d), m)
    decreases d
  {
    if d < visits[k] {
      m := k;
    } else {
      assert PassOf(n, cursors[k], cursors[k + 1], visits[k]);
      NextTurn(n, cursors[k], cursors[k + 1], visits[k], d);
      m := ReachedFrom(n, cursors, visits, k + 1, d - visits[k]);
    }
  }

  /** In any n consecutive passes over n streams every position has its turn. */
  lemma EveryPositionHasItsTurn(n: nat, cursors: seq<nat>, visits: seq<nat>, p: nat) returns (m: nat)
    requires 0 < n && Passes(n, cursors, visits) && |visits| == n && p < n
    ensures TurnIn(n, cursors, visits, p, m)
  {
    var s := cursors[0] % n;
    var d := if p < s then p + n - s else p - s;
    ModSmall(s + d, n);
    m := ReachedFrom(n, cursors, visits, 0, d);
  }
}
