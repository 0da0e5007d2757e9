/** Optional values, byte strings, concatenation of pieces, and sums over sequences. */
module Bytes {
  datatype Option<T> = None | Some(value: T)

  type byte = x: int | 0 <= x < 256

  ghost predicate Distinct(s: seq<nat>)
  {
    forall k, l | 0 <= k < l < |s| :: s[k] != s[l]
  }

  /** The concatenation of all pieces, in order. */
  function Flatten(pieces: seq<seq<byte>>): (r: seq<byte>)
  {
    if pieces == [] then [] else Flatten(pieces[..|pieces| - 1]) + pieces[|pieces| - 1]
  }

  /** The number of bytes in the first `i` pieces. */
  function Start(pieces: seq<seq<byte>>, i: nat): (r: nat)
    requires i <= |pieces|
  {
    if i == 0 then 0 else Start(pieces, i - 1) + |pieces[i - 1]|
  }

  lemma FlattenSnoc(pieces: seq<seq<byte>>, p: seq<byte>)
    ensures Flatten(pieces + [p]) == Flatten(pieces) + p
  {
    assert (pieces + [p])[..|pieces|] == pieces;
  }

  lemma {:induction false} FlattenConcat(a: seq<seq<byte>>, b: seq<seq<byte>>)
    ensures Flatten(a + b) == Flatten(a) + Flatten(b)
    decreases |b|
  {
    if b == [] {
      assert a + b == a;
    } else {
      var init, last := b[..|b| - 1], b[|b| - 1];
      assert a + b == (a + init) + [last] && b == init + [last];
      FlattenSnoc(a + init, last);
      FlattenSnoc(init, last);
      FlattenConcat(a, init);
    }
  }

  lemma FlattenCons(p: seq<byte>, pieces: seq<seq<byte>>)
    ensures Flatten([p] + pieces) == p + Flatten(pieces)
  {
    FlattenConcat([p], pieces);
    FlattenSnoc([], p);
    assert [] + [p] == [p];
  }

  lemma {:induction false} StartIsPrefix(pieces: seq<seq<byte>>, i: nat)
    requires i <= |pieces|
    ensures Start(pieces, i) == |Flatten(pieces[..i])|
  {
    if i > 0 {
      StartIsPrefix(pieces, i - 1);
      FlattenSnoc(pieces[..i - 1], pieces[i - 1]);
      assert pieces[..i] == pieces[..i - 1] + [pieces[i - 1]];
    }
  }

  lemma {:induction false} StartMonotone(pieces: seq<seq<byte>>, i: nat, j: nat)
    requires i <= j <= |pieces|
    ensures Start(pieces, i) <= Start(pieces, j)
    decreases j
  {
    if i < j {
      StartMonotone(pieces, i, j - 1);
    }
  }

  lemma StartTotal(pieces: seq<seq<byte>>)
    ensures Start(pieces, |pieces|) == |Flatten(pieces)|
  {
    StartIsPrefix(pieces, |pieces|);
    assert pieces[..|pieces|] == pieces;
  }

  /** Piece `i` sits in the concatenation at byte position `Start(pieces, i)`. */
  lemma {:induction false} PieceAt(pieces: seq<seq<byte>>, i: nat)
    requires i < |pieces|
    ensures Start(pieces, i) + |pieces[i]| <= |Flatten(pieces)|
    ensures Flatten(pieces)[Start(pieces, i)..Start(pieces, i) + |pieces[i]|] == pieces[i]
  {
    var a, b := pieces[..i], pieces[i + 1..];
    assert pieces == (a + [pieces[i]]) + b;
    FlattenConcat(a + [pieces[i]], b);
    FlattenSnoc(a, pieces[i]);
    StartIsPrefix(pieces, i);
  }

  /** A piece added at the end moves no earlier piece. */
  lemma {:induction false} StartSnoc(pieces: seq<seq<byte>>, p: seq<byte>, i: nat)
    requires i <= |pieces|
    ensures Start(pieces + [p], i) == Start(pieces, i)
  {
    if i > 0 {
      StartSnoc(pieces, p, i - 1);
    }
  }

  lemma SliceOfSlice(s: seq<byte>, a: nat, b: nat, i: nat, j: nat)
    requires a <= b <= |s| && i <= j <= b - a
    ensures s[a..b][i..j] == s[a + i..a + j]
  {
    assert |s[a..b][i..j]| == j - i == |s[a + i..a + j]|;
    forall k | 0 <= k < j - i
      ensures s[a..b][i..j][k] == s[a + i..a + j][k]
    {
      assert s[a..b][i..j][k] == s[a..b][i + k] == s[a + i + k];
    }
  }

  // ---- sums ----

  function Sum<T>(weight: T -> nat, items: seq<T>): (r: nat)
  {
    if items == [] then 0 else Sum(weight, items[..|items| - 1]) + weight(items[|items| - 1])
  }

  lemma SumSnoc<T>(weight: T -> nat, items: seq<T>, x: T)
    ensures Sum(weight, items + [x]) == Sum(weight, items) + weight(x)
  {
    assert (items + [x])[..|items|] == items;
  }

  lemma {:induction false} SumUpdate<T>(weight: T -> nat, items: seq<T>, i: nat, x: T)
    requires i < |items|
    ensures Sum(weight, items[i := x]) + weight(items[i]) == Sum(weight, items) + weight(x)
    decreases |items|
  {
    var n := |items| - 1;
    if i == n {
      assert items[i := x][..n] == items[..n];
    } else {
      assert items[i := x][..n] == items[..n][i := x];
      SumUpdate(weight, items[..n], i, x);
    }
  }

  lemma {:induction false} SumBoundsMember<T>(weight: T -> nat, items: seq<T>, i: nat)
    requires i < |items|
    ensures weight(items[i]) <= Sum(weight, items)
    decreases |items|
  {
    if i < |items| - 1 {
      SumBoundsMember(weight, items[..|items| - 1], i);
    }
  }

  /** Queueing n more bytes of `data` after the first `offset`. */
  lemma Contiguous(queued: seq<byte>, data: seq<byte>, offset: nat, n: nat)
    requires offset + n <= |data|
    ensures queued + data[..offset] + data[offset..][..n] == queued + data[..offset + n]
  {
  }

  lemma Assoc(a: seq<byte>, b: seq<byte>, c: seq<byte>)
    ensures (a + b) + c == a + (b + c)
  {
  }

  lemma MulGrows(a: nat, b: nat, n: nat)
    requires a <= b
    ensures a * n <= b * n
  {
  }

  /** A number the environment chose, as one up to `most`. */
  function AtMost(n: int, most: nat): (r: nat)
    ensures r <= most
  {
    if n < 0 then 0 else if n < most then n else most
  }
}
