/** Request headers: what on_recv_header (h3_callbacks.c) stores, and within which budget. */
module RequestHeaders {
  import opened Bytes

  const INT_MAX: nat := 0x7FFF_FFFF
  const UINT64_MAX: nat := 0xFFFF_FFFF_FFFF_FFFF
  const PSEUDO_MAX: nat := 8192

  /** The four pseudo-header tokens a request may carry, and every other token. */
  datatype Token = Method | Scheme | Path | Authority | Regular

  datatype Field = Field(token: Token, name: seq<byte>, value: seq<byte>)

  /** LimitRequestFields and LimitRequestFieldSize; zero turns a limit off. */
  datatype Limits = Limits(fields: nat, size: nat)
  {
    predicate Positive() { 0 < fields <= INT_MAX && 0 < size <= INT_MAX }
  }

  /** The size a field counts for (section 4.2.2 of RFC 9114). */
  function Weight(f: Field): (n: nat)
  {
    |f.name| + |f.value| + 32
  }

  /** The advertised SETTINGS_MAX_FIELD_SECTION_SIZE. */
  function MaxSectionSize(l: Limits): (n: nat)
  {
    l.fields * (l.size + 32)
  }

  predicate Oversized(l: Limits, f: Field)
  {
    l.size > 0 && |f.name| + |f.value| + 2 > l.size
  }

  /** What the callbacks keep of the fields so far. */
  datatype Headers = Headers(
    table: seq<Field>,
    count: nat,
    tooLarge: bool,
    malformed: bool,
    pseudo: map<Token, seq<byte>>)

  function SetPseudo(h: Headers, f: Field): (r: Headers)
  {
    if |f.value| == 0 || |f.value| >= PSEUDO_MAX then h.(malformed := true)
    else h.(pseudo := h.pseudo[f.token := f.value])
  }

  /** on_recv_header, once on_begin_headers has made the table. */
  function OnHeader(l: Limits, h: Headers, f: Field): (r: Headers)
  {
    if f.token != Regular then
      if Oversized(l, f) then h.(malformed := true) else SetPseudo(h, f)
    else if h.tooLarge then h
    else
      var count := if l.fields > 0 then h.count + 1 else h.count;
      if l.fields > 0 && count > l.fields then h.(count := count, tooLarge := true)
      else if Oversized(l, f) then h.(count := count, tooLarge := true)
      else h.(count := count, table := h.table + [f])
  }

  function OnHeaders(l: Limits, fields: seq<Field>): (r: Headers)
  {
    if fields == [] then Headers([], 0, false, false, map[])
    else OnHeader(l, OnHeaders(l, fields[..|fields| - 1]), fields[|fields| - 1])
  }

  /** The regular fields among `fields`, in order. */
  function RegularOnly(fields: seq<Field>): (r: seq<Field>)
  {
    if fields == [] then []
    else
      var last := fields[|fields| - 1];
      RegularOnly(fields[..|fields| - 1]) + (if last.token == Regular then [last] else [])
  }

  function PseudoOnly(fields: seq<Field>): (r: seq<Field>)
  {
    if fields == [] then []
    else
      var last := fields[|fields| - 1];
      PseudoOnly(fields[..|fields| - 1]) + (if last.token != Regular then [last] else [])
  }

  /** The fields that have an effect: without a table, regular ones are dropped. */
  function Effective(present: bool, fields: seq<Field>): (r: seq<Field>)
  {
    if present then fields else PseudoOnly(fields)
  }

  /** One more field, after `before` and the first i. */
  lemma OneMoreField(l: Limits, present: bool, before: seq<Field>, fields: seq<Field>, i: nat)
    requires i < |fields|
    ensures var h := OnHeaders(l, before + Effective(present, fields[..i]));
            OnHeaders(l, before + Effective(present, fields[..i + 1])) ==
            if present || fields[i].token != Regular then OnHeader(l, h, fields[i]) else h
  {
    var now, next := before + Effective(present, fields[..i]), before + Effective(present, fields[..i + 1]);
    assert fields[..i + 1][..i] == fields[..i];
    if present || fields[i].token != Regular {
      assert next == now + [fields[i]];
      assert next[..|now|] == now;
    } else {
      assert next == now;
    }
  }

  /** Pseudo-headers leave the table alone. */
  lemma {:induction false} PseudoLeavesTable(l: Limits, before: seq<Field>, fields: seq<Field>)
    ensures OnHeaders(l, before + PseudoOnly(fields)).table == OnHeaders(l, before).table
    ensures OnHeaders(l, before + PseudoOnly(fields)).tooLarge == OnHeaders(l, before).tooLarge
    decreases |fields|
  {
    if fields == [] {
      assert before + PseudoOnly(fields) == before;
    } else {
      var n := |fields| - 1;
      PseudoLeavesTable(l, before, fields[..n]);
      OneMoreField(l, false, before, fields, n);
      assert fields[..n + 1] == fields;
    }
  }

  /** A field section every field of which fits. */
  ghost predicate Fits(l: Limits, regular: seq<Field>)
  {
    && (l.fields > 0 ==> |regular| <= l.fields)
    && forall k | 0 <= k < |regular| :: !Oversized(l, regular[k])
  }

  /** What holds after any number of fields. */
  ghost predicate Budgeted(l: Limits, h: Headers)
  {
    && (l.fields > 0 ==> |h.table| <= l.fields && h.count <= l.fields + 1 && (!h.tooLarge ==> h.count == |h.table|))
    && (forall k | 0 <= k < |h.table| :: !Oversized(l, h.table[k]))
  }

  lemma {:induction false} AlwaysBudgeted(l: Limits, fields: seq<Field>)
    ensures Budgeted(l, OnHeaders(l, fields))
    decreases |fields|
  {
    if fields != [] {
      AlwaysBudgeted(l, fields[..|fields| - 1]);
    }
  }

  /** Fields of bounded size, boundedly many, weigh boundedly much. */
  lemma {:induction false} WeightBound(l: Limits, table: seq<Field>)
    requires 0 < l.size && forall k | 0 <= k < |table| :: !Oversized(l, table[k])
    ensures Sum(Weight, table) <= |table| * (l.size + 32)
    decreases |table|
  {
    if table != [] {
      var n := |table| - 1;
      WeightBound(l, table[..n]);
      assert !Oversized(l, table[n]);
      assert |table| * (l.size + 32) == n * (l.size + 32) + (l.size + 32);
    }
  }

  /** The stored fields never weigh more than what was advertised. */
  lemma WithinAdvertisedSize(l: Limits, fields: seq<Field>)
    requires l.Positive()
    ensures Sum(Weight, OnHeaders(l, fields).table) <= MaxSectionSize(l)
  {
    AlwaysBudgeted(l, fields);
    var table := OnHeaders(l, fields).table;
    WeightBound(l, table);
    MulGrows(|table|, l.fields, l.size + 32);
  }

  /** The advertised size fits its 64-bit setting whatever the two limits are. */
  lemma AdvertisedSizeFits(l: Limits)
    requires l.Positive()
    ensures 0 < MaxSectionSize(l) <= UINT64_MAX
  {
    MulGrows(l.fields, INT_MAX, l.size + 32);
    MulGrows(l.size + 32, INT_MAX + 32, INT_MAX);
    MulGrows(1, l.fields, l.size + 32);
  }

  /** Once the section is too large, the table is frozen. */
  lemma TooLargeIsFinal(l: Limits, h: Headers, f: Field)
    requires h.tooLarge
    ensures OnHeader(l, h, f).tooLarge && OnHeader(l, h, f).table == h.table
  {
  }

  /**
   The section is found too large exactly when its regular fields do not fit; if they fit, all
   of them are stored, and if not, those before the first that does not.
   */
  lemma {:induction false} StoredIsAllThatFits(l: Limits, fields: seq<Field>) returns (k: nat)
    ensures OnHeaders(l, fields).tooLarge <==> !Fits(l, RegularOnly(fields))
    ensures k <= |RegularOnly(fields)| && OnHeaders(l, fields).table == RegularOnly(fields)[..k]
    ensures !OnHeaders(l, fields).tooLarge ==> k == |RegularOnly(fields)|
    decreases |fields|
  {
    if fields == [] {
      k := 0;
    } else {
      var front, last := fields[..|fields| - 1], fields[|fields| - 1];
      k := StoredIsAllThatFits(l, front);
      AlwaysBudgeted(l, front);
      var before, after := RegularOnly(front), RegularOnly(fields);
      if last.token == Regular {
        FitsSnoc(l, before, last);
        assert after == before + [last];
        assert after[..k] == before[..k];
        if !OnHeaders(l, fields).tooLarge {
          k := |after|;
        }
      } else {
        assert after == before;
      }
    }
  }

  lemma FitsSnoc(l: Limits, regular: seq<Field>, f: Field)
    ensures Fits(l, regular + [f]) <==>
            Fits(l, regular) && (l.fields > 0 ==> |regular| < l.fields) && !Oversized(l, f)
  {
    var more := regular + [f];
    if Fits(l, more) {
      assert more[|regular|] == f;
      forall k | 0 <= k < |regular|
        ensures !Oversized(l, regular[k])
      {
        assert more[k] == regular[k];
      }
    }
  }

  /** A pseudo-header that is empty or too long, or over the field limit, marks the request malformed. */
  lemma PseudoIsChecked(l: Limits, h: Headers, f: Field)
    requires f.token != Regular
    ensures var r := OnHeader(l, h, f);
            if Oversized(l, f) || |f.value| == 0 || |f.value| >= PSEUDO_MAX
            then r.malformed && r.pseudo == h.pseudo
            else r.malformed == h.malformed && f.token in r.pseudo && r.pseudo[f.token] == f.value
    ensures OnHeader(l, h, f).table == h.table
  {
  }

  /** The header fields of an h3_stream, as the callbacks change them. */
  class HeaderTable {
    const limits: Limits
    /** stream->headers is there: on_begin_headers has run on a bidirectional stream */
    var present: bool
    var table: seq<Field>
    var count: nat
    var tooLarge: bool
    var malformed: bool
    var pseudo: map<Token, seq<byte>>

    function Model(): (h: Headers)
      reads this
    {
      Headers(table, count, tooLarge, malformed, pseudo)
    }

    constructor (limits: Limits)
      ensures Model() == OnHeaders(limits, []) && this.limits == limits && !present
    {
      this.limits := limits;
      present, table, count, tooLarge, malformed, pseudo := false, [], 0, false, false, map[];
    }

    /** on_begin_headers */
    method BeginHeaders(bidi: bool)
      modifies this`present
      ensures present == (old(present) || bidi)
    {
      if bidi && !present {
        present := true;
      }
    }

    method StorePseudo(f: Field)
      modifies this`pseudo, this`malformed
      ensures Model() == SetPseudo(old(Model()), f)
    {
      if |f.value| == 0 || |f.value| >= PSEUDO_MAX {
        malformed := true;
      } else {
        pseudo := pseudo[f.token := f.value];
      }
    }

    /** on_recv_header; a regular field for which there is no table is dropped. */
    method RecvHeader(f: Field)
      modifies this`table, this`count, this`tooLarge, this`malformed, this`pseudo
      ensures Model() == if present || f.token != Regular then OnHeader(limits, old(Model()), f) else old(Model())
    {
      var oversized := limits.size > 0 && |f.name| + |f.value| + 2 > limits.size;
      if f.token != Regular {
        if oversized {
          malformed := true;
        } else {
          StorePseudo(f);
        }
        return;
      }
      if !present || tooLarge {
        return;
      }
      if limits.fields > 0 {
        count := count + 1;
        if count > limits.fields {
          tooLarge := true;
          return;
        }
      }
      if oversized {
        tooLarge := true;
        return;
      }
      table := table + [f];
    }

    /** on_recv_header for each field in turn */
    method RecvFields(fields: seq<Field>, ghost before: seq<Field>)
      requires Model() == OnHeaders(limits, before)
      modifies this`table, this`count, this`tooLarge, this`malformed, this`pseudo
      ensures Model() == OnHeaders(limits, before + Effective(present, fields))
    {
      assert before + Effective(present, fields[..0]) == before;
      for i := 0 to |fields|
        invariant Model() == OnHeaders(limits, before + Effective(present, fields[..i]))
      {
        OneMoreField(limits, present, before, fields, i);
        RecvHeader(fields[i]);
      }
      assert fields[..|fields|] == fields;
    }

    /**
     A field section after `before`: with a table, all of its regular fields are stored or it is
     found too large; without one, only its pseudo-headers have an effect.
     */
    method ReceiveSection(bidi: bool, fields: seq<Field>, ghost before: seq<Field>)
      requires Model() == OnHeaders(limits, before)
      modifies this
      ensures present == (old(present) || bidi)
      ensures Model() == OnHeaders(limits, before + Effective(present, fields))
      ensures !present ==> table == old(table) && tooLarge == old(tooLarge)
      ensures present ==> (tooLarge <==> !Fits(limits, RegularOnly(before + fields)))
      ensures present && !tooLarge ==> table == RegularOnly(before + fields)
      ensures limits.Positive() ==> Sum(Weight, table) <= MaxSectionSize(limits)
    {
      BeginHeaders(bidi);
      RecvFields(fields, before);
      if present {
        var _ := StoredIsAllThatFits(limits, before + fields);
      } else {
        PseudoLeavesTable(limits, before, fields);
      }
      if limits.Positive() {
        WithinAdvertisedSize(limits, before + Effective(present, fields));
      }
    }
  }
}
