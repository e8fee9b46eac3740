/** The check behind `getRecordLayoutRelativePositions`, stated over the sequence of
    sub-fields it examines: each insertion of a position into the map, and the first
    position found twice. */
module PositionChecks {
  import opened Tokens
  import opened Collaborators

  /** What the check sees of one sub-field: whether its position is set, the position,
      and the field's name. */
  datatype Candidate<N> = Candidate(placed: bool, position: uint16, name: N)

  /** No two placed candidates among the first `n` share a position. */
  predicate DistinctBelow<N>(cs: seq<Candidate<N>>, n: nat)
    requires n <= |cs|
  {
    forall j, k :: 0 <= j < k < n && cs[j].placed && cs[k].placed ==> cs[j].position != cs[k].position
  }

  /** `m` sends the position of each placed candidate among the first `n` to its name, and
      has no other keys. */
  predicate Holds<N(==)>(cs: seq<Candidate<N>>, n: nat, m: map<uint16, N>)
    requires n <= |cs|
  {
    && (forall k :: 0 <= k < n && cs[k].placed ==> cs[k].position in m && m[cs[k].position] == cs[k].name)
    && (forall p :: p in m ==> exists k :: 0 <= k < n && cs[k].placed && cs[k].position == p)
  }

  /** Candidate `k` is the first whose position was already taken: it has the position of
      the earlier placed candidate `j`, and no two before it collide. */
  predicate FirstCollision<N>(cs: seq<Candidate<N>>, j: nat, k: nat)
    requires j < k < |cs|
  {
    cs[j].placed && cs[k].placed && cs[j].position == cs[k].position && DistinctBelow(cs, k)
  }

  /** The outcome of the checks: the map built, and the first pair of names found at one
      position (earlier, later) if any. */
  datatype Checked<N> = Checked(order: map<uint16, N>, clash: Option<(N, N)>)

  /** The checks of candidates `cs[i..]`, with `acc` the map built so far. */
  function RelativeFrom<N>(cs: seq<Candidate<N>>, i: nat, acc: map<uint16, N>): Checked<N>
    requires i <= |cs|
    decreases |cs| - i
  {
    if i == |cs| then Checked(acc, None)
    else if !cs[i].placed then RelativeFrom(cs, i + 1, acc)
    else if cs[i].position in acc then Checked(acc, Some((acc[cs[i].position], cs[i].name)))
    else RelativeFrom(cs, i + 1, acc[cs[i].position := cs[i].name])
  }

  /** A candidate without a position extends the checked prefix by one. */
  lemma SkipStep<N>(cs: seq<Candidate<N>>, i: nat, acc: map<uint16, N>)
    requires i < |cs| && !cs[i].placed && DistinctBelow(cs, i) && Holds(cs, i, acc)
    ensures DistinctBelow(cs, i + 1) && Holds(cs, i + 1, acc)
  {
    forall p | p in acc
      ensures exists k :: 0 <= k < i + 1 && cs[k].placed && cs[k].position == p
    {
      var k :| 0 <= k < i && cs[k].placed && cs[k].position == p;
    }
  }

  /** A placed candidate whose position is free is inserted and extends the prefix. */
  lemma InsertStep<N>(cs: seq<Candidate<N>>, i: nat, acc: map<uint16, N>)
    requires i < |cs| && cs[i].placed && cs[i].position !in acc
    requires DistinctBelow(cs, i) && Holds(cs, i, acc)
    ensures DistinctBelow(cs, i + 1) && Holds(cs, i + 1, acc[cs[i].position := cs[i].name])
  {
    var acc' := acc[cs[i].position := cs[i].name];
    forall j | 0 <= j < i && cs[j].placed
      ensures cs[j].position != cs[i].position
    {
      assert cs[j].position in acc;
    }
    forall p | p in acc'
      ensures exists k :: 0 <= k < i + 1 && cs[k].placed && cs[k].position == p
    {
      if p != cs[i].position {
        var k :| 0 <= k < i && cs[k].placed && cs[k].position == p;
      }
    }
  }

  /** A placed candidate whose position is taken is the first collision, with the earlier
      candidate's name stored at that position. */
  lemma CollisionStep<N>(cs: seq<Candidate<N>>, i: nat, acc: map<uint16, N>)
    requires i < |cs| && cs[i].placed && cs[i].position in acc
    requires DistinctBelow(cs, i) && Holds(cs, i, acc)
    ensures exists j :: 0 <= j < i && FirstCollision(cs, j, i) && acc[cs[i].position] == cs[j].name
  {
    var j :| 0 <= j < i && cs[j].placed && cs[j].position == cs[i].position;
    assert FirstCollision(cs, j, i);
  }

  /** What the checks promise: success exactly when the placed candidates have distinct
      positions, with the whole map; a failure reports the first collision, with the map of
      the candidates before it. */
  predicate CheckedAsSpecified<N(==)>(cs: seq<Candidate<N>>, r: Checked<N>) {
    && (r.clash.None? <==> DistinctBelow(cs, |cs|))
    && (r.clash.None? ==> Holds(cs, |cs|, r.order))
    && (r.clash.Some? ==>
          exists j, k :: 0 <= j < k < |cs| && FirstCollision(cs, j, k) && Holds(cs, k, r.order)
            && r.clash == Some((cs[j].name, cs[k].name)))
  }

  /** The collision branch of `RelativeFromSpec`: the checks stop at candidate `i`. */
  lemma RelativeFromCollision<N>(cs: seq<Candidate<N>>, i: nat, acc: map<uint16, N>)
    requires i < |cs| && cs[i].placed && cs[i].position in acc
    requires DistinctBelow(cs, i) && Holds(cs, i, acc)
    ensures CheckedAsSpecified(cs, RelativeFrom(cs, i, acc))
  {
    CollisionStep(cs, i, acc);
    var j :| 0 <= j < i && FirstCollision(cs, j, i) && acc[cs[i].position] == cs[j].name;
    assert RelativeFrom(cs, i, acc) == Checked(acc, Some((cs[j].name, cs[i].name)));
    assert !DistinctBelow(cs, |cs|) by {
      assert cs[j].placed && cs[i].placed && cs[j].position == cs[i].position;
    }
  }

  /** The checks succeed exactly when the placed candidates have distinct positions, and
      then build the whole map; a failure reports the first collision. */
  lemma {:induction false} RelativeFromSpec<N>(cs: seq<Candidate<N>>, i: nat, acc: map<uint16, N>)
    requires i <= |cs| && DistinctBelow(cs, i) && Holds(cs, i, acc)
    ensures CheckedAsSpecified(cs, RelativeFrom(cs, i, acc))
    decreases |cs| - i
  {
    if i == |cs| {
      RelativeFromEnd(cs, acc);
    } else if !cs[i].placed {
      SkipStep(cs, i, acc);
      RelativeFromSpec(cs, i + 1, acc);
      RelativeFromNext(cs, i, acc, acc);
    } else if cs[i].position in acc {
      RelativeFromCollision(cs, i, acc);
    } else {
      var acc' := acc[cs[i].position := cs[i].name];
      InsertStep(cs, i, acc);
      RelativeFromSpec(cs, i + 1, acc');
      RelativeFromNext(cs, i, acc, acc');
    }
  }

  /** The skip and insert branches of `RelativeFromSpec`: the checks go on from `i + 1`
      with `acc'`, so they promise what they promise from there. */
  lemma RelativeFromNext<N>(cs: seq<Candidate<N>>, i: nat, acc: map<uint16, N>, acc': map<uint16, N>)
    requires i < |cs| && (cs[i].placed ==> cs[i].position !in acc)
    requires acc' == if cs[i].placed then acc[cs[i].position := cs[i].name] else acc
    requires CheckedAsSpecified(cs, RelativeFrom(cs, i + 1, acc'))
    ensures CheckedAsSpecified(cs, RelativeFrom(cs, i, acc))
  {
    assert RelativeFrom(cs, i, acc) == RelativeFrom(cs, i + 1, acc');
  }

  /** The end branch of `RelativeFromSpec`: every candidate checked and none collided. */
  lemma RelativeFromEnd<N>(cs: seq<Candidate<N>>, acc: map<uint16, N>)
    requires DistinctBelow(cs, |cs|) && Holds(cs, |cs|, acc)
    ensures CheckedAsSpecified(cs, RelativeFrom(cs, |cs|, acc))
  {
    assert RelativeFrom(cs, |cs|, acc) == Checked(acc, None);
  }


  /** The keys of `m` below `v`, in ascending order. */
  function KeysBelow<N>(m: map<uint16, N>, v: nat): (ps: seq<uint16>)
    requires v <= 0x1_0000
    ensures forall a, b :: 0 <= a < b < |ps| ==> ps[a] < ps[b]
    ensures forall p: uint16 :: p in ps <==> p in m && p < v
    decreases v
  {
    if v == 0 then []
    else
      var p: uint16 := v - 1;
      var below := KeysBelow(m, v - 1);
      forall a | 0 <= a < |below|
        ensures below[a] < p
      {
        var q: uint16 := below[a];
        assert q in below;
      }
      below + (if p in m then [p] else [])
  }

  /** The `positions` slice: every key of the map, each once, in ascending order. */
  function SortedPositions<N>(m: map<uint16, N>): (ps: seq<uint16>)
    ensures forall a, b :: 0 <= a < b < |ps| ==> ps[a] < ps[b]
    ensures forall p: uint16 :: p in ps <==> p in m
  {
    KeysBelow(m, 0x1_0000)
  }

  /** The total width of the fields at positions `ps`. */
  function Span(ps: seq<uint16>, width: uint16 -> nat): nat {
    if ps == [] then 0 else width(ps[0]) + Span(ps[1..], width)
  }

  /** Successive offsets: the field at `ps[0]` starts at `off`, each later one where the
      one before it ends. */
  function Offsets(ps: seq<uint16>, width: uint16 -> nat, off: nat): map<uint16, nat> {
    if ps == [] then map[] else Offsets(ps[1..], width, off + width(ps[0]))[ps[0] := off]
  }

  /** Over ascending positions, each position gets `off` plus the widths of all the
      positions before it, and no other key is present. */
  lemma {:induction false} OffsetsSpec(ps: seq<uint16>, width: uint16 -> nat, off: nat)
    requires forall a, b :: 0 <= a < b < |ps| ==> ps[a] < ps[b]
    ensures var r := Offsets(ps, width, off);
      && (forall p :: p in r <==> p in ps)
      && (forall m :: 0 <= m < |ps| ==> ps[m] in r && r[ps[m]] == off + Span(ps[..m], width))
  {
    if ps != [] {
      var tail := ps[1..];
      var rest := Offsets(tail, width, off + width(ps[0]));
      var r := rest[ps[0] := off];
      OffsetsSpec(tail, width, off + width(ps[0]));
      assert Offsets(ps, width, off) == r;
      forall p
        ensures p in r <==> p in ps
      {
        assert p in ps <==> p == ps[0] || p in tail;
      }
      forall m | 0 <= m < |ps|
        ensures ps[m] in r && r[ps[m]] == off + Span(ps[..m], width)
      {
        if m == 0 {
          assert ps[..0] == [];
        } else {
          assert ps[m] == tail[m - 1] && ps[0] < ps[m];
          assert ps[..m][1..] == tail[..m - 1];
        }
      }
    }
  }

  /** Appending a position adds its width to the span. */
  lemma {:induction false} SpanSnoc(ps: seq<uint16>, p: uint16, width: uint16 -> nat)
    ensures Span(ps + [p], width) == Span(ps, width) + width(p)
  {
    if ps != [] {
      assert (ps + [p])[1..] == ps[1..] + [p];
      SpanSnoc(ps[1..], p, width);
    }
  }

  /** A field at an earlier index ends no later than any field after it starts:
      the offsets do not overlap. */
  lemma {:induction false} SpanOrdered(ps: seq<uint16>, width: uint16 -> nat, m1: nat, m2: nat)
    requires m1 < m2 <= |ps|
    ensures Span(ps[..m1], width) + width(ps[m1]) <= Span(ps[..m2], width)
    decreases m2 - m1
  {
    assert ps[..m2 - 1] + [ps[m2 - 1]] == ps[..m2];
    SpanSnoc(ps[..m2 - 1], ps[m2 - 1], width);
    if m1 < m2 - 1 {
      SpanOrdered(ps, width, m1, m2 - 1);
    }
  }
}
