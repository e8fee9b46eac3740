/** The arithmetic of `parseModuleMultithreaded`: how the token range of a MODULE is cut
    into `numProc` shards, and how the first error is chosen among the workers'
    reports. Nothing here depends on what the workers parse. */
module Sharding {
  import opened Tokens

  /** What one shard worker produced: the records it sent, in order, the indices at which
      its `switch` looked at a token, and the error it reported. */
  datatype Work<R> = Work(records: seq<R>, visited: seq<nat>, err: Option<Error>)

  /** The errors the workers reported, in shard order. */
  function ErrorsOf<R>(ws: seq<Work<R>>): seq<Error> {
    if ws == [] then []
    else ErrorsOf(ws[..|ws| - 1]) + (if ws[|ws| - 1].err.Some? then [ws[|ws| - 1].err.value] else [])
  }

  /** No error is collected exactly when no worker failed. */
  lemma {:induction false} NoErrors<R>(ws: seq<Work<R>>)
    ensures ErrorsOf(ws) == [] <==> forall j :: 0 <= j < |ws| ==> ws[j].err.None?
  {
    if ws != [] {
      var n := |ws| - 1;
      var init := ws[..n];
      NoErrors(init);
      assert forall j :: 0 <= j < n ==> init[j] == ws[j];
    }
  }

  /** Otherwise the first error collected is that of the first worker, in shard order,
      that failed. */
  lemma {:induction false} FirstError<R>(ws: seq<Work<R>>, j: nat)
    requires j < |ws| && ws[j].err.Some? && forall k :: 0 <= k < j ==> ws[k].err.None?
    ensures ErrorsOf(ws) != [] && ErrorsOf(ws)[0] == ws[j].err.value
  {
    var n := |ws| - 1;
    var init := ws[..n];
    assert forall k :: 0 <= k < n ==> init[k] == ws[k];
    if j < n {
      FirstError(init, j);
    } else {
      NoErrors(init);
    }
  }

  /** The shard of worker `i` as `parseModuleMultithreaded` lays it out, with
      q = (end - start) / numProc: it starts at start + q·i and ends q - 1 further on; the
      last shard ends at `end`. */
  function ShardBoundsAsWritten(start: nat, end: nat, numProc: nat, i: nat): (b: (nat, int))
    requires start < end && 1 <= numProc && i < numProc
    ensures start <= b.0 <= end && b.1 <= end
    ensures i + 1 == numProc ==> b.1 == end
  {
    var q := (end - start) / numProc;
    DivMul(end - start, numProc);
    MulMono(q, i + 1, numProc);
    MulSucc(q, i);
    var lo := start + q * i;
    (lo, if i + 1 == numProc then end else lo + q - 1)
  }

  lemma MulMono(q: nat, a: nat, b: nat)
    requires a <= b
    ensures q * a <= q * b
  {
  }

  lemma MulSucc(q: nat, a: nat)
    ensures q * (a + 1) == q * a + q
  {
  }

  /** The layout as written: shard 0 starts at `start`, the last shard ends at `end`, and
      each shard's last index is one before the next shard's first. */
  lemma ShardLayoutAsWritten(start: nat, end: nat, numProc: nat)
    requires start < end && 1 <= numProc
    ensures ShardBoundsAsWritten(start, end, numProc, 0).0 == start
    ensures ShardBoundsAsWritten(start, end, numProc, numProc - 1).1 == end
    ensures forall i :: 0 <= i < numProc - 1 ==>
      ShardBoundsAsWritten(start, end, numProc, i).1 + 1 == ShardBoundsAsWritten(start, end, numProc, i + 1).0
  {
    var q := (end - start) / numProc;
    forall i | 0 <= i < numProc - 1
      ensures ShardBoundsAsWritten(start, end, numProc, i).1 + 1 == ShardBoundsAsWritten(start, end, numProc, i + 1).0
    {
      MulSucc(q, i);
    }
  }

  /** Where the layout as written leaves a gap: when every shard is at least one token
      long, the first index of every shard but the first lies in no shard's range
      (lo, hi] — the range a worker that pre-increments its cursor looks at. */
  lemma AsWrittenGap(start: nat, end: nat, numProc: nat, s: nat)
    requires start < end && 1 <= s < numProc && end - start >= numProc
    ensures var lo := ShardBoundsAsWritten(start, end, numProc, s).0;
      forall j :: 0 <= j < numProc ==>
        !(ShardBoundsAsWritten(start, end, numProc, j).0 < lo <= ShardBoundsAsWritten(start, end, numProc, j).1)
  {
    var q := (end - start) / numProc;
    assert q >= 1;
    forall j | 0 <= j < numProc
      ensures var lo := ShardBoundsAsWritten(start, end, numProc, s).0;
        !(ShardBoundsAsWritten(start, end, numProc, j).0 < lo <= ShardBoundsAsWritten(start, end, numProc, j).1)
    {
      if j < s {
        MulMono(q, j + 1, s);
        MulSucc(q, j);
      } else {
        MulMono(q, s, j);
      }
    }
  }

  /** The intended layout: each shard ends where the next one starts, so that the ranges
      (lo, hi] a pre-incrementing worker looks at meet without a gap. */
  function ShardBounds(start: nat, end: nat, numProc: nat, i: nat): (b: (nat, nat))
    requires start < end && 1 <= numProc && i < numProc
    ensures start <= b.0 <= b.1 <= end
  {
    var q := (end - start) / numProc;
    var lo := start + q * i;
    MulMono(q, i + 1, numProc);
    MulSucc(q, i);
    DivMul(end - start, numProc);
    (lo, if i + 1 == numProc then end else lo + q)
  }

  /** The bounds of shard `i` as a caller computes them from the quotient `q`. */
  lemma ShardBoundsOf(start: nat, end: nat, numProc: nat, i: nat, q: nat, lo: int, hi: int)
    requires start < end && 1 <= numProc && i < numProc && q == (end - start) / numProc
    requires lo == start + q * i && hi == if i + 1 == numProc then end else lo + q
    ensures ShardBounds(start, end, numProc, i) == (lo, hi)
  {
  }

  lemma DivMul(x: nat, n: nat)
    requires 1 <= n
    ensures n * (x / n) <= x && x < n * (x / n) + n
  {
  }

  /** The intended layout: shard 0 starts at `start`, the last ends at `end`, and each
      shard ends exactly where the next begins. */
  lemma ShardLayout(start: nat, end: nat, numProc: nat)
    requires start < end && 1 <= numProc
    ensures ShardBounds(start, end, numProc, 0).0 == start
    ensures ShardBounds(start, end, numProc, numProc - 1).1 == end
    ensures forall i :: 0 <= i < numProc - 1 ==>
      ShardBounds(start, end, numProc, i).1 == ShardBounds(start, end, numProc, i + 1).0
  {
    var q := (end - start) / numProc;
    forall i | 0 <= i < numProc - 1
      ensures ShardBounds(start, end, numProc, i).1 == ShardBounds(start, end, numProc, i + 1).0
    {
      MulSucc(q, i);
    }
  }

  /** Under the intended layout a shard ends no later than any later shard begins. */
  lemma ShardsOrdered(start: nat, end: nat, numProc: nat, i: nat, j: nat)
    requires start < end && 1 <= numProc && i < j < numProc
    ensures ShardBounds(start, end, numProc, i).1 <= ShardBounds(start, end, numProc, j).0
  {
    var q := (end - start) / numProc;
    MulMono(q, i + 1, j);
    MulSucc(q, i);
  }

  /** The shard that holds index k: the quotient of its offset by q, capped at the last shard. */
  lemma ShardOf(start: nat, end: nat, numProc: nat, k: nat) returns (i: nat)
    requires start < end && 1 <= numProc && start < k <= end
    ensures i < numProc && ShardBounds(start, end, numProc, i).0 < k <= ShardBounds(start, end, numProc, i).1
  {
    var q := (end - start) / numProc;
    var x: nat := k - start - 1;
    if q == 0 {
      i := numProc - 1;
    } else {
      var d := x / q;
      DivMul(x, q);
      assert q * d <= x < q * d + q;
      if d >= numProc - 1 {
        i := numProc - 1;
        MulMono(q, i, d);
      } else {
        i := d;
      }
    }
  }

  /** Under the intended layout every index of (start, end] lies in the range (lo, hi]
      of exactly one shard. */
  lemma ShardPartition(start: nat, end: nat, numProc: nat, k: nat)
    requires start < end && 1 <= numProc && start < k <= end
    ensures exists i :: 0 <= i < numProc && ShardBounds(start, end, numProc, i).0 < k <= ShardBounds(start, end, numProc, i).1
    ensures forall i, j ::
      (&& 0 <= i < numProc && 0 <= j < numProc
       && ShardBounds(start, end, numProc, i).0 < k <= ShardBounds(start, end, numProc, i).1
       && ShardBounds(start, end, numProc, j).0 < k <= ShardBounds(start, end, numProc, j).1)
      ==> i == j
  {
    var i := ShardOf(start, end, numProc, k);
    forall i1, j1 | 0 <= i1 < j1 < numProc
      ensures ShardBounds(start, end, numProc, i1).1 <= ShardBounds(start, end, numProc, j1).0
    {
      ShardsOrdered(start, end, numProc, i1, j1);
    }
  }
}
