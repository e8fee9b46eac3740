/** One shard worker of `parseModuleMultithreaded` (`parseModuleMainLoop`) and the
    workers of all shards, over any MODULE grammar: `opens` says which tokens open a
    sub-block, `parse` runs that sub-block's parser from a cursor index. The only thing
    assumed of `parse` is that it never moves the cursor back. */
module Workers {
  import opened Tokens
  import opened Collaborators
  import opened Keywords
  import opened Sharding

  /** The sub-block parsers are defined everywhere and never move the cursor back. */
  ghost predicate Forward<E(!new), R>(parse: (E, nat) --> Step<R>) {
    forall e, at :: parse.requires(e, at) && parse(e, at).next >= at
  }

  /** `parseModuleMainLoop` from cursor index `i` with bound `max`: it stops once the index
      reaches `max`, at `/end MODULE`, or at its first error, which it reports; records
      are sent only when they parse; other literals and keywords are skipped. Every index
      it looks at lies in (i, max]. */
  function WorkerRun<E(!new), R>(toks: seq<string>, opens: string -> Option<E>, parse: (E, nat) --> Step<R>, i: nat, max: int): (w: Work<R>)
    requires Forward(parse)
    ensures forall k :: 0 <= k < |w.visited| ==> i < w.visited[k] <= max
    decreases max - i
  {
    if i >= max then Work([], [], None)
    else
      var t := TokenAt(toks, i + 1);
      match opens(t)
      case Some(e) =>
        var s := parse(e, i + 1);
        if s.err.Some? then Work([], [i + 1], s.err)
        else
          var w := WorkerRun(toks, opens, parse, s.next, max);
          Work([s.value] + w.records, [i + 1] + w.visited, w.err)
      case None =>
        if t == Empty then Work([], [i + 1], Some(UnexpectedEof))
        else if t == EndModuleToken then Work([], [i + 1], None)
        else if i + 1 >= max then Work([], [i + 1], None)
        else
          var w := WorkerRun(toks, opens, parse, i + 1, max);
          Work(w.records, [i + 1] + w.visited, w.err)
  }

  /** A token the worker's `switch` simply skips: no sub-block opener, not the sentinel,
      not `/end MODULE`. */
  predicate Plain<E>(opens: string -> Option<E>, t: string) {
    opens(t) == None && t != Empty && t != EndModuleToken
  }

  /** One clause per branch of the worker's loop body: nothing is looked at once the index
      has reached the bound; a failing sub-block ends the worker with that error and no
      record; a parsed one is sent and the loop goes on from where its parser stopped;
      the sentinel stops with "unexpected end of file", `/end MODULE` without an error;
      a skipped token below the bound changes neither the records nor the error. */
  lemma WorkerStops<E(!new), R>(toks: seq<string>, opens: string -> Option<E>, parse: (E, nat) --> Step<R>, i: nat, max: int)
    requires Forward(parse)
    ensures i >= max ==> WorkerRun(toks, opens, parse, i, max) == Work([], [], None)
    ensures var t := TokenAt(toks, i + 1); var w := WorkerRun(toks, opens, parse, i, max);
      i < max && opens(t).Some? && parse(opens(t).value, i + 1).err.Some? ==>
        w.records == [] && w.err == parse(opens(t).value, i + 1).err
    ensures var t := TokenAt(toks, i + 1); var w := WorkerRun(toks, opens, parse, i, max);
      i < max && opens(t).Some? && parse(opens(t).value, i + 1).err.None? ==>
        w.records == [parse(opens(t).value, i + 1).value] + WorkerRun(toks, opens, parse, parse(opens(t).value, i + 1).next, max).records
    ensures var t := TokenAt(toks, i + 1);
      i < max && opens(t).None? && t == Empty ==> WorkerRun(toks, opens, parse, i, max) == Work([], [i + 1], Some(UnexpectedEof))
    ensures var t := TokenAt(toks, i + 1);
      i < max && opens(t).None? && t == EndModuleToken ==> WorkerRun(toks, opens, parse, i, max) == Work([], [i + 1], None)
    ensures var t := TokenAt(toks, i + 1); var w := WorkerRun(toks, opens, parse, i, max);
      i + 1 < max && Plain(opens, t) ==>
        w.records == WorkerRun(toks, opens, parse, i + 1, max).records && w.err == WorkerRun(toks, opens, parse, i + 1, max).err
  {
  }

  /** Why a worker that looked at anything stopped, read off the last index `v` it looked
      at: the sentinel, `/end MODULE`, a skipped token at the bound, a sub-block whose
      parser failed (its error is the worker's), or one whose parser ran up to the bound. */
  predicate StoppedAt<E(!new), R>(toks: seq<string>, opens: string -> Option<E>, parse: (E, nat) --> Step<R>, max: int, v: nat, err: Option<Error>)
    requires Forward(parse)
  {
    var t := TokenAt(toks, v);
    match opens(t)
    case Some(e) =>
      if parse(e, v).err.Some? then err == parse(e, v).err
      else parse(e, v).next >= max && err == None
    case None =>
      if t == Empty then err == Some(UnexpectedEof)
      else if t == EndModuleToken then err == None
      else v == max && err == None
  }

  /** A worker below its bound looks at something, and it stops only for one of the
      reasons of `StoppedAt`; no other error ever comes out of it. */
  lemma {:induction false} WorkerStopReason<E(!new), R>(toks: seq<string>, opens: string -> Option<E>, parse: (E, nat) --> Step<R>, i: nat, max: int)
    requires Forward(parse) && i < max
    ensures var w := WorkerRun(toks, opens, parse, i, max);
      |w.visited| > 0 && StoppedAt(toks, opens, parse, max, w.visited[|w.visited| - 1], w.err)
    decreases max - i
  {
    var w := WorkerRun(toks, opens, parse, i, max);
    var t := TokenAt(toks, i + 1);
    match opens(t)
    case Some(e) =>
      var s := parse(e, i + 1);
      if s.err.None? && s.next < max {
        WorkerStopReason(toks, opens, parse, s.next, max);
        var w' := WorkerRun(toks, opens, parse, s.next, max);
        assert w.visited == [i + 1] + w'.visited;
        assert w.visited[|w.visited| - 1] == w'.visited[|w'.visited| - 1];
      }
    case None =>
      if t != Empty && t != EndModuleToken && i + 1 < max {
        WorkerStopReason(toks, opens, parse, i + 1, max);
        var w' := WorkerRun(toks, opens, parse, i + 1, max);
        assert w.visited == [i + 1] + w'.visited;
        assert w.visited[|w.visited| - 1] == w'.visited[|w'.visited| - 1];
      }
  }

  /** A worker whose range holds only skipped tokens before its last index `hi`, and a
      sub-block opener at `hi`, parses that sub-block: it sends the record when the parser
      succeeds, and otherwise reports the parser's error. */
  lemma {:induction false} WorkerLastOpener<E(!new), R>(toks: seq<string>, opens: string -> Option<E>, parse: (E, nat) --> Step<R>, lo: nat, hi: nat)
    requires Forward(parse) && lo < hi && opens(TokenAt(toks, hi)).Some?
    requires forall k :: lo < k < hi ==> Plain(opens, TokenAt(toks, k))
    ensures var s := parse(opens(TokenAt(toks, hi)).value, hi); var w := WorkerRun(toks, opens, parse, lo, hi);
      && (s.err.None? ==> w.records == [s.value] && w.err == None)
      && (s.err.Some? ==> w.records == [] && w.err == s.err)
    decreases hi - lo
  {
    if lo + 1 < hi {
      WorkerLastOpener(toks, opens, parse, lo + 1, hi);
    }
  }

  /** A worker whose shard holds only skipped tokens before its last index looks at
      every index of (lo, hi] in turn. */
  lemma {:induction false} WorkerVisitsAll<E(!new), R>(toks: seq<string>, opens: string -> Option<E>, parse: (E, nat) --> Step<R>, lo: nat, hi: nat)
    requires Forward(parse) && lo <= hi
    requires forall k :: lo < k < hi ==> Plain(opens, TokenAt(toks, k))
    ensures WorkerRun(toks, opens, parse, lo, hi).visited == seq(hi - lo, j => lo + 1 + j)
    decreases hi - lo
  {
    if lo < hi {
      if lo + 1 < hi {
        WorkerVisitsAll(toks, opens, parse, lo + 1, hi);
        assert [lo + 1] + seq(hi - (lo + 1), j => lo + 1 + 1 + j) == seq(hi - lo, j => lo + 1 + j);
      } else {
        assert [lo + 1] == seq(hi - lo, j => lo + 1 + j);
      }
    } else {
      assert seq(hi - lo, j => lo + 1 + j) == [];
    }
  }

  /** The workers of shards `s` to `numProc - 1` under the intended layout, in shard order. */
  function Shards<E(!new), R>(toks: seq<string>, opens: string -> Option<E>, parse: (E, nat) --> Step<R>,
                        start: nat, end: nat, numProc: nat, s: nat): (ws: seq<Work<R>>)
    requires Forward(parse) && start < end && 1 <= numProc && s <= numProc
    ensures |ws| == numProc - s
    ensures forall j :: 0 <= j < |ws| ==>
      ws[j] == WorkerRun(toks, opens, parse, ShardBounds(start, end, numProc, s + j).0, ShardBounds(start, end, numProc, s + j).1)
    decreases numProc - s
  {
    if s == numProc then []
    else
      var b := ShardBounds(start, end, numProc, s);
      [WorkerRun(toks, opens, parse, b.0, b.1)] + Shards(toks, opens, parse, start, end, numProc, s + 1)
  }

  /** The gap of the layout as written, for the workers themselves: when every shard is
      at least one token long, no worker's `switch` ever looks at the first index of
      shards 1 to numProc - 1, whatever the tokens are; a record opener there is never
      parsed. */
  lemma ShardStartSkipped<E(!new), R>(toks: seq<string>, opens: string -> Option<E>, parse: (E, nat) --> Step<R>,
                                start: nat, end: nat, numProc: nat, s: nat)
    requires Forward(parse) && start < end && 1 <= s < numProc && end - start >= numProc
    ensures forall j :: 0 <= j < numProc ==>
      ShardBoundsAsWritten(start, end, numProc, s).0 !in
        WorkerRun(toks, opens, parse, ShardBoundsAsWritten(start, end, numProc, j).0, ShardBoundsAsWritten(start, end, numProc, j).1).visited
  {
    AsWrittenGap(start, end, numProc, s);
  }

  /** Such a worker looks, in particular, at any one index k of its range. */
  lemma WorkerVisits<E(!new), R>(toks: seq<string>, opens: string -> Option<E>, parse: (E, nat) --> Step<R>, lo: nat, hi: nat, k: nat)
    requires Forward(parse) && lo < k <= hi
    requires forall k' :: lo < k' < hi ==> Plain(opens, TokenAt(toks, k'))
    ensures k in WorkerRun(toks, opens, parse, lo, hi).visited
  {
    WorkerVisitsAll(toks, opens, parse, lo, hi);
    assert WorkerRun(toks, opens, parse, lo, hi).visited[k - lo - 1] == k;
  }

  /** The intended layout has no gap: when the tokens strictly between the header and
      `/end MODULE` are all skipped ones, each index k of (start, end] is looked at by
      some worker. */
  lemma ShardsCover<E(!new), R>(toks: seq<string>, opens: string -> Option<E>, parse: (E, nat) --> Step<R>,
                                start: nat, end: nat, numProc: nat, k: nat)
    requires Forward(parse) && start < end && 1 <= numProc && start < k <= end
    requires forall k' :: start < k' < end ==> Plain(opens, TokenAt(toks, k'))
    ensures exists i :: 0 <= i < numProc && k in Shards(toks, opens, parse, start, end, numProc, 0)[i].visited
  {
    var ws := Shards(toks, opens, parse, start, end, numProc, 0);
    ShardPartition(start, end, numProc, k);
    var i :| 0 <= i < numProc && ShardBounds(start, end, numProc, i).0 < k <= ShardBounds(start, end, numProc, i).1;
    var b := ShardBounds(start, end, numProc, i);
    WorkerVisits(toks, opens, parse, b.0, b.1, k);
    assert ws[i] == WorkerRun(toks, opens, parse, b.0, b.1);
  }

  /** The point of the intended layout: a sub-block opener at the first index of shard
      `s >= 1`, the index the layout as written skips, is the last index of shard `s - 1`,
      and that shard's worker parses it when the tokens before it in the shard are
      skipped ones: the record is sent on success, the parser's error reported otherwise. */
  lemma ShardStartParsed<E(!new), R>(toks: seq<string>, opens: string -> Option<E>, parse: (E, nat) --> Step<R>,
                                     start: nat, end: nat, numProc: nat, s: nat)
    requires Forward(parse) && start < end && 1 <= s < numProc
    requires var lo := ShardBounds(start, end, numProc, s - 1).0; var hi := ShardBounds(start, end, numProc, s).0;
      lo < hi && opens(TokenAt(toks, hi)).Some? && forall k :: lo < k < hi ==> Plain(opens, TokenAt(toks, k))
    ensures var hi := ShardBounds(start, end, numProc, s).0;
      var p := parse(opens(TokenAt(toks, hi)).value, hi);
      var w := Shards(toks, opens, parse, start, end, numProc, 0)[s - 1];
      && hi in w.visited
      && (p.err.None? ==> w.records == [p.value] && w.err == None)
      && (p.err.Some? ==> w.records == [] && w.err == p.err)
  {
    ShardLayout(start, end, numProc);
    var b := ShardBounds(start, end, numProc, s - 1);
    assert b.1 == ShardBounds(start, end, numProc, s).0;
    assert Shards(toks, opens, parse, start, end, numProc, 0)[s - 1] == WorkerRun(toks, opens, parse, b.0, b.1);
    WorkerVisits(toks, opens, parse, b.0, b.1, b.1);
    WorkerLastOpener(toks, opens, parse, b.0, b.1);
  }

  /** ... and by no more than one: the workers' indices never overlap. */
  lemma ShardsDisjoint<E(!new), R>(toks: seq<string>, opens: string -> Option<E>, parse: (E, nat) --> Step<R>,
                                   start: nat, end: nat, numProc: nat, k: nat)
    requires Forward(parse) && start < end && 1 <= numProc && start < k <= end
    ensures forall i, j ::
      (&& 0 <= i < numProc && 0 <= j < numProc
       && k in Shards(toks, opens, parse, start, end, numProc, 0)[i].visited
       && k in Shards(toks, opens, parse, start, end, numProc, 0)[j].visited)
      ==> i == j
  {
    ShardPartition(start, end, numProc, k);
  }
}
