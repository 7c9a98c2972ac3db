/** src/supernode.cpp, include/supernode.h: the stack of sketches kept for one node, its window
    [sampleIdx, merged) of sketches still good for a query, and the query-once discipline. */
module Supernodes {
  import opened Basics
  import opened Edges
  import opened Sketches

  datatype Sketch = Sketch(seed: nat, buckets: seq<Bucket>, queried: bool)

  datatype Supernode = Supernode(sampleIdx: nat, merged: nat, sketches: seq<Sketch>)

  datatype Sampled = Sample(index: nat, ret: SampleRet) | OutOfQueries | MultipleQuery

  ghost predicate Shaped(cfg: Config, s: Supernode)
  {
    && s.merged <= |s.sketches| == cfg.sketches
    && forall i | 0 <= i < |s.sketches| ::
         |s.sketches[i].buckets| == NumElems(cfg) && s.sketches[i].seed == SeedOf(cfg, i)
  }

  // ---------- operations ----------

  function Fresh(cfg: Config): Supernode
  {
    Supernode(0, cfg.sketches,
              seq(cfg.sketches, i requires 0 <= i => Sketch(SeedOf(cfg, i), seq(NumElems(cfg), b => EMPTY), false)))
  }

  function AddSketch(x: Sketch, y: Sketch): Sketch
    requires |x.buckets| == |y.buckets| > 0
  {
    x.(buckets := MergeBuckets(x.buckets, y.buckets), queried := x.queried || y.queried)
  }

  /** Consume the next sketch of the window. */
  function SampleNode(cfg: Config, s: Supernode): (r: (Supernode, Sampled))
    requires Shaped(cfg, s)
    ensures Shaped(cfg, r.0)
  {
    if s.sampleIdx >= s.merged then (s, OutOfQueries)
    else
      var k := s.sketches[s.sampleIdx];
      if k.queried then (s.(sampleIdx := s.sampleIdx + 1), MultipleQuery)
      else
        var (x, ret) := QueryBuckets(cfg, k.seed, k.buckets);
        (s.(sampleIdx := s.sampleIdx + 1, sketches := s.sketches[s.sampleIdx := k.(queried := true)]), Sample(x, ret))
  }

  function ExhaustiveNode(cfg: Config, s: Supernode): (r: (Supernode, Sampled, set<nat>))
    requires Shaped(cfg, s)
    ensures Shaped(cfg, r.0)
  {
    if s.sampleIdx >= s.merged then (s, OutOfQueries, {})
    else
      var k := s.sketches[s.sampleIdx];
      if k.queried then (s.(sampleIdx := s.sampleIdx + 1), MultipleQuery, {})
      else
        var (xs, ret) := ExhaustiveBuckets(cfg, k.seed, k.buckets);
        var last := k.buckets[Tracked(cfg)];
        var flag := last != EMPTY && !IsGood(cfg, k.seed, last);
        (s.(sampleIdx := s.sampleIdx + 1, sketches := s.sketches[s.sampleIdx := k.(queried := flag)]),
         Sample(0, ret), xs)
  }

  /** Add the sketches of t in the window [from, to) to those of s. */
  function AddWindow(cfg: Config, s: Supernode, t: Supernode, from: nat, to: nat): (r: Supernode)
    requires Shaped(cfg, s) && Shaped(cfg, t) && to <= cfg.sketches
    ensures |r.sketches| == |s.sketches|
  {
    Supernode(from, to, seq(|s.sketches|, i requires 0 <= i < |s.sketches| =>
      if from <= i < to then AddSketch(s.sketches[i], t.sketches[i]) else s.sketches[i]))
  }

  function MergeNode(cfg: Config, s: Supernode, t: Supernode): (r: Supernode)
    requires Shaped(cfg, s) && Shaped(cfg, t)
    ensures Shaped(cfg, r)
  {
    AddWindow(cfg, s, t, Max(s.sampleIdx, t.sampleIdx), Min(s.merged, t.merged))
  }

  /** The caller names the window's end; it must lie within the sketches there are. */
  function RangeMergeNode(cfg: Config, s: Supernode, t: Supernode, start: nat, num: nat): (r: Supernode)
    requires Shaped(cfg, s) && Shaped(cfg, t) && start + num <= cfg.sketches
    ensures Shaped(cfg, r)
  {
    AddWindow(cfg, s, t, Max(s.sampleIdx, t.sampleIdx), start + num)
  }

  function UpdateNode(cfg: Config, s: Supernode, xs: seq<nat>): (r: Supernode)
    requires Shaped(cfg, s)
    ensures Shaped(cfg, r)
  {
    s.(sketches := seq(|s.sketches|, i requires 0 <= i < |s.sketches| =>
      s.sketches[i].(buckets := UpdateAll(cfg, s.sketches[i].seed, s.sketches[i].buckets, xs))))
  }

  function DeltaNode(cfg: Config, xs: seq<nat>): (r: Supernode)
    ensures Shaped(cfg, r)
  {
    UpdateNode(cfg, Fresh(cfg), xs)
  }

  function ApplyDelta(cfg: Config, s: Supernode, delta: Supernode): (r: Supernode)
    requires Shaped(cfg, s) && Shaped(cfg, delta)
    ensures Shaped(cfg, r)
  {
    s.(sketches := AddWindow(cfg, s, delta, 0, cfg.sketches).sketches)
  }

  /** The copy constructor copies the window and the buckets, but not the query flags. */
  function CopyNode(s: Supernode): Supernode
  {
    s.(sketches := seq(|s.sketches|, i requires 0 <= i < |s.sketches| => s.sketches[i].(queried := false)))
  }

  /** Clears the flags below the window and reopens it from 0; `merged` stays as it is. */
  function ResetNode(s: Supernode): Supernode
  {
    s.(sampleIdx := 0, sketches := seq(|s.sketches|, i requires 0 <= i < |s.sketches| =>
      if i < s.sampleIdx then s.sketches[i].(queried := false) else s.sketches[i]))
  }

  // ---------- the query-once discipline ----------

  /** A sketch that has been queried lies before the window. */
  ghost predicate Disciplined(s: Supernode)
  {
    forall i | s.sampleIdx <= i < |s.sketches| :: !s.sketches[i].queried
  }

  ghost predicate Unqueried(s: Supernode)
  {
    forall i | 0 <= i < |s.sketches| :: !s.sketches[i].queried
  }

  /** Same sketches and same end of window; the flags and the start of the window may differ. */
  ghost predicate SameContent(s: Supernode, t: Supernode)
  {
    && s.merged == t.merged && |s.sketches| == |t.sketches|
    && forall i | 0 <= i < |s.sketches| ::
         s.sketches[i].buckets == t.sketches[i].buckets && s.sketches[i].seed == t.sketches[i].seed
  }

  /** As a supernode is before any query. */
  ghost predicate Pristine(s: Supernode)
  {
    s.sampleIdx == 0 && Unqueried(s)
  }

  /** c can stand in for s until it is reset. */
  ghost predicate GoodCopy(s: Supernode, c: Supernode)
  {
    SameContent(s, c) && Disciplined(c)
  }

  lemma ResetRestores(s: Supernode, t: Supernode)
    requires Pristine(s) && SameContent(s, t) && Disciplined(t)
    ensures ResetNode(t) == s
  {
    forall i | 0 <= i < |s.sketches|
      ensures ResetNode(t).sketches[i] == s.sketches[i]
    {
    }
    assert ResetNode(t).sketches == s.sketches;
  }

  /** What one caller can do with a pool of supernodes. */
  datatype Op =
    | Update(k: nat, x: nat)
    | Delta(k: nat, xs: seq<nat>)
    | SampleOp(k: nat)
    | Exhaustive(k: nat)
    | Merge(k: nat, j: nat)
    | RangeMerge(k: nat, j: nat, start: nat, num: nat)
    | Copy(k: nat, j: nat)
    | Reset(k: nat)

  ghost predicate InBounds(cfg: Config, pool: seq<Supernode>, op: Op)
  {
    && op.k < |pool|
    && (op.Merge? || op.RangeMerge? || op.Copy? ==> op.j < |pool|)
    && (op.RangeMerge? ==> op.start + op.num <= cfg.sketches)
  }

  ghost predicate PoolShaped(cfg: Config, pool: seq<Supernode>)
  {
    forall k | 0 <= k < |pool| :: Shaped(cfg, pool[k])
  }

  function Step(cfg: Config, pool: seq<Supernode>, op: Op): (r: (seq<Supernode>, bool))
    requires PoolShaped(cfg, pool) && InBounds(cfg, pool, op)
    ensures |r.0| == |pool| && PoolShaped(cfg, r.0)
  {
    var s := pool[op.k];
    match op
    case Update(k, x) => (pool[k := UpdateNode(cfg, s, [x])], false)
    case Delta(k, xs) => (pool[k := ApplyDelta(cfg, s, DeltaNode(cfg, xs))], false)
    case SampleOp(k) => var (s', out) := SampleNode(cfg, s); (pool[k := s'], out.MultipleQuery?)
    case Exhaustive(k) => var (s', out, _) := ExhaustiveNode(cfg, s); (pool[k := s'], out.MultipleQuery?)
    case Merge(k, j) => (pool[k := MergeNode(cfg, s, pool[j])], false)
    case RangeMerge(k, j, start, num) => (pool[k := RangeMergeNode(cfg, s, pool[j], start, num)], false)
    case Copy(k, j) => (pool[k := CopyNode(pool[j])], false)
    case Reset(k) => (pool[k := ResetNode(s)], false)
  }

  /** Every operation keeps the discipline, and none of them meets a queried sketch. */
  lemma StepKeepsDiscipline(cfg: Config, pool: seq<Supernode>, op: Op)
    requires PoolShaped(cfg, pool) && InBounds(cfg, pool, op)
    requires forall k | 0 <= k < |pool| :: Disciplined(pool[k])
    ensures forall k | 0 <= k < |pool| :: Disciplined(Step(cfg, pool, op).0[k])
    ensures !Step(cfg, pool, op).1
  {
    var s := pool[op.k];
    assert Disciplined(s);
    match op {
      case SampleOp(k) => SampleKeepsDiscipline(cfg, s);
      case Exhaustive(k) => SampleKeepsDiscipline(cfg, s);
      case Merge(k, j) => WindowDisciplined(cfg, s, pool[j], Max(s.sampleIdx, pool[j].sampleIdx), Min(s.merged, pool[j].merged));
      case RangeMerge(k, j, start, num) => WindowDisciplined(cfg, s, pool[j], Max(s.sampleIdx, pool[j].sampleIdx), start + num);
      case Delta(k, xs) => DeltaKeepsWindow(cfg, s, xs);
      case _ => assert Disciplined(Step(cfg, pool, op).0[op.k]);
    }
  }

  lemma SampleKeepsDiscipline(cfg: Config, s: Supernode)
    requires Shaped(cfg, s) && Disciplined(s)
    ensures Disciplined(SampleNode(cfg, s).0) && !SampleNode(cfg, s).1.MultipleQuery?
    ensures Disciplined(ExhaustiveNode(cfg, s).0) && !ExhaustiveNode(cfg, s).1.MultipleQuery?
  {
  }

  lemma WindowDisciplined(cfg: Config, s: Supernode, t: Supernode, from: nat, to: nat)
    requires Shaped(cfg, s) && Shaped(cfg, t) && Disciplined(s) && Disciplined(t)
    requires Max(s.sampleIdx, t.sampleIdx) <= from && to <= cfg.sketches
    ensures Disciplined(AddWindow(cfg, s, t, from, to))
  {
  }

  /** The pool after a run, and whether any sampling in it raised MultipleQueryException. */
  ghost predicate Runs(cfg: Config, pool: seq<Supernode>, ops: seq<Op>, final: seq<Supernode>, threw: bool)
    requires PoolShaped(cfg, pool)
    decreases |ops|
  {
    if ops == [] then final == pool && !threw
    else
      && InBounds(cfg, pool, ops[0])
      && var (next, t) := Step(cfg, pool, ops[0]);
      if t then final == next && threw else Runs(cfg, next, ops[1..], final, threw)
  }

  /** Over every run from fresh supernodes, no sampling is ever refused as a second query. */
  lemma {:induction false} NeverMultipleQuery(cfg: Config, pool: seq<Supernode>, ops: seq<Op>,
                                              final: seq<Supernode>, threw: bool)
    requires PoolShaped(cfg, pool) && forall k | 0 <= k < |pool| :: Disciplined(pool[k])
    requires Runs(cfg, pool, ops, final, threw)
    ensures !threw
    ensures |final| == |pool| && forall k | 0 <= k < |pool| :: Disciplined(final[k])
    decreases |ops|
  {
    if ops != [] {
      StepKeepsDiscipline(cfg, pool, ops[0]);
      NeverMultipleQuery(cfg, Step(cfg, pool, ops[0]).0, ops[1..], final, threw);
    }
  }

  // ---------- what the sketches stand for ----------

  /** Every sketch of s is the sketch of the set `what`. */
  ghost predicate HoldsAll(cfg: Config, s: Supernode, what: set<nat>)
  {
    && Shaped(cfg, s)
    && forall i | 0 <= i < |s.sketches| :: s.sketches[i].buckets == BucketsOf(cfg, SeedOf(cfg, i), what)
  }

  /** Every sketch left in the window is an unqueried sketch of the set `what`. */
  ghost predicate Represents(cfg: Config, s: Supernode, what: set<nat>)
  {
    && Shaped(cfg, s)
    && Disciplined(s)
    && forall i | s.sampleIdx <= i < s.merged :: s.sketches[i].buckets == BucketsOf(cfg, SeedOf(cfg, i), what)
  }

  ghost predicate AllFaithful(cfg: Config, what: set<nat>)
  {
    forall i: nat | i < cfg.sketches :: Faithful(cfg, SeedOf(cfg, i), what)
  }

  /** In no sketch does the skip in += lose anything of the set. */
  ghost predicate NoSkipCollision(cfg: Config, what: set<nat>)
  {
    forall i: nat | i < cfg.sketches :: SkipHarmless(cfg, SeedOf(cfg, i), what)
  }

  lemma FaithfulNoSkip(cfg: Config, what: set<nat>)
    requires AllFaithful(cfg, what)
    ensures NoSkipCollision(cfg, what)
  {
    forall i: nat | i < cfg.sketches
      ensures SkipHarmless(cfg, SeedOf(cfg, i), what)
    {
      assert Faithful(cfg, SeedOf(cfg, i), what);
      EmptySkip(cfg, SeedOf(cfg, i), what);
    }
  }

  lemma FreshIsEmpty(cfg: Config)
    ensures HoldsAll(cfg, Fresh(cfg), {}) && Unqueried(Fresh(cfg))
  {
    forall i | 0 <= i < cfg.sketches
      ensures Fresh(cfg).sketches[i].buckets == BucketsOf(cfg, SeedOf(cfg, i), {})
    {
      forall b: nat | b < NumElems(cfg)
        ensures BucketsOf(cfg, SeedOf(cfg, i), {})[b] == EMPTY
      {
        assert At(cfg, SeedOf(cfg, i), {}, b) == {};
      }
    }
  }

  /** Sampling answers for the represented set, uses up one sketch, and leaves the rest of the
      window as it was. */
  lemma SampleMeans(cfg: Config, s: Supernode, what: set<nat>)
    requires Represents(cfg, s, what) && AllFaithful(cfg, what)
    ensures var (r, out) := SampleNode(cfg, s);
            && Represents(cfg, r, what) && SameContent(s, r)
            && r.sampleIdx == s.sampleIdx + (if out.OutOfQueries? then 0 else 1)
            && (out.OutOfQueries? <==> s.sampleIdx >= s.merged)
            && !out.MultipleQuery?
            && (out.Sample? ==>
                  && (out.ret == ZERO <==> what == {})
                  && (out.ret == GOOD ==> out.index in what)
                  && (out.index, out.ret) == QueryBuckets(cfg, SeedOf(cfg, s.sampleIdx), BucketsOf(cfg, SeedOf(cfg, s.sampleIdx), what)))
  {
    if s.sampleIdx < s.merged {
      assert Faithful(cfg, SeedOf(cfg, s.sampleIdx), what);
      QueryCorrect(cfg, SeedOf(cfg, s.sampleIdx), what);
    }
  }

  /** So does exhaustive sampling, with the code that sampling would give and a set of members that
      holds the index sampling would return. The sketch is marked only for two or more members. */
  lemma ExhaustiveMeans(cfg: Config, s: Supernode, what: set<nat>)
    requires Represents(cfg, s, what) && AllFaithful(cfg, what)
    ensures var (r, out, xs) := ExhaustiveNode(cfg, s);
            && Represents(cfg, r, what) && SameContent(s, r)
            && r.sampleIdx == s.sampleIdx + (if out.OutOfQueries? then 0 else 1)
            && (out.OutOfQueries? <==> s.sampleIdx >= s.merged)
            && !out.MultipleQuery?
            && (out.Sample? ==>
                  && (out.ret == ZERO <==> what == {})
                  && (out.ret == GOOD <==> xs != {}) && xs <= what
                  && SampleNode(cfg, s).1.Sample? && SampleNode(cfg, s).1.ret == out.ret
                  && (out.ret == GOOD ==> SampleNode(cfg, s).1.index in xs)
                  && (r.sketches[s.sampleIdx].queried <==> what != {} && forall x :: what != {x})
                  && (xs, out.ret) == ExhaustiveBuckets(cfg, SeedOf(cfg, s.sampleIdx), BucketsOf(cfg, SeedOf(cfg, s.sampleIdx), what)))
  {
    if s.sampleIdx < s.merged {
      var seed := SeedOf(cfg, s.sampleIdx);
      assert Faithful(cfg, seed, what);
      QueryCorrect(cfg, seed, what);
      ExhaustiveAgrees(cfg, seed, what);
      LastBucket(cfg, seed, what);
      GoodIffIsolated(cfg, seed, what, Tracked(cfg));
    }
  }

  /** A sketch that was queried before is refused, and is out of the window from then on. */
  lemma SecondQueryRefused(cfg: Config, s: Supernode)
    requires Shaped(cfg, s) && s.sampleIdx < s.merged
    ensures SampleNode(cfg, s).1.MultipleQuery? <==> s.sketches[s.sampleIdx].queried
    ensures ExhaustiveNode(cfg, s).1.MultipleQuery? <==> s.sketches[s.sampleIdx].queried
    ensures s.sketches[s.sampleIdx].queried ==>
      SampleNode(cfg, s).0 == ExhaustiveNode(cfg, s).0 == s.(sampleIdx := s.sampleIdx + 1)
  {
  }

  /** A copy has the window and the content of its original, and answers as it would. */
  lemma CopyMeans(cfg: Config, s: Supernode, what: set<nat>)
    requires Represents(cfg, s, what)
    ensures var c := CopyNode(s);
      && c.sampleIdx == s.sampleIdx && SameContent(s, c) && Unqueried(c) && Represents(cfg, c, what)
      && SampleNode(cfg, c).1 == SampleNode(cfg, s).1
  {
  }

  lemma AddSketchMeans(cfg: Config, seed: nat, x: Sketch, y: Sketch, s: set<nat>, t: set<nat>)
    requires x.buckets == BucketsOf(cfg, seed, s) && y.buckets == BucketsOf(cfg, seed, t)
    ensures AddSketch(x, y).buckets == BucketsOf(cfg, seed, SymDiff(s, t)) <==> SkipHarmless(cfg, seed, t)
  {
    MergeIsSymDiff(cfg, seed, s, t);
  }

  /** Merging two supernodes represents the symmetric difference, on what is left of both windows. */
  lemma MergeMeans(cfg: Config, s: Supernode, t: Supernode, what: set<nat>, other: set<nat>)
    requires Represents(cfg, s, what) && Represents(cfg, t, other) && NoSkipCollision(cfg, other)
    ensures var r := MergeNode(cfg, s, t);
      && r.sampleIdx == Max(s.sampleIdx, t.sampleIdx) && r.merged == Min(s.merged, t.merged)
      && Represents(cfg, r, SymDiff(what, other))
  {
    WindowMeans(cfg, s, t, what, other, Max(s.sampleIdx, t.sampleIdx), Min(s.merged, t.merged));
  }

  lemma WindowMeans(cfg: Config, s: Supernode, t: Supernode, what: set<nat>, other: set<nat>, from: nat, to: nat)
    requires Represents(cfg, s, what) && Represents(cfg, t, other) && NoSkipCollision(cfg, other)
    requires Max(s.sampleIdx, t.sampleIdx) <= from && to <= cfg.sketches
    ensures var r := AddWindow(cfg, s, t, from, to);
      && Disciplined(r)
      && forall i | from <= i < to && i < s.merged && i < t.merged ::
           r.sketches[i].buckets == BucketsOf(cfg, SeedOf(cfg, i), SymDiff(what, other))
  {
    var r := AddWindow(cfg, s, t, from, to);
    forall i | from <= i < to && i < s.merged && i < t.merged
      ensures r.sketches[i].buckets == BucketsOf(cfg, SeedOf(cfg, i), SymDiff(what, other))
    {
      AddSketchMeans(cfg, SeedOf(cfg, i), s.sketches[i], t.sketches[i], what, other);
    }
  }

  /** A merge up to an end that the caller names does so too, as far as both windows reach; sketches
      outside the new window stay as they were. */
  lemma RangeMergeMeans(cfg: Config, s: Supernode, t: Supernode, what: set<nat>, other: set<nat>, start: nat, num: nat)
    requires Represents(cfg, s, what) && Represents(cfg, t, other) && NoSkipCollision(cfg, other) && start + num <= cfg.sketches
    ensures var r := RangeMergeNode(cfg, s, t, start, num);
      && r.sampleIdx == Max(s.sampleIdx, t.sampleIdx) && r.merged == start + num && Disciplined(r)
      && (forall i | r.sampleIdx <= i < r.merged && i < s.merged && i < t.merged ::
            r.sketches[i].buckets == BucketsOf(cfg, SeedOf(cfg, i), SymDiff(what, other)))
      && (forall i | 0 <= i < cfg.sketches && (i < r.sampleIdx || r.merged <= i) :: r.sketches[i] == s.sketches[i])
      && (start + num <= Min(s.merged, t.merged) ==> Represents(cfg, r, SymDiff(what, other)))
  {
    WindowMeans(cfg, s, t, what, other, Max(s.sampleIdx, t.sampleIdx), start + num);
  }

  /** An update leaves the window and the query flags alone. */
  ghost predicate SameWindow(s: Supernode, r: Supernode)
  {
    && r.sampleIdx == s.sampleIdx && r.merged == s.merged && |r.sketches| == |s.sketches|
    && forall i | 0 <= i < |s.sketches| :: r.sketches[i].queried == s.sketches[i].queried
  }

  lemma UpdateMeans(cfg: Config, s: Supernode, what: set<nat>, xs: seq<nat>)
    requires HoldsAll(cfg, s, what)
    ensures HoldsAll(cfg, UpdateNode(cfg, s, xs), SymDiff(what, OddOnes(xs))) && SameWindow(s, UpdateNode(cfg, s, xs))
  {
    forall i | 0 <= i < |s.sketches|
      ensures UpdateNode(cfg, s, xs).sketches[i].buckets == BucketsOf(cfg, SeedOf(cfg, i), SymDiff(what, OddOnes(xs)))
    {
      UpdatesGiveParity(cfg, SeedOf(cfg, i), what, xs);
    }
  }

  lemma DeltaKeepsWindow(cfg: Config, s: Supernode, xs: seq<nat>)
    requires Shaped(cfg, s)
    ensures SameWindow(s, ApplyDelta(cfg, s, DeltaNode(cfg, xs)))
  {
  }

  /** Applying a batch as a delta adds its odd indices to the set, and is updating with them one
      by one, exactly if no skip in += loses anything. */
  lemma DeltaMeans(cfg: Config, s: Supernode, what: set<nat>, xs: seq<nat>)
    requires HoldsAll(cfg, s, what)
    ensures HoldsAll(cfg, ApplyDelta(cfg, s, DeltaNode(cfg, xs)), SymDiff(what, OddOnes(xs)))
      <==> NoSkipCollision(cfg, OddOnes(xs))
    ensures Unqueried(s) ==>
      (ApplyDelta(cfg, s, DeltaNode(cfg, xs)) == UpdateNode(cfg, s, xs) <==> NoSkipCollision(cfg, OddOnes(xs)))
  {
    var batch := OddOnes(xs);
    FreshIsEmpty(cfg);
    UpdateMeans(cfg, Fresh(cfg), {}, xs);
    assert SymDiff({}, batch) == batch;
    UpdateMeans(cfg, s, what, xs);
    var delta := DeltaNode(cfg, xs);
    var r, u := ApplyDelta(cfg, s, delta), UpdateNode(cfg, s, xs);
    forall i: nat | i < cfg.sketches
      ensures r.sketches[i].buckets == BucketsOf(cfg, SeedOf(cfg, i), SymDiff(what, batch))
        <==> SkipHarmless(cfg, SeedOf(cfg, i), batch)
    {
      AddSketchMeans(cfg, SeedOf(cfg, i), s.sketches[i], delta.sketches[i], what, batch);
    }
    if Unqueried(s) && NoSkipCollision(cfg, batch) {
      assert r.sketches == u.sketches;
    }
  }
}
