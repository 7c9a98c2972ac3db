/** Concrete instances: configurations that meet the hypotheses on hashing, and inputs on which the
    source does not do what one would expect of it. */
module Witnesses {
  import opened Basics
  import opened Bits
  import opened Edges
  import opened Connectivity
  import opened DisjointSets
  import opened Sketches
  import opened Supernodes
  import opened Rounds
  import opened RoundSteps
  import opened Progress
  import opened Updates
  import SketchObject

  // ---------- a checksum without collisions ----------

  /** The indices of pairs of nodes below n, self-loops included. */
  ghost predicate Within(s: set<nat>, n: nat)
  {
    forall x | x in s :: Src(x) < n && Dst(x) < n
  }

  function Rank(n: nat, x: nat): nat
  {
    (n * Src(x) + Dst(x)) % 64
  }

  /** A 64-bit checksum that gives every pair of up to eight nodes a bit of its own. */
  ghost predicate Perfect(cfg: Config, n: nat)
  {
    n <= 8 && forall x: nat, seed: nat :: cfg.checksum(x, seed) == Pow2(Rank(n, x))
  }

  lemma ChecksumFits(cfg: Config, n: nat, x: nat, seed: nat)
    requires Perfect(cfg, n)
    ensures cfg.checksum(x, seed) < Pow2(64)
  {
    Pow2Monotone(Rank(n, x) + 1, 64);
  }

  lemma RankInjective(n: nat, x: nat, y: nat)
    requires n <= 8 && Within({x, y}, n) && Rank(n, x) == Rank(n, y)
    ensures x == y
  {
    assert x in {x, y} && y in {x, y};
    Digits(n, Src(x), Dst(x), Src(y), Dst(y));
  }

  lemma Digits(n: nat, a: nat, b: nat, a': nat, b': nat)
    requires n <= 8 && a < n && b < n && a' < n && b' < n && (n * a + b) % 64 == (n * a' + b') % 64
    ensures a == a' && b == b'
  {
    Below(n, a, b);
    Below(n, a', b');
    assert a * n + b == a' * n + b';
    SketchObject.DivModUnique(a, b, n);
    SketchObject.DivModUnique(a', b', n);
  }

  lemma Below(n: nat, a: nat, b: nat)
    requires n <= 8 && a < n && b < n
    ensures n * a + b < 64
  {
    assert n == 1 || n == 2 || n == 3 || n == 4 || n == 5 || n == 6 || n == 7 || n == 8;
  }

  /** No sketch of any set of pairs is ever wrong. */
  lemma PerfectIsFaithful(cfg: Config, n: nat, s: set<nat>)
    requires Perfect(cfg, n) && Within(s, n)
    ensures AllFaithful(cfg, s) && NoSkipCollision(cfg, s)
  {
    forall x, y | x in s && y in s && Rank(n, x) == Rank(n, y)
      ensures x == y
    {
      RankInjective(n, x, y);
    }
    forall i: nat | i < cfg.sketches
      ensures Faithful(cfg, SeedOf(cfg, i), s)
    {
      FaithfulInstance(cfg, SeedOf(cfg, i), x => Rank(n, x), s, s);
    }
    FaithfulNoSkip(cfg, s);
  }

  /** So every graph on n nodes, and every batch of its updates, is free of harmful collisions. */
  lemma PerfectGraphs(cfg: Config, n: nat, edges: set<nat>, batches: seq<Batch>)
    requires Perfect(cfg, n) && Simple(edges, n)
    requires forall i | 0 <= i < |batches| :: Within(OddOnes(BatchIds(batches[i])), n)
    ensures FaithfulGraph(cfg, edges, n) && NoCollisions(cfg, batches)
  {
    forall side: set<nat>
      ensures AllFaithful(cfg, Cut(edges, side))
    {
      PerfectIsFaithful(cfg, n, Cut(edges, side));
    }
    forall i | 0 <= i < |batches|
      ensures NoSkipCollision(cfg, OddOnes(BatchIds(batches[i])))
    {
      PerfectIsFaithful(cfg, n, OddOnes(BatchIds(batches[i])));
    }
  }

  // ---------- sketches with nothing but the deterministic bucket ----------

  /** No index lands in a tracked bucket. */
  ghost predicate Blind(cfg: Config)
  {
    forall x: nat, seed: nat :: cfg.depth(x, seed) >= cfg.guesses
  }

  /** Such a sketch finds the one index of a singleton and fails on anything larger. */
  lemma BlindQuery(cfg: Config, seed: nat, s: set<nat>)
    requires Blind(cfg) && Faithful(cfg, seed, s)
    ensures var (x, ret) := QueryBuckets(cfg, seed, BucketsOf(cfg, seed, s));
      && (ret == ZERO <==> s == {}) && (ret == GOOD <==> s == {x}) && (ret == FAIL <==> |s| >= 2)
  {
    QueryCorrect(cfg, seed, s);
    LastBucket(cfg, seed, s);
    forall b: nat | b < NumElems(cfg)
      ensures At(cfg, seed, s, b) == if b == Tracked(cfg) then s else {}
    {
      if b < Tracked(cfg) { NeverLands(cfg, seed, s, b); }
    }
    if x :| s == {x} {
      assert IsolatesAt(cfg, seed, s, Tracked(cfg));
    } else if s != {} {
      var x :| x in s;
      assert s - {x} != {};
      var y :| y in s - {x};
      assert {x, y} <= s && |{x, y}| == 2;
      TwoMembers(s, x, y);
    }
  }

  lemma NeverLands(cfg: Config, seed: nat, s: set<nat>, b: nat)
    requires Blind(cfg) && b < Tracked(cfg)
    ensures At(cfg, seed, s, b) == {}
  {
    assert cfg.columns * 0 == 0;
    assert b % Guesses(cfg) < cfg.guesses;
  }

  // ---------- the skip in += ----------

  /** One tracked bucket, in which index 1 lands and no other; an index is its own checksum. */
  function SkipCfg(): Config
  {
    Config(1, 1, 1, 0, (x, seed) => x, (x, seed) => if x == 1 then 0 else 1)
  }

  /** Indices 1, 2 and 3 cancel in the deterministic bucket, so adding their sketch to that of any
      set s is skipped, and index 1 is lost from the tracked bucket. */
  lemma SkipLosesIndex(s: set<nat>)
    ensures var cfg := SkipCfg();
      && Fold(cfg, 0, {1, 2, 3}) == EMPTY
      && MergeBuckets(BucketsOf(cfg, 0, s), BucketsOf(cfg, 0, {1, 2, 3})) != BucketsOf(cfg, 0, SymDiff(s, {1, 2, 3}))
  {
    var cfg, t := SkipCfg(), {1, 2, 3};
    ThreeCancel(cfg);
    assert At(cfg, 0, t, 0) == {1};
    FoldOne(cfg, 0, 1);
    assert BucketsOf(cfg, 0, t)[0] == Bucket(1, 1);
    assert Bucket(1, 1) in BucketsOf(cfg, 0, t);
    MergeIsSymDiff(cfg, 0, s, t);
  }

  lemma ThreeCancel(cfg: Config)
    requires cfg == SkipCfg()
    ensures Fold(cfg, 0, {1, 2, 3}) == EMPTY
  {
    FoldRemove(cfg, 0, {1, 2, 3}, 1);
    assert {1, 2, 3} - {1} == {2, 3};
    FoldRemove(cfg, 0, {2, 3}, 2);
    assert {2, 3} - {2} == {3};
    FoldOne(cfg, 0, 3);
    assert Xor(2, 3) == 1 && Xor(1, 1) == 0;
  }

  // ---------- a representative that is not a root ----------

  /** The path 0 - 1 - 2, every node its own representative, sampled by blind sketches. */
  function Path(): set<nat>
  {
    {Id(0, 1), Id(1, 2)}
  }

  function PathSamples(): seq<Sampled>
  {
    [Sample(Id(0, 1), GOOD), Sample(0, FAIL), Sample(Id(1, 2), GOOD)]
  }

  lemma PathCuts()
    ensures Cut(Path(), {0}) == {Id(0, 1)} && Cut(Path(), {1}) == Path() && Cut(Path(), {2}) == {Id(1, 2)}
    ensures Id(0, 1) != Id(1, 2) && Simple(Path(), 3)
    ensures Src(Id(0, 1)) == 0 && Dst(Id(0, 1)) == 1 && Src(Id(1, 2)) == 1 && Dst(Id(1, 2)) == 2
  {
    PairingRoundTrip(0, 1);
    PairingRoundTrip(1, 2);
  }

  /** Nodes 0 and 2 see one edge and node 1 sees two, so these are the samples they get. */
  lemma PathSampled(cfg: Config, i: nat, v: nat)
    requires Perfect(cfg, 3) && Blind(cfg) && i < cfg.sketches && v < 3
    ensures var q := QueryBuckets(cfg, SeedOf(cfg, i), BucketsOf(cfg, SeedOf(cfg, i), Cut(Path(), {v})));
      q.1 == PathSamples()[v].ret && (q.1 == GOOD ==> q.0 == PathSamples()[v].index)
  {
    var cut := Cut(Path(), {v});
    PathCuts();
    PerfectIsFaithful(cfg, 3, cut);
    BlindQuery(cfg, SeedOf(cfg, i), cut);
    TwoMembers(Path(), Id(0, 1), Id(1, 2));
  }

  /** The round on these samples: 0 and 2 link 1 and then 2 under 0, and 1, which failed, stays a
      representative beside 0 although it is no root any more. */
  lemma AbsorbedRepresentative()
    ensures RoundShape(Singletons(3), {}, [0, 1, 2], PathSamples(), PathMerging(3).(reps := [1, 0]))
    ensures 1 !in Roots(PathMerging(3).d)
  {
    SpanningSingletons(3);
    ThreeAlone();
    PathRound(Singletons(3));
    assert PathMerging(3).d.parent[1] == 0;
  }

  lemma ThreeAlone()
    ensures Singletons(3) == PathMerging(0).d
  {
    var d := Singletons(3);
    assert d.parent == [0, 1, 2] && d.size == [1, 1, 1];
  }

  lemma PathRound(d0: Dsu)
    requires Spanning(d0, {}) && d0 == PathMerging(0).d
    ensures RoundShape(d0, {}, [0, 1, 2], PathSamples(), PathMerging(3).(reps := [1, 0]))
  {
    FirstSample(d0);
    SecondSample(d0);
    ThirdSample(d0);
    PathReps(PathMerging(3));
    PathDistinct();
    PartialDone(d0, {}, [0, 1, 2], PathSamples(), PathMerging(3), [1, 0]);
  }

  lemma PathDistinct()
    ensures Distinct([0, 1, 2])
  {}

  lemma PathReps(m: Merging)
    requires m.reps == [1] && m.toMerge == [[1, 2], [], []]
    ensures NextReps(m.reps, m.toMerge, [1, 0], 1, 3)
  {
    assert m.reps[..1] == [1];
  }

  /** What the round has done after k samples. */
  function PathMerging(k: nat): Merging
  {
    if k == 0 then Merging(Dsu([0, 1, 2], [1, 1, 1]), {}, [[], [], []], [], false)
    else if k == 1 then Merging(Dsu([0, 0, 2], [2, 1, 1]), {Id(0, 1)}, [[1], [], []], [], true)
    else if k == 2 then Merging(Dsu([0, 0, 2], [2, 1, 1]), {Id(0, 1)}, [[1], [], []], [1], true)
    else Merging(Dsu([0, 0, 0], [3, 1, 1]), Path(), [[1, 2], [], []], [1], true)
  }

  lemma FirstSample(d0: Dsu)
    requires Spanning(d0, {}) && d0 == PathMerging(0).d
    ensures Partial(d0, {}, [0, 1, 2], PathSamples(), 1, PathMerging(1))
  {
    PathCuts();
    PartialStart(d0, {}, [0, 1, 2], PathSamples(), PathMerging(0));
    assert Root(d0, 0) == 0 && Root(d0, 1) == 1;
    PartialLink(d0, {}, [0, 1, 2], PathSamples(), 0, PathMerging(0), 0, 1);
    LinkedOnce(PathMerging(0));
  }

  lemma LinkedOnce(m: Merging)
    requires m == PathMerging(0)
    ensures LinkStep(m, 0, 1, Id(0, 1)) == PathMerging(1)
  {
    var r := LinkStep(m, 0, 1, Id(0, 1));
    PathCuts();
    assert r.d.parent == [0, 0, 2] && r.d.size == [2, 1, 1];
    assert [] + [1] + [] == [1];
    assert r.toMerge == [[1], [], []];
  }

  lemma SecondSample(d0: Dsu)
    requires Partial(d0, {}, [0, 1, 2], PathSamples(), 1, PathMerging(1))
    ensures Partial(d0, {}, [0, 1, 2], PathSamples(), 2, PathMerging(2))
  {
    PartialFail(d0, {}, [0, 1, 2], PathSamples(), 1, PathMerging(1));
  }

  lemma ThirdSample(d0: Dsu)
    requires Partial(d0, {}, [0, 1, 2], PathSamples(), 2, PathMerging(2))
    ensures Partial(d0, {}, [0, 1, 2], PathSamples(), 3, PathMerging(3))
  {
    PathCuts();
    SecondLink(PathMerging(2));
    PartialLink(d0, {}, [0, 1, 2], PathSamples(), 2, PathMerging(2), 0, 2);
    LinkedTwice(PathMerging(2));
  }

  lemma LinkedTwice(m: Merging)
    requires m == PathMerging(2)
    ensures LinkStep(m, 0, 2, Id(1, 2)) == PathMerging(3)
  {
    var r := LinkStep(m, 0, 2, Id(1, 2));
    PathCuts();
    assert r.d.parent == [0, 0, 0] && r.d.size == [3, 1, 1];
    assert [1] + [2] + [] == [1, 2];
    assert r.toMerge == [[1, 2], [], []];
  }

  lemma SecondLink(m: Merging)
    requires m.d == Dsu([0, 0, 2], [2, 1, 1])
    ensures Linkable(m.d, 0, 2) && Between(m.d, 0, 2, 1, 2)
  {
    var d0 := Singletons(3);
    SingletonsValid(3);
    LinkValid(d0, 0, 1);
    assert Link(d0, 0, 1) == m.d;
    assert Root(m.d, 1) == 0 && Root(m.d, 2) == 2;
  }
}
