/** What a sketch is and answers, said directly in terms of the hashes: column c files an index under
    its depth at seed + 5 * c (src/l0_sampling/sketch.cpp, include/l0_sampling/sketch.h). */
module Columns {
  import opened Bits
  import opened Edges
  import opened Sketches
  import opened Supernodes
  import SketchObject

  // ---------- contents of a bucket ----------

  ghost function XorIndices(s: set<nat>): nat
  {
    if s == {} then 0 else var x :| x in s; Xor(x, XorIndices(s - {x}))
  }

  ghost function XorChecksums(cfg: Config, seed: nat, s: set<nat>): nat
  {
    if s == {} then 0 else var x :| x in s; Xor(cfg.checksum(x, seed), XorChecksums(cfg, seed, s - {x}))
  }

  /** The exclusive or of the indices, and of their checksums. */
  ghost function Contents(cfg: Config, seed: nat, s: set<nat>): Bucket
  {
    Bucket(XorIndices(s), XorChecksums(cfg, seed, s))
  }

  lemma XorSwap(a: nat, b: nat, c: nat)
    ensures Xor(a, Xor(b, c)) == Xor(b, Xor(a, c))
  {
    XorAssoc(a, b, c);
    XorComm(a, b);
    XorAssoc(b, a, c);
  }

  lemma {:induction false} XorIndicesRemove(s: set<nat>, y: nat)
    requires y in s
    ensures XorIndices(s) == Xor(y, XorIndices(s - {y}))
  {
    var x :| x in s && XorIndices(s) == Xor(x, XorIndices(s - {x}));
    if x != y {
      XorIndicesRemove(s - {x}, y);
      XorIndicesRemove(s - {y}, x);
      assert s - {x} - {y} == s - {y} - {x};
      XorSwap(x, y, XorIndices(s - {x} - {y}));
    }
  }

  lemma {:induction false} XorChecksumsRemove(cfg: Config, seed: nat, s: set<nat>, y: nat)
    requires y in s
    ensures XorChecksums(cfg, seed, s) == Xor(cfg.checksum(y, seed), XorChecksums(cfg, seed, s - {y}))
  {
    var x :| x in s && XorChecksums(cfg, seed, s) == Xor(cfg.checksum(x, seed), XorChecksums(cfg, seed, s - {x}));
    if x != y {
      XorChecksumsRemove(cfg, seed, s - {x}, y);
      XorChecksumsRemove(cfg, seed, s - {y}, x);
      assert s - {x} - {y} == s - {y} - {x};
      XorSwap(cfg.checksum(x, seed), cfg.checksum(y, seed), XorChecksums(cfg, seed, s - {x} - {y}));
    }
  }

  lemma {:induction false} FoldIsContents(cfg: Config, seed: nat, s: set<nat>)
    ensures Fold(cfg, seed, s) == Contents(cfg, seed, s)
  {
    if s != {} {
      var x :| x in s;
      FoldRemove(cfg, seed, s, x);
      XorIndicesRemove(s, x);
      XorChecksumsRemove(cfg, seed, s, x);
      FoldIsContents(cfg, seed, s - {x});
    }
  }

  // ---------- where an index lands ----------

  /** The members of s with depth d in column c. */
  ghost function AtDepth(cfg: Config, seed: nat, s: set<nat>, c: nat, d: nat): set<nat>
  {
    set x | x in s && cfg.depth(x, seed + 5 * c) == d
  }

  lemma AtPosition(cfg: Config, seed: nat, s: set<nat>, c: nat, d: nat)
    requires c < cfg.columns && d < cfg.guesses
    ensures c * cfg.guesses + d < Tracked(cfg)
    ensures At(cfg, seed, s, c * cfg.guesses + d) == AtDepth(cfg, seed, s, c, d)
  {
    SketchObject.Position(cfg, c, d);
  }

  /** The sketch of a set: bucket c * guesses + d holds the members of depth d in column c, and the
      last one holds all. */
  lemma BucketHolds(cfg: Config, seed: nat, s: set<nat>, c: nat, d: nat)
    requires c < cfg.columns && d < cfg.guesses
    ensures |BucketsOf(cfg, seed, s)| == cfg.columns * cfg.guesses + 1 && c * cfg.guesses + d < cfg.columns * cfg.guesses
    ensures BucketsOf(cfg, seed, s)[c * cfg.guesses + d] == Contents(cfg, seed, AtDepth(cfg, seed, s, c, d))
    ensures BucketsOf(cfg, seed, s)[cfg.columns * cfg.guesses] == Contents(cfg, seed, s)
  {
    AtPosition(cfg, seed, s, c, d);
    FoldIsContents(cfg, seed, AtDepth(cfg, seed, s, c, d));
    FoldIsContents(cfg, seed, s);
    LastBucket(cfg, seed, s);
  }

  /** After any updates of an empty sketch each bucket holds just the indices met an odd number of
      times that have its depth in its column. */
  lemma UpdatesLand(cfg: Config, seed: nat, xs: seq<nat>, c: nat, d: nat)
    requires c < cfg.columns && d < cfg.guesses
    ensures var bs := UpdateAll(cfg, seed, seq(NumElems(cfg), b => EMPTY), xs);
      && |bs| == cfg.columns * cfg.guesses + 1 && c * cfg.guesses + d < cfg.columns * cfg.guesses
      && bs[c * cfg.guesses + d] == Contents(cfg, seed, AtDepth(cfg, seed, OddOnes(xs), c, d))
      && bs[cfg.columns * cfg.guesses] == Contents(cfg, seed, OddOnes(xs))
  {
    EmptySketch(cfg, seed);
    UpdatesGiveParity(cfg, seed, {}, xs);
    assert SymDiff({}, OddOnes(xs)) == OddOnes(xs);
    BucketHolds(cfg, seed, OddOnes(xs), c, d);
  }

  lemma EmptySketch(cfg: Config, seed: nat)
    ensures seq(NumElems(cfg), b => EMPTY) == BucketsOf(cfg, seed, {})
  {
    forall b: nat | b < NumElems(cfg)
      ensures BucketsOf(cfg, seed, {})[b] == EMPTY
    {
      assert At(cfg, seed, {}, b) == {};
    }
  }

  /** One update, bucket by bucket: the last bucket takes x, and so does in every column the bucket
      of its depth there, if there is one; all others stay. */
  lemma UpdateLands(cfg: Config, seed: nat, bs: seq<Bucket>, x: nat, c: nat, d: nat)
    requires |bs| == NumElems(cfg) && c < cfg.columns && d < cfg.guesses
    ensures var r, b, last := UpdateBuckets(cfg, seed, bs, x), c * cfg.guesses + d, cfg.columns * cfg.guesses;
      && b < last < |r| == |bs|
      && r[b] == (if cfg.depth(x, seed + 5 * c) == d
                  then Bucket(Xor(bs[b].a, x), Xor(bs[b].c, cfg.checksum(x, seed))) else bs[b])
      && r[last] == Bucket(Xor(bs[last].a, x), Xor(bs[last].c, cfg.checksum(x, seed)))
  {
    SketchObject.Position(cfg, c, d);
  }

  // ---------- which index a query finds ----------

  /** x is the only member of depth d in column c. */
  ghost predicate Alone(cfg: Config, seed: nat, s: set<nat>, c: nat, d: nat, x: nat)
  {
    && c < cfg.columns && d < cfg.guesses
    && x in s && cfg.depth(x, seed + 5 * c) == d
    && forall y | y in s && cfg.depth(y, seed + 5 * c) == d :: y == x
  }

  /** Column by column, and in a column by depth. */
  predicate Earlier(c: nat, d: nat, c': nat, d': nat)
  {
    c < c' || (c == c' && d < d')
  }

  lemma AloneAt(cfg: Config, seed: nat, s: set<nat>, c: nat, d: nat, x: nat)
    requires c < cfg.columns && d < cfg.guesses
    ensures Alone(cfg, seed, s, c, d, x) <==> AtDepth(cfg, seed, s, c, d) == {x}
  {
    var here := AtDepth(cfg, seed, s, c, d);
    if here == {x} {
      assert x in here;
      forall y | y in s && cfg.depth(y, seed + 5 * c) == d
        ensures y == x
      {
        assert y in here;
      }
    }
  }

  /** On a faithful set, a tracked bucket is good exactly if a single member lands there, and then it
      reports that member. */
  lemma GoodIffAlone(cfg: Config, seed: nat, s: set<nat>, c: nat, d: nat)
    requires Faithful(cfg, seed, s) && c < cfg.columns && d < cfg.guesses
    ensures c * cfg.guesses + d < Tracked(cfg)
    ensures var k := BucketsOf(cfg, seed, s)[c * cfg.guesses + d];
      && (IsGood(cfg, seed, k) ==> Alone(cfg, seed, s, c, d, k.a))
      && (forall x | Alone(cfg, seed, s, c, d, x) :: IsGood(cfg, seed, k) && k.a == x)
  {
    AtPosition(cfg, seed, s, c, d);
    var here := AtDepth(cfg, seed, s, c, d);
    var k := Fold(cfg, seed, here);
    assert BucketTrue(cfg, seed, At(cfg, seed, s, c * cfg.guesses + d));
    AloneAt(cfg, seed, s, c, d, k.a);
    forall x | Alone(cfg, seed, s, c, d, x)
      ensures IsGood(cfg, seed, k) && k.a == x
    {
      AloneAt(cfg, seed, s, c, d, x);
      FoldOne(cfg, seed, x);
    }
  }

  /** The deterministic bucket is good exactly for a single member. */
  lemma LastGoodIff(cfg: Config, seed: nat, s: set<nat>)
    requires Faithful(cfg, seed, s)
    ensures var k := BucketsOf(cfg, seed, s)[Tracked(cfg)];
      && (k == EMPTY <==> s == {})
      && (IsGood(cfg, seed, k) ==> s == {k.a})
      && (forall x | s == {x} :: IsGood(cfg, seed, k) && k.a == x)
  {
    LastBucket(cfg, seed, s);
    assert BucketTrue(cfg, seed, At(cfg, seed, s, Tracked(cfg)));
    forall x | s == {x}
      ensures Fold(cfg, seed, s) == Single(cfg, seed, x)
    {
      FoldOne(cfg, seed, x);
    }
  }

  lemma ScanFirst(cfg: Config, seed: nat, bs: seq<Bucket>, j: nat) returns (b: nat)
    requires |bs| > 0
    ensures var r := Scan(cfg, seed, bs, j);
      if r.1 == FAIL then forall k | j <= k < |bs| - 1 :: !IsGood(cfg, seed, bs[k])
      else
        && r.1 == GOOD && j <= b < |bs| - 1 && IsGood(cfg, seed, bs[b]) && r.0 == bs[b].a
        && forall k | j <= k < b :: !IsGood(cfg, seed, bs[k])
    decreases |bs| - j
  {
    b := j;
    if j < |bs| - 1 && !IsGood(cfg, seed, bs[j]) { b := ScanFirst(cfg, seed, bs, j + 1); }
  }

  lemma EarlierIff(cfg: Config, c: nat, d: nat, c': nat, d': nat)
    requires d < cfg.guesses && d' < cfg.guesses
    ensures Earlier(c, d, c', d') <==> c * cfg.guesses + d < c' * cfg.guesses + d'
  {
    SketchObject.Multiples(c, c', cfg.guesses);
    SketchObject.Multiples(c', c, cfg.guesses);
  }

  /** x is alone at (c, d), and nobody is anywhere earlier. */
  ghost predicate FirstAlone(cfg: Config, seed: nat, s: set<nat>, c: nat, d: nat, x: nat)
  {
    Alone(cfg, seed, s, c, d, x) && forall c': nat, d': nat, y: nat | Earlier(c', d', c, d) :: !Alone(cfg, seed, s, c', d', y)
  }

  lemma FirstGood(cfg: Config, seed: nat, s: set<nat>, b: nat) returns (c: nat, d: nat)
    requires Faithful(cfg, seed, s) && b < Tracked(cfg) && IsGood(cfg, seed, BucketsOf(cfg, seed, s)[b])
    requires forall k | 0 <= k < b :: !IsGood(cfg, seed, BucketsOf(cfg, seed, s)[k])
    ensures FirstAlone(cfg, seed, s, c, d, BucketsOf(cfg, seed, s)[b].a)
  {
    c, d := GoodIsAlone(cfg, seed, s, b);
    forall c': nat, d': nat, y: nat | Earlier(c', d', c, d)
      ensures !Alone(cfg, seed, s, c', d', y)
    {
      NobodyEarlier(cfg, seed, s, b, c, d, c', d', y);
    }
  }

  lemma NobodyEarlier(cfg: Config, seed: nat, s: set<nat>, b: nat, c: nat, d: nat, c': nat, d': nat, y: nat)
    requires Faithful(cfg, seed, s) && b == c * cfg.guesses + d < Tracked(cfg) && d < cfg.guesses && Earlier(c', d', c, d)
    requires forall k | 0 <= k < b :: !IsGood(cfg, seed, BucketsOf(cfg, seed, s)[k])
    ensures !Alone(cfg, seed, s, c', d', y)
  {
    if Alone(cfg, seed, s, c', d', y) {
      EarlierIff(cfg, c', d', c, d);
      GoodIffAlone(cfg, seed, s, c', d');
    }
  }

  lemma NoneGood(cfg: Config, seed: nat, s: set<nat>, c: nat, d: nat, x: nat)
    requires Faithful(cfg, seed, s) && forall k | 0 <= k < Tracked(cfg) :: !IsGood(cfg, seed, BucketsOf(cfg, seed, s)[k])
    ensures !Alone(cfg, seed, s, c, d, x)
  {
    if Alone(cfg, seed, s, c, d, x) { GoodIffAlone(cfg, seed, s, c, d); }
  }

  /** On a faithful set of two or more, a query returns the member that is alone at the earliest
      column and depth, and fails exactly if there is none. */
  lemma QueryFindsFirst(cfg: Config, seed: nat, s: set<nat>)
    requires Faithful(cfg, seed, s) && |s| >= 2
    ensures var (x, ret) := QueryBuckets(cfg, seed, BucketsOf(cfg, seed, s));
      && (ret == FAIL <==> forall c: nat, d: nat, y: nat :: !Alone(cfg, seed, s, c, d, y))
      && (ret != FAIL ==> ret == GOOD && exists c: nat, d: nat :: FirstAlone(cfg, seed, s, c, d, x))
  {
    var bs := BucketsOf(cfg, seed, s);
    TwoOrMore(s);
    LastGoodIff(cfg, seed, s);
    var b := ScanFirst(cfg, seed, bs, 0);
    if Scan(cfg, seed, bs, 0).1 == FAIL {
      forall c: nat, d: nat, y: nat
        ensures !Alone(cfg, seed, s, c, d, y)
      {
        NoneGood(cfg, seed, s, c, d, y);
      }
    } else {
      var c, d := FirstGood(cfg, seed, s, b);
      assert Alone(cfg, seed, s, c, d, bs[b].a);
    }
  }

  lemma TwoOrMore(s: set<nat>)
    requires |s| >= 2
    ensures s != {} && forall x :: s != {x}
  {
    forall x
      ensures s != {x}
    {
      assert |{x}| == 1;
    }
  }

  lemma NoneOrOne(s: set<nat>)
    requires |s| < 2
    ensures s == {} || exists x :: s == {x}
  {
    if s != {} {
      var x :| x in s;
      assert |s - {x}| == 0;
      assert s == {x};
    }
  }

  /** A query on a faithful set is answered exactly if the set is empty, has one member, or has a
      member that is alone somewhere. */
  lemma QueryAnswersIff(cfg: Config, seed: nat, s: set<nat>)
    requires Faithful(cfg, seed, s)
    ensures var (x, ret) := QueryBuckets(cfg, seed, BucketsOf(cfg, seed, s));
      && (ret == ZERO <==> s == {})
      && (|s| == 1 ==> ret == GOOD && s == {x})
      && (ret != FAIL <==> |s| < 2 || exists c: nat, d: nat, y: nat :: Alone(cfg, seed, s, c, d, y))
  {
    LastGoodIff(cfg, seed, s);
    if |s| < 2 { NoneOrOne(s); } else { QueryFindsFirst(cfg, seed, s); }
  }

  /** The exhaustive query returns exactly the members that are alone somewhere, or the only one. */
  lemma ExhaustiveFindsAll(cfg: Config, seed: nat, s: set<nat>)
    requires Faithful(cfg, seed, s)
    ensures var (xs, ret) := ExhaustiveBuckets(cfg, seed, BucketsOf(cfg, seed, s));
      && (|s| < 2 ==> xs == s)
      && (|s| >= 2 ==> forall x: nat :: x in xs <==> exists c: nat, d: nat :: Alone(cfg, seed, s, c, d, x))
      && ret == (if s == {} then ZERO else if xs == {} then FAIL else GOOD)
  {
    LastGoodIff(cfg, seed, s);
    if |s| < 2 {
      NoneOrOne(s);
    } else {
      TwoOrMore(s);
      var bs := BucketsOf(cfg, seed, s);
      var found := GoodOnes(cfg, seed, bs, Tracked(cfg));
      forall x: nat
        ensures x in found <==> exists c: nat, d: nat :: Alone(cfg, seed, s, c, d, x)
      {
        GoodOnesAlone(cfg, seed, s, x);
      }
    }
  }

  lemma GoodOnesAlone(cfg: Config, seed: nat, s: set<nat>, x: nat)
    requires Faithful(cfg, seed, s)
    ensures x in GoodOnes(cfg, seed, BucketsOf(cfg, seed, s), Tracked(cfg)) <==> exists c: nat, d: nat :: Alone(cfg, seed, s, c, d, x)
  {
    var bs := BucketsOf(cfg, seed, s);
    var found := GoodOnes(cfg, seed, bs, Tracked(cfg));
    if x in found {
      var b :| 0 <= b < Tracked(cfg) && IsGood(cfg, seed, bs[b]) && bs[b].a == x;
      var c, d := GoodIsAlone(cfg, seed, s, b);
    }
    if c: nat, d: nat :| Alone(cfg, seed, s, c, d, x) { AloneIsGood(cfg, seed, s, c, d, x); }
  }

  lemma AloneIsGood(cfg: Config, seed: nat, s: set<nat>, c: nat, d: nat, x: nat)
    requires Faithful(cfg, seed, s) && Alone(cfg, seed, s, c, d, x)
    ensures x in GoodOnes(cfg, seed, BucketsOf(cfg, seed, s), Tracked(cfg))
  {
    GoodIffAlone(cfg, seed, s, c, d);
  }

  lemma GoodIsAlone(cfg: Config, seed: nat, s: set<nat>, b: nat) returns (c: nat, d: nat)
    requires Faithful(cfg, seed, s) && b < Tracked(cfg) && IsGood(cfg, seed, BucketsOf(cfg, seed, s)[b])
    ensures b == c * cfg.guesses + d && Alone(cfg, seed, s, c, d, BucketsOf(cfg, seed, s)[b].a)
  {
    SketchObject.PositionOf(cfg, b);
    c, d := b / Guesses(cfg), b % Guesses(cfg);
    GoodIffAlone(cfg, seed, s, c, d);
  }

  // ---------- the sketches of a supernode ----------

  /** Sketch i of a supernode works with seed base + i * columns. */
  lemma NodeBuckets(cfg: Config, xs: seq<nat>, i: nat, c: nat, d: nat, seed: nat, bs: seq<Bucket>)
    requires i < cfg.sketches && c < cfg.columns && d < cfg.guesses && seed == cfg.base + i * cfg.columns
    requires bs == UpdateNode(cfg, Fresh(cfg), xs).sketches[i].buckets
    ensures UpdateNode(cfg, Fresh(cfg), xs).sketches[i].seed == seed
    ensures |bs| == cfg.columns * cfg.guesses + 1 && c * cfg.guesses + d < cfg.columns * cfg.guesses
    ensures bs[c * cfg.guesses + d] == Contents(cfg, seed, AtDepth(cfg, seed, OddOnes(xs), c, d))
    ensures bs[cfg.columns * cfg.guesses] == Contents(cfg, seed, OddOnes(xs))
  {
    FreshSketch(cfg, xs, i, seed);
    UpdatesLand(cfg, seed, xs, c, d);
  }

  lemma FreshSketch(cfg: Config, xs: seq<nat>, i: nat, seed: nat)
    requires i < cfg.sketches && seed == SeedOf(cfg, i)
    ensures var k := UpdateNode(cfg, Fresh(cfg), xs).sketches[i];
      k.seed == seed && k.buckets == UpdateAll(cfg, seed, seq(NumElems(cfg), b => EMPTY), xs)
  {
    assert Fresh(cfg).sketches[i].buckets == seq(NumElems(cfg), b => EMPTY);
  }

  /** Exhaustive sampling of a supernode that represents two or more indices returns exactly those
      that are alone somewhere in its next sketch. */
  lemma NodeFindsAll(cfg: Config, s: Supernode, what: set<nat>, seed: nat, xs: set<nat>)
    requires Represents(cfg, s, what) && AllFaithful(cfg, what) && s.sampleIdx < s.merged && |what| >= 2
    requires seed == cfg.base + s.sampleIdx * cfg.columns && xs == ExhaustiveNode(cfg, s).2
    ensures forall x: nat :: x in xs <==> exists c: nat, d: nat :: Alone(cfg, seed, what, c, d, x)
  {
    assert Faithful(cfg, SeedOf(cfg, s.sampleIdx), what);
    NextSketch(cfg, s, what, seed);
    ExhaustiveFindsAll(cfg, seed, what);
  }

  lemma NextSketch(cfg: Config, s: Supernode, what: set<nat>, seed: nat)
    requires Represents(cfg, s, what) && s.sampleIdx < s.merged && seed == SeedOf(cfg, s.sampleIdx)
    ensures ExhaustiveNode(cfg, s).2 == ExhaustiveBuckets(cfg, seed, BucketsOf(cfg, seed, what)).0
  {
  }
}
