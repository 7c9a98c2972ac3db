/** The linear sketch as a value: an array of (XOR of indices, XOR of checksums) buckets,
    and what it means for it to represent a set of indices. */
module Sketches {
  import opened Bits
  import opened Edges

  /** The sizes, the base seed and the two hash functions. Both hashes take the index and a
      seed; nothing is known about them. A depth of `guesses` or more means "no bucket". */
  datatype Config = Config(columns: nat, guesses: nat, sketches: nat, base: nat,
                           checksum: (nat, nat) -> nat,
                           depth: (nat, nat) -> nat)

  datatype Bucket = Bucket(a: nat, c: nat)

  const EMPTY := Bucket(0, 0)

  function Tracked(cfg: Config): nat { cfg.columns * cfg.guesses }
  function NumElems(cfg: Config): nat { Tracked(cfg) + 1 }  // one more: the deterministic bucket
  function SeedOf(cfg: Config, i: nat): nat { cfg.base + i * cfg.columns }  // of sketch i of a supernode
  function ColumnSeed(seed: nat, column: nat): nat { seed + column * 5 }

  function Plus(x: Bucket, y: Bucket): Bucket
  {
    Bucket(Xor(x.a, y.a), Xor(x.c, y.c))
  }

  function Single(cfg: Config, seed: nat, x: nat): Bucket
  {
    Bucket(x, cfg.checksum(x, seed))
  }

  predicate IsGood(cfg: Config, seed: nat, b: Bucket)
  {
    b.c == cfg.checksum(b.a, seed)
  }

  // ---------- the bucket group ----------

  lemma PlusComm(x: Bucket, y: Bucket)
    ensures Plus(x, y) == Plus(y, x)
  {
    XorComm(x.a, y.a);
    XorComm(x.c, y.c);
  }

  lemma PlusAssoc(x: Bucket, y: Bucket, z: Bucket)
    ensures Plus(Plus(x, y), z) == Plus(x, Plus(y, z))
  {
    XorAssoc(x.a, y.a, z.a);
    XorAssoc(x.c, y.c, z.c);
  }

  lemma PlusEmpty(x: Bucket)
    ensures Plus(x, EMPTY) == x && Plus(EMPTY, x) == x
  {
    XorZero(x.a);
    XorZero(x.c);
  }

  lemma PlusCancel(x: Bucket, y: Bucket)
    ensures Plus(Plus(x, y), y) == x
  {
    PlusAssoc(x, y, y);
    XorSelf(y.a);
    XorSelf(y.c);
    PlusEmpty(x);
  }

  lemma PlusSwap(x: Bucket, y: Bucket, z: Bucket)
    ensures Plus(x, Plus(y, z)) == Plus(y, Plus(x, z))
  {
    PlusAssoc(x, y, z);
    PlusComm(x, y);
    PlusAssoc(y, x, z);
  }

  // ---------- folding a set of indices into a bucket ----------

  ghost function Fold(cfg: Config, seed: nat, s: set<nat>): Bucket
  {
    if s == {} then EMPTY else var x :| x in s; Plus(Single(cfg, seed, x), Fold(cfg, seed, s - {x}))
  }

  lemma {:induction false} FoldRemove(cfg: Config, seed: nat, s: set<nat>, y: nat)
    requires y in s
    ensures Fold(cfg, seed, s) == Plus(Single(cfg, seed, y), Fold(cfg, seed, s - {y}))
  {
    var x :| x in s && Fold(cfg, seed, s) == Plus(Single(cfg, seed, x), Fold(cfg, seed, s - {x}));
    if x != y {
      FoldRemove(cfg, seed, s - {x}, y);
      FoldRemove(cfg, seed, s - {y}, x);
      assert s - {x} - {y} == s - {y} - {x};
      PlusSwap(Single(cfg, seed, x), Single(cfg, seed, y), Fold(cfg, seed, s - {x} - {y}));
    }
  }

  lemma FoldToggle(cfg: Config, seed: nat, s: set<nat>, x: nat)
    ensures Fold(cfg, seed, Toggle(s, x)) == Plus(Fold(cfg, seed, s), Single(cfg, seed, x))
  {
    var one, rest := Single(cfg, seed, x), Fold(cfg, seed, s - {x});
    if x in s {
      FoldRemove(cfg, seed, s, x);
      PlusComm(one, rest);
      PlusCancel(rest, one);
    } else {
      FoldRemove(cfg, seed, s + {x}, x);
      assert s + {x} - {x} == s;
      PlusComm(one, Fold(cfg, seed, s));
    }
  }

  /** The central law: folding turns symmetric difference into bucket addition. */
  lemma {:induction false} FoldSymDiff(cfg: Config, seed: nat, s: set<nat>, t: set<nat>)
    ensures Fold(cfg, seed, SymDiff(s, t)) == Plus(Fold(cfg, seed, s), Fold(cfg, seed, t))
    decreases t
  {
    if t == {} {
      assert SymDiff(s, t) == s;
      PlusEmpty(Fold(cfg, seed, s));
    } else {
      var x :| x in t;
      var rest := t - {x};
      FoldSymDiff(cfg, seed, s, rest);
      assert SymDiff(s, t) == Toggle(SymDiff(s, rest), x);
      FoldToggle(cfg, seed, SymDiff(s, rest), x);
      FoldToggle(cfg, seed, rest, x);
      assert Toggle(rest, x) == t;
      PlusAssoc(Fold(cfg, seed, s), Fold(cfg, seed, rest), Single(cfg, seed, x));
    }
  }

  lemma FoldOne(cfg: Config, seed: nat, x: nat)
    ensures Fold(cfg, seed, {x}) == Single(cfg, seed, x)
  {
    FoldRemove(cfg, seed, {x}, x);
    assert {x} - {x} == {};
    PlusEmpty(Single(cfg, seed, x));
  }

  // ---------- the sketch of a set ----------

  /** Bucket b receives index x: always for the deterministic last bucket, otherwise when x
      has, in the column of b, exactly the depth of b. */
  predicate Lands(cfg: Config, seed: nat, x: nat, b: nat)
    requires b < NumElems(cfg)
  {
    b == Tracked(cfg) || cfg.depth(x, ColumnSeed(seed, b / Guesses(cfg))) == b % Guesses(cfg)
  }

  /** The number of guesses, or 1 when there are none and it is never divided by. */
  function Guesses(cfg: Config): (g: nat)
    ensures g > 0
  {
    if cfg.guesses == 0 then 1 else cfg.guesses
  }

  ghost function At(cfg: Config, seed: nat, s: set<nat>, b: nat): set<nat>
    requires b < NumElems(cfg)
  {
    set x | x in s && Lands(cfg, seed, x, b)
  }

  ghost function BucketsOf(cfg: Config, seed: nat, s: set<nat>): (bs: seq<Bucket>)
    ensures |bs| == NumElems(cfg)
  {
    seq(NumElems(cfg), b requires 0 <= b < NumElems(cfg) => Fold(cfg, seed, At(cfg, seed, s, b)))
  }

  lemma LastBucket(cfg: Config, seed: nat, s: set<nat>)
    ensures At(cfg, seed, s, Tracked(cfg)) == s
    ensures BucketsOf(cfg, seed, s)[Tracked(cfg)] == Fold(cfg, seed, s)
  {
  }

  /** What `update` does to the buckets. */
  function UpdateBuckets(cfg: Config, seed: nat, bs: seq<Bucket>, x: nat): (r: seq<Bucket>)
    requires |bs| == NumElems(cfg)
  {
    seq(|bs|, b requires 0 <= b < |bs| =>
      if Lands(cfg, seed, x, b) then Plus(bs[b], Single(cfg, seed, x)) else bs[b])
  }

  /** Updating toggles the index in the represented set. */
  lemma UpdateToggles(cfg: Config, seed: nat, s: set<nat>, x: nat)
    ensures UpdateBuckets(cfg, seed, BucketsOf(cfg, seed, s), x) == BucketsOf(cfg, seed, Toggle(s, x))
  {
    forall b: nat | b < NumElems(cfg)
      ensures UpdateBuckets(cfg, seed, BucketsOf(cfg, seed, s), x)[b] == BucketsOf(cfg, seed, Toggle(s, x))[b]
    {
      var here := At(cfg, seed, s, b);
      if Lands(cfg, seed, x, b) {
        assert At(cfg, seed, Toggle(s, x), b) == Toggle(here, x);
        FoldToggle(cfg, seed, here, x);
      } else {
        assert At(cfg, seed, Toggle(s, x), b) == here;
      }
    }
  }

  function UpdateAll(cfg: Config, seed: nat, bs: seq<Bucket>, xs: seq<nat>): (r: seq<Bucket>)
    requires |bs| == NumElems(cfg)
    ensures |r| == NumElems(cfg)
  {
    if xs == [] then bs else UpdateBuckets(cfg, seed, UpdateAll(cfg, seed, bs, xs[..|xs| - 1]), xs[|xs| - 1])
  }

  /** After any sequence of updates, the sketch is that of the indices of odd parity. */
  lemma {:induction false} UpdatesGiveParity(cfg: Config, seed: nat, s: set<nat>, xs: seq<nat>)
    ensures UpdateAll(cfg, seed, BucketsOf(cfg, seed, s), xs) == BucketsOf(cfg, seed, SymDiff(s, OddOnes(xs)))
  {
    if xs == [] {
      assert SymDiff(s, OddOnes(xs)) == s;
    } else {
      var init, x := xs[..|xs| - 1], xs[|xs| - 1];
      UpdatesGiveParity(cfg, seed, s, init);
      UpdateToggles(cfg, seed, SymDiff(s, OddOnes(init)), x);
      assert SymDiff(s, OddOnes(xs)) == Toggle(SymDiff(s, OddOnes(init)), x);
    }
  }

  /** Order is irrelevant and pairs cancel: only the parity of each index counts. */
  lemma UpdatesCommute(cfg: Config, seed: nat, s: set<nat>, xs: seq<nat>, ys: seq<nat>)
    requires forall x :: multiset(xs)[x] % 2 == multiset(ys)[x] % 2
    ensures UpdateAll(cfg, seed, BucketsOf(cfg, seed, s), xs) == UpdateAll(cfg, seed, BucketsOf(cfg, seed, s), ys)
  {
    forall x
      ensures x in OddOnes(xs) <==> x in OddOnes(ys)
    {
      OddOnesIsParity(xs, x);
      OddOnesIsParity(ys, x);
    }
    assert OddOnes(xs) == OddOnes(ys);
    UpdatesGiveParity(cfg, seed, s, xs);
    UpdatesGiveParity(cfg, seed, s, ys);
  }

  // ---------- merging ----------

  function AddBuckets(bs: seq<Bucket>, cs: seq<Bucket>): (r: seq<Bucket>)
    requires |bs| == |cs|
  {
    seq(|bs|, b requires 0 <= b < |bs| => Plus(bs[b], cs[b]))
  }

  /** What `+=` does: nothing at all when the other's deterministic bucket is zero. */
  function MergeBuckets(bs: seq<Bucket>, cs: seq<Bucket>): (r: seq<Bucket>)
    requires |bs| == |cs| > 0
    ensures |r| == |bs|
  {
    if cs[|cs| - 1] == EMPTY then bs else AddBuckets(bs, cs)
  }

  lemma AddIsSymDiff(cfg: Config, seed: nat, s: set<nat>, t: set<nat>)
    ensures AddBuckets(BucketsOf(cfg, seed, s), BucketsOf(cfg, seed, t)) == BucketsOf(cfg, seed, SymDiff(s, t))
  {
    forall b: nat | b < NumElems(cfg)
      ensures AddBuckets(BucketsOf(cfg, seed, s), BucketsOf(cfg, seed, t))[b] == BucketsOf(cfg, seed, SymDiff(s, t))[b]
    {
      assert At(cfg, seed, SymDiff(s, t), b) == SymDiff(At(cfg, seed, s, b), At(cfg, seed, t, b));
      FoldSymDiff(cfg, seed, At(cfg, seed, s, b), At(cfg, seed, t, b));
    }
  }

  /** If the deterministic bucket of t is zero then so are all others. */
  ghost predicate SkipHarmless(cfg: Config, seed: nat, t: set<nat>)
  {
    Fold(cfg, seed, t) == EMPTY ==> forall c | c in BucketsOf(cfg, seed, t) :: c == EMPTY
  }

  lemma EmptySkip(cfg: Config, seed: nat, t: set<nat>)
    requires Fold(cfg, seed, t) == EMPTY ==> t == {}
    ensures SkipHarmless(cfg, seed, t)
  {
    forall c | Fold(cfg, seed, t) == EMPTY && c in BucketsOf(cfg, seed, t)
      ensures c == EMPTY
    {
      var b :| 0 <= b < NumElems(cfg) && BucketsOf(cfg, seed, t)[b] == c;
      assert At(cfg, seed, t, b) == {};
    }
  }

  /** `+=` is symmetric difference exactly when the skip loses nothing: the deterministic
      bucket of the added sketch is non-zero, or all of its buckets are zero. */
  lemma MergeIsSymDiff(cfg: Config, seed: nat, s: set<nat>, t: set<nat>)
    ensures MergeBuckets(BucketsOf(cfg, seed, s), BucketsOf(cfg, seed, t)) == BucketsOf(cfg, seed, SymDiff(s, t))
            <==> SkipHarmless(cfg, seed, t)
  {
    var bs, cs := BucketsOf(cfg, seed, s), BucketsOf(cfg, seed, t);
    LastBucket(cfg, seed, t);
    AddIsSymDiff(cfg, seed, s, t);
    AddSame(bs, cs);
  }

  lemma AddSame(bs: seq<Bucket>, cs: seq<Bucket>)
    requires |bs| == |cs|
    ensures AddBuckets(bs, cs) == bs <==> forall c | c in cs :: c == EMPTY
  {
    forall b | 0 <= b < |bs|
      ensures AddBuckets(bs, cs)[b] == bs[b] <==> cs[b] == EMPTY
    {
      PlusSame(bs[b], cs[b]);
    }
    if forall c | c in cs :: c == EMPTY {
      assert forall b | 0 <= b < |bs| :: cs[b] in cs;
      assert AddBuckets(bs, cs) == bs;
    }
    if AddBuckets(bs, cs) == bs {
      forall c | c in cs
        ensures c == EMPTY
      {
        var b :| 0 <= b < |cs| && cs[b] == c;
        assert AddBuckets(bs, cs)[b] == bs[b];
      }
    }
  }

  lemma PlusSame(x: Bucket, y: Bucket)
    ensures Plus(x, y) == x <==> y == EMPTY
  {
    PlusEmpty(x);
    PlusComm(x, y);
    PlusCancel(y, x);
    XorSelf(x.a);
    XorSelf(x.c);
  }

  // ---------- querying ----------

  datatype SampleRet = GOOD | ZERO | FAIL

  /** The first good bucket from position j on, the deterministic one excluded. */
  function Scan(cfg: Config, seed: nat, bs: seq<Bucket>, j: nat): (nat, SampleRet)
    requires |bs| > 0
    decreases |bs| - j
  {
    if j >= |bs| - 1 then (0, FAIL)
    else if IsGood(cfg, seed, bs[j]) then (bs[j].a, GOOD)
    else Scan(cfg, seed, bs, j + 1)
  }

  function QueryBuckets(cfg: Config, seed: nat, bs: seq<Bucket>): (nat, SampleRet)
    requires |bs| > 0
  {
    var last := bs[|bs| - 1];
    if last == EMPTY then (0, ZERO)
    else if IsGood(cfg, seed, last) then (last.a, GOOD)
    else Scan(cfg, seed, bs, 0)
  }

  /** The indices reported by the good buckets among the first j. */
  function GoodOnes(cfg: Config, seed: nat, bs: seq<Bucket>, j: nat): set<nat>
    requires j <= |bs|
  {
    set b | 0 <= b < j && IsGood(cfg, seed, bs[b]) :: bs[b].a
  }

  function ExhaustiveBuckets(cfg: Config, seed: nat, bs: seq<Bucket>): (set<nat>, SampleRet)
    requires |bs| > 0
  {
    var last := bs[|bs| - 1];
    if last == EMPTY then ({}, ZERO)
    else if IsGood(cfg, seed, last) then ({last.a}, GOOD)
    else
      var found := GoodOnes(cfg, seed, bs, |bs| - 1);
      (found, if found == {} then FAIL else GOOD)
  }

  /** No harmful collision among the checksums of s: a zero deterministic bucket means the set
      is empty, and a bucket that looks good holds exactly the index it reports. (For an
      empty bucket the latter says that index 0 does not hash to 0.) */
  ghost predicate Faithful(cfg: Config, seed: nat, s: set<nat>)
  {
    && (Fold(cfg, seed, s) == EMPTY ==> s == {})
    && forall b: nat | b < NumElems(cfg) :: BucketTrue(cfg, seed, At(cfg, seed, s, b))
  }

  ghost predicate BucketTrue(cfg: Config, seed: nat, here: set<nat>)
  {
    var f := Fold(cfg, seed, here);
    IsGood(cfg, seed, f) ==> here == {f.a}
  }

  lemma {:induction false} ScanFinds(cfg: Config, seed: nat, bs: seq<Bucket>, j: nat)
    requires |bs| > 0
    ensures var r := Scan(cfg, seed, bs, j);
            && (r.1 == FAIL <==> forall b | j <= b < |bs| - 1 :: !IsGood(cfg, seed, bs[b]))
            && (r.1 == GOOD <==> exists b :: j <= b < |bs| - 1 && IsGood(cfg, seed, bs[b]) && bs[b].a == r.0)
            && r.1 != ZERO
    decreases |bs| - j
  {
    if j < |bs| - 1 && !IsGood(cfg, seed, bs[j]) {
      ScanFinds(cfg, seed, bs, j + 1);
    }
  }

  /** Some bucket, the deterministic one included, holds a single index. */
  ghost predicate Isolates(cfg: Config, seed: nat, s: set<nat>)
  {
    exists b: nat :: b < NumElems(cfg) && IsolatesAt(cfg, seed, s, b)
  }

  ghost predicate IsolatesAt(cfg: Config, seed: nat, s: set<nat>, b: nat)
    requires b < NumElems(cfg)
  {
    exists x :: At(cfg, seed, s, b) == {x}
  }

  lemma GoodIffIsolated(cfg: Config, seed: nat, s: set<nat>, b: nat)
    requires Faithful(cfg, seed, s) && b < NumElems(cfg)
    ensures IsGood(cfg, seed, BucketsOf(cfg, seed, s)[b]) <==> IsolatesAt(cfg, seed, s, b)
    ensures IsGood(cfg, seed, BucketsOf(cfg, seed, s)[b]) ==> BucketsOf(cfg, seed, s)[b].a in s
  {
    var here := At(cfg, seed, s, b);
    assert BucketTrue(cfg, seed, here);
    if IsGood(cfg, seed, Fold(cfg, seed, here)) {
      assert Fold(cfg, seed, here).a in here;
    }
    if IsolatesAt(cfg, seed, s, b) {
      var x :| here == {x};
      FoldOne(cfg, seed, x);
    }
  }

  /** A query tells an empty set from a non-empty one, returns only members, and fails
      exactly when no bucket isolates an index. */
  lemma QueryCorrect(cfg: Config, seed: nat, s: set<nat>)
    requires Faithful(cfg, seed, s)
    ensures var (x, ret) := QueryBuckets(cfg, seed, BucketsOf(cfg, seed, s));
            && (ret == ZERO <==> s == {})
            && (ret == GOOD ==> x in s)
            && (ret == FAIL <==> s != {} && !Isolates(cfg, seed, s))
  {
    var bs := BucketsOf(cfg, seed, s);
    LastBucket(cfg, seed, s);
    ScanFinds(cfg, seed, bs, 0);
    forall b: nat | b < NumElems(cfg)
      ensures IsGood(cfg, seed, bs[b]) <==> IsolatesAt(cfg, seed, s, b)
      ensures IsGood(cfg, seed, bs[b]) ==> bs[b].a in s
    {
      GoodIffIsolated(cfg, seed, s, b);
    }
  }

  /** The exhaustive query gives the same verdict, only members, and at least what the plain
      query gives. */
  lemma ExhaustiveAgrees(cfg: Config, seed: nat, s: set<nat>)
    ensures var (x, ret) := QueryBuckets(cfg, seed, BucketsOf(cfg, seed, s));
            var (xs, ret') := ExhaustiveBuckets(cfg, seed, BucketsOf(cfg, seed, s));
            && ret == ret'
            && (ret == GOOD <==> xs != {})
            && (ret == GOOD ==> x in xs)
            && (Faithful(cfg, seed, s) ==> xs <= s)
  {
    var bs := BucketsOf(cfg, seed, s);
    LastBucket(cfg, seed, s);
    ScanFinds(cfg, seed, bs, 0);
    var found := GoodOnes(cfg, seed, bs, |bs| - 1);
    assert forall b | 0 <= b < |bs| - 1 && IsGood(cfg, seed, bs[b]) :: bs[b].a in found;
    if Faithful(cfg, seed, s) {
      forall b: nat | b < NumElems(cfg)
        ensures IsGood(cfg, seed, bs[b]) ==> bs[b].a in s
      {
        GoodIffIsolated(cfg, seed, s, b);
      }
    }
  }

  // ---------- faithfulness can be met ----------

  /** Hash every index to its own bit. */
  ghost predicate OneBitEach(cfg: Config, seed: nat, rank: nat -> nat, s: set<nat>)
  {
    && (forall x, y | x in s && y in s && rank(x) == rank(y) :: x == y)
    && forall x :: cfg.checksum(x, seed) == Pow2(rank(x))
  }

  lemma {:induction false} FoldBits(cfg: Config, seed: nat, rank: nat -> nat, s: set<nat>, k: nat)
    requires OneBitEach(cfg, seed, rank, s)
    ensures Bit(Fold(cfg, seed, s).c, k) <==> exists x :: x in s && rank(x) == k
    decreases s
  {
    if s == {} {
      BitZero(k);
    } else {
      var y :| y in s;
      var rest := s - {y};
      FoldRemove(cfg, seed, s, y);
      FoldBits(cfg, seed, rank, rest, k);
      BitPow2(rank(y), k);
      BitXor(Pow2(rank(y)), Fold(cfg, seed, rest).c, k);
    }
  }

  lemma OneBitBucketTrue(cfg: Config, seed: nat, rank: nat -> nat, s: set<nat>)
    requires OneBitEach(cfg, seed, rank, s)
    ensures Fold(cfg, seed, s) == EMPTY ==> s == {}
    ensures BucketTrue(cfg, seed, s)
  {
    var f := Fold(cfg, seed, s);
    forall x | x in s
      ensures Bit(f.c, rank(x)) && f != EMPTY
      ensures IsGood(cfg, seed, f) ==> rank(x) == rank(f.a)
    {
      FoldBits(cfg, seed, rank, s, rank(x));
      BitZero(rank(x));
      BitPow2(rank(f.a), rank(x));
    }
    if IsGood(cfg, seed, f) {
      FoldBits(cfg, seed, rank, s, rank(f.a));
      BitPow2(rank(f.a), rank(f.a));
      var x :| x in s && rank(x) == rank(f.a);
      assert s == {x};
      FoldOne(cfg, seed, x);
    }
  }

  /** A checksum that gives each edge its own bit is faithful on every subset, whatever the
      depths; with at most 64 edges such a checksum fits a 64-bit word. */
  lemma FaithfulInstance(cfg: Config, seed: nat, rank: nat -> nat, edges: set<nat>, s: set<nat>)
    requires OneBitEach(cfg, seed, rank, edges) && s <= edges
    ensures Faithful(cfg, seed, s)
  {
    OneBitBucketTrue(cfg, seed, rank, s);
    forall b: nat | b < NumElems(cfg)
      ensures BucketTrue(cfg, seed, At(cfg, seed, s, b))
    {
      OneBitBucketTrue(cfg, seed, rank, At(cfg, seed, s, b));
    }
  }
}
