/** src/l0_sampling/sketch.cpp: the sketch as the source keeps it, two arrays changed in place. */
module SketchObject {
  import opened Bits
  import opened Sketches

  /** Splitting a bucket position into its column and its depth. */
  lemma Position(cfg: Config, column: nat, depth: nat)
    requires column < cfg.columns && depth < cfg.guesses
    ensures column * cfg.guesses + depth < Tracked(cfg)
    ensures (column * cfg.guesses + depth) / Guesses(cfg) == column
    ensures (column * cfg.guesses + depth) % Guesses(cfg) == depth
  {
    Multiples(column, cfg.columns, cfg.guesses);
    DivModUnique(column, depth, cfg.guesses);
  }

  lemma Multiples(a: nat, b: nat, g: nat)
    ensures a < b ==> a * g + g <= b * g
  {
    assert a < b ==> (a + 1) * g <= b * g;
  }

  lemma DivModUnique(q: nat, r: nat, g: nat)
    requires r < g
    ensures (q * g + r) / g == q && (q * g + r) % g == r
  {
    var b := q * g + r;
    assert b == b / g * g + b % g;
    Multiples(b / g, q, g);
    Multiples(q, b / g, g);
  }

  lemma PositionOf(cfg: Config, b: nat)
    requires b < Tracked(cfg)
    ensures cfg.guesses > 0 && b / Guesses(cfg) < cfg.columns && b % Guesses(cfg) < cfg.guesses
    ensures b == (b / Guesses(cfg)) * cfg.guesses + b % Guesses(cfg)
  {
    var g := cfg.guesses;
    assert cfg.columns * 0 == 0;
    var q := b / g;
    if q >= cfg.columns {
      assert q * g >= cfg.columns * g;
    }
  }

  /** Columns below i, and the deterministic bucket, have been updated with x. */
  ghost predicate UpdatedTo(cfg: Config, seed: nat, was: seq<Bucket>, now: seq<Bucket>, x: nat, i: nat)
  {
    && |was| == |now| == NumElems(cfg)
    && forall b: nat | b < NumElems(cfg) ::
         now[b] == if (b == Tracked(cfg) || b / Guesses(cfg) < i) && Lands(cfg, seed, x, b)
                   then Plus(was[b], Single(cfg, seed, x)) else was[b]
  }

  /** What the loop body does to column i. */
  function ColumnUpdate(cfg: Config, seed: nat, bs: seq<Bucket>, x: nat, i: nat): seq<Bucket>
    requires |bs| == NumElems(cfg) && i < cfg.columns
  {
    var depth := cfg.depth(x, ColumnSeed(seed, i));
    if depth < cfg.guesses then
      Position(cfg, i, depth);
      var b := i * cfg.guesses + depth;
      bs[b := Plus(bs[b], Single(cfg, seed, x))]
    else bs
  }

  lemma ColumnStep(cfg: Config, seed: nat, was: seq<Bucket>, now: seq<Bucket>, x: nat, i: nat)
    requires UpdatedTo(cfg, seed, was, now, x, i) && i < cfg.columns
    ensures UpdatedTo(cfg, seed, was, ColumnUpdate(cfg, seed, now, x, i), x, i + 1)
  {
    var depth := cfg.depth(x, ColumnSeed(seed, i));
    if depth < cfg.guesses { Position(cfg, i, depth); }
    forall b: nat | b < NumElems(cfg)
      ensures ColumnUpdate(cfg, seed, now, x, i)[b] ==
              if (b == Tracked(cfg) || b / Guesses(cfg) < i + 1) && Lands(cfg, seed, x, b)
              then Plus(was[b], Single(cfg, seed, x)) else was[b]
    {
      if b < Tracked(cfg) { PositionOf(cfg, b); }
    }
  }

  lemma AllColumns(cfg: Config, seed: nat, was: seq<Bucket>, now: seq<Bucket>, x: nat)
    requires UpdatedTo(cfg, seed, was, now, x, cfg.columns)
    ensures now == UpdateBuckets(cfg, seed, was, x)
  {
    forall b: nat | b < NumElems(cfg)
      ensures now[b] == UpdateBuckets(cfg, seed, was, x)[b]
    {
      if b < Tracked(cfg) { PositionOf(cfg, b); }
    }
  }

  lemma NextRow(cfg: Config, i: nat)
    requires i < cfg.columns
    ensures i * cfg.guesses + cfg.guesses == (i + 1) * cfg.guesses <= Tracked(cfg)
  {
    assert (i + 1) * cfg.guesses <= cfg.columns * cfg.guesses;
  }

  datatype Answer<T> = Threw | Got(value: T, ret: SampleRet)  // Threw: MultipleQueryException

  class Sketch {
    const cfg: Config
    const seed: nat
    const bucketA: array<nat>
    const bucketC: array<nat>
    var alreadyQueried: bool

    ghost predicate Shaped()
    {
      bucketA.Length == NumElems(cfg) && bucketC.Length == NumElems(cfg) && bucketA != bucketC
    }

    ghost function Buckets(): (bs: seq<Bucket>)
      requires Shaped()
      reads bucketA, bucketC
    {
      Zip(bucketA[..], bucketC[..])
    }

    constructor (cfg: Config, seed: nat)
      ensures this.cfg == cfg && this.seed == seed && !alreadyQueried
      ensures fresh(bucketA) && fresh(bucketC) && Shaped()
      ensures Buckets() == BucketsOf(cfg, seed, {})
    {
      this.cfg, this.seed, alreadyQueried := cfg, seed, false;
      bucketA := new nat[NumElems(cfg)](i => 0);
      bucketC := new nat[NumElems(cfg)](i => 0);
      new;
      forall b: nat | b < NumElems(cfg)
        ensures Buckets()[b] == BucketsOf(cfg, seed, {})[b]
      {
        assert At(cfg, seed, {}, b) == {};
      }
    }

    /** The copy constructor copies the buckets, not the flag. */
    constructor Copy(s: Sketch)
      requires s.Shaped()
      ensures cfg == s.cfg && seed == s.seed && !alreadyQueried
      ensures fresh(bucketA) && fresh(bucketC) && Shaped() && Buckets() == s.Buckets()
    {
      cfg, seed, alreadyQueried := s.cfg, s.seed, false;
      bucketA := new nat[NumElems(s.cfg)](i requires 0 <= i < NumElems(s.cfg) && s.Shaped() reads s.bucketA => s.bucketA[i]);
      bucketC := new nat[NumElems(s.cfg)](i requires 0 <= i < NumElems(s.cfg) && s.Shaped() reads s.bucketC => s.bucketC[i]);
      new;
      assert bucketA[..] == s.bucketA[..] && bucketC[..] == s.bucketC[..];
    }

    method XorInto(b: nat, x: Bucket)
      requires Shaped() && b < bucketA.Length
      modifies bucketA, bucketC
      ensures Buckets() == old(Buckets())[b := Plus(old(Buckets())[b], x)]
    {
      bucketA[b] := Xor(bucketA[b], x.a);
      bucketC[b] := Xor(bucketC[b], x.c);
    }

    method Update(x: nat)
      requires Shaped()
      modifies bucketA, bucketC
      ensures Buckets() == UpdateBuckets(cfg, seed, old(Buckets()), x)
    {
      ghost var was := Buckets();
      var one := Single(cfg, seed, x);
      assert UpdatedTo(cfg, seed, was, was[Tracked(cfg) := Plus(was[Tracked(cfg)], one)], x, 0);
      XorInto(Tracked(cfg), one);
      for i := 0 to cfg.columns
        invariant UpdatedTo(cfg, seed, was, Buckets(), x, i)
      {
        ColumnStep(cfg, seed, was, Buckets(), x, i);
        var depth := cfg.depth(x, ColumnSeed(seed, i));
        if depth < cfg.guesses {
          Position(cfg, i, depth);
          XorInto(i * cfg.guesses + depth, one);
        }
      }
      AllColumns(cfg, seed, was, Buckets(), x);
    }

    method BatchUpdate(xs: seq<nat>)
      requires Shaped()
      modifies bucketA, bucketC
      ensures Buckets() == UpdateAll(cfg, seed, old(Buckets()), xs)
    {
      ghost var was := Buckets();
      for i := 0 to |xs|
        invariant Buckets() == UpdateAll(cfg, seed, was, xs[..i])
      {
        assert xs[..i + 1][..i] == xs[..i];
        Update(xs[i]);
      }
      assert xs[..|xs|] == xs;
    }

    /** Answers at most once; leaves the buckets alone. */
    method Query() returns (r: Answer<nat>)
      requires Shaped()
      modifies this`alreadyQueried
      ensures r.Threw? <==> old(alreadyQueried)
      ensures alreadyQueried
      ensures r.Got? ==> (r.value, r.ret) == QueryBuckets(cfg, seed, Buckets())
    {
      if alreadyQueried { return Threw; }
      alreadyQueried := true;
      ghost var bs := Buckets();
      var last := Tracked(cfg);
      assert bs[last] == Bucket(bucketA[last], bucketC[last]);
      if bucketA[last] == 0 && bucketC[last] == 0 { return Got(0, ZERO); }
      if IsGood(cfg, seed, Bucket(bucketA[last], bucketC[last])) { return Got(bucketA[last], GOOD); }
      r := ScanColumns();
    }

    /** The two loops over the tracked buckets, column by column. */
    method ScanColumns() returns (r: Answer<nat>)
      requires Shaped()
      ensures r.Got? && (r.value, r.ret) == Scan(cfg, seed, Buckets(), 0)
    {
      ghost var bs := Buckets();
      for i := 0 to cfg.columns
        invariant Scan(cfg, seed, bs, 0) == Scan(cfg, seed, bs, i * cfg.guesses)
      {
        NextRow(cfg, i);
        for j := 0 to cfg.guesses
          invariant Scan(cfg, seed, bs, 0) == Scan(cfg, seed, bs, i * cfg.guesses + j)
        {
          var b := i * cfg.guesses + j;
          assert bs[b] == Bucket(bucketA[b], bucketC[b]);
          if IsGood(cfg, seed, Bucket(bucketA[b], bucketC[b])) {
            assert Scan(cfg, seed, bs, b) == (bucketA[b], GOOD);
            return Got(bucketA[b], GOOD);
          }
        }
      }
      return Got(0, FAIL);
    }

    /** The flag is raised only when neither early return is taken. */
    method ExhaustiveQuery() returns (r: Answer<set<nat>>)
      requires Shaped()
      modifies this`alreadyQueried
      ensures r.Threw? <==> old(alreadyQueried)
      ensures r.Got? ==> (r.value, r.ret) == ExhaustiveBuckets(cfg, seed, Buckets())
      ensures var last := Buckets()[Tracked(cfg)];
              alreadyQueried == (old(alreadyQueried) || (last != EMPTY && !IsGood(cfg, seed, last)))
    {
      if alreadyQueried { return Threw; }
      ghost var bs := Buckets();
      var last := Tracked(cfg);
      assert bs[last] == Bucket(bucketA[last], bucketC[last]);
      if bucketA[last] == 0 && bucketC[last] == 0 { return Got({}, ZERO); }
      if IsGood(cfg, seed, Bucket(bucketA[last], bucketC[last])) { return Got({bucketA[last]}, GOOD); }
      var found: set<nat> := {};
      for i := 0 to cfg.columns
        invariant i * cfg.guesses <= Tracked(cfg)
        invariant found == GoodOnes(cfg, seed, bs, i * cfg.guesses)
      {
        NextRow(cfg, i);
        for j := 0 to cfg.guesses
          invariant i * cfg.guesses + j <= Tracked(cfg)
          invariant found == GoodOnes(cfg, seed, bs, i * cfg.guesses + j)
        {
          var b := i * cfg.guesses + j;
          GoodOnesStep(cfg, seed, bs, b);
          assert bs[b] == Bucket(bucketA[b], bucketC[b]);
          if IsGood(cfg, seed, Bucket(bucketA[b], bucketC[b])) { found := found + {bucketA[b]}; }
        }
      }
      alreadyQueried := true;
      return Got(found, if found == {} then FAIL else GOOD);
    }

    /** The operator +=, also on a sketch and itself. Sharing a seed is what the source asserts. */
    method Add(other: Sketch)
      requires Shaped() && other.Shaped() && other.cfg == cfg && other.seed == seed
      requires other != this ==> Separate(this, other)
      modifies this`alreadyQueried, bucketA, bucketC
      ensures Buckets() == MergeBuckets(old(Buckets()), old(other.Buckets()))
      ensures alreadyQueried == (old(alreadyQueried) || old(other.alreadyQueried))
    {
      ghost var was, cs := Buckets(), other.Buckets();
      var n := NumElems(cfg);
      alreadyQueried := alreadyQueried || other.alreadyQueried;
      assert cs[n - 1] == Bucket(other.bucketA[n - 1], other.bucketC[n - 1]);
      if other.bucketA[n - 1] == 0 && other.bucketC[n - 1] == 0 { return; }
      for i := 0 to n
        modifies bucketA, bucketC
        invariant AddedTo(was, cs, Buckets(), i) && forall b | i <= b < n :: other.Buckets()[b] == cs[b]
      {
        assert cs[i] == other.Buckets()[i] == Bucket(other.bucketA[i], other.bucketC[i]);
        XorInto(i, Bucket(other.bucketA[i], other.bucketC[i]));
      }
      assert Buckets() == AddBuckets(was, cs);
    }

    method ResetQueried()
      modifies this`alreadyQueried
      ensures !alreadyQueried
    {
      alreadyQueried := false;
    }
  }

  /** Different sketches do not share memory. */
  predicate Separate(s: Sketch, t: Sketch)
  {
    s.bucketA != t.bucketA && s.bucketA != t.bucketC && s.bucketC != t.bucketA && s.bucketC != t.bucketC
  }

  ghost predicate AddedTo(was: seq<Bucket>, cs: seq<Bucket>, now: seq<Bucket>, i: nat)
  {
    && |was| == |cs| == |now|
    && forall b | 0 <= b < |was| :: now[b] == if b < i then Plus(was[b], cs[b]) else was[b]
  }

  lemma GoodOnesStep(cfg: Config, seed: nat, bs: seq<Bucket>, b: nat)
    requires b < |bs|
    ensures GoodOnes(cfg, seed, bs, b + 1) ==
            GoodOnes(cfg, seed, bs, b) + if IsGood(cfg, seed, bs[b]) then {bs[b].a} else {}
  {
  }

  function Zip(a: seq<nat>, c: seq<nat>): seq<Bucket>
    requires |a| == |c|
  {
    seq(|a|, i requires 0 <= i < |a| => Bucket(a[i], c[i]))
  }
}
