/** src/supernode.cpp, include/supernode.h as an object that owns sketch objects: its loops call the
    methods of the sketches, which change their arrays in place, and refine the functions on supernode
    values. The two supernodes of a merge may be one and the same. */
module SupernodeObject {
  import opened Basics
  import opened Sketches
  import opened Supernodes
  import O = SketchObject

  /** The value a sketch object stands for. */
  ghost function Value(s: O.Sketch): Sketch
    requires s.Shaped()
    reads s, s.bucketA, s.bucketC
  {
    Sketch(s.seed, s.Buckets(), s.alreadyQueried)
  }

  /** Sketch objects of one supernode: configured alike, seeded in order, sharing no memory. */
  ghost predicate Row(cfg: Config, sketches: seq<O.Sketch>)
  {
    && (forall i | 0 <= i < |sketches| ::
          sketches[i].Shaped() && sketches[i].cfg == cfg && sketches[i].seed == SeedOf(cfg, i))
    && forall i, j | 0 <= i < j < |sketches| :: Unrelated(sketches[i], sketches[j])
  }

  ghost predicate Unrelated(s: O.Sketch, t: O.Sketch)
  {
    s != t && O.Separate(s, t)
  }

  class Node {
    const cfg: Config
    const sketches: seq<O.Sketch>
    var sampleIdx: nat
    var merged: nat

    /** The sketches and their arrays. */
    ghost function Parts(): set<object>
    {
      (set i | 0 <= i < |sketches| :: sketches[i] as object) + (set i | 0 <= i < |sketches| :: sketches[i].bucketA as object)
        + (set i | 0 <= i < |sketches| :: sketches[i].bucketC as object)
    }

    ghost predicate Built()
    {
      |sketches| == cfg.sketches && Row(cfg, sketches)
    }

    ghost predicate Valid()
      reads this
    {
      Built() && merged <= cfg.sketches && sampleIdx <= cfg.sketches
    }

    ghost function At(k: nat): Sketch
      requires Built() && k < |sketches|
      reads sketches[k], sketches[k].bucketA, sketches[k].bucketC
    {
      Value(sketches[k])
    }

    ghost function Values(): (vs: seq<Sketch>)
      requires Built()
      reads Parts()
      ensures |vs| == |sketches|
    {
      seq(|sketches|, k requires 0 <= k < |sketches| && Built() reads Parts() => At(k))
    }

    ghost function State(): (s: Supernode)
      requires Built()
      reads this, Parts()
      ensures merged <= cfg.sketches ==> Shaped(cfg, s)
    {
      Supernode(sampleIdx, merged, Values())
    }

    /** A new supernode; the seed grows by the number of columns from sketch to sketch. */
    constructor (cfg: Config)
      ensures Valid() && fresh(Parts()) && this.cfg == cfg && State() == Fresh(cfg)
    {
      this.cfg := cfg;
      sampleIdx, merged := 0, cfg.sketches;
      var seed, made: seq<O.Sketch> := cfg.base, [];
      for i := 0 to cfg.sketches
        invariant |made| == i && seed == SeedOf(cfg, i) && Row(cfg, made)
        invariant forall k | 0 <= k < i :: fresh(made[k]) && fresh(made[k].bucketA) && fresh(made[k].bucketC)
        invariant forall k | 0 <= k < i :: Value(made[k]) == Fresh(cfg).sketches[k]
      {
        var s := new O.Sketch(cfg, seed);
        EmptyBuckets(cfg, seed);
        made := made + [s];
        seed := seed + cfg.columns;
      }
      sketches := made;
    }

    /** A copy forgets which sketches have been queried. */
    constructor Copy(other: Node)
      requires other.Valid()
      ensures Valid() && fresh(Parts()) && cfg == other.cfg && State() == CopyNode(other.State())
    {
      cfg, sampleIdx, merged := other.cfg, other.sampleIdx, other.merged;
      var made: seq<O.Sketch> := [];
      for i := 0 to |other.sketches|
        invariant |made| == i && Row(other.cfg, made)
        invariant forall k | 0 <= k < i :: fresh(made[k]) && fresh(made[k].bucketA) && fresh(made[k].bucketC)
        invariant forall k | 0 <= k < i :: Value(made[k]) == other.At(k).(queried := false)
      {
        var s := new O.Sketch.Copy(other.sketches[i]);
        made := made + [s];
      }
      sketches := made;
    }

    /** Hand a query to the next sketch of the window. */
    method Sample() returns (r: Sampled)
      requires Valid()
      modifies this`sampleIdx, Parts()
      ensures Valid() && (State(), r) == SampleNode(cfg, old(State()))
    {
      ghost var was := State();
      if sampleIdx >= merged { return OutOfQueries; }
      var i := sampleIdx;
      sampleIdx := sampleIdx + 1;
      var q := sketches[i].Query();
      assert forall k | 0 <= k < |sketches| && k != i :: At(k) == was.sketches[k];
      assert At(i) == was.sketches[i].(queried := true);
      assert Values() == was.sketches[i := was.sketches[i].(queried := true)];
      match q {
        case Threw =>
          assert was.sketches[i := was.sketches[i]] == was.sketches;
          return MultipleQuery;
        case Got(x, ret) => return Supernodes.Sample(x, ret);
      }
    }

    /** An early answer leaves the sketch unmarked; the window moves on all the same. */
    method ExhaustiveSample() returns (r: Sampled, edges: set<nat>)
      requires Valid()
      modifies this`sampleIdx, Parts()
      ensures Valid() && (State(), r, edges) == ExhaustiveNode(cfg, old(State()))
    {
      ghost var was := State();
      if sampleIdx >= merged { return OutOfQueries, {}; }
      var i := sampleIdx;
      sampleIdx := sampleIdx + 1;
      var q := sketches[i].ExhaustiveQuery();
      assert forall k | 0 <= k < |sketches| && k != i :: At(k) == was.sketches[k];
      assert At(i) == was.sketches[i].(queried := sketches[i].alreadyQueried);
      assert Values() == was.sketches[i := At(i)];
      match q {
        case Threw =>
          assert was.sketches[i := was.sketches[i]] == was.sketches;
          return MultipleQuery, {};
        case Got(xs, ret) => return Supernodes.Sample(0, ret), xs;
      }
    }

    /** Two supernodes are the same, or have nothing in common. */
    ghost predicate Compatible(other: Node)
    {
      other.cfg == cfg && (other != this ==> Parts() !! other.Parts())
    }

    lemma PartsSeparate(other: Node, i: nat, k: nat)
      requires Built() && other.Built() && Compatible(other) && other != this && i < cfg.sketches && k < cfg.sketches
      ensures Unrelated(sketches[i], other.sketches[k])
    {
      var s, t := sketches[i], other.sketches[k];
      assert s in Parts() && s.bucketA in Parts() && s.bucketC in Parts();
      assert t in other.Parts() && t.bucketA in other.Parts() && t.bucketC in other.Parts();
    }

    lemma PartsAllSeparate(other: Node, i: nat)
      requires Built() && other.Built() && Compatible(other) && other != this && i < cfg.sketches
      ensures forall k: nat | k < cfg.sketches :: Unrelated(sketches[i], other.sketches[k])
    {
      forall k: nat | k < cfg.sketches
        ensures Unrelated(sketches[i], other.sketches[k])
      {
        PartsSeparate(other, i, k);
      }
    }

    method Merge(other: Node)
      requires Valid() && other.Valid() && Compatible(other)
      modifies this, Parts()
      ensures Valid() && State() == MergeNode(cfg, old(State()), old(other.State()))
    {
      AddFrom(other, Max(sampleIdx, other.sampleIdx), Min(merged, other.merged));
    }

    /** The end of the window is the caller's word; past the sketches there are, it would read beyond them. */
    method RangeMerge(other: Node, start: nat, num: nat)
      requires Valid() && other.Valid() && Compatible(other) && start + num <= cfg.sketches
      modifies this, Parts()
      ensures Valid() && State() == RangeMergeNode(cfg, old(State()), old(other.State()), start, num)
    {
      AddFrom(other, Max(sampleIdx, other.sampleIdx), start + num);
    }

    /** The loop of both merges. */
    method AddFrom(other: Node, from: nat, to: nat)
      requires Valid() && other.Valid() && Compatible(other) && from <= cfg.sketches && to <= cfg.sketches
      modifies this, Parts()
      ensures Valid() && State() == AddWindow(cfg, old(State()), old(other.State()), from, to)
    {
      ghost var s, t := State(), other.State();
      NothingAdded(other, s, t, from);
      AddRange(other, s.sketches, t.sketches, from, to);
      SumsAreWindow(s, t, from, to);
      sampleIdx, merged := from, to;
    }

    lemma NothingAdded(other: Node, s: Supernode, t: Supernode, from: nat)
      requires Built() && other.Built() && Shaped(cfg, s) && Shaped(cfg, t)
      requires s.sketches == Values() && t.sketches == other.Values() && other.cfg == cfg
      ensures Sums(s.sketches, t.sketches, from, from) && other.Holding(t.sketches)
    {
    }

    lemma SumsAreWindow(s: Supernode, t: Supernode, from: nat, to: nat)
      requires Shaped(cfg, s) && Shaped(cfg, t) && to <= cfg.sketches && Sums(s.sketches, t.sketches, from, to)
      ensures Values() == AddWindow(cfg, s, t, from, to).sketches
    {
    }

    /** The loop over the sketches from `from` up to `to`. */
    method AddRange(other: Node, ghost mine: seq<Sketch>, ghost theirs: seq<Sketch>, from: nat, to: nat)
      requires Built() && other.Built() && Compatible(other) && to <= cfg.sketches
      requires Sums(mine, theirs, from, from) && (if other == this then mine == theirs else other.Holding(theirs))
      modifies Parts()
      ensures Sums(mine, theirs, from, to)
    {
      var i := from;
      while i < to
        invariant i == from || from < i <= to
        invariant Sums(mine, theirs, from, i) && (other != this ==> other.Holding(theirs))
      {
        AddApart(other, mine, theirs, from, i);
        i := i + 1;
      }
    }

    /** The sketches are these. */
    ghost predicate Holding(values: seq<Sketch>)
      reads Parts()
    {
      Built() && |values| == |sketches| && forall k | 0 <= k < |sketches| :: At(k) == values[k]
    }

    /** Those from `from` up to i have been added to. */
    ghost predicate Sums(mine: seq<Sketch>, theirs: seq<Sketch>, from: nat, i: nat)
      reads Parts()
    {
      && Built() && |mine| == |theirs| == |sketches|
      && (forall k | 0 <= k < |sketches| :: |mine[k].buckets| == |theirs[k].buckets| > 0)
      && forall k | 0 <= k < |sketches| :: At(k) == if from <= k < i then AddSketch(mine[k], theirs[k]) else mine[k]
    }

    /** Nodes that own different sketches, or one node with itself. */
    method AddApart(other: Node, ghost mine: seq<Sketch>, ghost theirs: seq<Sketch>, ghost from: nat, i: nat)
      requires Built() && other.Built() && Compatible(other) && from <= i < cfg.sketches
      requires Sums(mine, theirs, from, i) && (if other == this then mine == theirs else other.Holding(theirs))
      modifies sketches[i], sketches[i].bucketA, sketches[i].bucketC
      ensures Sums(mine, theirs, from, i + 1) && (other != this ==> other.Holding(theirs))
    {
      if other != this { PartsAllSeparate(other, i); }
      AddAt(other, mine, theirs, from, i);
    }

    method AddAt(other: Node, ghost mine: seq<Sketch>, ghost theirs: seq<Sketch>, ghost from: nat, i: nat)
      requires Built() && other.Built() && other.cfg == cfg && from <= i < cfg.sketches
      requires Sums(mine, theirs, from, i) && (if other == this then mine == theirs else other.Holding(theirs))
      requires other != this ==> forall k: nat | k < cfg.sketches :: Unrelated(sketches[i], other.sketches[k])
      modifies sketches[i], sketches[i].bucketA, sketches[i].bucketC
      ensures Sums(mine, theirs, from, i + 1) && (other != this ==> other.Holding(theirs))
    {
      assert At(i) == mine[i] && other.At(i) == theirs[i];
      sketches[i].Add(other.sketches[i]);
      assert At(i) == AddSketch(mine[i], theirs[i]);
      forall k: nat | k < |sketches| && k != i
        ensures At(k) == old(At(k))
      {
        assert Unrelated(sketches[Min(i, k)], sketches[Max(i, k)]);
      }
      forall k: nat | k < |sketches| && other != this
        ensures other.At(k) == old(other.At(k))
      {
        assert Unrelated(sketches[i], other.sketches[k]);
      }
    }

    method Update(x: nat)
      requires Valid()
      modifies Parts()
      ensures State() == UpdateNode(cfg, old(State()), [x])
    {
      ghost var was := Values();
      for i := 0 to |sketches|
        invariant forall k | 0 <= k < |sketches| ::
          At(k) == if k < i then was[k].(buckets := UpdateBuckets(cfg, was[k].seed, was[k].buckets, x)) else was[k]
      {
        UpdateAt(x, i);
      }
      forall k | 0 <= k < |sketches|
        ensures UpdateBuckets(cfg, was[k].seed, was[k].buckets, x) == UpdateAll(cfg, was[k].seed, was[k].buckets, [x])
      {
        assert [x][..0] == [];
      }
      assert Values() == UpdateNode(cfg, old(State()), [x]).sketches;
    }

    method UpdateAt(x: nat, i: nat)
      requires Built() && i < |sketches|
      modifies sketches[i].bucketA, sketches[i].bucketC
      ensures At(i) == old(At(i)).(buckets := UpdateBuckets(cfg, old(At(i)).seed, old(At(i)).buckets, x))
      ensures forall k: nat | k < |sketches| && k != i :: At(k) == old(At(k))
    {
      sketches[i].Update(x);
      forall k: nat | k < |sketches| && k != i
        ensures At(k) == old(At(k))
      {
        assert Unrelated(sketches[Min(i, k)], sketches[Max(i, k)]);
      }
    }

    /** The batches of delta_supernode: every sketch takes all of them. */
    method BatchUpdate(xs: seq<nat>)
      requires Valid()
      modifies Parts()
      ensures State() == UpdateNode(cfg, old(State()), xs)
    {
      ghost var was := Values();
      for i := 0 to |sketches|
        invariant forall k | 0 <= k < |sketches| ::
          At(k) == if k < i then was[k].(buckets := UpdateAll(cfg, was[k].seed, was[k].buckets, xs)) else was[k]
      {
        BatchAt(xs, i);
      }
      assert Values() == UpdateNode(cfg, old(State()), xs).sketches;
    }

    method BatchAt(xs: seq<nat>, i: nat)
      requires Built() && i < |sketches|
      modifies sketches[i].bucketA, sketches[i].bucketC
      ensures At(i) == old(At(i)).(buckets := UpdateAll(cfg, old(At(i)).seed, old(At(i)).buckets, xs))
      ensures forall k: nat | k < |sketches| && k != i :: At(k) == old(At(k))
    {
      sketches[i].BatchUpdate(xs);
      forall k: nat | k < |sketches| && k != i
        ensures At(k) == old(At(k))
      {
        assert Unrelated(sketches[Min(i, k)], sketches[Max(i, k)]);
      }
    }

    method ApplyDeltaUpdate(delta: Node)
      requires Valid() && delta.Valid() && Compatible(delta)
      modifies Parts()
      ensures State() == ApplyDelta(cfg, old(State()), old(delta.State()))
    {
      ghost var s, t := State(), delta.State();
      NothingAdded(delta, s, t, 0);
      AddRange(delta, s.sketches, t.sketches, 0, |sketches|);
      SumsAreWindow(s, t, 0, cfg.sketches);
    }

    method ResetQueryState()
      requires Valid()
      modifies this`sampleIdx, Parts()
      ensures Valid() && State() == ResetNode(old(State()))
    {
      ghost var was := Values();
      for i := 0 to sampleIdx
        invariant forall k | 0 <= k < |sketches| :: At(k) == if k < i then was[k].(queried := false) else was[k]
      {
        ResetAt(i);
      }
      assert Values() == ResetNode(old(State())).sketches;
      sampleIdx := 0;
    }

    method ResetAt(i: nat)
      requires Built() && i < |sketches|
      modifies sketches[i]
      ensures At(i) == old(At(i)).(queried := false)
      ensures forall k: nat | k < |sketches| && k != i :: At(k) == old(At(k))
    {
      sketches[i].ResetQueried();
      forall k: nat | k < |sketches| && k != i
        ensures At(k) == old(At(k))
      {
        assert Unrelated(sketches[Min(i, k)], sketches[Max(i, k)]);
      }
    }
  }

  /** delta_supernode: a new supernode that takes the batch. */
  method DeltaSupernode(cfg: Config, updates: seq<nat>) returns (delta: Node)
    ensures fresh(delta) && fresh(delta.Parts()) && delta.Valid() && delta.cfg == cfg
    ensures delta.State() == DeltaNode(cfg, updates)
  {
    delta := new Node(cfg);
    delta.BatchUpdate(updates);
  }

  lemma EmptyBuckets(cfg: Config, seed: nat)
    ensures BucketsOf(cfg, seed, {}) == seq(NumElems(cfg), b => EMPTY)
  {
    forall b: nat | b < NumElems(cfg)
      ensures BucketsOf(cfg, seed, {})[b] == EMPTY
    {
      assert Sketches.At(cfg, seed, {}, b) == {};
    }
  }
}
