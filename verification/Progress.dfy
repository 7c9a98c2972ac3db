/** How fast the Boruvka emulation goes: it stops on every run, it needs at most logarithmically
    many sketches when no sample fails, and only backed-up supernodes are ever merged into. */
module Progress {
  import opened Bits
  import opened Edges
  import opened Connectivity
  import opened DisjointSets
  import opened Sketches
  import opened Supernodes
  import opened Rounds

  // ---------- termination on every run ----------

  function Remaining(s: Supernode): nat
  {
    if s.sampleIdx < s.merged then s.merged - s.sampleIdx else 0
  }

  function Total(nodes: seq<Supernode>): nat
  {
    if nodes == [] then 0 else Total(nodes[..|nodes| - 1]) + Remaining(nodes[|nodes| - 1])
  }

  lemma {:induction false} TotalDrops(nodes: seq<Supernode>, nodes': seq<Supernode>)
    requires |nodes| == |nodes'|
    requires forall v | 0 <= v < |nodes| :: Remaining(nodes'[v]) <= Remaining(nodes[v])
    ensures Total(nodes') <= Total(nodes)
    ensures (exists v :: 0 <= v < |nodes| && Remaining(nodes'[v]) < Remaining(nodes[v])) ==> Total(nodes') < Total(nodes)
  {
    if nodes != [] {
      var k := |nodes| - 1;
      TotalDrops(nodes[..k], nodes'[..k]);
      if v :| 0 <= v < |nodes| && Remaining(nodes'[v]) < Remaining(nodes[v]) {
        if v < k {
          assert Remaining(nodes'[..k][v]) < Remaining(nodes[..k][v]);
        }
      }
    }
  }

  lemma {:induction false} MergingNeverAddsSamples(cfg: Config, nodes: seq<Supernode>, s: Supernode, list: seq<nat>)
    requires PoolShaped(cfg, nodes) && Shaped(cfg, s) && forall k | 0 <= k < |list| :: list[k] < |nodes|
    ensures Remaining(MergeAll(cfg, nodes, s, list)) <= Remaining(s)
  {
    if list != [] { MergingNeverAddsSamples(cfg, nodes, s, list[..|list| - 1]); }
  }

  /** A round in which every representative could be sampled uses samples up, truthful or not. */
  lemma RoundUsesSamples(cfg: Config, reps: seq<nat>, nodes: seq<Supernode>, sampled: seq<Supernode>,
                         query: seq<Sampled>, toMerge: seq<seq<nat>>, nodes': seq<Supernode>)
    requires SampledFrom(cfg, reps, nodes, sampled, query) && MergedFrom(cfg, sampled, toMerge, nodes')
    requires reps != [] && reps[0] < |nodes| && query[reps[0]].Sample?
    ensures Total(nodes') < Total(nodes)
  {
    forall v | 0 <= v < |nodes|
      ensures Remaining(nodes'[v]) <= Remaining(sampled[v]) <= Remaining(nodes[v])
    {
      MergingNeverAddsSamples(cfg, sampled, sampled[v], toMerge[v]);
    }
    var r := reps[0];
    assert Remaining(sampled[r]) < Remaining(nodes[r]);
    TotalDrops(nodes, nodes');
  }

  /** A round that modified something leaves someone to sample. */
  lemma ModifiedHasReps(d0: Dsu, forest0: set<nat>, reps: seq<nat>, query: seq<Sampled>, m: Merging)
    requires RoundShape(d0, forest0, reps, query, m) && m.modified
    ensures m.reps != []
  {
    if i :| i in reps && Failed(query, i) {
      assert InNewReps(reps, query, m.toMerge, i);
    } else {
      var a :| MergedInto(m.toMerge, a);
      assert InNewReps(reps, query, m.toMerge, a);
    }
  }

  // ---------- active roots ----------

  /** The roots whose class still has edges leaving it. */
  ghost function Active(edges: set<nat>, d: Dsu): set<nat>
    requires Forest(d)
  {
    set r | r in Roots(d) && Cut(edges, Class(d, r)) != {}
  }

  /** An edge out of a class leads into another: nobody is active alone. */
  lemma NotAlone(edges: set<nat>, d: Dsu, r: nat)
    requires Simple(edges, |d.parent|) && Forest(d) && r in Active(edges, d)
    ensures 2 <= |Active(edges, d)|
  {
    var e :| e in Cut(edges, Class(d, r));
    var u, v := Src(e), Dst(e);
    var r' := if u in Class(d, r) then Root(d, v) else Root(d, u);
    assert r' != r && e in Cut(edges, Class(d, r'));
    TwoMembers(Active(edges, d), r, r');
  }

  /** The classes are the components exactly if nobody is active. */
  lemma NoneActiveIff(edges: set<nat>, d: Dsu, forest: set<nat>)
    requires Simple(edges, |d.parent|) && Spanning(d, forest) && forest <= edges
    ensures Components(d, edges) <==> Active(edges, d) == {}
  {
    if Active(edges, d) == {} {
      forall r | r in Roots(d)
        ensures Cut(edges, Class(d, r)) == {}
      {
        assert r !in Active(edges, d);
      }
      ClosedClassesAreComponents(edges, d, forest);
    } else {
      var r :| r in Active(edges, d);
      var e :| e in Cut(edges, Class(d, r));
      EdgeEnds(edges, |d.parent|, e);
      OneEdge(edges, Src(e), Dst(e));
    }
  }

  /** Both parties to a merge were active. */
  lemma MergersWereActive(edges: set<nat>, d0: Dsu, d: Dsu, forest: set<nat>, toMerge: seq<seq<nat>>, a: nat, x: nat)
    requires Simple(edges, |d0.parent|) && Lists(d0, d, toMerge) && Spanning(d, forest) && forest <= edges
    requires a < |toMerge| && x in toMerge[a]
    ensures a in Active(edges, d0) && x in Active(edges, d0) && a != x && a in Roots(d) && x !in Roots(d)
  {
    assert ListOk(d0, d, a, toMerge[a]);
    assert Root(d, x) == a && a in Roots(d) && x in Roots(d0);
    assert Root(d0, x) == x && Root(d0, a) == a;
    Monotone(forest, edges, a, x);
    Monotone(forest, edges, x, a);
    if Cut(edges, Class(d0, a)) == {} { EmptyCutConfines(edges, |d0.parent|, Class(d0, a), a, x); }
    if Cut(edges, Class(d0, x)) == {} { EmptyCutConfines(edges, |d0.parent|, Class(d0, x), x, a); }
  }

  lemma ActiveWasActive(edges: set<nat>, d0: Dsu, d: Dsu, forest: set<nat>, toMerge: seq<seq<nat>>, r: nat)
    requires Simple(edges, |d0.parent|) && Lists(d0, d, toMerge) && Spanning(d, forest) && forest <= edges
    requires r in Active(edges, d)
    ensures r in Active(edges, d0)
  {
    if toMerge[r] == [] {
      UnmergedClass(d0, d, toMerge, r);
    } else {
      MergersWereActive(edges, d0, d, forest, toMerge, r, toMerge[r][0]);
    }
  }

  // ---------- at most half the roots stay active ----------

  lemma {:induction false} ImageSize(s: set<nat>, f: map<nat, nat>, image: set<nat>)
    requires forall x | x in s :: x in f && f[x] in image
    requires forall x, y | x in s && y in s && f[x] == f[y] :: x == y
    ensures |s| <= |image|
  {
    if s != {} {
      var x :| x in s;
      ImageSize(s - {x}, f, image - {f[x]});
    }
  }

  /** A root that stays active has absorbed another that was active. */
  lemma ActivePartner(edges: set<nat>, d0: Dsu, forest0: set<nat>, reps: seq<nat>, query: seq<Sampled>,
                      sides: seq<set<nat>>, m: Merging, r: nat)
    requires Simple(edges, |d0.parent|) && RoundShape(d0, forest0, reps, query, m) && Truthful(edges, reps, query, sides)
    requires |sides| == |d0.parent| && forall x | x in Roots(d0) :: sides[x] == Class(d0, x)
    requires forall x | x in Active(edges, d0) :: x in reps
    requires m.forest <= edges && forall i | i in reps :: !Failed(query, i)
    requires r in Active(edges, m.d)
    ensures r in Active(edges, d0) && m.toMerge[r] != []
    ensures m.toMerge[r][0] in Active(edges, d0) - Active(edges, m.d) && Root(m.d, m.toMerge[r][0]) == r
  {
    ActiveWasActive(edges, d0, m.d, m.forest, m.toMerge, r);
    if m.toMerge[r] == [] {
      UnmergedFailed(edges, d0, forest0, reps, query, sides, m, r);
    }
    assert ListOk(d0, m.d, r, m.toMerge[r]);
    MergersWereActive(edges, d0, m.d, m.forest, m.toMerge, r, m.toMerge[r][0]);
  }

  lemma ActiveHalves(edges: set<nat>, d0: Dsu, forest0: set<nat>, reps: seq<nat>, query: seq<Sampled>,
                     sides: seq<set<nat>>, m: Merging)
    requires Simple(edges, |d0.parent|) && RoundShape(d0, forest0, reps, query, m) && Truthful(edges, reps, query, sides)
    requires |sides| == |d0.parent| && forall x | x in Roots(d0) :: sides[x] == Class(d0, x)
    requires forall x | x in Active(edges, d0) :: x in reps
    requires m.forest <= edges && forall i | i in reps :: !Failed(query, i)
    ensures 2 * |Active(edges, m.d)| <= |Active(edges, d0)|
  {
    var now, was, d, toMerge := Active(edges, m.d), Active(edges, d0), m.d, m.toMerge;
    forall r | r in now
      ensures r in was && toMerge[r] != [] && toMerge[r][0] in was - now && Root(d, toMerge[r][0]) == r
    {
      ActivePartner(edges, d0, forest0, reps, query, sides, m, r);
    }
    HalvesByPartner(was, now, map r | r in now :: toMerge[r][0]);
  }

  lemma HalvesByPartner(was: set<nat>, now: set<nat>, partner: map<nat, nat>)
    requires now <= was && forall r | r in now :: r in partner && partner[r] in was - now
    requires forall x, y | x in now && y in now && partner[x] == partner[y] :: x == y
    ensures 2 * |now| <= |was|
  {
    ImageSize(now, partner, was - now);
    assert was == now + (was - now);
  }

  /** After k rounds at most n / 2^k roots are active. */
  ghost predicate Shrunk(edges: set<nat>, d: Dsu, k: nat)
    requires Forest(d)
  {
    |Active(edges, d)| * Pow2(k) <= |d.parent|
  }

  lemma ShrinkStep(was: nat, now: nat, k: nat, n: nat)
    requires was * Pow2(k) <= n && 2 * now <= was
    ensures now * Pow2(k + 1) <= n
    ensures 2 <= was ==> Pow2(k + 1) <= n
  {
    assert 2 * now * Pow2(k) <= was * Pow2(k);
    assert now * Pow2(k + 1) == 2 * now * Pow2(k);
    if 2 <= was { assert 2 * Pow2(k) <= was * Pow2(k); }
  }

  /** A round without failures that modified something started from at least two active roots. */
  lemma ModifiedHadActive(edges: set<nat>, d0: Dsu, forest0: set<nat>, reps: seq<nat>, query: seq<Sampled>, m: Merging)
    requires Simple(edges, |d0.parent|) && RoundShape(d0, forest0, reps, query, m) && m.forest <= edges
    requires m.modified && forall i | i in reps :: !Failed(query, i)
    ensures 2 <= |Active(edges, d0)|
  {
    var a: nat :| MergedInto(m.toMerge, a);
    var x := m.toMerge[a][0];
    MergersWereActive(edges, d0, m.d, m.forest, m.toMerge, a, x);
    TwoMembers(Active(edges, d0), a, x);
  }

  lemma TwoMembers(s: set<nat>, a: nat, x: nat)
    requires a in s && x in s && a != x
    ensures 2 <= |s|
  {
    assert s == {a, x} + (s - {a, x});
  }

  /** No sketch of a cut of the graph fails. */
  ghost predicate NeverFails(cfg: Config, edges: set<nat>)
  {
    forall side: set<nat>, i: nat | i < cfg.sketches ::
      QueryBuckets(cfg, SeedOf(cfg, i), BucketsOf(cfg, SeedOf(cfg, i), Cut(edges, side))).1 != FAIL
  }

  /** No supernode has used more than k sketches. */
  ghost predicate UsedAtMost(cfg: Config, nodes: seq<Supernode>, k: nat)
  {
    forall v | 0 <= v < |nodes| :: nodes[v].sampleIdx <= k && nodes[v].merged == cfg.sketches
  }

  lemma {:induction false} MergeUses(cfg: Config, nodes: seq<Supernode>, s: Supernode, list: seq<nat>, k: nat)
    requires PoolShaped(cfg, nodes) && Shaped(cfg, s) && forall j | 0 <= j < |list| :: list[j] < |nodes|
    requires UsedAtMost(cfg, nodes, k) && s.sampleIdx <= k && s.merged == cfg.sketches
    ensures MergeAll(cfg, nodes, s, list).sampleIdx <= k && MergeAll(cfg, nodes, s, list).merged == cfg.sketches
  {
    if list != [] { MergeUses(cfg, nodes, s, list[..|list| - 1], k); }
  }

  lemma RoundUsesOne(cfg: Config, reps: seq<nat>, nodes: seq<Supernode>, sampled: seq<Supernode>,
                     query: seq<Sampled>, toMerge: seq<seq<nat>>, nodes': seq<Supernode>, k: nat)
    requires SampledFrom(cfg, reps, nodes, sampled, query) && MergedFrom(cfg, sampled, toMerge, nodes')
    requires UsedAtMost(cfg, nodes, k)
    ensures UsedAtMost(cfg, nodes', k + 1)
  {
    assert UsedAtMost(cfg, sampled, k + 1);
    forall v | 0 <= v < |nodes|
      ensures nodes'[v].sampleIdx <= k + 1 && nodes'[v].merged == cfg.sketches
    {
      MergeUses(cfg, sampled, sampled[v], toMerge[v], k + 1);
    }
  }

  /** Nobody fails, and while fewer than all sketches are used nobody runs out. */
  lemma SamplingSucceeds(cfg: Config, edges: set<nat>, reps: seq<nat>, nodes: seq<Supernode>,
                         sides: seq<set<nat>>, sampled: seq<Supernode>, query: seq<Sampled>, k: nat)
    requires SampledFrom(cfg, reps, nodes, sampled, query) && |sides| == |nodes|
    requires forall v | 0 <= v < |nodes| :: Represents(cfg, nodes[v], Cut(edges, sides[v]))
    requires forall i | i in reps :: i < |nodes|
    requires NeverFails(cfg, edges) && UsedAtMost(cfg, nodes, k)
    ensures forall i | i in reps :: !Failed(query, i) && (k < cfg.sketches ==> query[i].Sample?)
  {
    forall i | i in reps
      ensures !Failed(query, i) && (k < cfg.sketches ==> query[i].Sample?)
    {
      assert Represents(cfg, nodes[i], Cut(edges, sides[i]));
      var j := nodes[i].sampleIdx;
      if j < cfg.sketches {
        assert nodes[i].sketches[j].buckets == BucketsOf(cfg, SeedOf(cfg, j), Cut(edges, sides[i]));
      }
    }
  }

  // ---------- restoring the supernodes ----------

  /** Every node outside `backed` still has its original content. */
  ghost predicate OthersKept(orig: seq<Supernode>, nodes: seq<Supernode>, backed: seq<nat>)
  {
    |orig| == |nodes| && forall v | 0 <= v < |orig| && v !in backed :: SameContent(orig[v], nodes[v])
  }

  lemma SamplingKeepsContent(cfg: Config, reps: seq<nat>, orig: seq<Supernode>, nodes: seq<Supernode>,
                             sampled: seq<Supernode>, query: seq<Sampled>, backed: seq<nat>)
    requires SampledFrom(cfg, reps, nodes, sampled, query) && OthersKept(orig, nodes, backed)
    ensures OthersKept(orig, sampled, backed)
  {
  }

  /** Later rounds merge only into supernodes that were backed up after the first. */
  lemma MergingKeepsOthers(cfg: Config, edges: set<nat>, d0: Dsu, d: Dsu, forest: set<nat>, toMerge: seq<seq<nat>>,
                           orig: seq<Supernode>, nodes: seq<Supernode>, nodes': seq<Supernode>, backed: seq<nat>)
    requires Simple(edges, |d0.parent|) && Lists(d0, d, toMerge) && Spanning(d, forest) && forest <= edges
    requires MergedFrom(cfg, nodes, toMerge, nodes') && OthersKept(orig, nodes, backed)
    requires forall r | r in Active(edges, d0) :: r in backed
    ensures OthersKept(orig, nodes', backed)
    ensures forall r | r in Active(edges, d) :: r in backed
  {
    forall v: nat | v < |orig| && v !in backed
      ensures nodes'[v] == nodes[v]
    {
      if toMerge[v] != [] { MergersWereActive(edges, d0, d, forest, toMerge, v, toMerge[v][0]); }
    }
    forall r | r in Active(edges, d)
      ensures r in backed
    {
      ActiveWasActive(edges, d0, d, forest, toMerge, r);
    }
  }
}
