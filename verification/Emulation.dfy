/** The whole Boruvka emulation on a faithful graph: what holds from round to round, what holds
    when it ends, and what it leaves for restoring the supernodes. */
module Emulation {
  import opened Bits
  import opened Edges
  import opened Connectivity
  import opened DisjointSets
  import opened Answers
  import opened Sketches
  import opened Supernodes
  import opened Rounds
  import opened RoundSteps
  import opened Progress

  /** A round that went through: sampling, unions, merging. */
  ghost predicate RoundDone(cfg: Config, d0: Dsu, forest0: set<nat>, reps: seq<nat>, nodes: seq<Supernode>,
                            sampled: seq<Supernode>, query: seq<Sampled>, m: Merging, nodes': seq<Supernode>)
  {
    && SampledFrom(cfg, reps, nodes, sampled, query)
    && (forall i | i in reps :: i < |query| && query[i].Sample?)
    && RoundShape(d0, forest0, reps, query, m)
    && MergedFrom(cfg, sampled, m.toMerge, nodes')
  }

  /** Before the first round every node is its own root and representative. */
  lemma StartInv(cfg: Config, edges: set<nat>, n: nat, reps: seq<nat>, nodes: seq<Supernode>)
    requires Simple(edges, n) && |nodes| == n
    requires |reps| == n && forall v | 0 <= v < n :: reps[v] == v
    requires forall v: nat | v < n :: Represents(cfg, nodes[v], Cut(edges, {v}))
    ensures Inv(cfg, edges, Singletons(n), {}, reps, nodes, seq(n, v => {v}))
  {
    SpanningSingletons(n);
    SingletonsValid(n);
    var d, sides := Singletons(n), seq(n, v => {v});
    forall v: nat | v < n
      ensures sides[v] == Class(d, v) && Represents(cfg, nodes[v], Cut(edges, sides[v])) && v in reps
    {
      assert Class(d, v) == {v};
      assert reps[v] == v;
    }
  }

  // ---------- nothing goes wrong ----------

  /** A representative that samples ZERO is a root whose class is a whole component, also
      after the unions made so far in the round. */
  lemma ZeroIsComponent(edges: set<nat>, d0: Dsu, forest0: set<nat>, reps: seq<nat>, query: seq<Sampled>,
                        d: Dsu, forest: set<nat>, i: nat)
    requires Simple(edges, |d0.parent|) && Spanning(d0, forest0) && forest0 <= edges
    requires MidRound(d0, forest0, reps, query, d, forest) && forest <= edges
    requires i in Roots(d0) && Cut(edges, Class(d0, i)) == {}
    ensures IsComponent(Class(d, Root(d, i)), edges, |d0.parent|)
  {
    var n, c := |d0.parent|, Class(d0, i);
    assert Root(d0, i) == i;
    forall v: nat | v < n
      ensures v in c <==> Connected(edges, i, v)
      ensures v in Class(d, Root(d, i)) <==> v in c
    {
      if v in c { Monotone(forest0, edges, i, v); }
      if Connected(edges, i, v) { EmptyCutConfines(edges, n, c, i, v); }
      if Root(d, v) == Root(d, i) { Monotone(forest, edges, i, v); }
    }
    ComponentOf(c, edges, n, i);
    assert Class(d, Root(d, i)) == c;
  }

  lemma ComponentOf(c: set<nat>, edges: set<nat>, n: nat, i: nat)
    requires i in c && forall v | v in c :: v < n
    requires forall v: nat | v < n :: v in c <==> Connected(edges, i, v)
    ensures IsComponent(c, edges, n)
  {
    forall u: nat, v: nat | u in c && v < n
      ensures v in c <==> Connected(edges, u, v)
    {
      Symmetric(edges, i, u);
      if v in c { Transitive(edges, u, i, v); }
      if Connected(edges, u, v) { Transitive(edges, i, u, v); }
    }
  }

  /** On a faithful graph no sample is out of range, no sampled edge is missing from the graph,
      and no ZERO comes from an incomplete component. */
  lemma NoOffence(cfg: Config, edges: set<nat>, d0: Dsu, forest0: set<nat>, reps: seq<nat>, nodes: seq<Supernode>,
                  sides: seq<set<nat>>, query: seq<Sampled>, d: Dsu, forest: set<nat>, i: nat)
    requires FaithfulGraph(cfg, edges, |d0.parent|) && Inv(cfg, edges, d0, forest0, reps, nodes, sides)
    requires Truthful(edges, reps, query, sides) && MidRound(d0, forest0, reps, query, d, forest) && i in reps
    ensures query[i].ret == GOOD ==> Src(query[i].index) < |d.parent| && Dst(query[i].index) < |d.parent|
                                     && Adjacent(edges, Src(query[i].index), Dst(query[i].index))
    ensures query[i].ret == ZERO ==> IsComponent(Class(d, Root(d, i)), edges, |d.parent|)
  {
    HitsAreEdges(edges, |d0.parent|, reps, query, sides);
    if query[i].ret == GOOD {
      EdgeEnds(edges, |d0.parent|, query[i].index);
    } else if query[i].ret == ZERO {
      ZeroIsComponent(edges, d0, forest0, reps, query, d, forest, i);
    }
  }

  // ---------- backups ----------

  /** The copies and the untouched supernodes together still hold everything there was. */
  ghost predicate Restorable(orig: seq<Supernode>, nodes: seq<Supernode>, backed: seq<nat>, copies: map<nat, Supernode>)
  {
    && OthersKept(orig, nodes, backed)
    && (forall v | 0 <= v < |nodes| :: Disciplined(nodes[v]))
    && (forall v | v in backed :: v < |orig| && v in copies && SameContent(orig[v], copies[v]) && Disciplined(copies[v]))
  }

  /** Content, discipline: all that is needed for a reset to bring a supernode back. */
  ghost predicate Restored(orig: seq<Supernode>, nodes: seq<Supernode>)
  {
    |orig| == |nodes| && forall v | 0 <= v < |orig| :: SameContent(orig[v], nodes[v]) && Disciplined(nodes[v])
  }

  ghost predicate BackedUp(edges: set<nat>, orig: seq<Supernode>, d: Dsu, nodes: seq<Supernode>,
                           first: bool, backed: seq<nat>, copies: map<nat, Supernode>)
  {
    && Forest(d) && Restorable(orig, nodes, backed, copies)
    && (first ==> backed == [])
    && (!first ==> forall r | r in Active(edges, d) :: r in backed)
  }

  lemma FirstBackup(cfg: Config, edges: set<nat>, orig: seq<Supernode>, sampled: seq<Supernode>,
                    m: Merging, nodes': seq<Supernode>, copies: map<nat, Supernode>)
    requires OthersKept(orig, sampled, []) && MergedFrom(cfg, sampled, m.toMerge, nodes') && Forest(m.d)
    requires forall v | 0 <= v < |nodes'| :: Disciplined(nodes'[v])
    requires forall v | v in m.reps :: v < |orig| && v in copies && GoodCopy(sampled[v], copies[v])
    requires forall v: nat | MergedInto(m.toMerge, v) :: v in m.reps
    requires forall r | r in Active(edges, m.d) :: r in m.reps
    ensures BackedUp(edges, orig, m.d, nodes', false, m.reps, copies)
  {
    forall v: nat | v < |orig| && v !in m.reps
      ensures SameContent(orig[v], nodes'[v])
    {
      assert !MergedInto(m.toMerge, v);
    }
  }

  lemma LaterBackup(cfg: Config, edges: set<nat>, orig: seq<Supernode>, d0: Dsu, sampled: seq<Supernode>,
                    m: Merging, nodes': seq<Supernode>, backed: seq<nat>, copies: map<nat, Supernode>)
    requires Simple(edges, |d0.parent|) && BackedUp(edges, orig, d0, sampled, false, backed, copies)
    requires Lists(d0, m.d, m.toMerge) && Spanning(m.d, m.forest) && m.forest <= edges
    requires MergedFrom(cfg, sampled, m.toMerge, nodes') && forall v | 0 <= v < |nodes'| :: Disciplined(nodes'[v])
    ensures BackedUp(edges, orig, m.d, nodes', false, backed, copies)
  {
    MergingKeepsOthers(cfg, edges, d0, m.d, m.forest, m.toMerge, orig, sampled, nodes', backed);
  }

  // ---------- the loop ----------

  /** The bound on the sketches used after k rounds without failures. */
  ghost predicate OnBudget(cfg: Config, edges: set<nat>, d: Dsu, nodes: seq<Supernode>, k: nat)
  {
    Forest(d) && UsedAtMost(cfg, nodes, k) && Shrunk(edges, d, k) && (k > 0 ==> Pow2(k) <= |d.parent|)
  }

  /** After a round without failures that modified something, one more round is paid for. */
  lemma BudgetStep(cfg: Config, edges: set<nat>, d0: Dsu, forest0: set<nat>, reps: seq<nat>, nodes: seq<Supernode>,
                     sides: seq<set<nat>>, sampled: seq<Supernode>, query: seq<Sampled>, m: Merging,
                     nodes': seq<Supernode>, k: nat)
    requires FaithfulGraph(cfg, edges, |d0.parent|) && Inv(cfg, edges, d0, forest0, reps, nodes, sides)
    requires RoundDone(cfg, d0, forest0, reps, nodes, sampled, query, m, nodes') && Truthful(edges, reps, query, sides)
    requires OnBudget(cfg, edges, d0, nodes, k) && m.modified && forall i | i in reps :: !Failed(query, i)
    ensures OnBudget(cfg, edges, m.d, nodes', k + 1)
  {
    HitsAreEdges(edges, |d0.parent|, reps, query, sides);
    RoundUsesOne(cfg, reps, nodes, sampled, query, m.toMerge, nodes', k);
    ActiveHalves(edges, d0, forest0, reps, query, sides, m);
    ModifiedHadActive(edges, d0, forest0, reps, query, m);
    ShrinkStep(|Active(edges, d0)|, |Active(edges, m.d)|, k, |d0.parent|);
  }

  lemma BudgetStart(cfg: Config, edges: set<nat>, n: nat, nodes: seq<Supernode>)
    requires n <= NODE_SPACE && UsedAtMost(cfg, nodes, 0)
    ensures OnBudget(cfg, edges, Singletons(n), nodes, 0)
  {
    SingletonsValid(n);
    NodesBelow(n, Active(edges, Singletons(n)));
  }

  /** A power of two above n is a sketch count above the base-2 logarithm of n. */
  lemma BudgetSuffices(cfg: Config, edges: set<nat>, d: Dsu, nodes: seq<Supernode>, k: nat)
    requires OnBudget(cfg, edges, d, nodes, k) && |d.parent| < Pow2(cfg.sketches) && 0 < |d.parent|
    ensures k < cfg.sketches
  {
    if k >= cfg.sketches && k > 0 {
      Pow2Monotone(cfg.sketches, k);
    }
  }
}
