/** One round of the Boruvka emulation, on values: what supernodes_to_merge produces, what
    merge_supernodes makes of it, and why the invariant of the emulation survives both,
    failed samples and absorbed representatives included. */
module Rounds {
  import opened Basics
  import opened Edges
  import opened Connectivity
  import opened DisjointSets
  import opened Sketches
  import opened Supernodes

  lemma DistinctConcat(xs: seq<nat>, ys: seq<nat>)
    requires Distinct(xs) && Distinct(ys) && forall x | x in xs :: x !in ys
    ensures Distinct(xs + ys)
  {
    forall i, j | 0 <= i < j < |xs + ys|
      ensures (xs + ys)[i] != (xs + ys)[j]
    {
      if i < |xs| <= j {
        assert xs[i] in xs && ys[j - |xs|] in ys;
      }
    }
  }

  // ---------- the merge lists ----------

  /** The list of a: exactly the roots of d0, other than a, that a has since absorbed. */
  ghost predicate ListOk(d0: Dsu, d: Dsu, a: nat, list: seq<nat>)
    requires Forest(d0) && Forest(d) && |d0.parent| == |d.parent|
  {
    && Distinct(list)
    && forall x: nat :: x in list <==> x in Roots(d0) && x != a && Root(d, x) == a
  }

  ghost predicate Lists(d0: Dsu, d: Dsu, toMerge: seq<seq<nat>>)
  {
    && Forest(d0) && Forest(d) && |d0.parent| == |d.parent| == |toMerge|
    && Roots(d) <= Roots(d0)
    && (forall v: nat | v < |d.parent| :: Root(d, v) == Root(d, Root(d0, v)))
    && forall a: nat | a < |toMerge| :: ListOk(d0, d, a, toMerge[a])
  }

  lemma ListsStart(d0: Dsu, toMerge: seq<seq<nat>>)
    requires Forest(d0) && |toMerge| == |d0.parent|
    requires forall a | 0 <= a < |toMerge| :: toMerge[a] == []
    ensures Lists(d0, d0, toMerge)
  {
  }

  lemma ListsSameRoots(d0: Dsu, d: Dsu, d': Dsu, toMerge: seq<seq<nat>>)
    requires Lists(d0, d, toMerge) && Forest(d') && SameRoots(d, d')
    ensures Lists(d0, d', toMerge)
  {
    forall v | v in Roots(d')
      ensures v in Roots(d)
    {
      assert Root(d', v) == v;
    }
    forall a: nat | a < |toMerge|
      ensures ListOk(d0, d', a, toMerge[a])
    {
      assert ListOk(d0, d, a, toMerge[a]);
    }
  }

  /** b and everything merged into b move to the end of a's list. */
  function Absorb(toMerge: seq<seq<nat>>, a: nat, b: nat): seq<seq<nat>>
    requires a < |toMerge| && b < |toMerge|
  {
    toMerge[a := toMerge[a] + [b] + toMerge[b]][b := []]
  }

  lemma ListsJoin(d0: Dsu, d: Dsu, d': Dsu, toMerge: seq<seq<nat>>, a: nat, b: nat)
    requires Lists(d0, d, toMerge) && Joined(d, d', a, b) && Roots(d') == Roots(d) - {b}
    requires a in Roots(d) && b in Roots(d) && a != b
    ensures Lists(d0, d', Absorb(toMerge, a, b))
  {
    forall x: nat | x < |toMerge|
      ensures ListOk(d0, d', x, Absorb(toMerge, a, b)[x])
    {
      assert ListOk(d0, d, x, toMerge[x]);
      if x == a {
        AbsorbList(d0, d, d', toMerge[a], toMerge[b], a, b);
      }
    }
  }

  lemma AbsorbList(d0: Dsu, d: Dsu, d': Dsu, la: seq<nat>, lb: seq<nat>, a: nat, b: nat)
    requires Joined(d, d', a, b) && Forest(d0) && |d0.parent| == |d.parent|
    requires ListOk(d0, d, a, la) && ListOk(d0, d, b, lb)
    requires a in Roots(d) && b in Roots(d) * Roots(d0) && a != b
    ensures ListOk(d0, d', a, la + [b] + lb)
  {
    assert Root(d, a) == a && Root(d, b) == b;
    var list := la + [b] + lb;
    forall x: nat
      ensures x in list <==> x in Roots(d0) && x != a && Root(d', x) == a
    {
      assert x in list <==> x in la || x == b || x in lb;
    }
    DistinctConcat(la, [b]);
    DistinctConcat(la + [b], lb);
  }

  /** No two iterations of the parallel merge interfere: the lists are disjoint, and a node
      that is merged into is never itself merged from. */
  lemma MergeIsRaceFree(d0: Dsu, d: Dsu, toMerge: seq<seq<nat>>, a: nat, a': nat, x: nat)
    requires Lists(d0, d, toMerge) && a < |toMerge| && a' < |toMerge|
    requires x in toMerge[a]
    ensures x in toMerge[a'] ==> a == a'
    ensures x < |toMerge| && toMerge[x] == []
    ensures Distinct(toMerge[a])
  {
    assert ListOk(d0, d, a, toMerge[a]) && ListOk(d0, d, a', toMerge[a']);
    assert ListOk(d0, d, x, toMerge[x]);
    HasFirst(toMerge[x]);
  }

  lemma HasFirst(list: seq<nat>)
    ensures list != [] ==> list[0] in list
  {}

  // ---------- one round ----------

  /** What supernodes_to_merge leaves behind. */
  datatype Merging = Merging(d: Dsu, forest: set<nat>, toMerge: seq<seq<nat>>, reps: seq<nat>, modified: bool)

  predicate Failed(query: seq<Sampled>, i: nat)
  {
    i < |query| && query[i].Sample? && query[i].ret == FAIL
  }

  predicate Hit(query: seq<Sampled>, i: nat)
  {
    i < |query| && query[i].Sample? && query[i].ret == GOOD
  }

  /** The ids of the sampled edges. */
  ghost function Hits(query: seq<Sampled>, reps: seq<nat>): set<nat>
  {
    set i | i in reps && Hit(query, i) :: Id(Src(query[i].index), Dst(query[i].index))
  }

  /** Everything a round does to the union-find and the lists, whatever the samples are. */
  ghost predicate RoundShape(d0: Dsu, forest0: set<nat>, reps: seq<nat>, query: seq<Sampled>, m: Merging)
  {
    && Lists(d0, m.d, m.toMerge)
    && Spanning(m.d, m.forest)
    && forest0 <= m.forest <= forest0 + Hits(query, reps)
    && (forall i | i in reps && Hit(query, i) :: Joins(m.d, query[i].index))
    && Distinct(m.reps)
    && (forall x: nat :: x in m.reps <==> InNewReps(reps, query, m.toMerge, x))
    && (m.modified <==> (exists i :: i in reps && Failed(query, i)) || (exists a :: MergedInto(m.toMerge, a)))
  }

  predicate MergedInto(toMerge: seq<seq<nat>>, a: nat)
  {
    a < |toMerge| && toMerge[a] != []
  }

  predicate InNewReps(reps: seq<nat>, query: seq<Sampled>, toMerge: seq<seq<nat>>, x: nat)
  {
    MergedInto(toMerge, x) || (x in reps && Failed(query, x))
  }

  /** The endpoints of the edge are in one class. */
  ghost predicate Joins(d: Dsu, e: nat)
    requires Forest(d)
  {
    Src(e) < |d.parent| && Dst(e) < |d.parent| && Root(d, Src(e)) == Root(d, Dst(e))
  }

  /** Merge the supernodes of `list`, in order, into s. */
  function MergeAll(cfg: Config, nodes: seq<Supernode>, s: Supernode, list: seq<nat>): (r: Supernode)
    requires PoolShaped(cfg, nodes) && Shaped(cfg, s) && forall k | 0 <= k < |list| :: list[k] < |nodes|
    ensures Shaped(cfg, r)
  {
    if list == [] then s
    else MergeNode(cfg, MergeAll(cfg, nodes, s, list[..|list| - 1]), nodes[list[|list| - 1]])
  }

  // ---------- the invariant ----------

  /** No cut of the graph meets a harmful hash collision. */
  ghost predicate FaithfulGraph(cfg: Config, edges: set<nat>, n: nat)
  {
    Simple(edges, n) && forall side: set<nat> :: AllFaithful(cfg, Cut(edges, side))
  }

  /** Every node v represents the cut of some set of nodes, sides[v]; for a root that set is
      its class. Every root with a non-empty cut is a representative. A representative that
      is no longer a root still has a non-empty cut of its own. */
  ghost predicate Inv(cfg: Config, edges: set<nat>, d: Dsu, forest: set<nat>, reps: seq<nat>,
                      nodes: seq<Supernode>, sides: seq<set<nat>>)
  {
    && Spanning(d, forest) && forest <= edges
    && |nodes| == |sides| == |d.parent|
    && (forall v | 0 <= v < |nodes| :: Represents(cfg, nodes[v], Cut(edges, sides[v])))
    && (forall r | r in Roots(d) :: sides[r] == Class(d, r))
    && Distinct(reps) && (forall i | i in reps :: i < |nodes|)
    && (forall r | r in Roots(d) && Cut(edges, Class(d, r)) != {} :: r in reps)
    && (forall i | i in reps && i !in Roots(d) :: Cut(edges, sides[i]) != {})
  }

  /** The nodes and answers after sampling every representative once. */
  ghost predicate SampledFrom(cfg: Config, reps: seq<nat>, nodes: seq<Supernode>, nodes': seq<Supernode>, query: seq<Sampled>)
  {
    && PoolShaped(cfg, nodes) && |nodes'| == |query| == |nodes|
    && forall v | 0 <= v < |nodes| ::
         if v in reps then (nodes'[v], query[v]) == SampleNode(cfg, nodes[v]) else nodes'[v] == nodes[v]
  }

  /** The answers tell the truth about the represented cuts. */
  ghost predicate Truthful(edges: set<nat>, reps: seq<nat>, query: seq<Sampled>, sides: seq<set<nat>>)
  {
    && |query| == |sides|
    && forall i | i in reps :: i < |query| && query[i].Sample? && AnswersFor(Cut(edges, sides[i]), query[i])
  }

  ghost predicate AnswersFor(cut: set<nat>, s: Sampled)
    requires s.Sample?
  {
    (s.ret == ZERO <==> cut == {}) && (s.ret == GOOD ==> s.index in cut)
  }

  /** Sampling keeps the invariant; unless some representative ran out of sketches, every
      answer is truthful. */
  lemma SamplingKeepsInv(cfg: Config, edges: set<nat>, d: Dsu, forest: set<nat>, reps: seq<nat>,
                         nodes: seq<Supernode>, sides: seq<set<nat>>, nodes': seq<Supernode>, query: seq<Sampled>)
    requires FaithfulGraph(cfg, edges, |d.parent|) && Inv(cfg, edges, d, forest, reps, nodes, sides)
    requires SampledFrom(cfg, reps, nodes, nodes', query)
    ensures Inv(cfg, edges, d, forest, reps, nodes', sides)
    ensures forall i | i in reps :: !query[i].MultipleQuery?
    ensures (forall i | i in reps :: !query[i].OutOfQueries?) ==> Truthful(edges, reps, query, sides)
  {
    forall v | 0 <= v < |nodes|
      ensures Represents(cfg, nodes'[v], Cut(edges, sides[v]))
      ensures v in reps ==> !query[v].MultipleQuery? && (query[v].Sample? ==> AnswersFor(Cut(edges, sides[v]), query[v]))
    {
      if v in reps { SampleMeans(cfg, nodes[v], Cut(edges, sides[v])); }
    }
  }

  // ---------- consequences of a round with truthful answers ----------

  lemma HitsAreEdges(edges: set<nat>, n: nat, reps: seq<nat>, query: seq<Sampled>, sides: seq<set<nat>>)
    requires Simple(edges, n) && Truthful(edges, reps, query, sides)
    ensures Hits(query, reps) <= edges
    ensures forall i | i in reps && Hit(query, i) :: Src(query[i].index) < Dst(query[i].index) < n
  {
    forall i | i in reps && Hit(query, i)
      ensures query[i].index in edges && Id(Src(query[i].index), Dst(query[i].index)) == query[i].index
    {
      EdgeEnds(edges, n, query[i].index);
    }
  }

  /** A root that absorbed nothing has the class it had. */
  lemma UnmergedClass(d0: Dsu, d: Dsu, toMerge: seq<seq<nat>>, r: nat)
    requires Lists(d0, d, toMerge) && r in Roots(d) && toMerge[r] == []
    ensures Class(d, r) == Class(d0, r)
  {
    assert ListOk(d0, d, r, toMerge[r]);
    forall v: nat | v < |d.parent|
      ensures Root(d, v) == r <==> Root(d0, v) == r
    {
      var x := Root(d0, v);
      assert x in Roots(d0);
      assert x !in toMerge[r];
    }
  }

  lemma JoinedIsInside(edges: set<nat>, d: Dsu, e: nat, r: nat)
    requires Forest(d) && Joins(d, e)
    ensures e !in Cut(edges, Class(d, r))
  {
    assert Src(e) in Class(d, r) <==> Dst(e) in Class(d, r);
  }

  /** A root that keeps a non-empty cut and absorbed nothing must have failed to sample. */
  lemma UnmergedFailed(edges: set<nat>, d0: Dsu, forest0: set<nat>, reps: seq<nat>, query: seq<Sampled>,
                       sides: seq<set<nat>>, m: Merging, r: nat)
    requires RoundShape(d0, forest0, reps, query, m) && Truthful(edges, reps, query, sides)
    requires |sides| == |d0.parent| && r in Roots(m.d) && m.toMerge[r] == []
    requires sides[r] == Class(d0, r) && r in reps && Cut(edges, Class(d0, r)) != {}
    ensures Failed(query, r)
  {
    UnmergedClass(d0, m.d, m.toMerge, r);
    if Hit(query, r) {
      JoinedIsInside(edges, m.d, query[r].index, r);
    }
  }

  /** The key to correctness: every root with a non-empty cut is a representative again. */
  lemma RootsStayRepresented(edges: set<nat>, d0: Dsu, forest0: set<nat>, reps: seq<nat>, query: seq<Sampled>,
                             sides: seq<set<nat>>, m: Merging, r: nat)
    requires RoundShape(d0, forest0, reps, query, m) && Truthful(edges, reps, query, sides)
    requires |sides| == |d0.parent| && forall x | x in Roots(d0) :: sides[x] == Class(d0, x)
    requires forall x | x in Roots(d0) && Cut(edges, Class(d0, x)) != {} :: x in reps
    requires r in Roots(m.d) && Cut(edges, Class(m.d, r)) != {}
    ensures r in m.reps
  {
    if m.toMerge[r] == [] {
      UnmergedClass(d0, m.d, m.toMerge, r);
      UnmergedFailed(edges, d0, forest0, reps, query, sides, m, r);
    }
    assert InNewReps(reps, query, m.toMerge, r);
  }

  /** When nothing was modified, the classes are the connected components. */
  lemma QuietRoundMeansComponents(edges: set<nat>, d0: Dsu, forest0: set<nat>, reps: seq<nat>, query: seq<Sampled>,
                                  sides: seq<set<nat>>, m: Merging)
    requires RoundShape(d0, forest0, reps, query, m) && Truthful(edges, reps, query, sides)
    requires |sides| == |d0.parent| && forall x | x in Roots(d0) :: sides[x] == Class(d0, x)
    requires forall x | x in Roots(d0) && Cut(edges, Class(d0, x)) != {} :: x in reps
    requires Simple(edges, |d0.parent|) && m.forest <= edges && !m.modified
    ensures Components(m.d, edges)
  {
    forall r | r in Roots(m.d)
      ensures Cut(edges, Class(m.d, r)) == {}
    {
      assert !MergedInto(m.toMerge, r);
      if Cut(edges, Class(m.d, r)) != {} {
        UnmergedClass(d0, m.d, m.toMerge, r);
        UnmergedFailed(edges, d0, forest0, reps, query, sides, m, r);
      }
    }
    ClosedClassesAreComponents(edges, m.d, m.forest);
  }

  lemma ClosedClassesAreComponents(edges: set<nat>, d: Dsu, forest: set<nat>)
    requires Simple(edges, |d.parent|) && Spanning(d, forest) && forest <= edges
    requires forall r | r in Roots(d) :: Cut(edges, Class(d, r)) == {}
    ensures Components(d, edges)
  {
    forall u: nat, v: nat | u < |d.parent| && v < |d.parent|
      ensures Root(d, u) == Root(d, v) <==> Connected(edges, u, v)
    {
      if Root(d, u) == Root(d, v) {
        Monotone(forest, edges, u, v);
      }
      if Connected(edges, u, v) {
        var r := Root(d, u);
        assert r in Roots(d);
        EmptyCutConfines(edges, |d.parent|, Class(d, r), u, v);
      }
    }
  }

  // ---------- merging the supernodes ----------

  /** The classes of r and of the listed roots together. */
  ghost function Gathered(d0: Dsu, r: nat, list: seq<nat>): set<nat>
    requires Forest(d0)
  {
    set v: nat | v < |d0.parent| && (Root(d0, v) == r || Root(d0, v) in list)
  }

  lemma GatheredAll(d0: Dsu, d: Dsu, toMerge: seq<seq<nat>>, r: nat)
    requires Lists(d0, d, toMerge) && r in Roots(d)
    ensures Gathered(d0, r, toMerge[r]) == Class(d, r)
  {
    assert ListOk(d0, d, r, toMerge[r]);
    forall v: nat | v < |d.parent|
      ensures Root(d, v) == r <==> Root(d0, v) == r || Root(d0, v) in toMerge[r]
    {
      assert Root(d0, v) in Roots(d0);
    }
  }

  /** Adding up the sketches of disjoint classes leaves the sketch of their common cut. */
  lemma {:induction false} MergeAllMeans(cfg: Config, edges: set<nat>, d0: Dsu, nodes: seq<Supernode>, r: nat, list: seq<nat>)
    requires FaithfulGraph(cfg, edges, |d0.parent|) && Forest(d0)
    requires PoolShaped(cfg, nodes) && |nodes| == |d0.parent| && r < |nodes|
    requires Distinct(list) && r !in list && forall k | 0 <= k < |list| :: list[k] < |nodes|
    requires Represents(cfg, nodes[r], Cut(edges, Class(d0, r)))
    requires forall k | 0 <= k < |list| :: Represents(cfg, nodes[list[k]], Cut(edges, Class(d0, list[k])))
    ensures Represents(cfg, MergeAll(cfg, nodes, nodes[r], list), Cut(edges, Gathered(d0, r, list)))
  {
    if list == [] {
      assert Gathered(d0, r, list) == Class(d0, r);
    } else {
      var init, b := list[..|list| - 1], list[|list| - 1];
      MergeAllMeans(cfg, edges, d0, nodes, r, init);
      var side, more := Gathered(d0, r, init), Class(d0, b);
      assert forall k | 0 <= k < |init| :: init[k] == list[k] && init[k] != b;
      assert Gathered(d0, r, list) == side + more && side !! more by {
        assert forall x :: x in list <==> x in init || x == b;
      }
      CutOfUnion(edges, side, more);
      assert AllFaithful(cfg, Cut(edges, more));
      FaithfulNoSkip(cfg, Cut(edges, more));
      MergeMeans(cfg, MergeAll(cfg, nodes, nodes[r], init), nodes[b], Cut(edges, side), Cut(edges, more));
    }
  }

  /** The supernodes after merge_supernodes. */
  ghost predicate MergedFrom(cfg: Config, nodes: seq<Supernode>, toMerge: seq<seq<nat>>, nodes': seq<Supernode>)
  {
    && PoolShaped(cfg, nodes) && |nodes| == |toMerge| == |nodes'|
    && (forall a | 0 <= a < |toMerge| :: forall k | 0 <= k < |toMerge[a]| :: toMerge[a][k] < |nodes|)
    && forall v | 0 <= v < |nodes| :: nodes'[v] == MergeAll(cfg, nodes, nodes[v], toMerge[v])
  }

  lemma MergedNodeMeans(cfg: Config, edges: set<nat>, d0: Dsu, d: Dsu, toMerge: seq<seq<nat>>,
                        nodes: seq<Supernode>, sides: seq<set<nat>>, nodes': seq<Supernode>, v: nat)
    requires FaithfulGraph(cfg, edges, |d0.parent|) && Lists(d0, d, toMerge)
    requires |nodes| == |sides| == |d0.parent| && v < |nodes| && MergedFrom(cfg, nodes, toMerge, nodes')
    requires forall x | 0 <= x < |nodes| :: Represents(cfg, nodes[x], Cut(edges, sides[x]))
    requires forall r | r in Roots(d0) :: sides[r] == Class(d0, r)
    ensures Represents(cfg, nodes'[v], Cut(edges, if v in Roots(d) then Class(d, v) else sides[v]))
  {
    var list := toMerge[v];
    assert ListOk(d0, d, v, list);
    assert list != [] ==> list[0] in list;
    if v in Roots(d) {
      GatheredAll(d0, d, toMerge, v);
      forall k | 0 <= k < |list|
        ensures Represents(cfg, nodes[list[k]], Cut(edges, Class(d0, list[k])))
      {
        assert list[k] in list;
      }
      MergeAllMeans(cfg, edges, d0, nodes, v, list);
    }
  }

  /** The classes of the roots after the round; other nodes keep the side they had. */
  ghost function NewSides(d: Dsu, sides: seq<set<nat>>): seq<set<nat>>
    requires Forest(d)
  {
    seq(|sides|, v requires 0 <= v < |sides| => if v in Roots(d) then Class(d, v) else sides[v])
  }

  /** One whole round keeps the invariant. */
  lemma RoundKeepsInv(cfg: Config, edges: set<nat>, d0: Dsu, forest0: set<nat>, reps: seq<nat>,
                      nodes: seq<Supernode>, sides: seq<set<nat>>, query: seq<Sampled>,
                      m: Merging, nodes': seq<Supernode>)
    requires FaithfulGraph(cfg, edges, |d0.parent|) && Inv(cfg, edges, d0, forest0, reps, nodes, sides)
    requires Truthful(edges, reps, query, sides) && RoundShape(d0, forest0, reps, query, m)
    requires MergedFrom(cfg, nodes, m.toMerge, nodes')
    ensures Inv(cfg, edges, m.d, m.forest, m.reps, nodes', NewSides(m.d, sides))
    ensures !m.modified ==> Components(m.d, edges)
  {
    HitsAreEdges(edges, |d0.parent|, reps, query, sides);
    forall v | 0 <= v < |nodes|
      ensures Represents(cfg, nodes'[v], Cut(edges, NewSides(m.d, sides)[v]))
    {
      MergedNodeMeans(cfg, edges, d0, m.d, m.toMerge, nodes, sides, nodes', v);
    }
    forall r | r in Roots(m.d) && Cut(edges, Class(m.d, r)) != {}
      ensures r in m.reps
    {
      RootsStayRepresented(edges, d0, forest0, reps, query, sides, m, r);
    }
    forall i | i in m.reps
      ensures i < |nodes|
      ensures i !in Roots(m.d) ==> Cut(edges, NewSides(m.d, sides)[i]) != {}
    {
      NewRepresentative(d0, forest0, reps, query, m, i);
    }
    if !m.modified {
      QuietRoundMeansComponents(edges, d0, forest0, reps, query, sides, m);
    }
  }

  lemma NewRepresentative(d0: Dsu, forest0: set<nat>, reps: seq<nat>, query: seq<Sampled>, m: Merging, i: nat)
    requires RoundShape(d0, forest0, reps, query, m) && i in m.reps
    requires |query| == |d0.parent|
    ensures i < |d0.parent|
    ensures i !in Roots(m.d) ==> i in reps && Failed(query, i)
  {
    assert InNewReps(reps, query, m.toMerge, i);
    if MergedInto(m.toMerge, i) {
      assert ListOk(d0, m.d, i, m.toMerge[i]);
      assert m.toMerge[i][0] in m.toMerge[i];
    }
  }
}
