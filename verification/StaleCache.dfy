/** Ways, found in the source, to leave the eager union-find wrong while it counts as valid. The
    histories here are on three nodes with the two sketches that configure gives them. */
module StaleCache {
  import opened Bits
  import opened Edges
  import opened Connectivity
  import opened DisjointSets
  import opened Answers
  import opened EagerCache
  import opened Sketches
  import opened Rounds
  import opened Progress
  import opened EmulationRuns
  import opened Updates
  import opened GraphModel
  import opened Witnesses

  // ---------- flushing ----------

  /** A buffer can always be flushed, if only one half-update at a time. */
  method SomeBatches(g: Graph) returns (batches: seq<Batch>)
    requires g.Accounted()
    ensures g.Splits(batches) && forall i | 0 <= i < |batches| :: Within(OddOnes(BatchIds(batches[i])), g.n)
  {
    batches := Singly(g.gutter);
    SinglySplits(g.gutter, g.n);
  }

  /** Every half-update in a batch of its own. */
  function Singly(gutter: seq<(nat, nat)>): (r: seq<Batch>)
    ensures |r| == |gutter|
  {
    if gutter == [] then []
    else Singly(gutter[..|gutter| - 1]) + [Batch(gutter[|gutter| - 1].0, [gutter[|gutter| - 1].1])]
  }

  lemma {:induction false} SinglySplits(gutter: seq<(nat, nat)>, n: nat)
    requires NodesBelowN(gutter, n) && n <= NODE_SPACE
    ensures BatchesInRange(Singly(gutter), n) && Flatten(Singly(gutter)) == gutter
    ensures forall i | 0 <= i < |gutter| :: Within(OddOnes(BatchIds(Singly(gutter)[i])), n)
  {
    SinglyFlattens(gutter);
    forall i | 0 <= i < |gutter|
      ensures Singly(gutter)[i].src < n && Within(OddOnes(BatchIds(Singly(gutter)[i])), n)
    {
      SinglyAt(gutter, i);
      SingleBatch(gutter[i], n);
    }
  }

  lemma {:induction false} SinglyAt(gutter: seq<(nat, nat)>, i: nat)
    requires i < |gutter|
    ensures Singly(gutter)[i] == Batch(gutter[i].0, [gutter[i].1])
  {
    if i < |gutter| - 1 { SinglyAt(gutter[..|gutter| - 1], i); }
  }

  lemma {:induction false} SinglyFlattens(gutter: seq<(nat, nat)>)
    ensures Flatten(Singly(gutter)) == gutter
  {
    if gutter != [] {
      var rest, last := gutter[..|gutter| - 1], gutter[|gutter| - 1];
      SinglyFlattens(rest);
      assert Singly(gutter)[..|rest|] == Singly(rest);
      assert Pairs(Batch(last.0, [last.1])) == [last];
      assert gutter == rest + [last];
    }
  }

  lemma SingleBatch(p: (nat, nat), n: nat)
    requires p.0 < n && p.1 < n && n <= NODE_SPACE
    ensures Within(OddOnes(BatchIds(Batch(p.0, [p.1]))), n)
  {
    PairingRoundTrip(p.0, p.1);
    var ids := BatchIds(Batch(p.0, [p.1]));
    assert ids == [Id(p.0, p.1)] && ids[..0] == [];
    assert OddOnes(ids) == Toggle(OddOnes([]), Id(p.0, p.1));
  }

  // ---------- a query that throws ----------

  function Triangle(): set<nat>
  {
    {Id(0, 1), Id(1, 2), Id(0, 2)}
  }

  lemma TriangleIds()
    ensures Id(0, 1) != Id(1, 2) && Id(0, 1) != Id(0, 2) && Id(1, 2) != Id(0, 2)
  {
    PairingRoundTrip(0, 1);
    PairingRoundTrip(1, 2);
    PairingRoundTrip(0, 2);
  }

  lemma TriangleCuts()
    ensures Simple(Triangle(), 3)
    ensures Cut(Triangle(), {0}) == {Id(0, 1), Id(0, 2)} && Cut(Triangle(), {1}) == {Id(0, 1), Id(1, 2)}
    ensures Cut(Triangle(), {2}) == {Id(1, 2), Id(0, 2)}
  {
    PairingRoundTrip(0, 1);
    PairingRoundTrip(1, 2);
    PairingRoundTrip(0, 2);
  }

  /** Every node has two edges, so with blind sketches every sample fails. */
  lemma TriangleFails(cfg: Config)
    requires Perfect(cfg, 3) && Blind(cfg)
    ensures AlwaysFails(cfg, Triangle(), 3)
  {
    TriangleIds();
    TriangleCuts();
    forall v: nat, i: nat | v < 3 && i < cfg.sketches
      ensures QueryBuckets(cfg, SeedOf(cfg, i), BucketsOf(cfg, SeedOf(cfg, i), Cut(Triangle(), {v}))).1 == FAIL
    {
      if v == 0 {
        TwoFail(cfg, i, Cut(Triangle(), {v}), Id(0, 1), Id(0, 2));
      } else if v == 1 {
        TwoFail(cfg, i, Cut(Triangle(), {v}), Id(0, 1), Id(1, 2));
      } else {
        TwoFail(cfg, i, Cut(Triangle(), {v}), Id(1, 2), Id(0, 2));
      }
    }
  }

  lemma TwoFail(cfg: Config, i: nat, cut: set<nat>, a: nat, b: nat)
    requires Perfect(cfg, 3) && Blind(cfg) && i < cfg.sketches && a in cut && b in cut && a != b && Within(cut, 3)
    ensures QueryBuckets(cfg, SeedOf(cfg, i), BucketsOf(cfg, SeedOf(cfg, i), cut)).1 == FAIL
  {
    PerfectIsFaithful(cfg, 3, cut);
    BlindQuery(cfg, SeedOf(cfg, i), cut);
    TwoMembers(cut, a, b);
  }

  /** connected_components(false) ignores the cache but clears its classes, and an exception leaves
      dsu_valid set. Here both rounds fail throughout and the third is out of queries, so a later
      cached query would call the nodes of a triangle unconnected. */
  method ThrowLeavesStaleCache(cfg: Config) returns (g: Graph, st: Status)
    requires Perfect(cfg, 3) && Blind(cfg) && cfg.sketches == 2
    ensures fresh(g) && g.sound && g.Edges() == Triangle() && st == OutOfSketches
    ensures g.dsuValid && !g.CacheHonest()
  {
    g := TriangleGraph(cfg);
    var batches := SomeBatches(g);
    TriangleHypotheses(cfg, g.Edges(), batches);
    st := HopelessQuery(g, batches);
    StillActive(g.Edges(), g.dsu);
  }

  /** On a graph on which every sample fails, the cache claims to be valid over single nodes. */
  method HopelessQuery(g: Graph, batches: seq<Batch>) returns (st: Status)
    requires g.Healthy() && g.dsuValid && g.sound && !g.updateLocked && g.Splits(batches) && g.n > 0
    requires FaithfulGraph(g.cfg, g.Edges(), g.n) && NoCollisions(g.cfg, batches) && AlwaysFails(g.cfg, g.Edges(), g.n)
    modifies g
    ensures st == OutOfSketches && g.sound && g.dsuValid && g.Edges() == old(g.Edges())
    ensures Valid(g.dsu) && |g.dsu.parent| == g.n && Scattered(g.dsu)
    ensures g.CacheHonest() <==> Active(g.Edges(), g.dsu) == {}
  {
    var answer;
    st, answer := g.ConnectedComponents(false, null, batches);
  }

  lemma TriangleHypotheses(cfg: Config, edges: set<nat>, batches: seq<Batch>)
    requires Perfect(cfg, 3) && Blind(cfg) && edges == Triangle()
    requires forall i | 0 <= i < |batches| :: Within(OddOnes(BatchIds(batches[i])), 3)
    ensures FaithfulGraph(cfg, edges, 3) && NoCollisions(cfg, batches) && AlwaysFails(cfg, edges, 3)
  {
    TriangleCuts();
    TriangleFails(cfg);
    PerfectGraphs(cfg, 3, edges, batches);
  }

  lemma StillActive(edges: set<nat>, d: Dsu)
    requires Forest(d) && |d.parent| == 3 && Scattered(d) && edges == Triangle()
    ensures Active(edges, d) != {}
  {
    TriangleCuts();
    assert Class(d, 0) == {0};
    assert 0 in Active(edges, d);
  }

  method TriangleGraph(cfg: Config) returns (g: Graph)
    ensures fresh(g) && g.Healthy() && g.n == 3 && g.cfg == cfg && g.dsuValid && g.sound
    ensures !g.updateLocked && !g.failRound2 && g.Edges() == Triangle()
  {
    g := TwoEdgeGraph(cfg);
    TriangleIds();
    Insert(g, 0, 2);
    assert {Id(0, 1), Id(1, 2)} + {Id(0, 2)} == Triangle();
  }

  method TwoEdgeGraph(cfg: Config) returns (g: Graph)
    ensures fresh(g) && g.Healthy() && g.n == 3 && g.cfg == cfg && g.dsuValid && g.sound
    ensures !g.updateLocked && !g.failRound2 && g.Edges() == {Id(0, 1), Id(1, 2)}
  {
    g := OneEdgeGraph(cfg);
    TriangleIds();
    Insert(g, 1, 2);
    assert {Id(0, 1)} + {Id(1, 2)} == {Id(0, 1), Id(1, 2)};
  }

  /** A new edge leaves a valid cache valid. */
  method Insert(g: Graph, u: nat, v: nat)
    requires g.Healthy() && g.dsuValid && g.sound && !g.updateLocked && u < g.n && v < g.n && u != v
    requires Id(u, v) !in g.Edges()
    modifies g`gutter, g`dsu, g`forest, g`dsuValid, g`stream
    ensures g.Healthy() && g.dsuValid && g.Edges() == old(g.Edges()) + {Id(u, v)}
  {
    assert Id(u, v) !in g.forest;
    var _ := g.Update(u, v);
    assert ToggleEdge(old(g.Edges()), u, v) == old(g.Edges()) + {Id(u, v)};
  }

  /** A graph of three nodes that has taken one update. */
  method OneEdgeGraph(cfg: Config) returns (g: Graph)
    ensures fresh(g) && g.Healthy() && g.n == 3 && g.cfg == cfg && g.dsuValid && g.sound
    ensures !g.updateLocked && !g.failRound2 && g.Edges() == {Id(0, 1)}
  {
    g := new Graph(3, cfg, true, 0);
    var _ := g.Update(0, 1);
    Toggle01();
  }

  lemma Toggle01()
    ensures ToggleEdge({}, 0, 1) == {Id(0, 1)} && Simple({Id(0, 1)}, 3)
    ensures ToggleEdge({Id(0, 1)}, 0, 1) == {}
  {
    PairingRoundTrip(0, 1);
  }

  // ---------- point queries ----------

  /** A single edge is found by every sketch, in the deterministic bucket. */
  lemma OneEdgeNeverFails(cfg: Config)
    requires Perfect(cfg, 3)
    ensures NeverFails(cfg, {Id(0, 1)})
  {
    Toggle01();
    forall side: set<nat>, i: nat | i < cfg.sketches
      ensures QueryBuckets(cfg, SeedOf(cfg, i), BucketsOf(cfg, SeedOf(cfg, i), Cut({Id(0, 1)}, side))).1 != FAIL
    {
      var cut, seed := Cut({Id(0, 1)}, side), SeedOf(cfg, i);
      PerfectIsFaithful(cfg, 3, cut);
      QueryCorrect(cfg, seed, cut);
      if cut != {} {
        assert cut == {Id(0, 1)} && At(cfg, seed, cut, Tracked(cfg)) == cut;
        assert IsolatesAt(cfg, seed, cut, Tracked(cfg));
      }
    }
  }

  /** point_query, successful and on a sound run, leaves dsu_valid set over singletons. */
  method PointQueryLeavesStaleCache(cfg: Config) returns (g: Graph, same: bool)
    requires Perfect(cfg, 3) && cfg.sketches == 2
    ensures fresh(g) && g.sound && g.Edges() == {Id(0, 1)} && same
    ensures g.dsuValid && !g.CacheHonest() && g.dsu == Singletons(3)
    ensures g.n == 3 && g.Standing() && !g.updateLocked && !g.failRound2
  {
    g := ThriceToggled(cfg);
    var batches := SomeBatches(g);
    Toggle01();
    PerfectGraphs(cfg, 3, g.Edges(), batches);
    OneEdgeNeverFails(cfg);
    OneEdge(g.Edges(), 0, 1);
    assert Pow2(2) == 4;
    var st;
    st, same := g.PointQuery(0, 1, null, batches);
  }

  /** The next query trusts that cache and answers wrongly, though it reports success. */
  method StaleCacheAnswersWrongly(cfg: Config) returns (g: Graph, st: Status, answer: seq<set<nat>>)
    requires Perfect(cfg, 3) && cfg.sketches == 2
    ensures fresh(g) && g.sound && g.Edges() == {Id(0, 1)} && g.n == 3
    ensures st == Ok && !ListsComponents(answer, g.Edges(), 3)
  {
    var same;
    g, same := PointQueryLeavesStaleCache(cfg);
    var batches := SomeBatches(g);
    SingletonsWrong(3, g.Edges());
    st, answer := g.ConnectedComponents(true, null, batches);
  }

  lemma SingletonsWrong(n: nat, edges: set<nat>)
    requires edges == {Id(0, 1)} && 1 < n
    ensures Forest(Singletons(n)) && !ListsComponents(ClassList(Singletons(n), n), edges, n)
  {
    SingletonsValid(n);
    Toggle01();
    OneEdge(edges, 0, 1);
    ClassListRightIff(Singletons(n), edges);
  }

  /** The third toggle puts the edge back. */
  method ThriceToggled(cfg: Config) returns (g: Graph)
    ensures fresh(g) && g.Healthy() && g.n == 3 && g.cfg == cfg && !g.dsuValid && g.sound
    ensures !g.updateLocked && !g.failRound2 && g.Edges() == {Id(0, 1)}
  {
    g := TwiceToggled(cfg);
    Toggle01();
    var _ := g.Update(0, 1);
  }

  /** The second toggle of a forest edge gives the cache up. */
  method TwiceToggled(cfg: Config) returns (g: Graph)
    ensures fresh(g) && g.Healthy() && g.n == 3 && g.cfg == cfg && !g.dsuValid && g.sound
    ensures !g.updateLocked && !g.failRound2 && g.Edges() == {}
  {
    g := OneEdgeGraph(cfg);
    ForestHasEdge(g.dsu, g.forest);
    Toggle01();
    var _ := g.Update(0, 1);
  }

  lemma ForestHasEdge(d: Dsu, forest: set<nat>)
    requires CacheRight(d, forest, {Id(0, 1)}) && |d.parent| == 3
    ensures Id(0, 1) in forest
  {
    PairingRoundTrip(0, 1);
    OneEdge({Id(0, 1)}, 0, 1);
    assert Connected(forest, 0, 1);
    if forest == {} { EmptyCutConfines(forest, 3, {0}, 0, 1); }
    assert forest != {} ==> forest == {Id(0, 1)};
  }

  // ---------- concurrent updates ----------

  /** The two roots a thread in update has settled on before its compare-and-swap. */
  ghost function Chosen(d: Dsu, u: nat, v: nat): (nat, nat)
    requires Forest(d) && u < |d.parent| && v < |d.parent|
  {
    var a, b := Root(d, u), Root(d, v);
    if d.size[a] < d.size[b] then (b, a) else (a, b)
  }

  /** The compare-and-swap, and the size update after it: only b is checked to be a root still. */
  function Swing(d: Dsu, a: nat, b: nat): Dsu
    requires a < |d.parent| && b < |d.parent| && |d.size| == |d.parent|
  {
    if d.parent[b] == b then Link(d, a, b) else d
  }

  /** Nodes 0 and 3 in one class, 1 and 2 in another. */
  function Pairs03And12(): Dsu
  {
    Dsu([0, 1, 1, 0], [2, 2, 1, 1])
  }

  /** Two updates, of {0, 1} and {2, 3}, that have both chosen before either swings tie the two
      roots into a ring: 0 under 1 and 1 under 0. */
  lemma ConcurrentUnionsTangle()
    ensures Valid(Pairs03And12())
    ensures Chosen(Pairs03And12(), 0, 1) == (0, 1) && Chosen(Pairs03And12(), 2, 3) == (1, 0)
    ensures var d := Swing(Swing(Pairs03And12(), 0, 1), 1, 0);
      d.parent[0] == 1 && d.parent[1] == 0 && !Forest(d)
  {
    var d0, d := Singletons(4), Pairs03And12();
    SingletonsValid(4);
    LinkValid(d0, 0, 3);
    var d1 := Link(d0, 0, 3);
    LinkValid(d1, 1, 2);
    assert Link(d1, 1, 2) == d by {
      assert d0.parent == [0, 1, 2, 3] && d0.size == [1, 1, 1, 1];
      assert d1.parent == [0, 1, 2, 0] && d1.size == [2, 1, 1, 1];
    }
    var d' := Swing(Swing(d, 0, 1), 1, 0);
    assert d'.parent == [1, 0, 1, 0];
    if Forest(d') {
      LinkGrows(d', 0);
      LinkGrows(d', 1);
    }
  }

  lemma LinkGrows(d: Dsu, v: nat)
    requires Forest(d) && v < |d.parent|
    ensures d.size[v] >= 1 && d.parent[v] < |d.parent| && (d.parent[v] != v ==> d.size[v] < d.size[d.parent[v]])
  {
    assert LinkOk(d, v);
  }
}
