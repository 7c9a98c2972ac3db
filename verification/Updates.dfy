/** The update stream, its half-updates, and the batches the workers apply. */
module Updates {
  import opened Basics
  import opened Edges
  import opened Connectivity
  import opened Sketches
  import opened Supernodes

  /** The graph after toggling {u, v}; a self-loop toggles nothing. */
  function ToggleEdge(edges: set<nat>, u: nat, v: nat): set<nat>
  {
    if u == v then edges else Toggle(edges, Id(u, v))
  }

  lemma ToggleEdgeSimple(edges: set<nat>, n: nat, u: nat, v: nat)
    requires Simple(edges, n) && u < n && v < n
    ensures Simple(ToggleEdge(edges, u, v), n)
  {
    PairingRoundTrip(u, v);
  }

  /** The graph after a stream of updates; whether one is called an insertion or a deletion
      plays no part. */
  function Toggled(stream: seq<(nat, nat)>): set<nat>
  {
    if stream == [] then {}
    else
      var last := stream[|stream| - 1];
      ToggleEdge(Toggled(stream[..|stream| - 1]), last.0, last.1)
  }

  ghost predicate NodesBelowN(pairs: seq<(nat, nat)>, n: nat)
  {
    forall i | 0 <= i < |pairs| :: pairs[i].0 < n && pairs[i].1 < n
  }

  lemma {:induction false} ToggledSimple(stream: seq<(nat, nat)>, n: nat)
    requires NodesBelowN(stream, n) && n <= NODE_SPACE
    ensures Simple(Toggled(stream), n)
  {
    if stream != [] {
      var init, last := stream[..|stream| - 1], stream[|stream| - 1];
      ToggledSimple(init, n);
      ToggleEdgeSimple(Toggled(init), n, last.0, last.1);
    }
  }

  // ---------- half-updates ----------

  /** Every update is inserted twice, once for each endpoint. */
  function Halves(stream: seq<(nat, nat)>): seq<(nat, nat)>
  {
    if stream == [] then []
    else
      var last := stream[|stream| - 1];
      Halves(stream[..|stream| - 1]) + [(last.0, last.1), (last.1, last.0)]
  }

  /** The edge ids that node v receives. */
  function IdsFor(halves: seq<(nat, nat)>, v: nat): seq<nat>
  {
    if halves == [] then []
    else
      var last := halves[|halves| - 1];
      IdsFor(halves[..|halves| - 1], v) + if last.0 == v then [Id(last.0, last.1)] else []
  }

  lemma {:induction false} IdsForConcat(xs: seq<(nat, nat)>, ys: seq<(nat, nat)>, v: nat)
    ensures IdsFor(xs + ys, v) == IdsFor(xs, v) + IdsFor(ys, v)
  {
    if ys == [] {
      assert xs + ys == xs;
    } else {
      var init := ys[..|ys| - 1];
      IdsForConcat(xs, init, v);
      assert (xs + ys)[..|xs + ys| - 1] == xs + init;
    }
  }

  /** How often v receives x depends only on how often each half-update occurs. */
  lemma {:induction false} IdsForOrder(xs: seq<(nat, nat)>, ys: seq<(nat, nat)>, v: nat)
    requires multiset(xs) == multiset(ys)
    ensures multiset(IdsFor(xs, v)) == multiset(IdsFor(ys, v))
  {
    if xs == [] {
      assert ys == [] by { assert |multiset(ys)| == 0; }
    } else {
      var init, last := xs[..|xs| - 1], xs[|xs| - 1];
      assert xs == init + [last];
      var k := Find(xs, ys);
      var rest := ys[..k] + ys[k + 1..];
      TakeOut(ys, k);
      Cancel(multiset(init), multiset(rest), multiset{last});
      IdsForOrder(init, rest, v);
      IdsForConcat(init, [last], v);
      IdsForTakeOut(ys[..k], last, ys[k + 1..], v);
    }
  }

  /** And so does the graph: the order of updates is immaterial. */
  lemma {:induction false} ToggledOrder(xs: seq<(nat, nat)>, ys: seq<(nat, nat)>)
    requires multiset(xs) == multiset(ys)
    ensures Toggled(xs) == Toggled(ys)
  {
    if xs == [] {
      assert ys == [] by { assert |multiset(ys)| == 0; }
    } else {
      var init, last := xs[..|xs| - 1], xs[|xs| - 1];
      assert xs == init + [last];
      var k := Find(xs, ys);
      TakeOut(ys, k);
      Cancel(multiset(init), multiset(ys[..k] + ys[k + 1..]), multiset{last});
      ToggledOrder(init, ys[..k] + ys[k + 1..]);
      ToggledTakeOut(ys[..k], last, ys[k + 1..]);
    }
  }

  lemma {:induction false} ToggledTakeOut(before: seq<(nat, nat)>, x: (nat, nat), after: seq<(nat, nat)>)
    ensures Toggled(before + ([x] + after)) == ToggleEdge(Toggled(before + after), x.0, x.1)
  {
    if after == [] {
      assert before + ([x] + after) == before + [x] && before + after == before;
      ToggledOneMore(before, x);
    } else {
      var init, last := after[..|after| - 1], after[|after| - 1];
      ToggledTakeOut(before, x, init);
      assert before + ([x] + after) == (before + ([x] + init)) + [last] && before + after == (before + init) + [last];
      ToggledOneMore(before + ([x] + init), last);
      ToggledOneMore(before + init, last);
      TogglesCommute(Toggled(before + init), x, last);
    }
  }

  lemma ToggledOneMore(xs: seq<(nat, nat)>, x: (nat, nat))
    ensures Toggled(xs + [x]) == ToggleEdge(Toggled(xs), x.0, x.1)
  {
    assert (xs + [x])[..|xs|] == xs;
  }

  lemma TogglesCommute(edges: set<nat>, x: (nat, nat), y: (nat, nat))
    ensures ToggleEdge(ToggleEdge(edges, x.0, x.1), y.0, y.1) == ToggleEdge(ToggleEdge(edges, y.0, y.1), x.0, x.1)
  {
  }

  lemma Find(xs: seq<(nat, nat)>, ys: seq<(nat, nat)>) returns (k: nat)
    requires xs != [] && multiset(xs) == multiset(ys)
    ensures k < |ys| && ys[k] == xs[|xs| - 1]
  {
    assert xs[|xs| - 1] in multiset(ys);
    k :| 0 <= k < |ys| && ys[k] == xs[|xs| - 1];
  }

  lemma TakeOut(ys: seq<(nat, nat)>, k: nat)
    requires k < |ys|
    ensures ys == ys[..k] + ([ys[k]] + ys[k + 1..])
    ensures multiset(ys) == multiset(ys[..k] + ys[k + 1..]) + multiset{ys[k]}
  {
    assert ys == ys[..k] + ([ys[k]] + ys[k + 1..]);
  }

  lemma IdsForTakeOut(before: seq<(nat, nat)>, x: (nat, nat), after: seq<(nat, nat)>, v: nat)
    ensures multiset(IdsFor(before + ([x] + after), v)) ==
            multiset(IdsFor(before + after, v)) + multiset(IdsFor([x], v))
  {
    IdsForConcat(before, after, v);
    IdsForConcat(before, [x] + after, v);
    IdsForConcat([x], after, v);
  }

  /** The ids v receives with odd parity are the edges at v: self-loops cancel. */
  lemma {:induction false} HalvesGiveCut(stream: seq<(nat, nat)>, n: nat, v: nat)
    requires NodesBelowN(stream, n) && n <= NODE_SPACE
    ensures OddOnes(IdsFor(Halves(stream), v)) == Cut(Toggled(stream), {v})
  {
    if stream != [] {
      var init, last := stream[..|stream| - 1], stream[|stream| - 1];
      var a, b := last.0, last.1;
      HalvesGiveCut(init, n, v);
      IdsForConcat(Halves(init), [(a, b), (b, a)], v);
      OddOnesConcat(IdsFor(Halves(init), v), IdsFor([(a, b), (b, a)], v));
      TwoHalves(a, b, v);
      PairingRoundTrip(a, b);
      CutToggle(Toggled(init), a, b, v);
    }
  }

  lemma TwoHalves(a: nat, b: nat, v: nat)
    ensures OddOnes(IdsFor([(a, b), (b, a)], v)) == if a != b && (v == a || v == b) then {Id(a, b)} else {}
  {
    var x := Id(a, b);
    IdsForConcat([(a, b)], [(b, a)], v);
    assert [(a, b)] + [(b, a)] == [(a, b), (b, a)];
    OneHalf(a, b, v);
    OneHalf(b, a, v);
    OddOnesConcat(IdsFor([(a, b)], v), IdsFor([(b, a)], v));
  }

  lemma OneHalf(a: nat, b: nat, v: nat)
    ensures IdsFor([(a, b)], v) == if a == v then [Id(a, b)] else []
    ensures OddOnes(IdsFor([(a, b)], v)) == if a == v then {Id(a, b)} else {}
  {
    assert [(a, b)][..0] == [];
    assert OddOnes([Id(a, b)][..0]) == {};
  }

  lemma CutToggle(edges: set<nat>, a: nat, b: nat, v: nat)
    requires a < NODE_SPACE && b < NODE_SPACE
    ensures Cut(ToggleEdge(edges, a, b), {v}) ==
            SymDiff(Cut(edges, {v}), if a != b && (v == a || v == b) then {Id(a, b)} else {})
  {
    PairingRoundTrip(a, b);
  }

  // ---------- batches ----------

  /** Half-updates of one source node, as the guttering system hands them to a worker. */
  datatype Batch = Batch(src: nat, dsts: seq<nat>)

  function Pairs(b: Batch): seq<(nat, nat)>
  {
    seq(|b.dsts|, i requires 0 <= i < |b.dsts| => (b.src, b.dsts[i]))
  }

  function Flatten(batches: seq<Batch>): seq<(nat, nat)>
  {
    if batches == [] then [] else Flatten(batches[..|batches| - 1]) + Pairs(batches[|batches| - 1])
  }

  /** The indices of a batch; the smaller endpoint always goes first. */
  function BatchIds(b: Batch): seq<nat>
  {
    seq(|b.dsts|, i requires 0 <= i < |b.dsts| => Id(b.src, b.dsts[i]))
  }

  lemma {:induction false} BatchIdsFor(b: Batch, v: nat)
    ensures IdsFor(Pairs(b), v) == if v == b.src then BatchIds(b) else []
    decreases |b.dsts|
  {
    if b.dsts != [] {
      var init := Batch(b.src, b.dsts[..|b.dsts| - 1]);
      BatchIdsFor(init, v);
      assert Pairs(b)[..|b.dsts| - 1] == Pairs(init);
      assert BatchIds(b) == BatchIds(init) + [Id(b.src, b.dsts[|b.dsts| - 1])];
    }
  }

  /** Apply one batch: build a delta supernode and add it. */
  function ApplyBatch(cfg: Config, nodes: seq<Supernode>, b: Batch): (r: seq<Supernode>)
    requires PoolShaped(cfg, nodes) && b.src < |nodes|
    ensures |r| == |nodes| && PoolShaped(cfg, r)
  {
    nodes[b.src := ApplyDelta(cfg, nodes[b.src], DeltaNode(cfg, BatchIds(b)))]
  }

  ghost predicate BatchesInRange(batches: seq<Batch>, n: nat)
  {
    forall i | 0 <= i < |batches| :: batches[i].src < n
  }

  function ApplyAll(cfg: Config, nodes: seq<Supernode>, batches: seq<Batch>): (r: seq<Supernode>)
    requires PoolShaped(cfg, nodes) && BatchesInRange(batches, |nodes|)
    ensures |r| == |nodes| && PoolShaped(cfg, r)
  {
    if batches == [] then nodes
    else ApplyBatch(cfg, ApplyAll(cfg, nodes, batches[..|batches| - 1]), batches[|batches| - 1])
  }

  /** No batch has a zero deterministic bucket without being empty. */
  ghost predicate NoCollisions(cfg: Config, batches: seq<Batch>)
  {
    forall i | 0 <= i < |batches| :: NoSkipCollision(cfg, OddOnes(BatchIds(batches[i])))
  }

  /** Fit for a query on the sets given: untouched by queries, with all sketches in the window. */
  ghost predicate Stores(cfg: Config, s: Supernode, what: set<nat>)
  {
    HoldsAll(cfg, s, what) && Pristine(s) && s.merged == cfg.sketches
  }

  lemma UpdateTwice(cfg: Config, s: Supernode, xs: seq<nat>, ys: seq<nat>)
    requires Shaped(cfg, s)
    ensures UpdateNode(cfg, UpdateNode(cfg, s, xs), ys) == UpdateNode(cfg, s, xs + ys)
  {
    forall i | 0 <= i < |s.sketches|
      ensures UpdateAll(cfg, s.sketches[i].seed, UpdateAll(cfg, s.sketches[i].seed, s.sketches[i].buckets, xs), ys)
              == UpdateAll(cfg, s.sketches[i].seed, s.sketches[i].buckets, xs + ys)
    {
      UpdateAllConcat(cfg, s.sketches[i].seed, s.sketches[i].buckets, xs, ys);
    }
  }

  lemma {:induction false} UpdateAllConcat(cfg: Config, seed: nat, bs: seq<Bucket>, xs: seq<nat>, ys: seq<nat>)
    requires |bs| == NumElems(cfg)
    ensures UpdateAll(cfg, seed, UpdateAll(cfg, seed, bs, xs), ys) == UpdateAll(cfg, seed, bs, xs + ys)
  {
    if ys == [] {
      assert xs + ys == xs;
    } else {
      UpdateAllConcat(cfg, seed, bs, xs, ys[..|ys| - 1]);
      assert (xs + ys)[..|xs + ys| - 1] == xs + ys[..|ys| - 1];
    }
  }

  /** Batched deltas leave every supernode as updating it with its indices one by one does. */
  lemma {:induction false} BatchesAreUpdates(cfg: Config, nodes: seq<Supernode>, what: seq<set<nat>>, batches: seq<Batch>, v: nat)
    requires PoolShaped(cfg, nodes) && BatchesInRange(batches, |nodes|) && NoCollisions(cfg, batches)
    requires v < |nodes| == |what| && forall u | 0 <= u < |nodes| :: Stores(cfg, nodes[u], what[u])
    ensures ApplyAll(cfg, nodes, batches)[v] == UpdateNode(cfg, nodes[v], IdsFor(Flatten(batches), v))
    ensures Stores(cfg, ApplyAll(cfg, nodes, batches)[v], SymDiff(what[v], OddOnes(IdsFor(Flatten(batches), v))))
  {
    var ids := IdsFor(Flatten(batches), v);
    if batches == [] {
      assert forall i | 0 <= i < |nodes[v].sketches| :: UpdateNode(cfg, nodes[v], []).sketches[i] == nodes[v].sketches[i];
    } else {
      var init, b := batches[..|batches| - 1], batches[|batches| - 1];
      BatchesAreUpdates(cfg, nodes, what, init, v);
      BatchIdsFor(b, v);
      IdsForConcat(Flatten(init), Pairs(b), v);
      var s, before := ApplyAll(cfg, nodes, init)[v], IdsFor(Flatten(init), v);
      if v == b.src {
        OneMoreDelta(cfg, nodes[v], s, SymDiff(what[v], OddOnes(before)), before, BatchIds(b));
      } else {
        assert ids == before;
      }
    }
    UpdatedStores(cfg, nodes[v], what[v], ids);
  }

  lemma OneMoreDelta(cfg: Config, node: Supernode, s: Supernode, what: set<nat>, before: seq<nat>, xs: seq<nat>)
    requires Shaped(cfg, node) && s == UpdateNode(cfg, node, before) && Stores(cfg, s, what) && NoSkipCollision(cfg, OddOnes(xs))
    ensures ApplyDelta(cfg, s, DeltaNode(cfg, xs)) == UpdateNode(cfg, node, before + xs)
  {
    DeltaMeans(cfg, s, what, xs);
    UpdateTwice(cfg, node, before, xs);
  }

  lemma UpdatedStores(cfg: Config, s: Supernode, what: set<nat>, xs: seq<nat>)
    requires Stores(cfg, s, what)
    ensures Stores(cfg, UpdateNode(cfg, s, xs), SymDiff(what, OddOnes(xs)))
  {
    UpdateMeans(cfg, s, what, xs);
  }

  /** So the split into batches and their order are immaterial. */
  lemma BatchingIndependent(cfg: Config, nodes: seq<Supernode>, what: seq<set<nat>>, batches: seq<Batch>, batches': seq<Batch>)
    requires PoolShaped(cfg, nodes) && BatchesInRange(batches, |nodes|) && BatchesInRange(batches', |nodes|)
    requires NoCollisions(cfg, batches) && NoCollisions(cfg, batches')
    requires |nodes| == |what| && forall u | 0 <= u < |nodes| :: Stores(cfg, nodes[u], what[u])
    requires multiset(Flatten(batches)) == multiset(Flatten(batches'))
    ensures ApplyAll(cfg, nodes, batches) == ApplyAll(cfg, nodes, batches')
  {
    var r, r' := ApplyAll(cfg, nodes, batches), ApplyAll(cfg, nodes, batches');
    forall v: nat | v < |nodes|
      ensures r[v] == r'[v]
    {
      BatchesAreUpdates(cfg, nodes, what, batches, v);
      BatchesAreUpdates(cfg, nodes, what, batches', v);
      IdsForOrder(Flatten(batches), Flatten(batches'), v);
      OddOnesOrder(IdsFor(Flatten(batches), v), IdsFor(Flatten(batches'), v));
      SameStore(cfg, r[v], r'[v], SymDiff(what[v], OddOnes(IdsFor(Flatten(batches), v))));
    }
  }

  lemma SameStore(cfg: Config, s: Supernode, t: Supernode, what: set<nat>)
    requires Stores(cfg, s, what) && Stores(cfg, t, what)
    ensures s == t
  {
    assert s.sketches == t.sketches;
  }

  /** From fresh supernodes, whatever the batching, supernode v ends as the sketch of the edges
      at v in the toggled graph. */
  lemma StreamIngested(cfg: Config, n: nat, stream: seq<(nat, nat)>, batches: seq<Batch>, v: nat)
    requires NodesBelowN(stream, n) && n <= NODE_SPACE && v < n
    requires BatchesInRange(batches, n) && NoCollisions(cfg, batches)
    requires multiset(Flatten(batches)) == multiset(Halves(stream))
    ensures Stores(cfg, ApplyAll(cfg, seq(n, i => Fresh(cfg)), batches)[v], Cut(Toggled(stream), {v}))
  {
    FreshIsEmpty(cfg);
    BatchesAreUpdates(cfg, seq(n, i => Fresh(cfg)), seq(n, i => {}), batches, v);
    IdsForOrder(Flatten(batches), Halves(stream), v);
    OddOnesOrder(IdsFor(Flatten(batches), v), IdsFor(Halves(stream), v));
    HalvesGiveCut(stream, n, v);
    assert SymDiff({}, Cut(Toggled(stream), {v})) == Cut(Toggled(stream), {v});
  }
}
