/** The union-find structure that both the graph and its reference verifier use:
    union by size, path halving (find_root) and path compression (get_parent). */
module DisjointSets {
  import opened Bits
  import opened Edges
  import opened Connectivity

  datatype Dsu = Dsu(parent: seq<nat>, size: seq<nat>)

  /** Union by size leaves a parent at least twice as large as each of its children.
      That one local fact makes the parent links acyclic and the trees shallow. */
  ghost predicate LinkOk(d: Dsu, v: nat)
    requires v < |d.parent| == |d.size|
  {
    && d.parent[v] < |d.parent|
    && 1 <= d.size[v] <= |d.parent|
    && (d.parent[v] != v ==> 2 * d.size[v] <= d.size[d.parent[v]])
  }

  ghost predicate Forest(d: Dsu)
  {
    && |d.size| == |d.parent|
    && forall v: nat {:trigger LinkOk(d, v)} | v < |d.parent| :: LinkOk(d, v)
  }

  ghost function Root(d: Dsu, v: nat): (r: nat)
    requires Forest(d) && v < |d.parent|
    ensures r < |d.parent| && d.parent[r] == r
    ensures r == v <==> d.parent[v] == v
    decreases |d.parent| - d.size[v]
  {
    assert LinkOk(d, v) && LinkOk(d, d.parent[v]);
    if d.parent[v] == v then v else Root(d, d.parent[v])
  }

  ghost function Class(d: Dsu, r: nat): set<nat>
    requires Forest(d)
  {
    set v: nat | v < |d.parent| && Root(d, v) == r
  }

  ghost function Roots(d: Dsu): set<nat>
  {
    set v: nat | v < |d.parent| && d.parent[v] == v
  }

  /** At a root, size is the number of nodes in its class. */
  ghost predicate Exact(d: Dsu)
    requires Forest(d)
  {
    forall r {:trigger Class(d, r)} | r in Roots(d) :: d.size[r] == |Class(d, r)|
  }

  ghost predicate Valid(d: Dsu)
  {
    Forest(d) && Exact(d)
  }

  ghost predicate SameRoots(d: Dsu, d': Dsu)
    requires Forest(d) && Forest(d')
  {
    && |d.parent| == |d'.parent|
    && forall v: nat | v < |d.parent| :: Root(d, v) == Root(d', v)
  }

  ghost predicate Together(d: Dsu, u: nat, v: nat)
    requires Forest(d) && u < |d.parent| && v < |d.parent|
  {
    Root(d, u) == Root(d, v)
  }

  /** The same nodes share a root in both. */
  ghost predicate SamePartition(d: Dsu, d': Dsu)
    requires Forest(d) && Forest(d')
  {
    && |d.parent| == |d'.parent|
    && forall u: nat, v: nat {:trigger Together(d, u, v)} {:trigger Together(d', u, v)} | u < |d.parent| && v < |d.parent| ::
         Together(d, u, v) <==> Together(d', u, v)
  }

  lemma SamePartitionShortened(d: Dsu, d': Dsu, e: Dsu, e': Dsu)
    requires Forest(d) && Forest(d') && Forest(e) && Forest(e')
    requires SamePartition(d, e) && SameRoots(d, d') && SameRoots(e, e')
    ensures SamePartition(d', e')
  {
    forall u: nat, v: nat | u < |d.parent| && v < |d.parent|
      ensures Together(d', u, v) <==> Together(e', u, v)
    {
      assert Together(d, u, v) <==> Together(e, u, v);
    }
  }

  /** The classes are the connected components of the graph. */
  ghost predicate Components(d: Dsu, edges: set<nat>)
    requires Forest(d)
  {
    forall u: nat, v: nat {:trigger Connected(edges, u, v)} | u < |d.parent| && v < |d.parent| ::
      Root(d, u) == Root(d, v) <==> Connected(edges, u, v)
  }

  ghost predicate Agrees(d: Dsu, mark: seq<nat>, x: nat)
    requires Forest(d) && x < |d.parent| == |mark|
  {
    assert LinkOk(d, x);
    mark[x] == if d.parent[x] == x then x else mark[d.parent[x]]
  }

  /** A labelling that agrees along every parent link is the root labelling. */
  lemma {:induction false} RootIs(d: Dsu, mark: seq<nat>, v: nat)
    requires Forest(d) && v < |d.parent| == |mark|
    requires forall x: nat {:trigger Agrees(d, mark, x)} | x < |mark| :: Agrees(d, mark, x)
    ensures Root(d, v) == mark[v]
    decreases |d.parent| - d.size[v]
  {
    assert LinkOk(d, v) && LinkOk(d, d.parent[v]) && Agrees(d, mark, v);
    if d.parent[v] != v { RootIs(d, mark, d.parent[v]); }
  }

  lemma {:induction false} RootSize(d: Dsu, v: nat)
    requires Forest(d) && v < |d.parent|
    ensures d.size[v] <= d.size[Root(d, v)]
    ensures d.parent[v] != v ==> 2 * d.size[v] <= d.size[Root(d, v)]
    decreases |d.parent| - d.size[v]
  {
    assert LinkOk(d, v) && LinkOk(d, d.parent[v]);
    if d.parent[v] != v { RootSize(d, d.parent[v]); }
  }

  // ---------- the initial state ----------

  function Singletons(n: nat): Dsu
  {
    Dsu(seq(n, i => i), seq(n, i => 1))
  }

  lemma SingletonsValid(n: nat)
    ensures Valid(Singletons(n))
    ensures forall v: nat | v < n :: Root(Singletons(n), v) == v
  {
    var d := Singletons(n);
    forall r | r in Roots(d)
      ensures d.size[r] == |Class(d, r)|
    {
      assert Class(d, r) == {r};
    }
  }

  // ---------- moving a node closer to its root ----------

  function Reparent(d: Dsu, v: nat, w: nat): Dsu
    requires v < |d.parent|
  {
    d.(parent := d.parent[v := w])
  }

  lemma ReparentKeepsRoots(d: Dsu, v: nat, w: nat)
    requires Forest(d) && v < |d.parent| && w < |d.parent|
    requires d.parent[v] != v && Root(d, w) == Root(d, v) && 2 * d.size[v] <= d.size[w]
    ensures Forest(Reparent(d, v, w)) && SameRoots(d, Reparent(d, v, w))
  {
    var d' := Reparent(d, v, w);
    forall x: nat | x < |d.parent|
      ensures LinkOk(d', x)
    {
      assert LinkOk(d, x);
    }
    var mark := seq(|d.parent|, x requires 0 <= x < |d.parent| => Root(d, x));
    forall x: nat | x < |d.parent|
      ensures Agrees(d', mark, x)
    {
      assert LinkOk(d, x);
    }
    forall x: nat | x < |d.parent|
      ensures Root(d, x) == Root(d', x)
    {
      RootIs(d', mark, x);
    }
  }

  lemma SameRootsValid(d: Dsu, d': Dsu)
    requires Valid(d) && Forest(d') && SameRoots(d, d') && d.size == d'.size
    ensures Valid(d') && Roots(d) == Roots(d')
    ensures forall r :: Class(d, r) == Class(d', r)
  {
    forall v: nat | v < |d.parent|
      ensures d.parent[v] == v <==> d'.parent[v] == v
    {
      assert Root(d, v) == Root(d', v);
    }
    assert forall r :: Class(d, r) == Class(d', r);
  }

  // ---------- union ----------

  /** Hang root b below root a. */
  function Link(d: Dsu, a: nat, b: nat): Dsu
    requires a < |d.parent| && b < |d.parent| && |d.size| == |d.parent|
  {
    Dsu(d.parent[b := a], d.size[a := d.size[a] + d.size[b]])
  }

  ghost predicate Linkable(d: Dsu, a: nat, b: nat)
  {
    && Valid(d)
    && a in Roots(d) && b in Roots(d) && a != b
    && d.size[b] <= d.size[a]
  }

  lemma ClassesDisjoint(d: Dsu, a: nat, b: nat)
    requires Linkable(d, a, b)
    ensures Class(d, a) !! Class(d, b)
    ensures d.size[a] + d.size[b] == |Class(d, a) + Class(d, b)| <= |d.parent|
  {
    var both := Class(d, a) + Class(d, b);
    NodesBelow(|d.parent|, both);
  }

  lemma {:induction false} NodesBelow(n: nat, s: set<nat>)
    requires forall v | v in s :: v < n
    ensures |s| <= n
  {
    if n == 0 {
      assert s == {};
    } else {
      NodesBelow(n - 1, s - {n - 1});
    }
  }

  lemma LinkForest(d: Dsu, a: nat, b: nat)
    requires Linkable(d, a, b)
    ensures Forest(Link(d, a, b))
  {
    assert d.size[a] + d.size[b] <= |d.parent| by { ClassesDisjoint(d, a, b); }
    forall v: nat | v < |d.parent|
      ensures LinkOk(Link(d, a, b), v)
    {
      assert LinkOk(d, v) && LinkOk(d, a) && LinkOk(d, b);
    }
  }

  /** Linking moves exactly the class of b under a. */
  lemma LinkRoot(d: Dsu, a: nat, b: nat, v: nat)
    requires Linkable(d, a, b) && v < |d.parent|
    ensures Forest(Link(d, a, b))
    ensures Root(Link(d, a, b), v) == if Root(d, v) == b then a else Root(d, v)
  {
    LinkForest(d, a, b);
    var d' := Link(d, a, b);
    var mark := seq(|d.parent|, x requires 0 <= x < |d.parent| => if Root(d, x) == b then a else Root(d, x));
    forall x: nat | x < |d.parent|
      ensures Agrees(d', mark, x)
    {
      assert LinkOk(d, x);
    }
    RootIs(d', mark, v);
  }

  /** d' has the classes of d, with that of b moved into that of a. */
  ghost predicate Joined(d: Dsu, d': Dsu, a: nat, b: nat)
  {
    && Forest(d) && Forest(d') && |d.parent| == |d'.parent|
    && forall v: nat {:trigger Root(d', v)} | v < |d.parent| :: Root(d', v) == if Root(d, v) == b then a else Root(d, v)
  }

  lemma JoinedClass(d: Dsu, d': Dsu, a: nat, b: nat, r: nat)
    requires Joined(d, d', a, b) && a != b && r != b
    ensures Class(d', r) == if r == a then Class(d, a) + Class(d, b) else Class(d, r)
  {
    forall v
      ensures v in Class(d', r) <==> v in if r == a then Class(d, a) + Class(d, b) else Class(d, r)
    {
    }
  }

  lemma LinkJoins(d: Dsu, a: nat, b: nat)
    requires Linkable(d, a, b)
    ensures Joined(d, Link(d, a, b), a, b)
    ensures Roots(Link(d, a, b)) == Roots(d) - {b}
  {
    LinkForest(d, a, b);
    forall v: nat | v < |d.parent|
      ensures Root(Link(d, a, b), v) == if Root(d, v) == b then a else Root(d, v)
    {
      LinkRoot(d, a, b, v);
    }
  }

  lemma LinkValid(d: Dsu, a: nat, b: nat)
    requires Linkable(d, a, b)
    ensures Valid(Link(d, a, b))
  {
    LinkJoins(d, a, b);
    ClassesDisjoint(d, a, b);
    var d' := Link(d, a, b);
    forall r | r in Roots(d')
      ensures d'.size[r] == |Class(d', r)|
    {
      JoinedClass(d, d', a, b, r);
    }
  }

  // ---------- global consequences ----------

  ghost function Depth(d: Dsu, v: nat): nat
    requires Forest(d) && v < |d.parent|
    decreases |d.parent| - d.size[v]
  {
    assert LinkOk(d, v) && LinkOk(d, d.parent[v]);
    if d.parent[v] == v then 0 else 1 + Depth(d, d.parent[v])
  }

  /** Trees are logarithmically shallow. */
  lemma {:induction false} DepthBound(d: Dsu, v: nat)
    requires Forest(d) && v < |d.parent|
    ensures Pow2(Depth(d, v)) * d.size[v] <= d.size[Root(d, v)]
    ensures Pow2(Depth(d, v)) <= d.size[Root(d, v)]
    decreases |d.parent| - d.size[v]
  {
    var p := d.parent[v];
    assert LinkOk(d, v) && LinkOk(d, p);
    if p == v {
      assert Pow2(Depth(d, v)) == 1;
    } else {
      DepthBound(d, p);
      Scale(Pow2(Depth(d, p)), d.size[v], d.size[p], d.size[Root(d, v)]);
    }
  }

  lemma Scale(k: nat, x: nat, y: nat, bound: nat)
    requires 1 <= x && 2 * x <= y && k * y <= bound
    ensures 2 * k * x <= bound && 2 * k <= bound
  {
    assert k * (2 * x) <= k * y;
    assert k * 1 <= k * x;
  }

  /** The sum of size over the roots below k. */
  ghost function RootSizes(d: Dsu, k: nat): nat
    requires |d.size| == |d.parent| && k <= |d.parent|
  {
    if k == 0 then 0 else RootSizes(d, k - 1) + if d.parent[k - 1] == k - 1 then d.size[k - 1] else 0
  }

  lemma SizesSumToN(d: Dsu)
    requires Valid(d)
    ensures RootSizes(d, |d.parent|) == |d.parent|
  {
    var n := |d.parent|;
    RootSizesCount(d, n);
    assert RootedBelow(d, n) == NodesUpTo(n);
  }

  ghost function NodesUpTo(n: nat): (s: set<nat>)
    ensures forall v: nat :: v in s <==> v < n
    ensures |s| == n
  {
    if n == 0 then {} else NodesUpTo(n - 1) + {n - 1}
  }

  ghost function RootedBelow(d: Dsu, k: nat): set<nat>
    requires Forest(d)
  {
    set v: nat | v < |d.parent| && Root(d, v) < k
  }

  lemma {:induction false} RootSizesCount(d: Dsu, k: nat)
    requires Valid(d) && k <= |d.parent|
    ensures RootSizes(d, k) == |RootedBelow(d, k)|
  {
    if k == 0 {
      assert RootedBelow(d, k) == {};
    } else {
      RootSizesCount(d, k - 1);
      RootedOneMore(d, k - 1);
      if d.parent[k - 1] == k - 1 { assert k - 1 in Roots(d); }
    }
  }

  lemma RootedOneMore(d: Dsu, k: nat)
    requires Forest(d) && k < |d.parent|
    ensures |RootedBelow(d, k + 1)| == |RootedBelow(d, k)| + |Class(d, k)|
    ensures d.parent[k] != k ==> Class(d, k) == {}
  {
    var low, here := RootedBelow(d, k), Class(d, k);
    assert RootedBelow(d, k + 1) == low + here && low !! here;
  }

  // ---------- union-find with a spanning forest ----------

  /** `forest` is a spanning forest of the classes: acyclic, and connecting exactly what shares a root. */
  ghost predicate Spanning(d: Dsu, forest: set<nat>)
  {
    && Valid(d)
    && Simple(forest, |d.parent|)
    && Acyclic(forest)
    && Components(d, forest)
    && |forest| + |Roots(d)| == |d.parent|
  }

  lemma SpanningSingletons(n: nat)
    requires n <= NODE_SPACE
    ensures Spanning(Singletons(n), {})
  {
    var d := Singletons(n);
    SingletonsValid(n);
    forall u: nat, v: nat | u < n && v < n
      ensures Root(d, u) == Root(d, v) <==> Connected({}, u, v)
    {
      Reflexive({}, u);
      if Connected({}, u, v) { EmptyCutConfines({}, n, {u}, u, v); }
    }
    assert Roots(d) == NodesUpTo(n);
  }

  lemma SpanningSameRoots(d: Dsu, d': Dsu, forest: set<nat>)
    requires Spanning(d, forest) && Forest(d') && SameRoots(d, d') && d.size == d'.size
    ensures Spanning(d', forest)
  {
    SameRootsValid(d, d');
  }

  /** Linking two classes along an edge {s, t} between them extends the spanning forest. */
  lemma SpanningLink(d: Dsu, forest: set<nat>, a: nat, b: nat, s: nat, t: nat)
    requires Spanning(d, forest) && Linkable(d, a, b)
    requires s < |d.parent| && t < |d.parent| && Between(d, a, b, s, t)
    ensures Spanning(Link(d, a, b), forest + {Id(s, t)})
  {
    var d', more := Link(d, a, b), forest + {Id(s, t)};
    LinkJoins(d, a, b);
    LinkValid(d, a, b);
    GrowForest(forest, |d.parent|, s, t);
    JoinedUnites(d, d', a, b, s, t);
    ComponentsUnite(d, d', forest, s, t);
  }

  ghost predicate Between(d: Dsu, a: nat, b: nat, s: nat, t: nat)
    requires Forest(d) && s < |d.parent| && t < |d.parent|
  {
    (Root(d, s) == a && Root(d, t) == b) || (Root(d, s) == b && Root(d, t) == a)
  }

  /** The partition of d' is that of d with the classes of s and t made one. */
  ghost predicate United(d: Dsu, d': Dsu, s: nat, t: nat)
  {
    && Forest(d) && Forest(d') && |d.parent| == |d'.parent|
    && s < |d.parent| && t < |d.parent|
    && forall u: nat, v: nat {:trigger SameOnceUnited(d, s, t, u, v)} | u < |d.parent| && v < |d.parent| ::
         Root(d', u) == Root(d', v) <==> SameOnceUnited(d, s, t, u, v)
  }

  ghost predicate SameOnceUnited(d: Dsu, s: nat, t: nat, u: nat, v: nat)
    requires Forest(d) && s < |d.parent| && t < |d.parent| && u < |d.parent| && v < |d.parent|
  {
    || Root(d, u) == Root(d, v)
    || (Root(d, u) == Root(d, s) && Root(d, t) == Root(d, v))
    || (Root(d, u) == Root(d, t) && Root(d, s) == Root(d, v))
  }

  lemma JoinedUnites(d: Dsu, d': Dsu, a: nat, b: nat, s: nat, t: nat)
    requires Joined(d, d', a, b) && a != b
    requires s < |d.parent| && t < |d.parent| && Between(d, a, b, s, t)
    ensures United(d, d', s, t)
  {
  }

  lemma ComponentsUnite(d: Dsu, d': Dsu, edges: set<nat>, s: nat, t: nat)
    requires United(d, d', s, t) && Components(d, edges) && |d.parent| <= NODE_SPACE
    ensures Components(d', edges + {Id(s, t)})
  {
    forall u: nat, v: nat | u < |d.parent| && v < |d.parent|
      ensures Root(d', u) == Root(d', v) <==> Connected(edges + {Id(s, t)}, u, v)
    {
      AddEdge(edges, s, t, u, v);
      assert SameOnceUnited(d, s, t, u, v) <==> Bridged(edges, s, t, u, v);
    }
  }

  lemma UniteInLockstep(d: Dsu, d': Dsu, e: Dsu, e': Dsu, s: nat, t: nat)
    requires United(d, d', s, t) && United(e, e', s, t) && SamePartition(d, e)
    ensures SamePartition(d', e')
  {
    forall u: nat, v: nat | u < |d.parent| && v < |d.parent|
      ensures Together(d', u, v) <==> Together(e', u, v)
    {
      assert Together(d, u, v) <==> Together(e, u, v);
      assert Together(d, u, s) <==> Together(e, u, s);
      assert Together(d, t, v) <==> Together(e, t, v);
      assert Together(d, u, t) <==> Together(e, u, t);
      assert Together(d, s, v) <==> Together(e, s, v);
      assert SameOnceUnited(d, s, t, u, v) <==> SameOnceUnited(e, s, t, u, v);
    }
  }
}
