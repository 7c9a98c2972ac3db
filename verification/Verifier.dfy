/** test/util/mat_graph_verifier.cpp: the reference that runs beside the emulation, with its
    adjacency matrix, Kruskal's algorithm and a union-find of its own. */
module Verifier {
  import opened Basics
  import opened Edges
  import opened Connectivity
  import opened DisjointSets
  import opened UnionFind
  import opened Answers
  import opened Updates

  /** Row i of the packed matrix holds the pairs {i, i + j}. */
  ghost predicate Packed(adj: seq<seq<bool>>, n: nat)
  {
    |adj| == n && forall i | 0 <= i < n :: |adj[i]| == n - i
  }

  /** The matrix is that of the graph; its diagonal is ignored. */
  ghost predicate Mirrors(adj: seq<seq<bool>>, n: nat, edges: set<nat>)
  {
    && Packed(adj, n) && Simple(edges, n)
    && forall i: nat, j: nat {:trigger adj[i][j]} | i < n && 0 < j < n - i :: adj[i][j] <==> Id(i, i + j) in edges
  }

  lemma MirrorsToggle(adj: seq<seq<bool>>, n: nat, edges: set<nat>, s: nat, j: nat)
    requires Mirrors(adj, n, edges) && s < n && j < n - s
    ensures Mirrors(adj[s := adj[s][j := !adj[s][j]]], n, ToggleEdge(edges, s, s + j))
  {
    ToggleEdgeSimple(edges, n, s, s + j);
    var adj' := adj[s := adj[s][j := !adj[s][j]]];
    forall i: nat, k: nat | i < n && 0 < k < n - i
      ensures adj'[i][k] <==> Id(i, i + k) in ToggleEdge(edges, s, s + j)
    {
      assert adj[i][k] <==> Id(i, i + k) in edges;
      OtherEdge(edges, s, j, i, k);
    }
  }

  /** A toggle changes the one edge and no other. */
  lemma OtherEdge(edges: set<nat>, s: nat, j: nat, i: nat, k: nat)
    requires s + j < NODE_SPACE && i + k < NODE_SPACE && 0 < k
    ensures Id(i, i + k) in ToggleEdge(edges, s, s + j) <==> (Id(i, i + k) in edges) != (s == i && j == k)
  {
    PairingRoundTrip(i, i + k);
    PairingRoundTrip(s, s + j);
  }

  /** The edges the nested loops have seen before cell (i, j). */
  ghost function Seen(edges: set<nat>, i: nat, j: nat): set<nat>
  {
    set e | e in edges && (Src(e) < i || (Src(e) == i && Dst(e) < i + j))
  }

  lemma SeenStep(adj: seq<seq<bool>>, n: nat, edges: set<nat>, i: nat, j: nat)
    requires Mirrors(adj, n, edges) && i < n && j < n - i
    ensures j > 0 && adj[i][j] ==> Seen(edges, i, j + 1) == Seen(edges, i, j) + {Id(i, i + j)}
    ensures !(j > 0 && adj[i][j]) ==> Seen(edges, i, j + 1) == Seen(edges, i, j)
  {
    PairingRoundTrip(i, i + j);
    forall e | e in edges && Src(e) == i && Dst(e) == i + j
      ensures e == Id(i, i + j)
    {
      EdgeEnds(edges, n, e);
    }
    if j > 0 {
      assert adj[i][j] <==> Id(i, i + j) in edges;
    }
  }

  lemma RowSeen(edges: set<nat>, n: nat, i: nat)
    requires Simple(edges, n) && i < n
    ensures Seen(edges, i, n - i) == Seen(edges, i + 1, 0)
  {
  }

  /** One merge of Kruskal's loops. */
  lemma KruskalMerge(adj: seq<seq<bool>>, n: nat, edges: set<nat>, i: nat, j: nat, d: Dsu, d': Dsu)
    requires Mirrors(adj, n, edges) && i < n && j < n - i && adj[i][j]
    requires United(d, d', i, i + j) && |d.parent| == n && Components(d, Seen(edges, i, j))
    ensures Components(d', Seen(edges, i, j + 1))
  {
    SeenStep(adj, n, edges, i, j);
    if j > 0 {
      ComponentsUnite(d, d', Seen(edges, i, j), i, i + j);
    } else {
      SelfUnion(d, d', Seen(edges, i, j), i);
    }
  }

  lemma SelfUnion(d: Dsu, d': Dsu, edges: set<nat>, s: nat)
    requires United(d, d', s, s) && Components(d, edges)
    ensures Components(d', edges)
  {
    forall u: nat, v: nat | u < |d.parent| && v < |d.parent|
      ensures Root(d', u) == Root(d', v) <==> Connected(edges, u, v)
    {
      assert SameOnceUnited(d, s, s, u, v) <==> Root(d, u) == Root(d, v);
    }
  }

  lemma Cell(adj: seq<seq<bool>>, n: nat, edges: set<nat>, u: nat, v: nat)
    requires Mirrors(adj, n, edges) && u < n && v < n
    ensures u == v ==> !Adjacent(edges, u, v)
    ensures u != v ==> (adj[Min(u, v)][Max(u, v) - Min(u, v)] <==> Adjacent(edges, u, v))
  {
    PairingRoundTrip(u, v);
    if u != v {
      assert adj[Min(u, v)][Max(u, v) - Min(u, v)] <==> Id(Min(u, v), Max(u, v)) in edges;
    }
  }

  /** The sets kept at the roots are their classes. */
  ghost predicate Tracks(cc: seq<set<nat>>, d: Dsu)
  {
    && DisjointSets.Valid(d) && |cc| == |d.parent|
    && forall r {:trigger cc[r]} {:trigger Class(d, r)} | r in Roots(d) :: cc[r] == Class(d, r)
  }

  lemma TracksShortened(cc: seq<set<nat>>, d: Dsu, d': Dsu)
    requires Tracks(cc, d) && OnlyShortened(d, d')
    ensures Tracks(cc, d')
  {
    SameRootsValid(d, d');
  }

  lemma TracksJoin(cc: seq<set<nat>>, d: Dsu, d': Dsu, a: nat, b: nat)
    requires Tracks(cc, d) && DisjointSets.Valid(d') && Joined(d, d', a, b)
    requires a in Roots(d) && b in Roots(d) && a != b
    ensures Tracks(cc[a := cc[a] + cc[b]], d')
  {
    forall r | r in Roots(d')
      ensures cc[a := cc[a] + cc[b]][r] == Class(d', r)
    {
      assert Root(d', r) == r && Root(d, a) == a && Root(d, b) == b;
      assert r != b && Root(d, r) == r;
      assert r in Roots(d);
      JoinedClass(d, d', a, b, r);
    }
  }

  class MatGraphVerifier {
    const n: nat
    const sets: DisjointSetUnion
    var adj: seq<seq<bool>>
    var kruskalRef: seq<set<nat>>
    var boruvkaCc: seq<set<nat>>
    ghost var edges: set<nat>  // the toggled graph

    ghost predicate Valid()
      reads this
    {
      Mirrors(adj, n, edges)
    }

    /** Reset and not since disturbed by an update: fit to follow a run on `edges`. */
    ghost predicate Ready()
      reads this, sets
    {
      && Valid()
      && ListsComponents(kruskalRef, edges, n)
      && |sets.d.parent| == n && Tracks(boruvkaCc, sets.d)
    }

    constructor (n: nat)
      requires n <= NODE_SPACE
      ensures Valid() && edges == {} && this.n == n && fresh(sets)
    {
      this.n, kruskalRef, boruvkaCc, edges := n, [], [], {};
      adj := seq(n, i requires 0 <= i < n => seq(n - i, j => false));
      sets := new DisjointSetUnion(n);
    }

    method EdgeUpdate(u: nat, v: nat)
      requires Valid() && u < n && v < n
      modifies this
      ensures Valid() && edges == ToggleEdge(old(edges), u, v)
    {
      var src, dst := Min(u, v), Max(u, v);
      MirrorsToggle(adj, n, edges, src, dst - src);
      adj := adj[src := adj[src][dst - src := !adj[src][dst - src]]];
      edges := ToggleEdge(edges, u, v);
      assert Id(src, dst) == Id(u, v);
    }

    /** The reference answer: the connected components of the toggled graph. */
    method Kruskal() returns (answer: seq<set<nat>>)
      requires Valid()
      ensures ListsComponents(answer, edges, n)
    {
      var dsu := new DisjointSetUnion(n);
      SpanningSingletons(n);
      assert Seen(edges, 0, 0) == {};
      for i := 0 to n
        invariant DisjointSets.Valid(dsu.d) && |dsu.d.parent| == n
        invariant Components(dsu.d, Seen(edges, i, 0))
      {
        MergeRow(dsu, i);
      }
      assert Seen(edges, n, 0) == edges;
      ClassListIsComponents(dsu.d, edges);
      answer := ListClasses(dsu);
    }

    /** The inner loop of Kruskal's algorithm. */
    method MergeRow(dsu: DisjointSetUnion, i: nat)
      requires Valid() && i < n && DisjointSets.Valid(dsu.d) && |dsu.d.parent| == n
      requires Components(dsu.d, Seen(edges, i, 0))
      modifies dsu
      ensures DisjointSets.Valid(dsu.d) && |dsu.d.parent| == n
      ensures Components(dsu.d, Seen(edges, i + 1, 0))
    {
      for j := 0 to |adj[i]|
        invariant DisjointSets.Valid(dsu.d) && |dsu.d.parent| == n
        invariant Components(dsu.d, Seen(edges, i, j))
      {
        SeenStep(adj, n, edges, i, j);
        if adj[i][j] { MergeCell(dsu, i, j); }
      }
      RowSeen(edges, n, i);
    }

    method MergeCell(dsu: DisjointSetUnion, i: nat, j: nat)
      requires Valid() && i < n && j < n - i && adj[i][j] && DisjointSets.Valid(dsu.d) && |dsu.d.parent| == n
      requires Components(dsu.d, Seen(edges, i, j))
      modifies dsu
      ensures DisjointSets.Valid(dsu.d) && |dsu.d.parent| == n
      ensures Components(dsu.d, Seen(edges, i, j + 1))
    {
      var _ := dsu.Merge(i, i + j);
      KruskalMerge(adj, n, edges, i, j, old(dsu.d), dsu.d);
    }

    static method ListClasses(dsu: DisjointSetUnion) returns (answer: seq<set<nat>>)
      requires DisjointSets.Valid(dsu.d)
      modifies dsu
      ensures OnlyShortened(old(dsu.d), dsu.d)
      ensures answer == ClassList(old(dsu.d), |old(dsu.d).parent|)
    {
      ghost var d := dsu.d;
      var n := |dsu.d.parent|;
      var groups: map<nat, set<nat>> := map[];
      for i := 0 to n
        invariant OnlyShortened(d, dsu.d)
        invariant Grouped(d, groups, i)
      {
        GroupStep(d, groups, i);
        var r := dsu.FindRoot(i);
        groups := Insert(groups, r, i);
      }
      answer := [];
      for r := 0 to n
        invariant answer == ClassList(d, r)
        modifies {}
      {
        GroupsListStep(d, groups, r);
        if r in groups { answer := answer + [groups[r]]; }
      }
    }

    method ResetCcState()
      requires Valid() && |sets.d.size| == |sets.d.parent| == n
      modifies this, sets
      ensures Ready() && edges == old(edges) && adj == old(adj)
      ensures sets.d == Singletons(n)
    {
      kruskalRef := Kruskal();
      sets.Reset();
      SingletonsValid(n);
      boruvkaCc := [];
      for i := 0 to n
        invariant |boruvkaCc| == i && forall v | 0 <= v < i :: boruvkaCc[v] == {v}
        modifies this`boruvkaCc
      {
        boruvkaCc := boruvkaCc + [{i}];
      }
      forall r | r in Roots(sets.d)
        ensures boruvkaCc[r] == Class(sets.d, r)
      {
        assert Class(sets.d, r) == {r};
      }
    }

    /** Passes exactly the edges of the graph that join two classes, and joins them. */
    method VerifyEdge(u: nat, v: nat) returns (ok: bool)
      requires Ready() && u < n && v < n
      modifies this`boruvkaCc, sets
      ensures Ready()
      ensures ok <==> Adjacent(edges, u, v) && Root(old(sets.d), u) != Root(old(sets.d), v)
      ensures ok ==> United(old(sets.d), sets.d, u, v)
      ensures !ok ==> OnlyShortened(old(sets.d), sets.d)
    {
      var src, dst := Min(u, v), Max(u, v);
      Cell(adj, n, edges, u, v);
      if !adj[src][dst - src] { return false; }
      ghost var d := sets.d;
      var ret := sets.Merge(u, v);
      if ret.merged {
        TracksJoin(boruvkaCc, d, sets.d, ret.root, ret.child);
        boruvkaCc := boruvkaCc[ret.root := boruvkaCc[ret.root] + boruvkaCc[ret.child]];
      } else {
        TracksShortened(boruvkaCc, d, sets.d);
      }
      return ret.merged;
    }

    /** Passes exactly the nodes whose class is a whole component. */
    method VerifyCc(node: nat) returns (ok: bool)
      requires Ready() && node < n
      modifies sets
      ensures Ready() && OnlyShortened(old(sets.d), sets.d)
      ensures ok <==> IsComponent(Class(sets.d, Root(sets.d, node)), edges, n)
    {
      ghost var d := sets.d;
      var r := sets.FindRoot(node);
      TracksShortened(boruvkaCc, d, sets.d);
      EntryIffComponent(boruvkaCc[r], kruskalRef, edges, n);
      ok := boruvkaCc[r] in kruskalRef;
    }

    /** Passes exactly the correct answers: sorted lists agree when the multisets do. */
    method VerifySoln(answer: seq<set<nat>>) returns (ok: bool)
      requires Ready()
      ensures ok <==> ListsComponents(answer, edges, n)
    {
      ok := multiset(answer) == multiset(kruskalRef);
      if ok { ReorderedAnswer(kruskalRef, answer, edges, n); }
      if ListsComponents(answer, edges, n) { SameAnswer(answer, kruskalRef, edges, n); }
    }
  }
}
