/** include/graph.h: keeping a union-find and a spanning forest up to date under toggles,
    without knowing whether an update inserts or deletes. */
module EagerCache {
  import opened Edges
  import opened Connectivity
  import opened DisjointSets
  import opened UnionFind
  import opened Updates

  /** The cached answer is right: the classes are the components, and the forest is an acyclic
      spanning subset of the edges. */
  ghost predicate CacheRight(d: Dsu, forest: set<nat>, edges: set<nat>)
  {
    Spanning(d, forest) && forest <= edges && Components(d, edges)
  }

  lemma CacheStart(n: nat)
    requires n <= NODE_SPACE
    ensures CacheRight(Singletons(n), {}, {})
  {
    SpanningSingletons(n);
  }

  lemma CacheShortened(d: Dsu, d': Dsu, forest: set<nat>, edges: set<nat>)
    requires CacheRight(d, forest, edges) && OnlyShortened(d, d')
    ensures CacheRight(d', forest, edges)
  {
    SpanningSameRoots(d, d', forest);
  }

  /** Toggling an edge between two classes must be an insertion. */
  lemma CacheLink(d: Dsu, forest: set<nat>, edges: set<nat>, u: nat, v: nat, a: nat, b: nat)
    requires CacheRight(d, forest, edges) && u < |d.parent| && v < |d.parent|
    requires Linkable(d, a, b) && Between(d, a, b, u, v)
    ensures CacheRight(Link(d, a, b), forest + {Id(u, v)}, ToggleEdge(edges, u, v))
  {
    if Id(u, v) in edges {
      assert Adjacent(edges, u, v);
      OneEdge(edges, u, v);
    }
    SpanningLink(d, forest, a, b, u, v);
    LinkJoins(d, a, b);
    JoinedUnites(d, Link(d, a, b), a, b, u, v);
    ComponentsUnite(d, Link(d, a, b), edges, u, v);
  }

  /** Toggling a non-forest edge inside a class changes no component, whichever it does. */
  lemma CacheInside(d: Dsu, forest: set<nat>, edges: set<nat>, u: nat, v: nat)
    requires CacheRight(d, forest, edges) && u < |d.parent| && v < |d.parent|
    requires Root(d, u) == Root(d, v) && Id(u, v) !in forest
    ensures CacheRight(d, forest, ToggleEdge(edges, u, v))
  {
    var now := ToggleEdge(edges, u, v);
    assert Connected(edges, u, v);
    forall x: nat, y: nat | x < |d.parent| && y < |d.parent|
      ensures Root(d, x) == Root(d, y) <==> Connected(now, x, y)
    {
      if Root(d, x) == Root(d, y) {
        assert Connected(forest, x, y);
        Monotone(forest, now, x, y);
      }
      if Connected(now, x, y) { StillConnected(edges, u, v, x, y); }
    }
  }

  lemma StillConnected(edges: set<nat>, u: nat, v: nat, x: nat, y: nat)
    requires u < NODE_SPACE && v < NODE_SPACE && Connected(edges, u, v)
    requires Connected(ToggleEdge(edges, u, v), x, y)
    ensures Connected(edges, x, y)
  {
    if u != v && Id(u, v) !in edges {
      AddEdge(edges, u, v, x, y);
      Symmetric(edges, u, v);
      if !Connected(edges, x, y) {
        if Connected(edges, x, u) && Connected(edges, v, y) {
          Transitive(edges, x, u, v);
          Transitive(edges, x, v, y);
        } else {
          Transitive(edges, x, v, u);
          Transitive(edges, x, u, y);
        }
      }
    } else {
      Monotone(ToggleEdge(edges, u, v), edges, x, y);
    }
  }

  /** The union-find that point_query leaves behind is right exactly for a graph without edges. */
  lemma SingletonsRightIff(n: nat, forest: set<nat>, edges: set<nat>)
    requires Simple(edges, n) && forest <= edges
    ensures CacheRight(Singletons(n), forest, edges) <==> edges == {}
  {
    SpanningSingletons(n);
    SingletonsValid(n);
    if edges == {} {
      assert forest == {};
    } else {
      var e :| e in edges;
      EdgeEnds(edges, n, e);
      OneEdge(edges, Src(e), Dst(e));
    }
  }
}
