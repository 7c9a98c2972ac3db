/** Paths, connectivity, cuts and spanning forests of a graph given as a set of edge ids. */
module Connectivity {
  import opened Basics
  import opened Edges

  predicate Adjacent(edges: set<nat>, u: nat, v: nat)
  {
    u < NODE_SPACE && v < NODE_SPACE && Id(u, v) in edges
  }

  ghost predicate Walk(edges: set<nat>, p: seq<nat>)
  {
    |p| > 0 && forall i | 0 < i < |p| :: Adjacent(edges, p[i - 1], p[i])
  }

  ghost predicate WalkFromTo(edges: set<nat>, p: seq<nat>, u: nat, v: nat)
  {
    Walk(edges, p) && p[0] == u && p[|p| - 1] == v
  }

  ghost predicate Connected(edges: set<nat>, u: nat, v: nat)
  {
    exists p :: WalkFromTo(edges, p, u, v)
  }

  /** Whatever holds at u and is passed along edges holds at every node connected to u. */
  lemma {:induction false} Reach(edges: set<nat>, u: nat, v: nat, holds: iset<nat>)
    requires u in holds
    requires forall x: nat, y: nat | x in holds && Adjacent(edges, x, y) :: y in holds
    requires Connected(edges, u, v)
    ensures v in holds
  {
    var p :| WalkFromTo(edges, p, u, v);
    var i := 0;
    while i < |p| - 1
      invariant 0 <= i < |p| && p[i] in holds
    {
      i := i + 1;
      assert Adjacent(edges, p[i - 1], p[i]);
    }
  }

  lemma Reflexive(edges: set<nat>, u: nat)
    ensures Connected(edges, u, u)
  {
    assert WalkFromTo(edges, [u], u, u);
  }

  lemma OneEdge(edges: set<nat>, u: nat, v: nat)
    requires Adjacent(edges, u, v)
    ensures Connected(edges, u, v)
  {
    assert WalkFromTo(edges, [u, v], u, v);
  }

  lemma Transitive(edges: set<nat>, u: nat, v: nat, w: nat)
    requires Connected(edges, u, v) && Connected(edges, v, w)
    ensures Connected(edges, u, w)
  {
    var p :| WalkFromTo(edges, p, u, v);
    var q :| WalkFromTo(edges, q, v, w);
    var r := p + q[1..];
    forall i | 0 < i < |r|
      ensures Adjacent(edges, r[i - 1], r[i])
    {
      if i >= |p| { assert Adjacent(edges, q[i - |p|], q[i - |p| + 1]); }
    }
    assert WalkFromTo(edges, r, u, w);
  }

  lemma Symmetric(edges: set<nat>, u: nat, v: nat)
    requires Connected(edges, u, v)
    ensures Connected(edges, v, u)
  {
    Reflexive(edges, u);
    var holds := iset x: nat | Connected(edges, x, u);
    forall x: nat, y: nat | x in holds && Adjacent(edges, x, y)
      ensures y in holds
    {
      assert Adjacent(edges, y, x);
      OneEdge(edges, y, x);
      Transitive(edges, y, x, u);
    }
    Reach(edges, u, v, holds);
  }

  lemma Monotone(edges: set<nat>, more: set<nat>, u: nat, v: nat)
    requires edges <= more && Connected(edges, u, v)
    ensures Connected(more, u, v)
  {
    var p :| WalkFromTo(edges, p, u, v);
    assert WalkFromTo(more, p, u, v);
  }

  /** Through a new edge {a, b}: the walk either avoids it or crosses it once in one direction. */
  ghost predicate Bridged(edges: set<nat>, a: nat, b: nat, u: nat, v: nat)
  {
    || Connected(edges, u, v)
    || (Connected(edges, u, a) && Connected(edges, b, v))
    || (Connected(edges, u, b) && Connected(edges, a, v))
  }

  lemma BridgedStep(edges: set<nat>, a: nat, b: nat, u: nat, x: nat, y: nat)
    requires Bridged(edges, a, b, u, x)
    requires Adjacent(edges, x, y) || (x == a && y == b) || (x == b && y == a)
    ensures Bridged(edges, a, b, u, y)
  {
    Reflexive(edges, y);
    if Adjacent(edges, x, y) {
      OneEdge(edges, x, y);
      if Connected(edges, u, x) {
        Transitive(edges, u, x, y);
      } else if Connected(edges, u, a) && Connected(edges, b, x) {
        Transitive(edges, b, x, y);
      } else {
        Transitive(edges, a, x, y);
      }
    }
  }

  /** Adding the edge {a, b} joins exactly the component of a and that of b. */
  lemma AddEdge(edges: set<nat>, a: nat, b: nat, u: nat, v: nat)
    requires a < NODE_SPACE && b < NODE_SPACE
    ensures Connected(edges + {Id(a, b)}, u, v) <==> Bridged(edges, a, b, u, v)
  {
    var more := edges + {Id(a, b)};
    if Connected(more, u, v) {
      Reflexive(edges, u);
      var holds := iset x: nat | Bridged(edges, a, b, u, x);
      forall x: nat, y: nat | x in holds && Adjacent(more, x, y)
        ensures y in holds
      {
        if !Adjacent(edges, x, y) { SameEnds(a, b, x, y); }
        BridgedStep(edges, a, b, u, x, y);
      }
      Reach(more, u, v, holds);
    }
    if Bridged(edges, a, b, u, v) && !Connected(edges, u, v) {
      if Connected(edges, u, a) && Connected(edges, b, v) {
        Crossing(edges, more, u, a, b, v);
      } else {
        Crossing(edges, more, u, b, a, v);
      }
    } else if Connected(edges, u, v) {
      Monotone(edges, more, u, v);
    }
  }

  lemma Crossing(edges: set<nat>, more: set<nat>, u: nat, a: nat, b: nat, v: nat)
    requires edges <= more && Adjacent(more, a, b)
    requires Connected(edges, u, a) && Connected(edges, b, v)
    ensures Connected(more, u, v)
  {
    Monotone(edges, more, u, a);
    OneEdge(more, a, b);
    Monotone(edges, more, b, v);
    Transitive(more, u, a, b);
    Transitive(more, u, b, v);
  }

  lemma SameEnds(a: nat, b: nat, x: nat, y: nat)
    requires a < NODE_SPACE && b < NODE_SPACE && x < NODE_SPACE && y < NODE_SPACE
    requires Id(a, b) == Id(x, y)
    ensures (x == a && y == b) || (x == b && y == a)
  {
    PairingRoundTrip(a, b);
    PairingRoundTrip(x, y);
  }

  lemma EdgeEnds(edges: set<nat>, n: nat, e: nat)
    requires Simple(edges, n) && e in edges
    ensures Id(Src(e), Dst(e)) == e
    ensures Adjacent(edges, Src(e), Dst(e)) && Adjacent(edges, Dst(e), Src(e))
  {
    DecodeThenEncode(e);
    assert Id(Dst(e), Src(e)) == e;
  }

  lemma AdjacentEdge(edges: set<nat>, n: nat, u: nat, v: nat)
    requires Simple(edges, n) && Adjacent(edges, u, v)
    ensures u != v && u < n && v < n
    ensures Src(Id(u, v)) == Min(u, v) && Dst(Id(u, v)) == Max(u, v)
  {
    PairingRoundTrip(u, v);
  }

  // ---------- cuts ----------

  predicate Crosses(e: nat, side: set<nat>)
  {
    (Src(e) in side) != (Dst(e) in side)
  }

  /** The edges with exactly one endpoint in `side`. */
  function Cut(edges: set<nat>, side: set<nat>): set<nat>
  {
    set e | e in edges && Crosses(e, side)
  }

  /** The linearity Boruvka rests on: edges between the two sides cancel. */
  lemma CutOfUnion(edges: set<nat>, a: set<nat>, b: set<nat>)
    requires a !! b
    ensures Cut(edges, a + b) == SymDiff(Cut(edges, a), Cut(edges, b))
  {
    forall e | e in edges
      ensures Crosses(e, a + b) <==> Crosses(e, a) != Crosses(e, b)
    {
    }
  }

  /** Nothing leaves a side with an empty cut. */
  lemma EmptyCutConfines(edges: set<nat>, n: nat, side: set<nat>, u: nat, v: nat)
    requires Simple(edges, n) && Cut(edges, side) == {}
    requires u in side && Connected(edges, u, v)
    ensures v in side
  {
    var holds := iset x: nat | x in side;
    forall x: nat, y: nat | x in holds && Adjacent(edges, x, y)
      ensures y in holds
    {
      AdjacentEdge(edges, n, x, y);
      assert Id(x, y) !in Cut(edges, side);
    }
    Reach(edges, u, v, holds);
  }

  // ---------- forests ----------

  /** Acyclic: every edge is a bridge. */
  ghost predicate Acyclic(forest: set<nat>)
  {
    forall e | e in forest :: !Connected(forest - {e}, Src(e), Dst(e))
  }

  /** An edge between two trees keeps a forest acyclic. */
  lemma GrowForest(forest: set<nat>, n: nat, a: nat, b: nat)
    requires Simple(forest, n) && Acyclic(forest)
    requires a < n && b < n && !Connected(forest, a, b)
    ensures a != b && Id(a, b) !in forest
    ensures Simple(forest + {Id(a, b)}, n) && Acyclic(forest + {Id(a, b)})
  {
    Reflexive(forest, a);
    PairingRoundTrip(a, b);
    if Adjacent(forest, a, b) { OneEdge(forest, a, b); }
    var more := forest + {Id(a, b)};
    forall e | e in more
      ensures !Connected(more - {e}, Src(e), Dst(e))
    {
      if e == Id(a, b) {
        assert more - {e} == forest;
        if Connected(forest, Src(e), Dst(e)) { Symmetric(forest, Src(e), Dst(e)); }
      } else {
        GrowForestBridge(forest, n, a, b, e);
      }
    }
  }

  lemma GrowForestBridge(forest: set<nat>, n: nat, a: nat, b: nat, e: nat)
    requires Simple(forest, n) && Acyclic(forest) && e in forest
    requires a < n && b < n && !Connected(forest, a, b) && Id(a, b) != e
    ensures !Connected(forest + {Id(a, b)} - {e}, Src(e), Dst(e))
  {
    var rest, s, d := forest - {e}, Src(e), Dst(e);
    assert forest + {Id(a, b)} - {e} == rest + {Id(a, b)};
    AddEdge(rest, a, b, s, d);
    if Connected(rest + {Id(a, b)}, s, d) {
      EdgeEnds(forest, n, e);
      if Connected(rest, s, a) && Connected(rest, b, d) {
        JoinedThrough(forest, e, s, d, a, b);
      } else {
        JoinedThrough(forest, e, s, d, b, a);
        Symmetric(forest, b, a);
      }
    }
  }

  /** a - s - d - b, where {s, d} is the removed edge e. */
  lemma JoinedThrough(forest: set<nat>, e: nat, s: nat, d: nat, a: nat, b: nat)
    requires Adjacent(forest, s, d)
    requires Connected(forest - {e}, s, a) && Connected(forest - {e}, b, d)
    ensures Connected(forest, a, b)
  {
    Symmetric(forest - {e}, s, a);
    Symmetric(forest - {e}, b, d);
    Crossing(forest - {e}, forest, a, s, d, b);
  }
}
