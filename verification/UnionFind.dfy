/** include/dsu.h: the sequential union-find object, and the atomic variant as written. */
module UnionFind {
  import opened DisjointSets

  datatype MergeRet = MergeRet(merged: bool, root: nat, child: nat)

  /** What any operation that only shortens paths may do. */
  ghost predicate OnlyShortened(d: Dsu, d': Dsu)
  {
    Valid(d) && Valid(d') && d.size == d'.size && SameRoots(d, d')
  }

  lemma OneShortening(d: Dsu, v: nat, w: nat)
    requires Valid(d) && v < |d.parent| && w < |d.parent|
    requires d.parent[v] != v && Root(d, w) == Root(d, v) && 2 * d.size[v] <= d.size[w]
    ensures OnlyShortened(d, Reparent(d, v, w))
  {
    ReparentKeepsRoots(d, v, w);
    SameRootsValid(d, Reparent(d, v, w));
  }

  /** One step of path halving: v goes under its grandparent. */
  lemma HalvingStep(d: Dsu, v: nat)
    requires Valid(d) && v < |d.parent| && LinkOk(d, v) && LinkOk(d, d.parent[v]) && d.parent[d.parent[v]] != v
    ensures d.parent[d.parent[v]] < |d.parent|
    ensures var d' := Reparent(d, v, d.parent[d.parent[v]]);
      && OnlyShortened(d, d') && d'.parent[v] < |d'.parent| && Root(d', d'.parent[v]) == Root(d, v)
      && d'.size[v] < d'.size[d'.parent[v]] <= |d'.parent|
      && LinkOk(d', d'.parent[v]) && LinkOk(d', d'.parent[d'.parent[v]])
  {
    var w := d.parent[d.parent[v]];
    assert LinkOk(d, w);
    OneShortening(d, v, w);
    var d' := Reparent(d, v, w);
    assert LinkOk(d', w) && LinkOk(d', d'.parent[w]);
  }

  /** On the way from start to its root, at u; start itself goes under its grandparent first. */
  ghost predicate Halving(d0: Dsu, d: Dsu, start: nat, u: nat)
  {
    && OnlyShortened(d0, d) && start < |d.parent| && u < |d.parent|
    && LinkOk(d0, start) && LinkOk(d, u) && LinkOk(d, d.parent[u]) && Root(d, u) == Root(d0, start)
    && if u == start then d == d0 else d.parent[start] == d0.parent[d0.parent[start]] && d.size[start] < d.size[u]
  }

  lemma HalvingKept(d0: Dsu, d: Dsu, start: nat, u: nat)
    requires Halving(d0, d, start, u) && d.parent[d.parent[u]] != u
    ensures d.parent[d.parent[u]] < |d.parent|
    ensures var d' := Reparent(d, u, d.parent[d.parent[u]]);
      Halving(d0, d', start, d'.parent[u]) && d'.size[u] < d'.size[d'.parent[u]] <= |d'.parent|
  {
    HalvingStep(d, u);
  }

  lemma LinkAfterShortening(d: Dsu, d': Dsu, a: nat, b: nat)
    requires OnlyShortened(d, d') && a < |d.parent| && b < |d.parent| && a != b
    requires Root(d, a) == a && Root(d, b) == b && d.size[b] <= d.size[a]
    ensures Linkable(d', a, b) && Valid(Link(d', a, b))
    ensures Joined(d, Link(d', a, b), a, b)
  {
    assert Root(d', a) == a && Root(d', b) == b;
    LinkJoins(d', a, b);
    LinkValid(d', a, b);
  }

  /** Compare-and-exchange on parent[u]: if it is v, make it u and add the sizes. */
  function ExchangeParent(d: Dsu, u: nat, v: nat): (bool, Dsu)
    requires u < |d.parent| == |d.size| && v < |d.size|
  {
    if d.parent[u] == v then (true, Dsu(d.parent[u := u], d.size[u := d.size[u] + d.size[v]])) else (false, d)
  }

  class DisjointSetUnion {
    var d: Dsu  // the two vectors, parent and size

    constructor (n: nat)
      ensures d == Singletons(n)
    {
      d := Singletons(n);
    }

    /** Path halving. The loop stops when u is its own grandparent, that is, at a root. */
    method FindRoot(start: nat) returns (u: nat)
      requires Valid(d) && start < |d.parent|
      modifies this
      ensures OnlyShortened(old(d), d)
      ensures u == Root(old(d), start)
      ensures old(d).parent[start] < |d.parent| && d.parent[start] == old(d).parent[old(d).parent[start]]
    {
      u := start;
      ghost var d0 := d;
      assert LinkOk(d, u) && LinkOk(d, d.parent[u]);
      while d.parent[d.parent[u]] != u
        invariant Halving(d0, d, start, u)
        decreases |d.parent| - d.size[u]
      {
        HalvingKept(d0, d, start, u);
        d := Reparent(d, u, d.parent[d.parent[u]]);
        u := d.parent[u];
      }
    }

    method Merge(u: nat, v: nat) returns (r: MergeRet)
      requires Valid(d) && u < |d.parent| && v < |d.parent|
      modifies this
      ensures Valid(d) && |d.parent| == old(|d.parent|)
      ensures r.merged <==> Root(old(d), u) != Root(old(d), v)
      ensures United(old(d), d, u, v)
      ensures !r.merged ==> OnlyShortened(old(d), d) && r == MergeRet(false, 0, 0)
      ensures r.merged ==> r.root != r.child && Between(old(d), r.root, r.child, u, v)
      ensures r.merged ==> Joined(old(d), d, r.root, r.child)
    {
      var a := FindRoot(u);
      var b := FindRoot(v);
      if a == b { return MergeRet(false, 0, 0); }
      if d.size[a] < d.size[b] { a, b := b, a; }
      LinkAfterShortening(old(d), d, a, b);
      d := Link(d, a, b);
      JoinedUnites(old(d), d, a, b, u, v);
      return MergeRet(true, a, b);
    }

    /** The merge of the atomic variant, which has the same fields and the same find_root.
        It exchanges parent[u], not parent[v], and expects to find v there. Run by itself it
        therefore never joins anything: the exchange fails, v becomes u, and the loop ends. */
    method AtomicMerge(first: nat, second: nat) returns (r: MergeRet)
      requires Valid(d) && first < |d.parent| && second < |d.parent|
      modifies this
      ensures r == MergeRet(false, 0, 0)
      ensures OnlyShortened(old(d), d)
    {
      var u: nat := FindRoot(first);
      var v: nat := FindRoot(second);
      var linked := false;
      while u != v && !linked
        invariant OnlyShortened(old(d), d) && !linked
        invariant u < |d.parent| && v < |d.parent|
        invariant Root(d, u) == u && Root(d, v) == v
        decreases u != v
      {
        if d.size[u] < d.size[v] { u, v := v, u; }
        var exchange := ExchangeParent(d, u, v);
        linked, d := exchange.0, exchange.1;
        if !linked {
          v := d.parent[u];  // a failed exchange loads what it found
          u := FindRoot(u);
          v := FindRoot(v);
        }
      }
      r := if linked then MergeRet(true, u, v) else MergeRet(false, 0, 0);
    }

    method Reset()
      requires |d.size| == |d.parent|
      modifies this
      ensures d == Singletons(old(|d.parent|))
    {
      var n := |d.parent|;
      for i := 0 to n
        invariant |d.parent| == n && |d.size| == n
        invariant forall k | 0 <= k < i :: d.parent[k] == k && d.size[k] == 1
      {
        d := Dsu(d.parent[i := i], d.size[i := 1]);
      }
      assert d.parent == Singletons(n).parent && d.size == Singletons(n).size;
    }
  }
}
