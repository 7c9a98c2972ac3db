/** The answer to a connectivity query: the list of classes, in the order of their roots. */
module Answers {
  import opened Connectivity
  import opened DisjointSets

  /** The roots below k in ascending order. */
  ghost function RootList(d: Dsu, k: nat): (rs: seq<nat>)
    requires k <= |d.parent|
  {
    if k == 0 then [] else RootList(d, k - 1) + if d.parent[k - 1] == k - 1 then [k - 1] else []
  }

  ghost function ClassList(d: Dsu, k: nat): (cs: seq<set<nat>>)
    requires Forest(d) && k <= |d.parent|
  {
    seq(|RootList(d, k)|, i requires 0 <= i < |RootList(d, k)| => Class(d, RootList(d, k)[i]))
  }

  lemma {:induction false} RootListSorted(d: Dsu, k: nat)
    requires k <= |d.parent|
    ensures forall r: nat :: r in RootList(d, k) <==> r < k && d.parent[r] == r
    ensures forall i, j | 0 <= i < j < |RootList(d, k)| :: RootList(d, k)[i] < RootList(d, k)[j] < k
  {
    if k > 0 {
      RootListSorted(d, k - 1);
      var before := RootList(d, k - 1);
      assert forall i | 0 <= i < |before| :: before[i] in before;
    }
  }

  ghost predicate IsComponent(c: set<nat>, edges: set<nat>, n: nat)
  {
    && c != {}
    && forall u | u in c :: u < n && forall v: nat | v < n :: v in c <==> Connected(edges, u, v)
  }

  ghost predicate Covers(cs: seq<set<nat>>, v: nat)
  {
    exists i :: 0 <= i < |cs| && v in cs[i]
  }

  /** One entry per connected component of the graph on n nodes, and no other entries. */
  ghost predicate ListsComponents(cs: seq<set<nat>>, edges: set<nat>, n: nat)
  {
    && (forall i | 0 <= i < |cs| :: IsComponent(cs[i], edges, n))
    && (forall i, j | 0 <= i < j < |cs| :: cs[i] != cs[j])
    && (forall v: nat | v < n :: Covers(cs, v))
  }

  lemma ClassIsComponent(d: Dsu, edges: set<nat>, r: nat)
    requires Forest(d) && Components(d, edges) && r in Roots(d)
    ensures r in Class(d, r) && IsComponent(Class(d, r), edges, |d.parent|)
  {
    assert Root(d, r) == r;
  }

  /** Reading the classes off a union-find whose classes are the components. */
  lemma ClassListIsComponents(d: Dsu, edges: set<nat>)
    requires Forest(d) && Components(d, edges)
    ensures ListsComponents(ClassList(d, |d.parent|), edges, |d.parent|)
  {
    var n := |d.parent|;
    var rs, cs := RootList(d, n), ClassList(d, n);
    RootListSorted(d, n);
    forall i | 0 <= i < |cs|
      ensures cs[i] == Class(d, rs[i]) && rs[i] in cs[i] && IsComponent(cs[i], edges, n)
    {
      assert rs[i] in rs;
      ClassIsComponent(d, edges, rs[i]);
    }
    forall i, j | 0 <= i < j < |cs|
      ensures cs[i] != cs[j]
    {
      assert rs[i] !in Class(d, rs[j]);
    }
    forall v: nat | v < n
      ensures Covers(cs, v)
    {
      assert Root(d, v) in rs;
      var i :| 0 <= i < |rs| && rs[i] == Root(d, v);
      assert v in cs[i];
    }
  }

  /** And only of such a union-find are the classes a right answer. */
  lemma ClassListRightIff(d: Dsu, edges: set<nat>)
    requires Forest(d)
    ensures ListsComponents(ClassList(d, |d.parent|), edges, |d.parent|) <==> Components(d, edges)
  {
    var n := |d.parent|;
    if Components(d, edges) { ClassListIsComponents(d, edges); }
    if ListsComponents(ClassList(d, n), edges, n) {
      forall u: nat, v: nat | u < n && v < n
        ensures Root(d, u) == Root(d, v) <==> Connected(edges, u, v)
      {
        ClassListed(d, Root(d, u));
        assert u in Class(d, Root(d, u)) && (v in Class(d, Root(d, u)) <==> Root(d, u) == Root(d, v));
      }
    }
  }

  lemma ClassListed(d: Dsu, r: nat)
    requires Forest(d) && r < |d.parent| && d.parent[r] == r
    ensures Class(d, r) in ClassList(d, |d.parent|)
  {
    var n := |d.parent|;
    RootListSorted(d, n);
    var i :| 0 <= i < |RootList(d, n)| && RootList(d, n)[i] == r;
    assert ClassList(d, n)[i] == Class(d, r);
  }

  lemma ComponentUnique(c: set<nat>, c': set<nat>, edges: set<nat>, n: nat, u: nat)
    requires IsComponent(c, edges, n) && IsComponent(c', edges, n) && u in c && u in c'
    ensures c == c'
  {
    forall v
      ensures v in c <==> v in c'
    {
    }
  }

  /** The entries of a correct answer are exactly the components. */
  lemma EntryIffComponent(c: set<nat>, cs: seq<set<nat>>, edges: set<nat>, n: nat)
    requires ListsComponents(cs, edges, n)
    ensures c in cs <==> IsComponent(c, edges, n)
  {
    if IsComponent(c, edges, n) {
      var u :| u in c;
      assert Covers(cs, u);
      var j :| 0 <= j < |cs| && u in cs[j];
      ComponentUnique(c, cs[j], edges, n, u);
    }
  }

  /** The answer is unique up to order. */
  lemma SameAnswer(cs: seq<set<nat>>, cs': seq<set<nat>>, edges: set<nat>, n: nat)
    requires ListsComponents(cs, edges, n) && ListsComponents(cs', edges, n)
    ensures multiset(cs) == multiset(cs')
  {
    forall c: set<nat>
      ensures multiset(cs)[c] == multiset(cs')[c]
    {
      Once(cs, c);
      Once(cs', c);
      EntryIffComponent(c, cs, edges, n);
      EntryIffComponent(c, cs', edges, n);
    }
  }

  /** And every reordering of an answer is one. */
  lemma ReorderedAnswer(cs: seq<set<nat>>, cs': seq<set<nat>>, edges: set<nat>, n: nat)
    requires ListsComponents(cs, edges, n) && multiset(cs) == multiset(cs')
    ensures ListsComponents(cs', edges, n)
  {
    forall c: set<nat>
      ensures c in cs <==> c in cs'
      ensures multiset(cs')[c] <= 1
    {
      Once(cs, c);
      assert c in cs <==> c in multiset(cs);
      assert c in cs' <==> c in multiset(cs');
    }
    AtMostOnce(cs');
    forall i | 0 <= i < |cs'|
      ensures IsComponent(cs'[i], edges, n)
    {
      assert cs'[i] in cs;
    }
    forall v: nat | v < n
      ensures Covers(cs', v)
    {
      assert Covers(cs, v);
      var i :| 0 <= i < |cs| && v in cs[i];
      assert cs[i] in cs';
    }
  }

  lemma AtMostOnce(cs: seq<set<nat>>)
    requires forall c: set<nat> :: multiset(cs)[c] <= 1
    ensures forall i, j | 0 <= i < j < |cs| :: cs[i] != cs[j]
  {
    forall i, j | 0 <= i < j < |cs|
      ensures cs[i] != cs[j]
    {
      var l, r := cs[..j], cs[j..];
      assert cs == l + r;
      assert cs[i] == l[i] && cs[i] in multiset(l);
      assert cs[j] == r[0] && cs[j] in multiset(r);
      assert multiset(cs)[cs[i]] == multiset(l)[cs[i]] + multiset(r)[cs[i]];
    }
  }

  lemma {:induction false} Once(cs: seq<set<nat>>, c: set<nat>)
    requires forall i, j | 0 <= i < j < |cs| :: cs[i] != cs[j]
    ensures multiset(cs)[c] == if c in cs then 1 else 0
  {
    if cs != [] {
      Once(cs[1..], c);
      assert cs == [cs[0]] + cs[1..];
    }
  }

  // ---------- grouping nodes by their roots ----------

  ghost function ClassBelow(d: Dsu, r: nat, i: nat): set<nat>
    requires Forest(d) && i <= |d.parent|
  {
    set v: nat | v < i && Root(d, v) == r
  }

  /** `groups` holds the nodes below i, keyed by root. */
  ghost predicate Grouped(d: Dsu, groups: map<nat, set<nat>>, i: nat)
  {
    && Forest(d) && i <= |d.parent|
    && (forall r: nat :: ClassBelow(d, r, i) == if r in groups then groups[r] else {})
    && (forall r | r in groups :: groups[r] != {})
  }

  function Insert(groups: map<nat, set<nat>>, r: nat, v: nat): map<nat, set<nat>>
  {
    groups[r := (if r in groups then groups[r] else {}) + {v}]
  }

  lemma GroupStep(d: Dsu, groups: map<nat, set<nat>>, i: nat)
    requires Grouped(d, groups, i) && i < |d.parent|
    ensures Grouped(d, Insert(groups, Root(d, i), i), i + 1)
  {
    var groups' := Insert(groups, Root(d, i), i);
    forall r: nat
      ensures ClassBelow(d, r, i + 1) == if r in groups' then groups'[r] else {}
    {
      ClassGrows(d, r, i);
    }
  }

  lemma ClassGrows(d: Dsu, r: nat, i: nat)
    requires Forest(d) && i < |d.parent|
    ensures ClassBelow(d, r, i + 1) == if Root(d, i) == r then ClassBelow(d, r, i) + {i} else ClassBelow(d, r, i)
  {}

  /** Reading the groups off in key order gives the class list. */
  lemma GroupsListStep(d: Dsu, groups: map<nat, set<nat>>, k: nat)
    requires Grouped(d, groups, |d.parent|) && k < |d.parent|
    ensures ClassList(d, k + 1) == ClassList(d, k) + if k in groups then [groups[k]] else []
  {
    assert ClassBelow(d, k, |d.parent|) == Class(d, k);
    if d.parent[k] == k {
      assert k in Class(d, k);
    } else {
      assert Class(d, k) == {};
    }
  }
}
