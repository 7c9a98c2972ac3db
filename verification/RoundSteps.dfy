/** The loop of supernodes_to_merge, one representative at a time. */
module RoundSteps {
  import opened Basics
  import opened Edges
  import opened DisjointSets
  import opened UnionFind
  import opened Supernodes
  import opened Rounds

  /** The state after the first k representatives; m.reps holds those that failed so far. */
  ghost predicate Partial(d0: Dsu, forest0: set<nat>, reps: seq<nat>, query: seq<Sampled>, k: nat, m: Merging)
  {
    && k <= |reps|
    && Lists(d0, m.d, m.toMerge)
    && Spanning(m.d, m.forest)
    && forest0 <= m.forest <= forest0 + Hits(query, reps[..k])
    && (forall i | i in reps[..k] && Hit(query, i) :: Joins(m.d, query[i].index))
    && m.reps == FailedOnes(reps[..k], query)
    && (m.modified <==> m.reps != [] || exists a :: MergedInto(m.toMerge, a))
  }

  ghost function FailedOnes(reps: seq<nat>, query: seq<Sampled>): seq<nat>
  {
    if reps == [] then []
    else FailedOnes(reps[..|reps| - 1], query) + if Failed(query, reps[|reps| - 1]) then [reps[|reps| - 1]] else []
  }

  lemma {:induction false} FailedOnesMembers(reps: seq<nat>, query: seq<Sampled>)
    ensures forall x: nat :: x in FailedOnes(reps, query) <==> x in reps && Failed(query, x)
    ensures Distinct(reps) ==> Distinct(FailedOnes(reps, query))
  {
    if reps != [] {
      var init, last := reps[..|reps| - 1], reps[|reps| - 1];
      FailedOnesMembers(init, query);
      assert reps == init + [last];
      if Distinct(reps) {
        assert forall k | 0 <= k < |init| :: reps[k] != last;
        if Failed(query, last) { DistinctConcat(FailedOnes(init, query), [last]); }
      }
    }
  }

  lemma Prefix(reps: seq<nat>, k: nat)
    requires k < |reps|
    ensures reps[..k + 1] == reps[..k] + [reps[k]]
    ensures reps[..k + 1][..k] == reps[..k]
  {
  }

  lemma HitsStep(query: seq<Sampled>, reps: seq<nat>, k: nat)
    requires k < |reps|
    ensures Hits(query, reps[..k]) <= Hits(query, reps[..k + 1])
    ensures Hit(query, reps[k]) ==>
              Id(Src(query[reps[k]].index), Dst(query[reps[k]].index)) in Hits(query, reps[..k + 1])
  {
    Prefix(reps, k);
    assert forall i | i in reps[..k] :: i in reps[..k + 1];
    assert reps[k] in reps[..k + 1];
  }

  lemma PartialStart(d0: Dsu, forest0: set<nat>, reps: seq<nat>, query: seq<Sampled>, m: Merging)
    requires Spanning(d0, forest0) && m.d == d0 && m.forest == forest0 && m.reps == [] && !m.modified
    requires |m.toMerge| == |d0.parent| && forall a | 0 <= a < |m.toMerge| :: m.toMerge[a] == []
    ensures Partial(d0, forest0, reps, query, 0, m)
  {
    ListsStart(d0, m.toMerge);
  }

  /** A FAIL is kept for the next round. */
  lemma PartialFail(d0: Dsu, forest0: set<nat>, reps: seq<nat>, query: seq<Sampled>, k: nat, m: Merging)
    requires Partial(d0, forest0, reps, query, k, m) && k < |reps| && Failed(query, reps[k])
    ensures Partial(d0, forest0, reps, query, k + 1, m.(reps := m.reps + [reps[k]], modified := true))
  {
    Prefix(reps, k);
    HitsStep(query, reps, k);
  }

  /** A sample that leads to no merge: ZERO, or an edge inside a class. */
  lemma PartialSkip(d0: Dsu, forest0: set<nat>, reps: seq<nat>, query: seq<Sampled>, k: nat, m: Merging)
    requires Partial(d0, forest0, reps, query, k, m) && k < |reps| && !Failed(query, reps[k])
    requires Hit(query, reps[k]) ==> Joins(m.d, query[reps[k]].index)
    ensures Partial(d0, forest0, reps, query, k + 1, m)
  {
    Prefix(reps, k);
    HitsStep(query, reps, k);
  }

  /** Path compression changes nothing that matters. */
  lemma PartialShorten(d0: Dsu, forest0: set<nat>, reps: seq<nat>, query: seq<Sampled>, k: nat, m: Merging, d': Dsu)
    requires Partial(d0, forest0, reps, query, k, m) && OnlyShortened(m.d, d')
    ensures Partial(d0, forest0, reps, query, k, m.(d := d'))
  {
    ListsSameRoots(d0, m.d, d', m.toMerge);
    SpanningSameRoots(m.d, d', m.forest);
    forall i | i in reps[..k] && Hit(query, i)
      ensures Joins(d', query[i].index)
    {
      assert Joins(m.d, query[i].index);
    }
  }

  function LinkStep(m: Merging, a: nat, b: nat, e: nat): Merging
    requires a < |m.d.parent| == |m.d.size| == |m.toMerge| && b < |m.d.parent|
  {
    m.(d := Link(m.d, a, b), forest := m.forest + {Id(Src(e), Dst(e))},
       toMerge := Absorb(m.toMerge, a, b), modified := true)
  }

  /** An edge between two classes links their roots and lists. */
  lemma PartialLink(d0: Dsu, forest0: set<nat>, reps: seq<nat>, query: seq<Sampled>, k: nat, m: Merging,
                    a: nat, b: nat)
    requires Partial(d0, forest0, reps, query, k, m) && k < |reps| && Hit(query, reps[k])
    requires var e := query[reps[k]].index;
             Linkable(m.d, a, b) && Src(e) < |m.d.parent| && Dst(e) < |m.d.parent| && Between(m.d, a, b, Src(e), Dst(e))
    ensures Partial(d0, forest0, reps, query, k + 1, LinkStep(m, a, b, query[reps[k]].index))
  {
    var e := query[reps[k]].index;
    var d' := Link(m.d, a, b);
    LinkJoins(m.d, a, b);
    assert Lists(d0, d', Absorb(m.toMerge, a, b)) by { ListsJoin(d0, m.d, d', m.toMerge, a, b); }
    assert Spanning(d', m.forest + {Id(Src(e), Dst(e))}) by { SpanningLink(m.d, m.forest, a, b, Src(e), Dst(e)); }
    AllJoinAfter(reps, query, k, m.d, d', a, b);
    PartialNext(d0, forest0, reps, query, k, m, LinkStep(m, a, b, e), a);
  }

  lemma PartialNext(d0: Dsu, forest0: set<nat>, reps: seq<nat>, query: seq<Sampled>, k: nat, m: Merging, m': Merging, a: nat)
    requires k < |reps| && Hit(query, reps[k]) && m.reps == FailedOnes(reps[..k], query)
    requires forest0 <= m.forest <= forest0 + Hits(query, reps[..k])
    requires m'.forest == m.forest + {Id(Src(query[reps[k]].index), Dst(query[reps[k]].index))}
    requires Lists(d0, m'.d, m'.toMerge) && Spanning(m'.d, m'.forest) && m'.reps == m.reps
    requires forall i | i in reps[..k + 1] && Hit(query, i) :: Joins(m'.d, query[i].index)
    requires m'.modified && MergedInto(m'.toMerge, a)
    ensures Partial(d0, forest0, reps, query, k + 1, m')
  {
    Prefix(reps, k);
    HitsStep(query, reps, k);
  }

  lemma AllJoinAfter(reps: seq<nat>, query: seq<Sampled>, k: nat, d: Dsu, d': Dsu, a: nat, b: nat)
    requires Joined(d, d', a, b) && k < |reps| && Hit(query, reps[k])
    requires forall i | i in reps[..k] && Hit(query, i) :: Joins(d, query[i].index)
    requires var e := query[reps[k]].index;
             Src(e) < |d.parent| && Dst(e) < |d.parent| && Between(d, a, b, Src(e), Dst(e))
    ensures forall i | i in reps[..k + 1] && Hit(query, i) :: Joins(d', query[i].index)
  {
    Prefix(reps, k);
    forall i | i in reps[..k + 1] && Hit(query, i)
      ensures Joins(d', query[i].index)
    {
      JoinsAfter(d, d', a, b, query[i].index);
    }
  }

  lemma JoinsAfter(d: Dsu, d': Dsu, a: nat, b: nat, e: nat)
    requires Joined(d, d', a, b) && Src(e) < |d.parent| && Dst(e) < |d.parent|
    requires Joins(d, e) || Between(d, a, b, Src(e), Dst(e))
    ensures Joins(d', e)
  {
  }

  /** The representatives of the next round: failed ones that nothing was merged into, then
      every node something was merged into. */
  ghost predicate NextReps(failed: seq<nat>, toMerge: seq<seq<nat>>, kept: seq<nat>, k: nat, a: nat)
  {
    && k <= |failed| && a <= |toMerge|
    && Distinct(kept)
    && forall x: nat :: x in kept <==>
         (x in failed[..k] && !MergedInto(toMerge, x)) || (x < a && MergedInto(toMerge, x))
  }

  lemma NextRepsFailed(failed: seq<nat>, toMerge: seq<seq<nat>>, kept: seq<nat>, k: nat)
    requires NextReps(failed, toMerge, kept, k, 0) && k < |failed| && Distinct(failed) && failed[k] < |toMerge|
    ensures NextReps(failed, toMerge, if toMerge[failed[k]] == [] then kept + [failed[k]] else kept, k + 1, 0)
  {
    Prefix(failed, k);
    if toMerge[failed[k]] == [] {
      assert failed[k] !in failed[..k];
      DistinctConcat(kept, [failed[k]]);
    }
  }

  lemma NextRepsMerged(failed: seq<nat>, toMerge: seq<seq<nat>>, kept: seq<nat>, a: nat)
    requires NextReps(failed, toMerge, kept, |failed|, a) && a < |toMerge|
    ensures NextReps(failed, toMerge, if toMerge[a] != [] then kept + [a] else kept, |failed|, a + 1)
  {
    if toMerge[a] != [] { DistinctConcat(kept, [a]); }
  }

  /** All representatives done: the round has the shape the rest of the argument needs. */
  lemma PartialDone(d0: Dsu, forest0: set<nat>, reps: seq<nat>, query: seq<Sampled>, m: Merging, kept: seq<nat>)
    requires Partial(d0, forest0, reps, query, |reps|, m) && Distinct(reps)
    requires NextReps(m.reps, m.toMerge, kept, |m.reps|, |m.toMerge|)
    ensures RoundShape(d0, forest0, reps, query, m.(reps := kept))
  {
    assert reps[..|reps|] == reps;
    assert m.reps[..|m.reps|] == m.reps;
    FailedOnesMembers(reps, query);
    forall x: nat
      ensures x in kept <==> InNewReps(reps, query, m.toMerge, x)
    {
    }
    if m.reps != [] {
      assert m.reps[0] in m.reps;
    }
  }

  /** What is known when a round is abandoned half-way. */
  ghost predicate MidRound(d0: Dsu, forest0: set<nat>, reps: seq<nat>, query: seq<Sampled>, d: Dsu, forest: set<nat>)
  {
    && Forest(d0) && Spanning(d, forest) && |d.parent| == |d0.parent|
    && forest0 <= forest <= forest0 + Hits(query, reps)
    && forall v: nat | v < |d.parent| :: Root(d, v) == Root(d, Root(d0, v))
  }

  lemma PartialMid(d0: Dsu, forest0: set<nat>, reps: seq<nat>, query: seq<Sampled>, k: nat, m: Merging)
    requires Partial(d0, forest0, reps, query, k, m)
    ensures MidRound(d0, forest0, reps, query, m.d, m.forest)
  {
    assert forall i | i in reps[..k] :: i in reps;
    assert Hits(query, reps[..k]) <= Hits(query, reps);
  }

  /** A GOOD sample, in all its outcomes. */
  lemma PartialGood(d0: Dsu, forest0: set<nat>, reps: seq<nat>, query: seq<Sampled>, k: nat, m: Merging,
                    mid: Dsu, a: nat, b: nat)
    requires Partial(d0, forest0, reps, query, k, m) && k < |reps| && Hit(query, reps[k]) && OnlyShortened(m.d, mid)
    ensures MidRound(d0, forest0, reps, query, mid, m.forest)
    ensures var e := query[reps[k]].index;
            && (Joins(mid, e) ==> Partial(d0, forest0, reps, query, k + 1, m.(d := mid)))
            && (Linkable(mid, a, b) && Src(e) < |mid.parent| && Dst(e) < |mid.parent| && Between(mid, a, b, Src(e), Dst(e)) ==>
                  Partial(d0, forest0, reps, query, k + 1, LinkStep(m.(d := mid), a, b, e)))
  {
    var e := query[reps[k]].index;
    var m' := m.(d := mid);
    PartialShorten(d0, forest0, reps, query, k, m, mid);
    PartialMid(d0, forest0, reps, query, k, m');
    if Joins(mid, e) { PartialSkip(d0, forest0, reps, query, k, m'); }
    if Linkable(mid, a, b) && Src(e) < |mid.parent| && Dst(e) < |mid.parent| && Between(mid, a, b, Src(e), Dst(e)) {
      PartialLink(d0, forest0, reps, query, k, m', a, b);
    }
  }
}
