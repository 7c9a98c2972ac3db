/** Edge identifiers: the concatenation pairing of two 32-bit node ids. */
module Edges {
  import opened Basics

  const NODE_SPACE: nat := 0x1_0000_0000  // node ids are 32 bits wide

  /** The smaller node id in the high half, the larger in the low half. */
  function Id(i: nat, j: nat): nat
  {
    Min(i, j) * NODE_SPACE + Max(i, j)
  }

  function Src(id: nat): nat { id / NODE_SPACE }
  function Dst(id: nat): nat { id % NODE_SPACE }

  /** Decoding an id gives back the two endpoints, smaller first; the order they
      were given in is immaterial. */
  lemma PairingRoundTrip(i: nat, j: nat)
    requires i < NODE_SPACE && j < NODE_SPACE
    ensures Src(Id(i, j)) == Min(i, j) && Dst(Id(i, j)) == Max(i, j)
    ensures Id(i, j) == Id(j, i)
  {
    assert Id(i, j) / NODE_SPACE == Min(i, j);
    assert Id(i, j) % NODE_SPACE == Max(i, j);
  }

  /** Encoding what was decoded is the identity exactly on ordered ids. */
  lemma DecodeThenEncode(id: nat)
    ensures Id(Src(id), Dst(id)) == id <==> Src(id) <= Dst(id)
  {
    if Src(id) > Dst(id) {
      assert Src(id) * NODE_SPACE > Dst(id) * NODE_SPACE + Dst(id) - Src(id);
    }
  }

  /** The ids of a simple graph on the nodes 0..n-1: no self-loops. */
  ghost predicate Simple(edges: set<nat>, n: nat)
  {
    n <= NODE_SPACE && forall e | e in edges :: Src(e) < Dst(e) < n
  }

  function SymDiff(s: set<nat>, t: set<nat>): set<nat>
  {
    (s - t) + (t - s)
  }

  function Toggle(s: set<nat>, x: nat): set<nat>
  {
    if x in s then s - {x} else s + {x}
  }

  /** The elements that occur an odd number of times. */
  function OddOnes(xs: seq<nat>): set<nat>
  {
    if xs == [] then {} else Toggle(OddOnes(xs[..|xs| - 1]), xs[|xs| - 1])
  }

  lemma {:induction false} OddOnesIsParity(xs: seq<nat>, x: nat)
    ensures x in OddOnes(xs) <==> multiset(xs)[x] % 2 == 1
  {
    if xs != [] {
      var init, last := xs[..|xs| - 1], xs[|xs| - 1];
      OddOnesIsParity(init, x);
      assert xs == init + [last];
    }
  }

  /** Order is immaterial to parity. */
  lemma {:induction false} OddOnesOrder(xs: seq<nat>, ys: seq<nat>)
    requires multiset(xs) == multiset(ys)
    ensures OddOnes(xs) == OddOnes(ys)
  {
    forall x
      ensures x in OddOnes(xs) <==> x in OddOnes(ys)
    {
      OddOnesIsParity(xs, x);
      OddOnesIsParity(ys, x);
    }
  }

  lemma {:induction false} OddOnesConcat(xs: seq<nat>, ys: seq<nat>)
    ensures OddOnes(xs + ys) == SymDiff(OddOnes(xs), OddOnes(ys))
  {
    if ys == [] {
      assert xs + ys == xs;
    } else {
      var init, last := ys[..|ys| - 1], ys[|ys| - 1];
      OddOnesConcat(xs, init);
      assert (xs + ys)[..|xs + ys| - 1] == xs + init;
    }
  }
}
