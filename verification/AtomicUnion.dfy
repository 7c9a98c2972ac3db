/** The atomic union-find of include/dsu.h under any number of threads. Every access to a parent
    entry is a step of its own, and a run is an arbitrary list of steps. */
module AtomicUnion {
  import opened DisjointSets
  import opened UnionFind

  /** Where a thread stands inside find_root. */
  datatype Find =
    | Look(x: nat)                // about to load parent[x], for the loop test
    | Test(x: nat, p: nat)        // about to load parent[p] and compare it with x
    | Halve(x: nat)               // about to load parent[x] again
    | Climb(x: nat, p: nat)       // about to load parent[p]
    | Store(x: nat, g: nat)       // about to store g in parent[x]
    | Follow(x: nat)              // about to load parent[x] into x

  /** Where it stands inside merge: looking for the root of u, then of v, then at the exchange. */
  datatype Thread = FindU(f: Find, v: nat) | FindV(u: nat, f: Find) | Exchange(u: nat, v: nat) | Returned(r: MergeRet)

  datatype State = State(d: Dsu, threads: seq<Thread>)

  /** One step of find_root: the structure after it, and the position or the root. */
  datatype Found = Going(f: Find) | Arrived(root: nat)

  predicate FindInRange(f: Find, n: nat)
  {
    f.x < n && match f
               case Test(_, p) => p < n
               case Climb(_, p) => p < n
               case Store(_, g) => g < n
               case _ => true
  }

  function FindStep(d: Dsu, f: Find): (Dsu, Found)
    requires FindInRange(f, |d.parent|)
  {
    match f
    case Look(x) => (d, Going(Test(x, d.parent[x])))
    case Test(x, p) => (d, if d.parent[p] == x then Arrived(x) else Going(Halve(x)))
    case Halve(x) => (d, Going(Climb(x, d.parent[x])))
    case Climb(x, p) => (d, Going(Store(x, d.parent[p])))
    case Store(x, g) => (Reparent(d, x, g), Going(Follow(x)))
    case Follow(x) => (d, Going(Look(d.parent[x])))
  }

  predicate ThreadInRange(t: Thread, n: nat)
  {
    match t
    case FindU(f, v) => FindInRange(f, n) && v < n
    case FindV(u, f) => u < n && FindInRange(f, n)
    case Exchange(u, v) => u < n && v < n
    case Returned(_) => true
  }

  /** With both roots at hand: done if they are equal, else the larger one is to take the exchange. */
  function Compare(d: Dsu, u: nat, v: nat): Thread
    requires u < |d.size| && v < |d.size|
  {
    if u == v then Returned(MergeRet(false, 0, 0))
    else if d.size[u] < d.size[v] then Exchange(v, u)
    else Exchange(u, v)
  }

  /** One step of a thread. The exchange may also fail for no reason. */
  function Step(d: Dsu, t: Thread, spurious: bool): (Dsu, Thread)
    requires |d.size| == |d.parent| && ThreadInRange(t, |d.parent|)
  {
    match t
    case FindU(f, v) =>
      var (d', r) := FindStep(d, f);
      (d', if r.Going? then FindU(r.f, v) else FindV(r.root, Look(v)))
    case FindV(u, f) =>
      var (d', r) := FindStep(d, f);
      (d', if r.Going? then FindV(u, r.f) else Compare(d, u, r.root))
    case Exchange(u, v) =>
      var (ok, d') := ExchangeParent(d, u, v);
      if ok && !spurious then (d', Returned(MergeRet(true, u, v)))
      else (d, FindU(Look(u), d.parent[u]))  // a failed exchange loads what it found
    case Returned(_) => (d, t)
  }

  /** Thread i takes a step. */
  datatype Action = Action(i: nat, spurious: bool)

  predicate Enabled(s: State, a: Action)
  {
    a.i < |s.threads| && |s.d.size| == |s.d.parent| && ThreadInRange(s.threads[a.i], |s.d.parent|)
  }

  function Next(s: State, a: Action): State
    requires Enabled(s, a)
  {
    var (d', t') := Step(s.d, s.threads[a.i], a.spurious);
    State(d', s.threads[a.i := t'])
  }

  ghost predicate Runs(s: State, actions: seq<Action>, s': State)
    decreases |actions|
  {
    if actions == [] then s == s' else Enabled(s, actions[0]) && Runs(Next(s, actions[0]), actions[1..], s')
  }

  /** Any number of threads, each about to merge the two nodes of its call. */
  function Start(d: Dsu, calls: seq<(nat, nat)>): State
  {
    State(d, seq(|calls|, i requires 0 <= i < |calls| => FindU(Look(calls[i].0), calls[i].1)))
  }

  // ---------- the invariant ----------

  /** y may be stored as the parent of x: it is in the class of x and further up, or x is a root. */
  ghost predicate Above(d0: Dsu, x: nat, y: nat)
    requires Forest(d0)
  {
    && x < |d0.parent| && y < |d0.parent|
    && if Root(d0, x) == x then y == x else Root(d0, y) == Root(d0, x) && d0.size[x] * 2 <= d0.size[y]
  }

  lemma AboveTrans(d0: Dsu, x: nat, y: nat, z: nat)
    requires Forest(d0) && Above(d0, x, y) && Above(d0, y, z)
    ensures Above(d0, x, z)
    ensures z == x ==> Root(d0, x) == x
  {
    assert LinkOk(d0, x);
  }

  ghost predicate FindOk(d0: Dsu, f: Find)
    requires Forest(d0)
  {
    && f.x < |d0.parent|
    && match f
       case Test(x, p) => Above(d0, x, p)
       case Climb(x, p) => Above(d0, x, p)
       case Store(x, g) => Above(d0, x, g)
       case _ => true
  }

  ghost predicate IsRoot(d0: Dsu, x: nat)
    requires Forest(d0)
  {
    x < |d0.parent| && Root(d0, x) == x
  }

  /** A thread at the exchange holds two different roots, and none has returned success. */
  ghost predicate ThreadOk(d0: Dsu, t: Thread)
    requires Forest(d0)
  {
    match t
    case FindU(f, v) => FindOk(d0, f) && v < |d0.parent|
    case FindV(u, f) => IsRoot(d0, u) && FindOk(d0, f)
    case Exchange(u, v) => IsRoot(d0, u) && IsRoot(d0, v) && u != v
    case Returned(r) => r == MergeRet(false, 0, 0)
  }

  ghost predicate Shortened(d0: Dsu, d: Dsu)
    requires Forest(d0)
  {
    d.size == d0.size && |d.parent| == |d0.parent| && forall x: nat | x < |d.parent| :: Above(d0, x, d.parent[x])
  }

  ghost predicate Inv(d0: Dsu, s: State)
    requires Forest(d0)
  {
    Shortened(d0, s.d) && forall i | 0 <= i < |s.threads| :: ThreadOk(d0, s.threads[i])
  }

  lemma FindKeeps(d0: Dsu, d: Dsu, f: Find)
    requires Forest(d0) && Shortened(d0, d) && FindOk(d0, f)
    ensures FindInRange(f, |d.parent|)
    ensures var (d', r) := FindStep(d, f);
      Shortened(d0, d') && if r.Going? then FindOk(d0, r.f) else IsRoot(d0, r.root)
  {
    match f {
      case Test(x, p) => AboveTrans(d0, x, p, d.parent[p]);
      case Climb(x, p) => AboveTrans(d0, x, p, d.parent[p]);
      case _ =>
    }
  }

  /** The exchange expects v in parent[u], but u is a root and stays one. */
  lemma ExchangeFails(d0: Dsu, d: Dsu, u: nat, v: nat)
    requires Forest(d0) && Shortened(d0, d) && IsRoot(d0, u) && u != v && v < |d.size|
    ensures !ExchangeParent(d, u, v).0 && d.parent[u] == u
  {
    assert Above(d0, u, d.parent[u]);
  }

  lemma StepKeeps(d0: Dsu, d: Dsu, t: Thread, spurious: bool)
    requires Forest(d0) && Shortened(d0, d) && ThreadOk(d0, t) && ThreadInRange(t, |d.parent|) && |d.size| == |d.parent|
    ensures var (d', t') := Step(d, t, spurious);
      Shortened(d0, d') && ThreadOk(d0, t')
  {
    match t {
      case FindU(f, v) => FindKeeps(d0, d, f);
      case FindV(u, f) => FindKeeps(d0, d, f);
      case Exchange(u, v) => ExchangeFails(d0, d, u, v);
      case Returned(_) =>
    }
  }

  lemma {:induction false} RunKeepsInv(d0: Dsu, s: State, actions: seq<Action>, s': State)
    requires Forest(d0) && Inv(d0, s) && Runs(s, actions, s')
    ensures Inv(d0, s') && |s'.threads| == |s.threads|
    decreases |actions|
  {
    if actions != [] {
      var a := actions[0];
      StepKeeps(d0, s.d, s.threads[a.i], a.spurious);
      RunKeepsInv(d0, Next(s, a), actions[1..], s');
    }
  }

  /** Parents that are all above their children keep every root. */
  lemma {:induction false} RootKept(d0: Dsu, d: Dsu, x: nat)
    requires Forest(d0) && Shortened(d0, d) && Forest(d) && x < |d.parent|
    ensures Root(d, x) == Root(d0, x)
    decreases |d.parent| - d.size[x]
  {
    assert Above(d0, x, d.parent[x]) && LinkOk(d, x) && LinkOk(d, d.parent[x]);
    if d.parent[x] != x { RootKept(d0, d, d.parent[x]); }
  }

  lemma ShortenedOnlyShortens(d0: Dsu, d: Dsu)
    requires Valid(d0) && Shortened(d0, d)
    ensures OnlyShortened(d0, d)
  {
    forall x: nat | x < |d.parent|
      ensures LinkOk(d, x)
    {
      assert LinkOk(d0, x) && Above(d0, x, d.parent[x]);
    }
    forall x: nat | x < |d.parent|
      ensures Root(d0, x) == Root(d, x)
    {
      RootKept(d0, d, x);
    }
    SameRootsValid(d0, d);
  }

  /** Whatever the interleaving of any number of merges, nothing is ever joined: paths are
      shortened, every root keeps its class, every merge that returns says it did not merge, and
      every thread can always take its next step. */
  lemma NobodyJoins(d0: Dsu, calls: seq<(nat, nat)>, actions: seq<Action>, s: State)
    requires Valid(d0) && forall i | 0 <= i < |calls| :: calls[i].0 < |d0.parent| && calls[i].1 < |d0.parent|
    requires Runs(Start(d0, calls), actions, s)
    ensures OnlyShortened(d0, s.d) && |s.threads| == |calls|
    ensures forall i: nat, spurious | i < |s.threads| :: Enabled(s, Action(i, spurious))
    ensures forall i | 0 <= i < |s.threads| && s.threads[i].Returned? :: s.threads[i].r == MergeRet(false, 0, 0)
  {
    forall x: nat | x < |d0.parent|
      ensures Above(d0, x, d0.parent[x])
    {
      assert LinkOk(d0, x) && LinkOk(d0, d0.parent[x]);
    }
    RunKeepsInv(d0, Start(d0, calls), actions, s);
    ShortenedOnlyShortens(d0, s.d);
    forall i: nat, spurious | i < |s.threads|
      ensures Enabled(s, Action(i, spurious))
    {
      AlwaysEnabled(d0, s, Action(i, spurious));
    }
  }

  lemma AlwaysEnabled(d0: Dsu, s: State, a: Action)
    requires Forest(d0) && Inv(d0, s) && a.i < |s.threads|
    ensures Enabled(s, a)
  {
    assert ThreadOk(d0, s.threads[a.i]);
  }
}
