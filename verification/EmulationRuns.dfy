/** Whole runs of the Boruvka emulation: sequences of rounds, from the singleton state on. */
module EmulationRuns {
  import opened Basics
  import opened Bits
  import Edges
  import opened Connectivity
  import opened DisjointSets
  import opened Sketches
  import opened Supernodes
  import opened Rounds
  import opened Progress
  import opened Emulation

  datatype Snapshot = Snapshot(d: Dsu, forest: set<nat>, reps: seq<nat>, nodes: seq<Supernode>)

  /** One round: the state before it, the supernodes and answers after sampling, the unions. */
  datatype Log = Log(before: Snapshot, sampled: seq<Supernode>, query: seq<Sampled>, m: Merging)

  ghost predicate RoundStep(cfg: Config, log: Log, after: Snapshot)
  {
    && RoundDone(cfg, log.before.d, log.before.forest, log.before.reps, log.before.nodes,
                 log.sampled, log.query, log.m, after.nodes)
    && after == Snapshot(log.m.d, log.m.forest, log.m.reps, after.nodes)
  }

  /** The rounds in `logs` lead from start to end; all but the last modified something. */
  ghost predicate Run(cfg: Config, start: Snapshot, logs: seq<Log>, end: Snapshot)
    decreases |logs|
  {
    if logs == [] then end == start
    else
      && Run(cfg, start, Init(logs), Last(logs).before)
      && (Init(logs) != [] ==> Last(Init(logs)).m.modified)
      && RoundStep(cfg, Last(logs), end)
  }

  /** Every node its own root and representative. */
  ghost predicate StartState(s: Snapshot, n: nat)
  {
    && s.d == Singletons(n) && s.forest == {} && |s.nodes| == n == |s.reps|
    && forall v: nat | v < n :: s.reps[v] == v
  }

  /** The graph is faithful and the supernodes represent it. */
  ghost predicate Represented(cfg: Config, edges: set<nat>, nodes: seq<Supernode>)
  {
    && FaithfulGraph(cfg, edges, |nodes|)
    && forall v: nat | v < |nodes| :: Represents(cfg, nodes[v], Cut(edges, {v}))
  }

  ghost function Sides(n: nat, logs: seq<Log>): seq<set<nat>>
  {
    if logs == [] then seq(n, v requires 0 <= v => {v})
    else if Forest(Last(logs).m.d) then NewSides(Last(logs).m.d, Sides(n, Init(logs)))
    else []
  }

  /** The invariant holds between rounds of every run. */
  lemma {:induction false} RunKeepsInv(cfg: Config, edges: set<nat>, n: nat, start: Snapshot, logs: seq<Log>, end: Snapshot)
    requires StartState(start, n) && Represented(cfg, edges, start.nodes) && Run(cfg, start, logs, end)
    ensures Inv(cfg, edges, end.d, end.forest, end.reps, end.nodes, Sides(n, logs)) && |end.d.parent| == n
    decreases |logs|
  {
    if logs == [] {
      StartInv(cfg, edges, n, start.reps, start.nodes);
      assert Sides(n, []) == seq(n, v => {v});
    } else {
      var log := Last(logs);
      RunKeepsInv(cfg, edges, n, start, Init(logs), log.before);
      RoundOfRun(cfg, edges, log, Sides(n, Init(logs)), end);
    }
  }

  /** One round, with the invariant before it. */
  lemma RoundOfRun(cfg: Config, edges: set<nat>, log: Log, sides: seq<set<nat>>, end: Snapshot)
    requires FaithfulGraph(cfg, edges, |log.before.d.parent|)
    requires Inv(cfg, edges, log.before.d, log.before.forest, log.before.reps, log.before.nodes, sides)
    requires RoundStep(cfg, log, end)
    ensures Truthful(edges, log.before.reps, log.query, sides)
    ensures Forest(log.m.d) && |log.m.d.parent| == |log.before.d.parent|
    ensures Inv(cfg, edges, end.d, end.forest, end.reps, end.nodes, NewSides(log.m.d, sides))
    ensures !log.m.modified ==> Components(end.d, edges)
  {
    var b := log.before;
    SamplingKeepsInv(cfg, edges, b.d, b.forest, b.reps, b.nodes, sides, log.sampled, log.query);
    RoundKeepsInv(cfg, edges, b.d, b.forest, b.reps, log.sampled, sides, log.query, log.m, end.nodes);
  }

  /** A run that ends because nothing was modified has found the connected components. */
  lemma RunFindsComponents(cfg: Config, edges: set<nat>, n: nat, start: Snapshot, logs: seq<Log>, end: Snapshot)
    requires StartState(start, n) && Represented(cfg, edges, start.nodes) && Run(cfg, start, logs, end)
    requires logs != [] && !Last(logs).m.modified
    ensures Spanning(end.d, end.forest) && end.forest <= edges && Components(end.d, edges)
  {
    RunKeepsInv(cfg, edges, n, start, Init(logs), Last(logs).before);
    RoundOfRun(cfg, edges, Last(logs), Sides(n, Init(logs)), end);
  }

  // ---------- restoration ----------

  /** The nodes backed up: the representatives after the first round. */
  function Backed(logs: seq<Log>): seq<nat>
  {
    if logs == [] then [] else logs[0].m.reps
  }

  ghost predicate CopiesOf(logs: seq<Log>, copies: map<nat, Supernode>)
  {
    forall v | v in Backed(logs) :: v in copies && v < |logs[0].sampled| && GoodCopy(logs[0].sampled[v], copies[v])
  }

  /** Throughout the run, the copies and the untouched supernodes hold all original content. */
  lemma {:induction false} RunKeepsBackup(cfg: Config, edges: set<nat>, n: nat, start: Snapshot, logs: seq<Log>, end: Snapshot,
                                          copies: map<nat, Supernode>)
    requires StartState(start, n) && Represented(cfg, edges, start.nodes) && Run(cfg, start, logs, end)
    requires CopiesOf(logs, copies)
    ensures BackedUp(edges, start.nodes, end.d, end.nodes, logs == [], Backed(logs), copies)
    decreases |logs|
  {
    if logs == [] {
      BackupStart(cfg, edges, n, start, copies);
    } else {
      var log, init := Last(logs), Init(logs);
      var before := if init == [] then map[] else copies;
      BackedStep(logs, copies);
      RunKeepsBackup(cfg, edges, n, start, init, log.before, before);
      RunKeepsInv(cfg, edges, n, start, init, log.before);
      RunKeepsInv(cfg, edges, n, start, logs, end);
      BackupRound(cfg, edges, start.nodes, log, Sides(n, init), end, Sides(n, logs), init == [],
                  Backed(init), before, Backed(logs), copies);
    }
  }

  lemma BackupStart(cfg: Config, edges: set<nat>, n: nat, start: Snapshot, copies: map<nat, Supernode>)
    requires StartState(start, n) && Represented(cfg, edges, start.nodes)
    ensures BackedUp(edges, start.nodes, start.d, start.nodes, true, [], copies)
  {
    SingletonsValid(n);
    forall v: nat | v < n
      ensures Disciplined(start.nodes[v]) && SameContent(start.nodes[v], start.nodes[v])
    {
      assert Represents(cfg, start.nodes[v], Cut(edges, {v}));
    }
  }

  lemma BackedStep(logs: seq<Log>, copies: map<nat, Supernode>)
    requires logs != [] && CopiesOf(logs, copies)
    ensures var init, log := Init(logs), Last(logs);
      if init == []
      then Backed(logs) == log.m.reps
        && forall v | v in log.m.reps :: v in copies && v < |log.sampled| && GoodCopy(log.sampled[v], copies[v])
      else Backed(logs) == Backed(init) && CopiesOf(init, copies)
  {}

  lemma BackupRound(cfg: Config, edges: set<nat>, orig: seq<Supernode>, log: Log, sides: seq<set<nat>>,
                    end: Snapshot, sides': seq<set<nat>>, first: bool,
                    backed: seq<nat>, copies: map<nat, Supernode>, backed': seq<nat>, copies': map<nat, Supernode>)
    requires FaithfulGraph(cfg, edges, |log.before.d.parent|) && RoundStep(cfg, log, end)
    requires Inv(cfg, edges, log.before.d, log.before.forest, log.before.reps, log.before.nodes, sides)
    requires Inv(cfg, edges, end.d, end.forest, end.reps, end.nodes, sides')
    requires BackedUp(edges, orig, log.before.d, log.before.nodes, first, backed, copies)
    requires if first
             then backed' == log.m.reps
                  && forall v | v in log.m.reps :: v in copies' && v < |log.sampled| && GoodCopy(log.sampled[v], copies'[v])
             else backed' == backed && copies' == copies
    ensures BackedUp(edges, orig, end.d, end.nodes, false, backed', copies')
  {
    var b := log.before;
    SampledBackup(cfg, edges, orig, log, sides, first, backed, copies);
    forall v | 0 <= v < |end.nodes|
      ensures Disciplined(end.nodes[v])
    {
      assert Represents(cfg, end.nodes[v], Cut(edges, sides'[v]));
    }
    if first {
      forall v: nat | MergedInto(log.m.toMerge, v)
        ensures v in log.m.reps
      {
        assert InNewReps(b.reps, log.query, log.m.toMerge, v);
      }
      FirstBackup(cfg, edges, orig, log.sampled, log.m, end.nodes, copies');
    } else {
      LaterBackup(cfg, edges, orig, b.d, log.sampled, log.m, end.nodes, backed, copies);
    }
  }

  /** Also when a round is abandoned after sampling. */
  lemma SampledBackup(cfg: Config, edges: set<nat>, orig: seq<Supernode>, log: Log, sides: seq<set<nat>>,
                      first: bool, backed: seq<nat>, copies: map<nat, Supernode>)
    requires FaithfulGraph(cfg, edges, |log.before.d.parent|)
    requires Inv(cfg, edges, log.before.d, log.before.forest, log.before.reps, log.before.nodes, sides)
    requires SampledFrom(cfg, log.before.reps, log.before.nodes, log.sampled, log.query)
    requires BackedUp(edges, orig, log.before.d, log.before.nodes, first, backed, copies)
    ensures BackedUp(edges, orig, log.before.d, log.sampled, first, backed, copies)
  {
    var b := log.before;
    SamplingKeepsInv(cfg, edges, b.d, b.forest, b.reps, b.nodes, sides, log.sampled, log.query);
    SamplingKeepsContent(cfg, b.reps, orig, b.nodes, log.sampled, log.query, backed);
    forall v | 0 <= v < |log.sampled|
      ensures Disciplined(log.sampled[v])
    {
      assert Represents(cfg, log.sampled[v], Cut(edges, sides[v]));
    }
  }

  // ---------- the number of rounds ----------

  /** No sketch of a cut fails, and none is used yet. */
  ghost predicate Unfailing(cfg: Config, edges: set<nat>, nodes: seq<Supernode>)
  {
    NeverFails(cfg, edges) && UsedAtMost(cfg, nodes, 0)
  }

  /** And there are enough sketches for n nodes. */
  ghost predicate WellSupplied(cfg: Config, edges: set<nat>, nodes: seq<Supernode>)
  {
    Unfailing(cfg, edges, nodes) && |nodes| < Pow2(cfg.sketches)
  }

  /** While rounds keep modifying, the run stays within its budget of sketches. */
  lemma {:induction false} RunOnBudget(cfg: Config, edges: set<nat>, n: nat, start: Snapshot, logs: seq<Log>, end: Snapshot)
    requires StartState(start, n) && Represented(cfg, edges, start.nodes) && Run(cfg, start, logs, end)
    requires Unfailing(cfg, edges, start.nodes) && (logs != [] ==> Last(logs).m.modified)
    ensures OnBudget(cfg, edges, end.d, end.nodes, |logs|)
    decreases |logs|
  {
    if logs == [] {
      BudgetStart(cfg, edges, n, start.nodes);
    } else {
      var log := Last(logs);
      RunOnBudget(cfg, edges, n, start, Init(logs), log.before);
      RunKeepsInv(cfg, edges, n, start, Init(logs), log.before);
      BudgetRound(cfg, edges, log, Sides(n, Init(logs)), end, |logs| - 1);
    }
  }

  lemma BudgetRound(cfg: Config, edges: set<nat>, log: Log, sides: seq<set<nat>>, end: Snapshot, k: nat)
    requires FaithfulGraph(cfg, edges, |log.before.d.parent|) && RoundStep(cfg, log, end) && log.m.modified
    requires Inv(cfg, edges, log.before.d, log.before.forest, log.before.reps, log.before.nodes, sides)
    requires OnBudget(cfg, edges, log.before.d, log.before.nodes, k) && NeverFails(cfg, edges)
    ensures OnBudget(cfg, edges, end.d, end.nodes, k + 1)
  {
    var b := log.before;
    RoundOfRun(cfg, edges, log, sides, end);
    SamplingSucceeds(cfg, edges, b.reps, b.nodes, sides, log.sampled, log.query, k);
    BudgetStep(cfg, edges, b.d, b.forest, b.reps, b.nodes, sides, log.sampled, log.query, log.m, end.nodes, k);
  }

  /** With floor(log2 n) + 1 sketches that never fail, nobody runs out: not in the first round,
      and not in any round after one that modified something. */
  lemma EnoughSketches(cfg: Config, edges: set<nat>, n: nat, start: Snapshot, logs: seq<Log>, before: Snapshot,
                       sampled: seq<Supernode>, query: seq<Sampled>)
    requires StartState(start, n) && Represented(cfg, edges, start.nodes) && Run(cfg, start, logs, before)
    requires WellSupplied(cfg, edges, start.nodes) && (logs != [] ==> Last(logs).m.modified)
    requires SampledFrom(cfg, before.reps, before.nodes, sampled, query)
    ensures forall i | i in before.reps :: i < |query| && query[i].Sample?
  {
    RunOnBudget(cfg, edges, n, start, logs, before);
    RunKeepsInv(cfg, edges, n, start, logs, before);
    if n > 0 {
      BudgetSuffices(cfg, edges, before.d, before.nodes, |logs|);
      SamplingSucceeds(cfg, edges, before.reps, before.nodes, Sides(n, logs), sampled, query, |logs|);
    }
  }

  /** With one sketch fewer a round may run out, but only when there is nothing left to find. */
  lemma OneSketchShort(cfg: Config, edges: set<nat>, n: nat, start: Snapshot, logs: seq<Log>, before: Snapshot,
                       sampled: seq<Supernode>, query: seq<Sampled>, i: nat)
    requires StartState(start, n) && Represented(cfg, edges, start.nodes) && Run(cfg, start, logs, before)
    requires Unfailing(cfg, edges, start.nodes) && n < Pow2(cfg.sketches + 1) && (logs != [] ==> Last(logs).m.modified)
    requires SampledFrom(cfg, before.reps, before.nodes, sampled, query)
    requires i in before.reps && i < |query| && !query[i].Sample?
    ensures Forest(before.d) && Active(edges, before.d) == {}
  {
    RunOnBudget(cfg, edges, n, start, logs, before);
    RunKeepsInv(cfg, edges, n, start, logs, before);
    SamplingSucceeds(cfg, edges, before.reps, before.nodes, Sides(n, logs), sampled, query, |logs|);
    Pow2Monotone(cfg.sketches, |logs|);
    OneLeft(|Active(edges, before.d)|, |logs|, n);
    if r :| r in Active(edges, before.d) { NotAlone(edges, before.d, r); }
  }

  lemma OneShortUnites(cfg: Config, edges: set<nat>, n: nat, start: Snapshot, logs: seq<Log>, before: Snapshot,
                       sampled: seq<Supernode>, query: seq<Sampled>, i: nat)
    requires StartState(start, n) && Represented(cfg, edges, start.nodes) && Run(cfg, start, logs, before)
    requires Unfailing(cfg, edges, start.nodes) && n < Pow2(cfg.sketches + 1) && (logs != [] ==> Last(logs).m.modified)
    requires SampledFrom(cfg, before.reps, before.nodes, sampled, query)
    requires i in before.reps && i < |query| && !query[i].Sample?
    ensures Components(before.d, edges)
  {
    OneSketchShort(cfg, edges, n, start, logs, before, sampled, query, i);
    RunKeepsInv(cfg, edges, n, start, logs, before);
    NoneActiveIff(edges, before.d, before.forest);
  }

  /** A run that has come to a failed sample has united along edges only, everything if it was but
      one sketch short, and nothing if every sketch fails. */
  lemma CutShortMeans(cfg: Config, edges: set<nat>, n: nat, start: Snapshot, logs: seq<Log>, before: Snapshot,
                      sampled: seq<Supernode>, query: seq<Sampled>, i: nat)
    requires StartState(start, n) && Represented(cfg, edges, start.nodes) && Run(cfg, start, logs, before)
    requires SampledFrom(cfg, before.reps, before.nodes, sampled, query) && (logs != [] ==> Last(logs).m.modified)
    requires i in before.reps && i < |query| && !query[i].Sample?
    ensures Spanning(before.d, before.forest) && before.forest <= edges
    ensures Unfailing(cfg, edges, start.nodes) && n < Pow2(cfg.sketches + 1) ==> Components(before.d, edges)
    ensures AlwaysFails(cfg, edges, n) && n > 0 ==> Scattered(before.d)
  {
    RunKeepsInv(cfg, edges, n, start, logs, before);
    if Unfailing(cfg, edges, start.nodes) && n < Pow2(cfg.sketches + 1) {
      OneShortUnites(cfg, edges, n, start, logs, before, sampled, query, i);
    }
    if AlwaysFails(cfg, edges, n) && n > 0 { HopelessRun(cfg, edges, n, start, logs, before); }
  }

  lemma OneLeft(active: nat, k: nat, n: nat)
    requires active * Pow2(k) <= n < 2 * Pow2(k)
    ensures active < 2
  {
    assert active >= 2 ==> active * Pow2(k) >= 2 * Pow2(k);
  }

  // ---------- termination ----------

  /** Whatever the samples are: a round uses samples up and, if it modified something, leaves
      representatives; so the loop ends. */
  lemma RoundProgress(cfg: Config, log: Log, after: Snapshot)
    requires RoundStep(cfg, log, after)
    requires log.before.reps != [] || |log.before.nodes| == 0
    ensures log.m.modified ==> after.reps != []
    ensures if log.before.reps != [] then Total(after.nodes) < Total(log.before.nodes)
            else after.nodes == log.before.nodes && !log.m.modified
  {
    var b := log.before;
    if log.m.modified { ModifiedHasReps(b.d, b.forest, b.reps, log.query, log.m); }
    if b.reps != [] {
      FirstIsSampled(b.reps, log.query);
      RoundUsesSamples(cfg, b.reps, b.nodes, log.sampled, log.query, log.m.toMerge, after.nodes);
    } else {
      QuietWithoutNodes(b.d, b.forest, log.query, log.m);
    }
  }

  lemma FirstIsSampled(reps: seq<nat>, query: seq<Sampled>)
    requires reps != [] && forall i | i in reps :: i < |query| && query[i].Sample?
    ensures reps[0] < |query| && query[reps[0]].Sample?
  {
    assert reps[0] in reps;
  }

  lemma QuietWithoutNodes(d0: Dsu, forest0: set<nat>, query: seq<Sampled>, m: Merging)
    requires RoundShape(d0, forest0, [], query, m) && |m.toMerge| == 0
    ensures !m.modified
  {
    assert forall a: nat :: !MergedInto(m.toMerge, a);
  }

  // ---------- when every sample fails ----------

  /** No sketch of a single node's edges isolates one of them. */
  ghost predicate AlwaysFails(cfg: Config, edges: set<nat>, n: nat)
  {
    forall v: nat, i: nat | v < n && i < cfg.sketches ::
      QueryBuckets(cfg, SeedOf(cfg, i), BucketsOf(cfg, SeedOf(cfg, i), Cut(edges, {v}))).1 == FAIL
  }

  /** Every node is its own root still. */
  ghost predicate Scattered(d: Dsu)
  {
    forall v | 0 <= v < |d.parent| :: d.parent[v] == v
  }

  /** Then no round unites anything, and every round is followed by another. */
  lemma {:induction false} HopelessRun(cfg: Config, edges: set<nat>, n: nat, start: Snapshot, logs: seq<Log>, end: Snapshot)
    requires StartState(start, n) && Represented(cfg, edges, start.nodes) && Run(cfg, start, logs, end)
    requires AlwaysFails(cfg, edges, n) && n > 0
    ensures Scattered(end.d) && |end.d.parent| == n && end.reps != []
    ensures logs != [] ==> Last(logs).m.modified
    decreases |logs|
  {
    RunKeepsInv(cfg, edges, n, start, logs, end);
    if logs != [] {
      var log := Last(logs);
      HopelessRun(cfg, edges, n, start, Init(logs), log.before);
      RunKeepsInv(cfg, edges, n, start, Init(logs), log.before);
      HopelessRound(cfg, edges, log, Sides(n, Init(logs)), end);
    }
  }

  lemma HopelessRound(cfg: Config, edges: set<nat>, log: Log, sides: seq<set<nat>>, end: Snapshot)
    requires RoundStep(cfg, log, end) && AlwaysFails(cfg, edges, |log.before.d.parent|)
    requires Inv(cfg, edges, log.before.d, log.before.forest, log.before.reps, log.before.nodes, sides)
    requires Scattered(log.before.d) && log.before.reps != []
    ensures Scattered(end.d) && log.m.modified && end.reps != []
  {
    var b := log.before;
    forall i | i in b.reps
      ensures Failed(log.query, i)
    {
      AloneSampled(cfg, edges, b.d, b.nodes[i], sides[i], i);
    }
    var i := b.reps[0];
    assert i in b.reps && InNewReps(b.reps, log.query, log.m.toMerge, i);
    NothingUnited(b.d, b.forest, b.reps, log.query, log.m);
  }

  /** A first round after which there is no other has found a graph without edges. */
  lemma OneQuietRound(cfg: Config, edges: set<nat>, n: nat, start: Snapshot, logs: seq<Log>, end: Snapshot)
    requires StartState(start, n) && Represented(cfg, edges, start.nodes) && Run(cfg, start, logs, end)
    requires |logs| == 1 && !logs[0].m.modified
    ensures edges == {}
  {
    RunFindsComponents(cfg, edges, n, start, logs, end);
    OneRound(cfg, start, logs, end);
    if edges != {} { NothingListed(edges, n, start.forest, start.reps, logs[0].query, logs[0].m); }
  }

  lemma OneRound(cfg: Config, start: Snapshot, logs: seq<Log>, end: Snapshot)
    requires Run(cfg, start, logs, end) && |logs| == 1
    ensures logs[0].before == start && RoundStep(cfg, logs[0], end)
  {
    assert Init(logs) == [];
  }

  lemma NothingListed(edges: set<nat>, n: nat, forest: set<nat>, reps: seq<nat>, query: seq<Sampled>, m: Merging)
    requires RoundShape(Singletons(n), forest, reps, query, m) && Components(m.d, edges) && Edges.Simple(edges, n) && edges != {}
    ensures m.modified
  {
    var e :| e in edges;
    EdgeEnds(edges, n, e);
    OneEdge(edges, Edges.Src(e), Edges.Dst(e));
    UnitedMeansListed(n, m, Edges.Src(e), Edges.Dst(e));
  }

  lemma UnitedMeansListed(n: nat, m: Merging, u: nat, v: nat)
    requires Lists(Singletons(n), m.d, m.toMerge) && u < n && v < n && u != v && Root(m.d, u) == Root(m.d, v)
    ensures exists a :: MergedInto(m.toMerge, a)
  {
    SingletonsValid(n);
    var r := Root(m.d, u);
    var x := if u == r then v else u;
    assert ListOk(Singletons(n), m.d, r, m.toMerge[r]);
    assert x in Roots(Singletons(n));
    assert MergedInto(m.toMerge, r);
  }

  lemma AloneSampled(cfg: Config, edges: set<nat>, d: Dsu, node: Supernode, side: set<nat>, v: nat)
    requires Forest(d) && Scattered(d) && v < |d.parent| && AlwaysFails(cfg, edges, |d.parent|)
    requires side == Class(d, v) && Represents(cfg, node, Cut(edges, side))
    ensures SampleNode(cfg, node).1.Sample? ==> SampleNode(cfg, node).1.ret == FAIL
  {
    assert Class(d, v) == {v};
  }

  /** A round without a hit links nothing. */
  lemma NothingUnited(d0: Dsu, forest0: set<nat>, reps: seq<nat>, query: seq<Sampled>, m: Merging)
    requires RoundShape(d0, forest0, reps, query, m) && Spanning(d0, forest0) && forall i | i in reps :: !Hit(query, i)
    ensures Scattered(d0) ==> Scattered(m.d)
  {
    assert Hits(query, reps) == {};
    assert m.forest == forest0;
    assert |Roots(m.d)| == |Roots(d0)|;
    if Scattered(d0) { AllRoots(d0, m.d); }
  }

  lemma AllRoots(d0: Dsu, d: Dsu)
    requires |d0.parent| == |d.parent| && Scattered(d0) && |Roots(d)| == |Roots(d0)|
    ensures Scattered(d)
  {
    forall v: nat | v < |d.parent|
      ensures v in Roots(d0)
    {
    }
    assert Roots(d) <= Roots(d0);
    if Roots(d) < Roots(d0) { Smaller(Roots(d), Roots(d0)); }
    assert Roots(d) == Roots(d0);
    forall v: nat | v < |d.parent|
      ensures d.parent[v] == v
    {
      assert v in Roots(d0);
    }
  }

  lemma Smaller(s: set<nat>, t: set<nat>)
    requires s < t
    ensures |s| < |t|
  {
    assert t == s + (t - s);
  }
}
