/** The parallel loop of merge_supernodes: every interleaving of its iterations, down to single
    copies and merges, ends in the same supernodes and the same copies. */
module ParallelMerge {
  import opened DisjointSets
  import opened Sketches
  import opened Supernodes
  import opened Rounds

  /** Nodes that are merged from are in range and are not merged into. */
  ghost predicate Clean(toMerge: seq<seq<nat>>)
  {
    forall a, j {:trigger toMerge[a][j]} | 0 <= a < |toMerge| && 0 <= j < |toMerge[a]| ::
      toMerge[a][j] < |toMerge| && toMerge[toMerge[a][j]] == []
  }

  lemma ListsAreClean(d0: Dsu, d: Dsu, toMerge: seq<seq<nat>>)
    requires Lists(d0, d, toMerge)
    ensures Clean(toMerge)
  {
    forall a: nat, j: nat | a < |toMerge| && j < |toMerge[a]|
      ensures toMerge[a][j] < |toMerge| && toMerge[toMerge[a][j]] == []
    {
      MergeIsRaceFree(d0, d, toMerge, a, a, toMerge[a][j]);
    }
  }

  /** Thread a has done the first done[a] merges of its list. */
  ghost predicate Reached(cfg: Config, start: seq<Supernode>, toMerge: seq<seq<nat>>, done: seq<nat>, nodes: seq<Supernode>)
  {
    && PoolShaped(cfg, start) && Clean(toMerge)
    && |start| == |toMerge| == |done| == |nodes|
    && forall v | 0 <= v < |nodes| ::
         done[v] <= |toMerge[v]| && InRange(toMerge[v], |start|) && nodes[v] == MergeAll(cfg, start, start[v], toMerge[v][..done[v]])
  }

  ghost predicate InRange(list: seq<nat>, n: nat)
  {
    forall k | 0 <= k < |list| :: list[k] < n
  }

  /** Thread a performs its next merge, reading the other supernode as it is at that moment. */
  lemma OneMerge(cfg: Config, start: seq<Supernode>, toMerge: seq<seq<nat>>, done: seq<nat>, nodes: seq<Supernode>, a: nat)
    requires Reached(cfg, start, toMerge, done, nodes) && a < |nodes| && done[a] < |toMerge[a]|
    ensures toMerge[a][done[a]] < |nodes| && Shaped(cfg, nodes[a]) && Shaped(cfg, nodes[toMerge[a][done[a]]])
    ensures Reached(cfg, start, toMerge, done[a := done[a] + 1],
                    nodes[a := MergeNode(cfg, nodes[a], nodes[toMerge[a][done[a]]])])
  {
    var b := toMerge[a][done[a]];
    assert toMerge[b] == [];
    assert nodes[b] == start[b];
    var list := toMerge[a][..done[a] + 1];
    assert list[..|list| - 1] == toMerge[a][..done[a]];
  }

  lemma ScheduleStart(cfg: Config, start: seq<Supernode>, toMerge: seq<seq<nat>>)
    requires PoolShaped(cfg, start) && Clean(toMerge) && |start| == |toMerge|
    ensures Reached(cfg, start, toMerge, seq(|start|, v => 0), start)
  {
  }

  // ---------- schedules ----------

  /** The shared state of the loop: how many steps each iteration has taken, the supernodes, and
      the copies. The first step of an iteration makes the copy, if one is wanted. */
  datatype Parallel = Parallel(steps: seq<nat>, nodes: seq<Supernode>, copies: map<nat, Supernode>)

  ghost predicate Fits(cfg: Config, toMerge: seq<seq<nat>>, st: Parallel)
  {
    && PoolShaped(cfg, st.nodes) && |st.nodes| == |toMerge| == |st.steps|
    && forall v | 0 <= v < |toMerge| :: InRange(toMerge[v], |toMerge|)
  }

  /** Iteration a takes its next step, on the supernodes as they are at that moment; an iteration
      that has finished does nothing. */
  ghost function Turn(cfg: Config, toMerge: seq<seq<nat>>, makeCopy: bool, st: Parallel, a: nat): (r: Parallel)
    requires Fits(cfg, toMerge, st) && a < |toMerge|
    ensures Fits(cfg, toMerge, r)
  {
    var k := st.steps[a];
    if k > |toMerge[a]| then st
    else if k == 0 then
      st.(steps := st.steps[a := 1], copies := if makeCopy then st.copies[a := CopyNode(st.nodes[a])] else st.copies)
    else
      st.(steps := st.steps[a := k + 1], nodes := st.nodes[a := MergeNode(cfg, st.nodes[a], st.nodes[toMerge[a][k - 1]])])
  }

  /** A schedule names the iterations in the order of their steps. */
  ghost function RunSchedule(cfg: Config, toMerge: seq<seq<nat>>, makeCopy: bool, st: Parallel, schedule: seq<nat>): Parallel
    requires Fits(cfg, toMerge, st) && InRange(schedule, |toMerge|)
    decreases |schedule|
  {
    if schedule == [] then st
    else RunSchedule(cfg, toMerge, makeCopy, Turn(cfg, toMerge, makeCopy, st, schedule[0]), schedule[1..])
  }

  function Begin(nodes: seq<Supernode>): Parallel
  {
    Parallel(seq(|nodes|, v => 0), nodes, map[])
  }

  function Merges(steps: seq<nat>): (r: seq<nat>)
    ensures |r| == |steps|
  {
    seq(|steps|, v requires 0 <= v < |steps| => if steps[v] == 0 then 0 else steps[v] - 1)
  }

  /** Each iteration has copied and merged what its steps say, and only iterations of reps have begun. */
  ghost predicate OnTrack(cfg: Config, start: seq<Supernode>, toMerge: seq<seq<nat>>, makeCopy: bool, reps: seq<nat>, st: Parallel)
  {
    && Reached(cfg, start, toMerge, Merges(st.steps), st.nodes)
    && forall v: nat :: IterationOnTrack(start, makeCopy, reps, st, v)
  }

  ghost predicate IterationOnTrack(start: seq<Supernode>, makeCopy: bool, reps: seq<nat>, st: Parallel, v: nat)
  {
    && (v in st.copies <==> makeCopy && v < |st.steps| && st.steps[v] > 0)
    && (v in st.copies ==> v < |start| && st.copies[v] == CopyNode(start[v]))
    && (v < |st.steps| && st.steps[v] > 0 ==> v in reps)
  }

  lemma TurnStaysOnTrack(cfg: Config, start: seq<Supernode>, toMerge: seq<seq<nat>>, makeCopy: bool, reps: seq<nat>,
                         st: Parallel, a: nat)
    requires OnTrack(cfg, start, toMerge, makeCopy, reps, st) && Fits(cfg, toMerge, st) && a < |toMerge| && a in reps
    ensures OnTrack(cfg, start, toMerge, makeCopy, reps, Turn(cfg, toMerge, makeCopy, st, a))
  {
    var st' := Turn(cfg, toMerge, makeCopy, st, a);
    TurnReaches(cfg, start, toMerge, makeCopy, st, st', a);
    forall v: nat
      ensures IterationOnTrack(start, makeCopy, reps, st', v)
    {
      assert IterationOnTrack(start, makeCopy, reps, st, v) && IterationOnTrack(start, makeCopy, reps, st, a);
      if st.steps[a] == 0 { assert toMerge[a][..0] == []; }
    }
  }

  lemma TurnReaches(cfg: Config, start: seq<Supernode>, toMerge: seq<seq<nat>>, makeCopy: bool, st: Parallel, st': Parallel, a: nat)
    requires Reached(cfg, start, toMerge, Merges(st.steps), st.nodes) && Fits(cfg, toMerge, st) && a < |toMerge|
    requires st' == Turn(cfg, toMerge, makeCopy, st, a)
    ensures Reached(cfg, start, toMerge, Merges(st'.steps), st'.nodes)
  {
    var k := st.steps[a];
    if k == 0 {
      assert Merges(st'.steps) == Merges(st.steps);
    } else if k <= |toMerge[a]| {
      OneMerge(cfg, start, toMerge, Merges(st.steps), st.nodes, a);
      assert Merges(st'.steps) == Merges(st.steps)[a := k];
    }
  }

  lemma {:induction false} ScheduleStaysOnTrack(cfg: Config, start: seq<Supernode>, toMerge: seq<seq<nat>>, makeCopy: bool,
                                                reps: seq<nat>, st: Parallel, schedule: seq<nat>)
    requires OnTrack(cfg, start, toMerge, makeCopy, reps, st) && Fits(cfg, toMerge, st)
    requires InRange(schedule, |toMerge|) && forall k | 0 <= k < |schedule| :: schedule[k] in reps
    ensures OnTrack(cfg, start, toMerge, makeCopy, reps, RunSchedule(cfg, toMerge, makeCopy, st, schedule))
    decreases |schedule|
  {
    if schedule != [] {
      TurnStaysOnTrack(cfg, start, toMerge, makeCopy, reps, st, schedule[0]);
      ScheduleStaysOnTrack(cfg, start, toMerge, makeCopy, reps, Turn(cfg, toMerge, makeCopy, st, schedule[0]), schedule[1..]);
    }
  }

  /** All iterations have taken all their steps. */
  ghost predicate Finished(toMerge: seq<seq<nat>>, reps: seq<nat>, st: Parallel)
  {
    forall v | v in reps :: v < |toMerge| && v < |st.steps| && st.steps[v] == |toMerge[v]| + 1
  }

  /** What the loop is for: merged supernodes, and a copy of each representative as it was before. */
  ghost predicate Outcome(cfg: Config, start: seq<Supernode>, toMerge: seq<seq<nat>>, makeCopy: bool, reps: seq<nat>, st: Parallel)
  {
    && MergedFrom(cfg, start, toMerge, st.nodes)
    && (forall v: nat :: v in st.copies <==> makeCopy && v in reps)
    && forall v: nat | v in st.copies :: v < |start| && st.copies[v] == CopyNode(start[v])
  }

  /** Every schedule that lets all iterations finish has the same outcome. */
  lemma EveryScheduleAgrees(cfg: Config, start: seq<Supernode>, toMerge: seq<seq<nat>>, makeCopy: bool, reps: seq<nat>,
                            schedule: seq<nat>)
    requires PoolShaped(cfg, start) && |start| == |toMerge| && Clean(toMerge)
    requires forall v: nat | MergedInto(toMerge, v) :: v in reps
    requires InRange(schedule, |toMerge|) && forall k | 0 <= k < |schedule| :: schedule[k] in reps
    ensures Fits(cfg, toMerge, Begin(start))
    ensures var end := RunSchedule(cfg, toMerge, makeCopy, Begin(start), schedule);
      Finished(toMerge, reps, end) ==> Outcome(cfg, start, toMerge, makeCopy, reps, end)
  {
    ScheduleStart(cfg, start, toMerge);
    assert Merges(Begin(start).steps) == seq(|start|, v => 0);
    ScheduleStaysOnTrack(cfg, start, toMerge, makeCopy, reps, Begin(start), schedule);
    var end := RunSchedule(cfg, toMerge, makeCopy, Begin(start), schedule);
    if Finished(toMerge, reps, end) { TrackEnds(cfg, start, toMerge, makeCopy, reps, end); }
  }

  lemma TrackEnds(cfg: Config, start: seq<Supernode>, toMerge: seq<seq<nat>>, makeCopy: bool, reps: seq<nat>, st: Parallel)
    requires OnTrack(cfg, start, toMerge, makeCopy, reps, st) && Finished(toMerge, reps, st)
    requires forall v: nat | MergedInto(toMerge, v) :: v in reps
    ensures Outcome(cfg, start, toMerge, makeCopy, reps, st)
  {
    forall v: nat
      ensures v in st.copies <==> makeCopy && v in reps
      ensures v in st.copies ==> v < |start| && st.copies[v] == CopyNode(start[v])
    {
      assert IterationOnTrack(start, makeCopy, reps, st, v);
    }
    forall v: nat | v < |start|
      ensures InRange(toMerge[v], |start|) && st.nodes[v] == MergeAll(cfg, start, start[v], toMerge[v])
    {
      var k := Merges(st.steps)[v];
      assert MergedInto(toMerge, v) <==> toMerge[v] != [];
      assert toMerge[v][..k] == toMerge[v];
    }
  }

  /** In particular after supernodes_to_merge, whatever it was given to work on. */
  lemma RoundSchedules(cfg: Config, d0: Dsu, forest0: set<nat>, reps: seq<nat>, query: seq<Sampled>, m: Merging,
                       start: seq<Supernode>, makeCopy: bool, schedule: seq<nat>)
    requires RoundShape(d0, forest0, reps, query, m) && InRange(reps, |d0.parent|)
    requires PoolShaped(cfg, start) && |start| == |d0.parent| && forall k | 0 <= k < |schedule| :: schedule[k] in m.reps
    ensures InRange(schedule, |m.toMerge|) && Fits(cfg, m.toMerge, Begin(start))
    ensures var end := RunSchedule(cfg, m.toMerge, makeCopy, Begin(start), schedule);
      Finished(m.toMerge, m.reps, end) ==> Outcome(cfg, start, m.toMerge, makeCopy, m.reps, end)
  {
    RoundIsClean(d0, forest0, reps, query, m);
    forall k | 0 <= k < |schedule|
      ensures schedule[k] < |m.toMerge|
    {
      assert InNewReps(reps, query, m.toMerge, schedule[k]);
    }
    EveryScheduleAgrees(cfg, start, m.toMerge, makeCopy, m.reps, schedule);
  }

  lemma RoundIsClean(d0: Dsu, forest0: set<nat>, reps: seq<nat>, query: seq<Sampled>, m: Merging)
    requires RoundShape(d0, forest0, reps, query, m) && InRange(reps, |m.toMerge|)
    ensures Clean(m.toMerge) && InRange(m.reps, |m.toMerge|)
    ensures forall v: nat | MergedInto(m.toMerge, v) :: v in m.reps
  {
    ListsAreClean(d0, m.d, m.toMerge);
    forall v: nat | MergedInto(m.toMerge, v)
      ensures v in m.reps
    {
      assert InNewReps(reps, query, m.toMerge, v);
    }
    forall k | 0 <= k < |m.reps|
      ensures m.reps[k] < |m.toMerge|
    {
      assert m.reps[k] in m.reps;
      assert InNewReps(reps, query, m.toMerge, m.reps[k]);
    }
  }
}
