/**
  The worker threads and the pause/unpause handshake (src/graph_worker.cpp). Workers take data nodes
  off the shared queue and apply their batches; the main thread pauses them around a query. The
  flags, the queue and each worker's thr_paused are shared, and a run is an arbitrary list of steps.
  The two waits hold the lock under which thr_paused is written, so each of their checks is one step.
*/
module Workers {
  import opened Basics
  import opened Supernodes
  import opened Sketches
  import opened Updates

  /** Where a worker stands in do_work; thr_paused is set exactly in Paused. */
  datatype Worker =
    | Polling                          // about to call get_data
    | Applying(rest: seq<Batch>)       // holds a data node with these batches left
    | Empty                            // get_data found nothing
    | Locking                          // saw paused set
    | Paused

  /** Where the main thread stands; `again` marks a pause_workers called on paused workers. */
  datatype Main =
    | Working
    | SettingPaused(again: bool)
    | SettingNonBlock(again: bool)
    | AwaitingPause(again: bool)
    | Holding                          // pause_workers has returned
    | ClearingNonBlock
    | ClearingPaused
    | AwaitingResume

  /** Besides the shared state: all batches ever queued, all batches applied in order, and whether
      anything was queued since the workers were last known to be paused. */
  datatype State = State(queue: seq<seq<Batch>>, paused: bool, nonBlock: bool, workers: seq<Worker>, main: Main,
                         produced: seq<Batch>, applied: seq<Batch>, late: bool)

  datatype Action =
    | Produce(node: seq<Batch>)
    | Take(i: nat, k: nat)             // get_data returns an entry of the queue
    | Miss(i: nat)                     // get_data returns false
    | Work(i: nat)                     // any other step of a worker
    | Pause
    | Unpause
    | Proceed                          // the next step of a call in progress

  function Start(workers: nat): State
  {
    State([], false, false, seq(workers, i => Polling), Working, [], [], false)
  }

  predicate AllPaused(workers: seq<Worker>)
  {
    forall i | 0 <= i < |workers| :: workers[i] == Paused
  }

  predicate NonePaused(workers: seq<Worker>)
  {
    forall i | 0 <= i < |workers| :: workers[i] != Paused
  }

  /** Updates come only while no query is in progress. get_data waits on an empty queue unless
      it has been told not to. */
  predicate Enabled(s: State, a: Action)
  {
    match a
    case Produce(_) => s.main in {Working, Holding}
    case Take(i, k) => i < |s.workers| && s.workers[i] == Polling && k < |s.queue|
    case Miss(i) => i < |s.workers| && s.workers[i] == Polling && s.queue == [] && s.nonBlock
    case Work(i) => i < |s.workers| && s.workers[i] != Polling && (s.workers[i] == Paused ==> !s.paused)
    case Pause => s.main in {Working, Holding}
    case Unpause => s.main == Holding
    case Proceed =>
      match s.main
      case Working => false
      case Holding => false
      case AwaitingPause(_) => AllPaused(s.workers)
      case AwaitingResume => NonePaused(s.workers)
      case _ => true
  }

  function Step(s: State, a: Action): State
    requires Enabled(s, a)
  {
    match a
    case Produce(node) => s.(queue := s.queue + [node], produced := s.produced + node, late := s.main == Holding || s.late)
    case Take(i, k) => s.(queue := s.queue[..k] + s.queue[k + 1..], workers := s.workers[i := Applying(s.queue[k])])
    case Miss(i) => s.(workers := s.workers[i := Empty])
    case Work(i) => WorkStep(s, i)
    case Pause => s.(main := SettingPaused(s.main == Holding))
    case Unpause => s.(main := ClearingNonBlock)
    case Proceed =>
      match s.main
      case SettingPaused(again) => s.(paused := true, main := SettingNonBlock(again))
      case SettingNonBlock(again) => s.(nonBlock := true, main := AwaitingPause(again))
      case AwaitingPause(_) => s.(main := Holding)
      case ClearingNonBlock => s.(nonBlock := false, main := ClearingPaused)
      case ClearingPaused => s.(paused := false, main := AwaitingResume, late := false)
      case AwaitingResume => s.(main := Working)
  }

  function WorkStep(s: State, i: nat): State
    requires i < |s.workers|
  {
    match s.workers[i]
    case Polling => s
    case Applying(rest) =>
      if rest == [] then s.(workers := s.workers[i := Polling])
      else s.(applied := s.applied + [rest[0]], workers := s.workers[i := Applying(rest[1..])])
    case Empty => s.(workers := s.workers[i := if s.paused then Locking else Polling])
    case Locking => s.(workers := s.workers[i := Paused])
    case Paused => s.(workers := s.workers[i := Polling])
  }

  ghost predicate Runs(s: State, actions: seq<Action>, s': State)
    decreases |actions|
  {
    if actions == [] then s == s'
    else Enabled(s, actions[0]) && Runs(Step(s, actions[0]), actions[1..], s')
  }

  // ---------- conservation of batches ----------

  /** How often b waits in the queue. */
  ghost function Queued(queue: seq<seq<Batch>>, b: Batch): nat
  {
    if queue == [] then 0 else multiset(queue[0])[b] + Queued(queue[1..], b)
  }

  ghost function InHand(w: Worker, b: Batch): nat
  {
    if w.Applying? then multiset(w.rest)[b] else 0
  }

  /** How often b is in a worker's hands. */
  ghost function Carried(workers: seq<Worker>, b: Batch): nat
  {
    if workers == [] then 0 else InHand(workers[0], b) + Carried(workers[1..], b)
  }

  lemma {:induction false} QueuedConcat(q: seq<seq<Batch>>, r: seq<seq<Batch>>, b: Batch)
    ensures Queued(q + r, b) == Queued(q, b) + Queued(r, b)
  {
    if q == [] {
      assert q + r == r;
    } else {
      QueuedConcat(q[1..], r, b);
      assert (q + r)[1..] == q[1..] + r;
    }
  }

  lemma QueuedAt(q: seq<seq<Batch>>, k: nat, b: Batch)
    requires k < |q|
    ensures Queued(q, b) == Queued(q[..k] + q[k + 1..], b) + multiset(q[k])[b]
  {
    QueuedConcat(q[..k], q[k..], b);
    QueuedConcat(q[..k], q[k + 1..], b);
    assert q == q[..k] + q[k..] && q[k..][1..] == q[k + 1..];
  }

  lemma {:induction false} CarriedUpdate(workers: seq<Worker>, i: nat, w: Worker, b: Batch)
    requires i < |workers|
    ensures Carried(workers[i := w], b) + InHand(workers[i], b) == Carried(workers, b) + InHand(w, b)
  {
    if i > 0 {
      CarriedUpdate(workers[1..], i - 1, w, b);
      assert workers[i := w][1..] == workers[1..][i - 1 := w];
    } else {
      assert workers[i := w][1..] == workers[1..];
    }
  }

  lemma {:induction false} NothingCarried(workers: seq<Worker>, b: Batch)
    requires forall i | 0 <= i < |workers| :: !workers[i].Applying?
    ensures Carried(workers, b) == 0
  {
    if workers != [] { NothingCarried(workers[1..], b); }
  }

  ghost predicate Accounted(s: State, b: Batch)
  {
    multiset(s.produced)[b] == multiset(s.applied)[b] + Queued(s.queue, b) + Carried(s.workers, b)
  }

  /** No batch is lost and none is applied twice. */
  ghost predicate Conserved(s: State)
  {
    forall b :: Accounted(s, b)
  }

  // ---------- the invariant ----------

  /** The worker knows that a pause is on. */
  predicate Resting(w: Worker)
  {
    w in {Empty, Locking, Paused}
  }

  ghost predicate Phase(s: State)
  {
    match s.main
    case Working => !s.paused && !s.nonBlock && !s.late && NoneResting(s.workers)
    case SettingPaused(again) =>
      if again then s.paused && s.nonBlock && Still(s) else !s.paused && !s.nonBlock && !s.late && NoneResting(s.workers)
    case SettingNonBlock(again) =>
      s.paused && if again then s.nonBlock && Still(s) else !s.nonBlock && !s.late && NoneResting(s.workers)
    case AwaitingPause(again) =>
      s.paused && s.nonBlock &&
      if again then Still(s) else !s.late && (NoneResting(s.workers) || s.queue == [])
    case Holding => s.paused && s.nonBlock && Still(s)
    case ClearingNonBlock => s.paused && s.nonBlock && Still(s)
    case ClearingPaused => s.paused && !s.nonBlock && Still(s)
    case AwaitingResume => !s.paused && !s.nonBlock && !s.late && NoneMissing(s.workers)
  }

  ghost predicate NoneResting(workers: seq<Worker>)
  {
    forall i | 0 <= i < |workers| :: !Resting(workers[i])
  }

  ghost predicate NoneMissing(workers: seq<Worker>)
  {
    forall i | 0 <= i < |workers| :: workers[i] !in {Empty, Locking}
  }

  /** Paused workers, and a queue that holds only what came in since. */
  ghost predicate Still(s: State)
  {
    AllPaused(s.workers) && (s.late <==> s.queue != [])
  }

  ghost predicate Inv(s: State)
  {
    Conserved(s) && Phase(s) && |s.workers| > 0
  }

  lemma StartInv(workers: nat)
    requires workers > 0
    ensures Inv(Start(workers))
  {
    forall b
      ensures Accounted(Start(workers), b)
    {
      NothingCarried(Start(workers).workers, b);
    }
  }

  lemma ProduceConserves(s: State, node: seq<Batch>, b: Batch)
    requires Accounted(s, b) && Enabled(s, Produce(node))
    ensures Accounted(Step(s, Produce(node)), b)
  {
    QueuedConcat(s.queue, [node], b);
    assert [node][1..] == [];
  }

  lemma StepConserves(s: State, a: Action, b: Batch)
    requires Accounted(s, b) && Enabled(s, a)
    ensures Accounted(Step(s, a), b)
  {
    match a {
      case Produce(node) =>
        ProduceConserves(s, node, b);
      case Take(i, k) =>
        QueuedAt(s.queue, k, b);
        CarriedUpdate(s.workers, i, Applying(s.queue[k]), b);
      case Miss(i) =>
        CarriedUpdate(s.workers, i, Empty, b);
      case Work(i) =>
        WorkConserves(s, i, b);
      case _ =>
    }
  }

  lemma WorkConserves(s: State, i: nat, b: Batch)
    requires Accounted(s, b) && i < |s.workers|
    ensures Accounted(WorkStep(s, i), b)
  {
    match s.workers[i] {
      case Polling =>
      case Applying(rest) => ApplyConserves(s, i, rest, b);
      case _ => CarriedUpdate(s.workers, i, WorkStep(s, i).workers[i], b);
    }
  }

  lemma ApplyConserves(s: State, i: nat, rest: seq<Batch>, b: Batch)
    requires Accounted(s, b) && i < |s.workers| && s.workers[i] == Applying(rest)
    ensures Accounted(WorkStep(s, i), b)
  {
    if rest == [] {
      CarriedUpdate(s.workers, i, Polling, b);
    } else {
      CarriedUpdate(s.workers, i, Applying(rest[1..]), b);
      Moved(rest, s.applied, b);
    }
  }

  lemma Moved(rest: seq<Batch>, applied: seq<Batch>, b: Batch)
    requires rest != []
    ensures multiset(rest)[b] + multiset(applied)[b] == multiset(rest[1..])[b] + multiset(applied + [rest[0]])[b]
  {
    assert rest == [rest[0]] + rest[1..];
  }

  lemma StepKeepsPhase(s: State, a: Action)
    requires Phase(s) && |s.workers| > 0 && Enabled(s, a)
    ensures Phase(Step(s, a)) && |Step(s, a).workers| == |s.workers|
  {
    assert AllPaused(s.workers) ==> Resting(s.workers[0]);
  }

  lemma {:induction false} RunKeepsInv(s: State, actions: seq<Action>, s': State)
    requires Inv(s) && Runs(s, actions, s')
    ensures Inv(s')
    decreases |actions|
  {
    if actions != [] {
      forall b
        ensures Accounted(Step(s, actions[0]), b)
      {
        assert Accounted(s, b);
        StepConserves(s, actions[0], b);
      }
      StepKeepsPhase(s, actions[0]);
      RunKeepsInv(Step(s, actions[0]), actions[1..], s');
    }
  }

  // ---------- quiescence ----------

  /** Nothing queued, nothing in a worker's hands, every batch applied once. */
  ghost predicate Quiescent(s: State)
  {
    && s.queue == [] && (forall i | 0 <= i < |s.workers| :: s.workers[i] == Paused)
    && multiset(s.applied) == multiset(s.produced)
  }

  lemma AllApplied(s: State)
    requires Conserved(s) && s.queue == [] && forall i | 0 <= i < |s.workers| :: !s.workers[i].Applying?
    ensures multiset(s.applied) == multiset(s.produced)
  {
    forall b
      ensures multiset(s.applied)[b] == multiset(s.produced)[b]
    {
      assert Accounted(s, b);
      NothingCarried(s.workers, b);
    }
  }

  /** In every run, pause_workers returns with the system quiescent exactly if nothing was queued
      since the workers were last paused; a pause_workers called on unpaused workers always does. */
  lemma PauseQuiesces(workers: nat, actions: seq<Action>, s: State)
    requires workers > 0 && Runs(Start(workers), actions, s)
    requires s.main.AwaitingPause? && Enabled(s, Proceed)
    ensures Quiescent(Step(s, Proceed)) <==> !s.late
    ensures !s.main.again ==> Quiescent(Step(s, Proceed))
  {
    StartInv(workers);
    RunKeepsInv(Start(workers), actions, s);
    assert Resting(s.workers[0]);
    if s.queue == [] { AllApplied(s); }
  }

  /** unpause_workers returns with every worker back at work and no flag left set. */
  lemma UnpauseReleases(workers: nat, actions: seq<Action>, s: State)
    requires workers > 0 && Runs(Start(workers), actions, s)
    requires s.main == AwaitingResume && Enabled(s, Proceed)
    ensures var s' := Step(s, Proceed);
      !s'.paused && !s'.nonBlock && forall i | 0 <= i < |s'.workers| :: s'.workers[i] == Polling || s'.workers[i].Applying?
  {
    StartInv(workers);
    RunKeepsInv(Start(workers), actions, s);
  }

  /** Between the two, no worker can take a step: the graph is the query's alone. */
  lemma HeldIsStill(workers: nat, actions: seq<Action>, s: State, i: nat, k: nat)
    requires workers > 0 && Runs(Start(workers), actions, s) && s.main == Holding
    ensures !Enabled(s, Take(i, k)) && !Enabled(s, Miss(i)) && !Enabled(s, Work(i))
  {
    StartInv(workers);
    RunKeepsInv(Start(workers), actions, s);
  }

  /** write_binary never unpauses: a later update stays in the queue, and the next query begins
      without it although pause_workers has returned. */
  lemma UpdateAfterWriteIsMissed(b: Batch)
    ensures exists actions, s ::
      Runs(Start(1), actions, s) && s.main == Holding && s.produced == [b] && s.applied == []
  {
    var late := One([[b]], Paused, AwaitingPause(true), [b]);
    var end := One([[b]], Paused, Holding, [b]);
    Then(late, Proceed, end, [], end);
    Then(One([[b]], Paused, SettingNonBlock(true), [b]), Proceed, late, [Proceed], end);
    Then(One([[b]], Paused, SettingPaused(true), [b]), Proceed, One([[b]], Paused, SettingNonBlock(true), [b]),
         [Proceed] + [Proceed], end);
    Then(end, Pause, One([[b]], Paused, SettingPaused(true), [b]), [Proceed] + ([Proceed] + [Proceed]), end);
    var again := [Pause] + ([Proceed] + ([Proceed] + [Proceed]));
    Then(One([], Paused, Holding, []), Produce([b]), end, again, end);
    Then(One([], Paused, AwaitingPause(false), []), Proceed, One([], Paused, Holding, []), [Produce([b])] + again, end);
    FirstPause(end, [Proceed] + ([Produce([b])] + again));
  }

  /** A single worker's states once both flags are set. */
  ghost function One(queue: seq<seq<Batch>>, w: Worker, main: Main, produced: seq<Batch>): State
  {
    State(queue, true, true, [w], main, produced, [], queue != [])
  }

  /** From the start to a first complete pause. */
  lemma FirstPause(end: State, actions: seq<Action>)
    requires Runs(One([], Paused, AwaitingPause(false), []), actions, end)
    ensures exists actions' :: Runs(Start(1), actions', end)
  {
    var p := AwaitingPause(false);
    Then(One([], Locking, p, []), Work(0), One([], Paused, p, []), actions, end);
    var a1 := [Work(0)] + actions;
    Then(One([], Empty, p, []), Work(0), One([], Locking, p, []), a1, end);
    var a2 := [Work(0)] + a1;
    Then(One([], Polling, p, []), Miss(0), One([], Empty, p, []), a2, end);
    PauseCalled(end, [Miss(0)] + a2);
  }

  lemma PauseCalled(end: State, actions: seq<Action>)
    requires Runs(One([], Polling, AwaitingPause(false), []), actions, end)
    ensures exists actions' :: Runs(Start(1), actions', end)
  {
    var s2 := State([], true, false, [Polling], SettingNonBlock(false), [], [], false);
    Then(s2, Proceed, One([], Polling, AwaitingPause(false), []), actions, end);
    var s1 := State([], false, false, [Polling], SettingPaused(false), [], [], false);
    Then(s1, Proceed, s2, [Proceed] + actions, end);
    assert Start(1).workers == [Polling];
    Then(Start(1), Pause, s1, [Proceed] + ([Proceed] + actions), end);
  }

  lemma Then(s: State, a: Action, s1: State, actions: seq<Action>, s': State)
    requires Enabled(s, a) && Step(s, a) == s1 && Runs(s1, actions, s')
    ensures Runs(s, [a] + actions, s')
  {
    assert ([a] + actions)[1..] == actions;
  }

  // ---------- what the workers computed ----------

  /** Quiescence in terms of sketches: whatever the interleaving, the supernodes are those that
      applying the batches in the order of their arrival would have produced. */
  lemma QuiescentApplied(cfg: Config, nodes: seq<Supernode>, what: seq<set<nat>>, s: State)
    requires Quiescent(s) && PoolShaped(cfg, nodes) && BatchesInRange(s.produced, |nodes|) && NoCollisions(cfg, s.produced)
    requires |nodes| == |what| && forall u | 0 <= u < |nodes| :: Stores(cfg, nodes[u], what[u])
    ensures BatchesInRange(s.applied, |nodes|)
    ensures ApplyAll(cfg, nodes, s.applied) == ApplyAll(cfg, nodes, s.produced)
  {
    forall i | 0 <= i < |s.applied|
      ensures s.applied[i] in s.produced
    {
      assert s.applied[i] in multiset(s.applied);
    }
    FlattenPermuted(s.applied, s.produced);
    BatchingIndependent(cfg, nodes, what, s.applied, s.produced);
  }

  lemma {:induction false} FlattenPermuted(xs: seq<Batch>, ys: seq<Batch>)
    requires multiset(xs) == multiset(ys)
    ensures multiset(Flatten(xs)) == multiset(Flatten(ys))
  {
    assert |multiset(xs)| == |xs| && |multiset(ys)| == |ys|;
    if xs != [] {
      var last := |xs| - 1;
      var b := xs[last];
      assert b in multiset(xs);
      var k :| 0 <= k < |ys| && ys[k] == b;
      var ys' := ys[..k] + ys[k + 1..];
      SameBut(xs, ys, k);
      FlattenPermuted(xs[..last], ys');
      FlattenBut(ys[..k], b, ys[k + 1..]);
      assert ys == ys[..k] + ([b] + ys[k + 1..]);
    }
  }

  lemma {:induction false} FlattenConcat(xs: seq<Batch>, ys: seq<Batch>)
    ensures Flatten(xs + ys) == Flatten(xs) + Flatten(ys)
  {
    if ys == [] {
      assert xs + ys == xs;
    } else {
      var ys', b := ys[..|ys| - 1], ys[|ys| - 1];
      FlattenConcat(xs, ys');
      assert (xs + ys)[..|xs + ys| - 1] == xs + ys' && (xs + ys)[|xs + ys| - 1] == b;
      Associates(Flatten(xs), Flatten(ys'), Pairs(b));
    }
  }

  lemma Middle<T>(l: seq<T>, m: seq<T>, r: seq<T>)
    ensures multiset(l + (m + r)) == multiset(l + r) + multiset(m)
  {}

  lemma SameBut<T>(xs: seq<T>, ys: seq<T>, k: nat)
    requires multiset(xs) == multiset(ys) && xs != [] && k < |ys| && ys[k] == xs[|xs| - 1]
    ensures multiset(xs[..|xs| - 1]) == multiset(ys[..k] + ys[k + 1..])
  {
    var x := ys[k];
    assert xs == xs[..|xs| - 1] + ([x] + []) && ys == ys[..k] + ([x] + ys[k + 1..]);
    Middle(xs[..|xs| - 1], [x], []);
    Middle(ys[..k], [x], ys[k + 1..]);
    assert xs[..|xs| - 1] + [] == xs[..|xs| - 1];
    Cancel(multiset(xs[..|xs| - 1]), multiset(ys[..k] + ys[k + 1..]), multiset([x]));
  }

  lemma Associates<T>(a: seq<T>, b: seq<T>, c: seq<T>)
    ensures (a + b) + c == a + (b + c)
  {}

  lemma FlattenOne(b: Batch)
    ensures Flatten([b]) == Pairs(b)
  {
    assert [b][..0] == [] && Flatten([]) == [];
  }

  lemma FlattenParts(l: seq<Batch>, b: Batch, r: seq<Batch>)
    ensures Flatten(l + ([b] + r)) == Flatten(l) + (Pairs(b) + Flatten(r))
  {
    FlattenConcat(l, [b] + r);
    FlattenConcat([b], r);
    FlattenOne(b);
  }

  lemma FlattenBut(l: seq<Batch>, b: Batch, r: seq<Batch>)
    ensures multiset(Flatten(l + ([b] + r))) == multiset(Flatten(l + r)) + multiset(Pairs(b))
  {
    FlattenParts(l, b, r);
    FlattenConcat(l, r);
    Middle(Flatten(l), Pairs(b), Flatten(r));
  }
}
