/** The two waits of the main thread always end: while it waits the workers can take only so many
    steps, and as long as the wait is not over some worker can take one. */
module WorkerRuns {
  import opened Updates
  import opened Workers

  /** Only workers act. */
  predicate ByWorkers(actions: seq<Action>)
  {
    forall k | 0 <= k < |actions| :: actions[k].Take? || actions[k].Miss? || actions[k].Work?
  }

  predicate Waiting(s: State)
  {
    s.main.AwaitingPause? || s.main.AwaitingResume?
  }

  /** An upper bound on the steps of a worker, with pausing on or off, that does not fetch more. */
  function Cost(pausing: bool, w: Worker): nat
  {
    match w
    case Paused => if pausing then 0 else 2
    case Locking => 1
    case Empty => 2
    case Polling => if pausing then 3 else 1
    case Applying(rest) => |rest| + 4
  }

  function QueueCost(queue: seq<seq<Batch>>): nat
  {
    if queue == [] then 0 else |queue[0]| + 5 + QueueCost(queue[1..])
  }

  function Total(pausing: bool, ws: seq<Worker>): nat
  {
    if ws == [] then 0 else Cost(pausing, ws[0]) + Total(pausing, ws[1..])
  }

  function Measure(s: State): nat
  {
    QueueCost(s.queue) + Total(s.paused, s.workers)
  }

  lemma {:induction false} TotalUpdate(pausing: bool, ws: seq<Worker>, i: nat, w: Worker)
    requires i < |ws|
    ensures Total(pausing, ws[i := w]) + Cost(pausing, ws[i]) == Total(pausing, ws) + Cost(pausing, w)
  {
    if i == 0 {
      assert ws[0 := w][1..] == ws[1..];
    } else {
      assert ws[i := w][1..] == ws[1..][i - 1 := w];
      TotalUpdate(pausing, ws[1..], i - 1, w);
    }
  }

  lemma {:induction false} QueueTake(queue: seq<seq<Batch>>, k: nat)
    requires k < |queue|
    ensures QueueCost(queue) == QueueCost(queue[..k] + queue[k + 1..]) + |queue[k]| + 5
  {
    var rest := queue[..k] + queue[k + 1..];
    if k == 0 {
      assert rest == queue[1..];
    } else {
      assert rest[1..] == queue[1..][..k - 1] + queue[1..][k..];
      QueueTake(queue[1..], k - 1);
    }
  }

  /** Every step of a worker during a wait leaves less to do, and the main thread waiting. */
  lemma StepShrinks(s: State, a: Action)
    requires Inv(s) && Waiting(s) && Enabled(s, a) && ByWorkers([a])
    ensures Inv(Step(s, a)) && Step(s, a).main == s.main && Measure(Step(s, a)) < Measure(s)
  {
    assert [a][0] == a;
    KeepsInv(s, a);
    match a {
      case Take(i, k) => TakeShrinks(s, i, k);
      case Miss(i) => MissShrinks(s, i);
      case Work(i) => WorkShrinks(s, i);
    }
  }

  lemma TakeShrinks(s: State, i: nat, k: nat)
    requires Enabled(s, Take(i, k))
    ensures Measure(Step(s, Take(i, k))) < Measure(s)
  {
    QueueTake(s.queue, k);
    TotalUpdate(s.paused, s.workers, i, Applying(s.queue[k]));
  }

  lemma MissShrinks(s: State, i: nat)
    requires Phase(s) && Waiting(s) && Enabled(s, Miss(i))
    ensures Measure(Step(s, Miss(i))) < Measure(s)
  {
    TotalUpdate(s.paused, s.workers, i, Empty);
  }

  lemma WorkShrinks(s: State, i: nat)
    requires Phase(s) && Waiting(s) && Enabled(s, Work(i))
    ensures Measure(WorkStep(s, i)) < Measure(s)
  {
    TotalUpdate(s.paused, s.workers, i, WorkStep(s, i).workers[i]);
  }

  lemma KeepsInv(s: State, a: Action)
    requires Inv(s) && Enabled(s, a)
    ensures Inv(Step(s, a))
  {
    assert Runs(s, [a], Step(s, a)) by { assert [a][1..] == []; }
    RunKeepsInv(s, [a], Step(s, a));
  }

  /** Until the wait is over some worker can take a step. */
  lemma SomebodyCanMove(s: State) returns (a: Action)
    requires Inv(s) && Waiting(s) && !Enabled(s, Proceed)
    ensures ByWorkers([a]) && Enabled(s, a)
  {
    if s.main.AwaitingPause? {
      var i :| 0 <= i < |s.workers| && s.workers[i] != Paused;
      a := if s.workers[i] != Polling then Work(i) else if s.queue != [] then Take(i, 0) else Miss(i);
    } else {
      var i :| 0 <= i < |s.workers| && s.workers[i] == Paused;
      a := Work(i);
    }
  }

  /** While the main thread waits, the workers can take only so many steps, however scheduled. */
  lemma {:induction false} WaitIsBounded(s: State, actions: seq<Action>, s': State)
    requires Inv(s) && Waiting(s) && ByWorkers(actions) && Runs(s, actions, s')
    ensures |actions| <= Measure(s) && s'.main == s.main
    decreases |actions|
  {
    if actions != [] {
      assert ByWorkers([actions[0]]) by { assert actions[0].Take? || actions[0].Miss? || actions[0].Work?; }
      StepShrinks(s, actions[0]);
      assert ByWorkers(actions[1..]);
      WaitIsBounded(Step(s, actions[0]), actions[1..], s');
    }
  }

  /** So pause_workers and unpause_workers return: the workers, left to themselves, end the wait. */
  lemma {:induction false} WaitEnds(s: State) returns (actions: seq<Action>, s': State)
    requires Inv(s) && Waiting(s)
    ensures ByWorkers(actions) && Runs(s, actions, s') && s'.main == s.main && Enabled(s', Proceed)
    decreases Measure(s)
  {
    if Enabled(s, Proceed) {
      actions, s' := [], s;
    } else {
      var a := SomebodyCanMove(s);
      StepShrinks(s, a);
      var rest;
      rest, s' := WaitEnds(Step(s, a));
      actions := [a] + rest;
      assert actions[1..] == rest && actions[0] == [a][0];
    }
  }

  /** In every run, a pause or an unpause in progress can neither go on for ever nor get stuck. */
  lemma HandshakeCompletes(workers: nat, before: seq<Action>, s: State) returns (actions: seq<Action>, s': State)
    requires workers > 0 && Runs(Start(workers), before, s) && Waiting(s)
    ensures ByWorkers(actions) && Runs(s, actions, s') && Enabled(s', Proceed)
    ensures forall more, t | ByWorkers(more) && Runs(s, more, t) :: |more| <= Measure(s)
    ensures s.main.AwaitingPause? ==> Step(s', Proceed).main == Holding
    ensures s.main.AwaitingResume? ==> Step(s', Proceed).main == Working
  {
    StartInv(workers);
    RunKeepsInv(Start(workers), before, s);
    actions, s' := WaitEnds(s);
    forall more, t | ByWorkers(more) && Runs(s, more, t)
      ensures |more| <= Measure(s)
    {
      WaitIsBounded(s, more, t);
    }
  }

  /** A query can always be run: from every working state the workers can be brought to a pause with
      every batch applied, and set to work again. */
  lemma QueryCanRun(workers: nat, before: seq<Action>, s: State) returns (pause: seq<Action>, held: State, resume: seq<Action>, back: State)
    requires workers > 0 && Runs(Start(workers), before, s) && s.main == Working
    ensures Runs(s, pause, held) && held.main == Holding && Quiescent(held) && held.produced == s.produced
    ensures Runs(held, resume, back) && back.main == Working && back.produced == s.produced
    ensures forall i | 0 <= i < |back.workers| :: back.workers[i] == Polling || back.workers[i].Applying?
  {
    StartInv(workers);
    RunKeepsInv(Start(workers), before, s);
    pause, held := PauseRuns(s);
    resume, back := ResumeRuns(held);
  }

  lemma PauseRuns(s: State) returns (pause: seq<Action>, held: State)
    requires Inv(s) && s.main == Working
    ensures Runs(s, pause, held) && held.main == Holding && Quiescent(held) && held.produced == s.produced && Inv(held)
  {
    var s1 := Step(s, Pause);
    var s2 := Step(s1, Proceed);
    var waiting := Step(s2, Proceed);
    KeepsInv(s, Pause);
    KeepsInv(s1, Proceed);
    KeepsInv(s2, Proceed);
    var work, done := WaitEnds(waiting);
    RunKeepsInv(waiting, work, done);
    WorkersProduceNothing(waiting, work, done);
    held := Step(done, Proceed);
    KeepsInv(done, Proceed);
    NowQuiescent(held);
    pause := [Pause] + ([Proceed] + ([Proceed] + (work + [Proceed])));
    Then(done, Proceed, held, [], held);
    Append(waiting, work, done, [Proceed], held);
    Then(s2, Proceed, waiting, work + [Proceed], held);
    Then(s1, Proceed, s2, [Proceed] + (work + [Proceed]), held);
    Then(s, Pause, s1, [Proceed] + ([Proceed] + (work + [Proceed])), held);
  }

  lemma ResumeRuns(s: State) returns (resume: seq<Action>, back: State)
    requires Inv(s) && s.main == Holding
    ensures Runs(s, resume, back) && back.main == Working && back.produced == s.produced
    ensures forall i | 0 <= i < |back.workers| :: back.workers[i] == Polling || back.workers[i].Applying?
  {
    var s1 := Step(s, Unpause);
    var s2 := Step(s1, Proceed);
    var waiting := Step(s2, Proceed);
    KeepsInv(s, Unpause);
    KeepsInv(s1, Proceed);
    KeepsInv(s2, Proceed);
    var work, done := WaitEnds(waiting);
    RunKeepsInv(waiting, work, done);
    WorkersProduceNothing(waiting, work, done);
    back := Step(done, Proceed);
    KeepsInv(done, Proceed);
    resume := [Unpause] + ([Proceed] + ([Proceed] + (work + [Proceed])));
    Then(done, Proceed, back, [], back);
    Append(waiting, work, done, [Proceed], back);
    Then(s2, Proceed, waiting, work + [Proceed], back);
    Then(s1, Proceed, s2, [Proceed] + (work + [Proceed]), back);
    Then(s, Unpause, s1, [Proceed] + ([Proceed] + (work + [Proceed])), back);
  }

  lemma NowQuiescent(s: State)
    requires Inv(s) && s.main == Holding && !s.late
    ensures Quiescent(s)
  {
    AllApplied(s);
  }

  lemma {:induction false} Append(s: State, first: seq<Action>, mid: State, second: seq<Action>, s': State)
    requires Runs(s, first, mid) && Runs(mid, second, s')
    ensures Runs(s, first + second, s')
    decreases |first|
  {
    if first == [] {
      assert first + second == second;
    } else {
      Append(Step(s, first[0]), first[1..], mid, second, s');
      assert (first + second)[1..] == first[1..] + second;
    }
  }

  lemma {:induction false} WorkersProduceNothing(s: State, actions: seq<Action>, s': State)
    requires ByWorkers(actions) && Runs(s, actions, s')
    ensures s'.produced == s.produced && s'.late == s.late && s'.main == s.main
    decreases |actions|
  {
    if actions != [] {
      assert actions[0].Take? || actions[0].Miss? || actions[0].Work?;
      assert ByWorkers(actions[1..]);
      WorkersProduceNothing(Step(s, actions[0]), actions[1..], s');
    }
  }
}
