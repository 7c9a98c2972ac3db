/** What the owner of a stream can rely on: where registered queries stop the readers, what the
    other calls do, and that readers left to themselves always come to a stop. */
module StreamRuns {
  import opened Basics
  import opened Stream

  /** Only the readers act. */
  predicate AllMoves(actions: seq<Action>)
  {
    forall k | 0 <= k < |actions| :: actions[k].Move?
  }

  lemma {:induction false} MovesKeepQuery(f: File, s: State, moves: seq<Action>, s': State)
    requires AllMoves(moves) && Runs(f, s, moves, s')
    ensures s'.query == s.query && s'.block == s.block && |s'.readers| == |s.readers|
    decreases |moves|
  {
    if moves != [] {
      assert moves[0].Move?;
      assert AllMoves(moves[1..]);
      MovesKeepQuery(f, Step(f, s, moves[0]), moves[1..], s');
    }
  }

  /** At a stop that was not asked for on demand, the updates up to the query have been handed out. */
  lemma StoppedAtQuery<U>(f: File, stream: seq<U>, readers: nat, actions: seq<Action>, s: State)
    requires ValidFile(f) && |stream| == Index(f.eof) && Runs(f, Start(readers), actions, s)
    requires AtRest(s) && !s.block && Stopped in s.readers
    ensures Index(Min(s.query, f.eof)) <= |stream| && forall k | 0 <= k < |s.out| :: Index(s.out[k]) < |stream|
    ensures multiset(Handed(stream, s.out)) == multiset(stream[..Index(Min(s.query, f.eof))])
    ensures s.query <= f.eof ==> s.off == s.query
  {
    ExactlyOnce(f, readers, actions, s);
    var hi := Min(s.query, f.eof);
    assert hi == Min(s.off, f.eof) || Records(HEADER, hi) == Records(HEADER, Min(s.off, f.eof));
    StartInv(f, readers);
    RunKeepsInv(f, Start(readers), actions, s);
    EachOnce(stream, s.out, HEADER, hi);
    assert stream[0..Index(hi)] == stream[..Index(hi)];
  }

  lemma RecordIndex(k: nat)
    ensures Index(12 + 9 * k) == k && Aligned(12 + 9 * k)
  {
  }

  lemma EndIndex(f: File)
    requires ValidFile(f)
    ensures f.eof == 12 + 9 * Index(f.eof)
  {
  }

  /** register_query(k) at rest, for a record that lies ahead: the readers stop when just the first k
      updates of the stream, or all if there are fewer, have been handed out. */
  lemma RegisteredQueryStops<U>(f: File, stream: seq<U>, readers: nat, before: seq<Action>, s: State, k: nat,
                                moves: seq<Action>, s': State)
    requires ValidFile(f) && |stream| == Index(f.eof)
    requires Runs(f, Start(readers), before, s) && Enabled(s, Register(k)) && !s.block && s.off < 12 + 9 * k
    requires AllMoves(moves) && Runs(f, Step(f, s, Register(k)), moves, s') && AtRest(s') && Stopped in s'.readers
    ensures forall j | 0 <= j < |s'.out| :: Index(s'.out[j]) < |stream|
    ensures multiset(Handed(stream, s'.out)) == multiset(stream[..Min(k, |stream|)])
    ensures k <= |stream| ==> s'.off == 12 + 9 * k
  {
    var asked := Step(f, s, Register(k));
    assert asked.query == 12 + 9 * k && asked.block == s.block;
    MovesKeepQuery(f, asked, moves, s');
    assert Runs(f, s, [Register(k)] + moves, s') by { assert ([Register(k)] + moves)[1..] == moves; }
    RunsCompose(f, Start(readers), before, s, [Register(k)] + moves, s');
    StoppedAtQuery(f, stream, readers, before + ([Register(k)] + moves), s');
    RecordIndex(k);
    EndIndex(f);
  }

  /** A record at or before the offset is refused. */
  lemma RegisterRefused(f: File, s: State, k: nat)
    requires Enabled(s, Register(k)) && 12 + 9 * k <= s.off
    ensures Step(f, s, Register(k)) == s
  {
  }

  /** After post_query_resume the readers go on to the end of the stream, or to a query registered
      from then on. */
  lemma ResumeGoesOn<U>(f: File, stream: seq<U>, readers: nat, before: seq<Action>, s: State, moves: seq<Action>, s': State)
    requires ValidFile(f) && |stream| == Index(f.eof)
    requires Runs(f, Start(readers), before, s) && Enabled(s, Resume)
    requires AllMoves(moves) && Runs(f, Step(f, s, Resume), moves, s') && AtRest(s') && Stopped in s'.readers
    ensures forall j | 0 <= j < |s'.out| :: Index(s'.out[j]) < |stream|
    ensures multiset(Handed(stream, s'.out)) == multiset(stream)
  {
    var resumed := Step(f, s, Resume);
    MovesKeepQuery(f, resumed, moves, s');
    assert Runs(f, s, [Resume] + moves, s') by { assert ([Resume] + moves)[1..] == moves; }
    RunsCompose(f, Start(readers), before, s, [Resume] + moves, s');
    StoppedAtQuery(f, stream, readers, before + ([Resume] + moves), s');
    assert stream[..|stream|] == stream;
  }

  /** After on_demand_query, readers at rest take nothing more. */
  lemma {:induction false} BlockedIsStill(f: File, s: State, moves: seq<Action>, s': State)
    requires s.block && AtRest(s) && AllMoves(moves) && Runs(f, s, moves, s')
    ensures s'.out == s.out && s'.off == s.off && AtRest(s')
    decreases |moves|
  {
    if moves != [] {
      assert moves[0].Move? && AllMoves(moves[1..]);
      BlockedIsStill(f, Step(f, s, moves[0]), moves[1..], s');
    }
  }

  lemma OnDemandStops(f: File, s: State, moves: seq<Action>, s': State)
    requires AtRest(s) && AllMoves(moves) && Runs(f, Step(f, s, OnDemand), moves, s')
    ensures s'.out == s.out && s'.off == s.off && AtRest(s')
  {
    BlockedIsStill(f, Step(f, s, OnDemand), moves, s');
  }

  // ---------- readers come to a stop ----------

  /** How much is left to be given out. */
  function Left(f: File, s: State): nat
  {
    var end := Min(s.query, f.eof);
    if s.off < end then end - s.off else 0
  }

  /** An upper bound on the steps a reader takes until it stops, if the others stand still. */
  function Cost(f: File, s: State, r: Reader): nat
  {
    var rounds := Left(f, s) * (f.buf + 12);
    match r
    case Stopped => 0
    case Overshot => 1
    case Ready => rounds + 7
    case Entered => rounds + 6
    case Cleared => rounds + 5
    case Admitted => rounds + 4
    case Fetched(at) => if at >= Min(s.query, f.eof) then 3 else rounds + f.buf + 12
    case Before(at) => if at >= Min(s.query, f.eof) then 2 else rounds + f.buf + 11
    case Inside(at) => rounds + f.buf + 10
    case Truncated(_, len) => rounds + len + 9
    case Loading(_, len) => rounds + len + 8
    case Buffered(at, end) => rounds + (if at < end then end - at else 0) + 7
  }

  lemma LessLeft(l: nat, l': nat, k: nat)
    ensures l' <= l ==> l' * k <= l * k
    ensures l' < l ==> l' * k + k <= l * k
  {
    if l' < l { assert (l' + 1) * k <= l * k; }
  }

  /** Each step of a reader brings it nearer to its stop, and no other reader further away. */
  lemma StepNearer(f: File, s: State, r: Reader)
    requires ValidFile(f) && Placed(f, s, r) && r != Stopped
    ensures var (s', r') := Advance(f, s, r);
      Left(f, s') <= Left(f, s) && Cost(f, s', r') < Cost(f, s, r)
  {
    var (s', _) := Advance(f, s, r);
    LessLeft(Left(f, s), Left(f, s'), f.buf + 12);
  }

  lemma NobodyFurther(f: File, s: State, s': State, r: Reader)
    requires s'.query == s.query && Left(f, s') <= Left(f, s)
    ensures Cost(f, s', r) <= Cost(f, s, r)
  {
    LessLeft(Left(f, s), Left(f, s'), f.buf + 12);
  }

  function Total(f: File, s: State, rs: seq<Reader>): nat
  {
    if rs == [] then 0 else Cost(f, s, rs[0]) + Total(f, s, rs[1..])
  }

  lemma {:induction false} TotalNoMore(f: File, s: State, s': State, rs: seq<Reader>)
    requires s'.query == s.query && Left(f, s') <= Left(f, s)
    ensures Total(f, s', rs) <= Total(f, s, rs)
  {
    if rs != [] {
      NobodyFurther(f, s, s', rs[0]);
      TotalNoMore(f, s, s', rs[1..]);
    }
  }

  lemma {:induction false} TotalLess(f: File, s: State, s': State, rs: seq<Reader>, i: nat, r: Reader)
    requires s'.query == s.query && Left(f, s') <= Left(f, s) && i < |rs| && Cost(f, s', r) < Cost(f, s, rs[i])
    ensures Total(f, s', rs[i := r]) < Total(f, s, rs)
  {
    if i == 0 {
      assert rs[0 := r][1..] == rs[1..];
      TotalNoMore(f, s, s', rs[1..]);
    } else {
      assert rs[i := r][1..] == rs[1..][i - 1 := r];
      NobodyFurther(f, s, s', rs[0]);
      TotalLess(f, s, s', rs[1..], i - 1, r);
    }
  }

  /** Readers take steps, but none that has stopped asks again. */
  ghost predicate Winds(f: File, s: State, moves: seq<Action>, s': State)
    decreases |moves|
  {
    if moves == [] then s == s'
    else
      && moves[0].Move? && Enabled(s, moves[0]) && s.readers[moves[0].i] != Stopped
      && Winds(f, Step(f, s, moves[0]), moves[1..], s')
  }

  lemma MoveNearer(f: File, s: State, i: nat)
    requires Inv(f, s) && i < |s.readers| && s.readers[i] != Stopped
    ensures var s' := Step(f, s, Move(i));
      Inv(f, s') && Total(f, s', s'.readers) < Total(f, s, s.readers)
  {
    StepKeepsInv(f, s, Move(i));
    assert Placed(f, s, s.readers[i]);
    StepNearer(f, s, s.readers[i]);
    var s' := Step(f, s, Move(i));
    var (t, r) := Advance(f, s, s.readers[i]);
    SameShared(f, s', t, r);
    TotalLess(f, s, s', s.readers, i, r);
  }

  lemma SameShared(f: File, s: State, t: State, r: Reader)
    requires s.off == t.off && s.query == t.query
    ensures Left(f, s) == Left(f, t) && Cost(f, s, r) == Cost(f, t, r)
  {
  }

  /** However the readers are scheduled, they can take only so many steps before all have stopped. */
  lemma {:induction false} EveryRunEnds(f: File, s: State, moves: seq<Action>, s': State)
    requires Inv(f, s) && Winds(f, s, moves, s')
    ensures |moves| <= Total(f, s, s.readers)
    decreases |moves|
  {
    if moves != [] {
      MoveNearer(f, s, moves[0].i);
      EveryRunEnds(f, Step(f, s, moves[0]), moves[1..], s');
    }
  }

  /** From every state of every run the readers, left to themselves, come to a stop with everything
      up to the query handed out, unless a stop on demand is pending. */
  lemma {:induction false} ReadersStop(f: File, s: State) returns (moves: seq<Action>, s': State)
    requires Inv(f, s)
    ensures AllMoves(moves) && Runs(f, s, moves, s') && Inv(f, s')
    ensures |s'.readers| == |s.readers| && forall j | 0 <= j < |s'.readers| :: s'.readers[j] == Stopped
    decreases Total(f, s, s.readers)
  {
    if i :| 0 <= i < |s.readers| && s.readers[i] != Stopped {
      MoveNearer(f, s, i);
      var rest;
      rest, s' := ReadersStop(f, Step(f, s, Move(i)));
      moves := [Move(i)] + rest;
      assert moves[1..] == rest;
    } else {
      moves, s' := [], s;
    }
  }

  lemma AllHandedOut<U>(f: File, stream: seq<U>, readers: nat, actions: seq<Action>, s: State)
    returns (moves: seq<Action>, s': State)
    requires ValidFile(f) && |stream| == Index(f.eof) && readers > 0
    requires Runs(f, Start(readers), actions, s) && !s.block
    ensures AllMoves(moves) && Runs(f, s, moves, s') && forall j | 0 <= j < |s'.readers| :: s'.readers[j] == Stopped
    ensures Index(Min(s.query, f.eof)) <= |stream| && forall k | 0 <= k < |s'.out| :: Index(s'.out[k]) < |stream|
    ensures multiset(Handed(stream, s'.out)) == multiset(stream[..Index(Min(s.query, f.eof))])
  {
    StartInv(f, readers);
    RunKeepsInv(f, Start(readers), actions, s);
    RunKeepsReaders(f, Start(readers), actions, s);
    moves, s' := ReadersStop(f, s);
    MovesKeepQuery(f, s, moves, s');
    RunsCompose(f, Start(readers), actions, s, moves, s');
    assert s'.readers[0] == Stopped;
    StoppedAtQuery(f, stream, readers, actions + moves, s');
  }

  lemma {:induction false} RunKeepsReaders(f: File, s: State, actions: seq<Action>, s': State)
    requires Runs(f, s, actions, s')
    ensures |s'.readers| == |s.readers|
    decreases |actions|
  {
    if actions != [] { RunKeepsReaders(f, Step(f, s, actions[0]), actions[1..], s'); }
  }
}
