/**
  The multi-threaded stream splitter (include/binary_graph_stream.h). Any number of readers pull
  blocks of the update file through one shared offset, a query may be registered at a record, and
  the owner may also ask for a stop on demand. Every access to a shared atomic is a step of its own;
  a run is an arbitrary list of such steps.
*/
module Stream {
  import opened Basics

  const HEADER := 12
  const EDGE := 9
  /** The value of query_index when no query is registered. */
  const NEVER := 0xFFFF_FFFF_FFFF_FFFF

  /** The buffer size, and where the file ends. */
  datatype File = File(buf: nat, eof: nat)

  /** Where a reader stands inside get_edge and read_data. */
  datatype Reader =
    | Ready                          // the buffer is used up
    | Entered                        // saw query_block unset
    | Cleared                        // saw the offset before the end of the file
    | Admitted                       // saw the offset before the query
    | Fetched(at: nat)               // did the fetch_add
    | Overshot                       // fetched at or past the query: will move the offset back
    | Before(at: nat)                // fetched before the query
    | Inside(at: nat)                // and before the end of the file
    | Truncated(at: nat, len: nat)   // the query lies inside the block: will move the offset back
    | Loading(at: nat, len: nat)     // about to clamp to the end of the file and read
    | Buffered(at: nat, end: nat)    // holds the bytes from at to end
    | Stopped                        // returned BREAKPOINT

  /** The shared atomics, the readers, and the offsets of the records handed out so far. */
  datatype State = State(off: nat, query: nat, block: bool, readers: seq<Reader>, out: seq<nat>)

  datatype Action = Move(i: nat) | OnDemand | Resume | Register(index: nat)

  predicate Aligned(x: nat)
  {
    x >= HEADER && (x - HEADER) % EDGE == 0
  }

  predicate ValidFile(f: File)
  {
    f.buf >= EDGE && f.buf % EDGE == 0 && Aligned(f.eof) && f.eof < NEVER
  }

  function Start(readers: nat): State
  {
    State(HEADER, NEVER, false, seq(readers, i => Ready), [])
  }

  predicate Enabled(s: State, a: Action)
  {
    match a
    case Move(i) => i < |s.readers|
    case OnDemand => true
    case Resume => forall j | 0 <= j < |s.readers| :: s.readers[j] == Stopped
    case Register(_) => forall j | 0 <= j < |s.readers| :: s.readers[j] == Ready
  }

  /** One step of one reader, on its own part of the state and the shared offset. */
  function Advance(f: File, s: State, r: Reader): (State, Reader)
  {
    match r
    case Ready => (s, if s.block then Stopped else Entered)
    case Entered => (s, if s.off >= f.eof then Stopped else Cleared)
    case Cleared => (s, if s.off >= s.query then Stopped else Admitted)
    case Admitted => (s.(off := s.off + f.buf), Fetched(s.off))
    case Fetched(at) => (s, if at >= s.query then Overshot else Before(at))
    case Overshot => (s.(off := s.query), Stopped)
    case Before(at) => (s, if at >= f.eof then Stopped else Inside(at))
    case Inside(at) => (s, if at <= s.query < at + f.buf then Truncated(at, s.query - at) else Loading(at, f.buf))
    case Truncated(at, len) => (s.(off := s.query), Loading(at, len))
    case Loading(at, len) =>
      var end := Min(at + len, f.eof);
      (s, if end <= at then Stopped else Buffered(at, end))
    case Buffered(at, end) =>
      (s.(out := s.out + [at]), if at + EDGE >= end then Ready else Buffered(at + EDGE, end))
    case Stopped => (s, Ready)
  }

  function Step(f: File, s: State, a: Action): State
    requires Enabled(s, a)
  {
    match a
    case Move(i) => var (s', r) := Advance(f, s, s.readers[i]); s'.(readers := s.readers[i := r])
    case OnDemand => s.(block := true)
    case Resume => s.(block := false, query := NEVER, readers := seq(|s.readers|, i => Ready))
    case Register(index) =>
      var byte := HEADER + index * EDGE;
      if byte <= s.off then s else s.(query := byte)
  }

  ghost predicate Runs(f: File, s: State, actions: seq<Action>, s': State)
    decreases |actions|
  {
    if actions == [] then s == s'
    else Enabled(s, actions[0]) && Runs(f, Step(f, s, actions[0]), actions[1..], s')
  }

  // ---------- the invariant ----------

  /** How far the file has been given out: to readers or beyond them. */
  function Frontier(f: File, s: State): nat
  {
    Min(s.off, Min(s.query, f.eof))
  }

  /** The record at x will be handed out by r. */
  predicate Owns(f: File, query: nat, r: Reader, x: nat)
  {
    match r
    case Fetched(at) => at <= x < Min(at + f.buf, Min(query, f.eof))
    case Before(at) => at <= x < Min(at + f.buf, Min(query, f.eof))
    case Inside(at) => at <= x < Min(at + f.buf, Min(query, f.eof))
    case Truncated(at, len) => at <= x < Min(at + len, f.eof)
    case Loading(at, len) => at <= x < Min(at + len, f.eof)
    case Buffered(at, end) => at <= x < end
    case _ => false
  }

  /** r is going to set the offset back to the query. */
  predicate WillReset(f: File, query: nat, r: Reader)
  {
    match r
    case Fetched(at) => query < at + f.buf
    case Before(at) => query < at + f.buf
    case Inside(at) => query < at + f.buf
    case Overshot => true
    case Truncated(_, _) => true
    case _ => false
  }

  /** What holds of a reader by itself. */
  predicate Placed(f: File, s: State, r: Reader)
  {
    match r
    case Fetched(at) => (at < f.eof ==> Aligned(at)) && s.off >= Min(at + f.buf, s.query)
    case Overshot => s.off >= s.query
    case Before(at) => (at < f.eof ==> Aligned(at)) && at < s.query && s.off >= Min(at + f.buf, s.query)
    case Inside(at) => Aligned(at) && at < s.query && at < f.eof && s.off >= Min(at + f.buf, s.query)
    case Truncated(at, len) => Aligned(at) && at < f.eof && len > 0 && at + len == s.query && s.off >= s.query
    case Loading(at, len) => Aligned(at) && at < f.eof && len > 0 && (at + len < f.eof ==> Aligned(at + len))
    case Buffered(at, end) => Aligned(at) && Aligned(end) && at < end
    case Stopped => s.block || s.off >= Min(s.query, f.eof)
    case _ => true
  }

  ghost predicate OnRecords(f: File, s: State)
  {
    ValidFile(f) && (s.off <= f.eof ==> Aligned(s.off)) && (s.query <= f.eof ==> Aligned(s.query))
  }

  ghost predicate Inv(f: File, s: State)
  {
    && OnRecords(f, s)
    && (forall i | 0 <= i < |s.readers| :: Placed(f, s, s.readers[i]))
    && (s.query <= f.eof && s.off > s.query ==> exists i :: 0 <= i < |s.readers| && WillReset(f, s.query, s.readers[i]))
    && Dealt(f, s)
  }

  /** Every record before the frontier has been handed out once or belongs to one reader. */
  ghost predicate Dealt(f: File, s: State)
  {
    && Distinct(s.out)
    && (forall x | x in s.out :: Aligned(x) && x < Frontier(f, s))
    && (forall i: nat, x: nat | Holds(f, s, i, x) :: x < Frontier(f, s) && x !in s.out)
    && (forall i: nat, j: nat, x: nat | Holds(f, s, i, x) && Holds(f, s, j, x) :: i == j)
    && (forall x: nat | Aligned(x) && x < Frontier(f, s) :: x in s.out || Held(f, s, x))
  }

  predicate Holds(f: File, s: State, i: nat, x: nat)
  {
    i < |s.readers| && Owns(f, s.query, s.readers[i], x)
  }

  ghost predicate Held(f: File, s: State, x: nat)
  {
    exists i: nat :: Holds(f, s, i, x)
  }

  // ---------- one step keeps it ----------

  lemma StartInv(f: File, readers: nat)
    requires ValidFile(f)
    ensures Inv(f, Start(readers))
  {}

  /** A step that neither takes nor hands out records. */
  lemma SameShares(f: File, s: State, s': State, i: nat, r: Reader)
    requires Dealt(f, s) && i < |s.readers| && s'.readers == s.readers[i := r]
    requires s'.query == s.query && s'.out == s.out && Frontier(f, s') == Frontier(f, s)
    requires forall x: nat :: Owns(f, s.query, s.readers[i], x) == Owns(f, s.query, r, x)
    ensures Dealt(f, s')
  {
    assert forall j: nat, x: nat :: Holds(f, s', j, x) == Holds(f, s, j, x);
    forall x: nat | Aligned(x) && x < Frontier(f, s')
      ensures x in s'.out || Held(f, s', x)
    {
      assert x in s.out || Held(f, s, x);
    }
  }

  /** The fetch_add: the reader gets what the frontier moves over. */
  lemma FetchDeals(f: File, s: State, s': State, i: nat)
    requires Dealt(f, s) && i < |s.readers| && s.readers[i] == Admitted
    requires s' == s.(off := s.off + f.buf, readers := s.readers[i := Fetched(s.off)])
    ensures Dealt(f, s')
  {
    assert forall j: nat, x: nat | j != i :: Holds(f, s', j, x) == Holds(f, s, j, x);
    assert forall x: nat :: Holds(f, s', i, x) <==> Frontier(f, s) <= x < Frontier(f, s');
    forall x: nat | Aligned(x) && x < Frontier(f, s')
      ensures x in s'.out || Held(f, s', x)
    {
      if x >= Frontier(f, s) {
        assert Holds(f, s', i, x);
      } else {
        assert x in s.out || Held(f, s, x);
      }
    }
  }

  lemma RestOwned(f: File, query: nat, at: nat, end: nat, r: Reader, x: nat)
    requires Aligned(at) && Aligned(end) && at < end
    requires r == if at + EDGE >= end then Ready else Buffered(at + EDGE, end)
    ensures Aligned(x) && x != at ==> Owns(f, query, r, x) == Owns(f, query, Buffered(at, end), x)
    ensures Owns(f, query, r, x) ==> x != at && Owns(f, query, Buffered(at, end), x)
  {
    NextAligned(at, end);
    if Aligned(x) && x > at { NextAligned(at, x); }
  }

  /** Records do not overlap. */
  lemma NextAligned(a: nat, b: nat)
    requires Aligned(a) && Aligned(b) && a < b
    ensures a + EDGE <= b
  {
    var k, l := (a - HEADER) / EDGE, (b - HEADER) / EDGE;
    assert a == HEADER + EDGE * k && b == HEADER + EDGE * l;
  }

  /** Handing out the first record of a buffer. */
  lemma HandOutDeals(f: File, s: State, s': State, i: nat, at: nat, end: nat, r: Reader)
    requires Dealt(f, s) && i < |s.readers| && s.readers[i] == Buffered(at, end)
    requires Aligned(at) && Aligned(end) && at < end
    requires r == if at + EDGE >= end then Ready else Buffered(at + EDGE, end)
    requires s' == s.(out := s.out + [at], readers := s.readers[i := r])
    ensures Dealt(f, s')
  {
    assert Holds(f, s, i, at);
    assert forall j: nat, x: nat | j != i :: Holds(f, s', j, x) == Holds(f, s, j, x);
    forall x: nat
      ensures Aligned(x) && x != at ==> Holds(f, s', i, x) == Holds(f, s, i, x)
      ensures Holds(f, s', i, x) ==> x != at && Holds(f, s, i, x)
    {
      RestOwned(f, s.query, at, end, r, x);
    }
    forall x: nat | Aligned(x) && x < Frontier(f, s')
      ensures x in s'.out || Held(f, s', x)
    {
      assert x in s.out || Held(f, s, x);
    }
  }

  /** The other steps of a reader take nothing and hand out nothing. */
  lemma QuietMove(f: File, s: State, r: Reader)
    requires ValidFile(f) && Placed(f, s, r) && r != Admitted && !r.Buffered?
    ensures var (s', r') := Advance(f, s, r);
      && s' == s.(off := s'.off) && Frontier(f, s') == Frontier(f, s)
      && forall x: nat :: Owns(f, s.query, r, x) == Owns(f, s.query, r', x)
  {}

  lemma MoveKeepsDealt(f: File, s: State, i: nat)
    requires Inv(f, s) && i < |s.readers|
    ensures Dealt(f, Step(f, s, Move(i)))
  {
    var s' := Step(f, s, Move(i));
    assert Placed(f, s, s.readers[i]);
    match s.readers[i] {
      case Admitted => FetchDeals(f, s, s', i);
      case Buffered(at, end) => HandOutDeals(f, s, s', i, at, end, s'.readers[i]);
      case _ => QuietDeals(f, s, s', i);
    }
  }

  lemma QuietDeals(f: File, s: State, s': State, i: nat)
    requires Inv(f, s) && i < |s.readers| && s' == Step(f, s, Move(i))
    requires Placed(f, s, s.readers[i]) && s.readers[i] != Admitted && !s.readers[i].Buffered?
    ensures Dealt(f, s')
  {
    QuietMove(f, s, s.readers[i]);
    SameShares(f, s, s', i, s'.readers[i]);
  }

  lemma MoveKeepsReset(f: File, s: State, i: nat)
    requires Inv(f, s) && i < |s.readers|
    ensures var s' := Step(f, s, Move(i));
      s'.query <= f.eof && s'.off > s'.query ==>
        exists j :: 0 <= j < |s'.readers| && WillReset(f, s'.query, s'.readers[j])
  {
    var s' := Step(f, s, Move(i));
    assert Placed(f, s, s.readers[i]);
    if s'.query <= f.eof && s'.off > s'.query {
      if s.readers[i] == Admitted {
        assert WillReset(f, s'.query, s'.readers[i]);
      } else {
        var j :| 0 <= j < |s.readers| && WillReset(f, s.query, s.readers[j]);
        assert WillReset(f, s'.query, s'.readers[j]);
      }
    }
  }

  lemma Stride(x: nat, d: nat)
    requires Aligned(x) && d % EDGE == 0
    ensures Aligned(x + d)
  {
    assert (x - 12) % 9 == 0 && d % 9 == 0;
    assert (x + d - 12) % 9 == 0;
  }

  /** What one step does to the reader that takes it. */
  ghost predicate WellMoved(f: File, s: State, r: Reader)
  {
    var (s', r') := Advance(f, s, r);
    && Placed(f, s', r') && (s'.off <= f.eof ==> Aligned(s'.off)) && s' == s.(off := s'.off, out := s'.out)
    && (s'.off >= s.off || s'.off == s.query <= s.off)
  }

  lemma FetchPlaces(f: File, s: State)
    requires OnRecords(f, s)
    ensures WellMoved(f, s, Admitted)
  {
    if s.off <= f.eof { Stride(s.off, f.buf); }
  }

  lemma InsidePlaces(f: File, s: State, at: nat)
    requires OnRecords(f, s) && Placed(f, s, Inside(at))
    ensures WellMoved(f, s, Inside(at))
  {
    Stride(at, f.buf);
  }

  lemma LoadingPlaces(f: File, s: State, at: nat, len: nat)
    requires OnRecords(f, s) && Placed(f, s, Loading(at, len))
    ensures WellMoved(f, s, Loading(at, len))
  {}

  lemma BufferedPlaces(f: File, s: State, at: nat, end: nat)
    requires OnRecords(f, s) && Placed(f, s, Buffered(at, end))
    ensures WellMoved(f, s, Buffered(at, end))
  {
    NextRecord(f, s, at, end);
  }

  /** Where the offset moves back to the query, the query is on a record. */
  lemma ResetPlaces(f: File, s: State, r: Reader)
    requires OnRecords(f, s) && Placed(f, s, r) && (r.Overshot? || r.Truncated?)
    ensures WellMoved(f, s, r)
  {}

  lemma OtherPlaces(f: File, s: State, r: Reader)
    requires OnRecords(f, s) && Placed(f, s, r)
    requires r.Ready? || r.Entered? || r.Cleared? || r.Fetched? || r.Before? || r.Stopped?
    ensures WellMoved(f, s, r)
  {}

  /** A step leaves its reader well placed. */
  lemma AdvancePlaces(f: File, s: State, r: Reader)
    requires OnRecords(f, s) && Placed(f, s, r)
    ensures WellMoved(f, s, r)
  {
    match r {
      case Admitted => FetchPlaces(f, s);
      case Inside(at) => InsidePlaces(f, s, at);
      case Loading(at, len) => LoadingPlaces(f, s, at, len);
      case Buffered(at, end) => BufferedPlaces(f, s, at, end);
      case Overshot => ResetPlaces(f, s, r);
      case Truncated(_, _) => ResetPlaces(f, s, r);
      case _ => OtherPlaces(f, s, r);
    }
  }

  lemma NextRecord(f: File, s: State, at: nat, end: nat)
    requires Aligned(at) && Aligned(end) && at < end
    ensures at + EDGE < end ==> Placed(f, s, Buffered(at + EDGE, end))
  {
    Stride(at, EDGE);
  }

  /** And the others with it: the offset only grows, or goes back to the query. */
  lemma OthersStayPlaced(f: File, s: State, s': State, r: Reader)
    requires Placed(f, s, r) && s' == s.(off := s'.off, out := s'.out)
    requires s'.off >= s.off || s'.off == s.query <= s.off
    ensures Placed(f, s', r)
  {}

  lemma MoveKeepsPlaces(f: File, s: State, i: nat)
    requires Inv(f, s) && i < |s.readers|
    ensures var s' := Step(f, s, Move(i));
      && (s'.off <= f.eof ==> Aligned(s'.off)) && s'.query == s.query && |s'.readers| == |s.readers|
      && forall j | 0 <= j < |s'.readers| :: Placed(f, s', s'.readers[j])
  {
    var (s1, r) := Advance(f, s, s.readers[i]);
    AdvancePlaces(f, s, s.readers[i]);
    var s' := s1.(readers := s.readers[i := r]);
    forall j: nat | j < |s'.readers|
      ensures Placed(f, s', s'.readers[j])
    {
      if j == i {
        assert Placed(f, s1, r);
      } else {
        OthersStayPlaced(f, s, s1, s.readers[j]);
      }
    }
  }

  lemma MoveGrows(f: File, s: State, i: nat)
    requires Inv(f, s) && i < |s.readers|
    ensures s.out <= Step(f, s, Move(i)).out && Frontier(f, s) <= Frontier(f, Step(f, s, Move(i)))
  {
    assert Placed(f, s, s.readers[i]);
  }

  lemma MoveKeepsInv(f: File, s: State, i: nat)
    requires Inv(f, s) && i < |s.readers|
    ensures var s' := Step(f, s, Move(i));
      Inv(f, s') && s.out <= s'.out && Frontier(f, s) <= Frontier(f, s')
  {
    MoveKeepsDealt(f, s, i);
    MoveKeepsReset(f, s, i);
    MoveGrows(f, s, i);
    MoveKeepsPlaces(f, s, i);
  }

  lemma OnDemandKeepsInv(f: File, s: State)
    requires Inv(f, s)
    ensures Inv(f, s.(block := true))
  {
    var s' := s.(block := true);
    assert forall j: nat, x: nat :: Holds(f, s', j, x) == Holds(f, s, j, x);
    forall x: nat | Aligned(x) && x < Frontier(f, s')
      ensures x in s'.out || Held(f, s', x)
    {
      assert x in s.out || Held(f, s, x);
    }
  }

  lemma StepKeepsInv(f: File, s: State, a: Action)
    requires Inv(f, s) && Enabled(s, a)
    ensures Inv(f, Step(f, s, a))
    ensures s.out <= Step(f, s, a).out && Frontier(f, s) <= Frontier(f, Step(f, s, a))
  {
    match a {
      case Move(i) => MoveKeepsInv(f, s, i);
      case OnDemand => OnDemandKeepsInv(f, s);
      case Resume => Rested(f, s, Step(f, s, a));
      case Register(_) => Rested(f, s, Step(f, s, a));
    }
  }

  /** Nobody owns anything between phases, so only the frontier matters. */
  lemma Rested(f: File, s: State, s': State)
    requires Inv(f, s) && forall j | 0 <= j < |s.readers| :: s.readers[j] in {Ready, Stopped}
    requires s'.out == s.out && s'.off == s.off && (s'.query == s.query || s'.query == NEVER || s'.query > s.off)
    requires s'.query <= f.eof ==> Aligned(s'.query)
    requires |s'.readers| == |s.readers| && forall j | 0 <= j < |s'.readers| :: s'.readers[j] == Ready
    ensures Inv(f, s') && Frontier(f, s) == Frontier(f, s')
  {}

  // ---------- whole runs ----------

  lemma {:induction false} RunKeepsInv(f: File, s: State, actions: seq<Action>, s': State)
    requires Inv(f, s) && Runs(f, s, actions, s')
    ensures Inv(f, s') && s.out <= s'.out && Frontier(f, s) <= Frontier(f, s')
    decreases |actions|
  {
    if actions != [] {
      StepKeepsInv(f, s, actions[0]);
      RunKeepsInv(f, Step(f, s, actions[0]), actions[1..], s');
    }
  }

  /** All readers have come to rest. */
  ghost predicate AtRest(s: State)
  {
    forall j | 0 <= j < |s.readers| :: s.readers[j] in {Ready, Stopped}
  }

  /** The records from lo up to hi, by their offsets. */
  ghost function Records(lo: nat, hi: nat): set<nat>
  {
    set x: nat | lo <= x < hi && Aligned(x)
  }

  ghost function Range(out: seq<nat>): set<nat>
  {
    set x | x in out
  }

  /** Exactly-once delivery. In every run of any number of readers, whenever all are at rest, the
      records handed out are those before the offset, the query and the end of the file, each
      once. The offset is not past a query inside the file, and the readers only stop at the
      query or at the end of the file unless they are asked to. */
  lemma ExactlyOnce(f: File, readers: nat, actions: seq<Action>, s: State)
    requires ValidFile(f) && Runs(f, Start(readers), actions, s) && AtRest(s)
    ensures Distinct(s.out) && Range(s.out) == Records(HEADER, Min(s.off, f.eof))
    ensures s.query <= f.eof ==> s.off <= s.query
    ensures Frontier(f, s) == Min(s.off, f.eof) && Aligned(Frontier(f, s))
    ensures !s.block && Stopped in s.readers ==>
      && Range(s.out) == Records(HEADER, Min(s.query, f.eof))
      && (s.query <= f.eof ==> s.off == s.query)
  {
    StartInv(f, readers);
    RunKeepsInv(f, Start(readers), actions, s);
    assert forall i: nat, x: nat :: !Holds(f, s, i, x);
    assert forall i | 0 <= i < |s.readers| :: !WillReset(f, s.query, s.readers[i]);
    assert forall x: nat | Aligned(x) && x < Frontier(f, s) :: x in s.out || Held(f, s, x);
    if !s.block && Stopped in s.readers {
      var j :| 0 <= j < |s.readers| && s.readers[j] == Stopped;
      assert Placed(f, s, s.readers[j]);
    }
  }

  /** One phase, from rest to rest, hands out what lies between the two offsets, each record once. */
  lemma PhaseDelivers(f: File, readers: nat, before: seq<Action>, s: State, actions: seq<Action>, s': State)
    requires ValidFile(f) && Runs(f, Start(readers), before, s) && AtRest(s)
    requires Runs(f, s, actions, s') && AtRest(s')
    ensures s.out <= s'.out && Distinct(s'.out[|s.out|..])
    ensures Range(s'.out[|s.out|..]) == Records(Min(s.off, f.eof), Min(s'.off, f.eof))
    ensures Min(s.off, f.eof) <= Min(s'.off, f.eof)
  {
    StartInv(f, readers);
    RunKeepsInv(f, Start(readers), before, s);
    RunKeepsInv(f, s, actions, s');
    RunsCompose(f, Start(readers), before, s, actions, s');
    ExactlyOnce(f, readers, before, s);
    ExactlyOnce(f, readers, before + actions, s');
    Suffix(s.out, s'.out);
  }

  lemma {:induction false} RunsCompose(f: File, s: State, first: seq<Action>, mid: State, second: seq<Action>, s': State)
    requires Runs(f, s, first, mid) && Runs(f, mid, second, s')
    ensures Runs(f, s, first + second, s')
    decreases |first|
  {
    if first == [] {
      assert first + second == second;
    } else {
      RunsCompose(f, Step(f, s, first[0]), first[1..], mid, second, s');
      assert (first + second)[1..] == first[1..] + second;
    }
  }

  lemma Suffix(out: seq<nat>, out': seq<nat>)
    requires out <= out' && Distinct(out')
    ensures Distinct(out'[|out|..])
    ensures Range(out'[|out|..]) == Range(out') - Range(out)
  {
    var rest := out'[|out|..];
    assert out' == out + rest;
    forall x | x in rest
      ensures x !in out
    {
      var k :| 0 <= k < |rest| && rest[k] == x;
      assert out'[|out| + k] == x;
    }
  }

  // ---------- in terms of updates ----------

  function Index(x: nat): nat
  {
    if x < HEADER then 0 else (x - HEADER) / EDGE
  }

  /** The updates at the given offsets. */
  ghost function Handed<U>(stream: seq<U>, out: seq<nat>): seq<U>
    requires forall k | 0 <= k < |out| :: Index(out[k]) < |stream|
  {
    seq(|out|, k requires 0 <= k < |out| => stream[Index(out[k])])
  }

  /** Handing out each record of a range once hands out the updates of that range, in some order. */
  lemma {:induction false} EachOnce<U>(stream: seq<U>, out: seq<nat>, lo: nat, hi: nat)
    requires Aligned(lo) && Aligned(hi) && lo <= hi && Index(hi) <= |stream|
    requires Distinct(out) && Range(out) == Records(lo, hi)
    ensures Index(lo) <= Index(hi) && forall k | 0 <= k < |out| :: Index(out[k]) < |stream|
    ensures multiset(Handed(stream, out)) == multiset(stream[Index(lo)..Index(hi)])
    decreases hi
  {
    OutWithin(out, lo, hi);
    if lo < hi {
      var k := HandedLast(out, lo, hi);
      SplitLast(stream, lo, hi);
      EachOnceBut(out, k, lo, hi);
      var out' := out[..k] + out[k + 1..];
      EachOnce(stream, out', lo, hi - EDGE);
      EachOnceStep(stream, out, k, out', stream[Index(lo)..Index(hi)], stream[Index(lo)..Index(hi - EDGE)]);
    }
  }

  lemma HandedLast(out: seq<nat>, lo: nat, hi: nat) returns (k: nat)
    requires Aligned(lo) && Aligned(hi) && lo < hi && Range(out) == Records(lo, hi)
    ensures k < |out| && out[k] == hi - EDGE
  {
    assert hi - EDGE in Range(out);
    k :| 0 <= k < |out| && out[k] == hi - EDGE;
  }

  lemma EachOnceStep<U>(stream: seq<U>, out: seq<nat>, k: nat, out': seq<nat>, s: seq<U>, s': seq<U>)
    requires k < |out| && out' == out[..k] + out[k + 1..]
    requires (forall j | 0 <= j < |out| :: Index(out[j]) < |stream|) && forall j | 0 <= j < |out'| :: Index(out'[j]) < |stream|
    requires s == s' + [stream[Index(out[k])]] && multiset(Handed(stream, out')) == multiset(s')
    ensures multiset(Handed(stream, out)) == multiset(s)
  {
    HandedBut(stream, out, k);
    PutBack(Handed(stream, out), Handed(stream, out'), s, s', stream[Index(out[k])]);
  }

  lemma PutBack<U>(h: seq<U>, h': seq<U>, s: seq<U>, s': seq<U>, u: U)
    requires multiset(h) == multiset(h') + multiset{u} && s == s' + [u] && multiset(h') == multiset(s')
    ensures multiset(h) == multiset(s)
  {
  }

  lemma OutWithin(out: seq<nat>, lo: nat, hi: nat)
    requires Aligned(lo) && Aligned(hi) && lo <= hi && Range(out) == Records(lo, hi)
    ensures Index(lo) <= Index(hi) && forall k | 0 <= k < |out| :: Index(out[k]) < Index(hi)
    ensures out != [] ==> lo < hi
  {
    if out != [] { assert out[0] in Range(out); }
    forall k | 0 <= k < |out|
      ensures Index(out[k]) < Index(hi)
    {
      assert out[k] in Range(out);
    }
  }

  lemma HandedBut<U>(stream: seq<U>, out: seq<nat>, k: nat)
    requires k < |out| && forall j | 0 <= j < |out| :: Index(out[j]) < |stream|
    ensures var out' := out[..k] + out[k + 1..];
      && (forall j | 0 <= j < |out'| :: Index(out'[j]) < |stream|)
      && multiset(Handed(stream, out)) == multiset(Handed(stream, out')) + multiset{stream[Index(out[k])]}
  {
    var out', h := out[..k] + out[k + 1..], Handed(stream, out);
    assert h == h[..k] + [h[k]] + h[k + 1..];
    assert Handed(stream, out') == h[..k] + h[k + 1..];
  }

  lemma SplitLast<U>(stream: seq<U>, lo: nat, hi: nat)
    requires Aligned(lo) && Aligned(hi) && lo < hi && Index(hi) <= |stream|
    ensures Aligned(hi - EDGE) && lo <= hi - EDGE && Index(lo) <= Index(hi - EDGE) == Index(hi) - 1
    ensures stream[Index(lo)..Index(hi)] == stream[Index(lo)..Index(hi - EDGE)] + [stream[Index(hi - EDGE)]]
  {}

  lemma EachOnceBut(out: seq<nat>, k: nat, lo: nat, hi: nat)
    requires k < |out| && Distinct(out) && Range(out) == Records(lo, hi) && Aligned(hi) && out[k] == hi - EDGE
    ensures Distinct(out[..k] + out[k + 1..]) && Range(out[..k] + out[k + 1..]) == Records(lo, hi - EDGE)
  {
    var out' := out[..k] + out[k + 1..];
    assert Range(out') == Range(out) - {out[k]} by {
      forall x | x in out && x != out[k]
        ensures x in out'
      {
        var j :| 0 <= j < |out| && out[j] == x;
        assert x == if j < k then out'[j] else out'[j - 1];
      }
    }
  }

  /** What the readers take in one phase is the matching part of the stream, up to order. */
  lemma PhaseUpdates<U>(f: File, stream: seq<U>, readers: nat, before: seq<Action>, s: State, actions: seq<Action>, s': State)
    requires ValidFile(f) && |stream| == Index(f.eof)
    requires Runs(f, Start(readers), before, s) && AtRest(s) && Runs(f, s, actions, s') && AtRest(s')
    ensures var lo, hi := Index(Min(s.off, f.eof)), Index(Min(s'.off, f.eof));
      && s.out <= s'.out && lo <= hi <= |stream|
      && (forall k | |s.out| <= k < |s'.out| :: Index(s'.out[k]) < |stream|)
      && multiset(Handed(stream, s'.out[|s.out|..])) == multiset(stream[lo..hi])
  {
    PhaseDelivers(f, readers, before, s, actions, s');
    ExactlyOnce(f, readers, before, s);
    RunsCompose(f, Start(readers), before, s, actions, s');
    ExactlyOnce(f, readers, before + actions, s');
    EachOnce(stream, s'.out[|s.out|..], Min(s.off, f.eof), Min(s'.off, f.eof));
  }
}
