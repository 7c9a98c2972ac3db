/** src/graph.cpp, include/graph.h: the graph object. */
module GraphModel {
  import opened Basics
  import opened Bits
  import opened Edges
  import opened Connectivity
  import opened DisjointSets
  import opened UnionFind
  import opened Answers
  import opened Verifier
  import opened Sketches
  import opened Supernodes
  import opened Rounds
  import opened RoundSteps
  import opened ParallelMerge
  import opened Progress
  import opened Emulation
  import opened EmulationRuns
  import opened SketchBytes
  import opened SupernodeBytes
  import opened DiskBackup
  import opened Updates
  import opened EagerCache

  /** How a step can end. Undefined: a bogus sample names a node that does not exist, and the
      source indexes its arrays with it. */
  datatype Status = Ok | OutOfSketches | QueriedTwice | Undefined | BadEdge | NotComponent | WrongAnswer

  /** The verifier of a query, if samples are being verified at all. */
  function Watcher(ver: MatGraphVerifier?): set<MatGraphVerifier>
  {
    if ver == null then {} else {ver}
  }

  function Watched(ver: MatGraphVerifier?): set<DisjointSetUnion>
  {
    if ver == null then {} else {ver.sets}
  }

  class Graph {
    const n: nat
    const cfg: Config
    const inMem: bool        // backups are kept in memory, else on disk
    const width: nat         // the bytes of a checksum on disk
    var updateLocked: bool
    var modified: bool
    var dsuValid: bool
    var supernodes: seq<Supernode>
    var dsu: Dsu             // the parent and size arrays
    var forest: set<nat>     // spanning_forest, as edge ids
    var failRound2: bool     // the verification build can make later rounds fail
    var gutter: seq<(nat, nat)>         // half-updates not yet handed to the workers
    ghost var stream: seq<(nat, nat)>   // all updates so far
    ghost var held: seq<set<nat>>       // the ids each supernode has received with odd parity
    ghost var sound: bool               // no batch and no queried graph has met a hash collision,
                                        // and no query was run on supernodes already merged

    /** The verifier, if any, has seen the same unions. */
    ghost predicate InStep(ver: MatGraphVerifier?)
      reads this, Watcher(ver), Watched(ver)
    {
      && Valid(dsu) && |dsu.parent| == n
      && (ver != null ==> ver.Ready() && ver.n == n && SamePartition(dsu, ver.sets.d))
    }

    /** Path compression. */
    method GetParent(node: nat) returns (r: nat)
      requires Valid(dsu) && node < |dsu.parent|
      modifies this`dsu
      ensures OnlyShortened(old(dsu), dsu)
      ensures r == Root(old(dsu), node) == dsu.parent[node]
      ensures forall v: nat | v < |dsu.parent| :: dsu.parent[v] == old(dsu).parent[v] || dsu.parent[v] == Root(old(dsu), v)
      decreases |dsu.parent| - dsu.size[node]
    {
      assert LinkOk(dsu, node) && LinkOk(dsu, dsu.parent[node]);
      if dsu.parent[node] == node { return node; }
      r := GetParent(dsu.parent[node]);
      RootSize(dsu, node);
      OneShortening(dsu, node, r);
      dsu := Reparent(dsu, node, r);
    }

    /** Link two roots along an edge between their classes, after the verifier has passed it. */
    method LinkAlong(ver: MatGraphVerifier?, x: nat, y: nat, e: nat, toMerge: seq<seq<nat>>)
      returns (st: Status, toMerge': seq<seq<nat>>, ghost a: nat, ghost b: nat)
      requires InStep(ver) && |toMerge| == n && Src(e) < n && Dst(e) < n
      requires x != y && x == Root(dsu, Src(e)) && y == Root(dsu, Dst(e))
      modifies this`dsu, this`forest, this`modified, Watcher(ver)`boruvkaCc, Watched(ver)
      ensures InStep(ver)
      ensures if ver != null && !Adjacent(ver.edges, Src(e), Dst(e))
              then st == BadEdge && dsu == old(dsu) && forest == old(forest)
              else
                && st == Ok && Linkable(old(dsu), a, b) && Between(old(dsu), a, b, Src(e), Dst(e))
                && dsu == Link(old(dsu), a, b) && toMerge' == Absorb(toMerge, a, b)
                && modified && forest == old(forest) + {Id(Src(e), Dst(e))}
    {
      toMerge', a, b := toMerge, x, y;
      if ver != null {
        assert Together(dsu, Src(e), Dst(e)) <==> Together(ver.sets.d, Src(e), Dst(e));
        ghost var theirs := ver.sets.d;
        var ok := ver.VerifyEdge(Src(e), Dst(e));
        if !ok {
          SamePartitionShortened(dsu, dsu, theirs, ver.sets.d);
          return BadEdge, toMerge, a, b;
        }
      }
      if dsu.size[x] < dsu.size[y] { a, b := y, x; }
      LinkUnites(dsu, a, b, Src(e), Dst(e));
      if ver != null {
        UniteInLockstep(dsu, Link(dsu, a, b), old(ver.sets.d), ver.sets.d, Src(e), Dst(e));
      }
      if dsu.size[x] < dsu.size[y] {
        dsu, toMerge' := Link(dsu, y, x), Absorb(toMerge, y, x);
      } else {
        dsu, toMerge' := Link(dsu, x, y), Absorb(toMerge, x, y);
      }
      modified := true;
      forest := forest + {Id(Src(e), Dst(e))};
      st := Ok;
    }

    /** The roots of both endpoints; only paths change. */
    method FindEnds(ver: MatGraphVerifier?, u: nat, v: nat) returns (x: nat, y: nat)
      requires InStep(ver) && u < n && v < n
      modifies this`dsu
      ensures InStep(ver) && OnlyShortened(old(dsu), dsu) && x == Root(dsu, u) && y == Root(dsu, v)
    {
      x := GetParent(u);
      y := GetParent(v);
      if ver != null { SamePartitionShortened(old(dsu), dsu, ver.sets.d, ver.sets.d); }
    }

    /** The part of supernodes_to_merge that handles a GOOD sample. */
    method MergeAlong(ver: MatGraphVerifier?, e: nat, toMerge: seq<seq<nat>>)
      returns (st: Status, toMerge': seq<seq<nat>>, ghost mid: Dsu, ghost a: nat, ghost b: nat)
      requires InStep(ver) && |toMerge| == n
      modifies this`dsu, this`forest, this`modified, Watcher(ver)`boruvkaCc, Watched(ver)
      ensures InStep(ver) && OnlyShortened(old(dsu), mid)
      ensures st == Undefined <==> Src(e) >= n || Dst(e) >= n
      ensures st == BadEdge ==> ver != null && !Adjacent(ver.edges, Src(e), Dst(e))
      ensures st == Ok || st == Undefined || st == BadEdge
      ensures st == Ok ==>
        if Joins(mid, e) then dsu == mid && forest == old(forest) && modified == old(modified) && toMerge' == toMerge
        else
          && Linkable(mid, a, b) && Between(mid, a, b, Src(e), Dst(e))
          && dsu == Link(mid, a, b) && toMerge' == Absorb(toMerge, a, b)
          && modified && forest == old(forest) + {Id(Src(e), Dst(e))}
      ensures st != Ok ==> dsu == mid && forest == old(forest)
    {
      toMerge', mid, a, b := toMerge, dsu, 0, 0;
      if Src(e) >= n || Dst(e) >= n { return Undefined, toMerge, mid, a, b; }
      var x, y := FindEnds(ver, Src(e), Dst(e));
      mid := dsu;
      if x == y { return Ok, toMerge, mid, a, b; }
      st, toMerge', a, b := LinkAlong(ver, x, y, e, toMerge);
    }

    /** With a verifier present, a ZERO sample must mean that the class is a whole component. */
    method CheckZero(ver: MatGraphVerifier?, i: nat) returns (st: Status)
      requires InStep(ver) && i < n
      modifies Watched(ver)
      ensures InStep(ver)
      ensures st == if ver != null && !IsComponent(Class(dsu, Root(dsu, i)), ver.edges, n) then NotComponent else Ok
    {
      st := Ok;
      if ver != null {
        ghost var theirs := ver.sets.d;
        var ok := ver.VerifyCc(i);
        SamePartitionShortened(dsu, dsu, theirs, ver.sets.d);
        SamePartitionClass(dsu, ver.sets.d, i);
        if !ok { st := NotComponent; }
      }
    }

    /** The sample that made supernodes_to_merge give up. */
    ghost predicate Offends(ver: MatGraphVerifier?, st: Status, s: Sampled, i: nat)
      requires s.Sample?
      reads this, Watcher(ver)
    {
      match st
      case Undefined => s.ret == GOOD && (Src(s.index) >= n || Dst(s.index) >= n)
      case BadEdge => ver != null && s.ret == GOOD && !Adjacent(ver.edges, Src(s.index), Dst(s.index))
      case NotComponent =>
        && ver != null && s.ret == ZERO
        && Forest(dsu) && i < |dsu.parent| && !IsComponent(Class(dsu, Root(dsu, i)), ver.edges, n)
      case _ => false
    }

    /** A GOOD sample in the loop of supernodes_to_merge. */
    method HitSample(ver: MatGraphVerifier?, query: seq<Sampled>, reps: seq<nat>, k: nat, toMerge: seq<seq<nat>>,
                     ghost failed: seq<nat>, ghost d0: Dsu, ghost forest0: set<nat>)
      returns (st: Status, toMerge': seq<seq<nat>>)
      requires InStep(ver) && |query| == n && k < |reps| && Hit(query, reps[k])
      requires Partial(d0, forest0, reps, query, k, Merging(dsu, forest, toMerge, failed, modified))
      modifies this`dsu, this`forest, this`modified, Watcher(ver)`boruvkaCc, Watched(ver)
      ensures InStep(ver)
      ensures st == Ok ==> Partial(d0, forest0, reps, query, k + 1, Merging(dsu, forest, toMerge', failed, modified))
      ensures st != Ok ==> MidRound(d0, forest0, reps, query, dsu, forest) && Offends(ver, st, query[reps[k]], reps[k])
    {
      ghost var mid, a, b;
      st, toMerge', mid, a, b := MergeAlong(ver, query[reps[k]].index, toMerge);
      PartialGood(d0, forest0, reps, query, k, old(Merging(dsu, forest, toMerge, failed, modified)), mid, a, b);
    }

    /** One iteration of the loop of supernodes_to_merge. */
    method OneSample(ver: MatGraphVerifier?, query: seq<Sampled>, reps: seq<nat>, k: nat, toMerge: seq<seq<nat>>, failed: seq<nat>,
                     ghost d0: Dsu, ghost forest0: set<nat>)
      returns (st: Status, toMerge': seq<seq<nat>>, failed': seq<nat>)
      requires InStep(ver) && |query| == n && k < |reps| && reps[k] < n && query[reps[k]].Sample?
      requires Partial(d0, forest0, reps, query, k, Merging(dsu, forest, toMerge, failed, modified))
      modifies this`dsu, this`forest, this`modified, Watcher(ver)`boruvkaCc, Watched(ver)
      ensures InStep(ver)
      ensures st == Ok ==> Partial(d0, forest0, reps, query, k + 1, Merging(dsu, forest, toMerge', failed', modified))
      ensures st != Ok ==> MidRound(d0, forest0, reps, query, dsu, forest) && Offends(ver, st, query[reps[k]], reps[k])
    {
      var i := reps[k];
      ghost var m := Merging(dsu, forest, toMerge, failed, modified);
      st, toMerge', failed' := Ok, toMerge, failed;
      match query[i].ret {
        case FAIL =>
          PartialFail(d0, forest0, reps, query, k, m);
          modified := true;
          failed' := failed + [i];
        case ZERO =>
          PartialMid(d0, forest0, reps, query, k, m);
          PartialSkip(d0, forest0, reps, query, k, m);
          st := CheckZero(ver, i);
        case GOOD =>
          st, toMerge' := HitSample(ver, query, reps, k, toMerge, failed, d0, forest0);
      }
    }

    /** Turn the samples of one round into unions and merge lists. */
    method SupernodesToMerge(ver: MatGraphVerifier?, query: seq<Sampled>, reps: seq<nat>)
      returns (st: Status, toMerge: seq<seq<nat>>, reps': seq<nat>)
      requires InStep(ver) && Spanning(dsu, forest) && !modified && |query| == n
      requires Distinct(reps) && forall k | 0 <= k < |reps| :: reps[k] < n && query[reps[k]].Sample?
      modifies this`dsu, this`forest, this`modified, Watcher(ver)`boruvkaCc, Watched(ver)
      ensures InStep(ver)
      ensures st == Ok ==> RoundShape(old(dsu), old(forest), reps, query, Merging(dsu, forest, toMerge, reps', modified))
      ensures st != Ok ==> MidRound(old(dsu), old(forest), reps, query, dsu, forest)
      ensures st != Ok ==> exists k :: 0 <= k < |reps| && Offends(ver, st, query[reps[k]], reps[k])
    {
      ghost var d0, forest0 := dsu, forest;
      toMerge := seq(n, a => []);
      var failed: seq<nat> := [];
      reps' := [];
      PartialStart(d0, forest0, reps, query, Merging(dsu, forest, toMerge, failed, modified));
      for k := 0 to |reps|
        invariant InStep(ver)
        invariant Partial(d0, forest0, reps, query, k, Merging(dsu, forest, toMerge, failed, modified))
      {
        st, toMerge, failed := OneSample(ver, query, reps, k, toMerge, failed, d0, forest0);
        if st != Ok { return; }
      }
      reps' := FinishRound(query, reps, Merging(dsu, forest, toMerge, failed, modified), d0, forest0);
      st := Ok;
    }

    /** Sample every representative, and report an exception only after all have been sampled. */
    method SampleSupernodes(reps: seq<nat>) returns (st: Status, query: seq<Sampled>)
      requires |supernodes| == n && PoolShaped(cfg, supernodes)
      requires Distinct(reps) && InRange(reps, n)
      modifies this`supernodes
      ensures SampledFrom(cfg, reps, old(supernodes), supernodes, query)
      ensures st == Ok <==> forall k | 0 <= k < |reps| :: query[reps[k]].Sample?
      ensures st in {Ok, OutOfSketches, QueriedTwice}
      ensures st == QueriedTwice ==> exists k :: 0 <= k < |reps| && query[reps[k]].MultipleQuery?
    {
      ghost var start := supernodes;
      query := seq(n, v => OutOfQueries);
      st := Ok;
      for k := 0 to |reps|
        invariant SampledFrom(cfg, reps[..k], start, supernodes, query)
        invariant st == Ok <==> forall j | 0 <= j < k :: query[reps[j]].Sample?
        invariant st in {Ok, OutOfSketches, QueriedTwice}
        invariant st == QueriedTwice ==> exists j :: 0 <= j < k && query[reps[j]].MultipleQuery?
      {
        SampledStep(cfg, reps, start, supernodes, query, k);
        var i := reps[k];
        var (node, out) := SampleNode(cfg, supernodes[i]);
        supernodes := supernodes[i := node];
        query := query[i := out];
        if out.OutOfQueries? { st := OutOfSketches; }
        if out.MultipleQuery? { st := QueriedTwice; }
      }
      assert reps[..|reps|] == reps;
    }

    /** Merge along the lists, keeping copies of the representatives first if asked to. */
    method MergeSupernodes(reps: seq<nat>, toMerge: seq<seq<nat>>, makeCopy: bool)
      returns (copies: map<nat, Supernode>)
      requires |supernodes| == |toMerge| == n && PoolShaped(cfg, supernodes) && Clean(toMerge)
      requires Distinct(reps) && InRange(reps, n)
      requires forall v: nat | MergedInto(toMerge, v) :: v in reps
      modifies this`supernodes
      ensures MergedFrom(cfg, old(supernodes), toMerge, supernodes)
      ensures makeCopy ==> forall v | v in reps :: v in copies && copies[v] == CopyNode(old(supernodes)[v])
    {
      copies := map[];
      ghost var start := supernodes;
      ghost var done: seq<nat> := seq(n, v => 0);
      ScheduleStart(cfg, start, toMerge);
      for k := 0 to |reps|
        invariant Reached(cfg, start, toMerge, done, supernodes)
        invariant DoneUpTo(reps, toMerge, done, k)
        invariant makeCopy ==> forall v | v in reps[..k] :: v in copies && copies[v] == CopyNode(start[v])
      {
        var a := reps[k];
        NotYetDone(cfg, start, reps, toMerge, done, supernodes, k);
        if makeCopy { copies := copies[a := CopyNode(supernodes[a])]; }
        MergeList(a, toMerge, start, done);
        done := done[a := |toMerge[a]|];
      }
      assert reps[..|reps|] == reps;
      AllDone(cfg, start, reps, toMerge, done, supernodes);
    }

    /** One iteration: everything on a's list goes into a. */
    method MergeList(a: nat, toMerge: seq<seq<nat>>, ghost start: seq<Supernode>, ghost done: seq<nat>)
      requires Reached(cfg, start, toMerge, done, supernodes) && a < |supernodes| && done[a] == 0
      modifies this`supernodes
      ensures Reached(cfg, start, toMerge, done[a := |toMerge[a]|], supernodes)
    {
      assert done[a := 0] == done;
      for j := 0 to |toMerge[a]|
        invariant Reached(cfg, start, toMerge, done[a := j], supernodes)
      {
        OneMerge(cfg, start, toMerge, done[a := j], supernodes, a);
        assert done[a := j][a := j + 1] == done[a := j + 1];
        supernodes := supernodes[a := MergeNode(cfg, supernodes[a], supernodes[toMerge[a][j]])];
      }
    }

    /** Everything a round needs of the state, and leaves. */
    ghost predicate Steady(ver: MatGraphVerifier?)
      reads this, Watcher(ver), Watched(ver)
    {
      && InStep(ver) && Spanning(dsu, forest)
      && |supernodes| == n && PoolShaped(cfg, supernodes)
    }

    /** The named supernodes, written out one after the other. */
    method BackupToDisk(ids: seq<nat>) returns (file: seq<Byte>)
      requires |supernodes| == n && PoolShaped(cfg, supernodes) && InRange(ids, n)
      ensures InPool(ids, supernodes) && file == Backup(width, supernodes, ids)
    {
      ShapedInPool(cfg, supernodes, ids);
      file := [];
      for k := 0 to |ids|
        invariant file + Backup(width, supernodes, ids[k..]) == Backup(width, supernodes, ids)
      {
        BackupFirst(width, supernodes, ids, k);
        Regroup(file, FullData(width, supernodes[ids[k]], false), Backup(width, supernodes, ids[k + 1..]));
        file := file + FullData(width, supernodes[ids[k]], false);
      }
      assert ids[|ids|..] == [] && file + [] == file;
    }

    /** The supernodes that are about to change are backed up first, if asked for. */
    method BackupAndMerge(reps: seq<nat>, toMerge: seq<seq<nat>>, makeCopy: bool)
      returns (copies: map<nat, Supernode>, file: seq<Byte>)
      requires |supernodes| == |toMerge| == n && PoolShaped(cfg, supernodes) && Clean(toMerge)
      requires Distinct(reps) && InRange(reps, n)
      requires forall v: nat | MergedInto(toMerge, v) :: v in reps
      modifies this`supernodes
      ensures MergedFrom(cfg, old(supernodes), toMerge, supernodes)
      ensures makeCopy ==> BackedUpFrom(old(supernodes), reps, copies, file)
    {
      file := [];
      if makeCopy && !inMem { file := BackupToDisk(reps); }
      copies := MergeSupernodes(reps, toMerge, makeCopy && inMem);
    }

    /** The named supernodes have been saved as they were. */
    ghost predicate BackedUpFrom(nodes: seq<Supernode>, ids: seq<nat>, copies: map<nat, Supernode>, file: seq<Byte>)
      requires |nodes| == n && InRange(ids, n)
    {
      if inMem then forall v | v in ids :: v in copies && copies[v] == CopyNode(nodes[v])
      else InPool(ids, nodes) && file == Backup(width, nodes, ids)
    }

    /** The part of a round that follows the sampling. */
    method UniteAndMerge(ver: MatGraphVerifier?, query: seq<Sampled>, reps: seq<nat>, makeCopy: bool)
      returns (st: Status, reps': seq<nat>, copies: map<nat, Supernode>, file: seq<Byte>, ghost toMerge: seq<seq<nat>>)
      requires Steady(ver) && !modified && |query| == n && Distinct(reps) && InRange(reps, n)
      requires forall k | 0 <= k < |reps| :: query[reps[k]].Sample?
      modifies this`dsu, this`forest, this`modified, this`supernodes, Watcher(ver)`boruvkaCc, Watched(ver)
      ensures Steady(ver)
      ensures st == Ok ==>
        && RoundShape(old(dsu), old(forest), reps, query, Merging(dsu, forest, toMerge, reps', modified))
        && MergedFrom(cfg, old(supernodes), toMerge, supernodes)
        && (makeCopy ==> InRange(reps', n) && BackedUpFrom(old(supernodes), reps', copies, file))
      ensures st != Ok ==> supernodes == old(supernodes) && Excused(ver, st, reps, query, old(dsu), old(forest))
    {
      copies, file, toMerge := map[], [], [];
      var lists;
      st, lists, reps' := SupernodesToMerge(ver, query, reps);
      if st != Ok { return; }
      toMerge := lists;
      RoundIsClean(old(dsu), old(forest), reps, query, Merging(dsu, forest, lists, reps', modified));
      copies, file := BackupAndMerge(reps', lists, makeCopy);
    }

    /** One round: sample, unite, merge. */
    method Round(ver: MatGraphVerifier?, reps: seq<nat>, makeCopy: bool)
      returns (st: Status, reps': seq<nat>, copies: map<nat, Supernode>, file: seq<Byte>,
               ghost sampled: seq<Supernode>, ghost query: seq<Sampled>, ghost toMerge: seq<seq<nat>>)
      requires Steady(ver) && Distinct(reps) && InRange(reps, n)
      modifies this`dsu, this`forest, this`modified, this`supernodes, Watcher(ver)`boruvkaCc, Watched(ver)
      ensures Steady(ver) && SampledFrom(cfg, reps, old(supernodes), sampled, query)
      ensures st == Ok ==>
        && RoundDone(cfg, old(dsu), old(forest), reps, old(supernodes), sampled, query,
                     Merging(dsu, forest, toMerge, reps', modified), supernodes)
        && (makeCopy ==> InRange(reps', n) && BackedUpFrom(sampled, reps', copies, file))
      ensures st != Ok ==> supernodes == sampled && Excused(ver, st, reps, query, old(dsu), old(forest))
    {
      reps', copies, file, toMerge := reps, map[], [], [];
      modified := false;
      var answers;
      st, answers := SampleSupernodes(reps);
      sampled, query := supernodes, answers;
      SampledShaped(cfg, reps, old(supernodes), supernodes, answers);
      if st != Ok { return; }
      st, reps', copies, file, toMerge := UniteAndMerge(ver, answers, reps, makeCopy);
    }

    /** Why a round was abandoned. */
    ghost predicate Excused(ver: MatGraphVerifier?, st: Status, reps: seq<nat>, query: seq<Sampled>, d0: Dsu, forest0: set<nat>)
      reads this, Watcher(ver), Watched(ver)
    {
      && InRange(reps, |query|)
      && match st
         case Ok => false
         case OutOfSketches => dsu == d0 && forest == forest0 && exists k :: 0 <= k < |reps| && !query[reps[k]].Sample?
         case QueriedTwice => exists k :: 0 <= k < |reps| && query[reps[k]].MultipleQuery?
         case _ =>
           && MidRound(d0, forest0, reps, query, dsu, forest)
           && (forall k | 0 <= k < |reps| :: query[reps[k]].Sample?)
           && exists k :: 0 <= k < |reps| && Offends(ver, st, query[reps[k]], reps[k])
    }

    lemma Offender(ver: MatGraphVerifier?, st: Status, reps: seq<nat>, query: seq<Sampled>, d0: Dsu, forest0: set<nat>) returns (j: nat)
      requires Excused(ver, st, reps, query, d0, forest0) && st in {Undefined, BadEdge, NotComponent}
      ensures MidRound(d0, forest0, reps, query, dsu, forest) && forall i | i in reps :: i < |query| && query[i].Sample?
      ensures j < |reps| && Offends(ver, st, query[reps[j]], reps[j])
    {
      j :| 0 <= j < |reps| && Offends(ver, st, query[reps[j]], reps[j]);
    }

    lemma NoOffender(ver: MatGraphVerifier?, edges: set<nat>, before: Snapshot, sides: seq<set<nat>>,
                     sampled: seq<Supernode>, query: seq<Sampled>, st: Status)
      requires FaithfulGraph(cfg, edges, n) && |before.d.parent| == n == |dsu.parent|
      requires Inv(cfg, edges, before.d, before.forest, before.reps, sampled, sides)
      requires |query| == n
      requires (forall i | i in before.reps :: !query[i].OutOfQueries?) ==> Truthful(edges, before.reps, query, sides)
      requires st in {Undefined, BadEdge, NotComponent} && (ver != null ==> ver.edges == edges)
      ensures !Excused(ver, st, before.reps, query, before.d, before.forest)
    {
      if Excused(ver, st, before.reps, query, before.d, before.forest) {
        var j := Offender(ver, st, before.reps, query, before.d, before.forest);
        NoOffence(cfg, edges, before.d, before.forest, before.reps, sampled, sides, query, dsu, forest, before.reps[j]);
      }
    }

    /** On a faithful graph the only reason to abandon a round is having run out of sketches,
        and a well-supplied run never does. */
    lemma OnlyExcuse(ver: MatGraphVerifier?, edges: set<nat>, start: Snapshot, logs: seq<Log>, before: Snapshot,
                     sampled: seq<Supernode>, query: seq<Sampled>, st: Status)
      requires StartState(start, n) && Represented(cfg, edges, start.nodes) && Run(cfg, start, logs, before)
      requires SampledFrom(cfg, before.reps, before.nodes, sampled, query)
      requires Excused(ver, st, before.reps, query, before.d, before.forest) && |dsu.parent| == n
      requires ver != null ==> ver.edges == edges
      ensures st == OutOfSketches
      ensures (logs != [] ==> Last(logs).m.modified) ==> !WellSupplied(cfg, edges, start.nodes)
    {
      var sides := Sides(n, logs);
      RunKeepsInv(cfg, edges, n, start, logs, before);
      SamplingKeepsInv(cfg, edges, before.d, before.forest, before.reps, before.nodes, sides, sampled, query);
      forall j | 0 <= j < |before.reps|
        ensures !query[before.reps[j]].MultipleQuery?
      {
        assert before.reps[j] in before.reps;
      }
      if st == QueriedTwice {
        assert false;
      } else if st != OutOfSketches {
        NoOffender(ver, edges, before, sides, sampled, query, st);
      } else if (logs != [] ==> Last(logs).m.modified) && WellSupplied(cfg, edges, start.nodes) {
        var j :| 0 <= j < |before.reps| && !query[before.reps[j]].Sample?;
        assert before.reps[j] in before.reps;
        EnoughSketches(cfg, edges, n, start, logs, before, sampled, query);
      }
    }

    ghost predicate EndsAs(ver: MatGraphVerifier?, ending: Ending, st: Status, start: Snapshot, logs: seq<Log>, reps: seq<nat>)
      reads this, Watcher(ver), Watched(ver)
    {
      match ending
      case Quiet =>
        && st == Ok && logs != [] && !Last(logs).m.modified && (failRound2 ==> |logs| == 1)
        && Run(cfg, start, logs, Snapshot(dsu, forest, reps, supernodes))
      case Induced =>
        && st == OutOfSketches && failRound2 && |logs| == 2
        && Run(cfg, start, logs, Snapshot(dsu, forest, reps, supernodes))
      case Abandoned(before, query) =>
        && Run(cfg, start, logs, before) && (logs != [] ==> Last(logs).m.modified)
        && SampledFrom(cfg, before.reps, before.nodes, supernodes, query)
        && Excused(ver, st, before.reps, query, before.d, before.forest)
    }

    /** The loop's bookkeeping: what has been run so far, and what has been backed up. */
    ghost predicate Kept(start: Snapshot, logs: seq<Log>, reps: seq<nat>, makeCopy: bool,
                         backed: seq<nat>, copies: map<nat, Supernode>, file: seq<Byte>)
      reads this
    {
      && Run(cfg, start, logs, Snapshot(dsu, forest, reps, supernodes))
      && (makeCopy ==> Saved(logs, backed, copies, file))
    }

    /** The backup of a run, in memory or in the file. */
    ghost predicate Saved(logs: seq<Log>, backed: seq<nat>, copies: map<nat, Supernode>, file: seq<Byte>)
    {
      && backed == Backed(logs) && Distinct(backed) && InRange(backed, n)
      && if inMem then CopiesOf(logs, copies) && Usable(backed, copies) else Written(cfg, width, logs, file)
    }

    lemma BackupSaved(reps: seq<nat>, nodes: seq<Supernode>, query: seq<Sampled>, log: Log,
                      copies: map<nat, Supernode>, file: seq<Byte>)
      requires SampledFrom(cfg, reps, nodes, log.sampled, query) && |nodes| == n
      requires Distinct(log.m.reps) && InRange(log.m.reps, n)
      requires BackedUpFrom(log.sampled, log.m.reps, copies, file)
      ensures Saved([log], log.m.reps, copies, file)
    {
      SampledShaped(cfg, reps, nodes, log.sampled, query);
      if inMem { CopiesUsable(cfg, reps, nodes, log.sampled, query, log.m.reps, copies, n); }
    }

    lemma StillSaved(logs: seq<Log>, log: Log, backed: seq<nat>, copies: map<nat, Supernode>, file: seq<Byte>)
      requires logs != [] && Saved(logs, backed, copies, file)
      ensures Saved(logs + [log], backed, copies, file)
    {
    }

    /** There is a well-formed copy of every backed-up supernode. */
    ghost predicate Usable(backed: seq<nat>, copies: map<nat, Supernode>)
    {
      forall v | v in backed :: v < n && v in copies && Shaped(cfg, copies[v])
    }

    /** The body of the do-while loop. */
    method Iterate(ver: MatGraphVerifier?, makeCopy: bool, reps: seq<nat>, backed: seq<nat>, copies: map<nat, Supernode>,
                   file: seq<Byte>, first: bool, ghost start: Snapshot, ghost logs: seq<Log>)
      returns (st: Status, reps': seq<nat>, backed': seq<nat>, copies': map<nat, Supernode>, file': seq<Byte>,
               ghost logs': seq<Log>, ghost query: seq<Sampled>)
      requires Steady(ver) && Distinct(reps) && InRange(reps, n) && (reps != [] || n == 0)
      requires Kept(start, logs, reps, makeCopy, backed, copies, file)
      requires (first <==> logs == []) && (logs != [] ==> Last(logs).m.modified)
      modifies this`dsu, this`forest, this`modified, this`supernodes, Watcher(ver)`boruvkaCc, Watched(ver)
      ensures Steady(ver)
      ensures st == Ok ==>
        && Distinct(reps') && InRange(reps', n) && (modified ==> reps' != [])
        && (if reps != [] then Total(supernodes) < Total(old(supernodes)) else supernodes == old(supernodes) && !modified)
        && logs' != [] && |logs'| == |logs| + 1 && Last(logs').m.modified == modified
        && Kept(start, logs', reps', makeCopy, backed', copies', file')
      ensures st != Ok ==>
        && logs' == logs && backed' == backed && copies' == copies && file' == file
        && SampledFrom(cfg, reps, old(supernodes), supernodes, query)
        && Excused(ver, st, reps, query, old(dsu), old(forest))
    {
      ghost var before := Snapshot(dsu, forest, reps, supernodes);
      backed', copies', file', logs' := backed, copies, file, logs;
      var made, written;
      ghost var sampled, toMerge;
      st, reps', made, written, sampled, query, toMerge := Round(ver, reps, first && makeCopy);
      if st == Ok {
        ghost var log := Log(before, sampled, query, Merging(dsu, forest, toMerge, reps', modified));
        RunOneMore(cfg, start, logs, log, Snapshot(dsu, forest, reps', supernodes));
        logs' := logs + [log];
        if first && makeCopy {
          BackupSaved(reps, before.nodes, query, log, made, written);
          assert logs' == [log];
          backed', copies', file' := reps', made, written;
        } else if makeCopy {
          StillSaved(logs, log, backed, copies, file);
        }
      }
    }

    /** The body of the do-while loop, and whether it leaves the emulation. */
    method IterateOrLeave(ver: MatGraphVerifier?, makeCopy: bool, reps: seq<nat>, backed: seq<nat>, copies: map<nat, Supernode>,
                          file: seq<Byte>, first: bool, ghost start: Snapshot, ghost logs: seq<Log>)
      returns (st: Status, over: bool, reps': seq<nat>, backed': seq<nat>, copies': map<nat, Supernode>, file': seq<Byte>,
               ghost logs': seq<Log>, ghost ending: Ending)
      requires Steady(ver) && Distinct(reps) && InRange(reps, n) && (reps != [] || n == 0)
      requires Kept(start, logs, reps, makeCopy, backed, copies, file)
      requires (first <==> logs == []) && (logs != [] ==> Last(logs).m.modified) && (failRound2 ==> |logs| <= 1)
      modifies this`dsu, this`forest, this`modified, this`supernodes, Watcher(ver)`boruvkaCc, Watched(ver)
      ensures Steady(ver) && (makeCopy ==> Saved(logs', backed', copies', file'))
      ensures over ==> EndsAs(ver, ending, st, start, logs', reps')
      ensures !over ==>
        && st == Ok && Distinct(reps') && InRange(reps', n) && (modified ==> reps' != [])
        && (if reps != [] then Total(supernodes) < Total(old(supernodes)) else supernodes == old(supernodes) && !modified)
        && logs' != [] && Last(logs').m.modified == modified && (failRound2 ==> |logs'| == 1)
        && Kept(start, logs', reps', makeCopy, backed', copies', file')
    {
      ghost var before, query := Snapshot(dsu, forest, reps, supernodes), [];
      st, reps', backed', copies', file', logs', query := Iterate(ver, makeCopy, reps, backed, copies, file, first, start, logs);
      over, ending := st != Ok, Abandoned(before, query);
      if st == Ok && !first && failRound2 {
        st, over, ending := OutOfSketches, true, Induced;
      }
    }

    /** The do-while loop. It ends on every input, faithful or not. */
    method RunRounds(ver: MatGraphVerifier?, makeCopy: bool)
      returns (st: Status, backed: seq<nat>, copies: map<nat, Supernode>, file: seq<Byte>,
               ghost start: Snapshot, ghost logs: seq<Log>, ghost reps': seq<nat>, ghost ending: Ending)
      requires Steady(ver) && dsu == Singletons(n) && forest == {}
      modifies this`dsu, this`forest, this`modified, this`supernodes, Watcher(ver)`boruvkaCc, Watched(ver)
      ensures Steady(ver)
      ensures StartState(start, n) && start.nodes == old(supernodes)
      ensures EndsAs(ver, ending, st, start, logs, reps')
      ensures makeCopy ==> Saved(logs, backed, copies, file)
    {
      var reps: seq<nat> := seq(n, i requires 0 <= i => i);
      backed, copies, file := [], map[], [];
      var first, again, over := true, true, false;
      start, logs := Snapshot(dsu, forest, reps, supernodes), [];
      while again
        invariant Steady(ver) && Distinct(reps) && InRange(reps, n) && (again ==> reps != [] || n == 0)
        invariant Kept(start, logs, reps, makeCopy, backed, copies, file) && (first <==> logs == [])
        invariant failRound2 ==> |logs| <= 1
        invariant if again then logs != [] ==> Last(logs).m.modified else logs != [] && !Last(logs).m.modified
        decreases Total(supernodes), again
      {
        st, over, reps, backed, copies, file, logs, ending :=
          IterateOrLeave(ver, makeCopy, reps, backed, copies, file, first, start, logs);
        if over {
          reps' := reps;
          return;
        }
        first, again := false, modified;
      }
      st, reps', ending := Ok, reps, Quiet;
    }

    /** The same from a file: the supernodes read take the places of those backed up. */
    method CleanupFromDisk(backed: seq<nat>, file: seq<Byte>) returns (ok: bool, copies: map<nat, Supernode>)
      requires |supernodes| == n && Distinct(backed) && InRange(backed, n)
      modifies this`supernodes
      ensures |supernodes| == n && ok == ParseNodes(cfg, width, |backed|, file).Done?
      ensures ok ==> FromDisk(cfg, backed, ParseNodes(cfg, width, |backed|, file).value, copies)
      ensures forall v: nat | v < n ::
        supernodes[v] == if ok && v in backed && v in copies then copies[v] else old(supernodes)[v]
    {
      var r := DiskBackup.Restore(cfg, width, backed, file);
      copies, ok := map[], r.Done?;
      if !ok { return; }
      copies := CollectCopies(cfg, backed, r.value);
      for k := 0 to |backed|
        invariant |supernodes| == n
        invariant forall v: nat | v < n :: supernodes[v] == if v in backed[..k] then copies[v] else old(supernodes)[v]
      {
        Prefix(backed, k);
        supernodes := supernodes[backed[k] := copies[backed[k]]];
      }
      assert backed[..|backed|] == backed;
    }

    /** Put the copies back. */
    method CleanupCopy(backed: seq<nat>, copies: map<nat, Supernode>)
      requires |supernodes| == n && PoolShaped(cfg, supernodes) && Usable(backed, copies)
      modifies this`supernodes
      ensures |supernodes| == n && PoolShaped(cfg, supernodes)
      ensures forall v: nat | v < n :: supernodes[v] == if v in backed && v in copies then copies[v] else old(supernodes)[v]
    {
      for k := 0 to |backed|
        invariant |supernodes| == n && PoolShaped(cfg, supernodes)
        invariant forall v: nat | v < n :: supernodes[v] == if v in backed[..k] && v in copies then copies[v] else old(supernodes)[v]
      {
        assert backed[k] in backed;
        Prefix(backed, k);
        supernodes := supernodes[backed[k] := copies[backed[k]]];
      }
      assert backed[..|backed|] == backed;
    }

    /** The classes of the union-find, in the order of their roots. */
    method CcFromDsu() returns (answer: seq<set<nat>>)
      requires Valid(dsu) && |dsu.parent| == n
      modifies this`dsu
      ensures OnlyShortened(old(dsu), dsu)
      ensures answer == ClassList(old(dsu), n)
    {
      ghost var d := dsu;
      var groups: map<nat, set<nat>> := map[];
      for i := 0 to n
        invariant OnlyShortened(d, dsu) && |dsu.parent| == n
        invariant Grouped(d, groups, i)
      {
        GroupStep(d, groups, i);
        var r := GetParent(i);
        groups := Insert(groups, r, i);
      }
      answer := [];
      for r := 0 to n
        invariant answer == ClassList(d, r)
        modifies {}
      {
        GroupsListStep(d, groups, r);
        if r in groups { answer := answer + [groups[r]]; }
      }
    }

    /** What the loop's end means on a faithful graph. */
    lemma EndingMeans(ver: MatGraphVerifier?, edges: set<nat>, start: Snapshot, logs: seq<Log>, reps: seq<nat>,
                      ending: Ending, st: Status)
      requires StartState(start, n) && Represented(cfg, edges, start.nodes) && |dsu.parent| == n
      requires EndsAs(ver, ending, st, start, logs, reps) && (ver != null ==> ver.edges == edges)
      ensures Found(cfg, edges, start.nodes, dsu, forest, failRound2, st)
    {
      ghost var end := Snapshot(dsu, forest, reps, supernodes);
      match ending {
        case Quiet =>
          RunFindsComponents(cfg, edges, n, start, logs, end);
          if failRound2 { OneQuietRound(cfg, edges, n, start, logs, end); }
          if AlwaysFails(cfg, edges, n) && n > 0 { HopelessRun(cfg, edges, n, start, logs, end); }
        case Induced =>
          RunKeepsInv(cfg, edges, n, start, logs, end);
          if AlwaysFails(cfg, edges, n) && n > 0 { HopelessRun(cfg, edges, n, start, logs, end); }
        case Abandoned(before, query) =>
          OnlyExcuse(ver, edges, start, logs, before, supernodes, query, st);
          AbandonedMeans(ver, edges, start, logs, before, query);
      }
    }

    /** Having run out, the rounds have united along edges only, and everything if they were but
        one sketch short. */
    lemma AbandonedMeans(ver: MatGraphVerifier?, edges: set<nat>, start: Snapshot, logs: seq<Log>, before: Snapshot,
                         query: seq<Sampled>)
      requires StartState(start, n) && Represented(cfg, edges, start.nodes) && Run(cfg, start, logs, before)
      requires SampledFrom(cfg, before.reps, before.nodes, supernodes, query) && (logs != [] ==> Last(logs).m.modified)
      requires Excused(ver, OutOfSketches, before.reps, query, before.d, before.forest)
      ensures Spanning(dsu, forest) && forest <= edges
      ensures Unfailing(cfg, edges, start.nodes) && n < Pow2(cfg.sketches + 1) ==> Components(dsu, edges)
      ensures AlwaysFails(cfg, edges, n) && n > 0 ==> Scattered(dsu)
    {
      var k :| 0 <= k < |before.reps| && !query[before.reps[k]].Sample?;
      CutShortMeans(cfg, edges, n, start, logs, before, supernodes, query, before.reps[k]);
    }

    /** However the loop ends, the copies still make up for everything merged away. */
    lemma EndingRestorable(ver: MatGraphVerifier?, edges: set<nat>, start: Snapshot, logs: seq<Log>, reps: seq<nat>,
                           ending: Ending, st: Status, copies: map<nat, Supernode>)
      requires StartState(start, n) && Represented(cfg, edges, start.nodes) && CopiesOf(logs, copies)
      requires EndsAs(ver, ending, st, start, logs, reps)
      ensures Restorable(start.nodes, supernodes, Backed(logs), copies)
    {
      match ending {
        case Abandoned(before, query) =>
          AbandonedBackup(edges, start, logs, before, query, copies);
        case _ =>
          RunKeepsBackup(cfg, edges, n, start, logs, Snapshot(dsu, forest, reps, supernodes), copies);
      }
    }

    lemma AbandonedBackup(edges: set<nat>, start: Snapshot, logs: seq<Log>, before: Snapshot, query: seq<Sampled>,
                          copies: map<nat, Supernode>)
      requires StartState(start, n) && Represented(cfg, edges, start.nodes) && Run(cfg, start, logs, before)
      requires SampledFrom(cfg, before.reps, before.nodes, supernodes, query) && CopiesOf(logs, copies)
      ensures Restorable(start.nodes, supernodes, Backed(logs), copies)
    {
      RunKeepsInv(cfg, edges, n, start, logs, before);
      RunKeepsBackup(cfg, edges, n, start, logs, before, copies);
      SampledBackup(cfg, edges, start.nodes, Log(before, supernodes, query, Merging(before.d, {}, [], [], false)),
                    Sides(n, logs), logs == [], Backed(logs), copies);
    }

    /** What a backup always gives back: supernodes of the right shape. */
    ghost predicate Loadable(backed: seq<nat>, copies: map<nat, Supernode>, file: seq<Byte>)
    {
      && Distinct(backed) && InRange(backed, n)
      && if inMem then Usable(backed, copies) else Readable(cfg, width, backed, file)
    }

    /** What it gives back on a faithful graph: all that was merged away. */
    ghost predicate Recoverable(orig: seq<Supernode>, backed: seq<nat>, copies: map<nat, Supernode>, file: seq<Byte>)
      requires Loadable(backed, copies, file)
      reads this
    {
      if inMem then Restorable(orig, supernodes, backed, copies)
      else FileRestorable(cfg, width, orig, supernodes, backed, file)
    }

    lemma SavedLoadable(logs: seq<Log>, backed: seq<nat>, copies: map<nat, Supernode>, file: seq<Byte>)
      requires Saved(logs, backed, copies, file)
      ensures Loadable(backed, copies, file)
    {
      if !inMem { WrittenReadable(cfg, width, logs, file); }
    }

    lemma EndingRecoverable(ver: MatGraphVerifier?, edges: set<nat>, start: Snapshot, logs: seq<Log>, reps: seq<nat>,
                            ending: Ending, st: Status, backed: seq<nat>, copies: map<nat, Supernode>, file: seq<Byte>)
      requires StartState(start, n) && Represented(cfg, edges, start.nodes) && (inMem || AllStorable(cfg, width, start.nodes))
      requires Saved(logs, backed, copies, file) && Loadable(backed, copies, file)
      requires EndsAs(ver, ending, st, start, logs, reps)
      ensures Recoverable(start.nodes, backed, copies, file)
    {
      if inMem {
        EndingRestorable(ver, edges, start, logs, reps, ending, st, copies);
      } else {
        ghost var end := if ending.Abandoned? then ending.before else Snapshot(dsu, forest, reps, supernodes);
        forall read | FromDisk(cfg, backed, ParseNodes(cfg, width, |backed|, file).value, read)
          ensures Restorable(start.nodes, supernodes, backed, read)
        {
          FileHoldsCopies(cfg, width, n, start, logs, end, file, read);
          EndingRestorable(ver, edges, start, logs, reps, ending, st, read);
        }
      }
    }

    /** The supernodes represent a faithful graph, and can be written if they have to be. */
    ghost predicate Intact(edges: set<nat>)
      reads this
    {
      Represented(cfg, edges, supernodes) && (inMem || AllStorable(cfg, width, supernodes))
    }

    /** A verifier that has just been reset for this graph. */
    ghost predicate FreshVerifier(ver: MatGraphVerifier?)
      reads Watcher(ver), Watched(ver)
    {
      ver != null ==> ver.Ready() && ver.n == n && ver.sets.d == Singletons(n)
    }

    /** Shape alone: what every query can rely on. */
    ghost predicate Shape()
      reads this
    {
      n <= NODE_SPACE && |supernodes| == n && PoolShaped(cfg, supernodes)
    }

    /** What the emulation delivers on intact supernodes of a faithful graph. */
    ghost predicate Delivers(edges: set<nat>, orig: seq<Supernode>, makeCopy: bool, st: Status, answer: seq<set<nat>>)
      reads this
    {
      Delivered(cfg, n, edges, orig, supernodes, dsu, forest, failRound2, makeCopy, st, answer)
    }

    /** The connectivity algorithm. It ends on every input. On a faithful graph it returns the
        connected components or runs out of sketches, nothing else; it does not run out when
        no sketch fails and there are more than log2(n) of them; and with makeCopy the
        supernodes keep their content either way. */
    method BoruvkaEmulation(ver: MatGraphVerifier?, makeCopy: bool, ghost edges: set<nat>, ghost faithful: bool)
      returns (st: Status, answer: seq<set<nat>>)
      requires Shape() && FreshVerifier(ver)
      requires faithful ==> Intact(edges) && (ver != null ==> ver.edges == edges)
      modifies this`updateLocked, this`modified, this`dsuValid, this`supernodes, this`dsu, this`forest,
               Watcher(ver)`boruvkaCc, Watched(ver)
      ensures Shape() && InStep(ver) && Spanning(dsu, forest) && updateLocked
      ensures dsuValid == (st == Ok || old(dsuValid))
      ensures st == Ok ==> answer == ClassList(dsu, n)
      ensures faithful ==> Delivers(edges, old(supernodes), makeCopy, st, answer)
    {
      updateLocked := true;
      dsu, forest := Singletons(n), {};
      SpanningSingletons(n);
      st := RoundsWithBackup(ver, makeCopy, edges, faithful);
      answer := [];
      if st == Ok {
        dsuValid := true;
        answer := Answer(ver, edges);
      }
    }

    /** The rounds, and undoing them from the backup when they end, however they end. */
    method RoundsWithBackup(ver: MatGraphVerifier?, makeCopy: bool, ghost edges: set<nat>, ghost faithful: bool)
      returns (st: Status)
      requires Shape() && Steady(ver) && dsu == Singletons(n) && forest == {}
      requires faithful ==> Intact(edges) && (ver != null ==> ver.edges == edges)
      modifies this`modified, this`supernodes, this`dsu, this`forest, Watcher(ver)`boruvkaCc, Watched(ver)
      ensures Shape() && InStep(ver) && Spanning(dsu, forest)
      ensures faithful ==>
        && Found(cfg, edges, old(supernodes), dsu, forest, failRound2, st)
        && (makeCopy ==> Restored(old(supernodes), supernodes))
    {
      ghost var orig := supernodes;
      var backed, copies, file;
      st, backed, copies, file := RoundsToTheEnd(ver, makeCopy, edges, faithful);
      if makeCopy { Cleanup(backed, copies, file, orig, faithful); }
    }

    method RoundsToTheEnd(ver: MatGraphVerifier?, makeCopy: bool, ghost edges: set<nat>, ghost faithful: bool)
      returns (st: Status, backed: seq<nat>, copies: map<nat, Supernode>, file: seq<Byte>)
      requires Shape() && Steady(ver) && dsu == Singletons(n) && forest == {}
      requires faithful ==> Intact(edges) && (ver != null ==> ver.edges == edges)
      modifies this`modified, this`supernodes, this`dsu, this`forest, Watcher(ver)`boruvkaCc, Watched(ver)
      ensures Shape() && InStep(ver) && Spanning(dsu, forest) && (makeCopy ==> Loadable(backed, copies, file))
      ensures faithful ==>
        && Found(cfg, edges, old(supernodes), dsu, forest, failRound2, st)
        && (makeCopy ==> Recoverable(old(supernodes), backed, copies, file))
    {
      ghost var start, logs, reps, ending;
      st, backed, copies, file, start, logs, reps, ending := RunRounds(ver, makeCopy);
      if makeCopy { SavedLoadable(logs, backed, copies, file); }
      if faithful {
        EndingMeans(ver, edges, start, logs, reps, ending, st);
        if makeCopy { EndingRecoverable(ver, edges, start, logs, reps, ending, st, backed, copies, file); }
      }
    }

    /** cleanup_copy: take the backed-up supernodes back, from memory or from the file. */
    method Cleanup(backed: seq<nat>, copies: map<nat, Supernode>, file: seq<Byte>, ghost orig: seq<Supernode>, ghost faithful: bool)
      requires |supernodes| == n && PoolShaped(cfg, supernodes) && Loadable(backed, copies, file)
      requires faithful ==> Recoverable(orig, backed, copies, file)
      modifies this`supernodes
      ensures |supernodes| == n && PoolShaped(cfg, supernodes)
      ensures faithful ==> Restored(orig, supernodes)
    {
      ghost var nodes := supernodes;
      if inMem {
        CleanupCopy(backed, copies);
        if faithful { PutBack(orig, nodes, backed, copies, supernodes); }
      } else {
        var ok, read := CleanupFromDisk(backed, file);
        ReadShaped(cfg, backed, ParseNodes(cfg, width, |backed|, file).value, read, nodes, supernodes);
        if faithful { PutBack(orig, nodes, backed, read, supernodes); }
      }
    }

    /** Read the answer off; only paths change. */
    method Answer(ver: MatGraphVerifier?, ghost edges: set<nat>) returns (answer: seq<set<nat>>)
      requires InStep(ver) && Spanning(dsu, forest)
      modifies this`dsu
      ensures InStep(ver) && Spanning(dsu, forest)
      ensures OnlyShortened(old(dsu), dsu) && answer == ClassList(dsu, n)
      ensures Components(old(dsu), edges) ==> Components(dsu, edges) && ListsComponents(answer, edges, n)
    {
      answer := CcFromDsu();
      SpanningSameRoots(old(dsu), dsu, forest);
      SameClassList(old(dsu), dsu, n);
      if Components(old(dsu), edges) { ClassListIsComponents(old(dsu), edges); }
      if ver != null { SamePartitionShortened(old(dsu), dsu, ver.sets.d, ver.sets.d); }
    }

    // ---------- the public operations ----------

    ghost function Edges(): set<nat>
      reads this
    {
      Toggled(stream)
    }

    /** No half-update is lost, and the supernodes hold those they have received. */
    ghost predicate Accounted()
      reads this
    {
      Ledger(cfg, n, supernodes, gutter, stream, held, updateLocked, sound) && (inMem || Writable(cfg, width))
    }

    /** The flag dsuValid means that the cached answer is right. */
    ghost predicate CacheHonest()
      reads this
    {
      CacheOk(n, dsu, forest, sound && dsuValid, Edges())
    }

    ghost predicate Healthy()
      reads this
    {
      Accounted() && CacheHonest()
    }

    /** What holds after every call, even one that leaves a stale cache. */
    ghost predicate Standing()
      reads this
    {
      Accounted() && CacheOk(n, dsu, forest, false, Edges())
    }

    constructor (n: nat, cfg: Config, inMem: bool, width: nat)
      requires n <= NODE_SPACE && (inMem || Writable(cfg, width))
      ensures Healthy() && this.n == n && this.cfg == cfg && this.inMem == inMem && this.width == width
      ensures stream == [] && sound && dsuValid && !updateLocked && !failRound2
      ensures gutter == [] && dsu == Singletons(n) && forest == {} && supernodes == seq(n, i => Fresh(cfg))
    {
      this.n, this.cfg, this.inMem, this.width := n, cfg, inMem, width;
      updateLocked, modified, dsuValid, failRound2 := false, false, true, false;
      supernodes := seq(n, i => Fresh(cfg));
      dsu, forest := Singletons(n), {};
      gutter, stream, sound := [], [], true;
      held := seq(n, v => {});
      new;
      CacheStart(n);
      FreshIsEmpty(cfg);
    }

    /** Buffer both half-updates. */
    method Buffer(u: nat, v: nat)
      requires Accounted() && !updateLocked && u < n && v < n
      modifies this`gutter, this`stream
      ensures Accounted() && stream == old(stream) + [(u, v)] && gutter == old(gutter) + [(u, v), (v, u)]
      ensures Edges() == ToggleEdge(old(Edges()), u, v)
    {
      var two: seq<(nat, nat)> := [(u, v), (v, u)];
      OwedStep(held, gutter, stream, two, u, v);
      NodesBelowStep(gutter, two, n);
      NodesBelowStep(stream, [(u, v)], n);
      gutter := gutter + two;
      stream := stream + [(u, v)];
    }

    /** Buffer the update, and keep a right cached answer right or give it up. */
    method Update(u: nat, v: nat) returns (ok: bool)
      requires Standing() && u < n && v < n
      modifies this`gutter, this`dsu, this`forest, this`dsuValid, this`stream
      ensures Standing() && ok == !updateLocked && (old(Healthy()) ==> Healthy())
      ensures stream == if ok then old(stream) + [(u, v)] else old(stream)
      ensures Edges() == if ok then ToggleEdge(old(Edges()), u, v) else old(Edges())
      ensures gutter == if ok then old(gutter) + [(u, v), (v, u)] else old(gutter)
      ensures dsuValid == (old(dsuValid) && !(ok && Id(u, v) in old(forest)))
      ensures if ok && dsuValid then United(old(dsu), dsu, u, v) && forest == old(forest) + NewLink(old(dsu), u, v)
              else dsu == old(dsu) && forest == old(forest)
    {
      if updateLocked { return false; }
      ghost var edges, right := Edges(), sound && dsuValid && CacheHonest();
      Buffer(u, v);
      GiveUp(n, dsu, forest, right, edges, Edges());
      if dsuValid {
        if Id(u, v) in forest {
          dsuValid := false;
        } else {
          EagerUnion(u, v, edges, right);
        }
      }
      return true;
    }

    /** Unite the endpoints, growing the forest if they were apart. */
    method EagerUnion(u: nat, v: nat, ghost edges: set<nat>, ghost right: bool)
      requires CacheOk(n, dsu, forest, right, edges) && u < n && v < n && Id(u, v) !in forest
      modifies this`dsu, this`forest
      ensures CacheOk(n, dsu, forest, right, ToggleEdge(edges, u, v))
      ensures United(old(dsu), dsu, u, v) && forest == old(forest) + NewLink(old(dsu), u, v)
    {
      var a := GetParent(u);
      var b := GetParent(v);
      ghost var d, mid := old(dsu), dsu;
      SameCache(n, d, mid, forest, right, edges);
      if a == b {
        CacheStays(n, d, mid, forest, edges, right, u, v);
        return;
      }
      if dsu.size[a] < dsu.size[b] { a, b := b, a; }
      CacheGrows(n, d, mid, forest, edges, right, u, v, a, b);
      dsu := Link(dsu, a, b);
      forest := forest + {Id(u, v)};
    }

    /** What a worker does with one batch: build the delta, add it. */
    method BatchUpdate(b: Batch) returns (ok: bool)
      requires Shape() && b.src < n
      modifies this`supernodes
      ensures Shape() && ok == !updateLocked
      ensures supernodes == if ok then ApplyBatch(cfg, old(supernodes), b) else old(supernodes)
    {
      if updateLocked { return false; }
      supernodes := ApplyBatch(cfg, supernodes, b);
      return true;
    }

    /** The workers' loop over the batches; empty ones are skipped. */
    method ApplyBatches(batches: seq<Batch>)
      requires Shape() && !updateLocked && BatchesInRange(batches, n)
      modifies this`supernodes
      ensures Shape() && supernodes == ApplyAll(cfg, old(supernodes), batches)
    {
      ghost var start := supernodes;
      for i := 0 to |batches|
        invariant Shape() && supernodes == ApplyAll(cfg, start, batches[..i])
      {
        assert batches[..i + 1][..i] == batches[..i];
        if batches[i].dsts != [] {
          var _ := BatchUpdate(batches[i]);
        } else {
          EmptyBatch(cfg, supernodes, batches[i]);
        }
      }
      assert batches[..|batches|] == batches;
    }

    /** Drain the buffer: the guttering system may have grouped and reordered the half-updates
        in any way before the workers apply them. */
    method Flush(batches: seq<Batch>)
      requires Accounted() && !updateLocked && Splits(batches)
      modifies this`supernodes, this`gutter, this`held, this`sound
      ensures Accounted() && gutter == [] && supernodes == ApplyAll(cfg, old(supernodes), batches)
      ensures sound == (old(sound) && NoCollisions(cfg, batches))
      ensures held == Cuts(n, Edges())
    {
      ghost var clean, cuts := sound && NoCollisions(cfg, batches), Cuts(n, Edges());
      FlushLedger(cfg, n, supernodes, gutter, stream, held, sound, batches, cuts, clean);
      ApplyAndBook(batches, cuts, clean);
    }

    /** The workers take the batches, and the books say so. */
    method ApplyAndBook(batches: seq<Batch>, ghost cuts: seq<set<nat>>, ghost clean: bool)
      requires Shape() && !updateLocked && BatchesInRange(batches, n) && (inMem || Writable(cfg, width))
      requires Ledger(cfg, n, ApplyAll(cfg, supernodes, batches), [], stream, cuts, false, clean)
      modifies this`supernodes, this`gutter, this`held, this`sound
      ensures Accounted() && gutter == [] && supernodes == ApplyAll(cfg, old(supernodes), batches)
      ensures sound == clean && held == cuts
    {
      ApplyBatches(batches);
      sound, held, gutter := clean, cuts, [];
    }

    /** The split of the buffered half-updates that a flush will see. */
    ghost predicate Splits(batches: seq<Batch>)
      reads this
    {
      BatchesInRange(batches, n) && multiset(Flatten(batches)) == multiset(gutter)
    }

    /** A verifier reset on the current graph. */
    ghost predicate KnowsGraph(ver: MatGraphVerifier?)
      reads this, Watcher(ver), Watched(ver)
    {
      FreshVerifier(ver) && (ver != null ==> ver.edges == Edges())
    }

    /** Run the emulation on a drained graph. The ghost flag is kept only if the graph is
        faithful and its supernodes are intact. */
    method Emulate(ver: MatGraphVerifier?, makeCopy: bool) returns (st: Status, answer: seq<set<nat>>)
      requires Accounted() && KnowsGraph(ver) && gutter == [] && (!updateLocked ==> held == Cuts(n, Edges()))
      modifies this`updateLocked, this`modified, this`dsuValid, this`supernodes, this`dsu, this`forest, this`sound,
               Watcher(ver)`boruvkaCc, Watched(ver)
      ensures Accounted() && updateLocked && Spanning(dsu, forest) && |dsu.parent| == n
      ensures ver != null ==> ver.Ready()
      ensures dsuValid == (st == Ok || old(dsuValid))
      ensures sound == (old(sound) && !old(updateLocked) && FaithfulGraph(cfg, Edges(), n))
      ensures sound ==> (makeCopy ==> Restored(old(supernodes), supernodes)) && Answers(st, answer)
    {
      ghost var orig := supernodes;
      st, answer := EmulateAndLock(ver, makeCopy);
      if sound { FoundAnswers(cfg, Edges(), n, orig, supernodes, held, dsu, forest, failRound2, makeCopy, st, answer); }
    }

    method EmulateAndLock(ver: MatGraphVerifier?, makeCopy: bool) returns (st: Status, answer: seq<set<nat>>)
      requires Accounted() && KnowsGraph(ver) && gutter == [] && (!updateLocked ==> held == Cuts(n, Edges()))
      modifies this`updateLocked, this`modified, this`dsuValid, this`supernodes, this`dsu, this`forest, this`sound,
               Watcher(ver)`boruvkaCc, Watched(ver)
      ensures Accounted() && updateLocked && Spanning(dsu, forest) && |dsu.parent| == n
      ensures ver != null ==> ver.Ready()
      ensures dsuValid == (st == Ok || old(dsuValid))
      ensures sound == (old(sound) && !old(updateLocked) && FaithfulGraph(cfg, Edges(), n))
      ensures sound ==> Delivers(Edges(), old(supernodes), makeCopy, st, answer)
    {
      ghost var ok := sound && !updateLocked && FaithfulGraph(cfg, Edges(), n);
      if ok { FlushedIntact(); }
      st, answer := BoruvkaEmulation(ver, makeCopy, Edges(), ok);
      LockedLedger(cfg, n, old(supernodes), supernodes, stream, held, old(updateLocked), sound, ok);
      sound := ok;
    }

    lemma FlushedIntact()
      requires Accounted() && sound && !updateLocked && held == Cuts(n, Edges()) && FaithfulGraph(cfg, Edges(), n)
      ensures Intact(Edges())
    {
      FilledRepresents(cfg, Edges(), n, supernodes, held);
      if !inMem { FilledStorable(cfg, width, Edges(), n, supernodes); }
    }

    ghost predicate Answers(st: Status, answer: seq<set<nat>>)
      reads this
    {
      RightAnswer(cfg, n, Edges(), dsu, forest, failRound2, st, answer)
    }

    /** force_flush and pause_workers. After the graph has been locked nothing is buffered. */
    method Drain(batches: seq<Batch>)
      requires Accounted() && Splits(batches)
      modifies this`supernodes, this`gutter, this`held, this`sound
      ensures Accounted() && gutter == [] && (!updateLocked ==> held == Cuts(n, Edges()))
      ensures sound && !updateLocked ==> Filled(cfg, supernodes, held)
      ensures if updateLocked then sound == old(sound) && supernodes == old(supernodes)
              else sound == (old(sound) && NoCollisions(cfg, batches)) && supernodes == ApplyAll(cfg, old(supernodes), batches)
      ensures sound && !updateLocked <==> old(sound) && !updateLocked && NoCollisions(cfg, batches)
    {
      if !updateLocked { Flush(batches); }
    }

    /** reset_query_state on every supernode. */
    method ResetSupernodes()
      requires |supernodes| == n
      modifies this`supernodes
      ensures |supernodes| == n && forall v: nat | v < n :: supernodes[v] == ResetNode(old(supernodes)[v])
    {
      for i := 0 to n
        invariant |supernodes| == n
        invariant forall v: nat | v < n :: supernodes[v] == if v < i then ResetNode(old(supernodes)[v]) else old(supernodes)[v]
      {
        supernodes := supernodes[i := ResetNode(supernodes[i])];
      }
    }

    /** Resume after a query with backups: on a sound run the supernodes are what they were
        right after the flush. */
    method Resume(ghost orig: seq<Supernode>)
      requires Accounted() && updateLocked
      requires sound ==> Filled(cfg, orig, held) && Restored(orig, supernodes)
      modifies this`supernodes, this`updateLocked
      ensures Accounted() && !updateLocked && forall v: nat | v < n :: supernodes[v] == ResetNode(old(supernodes)[v])
      ensures sound ==> supernodes == orig
    {
      ghost var merged := supernodes;
      ResetSupernodes();
      ResetShaped(cfg, merged, supernodes);
      if sound { AllRestored(cfg, orig, held, merged, supernodes); }
      updateLocked := false;
    }

    /** On the cached path the verifier replays the spanning forest, in any order. A right cache
        passes: the forest is acyclic, so every edge joins two classes. */
    method VerifyForest(ver: MatGraphVerifier) returns (ok: bool)
      requires Simple(forest, n) && n <= NODE_SPACE && FreshVerifier(ver)
      modifies ver`boruvkaCc, ver.sets
      ensures ver.Ready()
      ensures ok <==> Acyclic(forest) && forest <= ver.edges
    {
      var todo := forest;
      ghost var done: set<nat> := {};
      SpanningSingletons(n);
      while todo != {}
        invariant ver.Ready() && todo <= forest && done == forest - todo
        invariant Components(ver.sets.d, done) && Acyclic(done) && done <= ver.edges
        decreases todo
      {
        var e :| e in todo;
        todo := todo - {e};
        ghost var d := ver.sets.d;
        ForestEdge(forest, n, done, e, d, ver.edges);
        ok := ver.VerifyEdge(Src(e), Dst(e));
        if !ok { return; }
        ComponentsUnite(d, ver.sets.d, done, Src(e), Dst(e));
        done := done + {e};
      }
      assert done == forest;
      return true;
    }

    /** The cached answer, checked by the verifier if there is one. */
    method CachedComponents(ver: MatGraphVerifier?) returns (st: Status, answer: seq<set<nat>>)
      requires CacheOk(n, dsu, forest, false, Edges()) && n <= NODE_SPACE && KnowsGraph(ver)
      modifies this`dsu, Watcher(ver)`boruvkaCc, Watched(ver)
      ensures CacheOk(n, dsu, forest, false, Edges()) && (CacheHonest() <==> old(CacheHonest()))
      ensures old(CacheHonest()) && sound && dsuValid ==> st == Ok && ListsComponents(answer, Edges(), n)
      ensures ver != null && st == Ok ==> ListsComponents(answer, Edges(), n)
      ensures ver == null ==> st == Ok && answer == ClassList(old(dsu), n)
    {
      answer := [];
      if ver != null {
        var passed := VerifyForest(ver);
        if !passed { return BadEdge, []; }
      }
      answer := CcFromDsu();
      SameCache(n, old(dsu), dsu, forest, sound && dsuValid, Edges());
      if CacheHonest() && sound && dsuValid { ClassListIsComponents(old(dsu), Edges()); }
      st := CheckSoln(ver, answer);
    }

    method CheckSoln(ver: MatGraphVerifier?, answer: seq<set<nat>>) returns (st: Status)
      requires ver != null ==> ver.Ready() && ver.n == n
      ensures st == if ver == null || ListsComponents(answer, ver.edges, n) then Ok else WrongAnswer
    {
      st := Ok;
      if ver != null {
        var ok := ver.VerifySoln(answer);
        if !ok { st := WrongAnswer; }
      }
    }

    /** The query proper: drain, run the emulation, and resume if there is more to come. With
        cont the supernodes are afterwards exactly what the flush made them, whether or not
        the query succeeded. */
    method QuerySketches(cont: bool, ver: MatGraphVerifier?, batches: seq<Batch>)
      returns (st: Status, answer: seq<set<nat>>)
      requires Accounted() && KnowsGraph(ver) && Splits(batches)
      modifies this`updateLocked, this`modified, this`dsuValid, this`supernodes, this`dsu, this`forest,
               this`gutter, this`held, this`sound, Watcher(ver)`boruvkaCc, Watched(ver)
      ensures Accounted() && gutter == [] && updateLocked == !cont && Spanning(dsu, forest) && |dsu.parent| == n
      ensures sound == (old(sound) && !old(updateLocked) && NoCollisions(cfg, batches) && FaithfulGraph(cfg, Edges(), n))
      ensures sound && cont ==> supernodes == ApplyAll(cfg, old(supernodes), batches)
      ensures sound ==> Answers(st, answer)
      ensures dsuValid == (st == Ok || old(dsuValid))
      ensures ver != null ==> ver.Ready()
    {
      Drain(batches);
      st, answer := EmulateAndResume(cont, ver);
    }

    /** What follows the drain. */
    method EmulateAndResume(cont: bool, ver: MatGraphVerifier?) returns (st: Status, answer: seq<set<nat>>)
      requires Accounted() && KnowsGraph(ver) && gutter == [] && (!updateLocked ==> held == Cuts(n, Edges()))
      modifies this`updateLocked, this`modified, this`dsuValid, this`supernodes, this`dsu, this`forest, this`sound,
               Watcher(ver)`boruvkaCc, Watched(ver)
      ensures Accounted() && updateLocked == !cont && Spanning(dsu, forest) && |dsu.parent| == n
      ensures sound == (old(sound) && !old(updateLocked) && FaithfulGraph(cfg, Edges(), n))
      ensures sound && cont ==> supernodes == old(supernodes)
      ensures sound ==> Answers(st, answer)
      ensures dsuValid == (st == Ok || old(dsuValid))
      ensures ver != null ==> ver.Ready()
    {
      ghost var flushed := supernodes;
      st, answer := Emulate(ver, cont);
      if cont { Resume(flushed); }
    }

    /** With a verifier attached, or on a sound run unless it takes the answer from a stale cache,
        the answer is the connected components of the toggled graph, and then the only failure is
        want of sketches. Afterwards the cache is honest exactly if it does not claim to be valid
        with classes left to unite. That is so after every call that reads the sketches and succeeds
        or finds the flag down, and on every sound one on a graph whose sketches never fail and are
        at most one short, even if it throws; a call that uses the cache leaves it as it is. */
    method ConnectedComponents(cont: bool, ver: MatGraphVerifier?, batches: seq<Batch>)
      returns (st: Status, answer: seq<set<nat>>)
      requires Standing() && KnowsGraph(ver) && Splits(batches)
      modifies this`updateLocked, this`modified, this`dsuValid, this`supernodes, this`dsu, this`forest,
               this`gutter, this`held, this`sound, Watcher(ver)`boruvkaCc, Watched(ver)
      ensures Standing() && (st == Ok ==> dsuValid)
      ensures sound && old(dsuValid && cont && !failRound2 ==> CacheHonest()) ==>
        && st in {Ok, OutOfSketches} && (st == Ok ==> ListsComponents(answer, Edges(), n))
        && (CacheHonest() <==> (dsuValid ==> Active(Edges(), dsu) == {}))
        && (NeverFails(cfg, Edges()) && n < Pow2(cfg.sketches + 1) && !failRound2 ==> CacheHonest())
      ensures st == Ok && ver != null ==> ListsComponents(answer, Edges(), n)
      ensures if old(dsuValid) && cont && !failRound2
              then
                && sound == old(sound) && updateLocked == old(updateLocked) && gutter == old(gutter)
                && supernodes == old(supernodes) && forest == old(forest) && dsuValid
                && (CacheHonest() <==> old(CacheHonest())) && (sound && old(CacheHonest()) ==> st == Ok)
                && (ver == null ==> st == Ok && answer == ClassList(old(dsu), n))
              else
                && sound == (old(sound) && !old(updateLocked) && NoCollisions(cfg, batches) && FaithfulGraph(cfg, Edges(), n))
                && updateLocked == !cont && gutter == [] && (old(dsuValid) ==> dsuValid)
                && (dsuValid && st == OutOfSketches ==> old(dsuValid))
                && (sound && cont ==> supernodes == ApplyAll(cfg, old(supernodes), batches))
                && (sound && NeverFails(cfg, Edges()) && n < Pow2(cfg.sketches) && !failRound2 ==> st == Ok)
                && (sound && AlwaysFails(cfg, Edges(), n) && n > 0 ==> st == OutOfSketches && Scattered(dsu))
                && (sound && failRound2 && Edges() != {} ==> st == OutOfSketches)
                && (!sound || st == Ok || !old(dsuValid) ==> CacheHonest())
    {
      if dsuValid && cont && !failRound2 {
        st, answer := TakeCached(ver);
      } else {
        st, answer := UncachedComponents(cont, ver, batches);
      }
    }

    /** The part that does nothing else. */
    method TakeCached(ver: MatGraphVerifier?) returns (st: Status, answer: seq<set<nat>>)
      requires Standing() && KnowsGraph(ver) && dsuValid
      modifies this`dsu, Watcher(ver)`boruvkaCc, Watched(ver)
      ensures Standing() && (CacheHonest() <==> old(CacheHonest()))
      ensures sound && old(CacheHonest()) ==> st == Ok && ListsComponents(answer, Edges(), n) && Active(Edges(), dsu) == {}
      ensures st == Ok && ver != null ==> ListsComponents(answer, Edges(), n)
      ensures ver == null ==> st == Ok && answer == ClassList(old(dsu), n)
    {
      st, answer := CachedComponents(ver);
      ToggledSimple(stream, n);
      if sound && CacheHonest() { NoneActiveIff(Edges(), dsu, forest); }
    }

    /** The part of connected_components that does not look at the cache. */
    method UncachedComponents(cont: bool, ver: MatGraphVerifier?, batches: seq<Batch>)
      returns (st: Status, answer: seq<set<nat>>)
      requires Accounted() && KnowsGraph(ver) && Splits(batches)
      modifies this`updateLocked, this`modified, this`dsuValid, this`supernodes, this`dsu, this`forest,
               this`gutter, this`held, this`sound, Watcher(ver)`boruvkaCc, Watched(ver)
      ensures Standing() && gutter == [] && updateLocked == !cont
      ensures sound == (old(sound) && !old(updateLocked) && NoCollisions(cfg, batches) && FaithfulGraph(cfg, Edges(), n))
      ensures sound && cont ==> supernodes == ApplyAll(cfg, old(supernodes), batches)
      ensures sound ==>
        && st in {Ok, OutOfSketches} && (st == Ok ==> ListsComponents(answer, Edges(), n))
        && (NeverFails(cfg, Edges()) && n < Pow2(cfg.sketches + 1) && !failRound2 ==> CacheHonest())
        && (NeverFails(cfg, Edges()) && n < Pow2(cfg.sketches) && !failRound2 ==> st == Ok)
        && (AlwaysFails(cfg, Edges(), n) && n > 0 ==> st == OutOfSketches && Scattered(dsu))
        && (failRound2 && Edges() != {} ==> st == OutOfSketches)
      ensures st == Ok && ver != null ==> ListsComponents(answer, Edges(), n)
      ensures (st == Ok || old(dsuValid) ==> dsuValid) && (dsuValid && st in {Ok, OutOfSketches} ==> st == Ok || old(dsuValid))
      ensures CacheHonest() <==> (sound && dsuValid ==> Active(Edges(), dsu) == {})
      ensures !sound || st == Ok || !old(dsuValid) ==> CacheHonest()
    {
      st, answer := QuerySketches(cont, ver, batches);
      ToggledSimple(stream, n);
      CacheOkIff(n, dsu, forest, sound && dsuValid, Edges());
      if sound { NoneActiveIff(Edges(), dsu, forest); }
      if st == Ok { st := CheckSoln(ver, answer); }
    }

    /** Whether a and b are connected. The cached path changes nothing but paths. Otherwise the
        graph is flushed and open for updates again, its supernodes are what the flush made them,
        and the union-find is reset although dsuValid has just been set, so the cache is then right
        exactly for a graph without edges. */
    method PointQuery(a: nat, b: nat, ver: MatGraphVerifier?, batches: seq<Batch>) returns (st: Status, same: bool)
      requires Standing() && KnowsGraph(ver) && Splits(batches) && a < n && b < n
      modifies this`updateLocked, this`modified, this`dsuValid, this`supernodes, this`dsu, this`forest,
               this`gutter, this`held, this`sound, Watcher(ver)`boruvkaCc, Watched(ver)
      ensures Standing() && (st == Ok ==> dsuValid)
      ensures sound && old(dsuValid ==> CacheHonest()) ==>
        && st in {Ok, OutOfSketches} && (st == Ok ==> (same <==> Connected(Edges(), a, b)))
        && (st == Ok ==> SpansGraph(forest, Edges(), n))
      ensures if old(dsuValid)
              then
                && sound == old(sound) && updateLocked == old(updateLocked) && gutter == old(gutter)
                && supernodes == old(supernodes) && forest == old(forest) && dsuValid
                && (CacheHonest() <==> old(CacheHonest())) && (sound && old(CacheHonest()) ==> st == Ok)
                && (ver == null ==> st == Ok && (same <==> Root(old(dsu), a) == Root(old(dsu), b)))
              else
                && sound == (old(sound) && !old(updateLocked) && NoCollisions(cfg, batches) && FaithfulGraph(cfg, Edges(), n))
                && !updateLocked && gutter == [] && dsu == Singletons(n) && dsuValid == (st == Ok)
                && (sound ==> supernodes == ApplyAll(cfg, old(supernodes), batches))
                && (sound && NeverFails(cfg, Edges()) && n < Pow2(cfg.sketches) && !failRound2 ==> st == Ok)
                && (CacheHonest() <==> (sound && st == Ok ==> Edges() == {}))
    {
      if dsuValid {
        st, same := CachedPair(a, b, ver);
      } else {
        st, same := FreshPair(a, b, ver, batches);
        ForgetClasses(st);
      }
    }

    method FreshPair(a: nat, b: nat, ver: MatGraphVerifier?, batches: seq<Batch>) returns (st: Status, same: bool)
      requires Accounted() && KnowsGraph(ver) && Splits(batches) && a < n && b < n
      modifies this`updateLocked, this`modified, this`dsuValid, this`supernodes, this`dsu, this`forest,
               this`gutter, this`held, this`sound, Watcher(ver)`boruvkaCc, Watched(ver)
      ensures Accounted() && Simple(forest, n) && dsuValid == (st == Ok || old(dsuValid)) && !updateLocked && gutter == []
      ensures sound ==> st in {Ok, OutOfSketches} && supernodes == ApplyAll(cfg, old(supernodes), batches)
      ensures sound && st == Ok ==> SpansGraph(forest, Edges(), n) && (same <==> Connected(Edges(), a, b))
      ensures sound == (old(sound) && !old(updateLocked) && NoCollisions(cfg, batches) && FaithfulGraph(cfg, Edges(), n))
      ensures sound && NeverFails(cfg, Edges()) && n < Pow2(cfg.sketches) && !failRound2 ==> st == Ok
    {
      var answer;
      st, answer := QuerySketches(true, ver, batches);
      if sound && st == Ok { SpanningSpans(dsu, forest, Edges()); }
      same := SharesRoot(a, b);
    }

    method SharesRoot(a: nat, b: nat) returns (same: bool)
      requires Valid(dsu) && |dsu.parent| == n && a < n && b < n
      modifies this`dsu
      ensures OnlyShortened(old(dsu), dsu)
      ensures same <==> Root(old(dsu), a) == Root(old(dsu), b)
    {
      var x := GetParent(a);
      var y := GetParent(b);
      same := x == y;
    }

    /** The reset at the end of point_query. */
    method ForgetClasses(ghost st: Status)
      requires Accounted() && Simple(forest, n) && dsuValid == (st == Ok)
      requires sound && st == Ok ==> forest <= Edges()
      modifies this`dsu
      ensures Standing() && dsu == Singletons(n)
      ensures Healthy() <==> (sound && st == Ok ==> Edges() == {})
    {
      dsu := Singletons(n);
      SpanningSingletons(n);
      ToggledSimple(stream, n);
      if sound && st == Ok { SingletonsRightIff(n, forest, Edges()); }
    }

    method CachedPair(a: nat, b: nat, ver: MatGraphVerifier?) returns (st: Status, same: bool)
      requires CacheOk(n, dsu, forest, false, Edges()) && n <= NODE_SPACE && KnowsGraph(ver) && a < n && b < n
      modifies this`dsu, Watcher(ver)`boruvkaCc, Watched(ver)
      ensures CacheOk(n, dsu, forest, false, Edges()) && (CacheHonest() <==> old(CacheHonest()))
      ensures old(CacheHonest()) && sound && dsuValid ==>
        st == Ok && (same <==> Connected(Edges(), a, b)) && SpansGraph(forest, Edges(), n)
      ensures ver == null ==> st == Ok && (same <==> Root(old(dsu), a) == Root(old(dsu), b))
    {
      same := false;
      if ver != null {
        var passed := VerifyForest(ver);
        if !passed { return BadEdge, false; }
      }
      same := SharesRoot(a, b);
      if CacheHonest() && sound && dsuValid { SpanningSpans(dsu, forest, Edges()); }
      SameCache(n, old(dsu), dsu, forest, sound && dsuValid, Edges());
      st := Ok;
    }
  }

  datatype Ending =
    | Quiet                                                // a round modified nothing
    | Induced                                              // the verification build made it fail
    | Abandoned(before: Snapshot, query: seq<Sampled>)     // a round could not be completed

  /** src/graph.cpp:205-214: drop failed representatives that were merged into, then add
      everything that was merged into. */
  method KeepReps(failed: seq<nat>, toMerge: seq<seq<nat>>) returns (kept: seq<nat>)
    requires Distinct(failed) && forall k | 0 <= k < |failed| :: failed[k] < |toMerge|
    ensures NextReps(failed, toMerge, kept, |failed|, |toMerge|)
  {
    kept := [];
    for k := 0 to |failed|
      invariant NextReps(failed, toMerge, kept, k, 0)
    {
      NextRepsFailed(failed, toMerge, kept, k);
      if toMerge[failed[k]] == [] { kept := kept + [failed[k]]; }
    }
    for a := 0 to |toMerge|
      invariant NextReps(failed, toMerge, kept, |failed|, a)
    {
      NextRepsMerged(failed, toMerge, kept, a);
      if toMerge[a] != [] { kept := kept + [a]; }
    }
  }

  method FinishRound(query: seq<Sampled>, reps: seq<nat>, m: Merging, ghost d0: Dsu, ghost forest0: set<nat>)
    returns (kept: seq<nat>)
    requires Partial(d0, forest0, reps, query, |reps|, m) && Distinct(reps)
    requires forall k | 0 <= k < |reps| :: reps[k] < |m.toMerge|
    ensures RoundShape(d0, forest0, reps, query, m.(reps := kept))
  {
    assert reps[..|reps|] == reps;
    FailedOnesMembers(reps, query);
    assert forall k | 0 <= k < |m.reps| :: m.reps[k] in m.reps;
    kept := KeepReps(m.reps, m.toMerge);
    PartialDone(d0, forest0, reps, query, m, kept);
  }

  lemma SampledStep(cfg: Config, reps: seq<nat>, start: seq<Supernode>, nodes: seq<Supernode>, query: seq<Sampled>, k: nat)
    requires k < |reps| && Distinct(reps) && InRange(reps, |nodes|)
    requires SampledFrom(cfg, reps[..k], start, nodes, query)
    ensures reps[k] !in reps[..k] && nodes[reps[k]] == start[reps[k]]
    ensures var i := reps[k];
            var (node, out) := SampleNode(cfg, nodes[i]);
            SampledFrom(cfg, reps[..k + 1], start, nodes[i := node], query[i := out])
  {
    Prefix(reps, k);
    assert forall j | 0 <= j < k :: reps[j] != reps[k];
  }

  /** The first k representatives are done, the others have not started. */
  ghost predicate DoneUpTo(reps: seq<nat>, toMerge: seq<seq<nat>>, done: seq<nat>, k: nat)
  {
    && k <= |reps| && |done| == |toMerge|
    && forall v: nat | v < |done| :: done[v] == if v in reps[..k] then |toMerge[v]| else 0
  }

  lemma NotYetDone(cfg: Config, start: seq<Supernode>, reps: seq<nat>, toMerge: seq<seq<nat>>, done: seq<nat>, nodes: seq<Supernode>, k: nat)
    requires Reached(cfg, start, toMerge, done, nodes) && DoneUpTo(reps, toMerge, done, k)
    requires k < |reps| && Distinct(reps) && InRange(reps, |nodes|)
    ensures done[reps[k]] == 0 && nodes[reps[k]] == start[reps[k]]
    ensures DoneUpTo(reps, toMerge, done[reps[k] := |toMerge[reps[k]]|], k + 1)
    ensures forall v | v in reps[..k + 1] :: v in reps[..k] || v == reps[k]
  {
    Prefix(reps, k);
    assert forall j | 0 <= j < k :: reps[j] != reps[k];
    assert toMerge[reps[k]][..0] == [];
  }

  lemma AllDone(cfg: Config, start: seq<Supernode>, reps: seq<nat>, toMerge: seq<seq<nat>>, done: seq<nat>, nodes: seq<Supernode>)
    requires Reached(cfg, start, toMerge, done, nodes) && DoneUpTo(reps, toMerge, done, |reps|)
    requires forall v: nat | MergedInto(toMerge, v) :: v in reps
    ensures MergedFrom(cfg, start, toMerge, nodes)
  {
    assert reps[..|reps|] == reps;
    forall v: nat | v < |nodes|
      ensures InRange(toMerge[v], |start|) && nodes[v] == MergeAll(cfg, start, start[v], toMerge[v])
    {
      assert MergedInto(toMerge, v) <==> toMerge[v] != [];
      assert toMerge[v][..done[v]] == toMerge[v];
    }
  }

  lemma SampledShaped(cfg: Config, reps: seq<nat>, nodes: seq<Supernode>, sampled: seq<Supernode>, query: seq<Sampled>)
    requires SampledFrom(cfg, reps, nodes, sampled, query)
    ensures PoolShaped(cfg, sampled)
  {
  }

  lemma CopiesUsable(cfg: Config, reps: seq<nat>, nodes: seq<Supernode>, sampled: seq<Supernode>, query: seq<Sampled>,
                     backed: seq<nat>, copies: map<nat, Supernode>, n: nat)
    requires SampledFrom(cfg, reps, nodes, sampled, query) && |nodes| == n
    requires forall v | v in backed :: v in copies && v < n && copies[v] == CopyNode(sampled[v])
    ensures forall v | v in backed :: v < n && v in copies && Shaped(cfg, copies[v]) && GoodCopy(sampled[v], copies[v])
  {
    SampledShaped(cfg, reps, nodes, sampled, query);
  }

  lemma RunOneMore(cfg: Config, start: Snapshot, logs: seq<Log>, log: Log, after: Snapshot)
    requires Run(cfg, start, logs, log.before) && (logs != [] ==> Last(logs).m.modified)
    requires RoundStep(cfg, log, after) && InRange(log.before.reps, |log.before.nodes|)
    requires log.before.reps != [] || |log.before.nodes| == 0
    ensures Run(cfg, start, logs + [log], after)
    ensures Distinct(after.reps) && InRange(after.reps, |log.before.nodes|) && (log.m.modified ==> after.reps != [])
    ensures if log.before.reps != [] then Total(after.nodes) < Total(log.before.nodes)
            else after.nodes == log.before.nodes && !log.m.modified
  {
    assert Init(logs + [log]) == logs;
    RoundProgress(cfg, log, after);
    RoundIsClean(log.before.d, log.before.forest, log.before.reps, log.query, log.m);
  }

  /** A well-formed cache that, if it claims to be, is right. */
  ghost predicate CacheOk(n: nat, d: Dsu, forest: set<nat>, claim: bool, edges: set<nat>)
  {
    Valid(d) && |d.parent| == n && Simple(forest, n) && (claim ==> CacheRight(d, forest, edges))
  }

  /** Once everything has been united along edges of the graph only, the cache is right exactly if
      nothing is left to unite. */
  lemma CacheOkIff(n: nat, d: Dsu, forest: set<nat>, claim: bool, edges: set<nat>)
    requires Spanning(d, forest) && |d.parent| == n && Simple(edges, n) && (claim ==> forest <= edges)
    ensures CacheOk(n, d, forest, claim, edges) <==> (claim ==> Active(edges, d) == {})
  {
    if claim { NoneActiveIff(edges, d, forest); }
  }

  /** An acyclic part of the graph that connects what the graph connects. */
  ghost predicate SpansGraph(forest: set<nat>, edges: set<nat>, n: nat)
  {
    && forest <= edges && Acyclic(forest)
    && forall u: nat, v: nat | u < n && v < n :: Connected(forest, u, v) <==> Connected(edges, u, v)
  }

  lemma SpanningSpans(d: Dsu, forest: set<nat>, edges: set<nat>)
    requires Spanning(d, forest) && forest <= edges && Components(d, edges)
    ensures SpansGraph(forest, edges, |d.parent|)
  {
    forall u: nat, v: nat | u < |d.parent| && v < |d.parent|
      ensures Connected(forest, u, v) <==> Connected(edges, u, v)
    {
      assert Root(d, u) == Root(d, v) <==> Connected(forest, u, v);
    }
  }

  /** Shortened paths make no difference to the cache. */
  lemma SameCache(n: nat, d: Dsu, d': Dsu, forest: set<nat>, claim: bool, edges: set<nat>)
    requires CacheOk(n, d, forest, false, edges) && OnlyShortened(d, d')
    ensures CacheOk(n, d', forest, false, edges)
    ensures CacheOk(n, d', forest, claim, edges) <==> CacheOk(n, d, forest, claim, edges)
  {
    if CacheRight(d, forest, edges) { CacheShortened(d, d', forest, edges); }
    if CacheRight(d', forest, edges) { CacheShortened(d', d, forest, edges); }
  }

  /** The edge that an eager union of u and v adds to the forest. */
  ghost function NewLink(d: Dsu, u: nat, v: nat): set<nat>
    requires Forest(d) && u < |d.parent| && v < |d.parent|
  {
    if Root(d, u) == Root(d, v) then {} else {Id(u, v)}
  }

  lemma CacheStays(n: nat, d: Dsu, mid: Dsu, forest: set<nat>, edges: set<nat>, right: bool, u: nat, v: nat)
    requires CacheOk(n, mid, forest, right, edges) && OnlyShortened(d, mid)
    requires u < n && v < n && Id(u, v) !in forest && Root(d, u) == Root(d, v)
    ensures CacheOk(n, mid, forest, right, ToggleEdge(edges, u, v))
    ensures United(d, mid, u, v) && NewLink(d, u, v) == {}
  {
    AlreadyUnited(d, mid, u, v);
    if right { CacheInside(mid, forest, edges, u, v); }
  }

  lemma CacheGrows(n: nat, d: Dsu, mid: Dsu, forest: set<nat>, edges: set<nat>, right: bool, u: nat, v: nat, a: nat, b: nat)
    requires CacheOk(n, mid, forest, right, edges) && OnlyShortened(d, mid) && n <= NODE_SPACE
    requires u < n && v < n && Id(u, v) !in forest && Linkable(mid, a, b) && Between(mid, a, b, u, v)
    ensures CacheOk(n, Link(mid, a, b), forest + {Id(u, v)}, right, ToggleEdge(edges, u, v))
    ensures United(d, Link(mid, a, b), u, v) && NewLink(d, u, v) == {Id(u, v)}
  {
    LinkUnites(mid, a, b, u, v);
    UnitedFromBefore(d, mid, Link(mid, a, b), u, v);
    if right { CacheLink(mid, forest, edges, u, v, a, b); }
    PairingRoundTrip(u, v);
  }

  lemma GiveUp(n: nat, d: Dsu, forest: set<nat>, claim: bool, edges: set<nat>, edges': set<nat>)
    requires CacheOk(n, d, forest, claim, edges)
    ensures CacheOk(n, d, forest, false, edges')
  {}

  /** What the emulation finds on a faithful graph: the components, or no more sketches. It does not
      run out when well supplied; one sketch short it may, but has found everything by then; and it
      finds nothing when every sample fails. With failRound2 it only ever succeeds without edges. */
  ghost predicate Found(cfg: Config, edges: set<nat>, orig: seq<Supernode>, d: Dsu, forest: set<nat>, failRound2: bool, st: Status)
  {
    && st in {Ok, OutOfSketches}
    && Spanning(d, forest) && forest <= edges && (st == Ok ==> Components(d, edges))
    && (WellSupplied(cfg, edges, orig) && !failRound2 ==> st == Ok)
    && (Unfailing(cfg, edges, orig) && |orig| < Pow2(cfg.sketches + 1) && !failRound2 ==> Components(d, edges))
    && (AlwaysFails(cfg, edges, |orig|) && |orig| > 0 ==> st == OutOfSketches && Scattered(d))
    && (failRound2 && edges != {} ==> st == OutOfSketches)
  }

  /** The findings together with the answer; with makeCopy no content is lost. */
  ghost predicate Delivered(cfg: Config, n: nat, edges: set<nat>, orig: seq<Supernode>, nodes: seq<Supernode>,
                            d: Dsu, forest: set<nat>, failRound2: bool, makeCopy: bool, st: Status, answer: seq<set<nat>>)
  {
    && Found(cfg, edges, orig, d, forest, failRound2, st)
    && (st == Ok ==> ListsComponents(answer, edges, n))
    && (makeCopy ==> Restored(orig, nodes))
  }

  /** The same for a query on a graph of n nodes whose sketches are all unused. */
  ghost predicate RightAnswer(cfg: Config, n: nat, edges: set<nat>, d: Dsu, forest: set<nat>, failRound2: bool,
                              st: Status, answer: seq<set<nat>>)
  {
    && st in {Ok, OutOfSketches}
    && Spanning(d, forest) && forest <= edges
    && (st == Ok ==> Components(d, edges) && ListsComponents(answer, edges, n))
    && (NeverFails(cfg, edges) && n < Pow2(cfg.sketches) && !failRound2 ==> st == Ok)
    && (NeverFails(cfg, edges) && n < Pow2(cfg.sketches + 1) && !failRound2 ==> Components(d, edges))
    && (AlwaysFails(cfg, edges, n) && n > 0 ==> st == OutOfSketches && Scattered(d))
    && (failRound2 && edges != {} ==> st == OutOfSketches)
  }

  /** The books: the half-updates in the gutters and those in the supernodes make up the graph. */
  ghost predicate Ledger(cfg: Config, n: nat, supernodes: seq<Supernode>, gutter: seq<(nat, nat)>, stream: seq<(nat, nat)>,
                         held: seq<set<nat>>, locked: bool, sound: bool)
  {
    && n <= NODE_SPACE && |supernodes| == n && PoolShaped(cfg, supernodes)
    && NodesBelowN(stream, n) && NodesBelowN(gutter, n)
    && |held| == n && Owed(held, gutter, Toggled(stream))
    && (locked ==> gutter == [])
    && (sound && !locked ==> Filled(cfg, supernodes, held))
  }

  lemma PutBack(orig: seq<Supernode>, nodes: seq<Supernode>, backed: seq<nat>, copies: map<nat, Supernode>, nodes': seq<Supernode>)
    requires Restorable(orig, nodes, backed, copies) && |nodes'| == |nodes|
    requires forall v: nat | v < |nodes| :: nodes'[v] == if v in backed && v in copies then copies[v] else nodes[v]
    ensures Restored(orig, nodes')
  {
  }

  /** The supernodes read, by the nodes they belong to. */
  method CollectCopies(cfg: Config, ids: seq<nat>, ls: seq<Loaded>) returns (copies: map<nat, Supernode>)
    requires Distinct(ids) && |ls| == |ids|
    ensures FromDisk(cfg, ids, ls, copies) && forall v: nat :: v in copies <==> v in ids
  {
    copies := map[];
    for k := 0 to |ids|
      invariant forall v: nat :: v in copies <==> v in ids[..k]
      invariant forall j | 0 <= j < k :: ids[j] in copies && copies[ids[j]] == AsNode(cfg, ls[j])
    {
      Prefix(ids, k);
      copies := copies[ids[k] := AsNode(cfg, ls[k])];
    }
    assert ids[..|ids|] == ids;
  }

  lemma ReadShaped(cfg: Config, ids: seq<nat>, ls: seq<Loaded>, copies: map<nat, Supernode>,
                   nodes: seq<Supernode>, nodes': seq<Supernode>)
    requires FromDisk(cfg, ids, ls, copies) && (forall k | 0 <= k < |ls| :: Sized(cfg, ls[k])) && PoolShaped(cfg, nodes)
    requires |nodes'| == |nodes| && forall v: nat | v < |nodes| :: nodes'[v] == if v in ids && v in copies then copies[v] else nodes[v]
    ensures PoolShaped(cfg, nodes')
  {
    forall v: nat | v < |nodes|
      ensures Shaped(cfg, nodes'[v])
    {
      if v in ids {
        var k :| 0 <= k < |ids| && ids[k] == v;
        SizedShaped(cfg, ls[k]);
      }
    }
  }

  lemma ShapedInPool(cfg: Config, nodes: seq<Supernode>, ids: seq<nat>)
    requires PoolShaped(cfg, nodes) && InRange(ids, |nodes|)
    ensures InPool(ids, nodes)
  {
  }

  lemma BackupFirst(w: nat, nodes: seq<Supernode>, ids: seq<nat>, k: nat)
    requires InPool(ids, nodes) && k < |ids|
    ensures Backup(w, nodes, ids[k..]) == FullData(w, nodes[ids[k]], false) + Backup(w, nodes, ids[k + 1..])
  {
    assert ids[k..][1..] == ids[k + 1..];
  }

  /** Before a query every supernode can be written: however many updates it has taken, its buckets
      fit their fields. */
  lemma FilledStorable(cfg: Config, w: nat, edges: set<nat>, n: nat, nodes: seq<Supernode>)
    requires Writable(cfg, w) && Simple(edges, n) && |nodes| == n && Filled(cfg, nodes, Cuts(n, edges))
    ensures AllStorable(cfg, w, nodes)
  {
    IdsFit(edges, n);
    forall v | 0 <= v < |nodes|
      ensures Storable(cfg, w, nodes[v])
    {
      HeldStorable(cfg, w, nodes[v], Cut(edges, {v}));
    }
  }

  /** The id of an edge is a 64-bit number. */
  lemma IdsFit(edges: set<nat>, n: nat)
    requires Simple(edges, n)
    ensures forall e | e in edges :: e < Space(INDEX)
  {
    assert Space(4) == NODE_SPACE;
    assert Space(6) == 65536 * Space(4);
    assert Space(8) == 65536 * Space(6);
  }

  lemma {:induction false} SameClassList(d: Dsu, d': Dsu, k: nat)
    requires OnlyShortened(d, d') && k <= |d.parent|
    ensures RootList(d, k) == RootList(d', k) && ClassList(d, k) == ClassList(d', k)
  {
    if k > 0 {
      SameClassList(d, d', k - 1);
      assert Root(d, k - 1) == Root(d', k - 1);
    }
    SameRootsValid(d, d');
    assert ClassList(d, k) == ClassList(d', k);
  }

  ghost predicate Filled(cfg: Config, nodes: seq<Supernode>, held: seq<set<nat>>)
  {
    |nodes| == |held| && forall v: nat | v < |nodes| :: Stores(cfg, nodes[v], held[v])
  }

  /** What a supernode holds and what is still buffered for it together make its incident edges. */
  ghost predicate Owed(held: seq<set<nat>>, gutter: seq<(nat, nat)>, edges: set<nat>)
  {
    forall v: nat | v < |held| :: SymDiff(held[v], OddOnes(IdsFor(gutter, v))) == Cut(edges, {v})
  }

  lemma OwedStep(held: seq<set<nat>>, gutter: seq<(nat, nat)>, stream: seq<(nat, nat)>, two: seq<(nat, nat)>, a: nat, b: nat)
    requires Owed(held, gutter, Toggled(stream)) && two == [(a, b), (b, a)] && a < NODE_SPACE && b < NODE_SPACE
    ensures Toggled(stream + [(a, b)]) == ToggleEdge(Toggled(stream), a, b)
    ensures Owed(held, gutter + two, Toggled(stream + [(a, b)]))
  {
    var more := stream + [(a, b)];
    assert more[..|more| - 1] == stream;
    forall v: nat | v < |held|
      ensures SymDiff(held[v], OddOnes(IdsFor(gutter + two, v))) == Cut(Toggled(more), {v})
    {
      IdsForConcat(gutter, two, v);
      OddOnesConcat(IdsFor(gutter, v), IdsFor(two, v));
      TwoHalves(a, b, v);
      CutToggle(Toggled(stream), a, b, v);
      SymDiffAssoc(held[v], OddOnes(IdsFor(gutter, v)), OddOnes(IdsFor(two, v)));
    }
  }

  lemma SymDiffAssoc(x: set<nat>, y: set<nat>, z: set<nat>)
    ensures SymDiff(SymDiff(x, y), z) == SymDiff(x, SymDiff(y, z))
  {
  }

  lemma NodesBelowStep(xs: seq<(nat, nat)>, ys: seq<(nat, nat)>, n: nat)
    requires NodesBelowN(xs, n) && NodesBelowN(ys, n)
    ensures NodesBelowN(xs + ys, n)
  {
  }

  lemma EmptyBatch(cfg: Config, nodes: seq<Supernode>, b: Batch)
    requires PoolShaped(cfg, nodes) && b.src < |nodes| && b.dsts == []
    ensures ApplyBatch(cfg, nodes, b) == nodes
  {
    assert BatchIds(b) == [];
    var s, delta := nodes[b.src], DeltaNode(cfg, []);
    forall i | 0 <= i < |s.sketches|
      ensures AddSketch(s.sketches[i], delta.sketches[i]) == s.sketches[i]
    {
    }
    assert ApplyDelta(cfg, s, delta).sketches == s.sketches;
  }

  /** The incident edges of every node. */
  ghost function Cuts(n: nat, edges: set<nat>): seq<set<nat>>
  {
    seq(n, v requires 0 <= v => Cut(edges, {v}))
  }

  lemma FlushLedger(cfg: Config, n: nat, nodes: seq<Supernode>, gutter: seq<(nat, nat)>, stream: seq<(nat, nat)>,
                    held: seq<set<nat>>, sound: bool, batches: seq<Batch>, cuts: seq<set<nat>>, clean: bool)
    requires Ledger(cfg, n, nodes, gutter, stream, held, false, sound)
    requires BatchesInRange(batches, n) && multiset(Flatten(batches)) == multiset(gutter)
    requires cuts == Cuts(n, Toggled(stream)) && clean == (sound && NoCollisions(cfg, batches))
    ensures Ledger(cfg, n, ApplyAll(cfg, nodes, batches), [], stream, cuts, false, clean)
  {
    FlushDone(cfg, nodes, held, gutter, Toggled(stream), batches, sound, n);
  }

  /** After a flush every supernode holds the sketch of its incident edges. */
  lemma FlushDone(cfg: Config, nodes: seq<Supernode>, held: seq<set<nat>>, gutter: seq<(nat, nat)>, edges: set<nat>,
                  batches: seq<Batch>, sound: bool, n: nat)
    requires PoolShaped(cfg, nodes) && |nodes| == |held| == n && BatchesInRange(batches, n)
    requires multiset(Flatten(batches)) == multiset(gutter) && Owed(held, gutter, edges)
    requires sound ==> Filled(cfg, nodes, held)
    ensures Owed(Cuts(n, edges), [], edges)
    ensures sound && NoCollisions(cfg, batches) ==> Filled(cfg, ApplyAll(cfg, nodes, batches), Cuts(n, edges))
  {
    forall v: nat | v < n
      ensures SymDiff(Cut(edges, {v}), OddOnes(IdsFor([], v))) == Cut(edges, {v})
      ensures sound && NoCollisions(cfg, batches) ==> Stores(cfg, ApplyAll(cfg, nodes, batches)[v], Cut(edges, {v}))
    {
      if sound && NoCollisions(cfg, batches) {
        BatchesAreUpdates(cfg, nodes, held, batches, v);
        IdsForOrder(Flatten(batches), gutter, v);
        OddOnesOrder(IdsFor(Flatten(batches), v), IdsFor(gutter, v));
      }
    }
  }

  lemma FilledRepresents(cfg: Config, edges: set<nat>, n: nat, nodes: seq<Supernode>, held: seq<set<nat>>)
    requires FaithfulGraph(cfg, edges, n) && |nodes| == n && held == Cuts(n, edges) && Filled(cfg, nodes, held)
    ensures Represented(cfg, edges, nodes) && UsedAtMost(cfg, nodes, 0)
  {
  }

  /** Locking an empty buffer keeps the books, whatever becomes of the supernodes. */
  lemma LockedLedger(cfg: Config, n: nat, nodes: seq<Supernode>, nodes': seq<Supernode>, stream: seq<(nat, nat)>,
                     held: seq<set<nat>>, locked: bool, sound: bool, sound': bool)
    requires Ledger(cfg, n, nodes, [], stream, held, locked, sound) && |nodes'| == n && PoolShaped(cfg, nodes')
    ensures Ledger(cfg, n, nodes', [], stream, held, true, sound')
  {}

  lemma FoundAnswers(cfg: Config, edges: set<nat>, n: nat, orig: seq<Supernode>, nodes: seq<Supernode>, held: seq<set<nat>>,
                     d: Dsu, forest: set<nat>, failRound2: bool, makeCopy: bool, st: Status, answer: seq<set<nat>>)
    requires FaithfulGraph(cfg, edges, n) && |orig| == n && held == Cuts(n, edges) && Filled(cfg, orig, held)
    requires Delivered(cfg, n, edges, orig, nodes, d, forest, failRound2, makeCopy, st, answer)
    ensures RightAnswer(cfg, n, edges, d, forest, failRound2, st, answer) && (makeCopy ==> Restored(orig, nodes))
  {
    FilledRepresents(cfg, edges, n, orig, held);
  }

  lemma ResetShaped(cfg: Config, nodes: seq<Supernode>, nodes': seq<Supernode>)
    requires PoolShaped(cfg, nodes) && |nodes| == |nodes'|
    requires forall v: nat | v < |nodes| :: nodes'[v] == ResetNode(nodes[v])
    ensures PoolShaped(cfg, nodes')
  {
  }

  lemma AllRestored(cfg: Config, orig: seq<Supernode>, held: seq<set<nat>>, nodes: seq<Supernode>, nodes': seq<Supernode>)
    requires Filled(cfg, orig, held) && Restored(orig, nodes) && |nodes| == |nodes'|
    requires forall v: nat | v < |nodes| :: nodes'[v] == ResetNode(nodes[v])
    ensures nodes' == orig
  {
    forall v: nat | v < |nodes|
      ensures nodes'[v] == orig[v]
    {
      assert Stores(cfg, orig[v], held[v]);
      ResetRestores(orig[v], nodes[v]);
    }
  }

  /** An edge of the forest not yet replayed joins two classes, if the forest is acyclic. */
  /** Replaying an edge of the forest: it is refused only if the forest is not one of the graph. */
  lemma ForestEdge(forest: set<nat>, n: nat, done: set<nat>, e: nat, d: Dsu, edges: set<nat>)
    requires Simple(forest, n) && e in forest && done <= forest - {e} && Acyclic(done)
    requires Forest(d) && |d.parent| == n && Components(d, done)
    ensures Src(e) < n && Dst(e) < n && Id(Src(e), Dst(e)) == e
    ensures Acyclic(forest) ==> Root(d, Src(e)) != Root(d, Dst(e))
    ensures Adjacent(edges, Src(e), Dst(e)) <==> e in edges
    ensures Root(d, Src(e)) != Root(d, Dst(e)) ==> Acyclic(done + {e})
  {
    EdgeEnds(forest, n, e);
    if Connected(done, Src(e), Dst(e)) { Monotone(done, forest - {e}, Src(e), Dst(e)); }
    if !Connected(done, Src(e), Dst(e)) { GrowForest(done, n, Src(e), Dst(e)); }
  }

  lemma SamePartitionClass(d: Dsu, d': Dsu, v: nat)
    requires Forest(d) && Forest(d') && SamePartition(d, d') && v < |d.parent|
    ensures Class(d, Root(d, v)) == Class(d', Root(d', v))
  {
    forall u: nat | u < |d.parent|
      ensures u in Class(d, Root(d, v)) <==> u in Class(d', Root(d', v))
    {
      assert Together(d, u, v) <==> Together(d', u, v);
    }
  }

  lemma AlreadyUnited(d: Dsu, d': Dsu, u: nat, v: nat)
    requires OnlyShortened(d, d') && u < |d.parent| && v < |d.parent| && Root(d, u) == Root(d, v)
    ensures United(d, d', u, v)
  {
  }

  lemma UnitedFromBefore(d: Dsu, mid: Dsu, d': Dsu, u: nat, v: nat)
    requires OnlyShortened(d, mid) && United(mid, d', u, v)
    ensures United(d, d', u, v)
  {
    forall x: nat, y: nat | x < |d.parent| && y < |d.parent|
      ensures Root(d', x) == Root(d', y) <==> SameOnceUnited(d, u, v, x, y)
    {
      assert SameOnceUnited(mid, u, v, x, y) == SameOnceUnited(d, u, v, x, y);
    }
  }

  lemma LinkUnites(d: Dsu, a: nat, b: nat, s: nat, t: nat)
    requires Linkable(d, a, b) && s < |d.parent| && t < |d.parent| && Between(d, a, b, s, t)
    ensures Valid(Link(d, a, b)) && United(d, Link(d, a, b), s, t)
  {
    LinkJoins(d, a, b);
    LinkValid(d, a, b);
    JoinedUnites(d, Link(d, a, b), a, b, s, t);
  }
}
