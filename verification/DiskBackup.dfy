/** Backing supernodes up to a file and restoring them from it (src/graph.cpp), the alternative to
    copies in memory. The file is also the body of what write_binary leaves for another run. */
module DiskBackup {
  import opened Basics
  import opened Sketches
  import opened Supernodes
  import opened SketchBytes
  import opened SupernodeBytes
  import opened Rounds
  import opened Emulation
  import opened EmulationRuns

  predicate InPool(ids: seq<nat>, nodes: seq<Supernode>)
  {
    forall k | 0 <= k < |ids| :: ids[k] < |nodes| && HaveBuckets(nodes[ids[k]].sketches)
  }

  /** backup_to_disk: the named supernodes, one after the other. */
  function Backup(w: nat, nodes: seq<Supernode>, ids: seq<nat>): seq<Byte>
    requires InPool(ids, nodes)
  {
    if ids == [] then [] else FullData(w, nodes[ids[0]], false) + Backup(w, nodes, ids[1..])
  }

  function ParseNodes(cfg: Config, w: nat, count: nat, data: seq<Byte>): (r: Parsed<seq<Loaded>>)
    ensures r.Done? ==> |r.value| == count
  {
    if count == 0 then Done([], data)
    else
      match ParseNode(cfg, w, data)
      case Malformed => Malformed
      case Done(l, rest) =>
        match ParseNodes(cfg, w, count - 1, rest)
        case Malformed => Malformed
        case Done(ls, rest') => Done([l] + ls, rest')
  }

  /** restore_from_disk: each supernode read takes the place of the next one named. */
  method Restore(cfg: Config, w: nat, ids: seq<nat>, data: seq<Byte>) returns (r: Parsed<seq<Loaded>>)
    ensures r == ParseNodes(cfg, w, |ids|, data)
  {
    ghost var parse := d => ParseNode(cfg, w, d);
    r := ReadAll(cfg, w, ids, data, parse);
    NothingReadYet(cfg, w, parse, |ids|, data);
  }

  /** The loop, for a parser that does what the supernode's constructor does. */
  method ReadAll(cfg: Config, w: nat, ids: seq<nat>, data: seq<Byte>, ghost parse: seq<Byte> -> Parsed<Loaded>)
    returns (r: Parsed<seq<Loaded>>)
    requires ParsesNodes(parse, cfg, w)
    ensures r == After(parse, [], |ids|, data)
  {
    var ls: seq<Loaded>, left := [], data;
    ghost var outcome := After(parse, ls, |ids|, left);
    var count: nat := |ids|;
    while count > 0
      invariant outcome == After(parse, ls, count, left)
    {
      var l := ReadNext(cfg, w, left, parse);
      if l.Malformed? { return Malformed; }
      ls, left, count := ls + [l.value], l.rest, count - 1;
    }
    return Done(ls, left);
  }

  ghost predicate ParsesNodes(parse: seq<Byte> -> Parsed<Loaded>, cfg: Config, w: nat)
  {
    forall d {:trigger ParseNode(cfg, w, d)} :: parse(d) == ParseNode(cfg, w, d)
  }

  method ReadNext(cfg: Config, w: nat, left: seq<Byte>, ghost parse: seq<Byte> -> Parsed<Loaded>) returns (l: Parsed<Loaded>)
    requires ParsesNodes(parse, cfg, w)
    ensures l == parse(left)
  {
    l := ReadNode(cfg, w, left);
  }

  /** The outcome when ls has been read and count supernodes are still to come. */
  ghost function After(parse: seq<Byte> -> Parsed<Loaded>, ls: seq<Loaded>, count: nat, left: seq<Byte>): Parsed<seq<Loaded>>
    decreases count
  {
    if count == 0 then Done(ls, left)
    else
      match parse(left)
      case Malformed => Malformed
      case Done(l, rest) => After(parse, ls + [l], count - 1, rest)
  }

  lemma {:induction false} StillToRead(cfg: Config, w: nat, parse: seq<Byte> -> Parsed<Loaded>,
                                       ls: seq<Loaded>, count: nat, left: seq<Byte>)
    requires ParsesNodes(parse, cfg, w)
    ensures After(parse, ls, count, left) ==
      match ParseNodes(cfg, w, count, left)
      case Malformed => Malformed
      case Done(more, rest) => Done(ls + more, rest)
    decreases count
  {
    if count == 0 {
      assert ls + [] == ls;
    } else {
      var l := ParseNode(cfg, w, left);
      if l.Done? {
        StillToRead(cfg, w, parse, ls + [l.value], count - 1, l.rest);
        var more := ParseNodes(cfg, w, count - 1, l.rest);
        if more.Done? { Prepend(ls, l.value, more.value); }
      }
    }
  }

  lemma NothingReadYet(cfg: Config, w: nat, parse: seq<Byte> -> Parsed<Loaded>, count: nat, data: seq<Byte>)
    requires ParsesNodes(parse, cfg, w)
    ensures ParseNodes(cfg, w, count, data) == After(parse, [], count, data)
  {
    StillToRead(cfg, w, parse, [], count, data);
    var r := ParseNodes(cfg, w, count, data);
    if r.Done? { assert [] + r.value == r.value; }
  }

  lemma Prepend(ls: seq<Loaded>, l: Loaded, more: seq<Loaded>)
    ensures ls + ([l] + more) == (ls + [l]) + more
  {}

  /** What was read, as a supernode. */
  function AsNode(cfg: Config, l: Loaded): Supernode
  {
    Supernode(l.sampleIdx, l.numSketches,
              seq(cfg.sketches, i requires 0 <= i < cfg.sketches => if i in l.slots then l.slots[i] else Blank(cfg, i)))
  }

  /** l is s as it was before any query. */
  ghost predicate Recovers(cfg: Config, s: Supernode, l: Loaded)
  {
    SameContent(s, AsNode(cfg, l)) && Pristine(AsNode(cfg, l)) && Shaped(cfg, AsNode(cfg, l))
  }

  lemma RestoredRecovers(cfg: Config, s: Supernode, rest: seq<Byte>, r: Parsed<Loaded>)
    requires Shaped(cfg, s) && s.merged == cfg.sketches && ReadBack(cfg, s, 0, cfg.sketches, rest, r)
    ensures Recovers(cfg, s, r.value)
  {
    forall i: nat | i < cfg.sketches
      ensures i in r.value.slots && r.value.slots[i] == s.sketches[i].(queried := false)
    {
      assert SlotRestored(cfg, s, 0, cfg.sketches, r.value, i);
    }
  }

  lemma FirstRecovers(cfg: Config, w: nat, s: Supernode, tail: seq<Byte>)
    requires Storable(cfg, w, s) && s.merged == cfg.sketches && HaveBuckets(s.sketches)
    ensures var r := ParseNode(cfg, w, FullData(w, s, false) + tail);
      r.Done? && r.rest == tail && Recovers(cfg, s, r.value)
  {
    FullRoundTrip(cfg, w, s, tail);
    RestoredRecovers(cfg, s, tail, ParseNode(cfg, w, FullData(w, s, false) + tail));
  }

  ghost predicate AllRecover(cfg: Config, nodes: seq<Supernode>, ids: seq<nat>, ls: seq<Loaded>)
  {
    |ls| == |ids| && forall k | 0 <= k < |ids| :: ids[k] < |nodes| && Recovers(cfg, nodes[ids[k]], ls[k])
  }

  lemma OneMoreRecovers(cfg: Config, nodes: seq<Supernode>, ids: seq<nat>, l: Loaded, ls: seq<Loaded>)
    requires ids != [] && ids[0] < |nodes| && Recovers(cfg, nodes[ids[0]], l) && AllRecover(cfg, nodes, ids[1..], ls)
    ensures AllRecover(cfg, nodes, ids, [l] + ls)
  {
    forall k | 0 < k < |ids|
      ensures ids[k] < |nodes| && Recovers(cfg, nodes[ids[k]], ([l] + ls)[k])
    {
      assert ids[k] == ids[1..][k - 1] && ([l] + ls)[k] == ls[k - 1];
    }
  }

  /** Every supernode backed up comes back with all its sketches under their seeds and no query
      spent, and nothing after the backup is read. */
  lemma {:induction false} BackupRoundTrip(cfg: Config, w: nat, nodes: seq<Supernode>, ids: seq<nat>, rest: seq<Byte>)
    requires InPool(ids, nodes)
    requires forall k | 0 <= k < |ids| :: Storable(cfg, w, nodes[ids[k]]) && nodes[ids[k]].merged == cfg.sketches
    ensures var r := ParseNodes(cfg, w, |ids|, Backup(w, nodes, ids) + rest);
      r.Done? && r.rest == rest && AllRecover(cfg, nodes, ids, r.value)
  {
    if ids == [] {
      assert Backup(w, nodes, ids) + rest == rest;
    } else {
      var first, tail := FullData(w, nodes[ids[0]], false), Backup(w, nodes, ids[1..]) + rest;
      Regroup(first, Backup(w, nodes, ids[1..]), rest);
      FirstRecovers(cfg, w, nodes[ids[0]], tail);
      BackupRoundTrip(cfg, w, nodes, ids[1..], rest);
      var l := ParseNode(cfg, w, first + tail).value;
      ReadFirst(cfg, w, |ids|, first + tail, l, tail);
      OneMoreRecovers(cfg, nodes, ids, l, ParseNodes(cfg, w, |ids| - 1, tail).value);
    }
  }

  lemma SizedShaped(cfg: Config, l: Loaded)
    requires Sized(cfg, l)
    ensures Shaped(cfg, AsNode(cfg, l))
  {
  }

  lemma ReadFirst(cfg: Config, w: nat, count: nat, data: seq<Byte>, l: Loaded, tail: seq<Byte>)
    requires count > 0 && ParseNode(cfg, w, data) == Done(l, tail) && ParseNodes(cfg, w, count - 1, tail).Done?
    ensures var more := ParseNodes(cfg, w, count - 1, tail);
      ParseNodes(cfg, w, count, data) == Done([l] + more.value, more.rest)
  {
  }

  /** On any supernodes, faithful or not, a backup reads back as supernodes of the same shape. */
  lemma {:induction false} BackupKeepsShape(cfg: Config, w: nat, nodes: seq<Supernode>, ids: seq<nat>, rest: seq<Byte>)
    requires InPool(ids, nodes) && forall k | 0 <= k < |ids| :: Shaped(cfg, nodes[ids[k]])
    ensures var r := ParseNodes(cfg, w, |ids|, Backup(w, nodes, ids) + rest);
      r.Done? && forall k | 0 <= k < |ids| :: Sized(cfg, r.value[k])
  {
    if ids == [] {
      assert Backup(w, nodes, ids) + rest == rest;
    } else {
      var first, tail := FullData(w, nodes[ids[0]], false), Backup(w, nodes, ids[1..]) + rest;
      Regroup(first, Backup(w, nodes, ids[1..]), rest);
      FullKeepsShape(cfg, w, nodes[ids[0]], tail);
      BackupKeepsShape(cfg, w, nodes, ids[1..], rest);
      ReadFirst(cfg, w, |ids|, first + tail, ParseNode(cfg, w, first + tail).value, tail);
    }
  }

  /** Restoring from disk is as good as restoring a copy from memory: after the reset at the end of
      a query the supernode is what it was before the query began. */
  lemma DiskAsGoodAsMemory(cfg: Config, orig: Supernode, sampled: Supernode, l: Loaded)
    requires Pristine(orig) && SameContent(orig, sampled) && Recovers(cfg, sampled, l)
    ensures ResetNode(AsNode(cfg, l)) == orig
    ensures ResetNode(CopyNode(sampled)) == orig
  {
    ResetRestores(orig, AsNode(cfg, l));
    ResetRestores(orig, CopyNode(sampled));
  }

  // ---------- whole runs ----------

  /** A supernode that can be written and has all its sketches in the window. */
  ghost predicate AllStorable(cfg: Config, w: nat, nodes: seq<Supernode>)
  {
    forall v | 0 <= v < |nodes| :: Storable(cfg, w, nodes[v]) && nodes[v].merged == cfg.sketches
  }

  lemma SampledStorable(cfg: Config, w: nat, reps: seq<nat>, nodes: seq<Supernode>, sampled: seq<Supernode>, query: seq<Sampled>)
    requires SampledFrom(cfg, reps, nodes, sampled, query) && AllStorable(cfg, w, nodes)
    ensures AllStorable(cfg, w, sampled)
  {
    forall v | 0 <= v < |sampled|
      ensures Storable(cfg, w, sampled[v]) && sampled[v].merged == cfg.sketches
    {
      if v in reps { SampleStorable(cfg, w, nodes[v]); }
    }
  }

  lemma SampleStorable(cfg: Config, w: nat, s: Supernode)
    requires Storable(cfg, w, s)
    ensures Storable(cfg, w, SampleNode(cfg, s).0) && SampleNode(cfg, s).0.merged == s.merged
  {
    var t := SampleNode(cfg, s).0;
    assert forall i | 0 <= i < |t.sketches| :: t.sketches[i].buckets == s.sketches[i].buckets;
  }

  /** Copies read back in the order in which they were written. */
  ghost predicate FromDisk(cfg: Config, ids: seq<nat>, ls: seq<Loaded>, copies: map<nat, Supernode>)
  {
    && |ls| == |ids|
    && forall k | 0 <= k < |ids| :: ids[k] in copies && copies[ids[k]] == AsNode(cfg, ls[k])
  }

  /** The file holds the supernodes that the first round left to be backed up. */
  ghost predicate Written(cfg: Config, w: nat, logs: seq<Log>, file: seq<Byte>)
  {
    logs != [] ==>
      && InPool(Backed(logs), logs[0].sampled) && file == Backup(w, logs[0].sampled, Backed(logs))
      && forall k | 0 <= k < |Backed(logs)| :: Shaped(cfg, logs[0].sampled[Backed(logs)[k]])
  }

  /** It reads back as supernodes of the right shape, whatever they hold. */
  ghost predicate Readable(cfg: Config, w: nat, ids: seq<nat>, file: seq<Byte>)
  {
    var r := ParseNodes(cfg, w, |ids|, file);
    r.Done? && forall k | 0 <= k < |ids| :: Sized(cfg, r.value[k])
  }

  lemma WrittenReadable(cfg: Config, w: nat, logs: seq<Log>, file: seq<Byte>)
    requires Written(cfg, w, logs, file)
    ensures Readable(cfg, w, Backed(logs), file)
  {
    if logs != [] {
      BackupKeepsShape(cfg, w, logs[0].sampled, Backed(logs), []);
      assert file + [] == file;
    }
  }

  lemma FirstSampledStorable(cfg: Config, w: nat, n: nat, start: Snapshot, logs: seq<Log>, end: Snapshot)
    requires Run(cfg, start, logs, end) && AllStorable(cfg, w, start.nodes) && logs != []
    ensures AllStorable(cfg, w, logs[0].sampled)
  {
    FirstRound(cfg, n, start, logs, end);
    SampledStorable(cfg, w, start.reps, start.nodes, logs[0].sampled, logs[0].query);
  }

  lemma FileRecovers(cfg: Config, w: nat, nodes: seq<Supernode>, ids: seq<nat>, file: seq<Byte>, r: Parsed<seq<Loaded>>)
    requires InPool(ids, nodes) && AllStorable(cfg, w, nodes) && file == Backup(w, nodes, ids)
    requires r == ParseNodes(cfg, w, |ids|, file)
    ensures r.Done? && forall k | 0 <= k < |ids| :: Recovers(cfg, nodes[ids[k]], r.value[k])
  {
    BackupRoundTrip(cfg, w, nodes, ids, []);
    assert file + [] == file;
  }

  /** Of a run on supernodes that fit their fields, the file holds good copies, just as memory would. */
  lemma FileHoldsCopies(cfg: Config, w: nat, n: nat, start: Snapshot, logs: seq<Log>, end: Snapshot,
                        file: seq<Byte>, copies: map<nat, Supernode>)
    requires StartState(start, n) && Run(cfg, start, logs, end) && AllStorable(cfg, w, start.nodes)
    requires Written(cfg, w, logs, file) && Readable(cfg, w, Backed(logs), file)
    requires FromDisk(cfg, Backed(logs), ParseNodes(cfg, w, |Backed(logs)|, file).value, copies)
    ensures CopiesOf(logs, copies)
  {
    if logs != [] {
      var r := ParseNodes(cfg, w, |Backed(logs)|, file);
      FirstSampledStorable(cfg, w, n, start, logs, end);
      FileRecovers(cfg, w, logs[0].sampled, Backed(logs), file, r);
      DiskCopiesOf(cfg, logs, r.value, copies);
    }
  }

  /** What the file gives back makes up for everything merged away. */
  ghost predicate FileRestorable(cfg: Config, w: nat, orig: seq<Supernode>, nodes: seq<Supernode>, ids: seq<nat>, file: seq<Byte>)
    requires Readable(cfg, w, ids, file)
  {
    forall copies | FromDisk(cfg, ids, ParseNodes(cfg, w, |ids|, file).value, copies) :: Restorable(orig, nodes, ids, copies)
  }

  /** A run that backs up to a file after its first round can be undone from that file at any
      point, just as from copies in memory. */
  lemma RunKeepsFile(cfg: Config, w: nat, edges: set<nat>, n: nat, start: Snapshot, logs: seq<Log>, end: Snapshot, file: seq<Byte>)
    requires StartState(start, n) && Represented(cfg, edges, start.nodes) && Run(cfg, start, logs, end)
    requires AllStorable(cfg, w, start.nodes) && Written(cfg, w, logs, file)
    ensures Readable(cfg, w, Backed(logs), file) && FileRestorable(cfg, w, start.nodes, end.nodes, Backed(logs), file)
  {
    WrittenReadable(cfg, w, logs, file);
    forall copies | FromDisk(cfg, Backed(logs), ParseNodes(cfg, w, |Backed(logs)|, file).value, copies)
      ensures Restorable(start.nodes, end.nodes, Backed(logs), copies)
    {
      FileHoldsCopies(cfg, w, n, start, logs, end, file, copies);
      RunKeepsBackup(cfg, edges, n, start, logs, end, copies);
    }
  }

  /** The first round of a run begins where the run does. */
  lemma {:induction false} FirstRound(cfg: Config, n: nat, start: Snapshot, logs: seq<Log>, end: Snapshot)
    requires Run(cfg, start, logs, end) && logs != []
    ensures logs[0].before == start
    ensures exists after :: RoundStep(cfg, logs[0], after)
    decreases |logs|
  {
    if |logs| == 1 {
      assert Init(logs) == [];
      assert RoundStep(cfg, logs[0], end);
    } else {
      FirstRound(cfg, n, start, Init(logs), Last(logs).before);
    }
  }

  lemma DiskCopiesOf(cfg: Config, logs: seq<Log>, ls: seq<Loaded>, copies: map<nat, Supernode>)
    requires logs != [] && InPool(Backed(logs), logs[0].sampled) && FromDisk(cfg, Backed(logs), ls, copies)
    requires forall k | 0 <= k < |ls| :: Recovers(cfg, logs[0].sampled[Backed(logs)[k]], ls[k])
    ensures CopiesOf(logs, copies)
  {
    forall v | v in Backed(logs)
      ensures v in copies && v < |logs[0].sampled| && GoodCopy(logs[0].sampled[v], copies[v])
    {
      var k :| 0 <= k < |Backed(logs)| && Backed(logs)[k] == v;
      assert Recovers(cfg, logs[0].sampled[v], ls[k]);
    }
  }
}
