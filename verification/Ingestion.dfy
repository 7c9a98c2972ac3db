/** From the stream splitter to the graph: what any interleaving of readers amounts to. */
module Ingestion {
  import opened Basics
  import opened Edges
  import opened Connectivity
  import opened Sketches
  import opened Supernodes
  import opened Updates
  import opened Stream

  /** Whatever the interleaving, with all readers at rest the updates they have taken make the graph
      of the part of the stream before the offset. */
  lemma SameGraph(f: File, stream: seq<(nat, nat)>, readers: nat, actions: seq<Action>, s: State)
    requires ValidFile(f) && |stream| == Index(f.eof) && Stream.Runs(f, Start(readers), actions, s) && AtRest(s)
    ensures var hi := Index(Min(s.off, f.eof));
      && hi <= |stream| && (forall k | 0 <= k < |s.out| :: Index(s.out[k]) < |stream|)
      && multiset(Handed(stream, s.out)) == multiset(stream[..hi])
      && Toggled(Handed(stream, s.out)) == Toggled(stream[..hi])
  {
    ExactlyOnce(f, readers, actions, s);
    var hi := Min(s.off, f.eof);
    EachOnce(stream, s.out, HEADER, hi);
    assert stream[0..Index(hi)] == stream[..Index(hi)];
    ToggledOrder(Handed(stream, s.out), stream[..Index(hi)]);
  }

  /** From the file to the supernodes: once the updates taken so far have been batched in any way
      and applied in any order, supernode v is the sketch of the edges at v in that graph. */
  lemma FileIngested(f: File, stream: seq<(nat, nat)>, readers: nat, actions: seq<Action>, s: State,
                     cfg: Config, n: nat, batches: seq<Batch>, v: nat)
    requires ValidFile(f) && |stream| == Index(f.eof) && Stream.Runs(f, Start(readers), actions, s) && AtRest(s)
    requires NodesBelowN(stream, n) && n <= NODE_SPACE && v < n && BatchesInRange(batches, n) && NoCollisions(cfg, batches)
    requires forall k | 0 <= k < |s.out| :: Index(s.out[k]) < |stream|
    requires multiset(Flatten(batches)) == multiset(Halves(Handed(stream, s.out)))
    ensures Index(Min(s.off, f.eof)) <= |stream|
    ensures Stores(cfg, ApplyAll(cfg, seq(n, i => Fresh(cfg)), batches)[v], Cut(Toggled(stream[..Index(Min(s.off, f.eof))]), {v}))
  {
    SameGraph(f, stream, readers, actions, s);
    StreamIngested(cfg, n, Handed(stream, s.out), batches, v);
  }
}
