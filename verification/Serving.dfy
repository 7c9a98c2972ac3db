/** Whole serial runs: any sequence of updates, queries and point queries with more stream to come. */
module Serving {
  import opened Basics
  import opened Bits
  import opened Edges
  import opened Connectivity
  import opened Sketches
  import opened Rounds
  import opened Progress
  import opened Answers
  import opened Updates
  import opened GraphModel

  /** A query comes with the way in which the guttering system would group what it has buffered. */
  datatype Request = Change(u: nat, v: nat) | Ask(kind: Question, split: seq<(nat, nat)> -> seq<Batch>)

  datatype Question = AllComponents | OnePair(a: nat, b: nat)

  datatype Reply = Listing(components: seq<set<nat>>) | Verdict(a: nat, b: nat, same: bool)

  /** What came of a request. */
  datatype Event = Changed(u: nat, v: nat) | Asked(cached: bool, batches: seq<Batch>, st: Status, reply: Reply)

  /** What a log accounts for: the graph, the buffered half-updates, whether no collision has been
      met so far, whether the cache claims to be valid, and whether such a claim is right. */
  datatype Books = Books(edges: set<nat>, gutter: seq<(nat, nat)>, sound: bool, valid: bool, honest: bool)

  ghost function BooksOf(g: Graph): Books
    reads g
  {
    Books(g.Edges(), g.gutter, g.sound, g.dsuValid, g.CacheHonest())
  }

  /** Whatever is buffered, the groups hold just that. */
  ghost predicate Groups(split: seq<(nat, nat)> -> seq<Batch>, n: nat)
  {
    forall gutter | NodesBelowN(gutter, n) ::
      BatchesInRange(split(gutter), n) && multiset(Flatten(split(gutter))) == multiset(gutter)
  }

  ghost predicate Acceptable(requests: seq<Request>, n: nat)
  {
    forall i | 0 <= i < |requests| :: Fine(requests[i], n)
  }

  ghost predicate Fine(request: Request, n: nat)
  {
    match request
    case Change(u, v) => u < n && v < n
    case Ask(kind, split) => Groups(split, n) && (kind.OnePair? ==> kind.a < n && kind.b < n)
  }

  /** The graph after a log. */
  ghost function GraphOf(edges: set<nat>, log: seq<Event>): set<nat>
  {
    if log == [] then edges
    else
      match Last(log)
      case Changed(u, v) => ToggleEdge(GraphOf(edges, Init(log)), u, v)
      case Asked(_, _, _, _) => GraphOf(edges, Init(log))
  }

  /** What is buffered after a log: everything since the last query that was not cached. */
  ghost function PendingOf(first: seq<(nat, nat)>, log: seq<Event>): seq<(nat, nat)>
  {
    if log == [] then first
    else
      match Last(log)
      case Changed(u, v) => PendingOf(first, Init(log)) + [(u, v), (v, u)]
      case Asked(cached, _, _, _) => if cached then PendingOf(first, Init(log)) else []
  }

  /** No query that read the sketches has met a harmful collision, in its graph or in its batches. */
  ghost predicate CollisionFree(cfg: Config, n: nat, edges: set<nat>, log: seq<Event>)
  {
    log != [] ==>
      && CollisionFree(cfg, n, edges, Init(log))
      && (Last(log).Asked? && !Last(log).cached ==>
            FaithfulGraph(cfg, GraphOf(edges, Init(log)), n) && NoCollisions(cfg, Last(log).batches))
  }

  /** A query that read the sketches left the cache alone, or refilled it; but a point query that
      succeeded on a graph with edges left it stale. */
  ghost predicate Refilled(edges: set<nat>, e: Event)
    requires e.Asked?
  {
    e.reply.Listing? || e.st != Ok || edges == {}
  }

  /** The last query that read the sketches did not leave the cache stale. */
  ghost predicate Trusted(honest: bool, edges: set<nat>, log: seq<Event>)
  {
    if log == [] then honest
    else if Last(log).Asked? && !Last(log).cached then Refilled(GraphOf(edges, Init(log)), Last(log))
    else Trusted(honest, edges, Init(log))
  }

  /** The update adds an edge to the graph, or is a self-loop, which changes nothing. */
  predicate Adds(edges: set<nat>, u: nat, v: nat)
  {
    u == v || Id(u, v) !in edges
  }

  /** Since the last successful query, or since a start with a valid cache, edges were only added. */
  ghost predicate OnlyAdded(valid: bool, edges: set<nat>, log: seq<Event>)
  {
    if log == [] then valid
    else
      match Last(log)
      case Changed(u, v) => OnlyAdded(valid, edges, Init(log)) && Adds(GraphOf(edges, Init(log)), u, v)
      case Asked(cached, _, st, _) => st == Ok || (cached && OnlyAdded(valid, edges, Init(log)))
  }

  /** The cache was valid at the start, or some query has succeeded. */
  predicate Primed(valid: bool, log: seq<Event>)
  {
    if log == [] then valid else Primed(valid, Init(log)) || Succeeded(Last(log))
  }

  predicate Succeeded(e: Event)
  {
    e.Asked? && e.st == Ok
  }

  ghost predicate RightReply(reply: Reply, edges: set<nat>, n: nat)
  {
    match reply
    case Listing(components) => ListsComponents(components, edges, n)
    case Verdict(a, b, same) => same <==> Connected(edges, a, b)
  }

  predicate Suits(kind: Question, reply: Reply)
  {
    match kind
    case AllComponents => reply.Listing?
    case OnePair(a, b) => reply.Verdict? && reply.a == a && reply.b == b
  }

  /** A right answer for its graph; a cached one is never missing, and neither is one from enough
      sketches that do not fail. */
  ghost predicate RightEvent(cfg: Config, n: nat, edges: set<nat>, e: Event)
    requires e.Asked?
  {
    && e.st in {Ok, OutOfSketches}
    && (e.st == Ok ==> RightReply(e.reply, edges, n))
    && (e.cached ==> e.st == Ok)
    && (NeverFails(cfg, edges) && n < Pow2(cfg.sketches) ==> e.st == Ok)
  }

  /** Every request was answered in turn. A query that was not cached flushed what was pending,
      grouped its way. A query right after a successful one is cached, the first is if the cache was
      valid. As long as there was no collision every answer is right that was not taken from a stale
      cache, a query is cached if edges were only added since the last successful one, and none is
      before the first success. */
  ghost predicate Served(cfg: Config, n: nat, start: Books, requests: seq<Request>, log: seq<Event>)
  {
    && |log| <= |requests|
    && (log != [] ==>
          var init, e := Init(log), Last(log);
          && Served(cfg, n, start, requests, init)
          && match requests[|init|]
             case Change(u, v) => e == Changed(u, v)
             case Ask(kind, split) =>
               && e.Asked? && Suits(kind, e.reply) && (!e.cached ==> e.batches == split(PendingOf(start.gutter, init)))
               && (if init == [] then e.cached == start.valid else Succeeded(Last(init)) ==> e.cached)
               && (start.sound && CollisionFree(cfg, n, start.edges, init) ==>
                     && (Trusted(start.honest, start.edges, init) && OnlyAdded(start.valid, start.edges, init) ==> e.cached)
                     && (e.cached ==> Primed(start.valid, init)))
               && (start.sound && CollisionFree(cfg, n, start.edges, log) && (e.cached ==> Trusted(start.honest, start.edges, init)) ==>
                     RightEvent(cfg, n, GraphOf(start.edges, init), e)))
  }

  /** A log of the run so far, and the state it accounts for. */
  ghost predicate Recorded(cfg: Config, n: nat, start: Books, requests: seq<Request>, log: seq<Event>, now: Books)
  {
    && Served(cfg, n, start, requests, log)
    && now.edges == GraphOf(start.edges, log) && now.gutter == PendingOf(start.gutter, log)
    && now.sound == (start.sound && CollisionFree(cfg, n, start.edges, log))
    && (if log == [] then now.valid == start.valid else Succeeded(Last(log)) ==> now.valid)
    && (now.sound && now.valid ==> Primed(start.valid, log))
    && (now.sound && Trusted(start.honest, start.edges, log) ==> now.honest && (OnlyAdded(start.valid, start.edges, log) ==> now.valid))
  }

  lemma RecordNothing(cfg: Config, n: nat, start: Books, requests: seq<Request>)
    ensures Recorded(cfg, n, start, requests, [], start)
  {
  }

  lemma RecordChange(cfg: Config, n: nat, start: Books, requests: seq<Request>, log: seq<Event>, now: Books,
                     u: nat, v: nat, valid: bool, honest: bool)
    requires Recorded(cfg, n, start, requests, log, now)
    requires |log| < |requests| && requests[|log|] == Change(u, v)
    requires now.sound && now.honest ==> honest && (now.valid && Adds(now.edges, u, v) ==> valid)
    requires valid ==> now.valid
    ensures Recorded(cfg, n, start, requests, log + [Changed(u, v)],
                     Books(ToggleEdge(now.edges, u, v), now.gutter + [(u, v), (v, u)], now.sound, valid, honest))
  {
    var log' := log + [Changed(u, v)];
    assert Init(log') == log && Last(log') == Changed(u, v);
  }

  lemma RecordAsk(cfg: Config, n: nat, start: Books, requests: seq<Request>, log: seq<Event>, now: Books,
                  e: Event, sound: bool, valid: bool, honest: bool)
    requires Recorded(cfg, n, start, requests, log, now)
    requires |log| < |requests| && requests[|log|].Ask? && e.Asked? && Suits(requests[|log|].kind, e.reply)
    requires e.cached == now.valid && (!e.cached ==> e.batches == requests[|log|].split(now.gutter))
    requires (e.st == Ok ==> valid) && (sound ==> valid == (e.cached || e.st == Ok))
    requires sound == (now.sound && (!e.cached ==> FaithfulGraph(cfg, now.edges, n) && NoCollisions(cfg, e.batches)))
    requires sound ==> honest == if e.cached then now.honest else Refilled(now.edges, e)
    requires sound && (e.cached ==> now.honest) ==> RightEvent(cfg, n, now.edges, e)
    ensures Recorded(cfg, n, start, requests, log + [e],
                     Books(now.edges, if e.cached then now.gutter else [], sound, valid, honest))
  {
    var log' := log + [e];
    assert Init(log') == log && Last(log') == e;
  }

  lemma AddedNotInForest(g: Graph, u: nat, v: nat)
    requires g.Healthy() && g.sound && g.dsuValid && u < g.n && v < g.n && Adds(g.Edges(), u, v)
    ensures Id(u, v) !in g.forest
  {
    PairingRoundTrip(u, v);
  }

  /** Open for updates and queries, whatever has become of the cache. */
  ghost predicate Open(g: Graph)
    reads g
  {
    g.Standing() && !g.updateLocked && !g.failRound2
  }

  /** One update, on the terms of the log. */
  method Take(g: Graph, u: nat, v: nat)
    requires Open(g) && u < g.n && v < g.n
    modifies g
    ensures Open(g) && g.Edges() == ToggleEdge(old(g.Edges()), u, v)
    ensures g.gutter == old(g.gutter) + [(u, v), (v, u)] && g.sound == old(g.sound)
    ensures g.sound && old(g.CacheHonest()) ==>
      g.CacheHonest() && (old(g.dsuValid) && Adds(old(g.Edges()), u, v) ==> g.dsuValid)
    ensures g.dsuValid ==> old(g.dsuValid)
  {
    if g.Healthy() && g.sound && g.dsuValid && Adds(g.Edges(), u, v) { AddedNotInForest(g, u, v); }
    var _ := g.Update(u, v);
  }

  /** What every query does on the terms of the log. */
  twostate predicate Queried(g: Graph, kind: Question, split: seq<(nat, nat)> -> seq<Batch>, e: Event)
    reads g
  {
    && Open(g) && g.Edges() == old(g.Edges())
    && e.Asked? && Suits(kind, e.reply) && e.cached == old(g.dsuValid)
    && (if e.cached then g.sound == old(g.sound) && g.gutter == old(g.gutter)
        else
          && e.batches == split(old(g.gutter)) && g.gutter == []
          && g.sound == (old(g.sound) && FaithfulGraph(g.cfg, g.Edges(), g.n) && NoCollisions(g.cfg, e.batches)))
    && (e.st == Ok ==> g.dsuValid) && (g.sound ==> g.dsuValid == (e.cached || e.st == Ok))
    && (g.sound ==> g.CacheHonest() == if e.cached then old(g.CacheHonest()) else Refilled(g.Edges(), e))
    && (g.sound && (e.cached ==> old(g.CacheHonest())) ==> RightEvent(g.cfg, g.n, g.Edges(), e))
  }

  method AnswerAll(g: Graph, split: seq<(nat, nat)> -> seq<Batch>) returns (e: Event)
    requires Open(g) && Groups(split, g.n)
    modifies g
    ensures Queried(g, AllComponents, split, e)
  {
    var cached, batches := g.dsuValid, split(g.gutter);
    var st, components := g.ConnectedComponents(true, null, batches);
    e := Asked(cached, batches, st, Listing(components));
  }

  method AnswerPair(g: Graph, a: nat, b: nat, split: seq<(nat, nat)> -> seq<Batch>) returns (e: Event)
    requires Open(g) && Groups(split, g.n) && a < g.n && b < g.n
    modifies g
    ensures Queried(g, OnePair(a, b), split, e)
  {
    var cached, batches := g.dsuValid, split(g.gutter);
    var st, same := g.PointQuery(a, b, null, batches);
    e := Asked(cached, batches, st, Verdict(a, b, same));
  }

  method ServeOne(g: Graph, requests: seq<Request>, log: seq<Event>, ghost start: Books) returns (e: Event)
    requires Open(g) && |log| < |requests| && Fine(requests[|log|], g.n)
    requires Recorded(g.cfg, g.n, start, requests, log, BooksOf(g))
    modifies g
    ensures Open(g) && Recorded(g.cfg, g.n, start, requests, log + [e], BooksOf(g))
  {
    ghost var now := BooksOf(g);
    match requests[|log|] {
      case Change(u, v) =>
        Take(g, u, v);
        e := Changed(u, v);
        RecordChange(g.cfg, g.n, start, requests, log, now, u, v, g.dsuValid, g.CacheHonest());
      case Ask(kind, split) =>
        e := Answer(g, kind, split);
        RecordAsk(g.cfg, g.n, start, requests, log, now, e, g.sound, g.dsuValid, g.CacheHonest());
    }
  }

  method Answer(g: Graph, kind: Question, split: seq<(nat, nat)> -> seq<Batch>) returns (e: Event)
    requires Open(g) && Groups(split, g.n) && (kind.OnePair? ==> kind.a < g.n && kind.b < g.n)
    modifies g
    ensures Queried(g, kind, split, e)
  {
    match kind {
      case AllComponents => e := AnswerAll(g, split);
      case OnePair(a, b) => e := AnswerPair(g, a, b, split);
    }
  }

  method ServeAll(g: Graph, requests: seq<Request>) returns (log: seq<Event>)
    requires Open(g) && Acceptable(requests, g.n)
    modifies g
    ensures Open(g) && |log| == |requests| && Recorded(g.cfg, g.n, old(BooksOf(g)), requests, log, BooksOf(g))
  {
    log := [];
    ghost var start := BooksOf(g);
    RecordNothing(g.cfg, g.n, start, requests);
    for i := 0 to |requests|
      invariant Open(g) && |log| == i && Recorded(g.cfg, g.n, start, requests, log, BooksOf(g))
    {
      assert Fine(requests[i], g.n);
      var e := ServeOne(g, requests, log, start);
      log := log + [e];
    }
  }

  /** Over every serial run, whatever the grouping, the books stay balanced; soundness is lost
      exactly by a collision in a query that read the sketches; and up to then every answer was
      right for the graph of its moment, unless it came from a cache that a point query left stale. */
  method Serve(g: Graph, requests: seq<Request>) returns (log: seq<Event>)
    requires Open(g) && Acceptable(requests, g.n)
    modifies g
    ensures Open(g) && |log| == |requests| && Served(g.cfg, g.n, old(BooksOf(g)), requests, log)
    ensures g.Edges() == GraphOf(old(g.Edges()), log) && g.gutter == PendingOf(old(g.gutter), log)
    ensures g.sound == (old(g.sound) && CollisionFree(g.cfg, g.n, old(g.Edges()), log))
    ensures g.sound && Trusted(old(g.CacheHonest()), old(g.Edges()), log) ==> g.Healthy()
  {
    log := ServeAll(g, requests);
  }

  /** Every update of the log adds an edge. */
  ghost predicate Growing(edges: set<nat>, log: seq<Event>)
  {
    log != [] ==>
      && Growing(edges, Init(log))
      && (Last(log).Changed? ==> Adds(GraphOf(edges, Init(log)), Last(log).u, Last(log).v))
  }

  /** A run of insertions and queries from a valid and right cache never reads a sketch: every query
      is answered, and rightly, whatever collisions there may be and however few sketches. */
  lemma {:induction false} InsertionsNeedNoSketches(cfg: Config, n: nat, start: Books, requests: seq<Request>, log: seq<Event>)
    requires Served(cfg, n, start, requests, log) && Growing(start.edges, log)
    requires start.sound && start.valid && start.honest
    ensures CollisionFree(cfg, n, start.edges, log)
    ensures Trusted(start.honest, start.edges, log) && OnlyAdded(start.valid, start.edges, log)
    ensures forall i | 0 <= i < |log| && log[i].Asked? ::
      log[i].cached && log[i].st == Ok && RightReply(log[i].reply, GraphOf(start.edges, log[..i]), n)
    decreases |log|
  {
    if log != [] {
      InsertionsNeedNoSketches(cfg, n, start, requests, Init(log));
      forall i | 0 <= i < |log| && log[i].Asked?
        ensures log[i].cached && log[i].st == Ok && RightReply(log[i].reply, GraphOf(start.edges, log[..i]), n)
      {
        if i < |log| - 1 {
          assert Init(log)[i] == log[i] && Init(log)[..i] == log[..i];
        }
      }
    }
  }

  /** Without point queries the cache is never stale. */
  lemma {:induction false} ListingsKeepTrust(cfg: Config, n: nat, start: Books, requests: seq<Request>, log: seq<Event>)
    requires Served(cfg, n, start, requests, log) && start.honest
    requires forall i | 0 <= i < |log| && requests[i].Ask? :: requests[i].kind.AllComponents?
    ensures Trusted(start.honest, start.edges, log)
    decreases |log|
  {
    if log != [] { ListingsKeepTrust(cfg, n, start, requests, Init(log)); }
  }
}
