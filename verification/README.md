# A verified model of GraphZeppelin

GraphZeppelin keeps a dynamic graph as linear sketches: for every node a *supernode*, a stack of
XOR sketches of the edges at that node. An update toggles an edge. A connectivity query runs
Boruvka's algorithm on the sketches alone: sample an edge out of every component, unite, add the
sketches up, repeat. Beside the sketches an *eager* union-find keeps a cached answer as long as no
edge of its spanning forest is toggled away.

This project models that system in Dafny and proves what it is for. `dafny verify dfyconfig.toml`
checks all of it.

## How the files fit together

| files | subject |
|---|---|
| `Basics`, `Bits`, `Edges`, `Connectivity` | XOR, the edge encoding, walks, cuts and forests: the independent notion of a connected component |
| `DisjointSets`, `UnionFind`, `AtomicUnion`, `Answers`, `Verifier` | union-find, its atomic variant under any number of threads, component lists, and the adjacency-matrix reference with Kruskal's algorithm |
| `Sketches`, `SketchObject`, `Columns`, `Seeds` | a sketch as the fold of a set, the in-place object that refines it, what it holds and finds in terms of the hashes, the column seeds |
| `Supernodes`, `SupernodeObject` | stacks of sketches, the sampling window, the query-once discipline, and the object that owns sketch objects |
| `Updates` | half-updates, batches, and why their grouping and order do not matter |
| `Rounds`, `RoundSteps`, `ParallelMerge`, `Progress`, `Emulation`, `EmulationRuns` | one Boruvka round and whole runs of rounds, on values |
| `EagerCache`, `Graph`, `Serving` | the `Graph` object with its public operations, and whole serial runs |
| `Witnesses`, `StaleCache` | instances of the hypotheses, and inputs on which the source fails an expectation |
| `Stream`, `StreamRuns`, `Ingestion` | the `fetch_add` stream splitter as interleaved steps of any number of readers, where and that they stop, and the graph that comes of it |
| `Workers`, `WorkerRuns` | the worker threads and the pause/unpause handshake as interleaved steps, and why its waits end |
| `SketchBytes`, `SupernodeBytes`, `DiskBackup` | the binary formats and the backup on disk |

## What is assumed, and where it is discharged

* Hashes are uninterpreted: `Config` carries the checksum and the depth function as parameters. That no
  harmful collision occurs is a hypothesis about the cuts of the graph in question
  (`FaithfulGraph`: a zero deterministic bucket means an empty cut, and a good bucket holds just the
  index it reports) and about the batches applied (`NoCollisions`, which is exactly that no addition skipped by
  `operator+=` loses anything). `Graph` carries a ghost flag `sound` that says the hypothesis has held so far;
  every contract states exactly when the flag survives the call, and `Serving.Serve` when it survives a
  whole run. `Witnesses.PerfectGraphs` exhibits 64-bit checksums under which every graph of up to eight
  nodes and every batch meets it, and `StaleCache.PointQueryLeavesStaleCache` is a complete history under one.
* What does not need the hypothesis is proved without it: termination of the emulation on every
  run, bogus samples included, the shape of every round, race freedom, the query-once discipline.
* The guttering system is a buffer that may group and reorder half-updates in any way: a flush takes an
  arbitrary list of batches that together hold just what was buffered (`Graph.Splits`).
* With backups on disk, sizes and checksums fit the fields of the format (`Writable`); that all buckets do
  is then proved (`GraphModel.FilledStorable`).
* Clocks, printing and the file system are left out; a verifier object may be attached or not (`ver` may be null),
  which stands for the verification build.

## Where the source does not do what one would expect

Each of these is kept as it is in the model, with the exact condition or a concrete counterexample.

* `operator+=` on sketches skips the addition when the other deterministic bucket is zero. It is then the
  symmetric difference exactly if that sketch is zero everywhere (`Sketches.MergeIsSymDiff`; `Witnesses.SkipLosesIndex`
  is an input where it is not).
* `point_query` resets the union-find after setting `dsu_valid`; the cache is then right exactly if the graph has
  no edges (`GraphModel.Graph.PointQuery`; `StaleCache.PointQueryLeavesStaleCache` is an input, and
  `StaleCache.StaleCacheAnswersWrongly` shows the wrong answer that follows).
* `connected_components(false)` ignores the cache, clears it, and leaves `dsu_valid` set when it throws. A throw
  may leave a right cache or a wrong one: after a call that reads the sketches the cache is honest exactly if it does not claim
  validity while some class still has an edge out of it (`GraphModel.Graph.ConnectedComponents`). Before the call, it is
  enough that the flag is down, that a right cache is used, or that no sketch fails and n < 2^(sketches + 1). An input
  on which it goes wrong is in `StaleCache.ThrowLeavesStaleCache`.
* `write_binary` on a graph never unpauses the workers. A pause on paused workers returns quiescent exactly if
  nothing was queued since (`Workers.PauseQuiesces`, `Workers.UpdateAfterWriteIsMissed`).
* `Supernode::write_binary` tags sparse data as full, so reading back works for every supernode exactly
  if the data is not sparse (`SupernodeBytes.FullRoundTripIff`).
* `write_binary_range` adds its bounds in 32 bits, and restores the range asked for exactly if the sum
  does not wrap (`SupernodeBytes.PartialRoundTrip`).
* `MT_DisjoinSetUnion::merge` compares and swaps the wrong parent, and so never links
  (`UnionFind.DisjointSetUnion.AtomicMerge`, `AtomicUnion.NobodyJoins`).
* Two concurrent eager unions can tie two roots into a ring (`StaleCache.ConcurrentUnionsTangle`); `Graph.Update`
  is therefore one atomic step.
* The column seeds of a supernode are distinct exactly if the number of columns is not a multiple
  of 5 (`Seeds.DistinctIff`), while the test expects them always to be.
* Not every representative is a root: one that failed to sample and was absorbed by another root stays a
  representative for a round (`Witnesses.AbsorbedRepresentative` is such a round). The invariant of a run (`Rounds.Inv`)
  says what holds instead.

## Model

| member | source | states |
|---|---|---|
| `Edges.PairingRoundTrip` | src/util.cpp:44-56 | decoding an edge id gives back its endpoints in order; the id does not depend on the order of the endpoints |
| `Edges.DecodeThenEncode` | src/util.cpp:44-56 | encoding undoes decoding on ids of proper edges |
| `Sketches.FoldSymDiff` | include/l0_sampling/bucket.h:64-68 | the bucket of a symmetric difference is the XOR of the buckets |
| `Sketches.UpdateToggles` | src/l0_sampling/sketch.cpp:75-88 | an update turns the sketch of a set into the sketch of the set with that index toggled |
| `Sketches.UpdatesGiveParity` | src/l0_sampling/sketch.cpp:90-94 | after any updates every bucket is the fold of the indices met an odd number of times that land there |
| `Sketches.UpdatesCommute` | src/l0_sampling/sketch.cpp:90-94 | update sequences of equal parity give equal sketches: order is irrelevant and repeats cancel |
| `Sketches.AddIsSymDiff` | src/l0_sampling/sketch.cpp:152-155 | the bucket-wise XOR of two sketches with one seed is the sketch of the symmetric difference |
| `Sketches.MergeIsSymDiff` | src/l0_sampling/sketch.cpp:147-157 | with the early return, `+=` is the symmetric difference if and only if a zero deterministic bucket means a zero sketch |
| `Sketches.QueryCorrect` | src/l0_sampling/sketch.cpp:96-116 | on a faithful set a query says ZERO iff it is empty, GOOD only with a member, FAIL iff it is not empty and no bucket isolates an index |
| `Sketches.ExhaustiveAgrees` | src/l0_sampling/sketch.cpp:118-145 | the exhaustive query gives the same code, contains the answer of the plain one, and only members |
| `Columns.UpdateLands` | src/l0_sampling/sketch.cpp:75-88 | an update adds the index and its checksum to the last bucket and, in each column c, to the bucket of its depth at seed + 5c; every other bucket stays |
| `Columns.UpdatesLand` | src/l0_sampling/sketch.cpp:75-94 | after any updates bucket c * guesses + d holds the XOR of just the odd indices of depth d in column c and of their checksums |
| `Columns.BucketHolds` | include/l0_sampling/sketch.h:137 | so does the sketch of a set |
| `Columns.QueryAnswersIff` | src/l0_sampling/sketch.cpp:96-116 | on a faithful set a query is answered iff the set has at most one member or some member is alone at a depth of a column |
| `Columns.QueryFindsFirst` | src/l0_sampling/sketch.cpp:96-116 | with two or more members it returns the one alone at the earliest column and depth |
| `Columns.ExhaustiveFindsAll` | src/l0_sampling/sketch.cpp:118-145 | the exhaustive query returns exactly the members that are alone somewhere, or the only one |
| `Sketches.FaithfulInstance` | include/l0_sampling/bucket.h:56-62 | a checksum with one bit per index is faithful on every subset |
| `SketchObject.Sketch.constructor` | src/l0_sampling/sketch.cpp:28-38 | a new sketch is all zero and unqueried |
| `SketchObject.Sketch.Update` | src/l0_sampling/sketch.cpp:75-88 | the loop over the columns, on the two arrays, refines the update of the bucket sequence |
| `SketchObject.Sketch.BatchUpdate` | src/l0_sampling/sketch.cpp:90-94 | the loop refines the sequence of updates |
| `SketchObject.Sketch.Query` | src/l0_sampling/sketch.cpp:96-116 | throws iff already queried, marks the sketch, returns what the first-good-bucket scan says, changes no bucket |
| `SketchObject.Sketch.ExhaustiveQuery` | src/l0_sampling/sketch.cpp:118-145 | collects all good buckets; the mark is left unset exactly on the early returns |
| `SketchObject.Sketch.Add` | src/l0_sampling/sketch.cpp:147-157 | in-place addition with the early return, of another sketch or of itself; the query marks are or-ed |
| `SketchObject.Sketch.Copy` | src/l0_sampling/sketch.cpp:67-73 | a copy has the same buckets in memory of its own, and no query mark |
| `Seeds.DistinctIff` | include/l0_sampling/sketch.h:137 | over at least two sketches, column seeds are pairwise distinct iff the number of columns is not divisible by 5 |
| `Supernodes.StepKeepsDiscipline` | src/supernode.cpp:87-136 | every operation keeps queried sketches below the window and never raises MultipleQuery |
| `Supernodes.NeverMultipleQuery` | src/supernode.cpp:87-136 | the same over every sequence of operations on a pool of supernodes |
| `Supernodes.SampleMeans` | src/supernode.cpp:87-94 | sampling a supernode of a faithful set: out of queries iff the window is empty, never MultipleQuery, ZERO iff the set is empty, else a member or FAIL, as its next sketch says; one sketch is used up and all content stays |
| `Supernodes.ExhaustiveMeans` | src/supernode.cpp:96-107 | exhaustive sampling gives the same code, only members, among them the index sampling would return; one sketch is used up, and marked iff there are two or more members |
| `Columns.NodeFindsAll` | src/supernode.cpp:96-107 | of two or more members exactly those alone somewhere in sketch i, under seed base + i * columns |
| `Columns.NodeBuckets` | src/supernode.cpp:10-20 | what each bucket of sketch i of a supernode holds after updates, under seed base + i * columns |
| `Supernodes.SecondQueryRefused` | src/supernode.cpp:87-94 | MultipleQuery iff the next sketch has been queried, and the window then moves on |
| `Supernodes.CopyMeans` | src/supernode.cpp:64-70 | a copy has the window and content of its original and answers as it would, with no sketch marked |
| `Supernodes.MergeMeans` | src/supernode.cpp:109-114 | merging supernodes of two sets gives a supernode of the symmetric difference on the intersection of the windows |
| `Supernodes.RangeMergeMeans` | src/supernode.cpp:116-123 | so does a merge up to a named end, as far as both windows reach; sketches outside the new window stay |
| `Supernodes.DeltaMeans` | src/supernode.cpp:130-166 | applying a delta supernode adds the odd indices of the batch, and equals updating one by one, if and only if no skipped addition loses anything |
| `SupernodeObject.Node.constructor` | src/supernode.cpp:10-20 | the loop with the running seed creates sketch objects that share no memory and stand for the empty supernode |
| `SupernodeObject.Node.Copy` | src/supernode.cpp:64-70 | copied sketch objects: same window and buckets, no query marks, no shared memory |
| `SupernodeObject.DeltaSupernode` | src/supernode.cpp:159-166 | a new supernode whose sketch objects have each taken the batch is the delta of that batch |
| `SupernodeObject.Node.Sample` | src/supernode.cpp:87-94 | querying the next sketch object refines sampling: one mark set, the window moved even when the sketch throws, every other sketch and every bucket untouched |
| `SupernodeObject.Node.ExhaustiveSample` | src/supernode.cpp:96-107 | the same for the exhaustive query, whose early returns leave the mark unset |
| `SupernodeObject.Node.Merge` | src/supernode.cpp:109-114 | adding sketch objects in place on the intersection of the windows refines the merge of values, also of a supernode with itself |
| `SupernodeObject.Node.RangeMerge` | src/supernode.cpp:116-123 | the same with the end of the window named by the caller |
| `SupernodeObject.Node.Update` | src/supernode.cpp:125-128 | every sketch object takes the update in place |
| `SupernodeObject.Node.ApplyDeltaUpdate` | src/supernode.cpp:130-136 | every sketch object adds its counterpart, query marks included |
| `SupernodeObject.Node.ResetQueryState` | include/supernode.h:118-123 | marks below the window are cleared on the sketch objects and the window reopens from 0 |
| `DisjointSets.ReparentKeepsRoots` | include/dsu.h:23-29 | moving a node under a larger node of its own class keeps every node's root |
| `DisjointSets.LinkJoins` | include/dsu.h:31-40 | linking unites exactly two classes and removes exactly one root |
| `DisjointSets.LinkValid` | include/dsu.h:31-40 | union by size keeps the forest well-founded and every root's size the cardinality of its class |
| `DisjointSets.DepthBound` | include/dsu.h:31-40 | 2^depth(v) is at most the size of v's root |
| `DisjointSets.SizesSumToN` | include/dsu.h:31-40 | the root sizes sum to the number of nodes |
| `DisjointSets.SpanningLink` | src/graph.cpp:186-202 | a link along an edge keeps the forest acyclic, spanning the classes, with edges plus classes equal to n |
| `UnionFind.DisjointSetUnion.FindRoot` | include/dsu.h:23-29 | path halving terminates, returns the root, only shortens paths, and puts the node under its grandparent |
| `UnionFind.DisjointSetUnion.Merge` | include/dsu.h:31-40 | reports a merge iff the roots differed, names surviving root and child, and unites just those classes |
| `UnionFind.DisjointSetUnion.AtomicMerge` | include/dsu.h:72-84 | the thread-safe variant never merges anything: it only shortens paths and reports false |
| `AtomicUnion.NobodyJoins` | include/dsu.h:64-84 | nor does it in any interleaving of any number of threads: roots and classes stay, every merge that returns reports false, and no thread gets stuck |
| `UnionFind.DisjointSetUnion.Reset` | include/dsu.h:42-47 | every node is its own root again |
| `Answers.ClassListIsComponents` | src/graph.cpp:412-421 | if union-find classes are the components, their list in root order holds every component once and nothing else |
| `Answers.ClassListRightIff` | src/graph.cpp:412-421 | and it is right only then |
| `Answers.SameAnswer` | src/graph.cpp:347-410 | two lists of all components of a graph are equal up to order, so the cached and the sketch answer agree |
| `Answers.ReorderedAnswer` | test/util/mat_graph_verifier.cpp:80-88 | whatever is equal to a right answer up to order is a right answer |
| `Verifier.MatGraphVerifier.constructor` | test/util/mat_graph_verifier.cpp:8-12 | an empty triangular adjacency matrix |
| `Verifier.MatGraphVerifier.EdgeUpdate` | test/util/mat_graph_verifier.cpp:14-21 | toggles the edge in the graph the matrix stands for |
| `Verifier.MatGraphVerifier.Kruskal` | test/util/mat_graph_verifier.cpp:32-52 | returns exactly the connected components of the toggled graph |
| `Verifier.MatGraphVerifier.ResetCcState` | test/util/mat_graph_verifier.cpp:24-30 | reference answer computed, union-find and sets back to singletons |
| `Verifier.MatGraphVerifier.VerifyEdge` | test/util/mat_graph_verifier.cpp:54-70 | accepts iff the edge exists and joins two of its classes, which it then unites |
| `Verifier.MatGraphVerifier.VerifyCc` | test/util/mat_graph_verifier.cpp:72-78 | accepts iff the node's class is a connected component |
| `Verifier.MatGraphVerifier.VerifySoln` | test/util/mat_graph_verifier.cpp:80-88 | accepts an answer if and only if it lists the connected components of the toggled graph |
| `Updates.ToggledOrder` | include/graph.h:125-156 | the graph does not depend on the order of the updates |
| `Updates.HalvesGiveCut` | include/graph.h:129-131 | the ids a node receives an odd number of times are its incident edges; self-loops cancel |
| `Updates.BatchesAreUpdates` | src/graph.cpp:115-136 | applying batches as deltas leaves each supernode as if updated one by one |
| `Updates.BatchingIndependent` | src/graph.cpp:115-136 | any grouping and order of the same half-updates gives equal supernodes |
| `Updates.StreamIngested` | src/graph.cpp:115-136 | after any grouping of a stream's half-updates each supernode holds the sketch of its node's edges |
| `Rounds.MergeIsRaceFree` | src/graph.cpp:193-216 | to_merge lists are duplicate-free and pairwise disjoint, and a listed node has an empty list |
| `Rounds.SamplingKeepsInv` | src/graph.cpp:138-155 | sampling keeps the cut invariant and tells the truth about every represented cut |
| `Rounds.RootsStayRepresented` | src/graph.cpp:205-216 | every root with a non-empty cut is a representative in the next round |
| `Rounds.RoundKeepsInv` | src/graph.cpp:157-246 | after the merges each root's supernode holds the cut of its class; a round that modified nothing has found the components |
| `Rounds.QuietRoundMeansComponents` | src/graph.cpp:157-218 | if a round modifies nothing the classes are the connected components, FAIL samples and absorbed representatives included |
| `ParallelMerge.ListsAreClean` | src/graph.cpp:193-216 | the lists of a round never read and write one supernode from two iterations |
| `ParallelMerge.EveryScheduleAgrees` | src/graph.cpp:220-246 | every interleaving of copies and merges that lets all iterations finish gives the same supernodes and the same copies |
| `ParallelMerge.RoundSchedules` | src/graph.cpp:193-246 | in particular after every round, whatever was sampled |
| `Progress.RoundUsesSamples` | src/graph.cpp:288-304 | a completed round with representatives strictly lowers the number of samples left, whatever was sampled |
| `Progress.ActiveHalves` | src/graph.cpp:157-218 | without FAIL the number of roots with a non-empty cut at least halves |
| `Progress.NoneActiveIff` | src/graph.cpp:157-218 | classes united along graph edges are the components if and only if no class has an edge out of it |
| `Supernodes.ResetRestores` | include/supernode.h:118-123 | a reset brings a supernode with unchanged content back to its exact state before the query |
| `Emulation.NoOffence` | src/graph.cpp:157-202 | in a faithful round every sampled edge is an edge of the graph, and every ZERO belongs to a full component |
| `EmulationRuns.RunKeepsInv` | src/graph.cpp:287-304 | the cut invariant holds at the start of every round of every run |
| `EmulationRuns.RunFindsComponents` | src/graph.cpp:287-317 | every faithful run that ends unmodified has the components, and a spanning forest of graph edges |
| `EmulationRuns.RunKeepsBackup` | src/graph.cpp:268-299 | at any point of a faithful run the copies, in memory or from disk, and the untouched supernodes still hold all original content |
| `EmulationRuns.RunOnBudget` | src/graph.cpp:288-304 | after k rounds without FAIL at most n / 2^k roots are active and k sketches are spent |
| `EmulationRuns.EnoughSketches` | src/graph.cpp:288-304 | so with n < 2^sketches no round of a run without FAIL runs out |
| `EmulationRuns.OneSketchShort` | src/graph.cpp:288-309 | with n < 2^(sketches + 1) it may, but only when all components have been found |
| `EmulationRuns.HopelessRun` | src/graph.cpp:157-218 | if every sketch of every single node fails, no round unites anything and each is followed by another |
| `EmulationRuns.OneQuietRound` | src/graph.cpp:287-304 | a first round without a successor means a graph without edges, so with fail_round_2 a query on any other graph throws |
| `EagerCache.CacheLink` | include/graph.h:138-150 | uniting the classes of a new edge's endpoints keeps the cache right and the forest spanning |
| `EagerCache.CacheInside` | include/graph.h:138-150 | toggling an edge inside a class that is not in the forest keeps the cache right, even when that removes the edge |
| `EagerCache.SingletonsRightIff` | src/graph.cpp:460-464 | singletons are a right cache iff the graph has no edges |
| `GraphModel.Graph.GetParent` | src/graph.cpp:474-477 | recursive path compression terminates, returns the root, puts the node right under it, and changes a parent only to the root |
| `GraphModel.Graph.SampleSupernodes` | src/graph.cpp:138-155 | every representative is sampled once; an exception is reported iff some sample threw |
| `GraphModel.Graph.MergeAlong` | src/graph.cpp:179-202 | one sampled edge: verified, linked by size, lists absorbed, forest grown; nothing if already joined |
| `GraphModel.Graph.CheckZero` | src/graph.cpp:170-175 | a ZERO is refused iff the attached verifier does not see a full component |
| `GraphModel.Graph.SupernodesToMerge` | src/graph.cpp:157-218 | the whole pass has the shape of a round, and the verifier's partition stays equal to the graph's |
| `GraphModel.Graph.BackupToDisk` | src/graph.cpp:319-331 | the loop writes the named supernodes one after the other |
| `GraphModel.Graph.MergeSupernodes` | src/graph.cpp:220-246 | each representative absorbs its list; copies hold the supernodes as they were before merging |
| `GraphModel.Graph.Round` | src/graph.cpp:288-299 | a round is complete or abandoned for a stated reason |
| `GraphModel.Graph.OnlyExcuse` | src/graph.cpp:287-309 | on a faithful graph, verifier attached or not, the only reason is running out of sketches, and never when well supplied |
| `GraphModel.Graph.RunRounds` | src/graph.cpp:287-304 | the do-while loop ends on every input, with a log of rounds that is a run |
| `GraphModel.Graph.CleanupCopy` | src/graph.cpp:268-276 | the copies take the place of the supernodes backed up, all others stay |
| `GraphModel.Graph.CleanupFromDisk` | src/graph.cpp:277-279 | the supernodes read from the file take the place of those backed up, all others stay |
| `GraphModel.Graph.Cleanup` | src/graph.cpp:268-281 | either way the supernodes keep their shape, and on a faithful graph all original content is back |
| `GraphModel.FilledStorable` | src/graph.cpp:319-331 | before a query every supernode can be written: however many updates it has taken, its buckets fit their fields |
| `GraphModel.Graph.CcFromDsu` | src/graph.cpp:412-421 | lists the classes in root order and only shortens paths |
| `GraphModel.Graph.RoundsWithBackup` | src/graph.cpp:287-310 | success or not, with a backup in memory or on disk every supernode keeps its content |
| `GraphModel.Graph.BoruvkaEmulation` | src/graph.cpp:248-317 | on a faithful graph: the components or OutOfQueries, nothing else; success when no sketch fails and n < 2^sketches; all found even without success when one sketch short; nothing found when every sample fails; content restored from the backup, in memory or on disk, whether it succeeds or not |
| `GraphModel.Graph.constructor` | src/graph.cpp:16-55 | an empty graph with balanced books and a valid cache |
| `GraphModel.Graph.Update` | include/graph.h:125-156 | throws iff locked, changing nothing; else buffers both halves, toggles the edge, unites the endpoints and grows the forest if they were apart, keeps a right cache right, and gives the cache up exactly when a forest edge is toggled |
| `GraphModel.Graph.ApplyBatches` | src/graph_worker.cpp:130-137 | the workers' loop over batches, empty ones skipped |
| `GraphModel.Graph.Flush` | src/graph.cpp:370-373 | however the buffer is split, afterwards each supernode holds the sketch of its node's edges |
| `GraphModel.Graph.Resume` | src/graph.cpp:398-403 | after the reset the supernodes are exactly those of right after the flush |
| `GraphModel.Graph.VerifyForest` | src/graph.cpp:355-360 | replaying the forest passes the verifier iff it is acyclic and part of the graph |
| `GraphModel.Graph.CachedComponents` | src/graph.cpp:349-368 | a valid cache answers with the connected components |
| `GraphModel.Graph.QuerySketches` | src/graph.cpp:370-410 | with more stream to come, the supernodes are afterwards what the flush made them, on success and on failure |
| `GraphModel.Graph.ConnectedComponents` | src/graph.cpp:347-410 | components of the toggled graph from a right cache or the sketches, on a sound run or whenever a verifier has accepted; what becomes of lock, buffer, supernodes and cache on every path; the exact condition for the cache to stay honest, and sufficient ones before the call |
| `GraphModel.Graph.PointQuery` | src/graph.cpp:423-472 | connected iff in one component; from the cache nothing but paths changes; otherwise the graph is flushed, unlocked, with its supernodes as the flush made them, and the reset leaves a right cache iff there are no edges |
| `Serving.Serve` | src/graph.cpp:347-472 | over every serial run of updates, queries and point queries and every grouping of the buffered updates: soundness is lost exactly by a collision in an uncached query; until then every answer not taken from a stale cache is right for the graph of its moment, and the cache is stale only after a point query that succeeded on a graph with edges; every such cached query and every well-supplied one succeeds; a query is cached if edges were only added since the last successful one, never before the first success |
| `Serving.InsertionsNeedNoSketches` | include/graph.h:138-150 | in a run of insertions and queries from a right cache every query is cached, succeeds and is right, whatever the hashes and however few sketches |
| `Serving.ListingsKeepTrust` | src/graph.cpp:347-410 | without point queries the cache is never stale |
| `StaleCache.ThrowLeavesStaleCache` | src/graph.cpp:305-309 | a triangle with two sketches on which every sample fails: the throwing query leaves dsu_valid set over single nodes |
| `StaleCache.PointQueryLeavesStaleCache` | src/graph.cpp:460-464 | three nodes, one edge, two sketches: a successful point query leaves dsu_valid set over single nodes |
| `StaleCache.StaleCacheAnswersWrongly` | src/graph.cpp:347-368 | the next connected_components then succeeds with a wrong answer |
| `Witnesses.PerfectGraphs` | include/l0_sampling/bucket.h:56-62 | a 64-bit checksum under which every graph of n <= 8 nodes and every batch on them is free of harmful collisions |
| `Witnesses.BlindQuery` | src/l0_sampling/sketch.cpp:96-116 | a sketch in which no index reaches a tracked bucket finds singletons and fails on larger sets |
| `Witnesses.SkipLosesIndex` | src/l0_sampling/sketch.cpp:147-157 | an input on which the skip of `+=` loses an index, for every set added to |
| `Witnesses.ChecksumFits` | include/l0_sampling/bucket.h:56-58 | the checksum of that instance fits 64 bits |
| `Witnesses.PathSampled` | src/supernode.cpp:87-94 | on a path of three nodes the ends sample their edge and the middle fails, in every sketch without tracked indices |
| `Witnesses.AbsorbedRepresentative` | src/graph.cpp:165-216 | a round after which a representative is not a root |
| `StaleCache.ConcurrentUnionsTangle` | include/graph.h:140-150 | two interleaved eager unions can make two roots each other's parent |
| `Stream.StepKeepsInv` | include/binary_graph_stream.h:114-185 | every step keeps: each record before the frontier handed out once or owned by one reader, and an offset past the query has a pending correction |
| `Stream.RunKeepsInv` | include/binary_graph_stream.h:114-185 | so does every run |
| `Stream.ExactlyOnce` | include/binary_graph_stream.h:155-216 | with all readers at rest, exactly the records before the offset (and query and end of file) were handed out, once each; the offset equals a registered query that stopped them |
| `Stream.PhaseDelivers` | include/binary_graph_stream.h:114-216 | a phase between two rests hands out exactly the records between the two offsets, once each |
| `Stream.PhaseUpdates` | include/binary_graph_stream.h:197-216 | in terms of updates: the part of the stream between the offsets, up to order |
| `StreamRuns.RegisteredQueryStops` | include/binary_graph_stream.h:130-135 | after register_query(k) for a record ahead, the readers stop with just the first k updates handed out and the offset at record k |
| `StreamRuns.RegisterRefused` | include/binary_graph_stream.h:130-135 | for a record at or before the offset nothing changes |
| `StreamRuns.ResumeGoesOn` | include/binary_graph_stream.h:118 | after post_query_resume the readers go on to the end of the stream |
| `StreamRuns.OnDemandStops` | include/binary_graph_stream.h:114 | after on_demand_query readers at rest take nothing more |
| `StreamRuns.EveryRunEnds` | include/binary_graph_stream.h:155-216 | however scheduled, readers take only so many steps before all have stopped |
| `StreamRuns.AllHandedOut` | include/binary_graph_stream.h:155-216 | from every state of every run they can stop with everything up to the query handed out |
| `Ingestion.SameGraph` | include/binary_graph_stream.h:155-216 | in every interleaving, with all readers at rest, the updates taken make the graph of the part of the stream before the offset |
| `Ingestion.FileIngested` | src/graph.cpp:115-136 | and once they have been batched and applied in any way, each supernode is the sketch of its node's edges in that graph |
| `Workers.StepConserves` | src/graph_worker.cpp:122-137 | no step loses or duplicates a batch |
| `Workers.StepKeepsPhase` | src/graph_worker.cpp:51-151 | every step keeps what each phase of the handshake guarantees |
| `Workers.PauseQuiesces` | src/graph_worker.cpp:51-77 | pause_workers returns with an empty queue, nothing in hand and every batch applied once, iff nothing was queued since the workers were last paused; always when called on unpaused workers |
| `Workers.UnpauseReleases` | src/graph_worker.cpp:79-106 | unpause_workers returns only with no worker paused or about to pause |
| `Workers.HeldIsStill` | src/graph_worker.cpp:139-149 | between the two no worker can take a step |
| `WorkerRuns.HandshakeCompletes` | src/graph_worker.cpp:51-106 | a pause or unpause in progress can neither go on for ever nor get stuck |
| `WorkerRuns.QueryCanRun` | src/graph_worker.cpp:51-106 | from every working state the workers can be paused with every batch applied, and set to work again |
| `Workers.QuiescentApplied` | src/graph.cpp:370-374 | at quiescence the supernodes are those of applying all batches in order of arrival |
| `Workers.UpdateAfterWriteIsMissed` | src/graph.cpp:479-493 | after write_binary, an update can be missing although the next pause has returned |
| `SketchBytes.FoldFits` | include/l0_sampling/bucket.h:64-68 | a bucket fits its two fields however many indices it has taken in |
| `SketchBytes.DenseRoundTrip` | src/l0_sampling/sketch.cpp:199-203 | dense decoding undoes encoding and leaves any following data unread |
| `SketchBytes.DenseLayout` | src/l0_sampling/sketch.cpp:199-203 | all indices come first, 8 bytes each, then all checksums |
| `SketchBytes.SparseSize` | src/l0_sampling/sketch.cpp:209-222 | sparse output has one entry per non-zero bucket, and one for the last in any case |
| `SketchBytes.SparseRoundTrip` | src/l0_sampling/sketch.cpp:209-222 | so does sparse decoding, for up to 65536 buckets |
| `SketchBytes.WriteSparse` | src/l0_sampling/sketch.cpp:209-222 | the loop writes the non-zero buckets and always the last one |
| `SketchBytes.ReadSparse` | src/l0_sampling/sketch.cpp:49-64 | the loop reads entries until the last bucket, on any input |
| `SupernodeBytes.ReadNode` | src/supernode.cpp:22-62 | the three loops fill the slots before, in and after the range under one running seed, 32-bit bounds included |
| `SupernodeBytes.FullRoundTrip` | src/supernode.cpp:168-177 | a whole supernode comes back with every sketch under its seed, and just its bytes are read |
| `SupernodeBytes.FullSize` | src/supernode.cpp:168-177 | four bytes for the tag, and 8 + w for each bucket of each sketch |
| `SupernodeBytes.FullRoundTripIff` | src/supernode.cpp:168-177 | that holds for all supernodes iff sparse output was not asked for |
| `SupernodeBytes.PartialRoundTrip` | src/supernode.cpp:179-194 | a range comes back clamped, other sketches empty under their own seeds, iff the bounds do not wrap |
| `DiskBackup.Restore` | src/graph.cpp:334-345 | the loop reads the supernodes back one after the other, on any input |
| `DiskBackup.BackupRoundTrip` | src/graph.cpp:319-345 | all supernodes backed up come back with their content and no query spent |
| `DiskBackup.DiskAsGoodAsMemory` | src/graph.cpp:268-281 | after the final reset a supernode restored from disk, like one restored from memory, is what it was before the query |
| `DiskBackup.BackupKeepsShape` | src/graph.cpp:319-345 | whatever the supernodes hold, a backup reads back as supernodes of the same shape |
| `DiskBackup.RunKeepsFile` | src/graph.cpp:278-299 | at any point of a faithful run the backup file and the untouched supernodes still hold all original content |

## Left out

- The guttering systems and the work queue themselves: a buffer that groups and reorders at will stands for them, with `get_data` failing only on an empty queue in non-blocking mode.
- xxHash and the probability that a sample fails: hashes are parameters, collisions a hypothesis.
- The floating-point sizing of columns, guesses and sketches: the sizes are parameters.
- Machine widths: indices, offsets and sizes are unbounded, except the 16-bit positions and the 32-bit bounds of the binary formats; the stream offset does not wrap at 2^64.
- Memory layout, placement new and destructors; `Graph` holds its supernodes as values. That supernode and sketch objects changed in place refine those values is proved separately, in `SketchObject` and `SupernodeObject`.
- `spanning_forest` is one set of edge ids instead of one set of neighbours per node, and its per-node locks are gone.
- The build without the eager union-find, in which every update clears `dsu_valid`.
- Concurrency inside `Graph::update`, beyond the counterexample: an update is one atomic step.
- UnionFind.DisjointSetUnion.AtomicMerge: one thread by itself; all interleavings are in `AtomicUnion.NobodyJoins`, where the root of the first node is looked for before that of the second.
- Stream.ExactlyOnce: reads of the file are complete, the buffer holds at least one record, and `stream_reset` is not used.
- SupernodeBytes.FullRoundTrip: for supernodes with all their sketches; writing out a supernode that was itself read partially is not modelled.
- SketchBytes.ReadSparse: a stream that ends early or names a missing bucket is reported as malformed, where the source would go on with stale or foreign memory.
- Shutting the workers down, and the omp parallel loops inside one supernode.
- The constructor of `Graph` from a file beyond the supernodes in it, configuration, timing, printing, `FileGraphVerifier`, benchmarks and stream generators.
