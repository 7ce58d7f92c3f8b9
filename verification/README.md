# Falcon's build engine, modelled and proved in Dafny

Falcon keeps a dependency graph in memory and maintains counters, flags and hashes on it
incrementally. Each of these must agree with a simple definition over the whole graph. This project
models that machinery, the JSON parser and printer it reads graphs with, the server that streams
build output, the depfile parser and the git-reference cache, and proves what they are for.

All graph properties are for every well-formed graph, every choice that is made (which ready rule
is taken, which command finishes next) and every environment: how commands end, what depfiles say,
what the cache holds, what the clock says, when a build is interrupted. All JSON properties are for all bytes in all
chunks; all stream properties are for every network. Results about whole runs say which steps were
performed, not only that the end is in order: a build, a daemon, a stream server and a git cache
each come with a log or a trace that the contract ties to the inputs.

## Layout

| file | module | what it holds |
|---|---|---|
| Reachability.dfy, Topology.dfy | Reachability, Topology | paths and closures; the shape of the graph |
| Graph.dfy, Invariant.dfy | DirtyTracking, GraphInvariant | states, ready counters, upward propagation; the graph invariant |
| GraphParser.dfy, CycleCheck.dfy, DependencyScan.dfy, FirstBuild.dfy | GraphParsing, CycleCheck, DependencyScan, FirstBuild | from the graph file to the end of the first build |
| BuildPlan.dfy, ParallelBuilder.dfy | Planning, Building | planning; parallel building with depfiles, failures and interrupts |
| LazyCache.dfy, Depfile.dfy, DepfileParser.dfy, DepfileHash.dfy | LazyFetch, DepfileLoading, DepfileParsing, Rehashing | lazy fetching; depfiles, from bytes to edges and hashes |
| GraphHash.dfy | Hashing | incremental hashes |
| Daemon.dfy | Daemon | whole runs of the daemon |
| JsonTables.dfy, JsonLexemes.dfy, JsonMachine.dfy, JsonGrammar.dfy | JsonTables, JsonLexemes, JsonMachine, JsonGrammar | the tables; spelling of numbers and strings; one step of the parser as a function; values, events, documents being read |
| JsonInvariant.dfy, JsonUnicode.dfy, JsonParser.dfy | JsonInvariant, JsonUnicode, JsonParsing | what the events are; escapes; the parser with its arrays |
| JsonPrinter.dfy, JsonRoundTrip.dfy, JsonAcceptance.dfy | JsonPrinting, JsonRoundTrip, JsonAcceptance | the printer; the round trip; every way of writing a value is accepted |
| StreamServer.dfy, StreamOutput.dfy | Streaming, StreamedOutput | the stream server; which build a client reads, and its text |
| GitCache.dfy | GitCache | reference counts of cache entries |
| Counterexamples.dfy | Counterexamples | graphs on which a promise of the code fails |

Objects whose fields the program updates are classes with the same fields. Nodes and rules are
numbered or named vertices of one `Graph` object rather than separate objects, so that the closure
of a step over the whole graph can be stated. A ghost field of `Graph` records which inputs hold a
counter down; the counter is always the number of the other inputs, and the states say which inputs
these must be. The effect of `hide` at the head of a proof is only to keep definitions out of the
solver's way.

## What the code does not do

The properties below fail in the code. Each has a lemma with a concrete input and an exact
condition, and the model keeps the code's behaviour.

- The cycle check explores from the roots only, so a cycle that no root reaches is not seen
  (`CycleCheck.UnseenCycle`). The graph is acyclic exactly when the check passes and every node lies
  below a root (`CycleCheck.AcyclicIff`).
- The consistency checker demands that a dirty input makes its rule dirty; the scan marks a source
  that is newer than one rule's outputs even if another of its rules stays clean
  (`FirstBuild.ScanMissesChecker`). The two agree exactly when every rule that consumes such a source
  is outdated, by itself or through a rule below it (`FirstBuild.ScanMeetsCheckerIff`). The graph
  invariant used here asks this of generated inputs.
- Reporting a change of one output of a rule with several clean outputs leaves its siblings clean
  while the rule is dirty (`Counterexamples.SiblingLeftClean`, exact condition in
  `Daemon.OutputMarked`); reporting a phony target leaves its rule clean
  (`Counterexamples.PhonyRuleLeftClean`, exact condition in `Daemon.PhonyMarked`).
- Restoring one of several outputs from the cache leaves its siblings dirty
  (`LazyFetch.FetchConsistent`: all that the consistency checker asks for survives; the outputs of the
  rule stay alike exactly when it has just one). Building the rule afterwards tells the consumers of
  the restored output again, and their counters come out too high
  (`Counterexamples.CountedTwice`). They stay right exactly when every output that some rule consumes
  was dirty (`GraphInvariant.ToldIff`, `Building.GraphParallelBuilder.MarkOutputsUpToDate`).
- A dirty generated depfile entry lowers a counter that never counted it
  (`Counterexamples.DirtyEntryMiscounted`). One entry is counted rightly exactly when it is not both
  new to the rule and a dirty generated node (`DepfileLoading.SetRuleDependency`), and after a whole
  load the counters are exact exactly when no such entry is listed (`DepfileLoading.Load`); otherwise
  that of the rule is too low by their number.
- A refused depfile leaves edges that are recorded on one side only
  (`Counterexamples.RefusedDepfileLeavesEdge`), exactly when there were implicit inputs
  (`DepfileLoading.Load`).
- Loading a depfile can close a cycle when something above the rule was lazily fetched
  (`Counterexamples.LazyCycle`). The graph stays acyclic exactly when no new input lies above the rule
  (`DepfileLoading.LoadedAcyclicIff`), which holds for a dirty rule while nothing is lazily fetched
  (`DepfileLoading.SettledNotAbove`).
- Loading can leave a dirty source whose remaining consumers are all clean
  (`Counterexamples.SourceLeftUncovered`). The states stay consistent exactly when this does not
  happen and a clean rule gets no dirty generated input (`DepfileLoading.LoadedConsistentIff`).
- `json_parser_is_done` is true inside a comment before the document
  (`JsonParsing.DoneTooEarly`, exact condition in `JsonInvariant.DoneIff`).
- The parser refuses an exponent behind a lone zero, such as `0e1`, which the JSON grammar allows
  (`JsonAcceptance.ZeroExponent`). Of the JSON numbers it takes exactly the others
  (`JsonAcceptance.NumberAcceptedIff`).
- `processClient` sends from the same address again when a send takes only part of the data
  (`Streaming.StalePointer`). The stream is in order exactly when no call makes two sends that take
  bytes (`Streaming.InOrderIff`).

## Model

| member | source | states |
|---|---|---|
| DirtyTracking.Graph.MarkNodeDirty | src/graph.cpp:68-82 | dirty becomes exactly the old dirty set plus everything upward-reachable from the node; lazy flags there are dropped; each consumer's counter falls once for each newly dirty generated input, diamonds and repeated calls included; terminates on every acyclic graph |
| DirtyTracking.Graph.MarkRuleDirty | src/graph.cpp:146-153 | the same from a rule |
| DirtyTracking.ExactCounter | src/graph_consistency_checker.cpp:139-162 | an exact counter equals the number of inputs that are sources or clean, and is full exactly when no generated input is dirty |
| GraphInvariant.DirtyIffRule | src/graph_consistency_checker.cpp:85-92 | while the clauses of the consistency checker hold and no node is lazily fetched, a generated node is dirty if and only if its rule is |
| GraphInvariant.DirtyAbove | src/graph_consistency_checker.cpp:130-152 | under the invariant without lazily fetched nodes everything above a dirty rule is dirty |
| GraphInvariant.MarkNodeUpToDate | src/graph_parallel_builder.cpp:150-160 | the node is clean and every rule that consumes it has one more ready input, whether or not the node was dirty |
| GraphInvariant.ToldIff | src/graph_parallel_builder.cpp:150-160 | telling every consumer about a list of nodes that became clean keeps all counters right if and only if each of them that is consumed at all was dirty |
| DependencyScan.StaleUnfold | src/graph_dependency_scan.cpp:117-158 | reachability from outdated rules satisfies the recursive definition: a rule is stale iff an input is, or it is not phony and an input is newer than its oldest output |
| DependencyScan.GraphDependencyScan.CompareInputsWithOutputs | src/graph_dependency_scan.cpp:44-75 | true exactly when some input is newer than some output, and marks exactly the newer sources |
| DependencyScan.GraphDependencyScan.UpdateNode | src/graph_dependency_scan.cpp:77-94 | answers whether the node is stale, having settled and hashed everything below it, rules visited once |
| DependencyScan.GraphDependencyScan.UpdateRule | src/graph_dependency_scan.cpp:117-158 | answers whether the rule is stale and leaves its counter, its outputs and its hashes settled |
| DependencyScan.GraphDependencyScan.Scan | src/graph_dependency_scan.cpp:26-42 | every source and every output of a rule with a command has the time of its file, targets of phony rules and rules keep theirs; the dirty set is exactly the stale nodes and rules of the whole graph plus the newer sources, every counter is exact, and every hash satisfies its equation |
| DependencyScan.StatsRead | src/graph_dependency_scan.cpp:26-42 | what is looked up: the sources and the outputs of rules with a command, nothing else |
| DependencyScan.RootsCover | src/graph_dependency_scan.cpp:26-42 | visiting the roots of an acyclic graph visits everything |
| CycleCheck.CycleChecker.IsCycle | src/graph_cycle.cpp:16-45 | terminates on every graph; finds a loop exactly when one is reachable or the path so far is closed |
| CycleCheck.CycleChecker.CheckGraphLoop | src/graph_cycle.cpp:47-55 | passes if and only if no cycle is reachable downwards from a root, and then gives a rank that falls along every edge below the roots |
| CycleCheck.CycleOrBounded | src/graph_cycle.cpp:16-45 | below any node there is a cycle or a bound on the length of paths |
| CycleCheck.RankedBelowRoots | src/graph_cycle.cpp:47-55 | without a cycle below the roots, the length of the longest path is a rank there |
| CycleCheck.AcyclicIff | src/graph_cycle.cpp:47-55 | a rank function exists on the whole graph if and only if the check passes and every node lies below a root |
| CycleCheck.UnseenCycle | src/graph_cycle.cpp:48-54 | a well-formed cyclic graph that passes the check |
| GraphParsing.GraphParser.CheckNode | src/graphparser.cpp:63-86 | succeeds iff all entries are strings; gives the named nodes without repetition, created where missing |
| GraphParsing.GraphParser.ProcessJson | src/graphparser.cpp:88-155 | succeeds iff every entry is well typed and no output is claimed twice; then edges are symmetric, the roots are exactly the nodes without parents, the rules are those listed with their commands, and the graph is well formed iff every rule has an output and phony rules just one |
| GraphParsing.CommandsAre | src/graphparser.cpp:112-155 | a rule has the command of its entry, the empty one if the entry has none |
| GraphParsing.BuildableIsWellFormed | src/graphparser.cpp:88-155 | the condition on the entries under which the parsed graph is well formed |
| FirstBuild.ScanConsistent | src/graph_dependency_scan.cpp:26-94 | the state after the scan meets the graph invariant |
| FirstBuild.ScanMeetsCheckerIff | src/graph_consistency_checker.cpp:149-152 | the state after a scan passes the check on dirty source inputs if and only if every rule that consumes a source newer than some output is outdated, by itself or through a rule below it |
| FirstBuild.ScanMissesChecker | src/graph_dependency_scan.cpp:55-75 | a graph and timestamps for which it does not |
| FirstBuild.CheckAndScan | src/main.cpp:134-149 | finds a loop if and only if the graph is cyclic; otherwise the graph meets the invariant, every node has the time of its file, a rule is dirty exactly if it lies above a rule one of whose inputs was written after one of its outputs, and all hashes are those of hashing from scratch |
| FirstBuild.FirstDirtyIff | src/graph_dependency_scan.cpp:26-75 | what the first scan marks, by the times of the files alone: rules that are behind on disk with all above them, and sources written after an output made from them |
| FirstBuild.CleanTreeIff | src/graph_dependency_scan.cpp:26-75 | the first scan finds nothing to do if and only if no input of a rule with a command was written after one of its outputs |
| FirstBuild.Boot | src/main.cpp:123-149 | from the graph file to a daemon: refused iff the file is, cyclic iff its graph is, and otherwise a valid daemon: the invariant, the hashes, the times of the files and what depfiles rely on are established |
| FirstBuild.EntriesReachIff | src/graphparser.cpp:63-155 | every node of the parsed graph lies below a root if and only if every file that the entries name leads, through the entries that consume it, to one that nothing consumes |
| FirstBuild.NewGraphLoads | src/graphparser.cpp:112-155 | a parsed graph has every root that loading depfiles relies on |
| FirstBuild.EverythingBuilt | src/graph_parallel_builder.cpp:60-94 | once all that the roots need is built and its depfiles are loaded, nothing is dirty and all counters are full |
| FirstBuild.Start | src/daemon_instance.cpp:91-149 | cycle check, scan, plan of all roots and build with depfiles: an orderly schedule of exactly the needed rules whose result is the verdict on it; if every planned command succeeds, its depfile is accepted and no interrupt comes, the build succeeds and ends with no node and no rule dirty, sources included, and every ready counter full; the graph is then the parsed one with the depfiles loaded, and all hashes are right for it |
| Planning.BuildPlan.constructor | src/build_plan.cpp:13-21 | the plan is exactly the producing rules reachable downwards from the dirty targets through dirty generated nodes; the ready set is exactly the ready ones; a non-empty plan has a ready rule |
| Planning.BuildPlan.AddTarget | src/build_plan.cpp:23-56 | adds exactly what the target needs, each rule once |
| Planning.BuildPlan.FindWork | src/build_plan.cpp:58-70 | hands out some ready rule once and counts it, or says that there is none |
| Planning.BuildPlan.NotifyRuleBuilt | src/build_plan.cpp:72-89 | exactly the planned consumers that nothing blocks any more become ready |
| Planning.ReadyMeans | src/graph.cpp:165-165 | with exact counters a rule is ready exactly when it has no dirty generated input |
| Planning.SomeReady | src/build_plan.cpp:13-56 | a non-empty set of rules closed under needs, on an acyclic graph, contains a ready one |
| Planning.WholePlan | src/build_plan.cpp:13-56 | what was collected is the whole downward closure of the targets |
| Planning.NeededUnfold | src/build_plan.cpp:23-56 | what a target needs: nothing if it is clean or a source, otherwise the rule that produces it and what the inputs of that rule need |
| Building.BuildOne | src/graph_parallel_builder.cpp:200-217 | building one planned rule keeps the invariant and the account of what is built |
| Building.StaysConsistent | src/graph_parallel_builder.cpp:150-217 | cleaning a rule, its outputs and its sources keeps the graph invariant |
| Building.NewlyStartable | src/build_plan.cpp:72-89 | the rules that become startable when a rule is built are consumers of its outputs |
| Building.GraphParallelBuilder.MarkOutputsUpToDate | src/graph_parallel_builder.cpp:150-160 | all outputs are clean, and every counter stays exact if and only if each output that some rule consumes was dirty |
| Building.GraphParallelBuilder.OnRuleFinished | src/graph_parallel_builder.cpp:200-217 | the rule, its outputs and its source inputs are clean, and the plan learns which rules became ready |
| Building.GraphParallelBuilder.BuildRule | src/graph_parallel_builder.cpp:96-148 | a phony or restored rule that was handed out is finished at once, any other is spawned, never beyond the thread limit; a restored rule gets the time of that, no other timestamp changes |
| Building.GraphParallelBuilder.WaitForNext | src/graph_parallel_builder.cpp:162-198 | some running command is collected with the status and at the time the environment gives it; after a success its rule is built or its depfile refused; exactly that is logged; the rule has the time of its collection, all others keep theirs and new files have none; the answer is what it adds to the verdict |
| Building.GraphParallelBuilder.LoadDepfile | src/graph_parallel_builder.cpp:177-198 | the depfile of a succeeded command is loaded and the rule built, or it is refused and the build fails; all other commands go on as planned, and all hashes are right for the new graph |
| Building.GraphParallelBuilder.LoadGraph | src/graph_parallel_builder.cpp:177-196 | the depfile is accepted if and only if it is about the first output; afterwards the invariant, the plan, the account of the build and all hashes hold for the new graph |
| Building.ReadyToLoad | src/graph_parallel_builder.cpp:177-196 | at that moment no listed node is dirty and generated, and every source stays covered |
| Building.BelowIsBuilt | src/build_plan.cpp:23-89 | a rule that has started has every rule that it needed rebuilt already built |
| Building.LoadKeepsProgress | src/graph_parallel_builder.cpp:177-196 | loading a depfile keeps what is planned, started and built, and which rules are ready |
| Building.GraphParallelBuilder.StartReady | src/graph_parallel_builder.cpp:69-74 | starts rules while there are any and a thread is free, until nothing can be started, each start lowering the measure; adds nothing to the verdict |
| Building.GraphParallelBuilder.RunPlan | src/graph_parallel_builder.cpp:64-80 | terminates; the result is the verdict so far, and without failure or interrupt every planned rule has been started |
| Building.GraphParallelBuilder.Drain | src/graph_parallel_builder.cpp:82-88 | waits for all that is running; the first failure stays the result |
| Building.GraphParallelBuilder.BuildThread | src/graph_parallel_builder.cpp:60-94 | for every completion order, every exit status, every depfile and every time of interrupt: terminates with nothing running; every rule goes through start, spawn, collect and built in that order and at most once, skipping spawn and collect exactly if it is phony or restored; it starts only after the planned producers of its inputs are built; never more commands run than there are threads, and while nothing failed none is waited for as long as another can start; each action is what the environment makes of it; the result is the first failure, success if and only if nothing failed; the graph, its states, its hashes and what was read of its files after the build are given exactly; every rule that was collected or restored has the time of that, all other rules and outputs keep their timestamps, and files that depfiles brought in have none; a run that nothing fails in and the interrupt does not reach builds the whole plan |
| Building.StampsEnd | src/graph_parallel_builder.cpp:129-171 | the timestamps after an orderly build, told by its log |
| Building.StampsAre | src/graph_parallel_builder.cpp:129-171 | a rule has the time of its collection or restoration if the log has one, and its old time otherwise |
| Building.SurvivorKeepsStamp | src/graph_parallel_builder.cpp:129-171 | a file that no depfile deletes on the way keeps its timestamp |
| Building.FirstFailure | src/graph_parallel_builder.cpp:76-88 | the first failing command or refused depfile decides the result: interrupted for an interrupted command, failed otherwise |
| Building.SpawnedIff | src/graph_parallel_builder.cpp:96-148 | a rule that was built had its command spawned if and only if it has one and the cache did not restore it |
| Building.ProducersFirst | src/build_plan.cpp:58-89 | in an orderly schedule whatever happens to a rule, above all that it is built, happens after the planned producers of its inputs are built |
| Building.OnceEach | src/build_plan.cpp:58-70 | no action is taken twice on a rule, and it is not both built and refused |
| Building.UndisturbedSucceeds | src/graph_parallel_builder.cpp:60-94 | if every planned command that runs succeeds with an accepted depfile and no interrupt comes, nothing in the schedule fails |
| Building.LayersUnfetched | src/graph_parallel_builder.cpp:177-196 | while nothing is lazily fetched, the graph together with all that the planned depfiles may list is without a cycle |
| Building.LeftPlain | src/graph_parallel_builder.cpp:150-217 | without depfiles what is left dirty is exactly what no built rule clears |
| Building.LeftBuilt | src/graph_parallel_builder.cpp:150-217 | with depfiles a built rule and its outputs are clean at the end, and nothing became dirty |
| Building.VerdictIff | src/graph_parallel_builder.cpp:76-88 | the first failure decides, so that success means that no command failed and no depfile was refused |
| Building.NoDeadlock | src/graph_parallel_builder.cpp:66-80 | while succeeding, "not done, nothing ready, nothing running" is impossible |
| Building.PlanCanRun | src/build_plan.cpp:13-56 | the plan made by BuildPlan meets what the build loop needs |
| Hashing.GraphHash.UpdateNodeHash | src/graph_hash.cpp:49-93 | the node's two hashes satisfy their local equations, and the answer says whether one of them changed; with the second hash left alone the same holds if it was right |
| Hashing.GraphHash.UpdateRuleHash | src/graph_hash.cpp:95-120 | the rule's two hashes satisfy their local equations over all inputs and over the explicit ones |
| Hashing.GraphHash.RecomputeNodeHash | src/graph_hash.cpp:152-171 | repairs the node's equation and breaks no other, touching nothing outside its upward closure; no change means nothing was touched; second hashes that are not to be recomputed stay as they are |
| Hashing.GraphHash.RecomputeRuleHash | src/graph_hash.cpp:122-150 | the same from a rule |
| Hashing.AgreesWithScratch | src/graph_hash.cpp:49-120 | local equations everywhere mean that every hash is the bottom-up recomputation |
| Hashing.HashIsOfPreimage | src/graph_hash.cpp:49-120 | a hash is that of what is to be hashed: the contents of a source, the rule of an output, the inputs and the command of a rule |
| Hashing.HashTells | src/graph_hash.cpp:49-120 | if the hash function tells the strings in question apart, two hashes of a vertex are equal if and only if everything below it is: the contents of all sources and the commands of all rules |
| Hashing.ChangesAbove | src/graph_hash.cpp:122-171 | when only one source changes, hashes change only above it, and none do unless its own does |
| Hashing.HashNext | src/graph_dependency_scan.cpp:77-94 | hashing a vertex once everything below it is hashed extends the set where the equations hold |
| Hashing.SourceChanged | src/graph_hash.cpp:152-171 | after a source changed, propagation with early cutoff leaves every node and rule hash equal to hashing from scratch |
| Rehashing.Rehash | src/graph_parallel_builder.cpp:188-193 | after a depfile has been loaded, hashing the new files and recomputing the first hashes from the rule leaves every hash of the loaded graph right, and no second hash of an old vertex changes |
| Rehashing.MovedHolds | src/depfile.cpp:30-32 | a load itself leaves all hashes right but those of the new files and the first one of the rule |
| LazyFetch.FetchConsistent | src/lazy_cache.cpp:43-54 | restoring one dirty node keeps all that the consistency checker asks for; the outputs of its rule stay alike if and only if there is no other |
| LazyFetch.LazyCache.RestoreNode | src/lazy_cache.cpp:36-58 | the node becomes clean and flagged and gets the time of the restoration, and all counters stay exact, for rules with any number of outputs |
| LazyFetch.LazyCache.TraverseNode | src/lazy_cache.cpp:25-60 | restores exactly the dirty cached nodes that are reached first below the node, each once |
| LazyFetch.LazyCache.Fetch | src/lazy_cache.cpp:19-23 | exactly the dirty cached nodes that the targets reach without passing another one become clean and flagged and get the time of their restoration; all other timestamps stay; states and counters stay in order |
| LazyFetch.FetchBelow | src/lazy_cache.cpp:25-60 | what is fetched for a node that is not cached, or has a phony rule, is what is fetched for the inputs of its rule |
| LazyFetch.FetchedAre | src/lazy_cache.cpp:25-60 | what is fetched was dirty, in the cache, and the output of a rule with a command |
| LazyFetch.CachedNotNeeded | src/lazy_cache.cpp:25-60 | after a fetch no cached file is left on the way to what the targets still need |
| DepfileParsing.DepfileParser.Parse | src/depfile_parser.cpp:32-231 | the slices recorded in the rewritten buffer spell exactly the target and inputs that the tokenizer finds in the original contents; fails exactly when the tokenizer does |
| DepfileParsing.ReadName | src/depfile_parser.cpp:39-207 | one name is de-escaped in place: the write position never passes the read position, nothing before the name and nothing unread changes |
| DepfileParsing.ReadPiece | src/depfile_parser.cpp:86-205 | one round of the scanner, with all reads inside the terminated buffer |
| DepfileParsing.SlicesKept | src/depfile_parser.cpp:209-228 | slices recorded before a position are not changed by writes behind it |
| DepfileParsing.DepfileParser.Record | src/depfile_parser.cpp:209-228 | a name is an input, the target, or a second target that must be the same; a colon ends the targets |
| DepfileParsing.NameReadsBack | src/depfile_parser.cpp:86-205 | a name spelled with plain characters, escaped ones, doubled dollars and backslashes that stay is read as what it means, up to the first other character |
| DepfileParsing.WriteReadsBack | src/depfile_parser.cpp:32-231 | a depfile is read exactly: the target before the colon and the inputs in order, for every spelling of their names over a character set written out independently, and for all runs of blanks, other separators and continued lines between them |
| DepfileParsing.TablesAre | src/depfile_parser.cpp:51-84 | the scanner's tables hold exactly the letters, digits and marks of that set, and exactly six characters lose a backslash |
| DepfileParsing.NameEndsIff | src/depfile_parser.cpp:86-205 | a name goes on exactly at a plain character, a doubled dollar, or a backslash not followed by a line end or the terminator |
| DepfileParsing.InputsReadBack | src/depfile_parser.cpp:209-228 | inputs are read back in order, however they are separated and spelled |
| DepfileParsing.LettersMean | src/depfile_parser.cpp:86-205 | every name over the supported characters has a spelling |
| DepfileParsing.TargetsClash | src/depfile_parser.cpp:209-228 | two different targets are refused, whatever follows |
| DepfileLoading.SetRuleDependency | src/depfile.cpp:21-76 | the dependency is an input once, edges stay symmetric, and the counter is exact iff the entry is a source or clean, or was already an input; otherwise it is one too low |
| DepfileLoading.DropImplicit | src/depfile.cpp:82-94 | the implicit inputs are forgotten and uncounted, the explicit ones kept |
| DepfileLoading.DropStale | src/depfile.cpp:126-137 | dropped dependencies lose this parent, and sources that nothing needs any more are deleted |
| DepfileLoading.Load | src/depfile.cpp:78-139 | succeeds iff the depfile parsed and names the first output; then explicit inputs are kept, the implicit suffix is exactly the listed other files without duplicates and edges are symmetric; old vertices keep their timestamps and new ones have none; counters are exact iff no dirty generated file is newly listed, and that of the rule is too low by the number of these otherwise; the graph stays acyclic iff no new input lies above the rule, which a dirty rule without lazily fetched nodes guarantees, and consistent iff the sources stay covered and a clean rule gets no dirty input; after a failure the state is given, and the graph is well formed iff there were no implicit inputs |
| DepfileLoading.LoadBuffer | src/depfile.cpp:78-139 | the same, from the bytes of the depfile through the in-place parser, accepted or refused |
| DepfileLoading.LoadedWellFormed | src/depfile.cpp:78-139 | the loaded graph is well formed |
| DepfileLoading.LoadedFrame | src/depfile.cpp:78-139 | rules, outputs, commands and the inputs of other rules stay; the inputs of the rule are its explicit ones and the listed others |
| DepfileLoading.SourceParents | src/depfile.cpp:126-137 | a source is deleted exactly if the depfile no longer lists it and the rule was its only consumer; otherwise its consumers are the old ones but for the rule, which is one exactly if it lists it |
| DepfileLoading.LoadedAcyclicIff | src/graph_parallel_builder.cpp:177-196 | loading keeps the graph acyclic if and only if no new input lies above the rule |
| DepfileLoading.SettledNotAbove | src/graph_parallel_builder.cpp:177-196 | it does so for a rule that is still dirty while nothing is lazily fetched, because everything above the rule is dirty and the listed files are not |
| DepfileLoading.LoadedConsistentIff | src/depfile.cpp:78-139 | loading keeps the states consistent if and only if every dirty source given to the rule or taken from it keeps a dirty consumer or loses its last one, and a clean rule gets no dirty generated input |
| DepfileLoading.EdgesKeepAcyclic | src/graph_parallel_builder.cpp:177-196 | new edges into a rule from nodes not above it keep a graph acyclic |
| Daemon.SourceMarked | src/daemon_instance.cpp:303-318 | marking a source keeps the invariant |
| Daemon.OutputMarked | src/daemon_instance.cpp:303-318 | marking an output keeps it if and only if the rule has one output or the output was dirty |
| Daemon.PhonyMarked | src/daemon_instance.cpp:261-265 | marking a phony output keeps it if and only if its rule was dirty |
| Daemon.DaemonInstance.SetDirty | src/daemon_instance.cpp:243-319 | the answer, the contents, the missing sources and what becomes dirty are given exactly; hashes equal hashing from scratch; the invariant is kept exactly under the stated condition |
| Daemon.DaemonInstance.StartBuild | src/daemon_instance.cpp:91-149 | refused exactly for missing sources or unknown targets; otherwise lazy fetch, plan and build with depfiles: the exact set fetched, the exact rules planned, an orderly schedule and the verdict on it, the exact graph, states and timestamps after it; when every planned command succeeds and no interrupt comes, the build succeeds and every requested generated target is clean, and all of the graph but unused sources when all roots were requested without lazy fetching |
| Daemon.UndisturbedBuild | src/daemon_instance.cpp:91-149 | a build step in which nothing goes wrong succeeds and does what was requested |
| Daemon.RootsClean | src/daemon_instance.cpp:91-149 | building everything a consistent graph needs for its roots cleans everything but sources that no rule consumes, in the graph with the depfiles loaded |
| Daemon.DirtyRuleNeeded | src/build_plan.cpp:23-56 | in a consistent graph every dirty rule is needed for some root |
| Daemon.Run | src/daemon_instance.cpp:243-319 | for every sequence of source changes, output changes and builds in any environment, each allowed when it comes: each event is performed, its outcome and the next state follow from the step relation, and in every state on the way the graph is well formed and acyclic with the depfiles loaded so far, the states are consistent, the counters exact and all hashes equal hashing from scratch |
| Daemon.StampIsLastTime | src/graph_parallel_builder.cpp:143-171 | in every state of a run the timestamp of a rule or generated file is the time of the last event that collected, restored or fetched it |
| Daemon.OwnOutputIgnored | src/daemon_instance.cpp:290-301 | in every run a report about an output that is not newer than the last time its rule was collected or restored, or the output fetched, is ignored and changes no state |
| Daemon.ForeignOutputMarked | src/daemon_instance.cpp:290-318 | in every run a report that an output was removed or written later than that makes the output, its rule and everything above dirty |
| Daemon.MissingIs | src/daemon_instance.cpp:267-288 | in every state of a run the missing files are exactly the sources of the graph file whose last report said so |
| Daemon.ChangedIsDirty | src/daemon_instance.cpp:243-319 | in a run without depfiles and lazy fetching a rule whose hash has changed is dirty, and a dirty rule stays so, until a build has built it |
| Daemon.PlainForeseen | src/daemon_instance.cpp:243-319 | any changes of sources and of single outputs, and any builds without depfiles, with lazy fetching where rules have one output, are allowed whenever they come |
| Daemon.DroppableMarked | src/daemon_instance.cpp:303-318 | marking keeps what later depfiles rely on: a dirty source that a depfile listed has only dirty consumers |
| Daemon.NeverLazyRun | src/daemon_instance.cpp:243-319 | in a run without lazy fetching a generated node is dirty exactly when its rule is, in every state |
| JsonTables.PositionRow | src/json/json.c:191-197 | from which states between tokens each action and token start is possible, and what is buffered |
| JsonTables.StringRow | src/json/json.c:199-231 | escapes advance one hexadecimal digit at a time and strings end only at a quote |
| JsonTables.NumberRow | src/json/json.c:206-213 | numbers end only in their accepting states |
| JsonMachine.FeedSplit | src/json/json.c:730-792 | feeding a concatenation is feeding its parts in turn, up to the first error |
| JsonInvariant.StepAgrees | src/json/json.c:737-788 | one byte takes a parser that agrees with a partly read document to one that agrees with its continuation; after an error the events are still those of a document |
| JsonInvariant.ChunksDoNotMatter | src/json/json.c:730-792 | only the bytes matter, not how they are cut into chunks |
| JsonInvariant.EventsArePrefix | src/json/json.c:548-662 | for any bytes in any chunks, the events up to the first error are a prefix of the events of one array or object whose numbers and strings are well spelled |
| JsonInvariant.StackIsOpenBrackets | src/json/json.c:357-376 | the mode stack is exactly the brackets that are open, and the pending value, key or comment fits them |
| JsonInvariant.FlushAgrees | src/json/json.c:426-443 | a value that was recognised lazily is emitted once, where a value is due |
| JsonInvariant.NumberGrows | src/json/json.c:206-213 | the state inside a number says which part of the JSON number grammar the buffer spells |
| JsonInvariant.DoneIff | src/json/json.c:719-724 | one complete value has been emitted if and only if the parser says it is done and is not in a leading comment |
| JsonGrammar.FinishExtends | src/json/json.c:357-376 | a document with open brackets is a prefix of a complete one |
| JsonGrammar.EndFrame | src/json/json.c:571-594 | closing a bracket completes the innermost value inside the one around it |
| JsonUnicode.Utf8Encodes | src/json/json.c:464-510 | the encoding of a code point is one character, carries it, and is as short as possible |
| JsonUnicode.DecodesToUtf8 | src/json/json.c:464-510 | decoding replaces the digits by the UTF-8 encoding of the code point, keeps a high surrogate, refuses a lone one |
| JsonUnicode.EscapeDecodes | src/json/json.c:532-538 | a whole escape in a string appends exactly the encoding of its code point, or is refused |
| JsonUnicode.PairDecodes | src/json/json.c:485-496 | a surrogate pair appends the encoding of one code point beyond the basic plane |
| JsonUnicode.HexIsBase16 | src/json/json.c:445-454 | the digits of an escape are the hexadecimal ones in either case, and they are read in base 16 |
| JsonUnicode.OnlyLowSurrogateFollows | src/json/json.c:485-488 | after a high surrogate nothing but the escape of a low one is accepted |
| JsonParsing.JsonParser.constructor | src/json/json.c:668-705 | the arrays have the configured or default sizes and the parser is at the beginning |
| JsonParsing.JsonParser.BufferGrow | src/json/json.c:378-396 | contents are kept, the buffer doubles up to the limit, and fails only at the limit |
| JsonParsing.JsonParser.BufferPush | src/json/json.c:398-409 | appends the byte or reports the data limit; one slot always stays free for the terminator |
| JsonParsing.JsonParser.StatePush | src/json/json.c:341-366 | pushes the mode, growing the stack, or reports the nesting limit |
| JsonParsing.JsonParser.StatePop | src/json/json.c:368-376 | pops the mode, or tells an empty stack from a wrong bracket |
| JsonParsing.JsonParser.CallbackWithBuffer | src/json/json.c:411-417 | the terminator is written inside the buffer and the bytes are emitted |
| JsonParsing.JsonParser.PlaceCharacter | src/json/json.c:476-510 | what is written stays in the space of the removed digits |
| JsonParsing.JsonParser.DecodeUnicodeChar | src/json/json.c:464-510 | decodes the last four digits in place |
| JsonParsing.JsonParser.DoAction | src/json/json.c:648-662 | every action has the effect that the step function gives it |
| JsonParsing.JsonParser.ParseString | src/json/json.c:730-792 | refines the byte-by-byte function: same state, events, error and number of processed bytes, within growing arrays |
| JsonParsing.DoneTooEarly | src/json/json.c:719-724 | an input after which the parser claims to be done without having emitted anything |
| JsonPrinting.JsonPrinter.PrintString | src/json/json.c:825-842 | prints the quoted and escaped string |
| JsonPrinting.JsonPrinter.PrintIndent | src/json/json.c:859-866 | prints a line break and as many tabs as the level, none if it is negative |
| JsonPrinting.JsonPrinter.PrintMode | src/json/json.c:868-922 | separators, indentation and flags for every kind of event |
| JsonPrinting.PrintsText | src/json/json.c:868-922 | printing the events of a value prints its text, raw or pretty, after the separator that is due |
| JsonRoundTrip.FeedByte | src/json/json.c:825-842 | a byte of a string, as escaped by the printer, appends itself to the parser's buffer |
| JsonRoundTrip.ParsesString | src/json/json.c:825-842 | a printed string is parsed to one event with the same bytes |
| JsonRoundTrip.ParsesText | src/json/json.c:730-792 | the text of any value is parsed to exactly its events |
| JsonRoundTrip.RoundTrip | src/json/json.c:868-922 | printing any array or object, raw or pretty, and parsing the bytes in any chunks, within the configured limits, succeeds, emits exactly the same events and ends done |
| JsonRoundTrip.PrintAndParse | src/json/json.c:868-922 | the printer object prints the events of any array or object as its text, and the parser object, fed these bytes in chunks of any sizes, refuses none, emits the same events and is done |
| JsonRoundTrip.Reprint | src/json/json.c:730-792 | whatever the parser accepted as a document can be printed from its events and parsed again to the same events |
| JsonAcceptance.Accepts | src/json/json.c:730-792 | every array or object in every spelling (any blanks around each token, every short escape, numbers of code points with digits of either case, surrogate pairs, raw characters, any number but a lone zero with an exponent), cut into any chunks and within the limits, is accepted; exactly the events of its value are emitted, and the parser is done |
| JsonAcceptance.ParsesWritten | src/json/json.c:191-231 | any spelling of any value is read from any place where a value is due, and its events are emitted |
| JsonAcceptance.NumeralIs | src/json/json.c:206-213 | a sign, digits without leading zeros, a fraction and an exponent are an integer or a floating number of the parser |
| JsonAcceptance.NumberAcceptedIff | src/json/json.c:206-213 | a number of the JSON grammar is taken if and only if it is not a lone zero with an exponent |
| JsonAcceptance.ZeroExponent | src/json/json.c:207-207 | a JSON number that is refused |
| JsonAcceptance.SkipsComment | src/json/json.c:226-228 | between tokens a comment between slashes and stars, of any characters, changes nothing if such comments are allowed, and is refused otherwise |
| JsonAcceptance.SkipsLine | src/json/json.c:229-229 | the same of a hash sign and the rest of its line |
| Streaming.InOrderIff | src/stream_server.cpp:247-265 | the bytes one call sends continue the stream if and only if at most one of its sends takes bytes |
| Streaming.StalePointer | src/stream_server.cpp:249-265 | two partial sends that repeat a byte and lose another |
| Streaming.StreamServer.CreateClient | src/stream_server.cpp:213-233 | a new client reads the newest build from its beginning, or waits for the first one; the invariant is kept |
| Streaming.StreamServer.ProcessClient | src/stream_server.cpp:235-279 | what is sent, and that the client then stays polled, waits, or is closed; the record of a closed client; the invariant is kept |
| Streaming.StreamServer.CloseClient | src/stream_server.cpp:281-303 | the build loses a reader and goes away if it was the last one, is completed and is not the newest |
| Streaming.StreamServer.FlushWaiting | src/stream_server.cpp:305-335 | every waiting client is polled again and attached to the front build; the two lists again partition the clients |
| Streaming.StreamServer.NewBuild | src/stream_server.cpp:96-120 | the previous build goes away iff nobody reads it; the new one is at the front with its header |
| Streaming.StreamServer.EndBuild | src/stream_server.cpp:122-137 | the front build is complete, and no client is left waiting |
| Streaming.StreamServer.NewCommand | src/stream_server.cpp:394-414 | the record is appended, after a comma unless it is the first |
| Streaming.StreamServer.EndCommand | src/stream_server.cpp:416-431 | the record is appended after a comma |
| Streaming.StreamServer.WriteCmdOutput | src/stream_server.cpp:364-392 | the escaped output is appended |
| Streaming.StreamServer.CacheRetrieved | src/stream_server.cpp:433-452 | the record is appended, after a comma unless it is the first |
| Streaming.StreamServer.WriteBufEscapeJson | src/stream_server.cpp:348-362 | quotes, backslashes and line ends are escaped |
| Streaming.EscapeRoundTrip | src/stream_server.cpp:348-362 | escaped output can be read back, and no quote in it ends the string |
| Streaming.EscapeHidesLines | src/stream_server.cpp:348-362 | escaped output has no line end in it |
| Streaming.ClientCloses | src/stream_server.cpp:281-303 | closing a client keeps the invariant: lists partition the clients, reference counts are the numbers of readers, older builds are completed and read |
| Streaming.BuildStarts | src/stream_server.cpp:96-120 | starting a build when the last one is complete keeps it |
| Streaming.Run | src/stream_server.cpp:90-335 | for every network and every sequence of steps with alternating builds: each state is what the step makes of the one before, beginning with a new server; in every state the invariant holds, and every client closed for completion was sent as many bytes as its build has, exactly those bytes in order if and only if no call sent twice |
| StreamedOutput.BuildsAre | src/stream_server.cpp:96-137 | in every state of a run the builds that are kept hold exactly the text of the steps between their beginning and their end |
| StreamedOutput.ClientReads | src/stream_server.cpp:213-233 | in every state of a run a client reads the build that was the last to begin before it connected, or the first to begin after if there was none |
| StreamedOutput.ClientReceives | src/stream_server.cpp:235-303 | a client closed for completion was sent as many bytes as the text of that build has, and exactly this text, header, records in order and result, if no call sent to it twice |
| StreamedOutput.TextIsJoined | src/stream_server.cpp:364-452 | the text of a running build is its header and its records with commas between them |
| GitCache.CacheGitDirectory.Register | src/cache_git_directory.cpp:67-118 | the owner's slot for the current reference points to the entry of the hash; an entry is deleted, from the map and the cache, exactly when its last slot moved elsewhere; all counts stay exact |
| GitCache.LastSlotGone | src/cache_git_directory.cpp:100-117 | moving a slot removes exactly the entries that no slot points to any more, never the new one |
| GitCache.SlotCount | src/cache_git_directory.cpp:100-117 | how setting a slot changes the number of slots of every entry |
| GitCache.KeysAreShown | src/cache_git_directory.cpp:100-117 | with exact counts the hash map holds exactly the hashes that some slot holds |
| GitCache.SlotIsLastSaved | src/cache_git_directory.cpp:67-118 | a slot holds the hash that its owner saved last while its reference was the current one, and nothing if it never did |
| GitCache.DeletedAre | src/cache_git_directory.cpp:100-117 | a hash was deleted if and only if some operation took it out of its last slot |
| GitCache.Run | src/cache_git_directory.cpp:67-118 | for any registrations and switches of reference the slots hold exactly the hashes that replaying them on plain slots gives, the hashes in the map are exactly those in some slot, exactly the hashes that lost their last slot were deleted, in order, and all counts are exact |
| Counterexamples.SiblingLeftClean | src/daemon_instance.cpp:303-318 | a graph in which reporting one of two outputs breaks the consistency of states |
| Counterexamples.PhonyRuleLeftClean | src/daemon_instance.cpp:261-265 | a graph in which reporting a phony target does |
| Counterexamples.CountedTwice | src/graph_parallel_builder.cpp:150-158 | a rule with two outputs, one of them fetched: building it leaves the consumer with two ready inputs of one |
| Counterexamples.DirtyEntryMiscounted | src/depfile.cpp:48-64 | a depfile entry below the rule after which the counter of the rule is one too low |
| Counterexamples.SourceLeftUncovered | src/depfile.cpp:126-137 | a dirty source that a depfile no longer lists stays dirty with only a clean consumer |
| Counterexamples.RefusedDepfileLeavesEdge | src/depfile.cpp:82-118 | a rule whose refused depfile leaves a one-sided edge |
| Counterexamples.LazyCycle | src/graph_parallel_builder.cpp:177-196 | a consistent graph with a lazily fetched node above a planned rule, whose depfile closes a cycle |

## Left out

- GraphParsing.GraphParser.ProcessJson: a rule that names the graph file itself is not modelled, because the code then has two node objects with one path; nor is an object with only one of its two lists, for which the code follows a null pointer.
- The reload of a changed graph file (src/graph_reloader.cpp).
- DependencyScan.GraphDependencyScan.UpdateRule: leaves out the depfile that the first scan may load.
- Hashing.GraphHash.RecomputeRuleHash: leaves out the restoration of a depfile from the cache when the second hash of a rule changes after a report about a file; after a build it never comes to that, as second hashes do not change then.
- The saving of results in the cache, which has no effect on the graph.
- DepfileLoading.Load: asks, as the code asserts, that the counter is never lowered below zero.
- Building.GraphParallelBuilder.BuildThread: a depfile lists no dirty generated file that its rule does not need anyway, the files that the planned depfiles list form no cycle with the graph (certain while nothing is lazily fetched, see `Building.LayersUnfetched`), and a depfile is refused only for a rule without implicit inputs, because the code breaks the graph otherwise (see the lemmas of `Counterexamples`). Builds without depfiles need none of this.
- Daemon.Run: asks that each event is allowed in the state in which it comes. Not allowed are a report that marks a phony target whose rule is clean or one of several clean outputs, a lazy fetch that leaves the outputs of a rule unlike each other, and a build whose depfiles do not meet what the build loop asks, because the code breaks the invariant there (see `Daemon.PhonyMarked`, `Daemon.OutputMarked`, `LazyFetch.FetchConsistent` and `Counterexamples`).
- Daemon.DaemonInstance.StartBuild: leaves out the answer that a build is already running, and asks of the lazy fetch and of depfiles what `Daemon.Run` asks.
- FirstBuild.CheckAndScan: asks that every node lies below a root, because the cycle check sees no others (see `CycleCheck.AcyclicIff`).
- FirstBuild.Start: asks the same, and of depfiles what the build loop asks.
- FirstBuild.Boot: asks the same of the entries (see `FirstBuild.EntriesReachIff`), and that they give every rule an output, as the scan asserts.
- DepfileParsing.DepfileParser.Parse: bytes above 127 are not plain, as the scanner's table says; where `char` is signed the scanner compares and indexes with negative values, which is not modelled.
- JsonRoundTrip.RoundTrip: asks that the value stays within the configured nesting and data limits, the latter with the room that an escape needs while it is decoded.
- JsonAcceptance.Accepts: asks the same of the value, and speaks of text without comments; for these see `JsonAcceptance.SkipsComment` and `JsonAcceptance.SkipsLine`.
- Watchman, the command server, options, logging, subprocesses and signals: the end of each command, the times at which rules are collected or restored and the time of the interrupt are given by the environment, the order of completions is arbitrary.
- SHA-256 and file contents: an uninterpreted function whose values are not empty, and a parameter.
- Callbacks that fail, allocation failure and 32-bit overflow in the JSON parser; what the parser does when it is fed again after an error; binary strings and the document-tree callback.
- The destructor of the stream server, polling itself, and the validity of the streamed JSON: control characters and cache paths are not escaped.
- Looking up the current git reference and deleting files: a parameter and a log.
