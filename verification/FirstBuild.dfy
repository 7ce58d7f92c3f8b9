/** From a parsed graph to the end of its first full build (src/main.cpp, src/daemon_instance.cpp):
    check for cycles, scan, plan over all roots, build. */
module FirstBuild {
  import opened Reachability
  import opened Topology
  import opened DirtyTracking
  import opened GraphInvariant
  import opened DependencyScan
  import opened CycleCheck
  import opened Planning
  import opened Building
  import opened Hashing
  import opened DepfileLoading
  import opened GraphParsing
  import opened Daemon

  /** The scan establishes the invariant that every later step keeps. */
  lemma ScanConsistent(t: Topology, stamp: Stamps)
    requires WellFormed(t)
    ensures Consistent(t, Stale(t, stamp) + NewSources(t, stamp, t.rules), {})
    ensures forall v :: v in Stale(t, stamp) + NewSources(t, stamp, t.rules) ==> !Unused(t, v)
  {
    hide WellFormed, Stale, Outdated;
    var d := Stale(t, stamp) + NewSources(t, stamp, t.rules);
    forall v | v in Stale(t, stamp) ensures v in t.nodes + t.rules
        && (v in t.nodes ==> v in t.child && t.child[v] in d) {
      StaleInside(t, stamp, v);
      StaleUnfold(t, stamp, v);
    }
    forall r, o | r in t.outputs && o in t.outputs[r] ensures o in d <==> r in d {
      SameKeys(t);
      RuleShape(t, r);
      StaleUnfold(t, stamp, o);
    }
    forall r, i | r in t.inputs && i in t.inputs[r] && i in t.child && i in d ensures r in d {
      SameKeys(t);
      StaleUnfold(t, stamp, r);
    }
    forall s | s in t.parents && IsSource(t, s) && s in d ensures exists p :: p in t.parents[s] && p in d {
      SameKeys(t);
      NewSourceHasRule(t, stamp, s);
    }
    forall v | v in d ensures !Unused(t, v) {}
    forall n | n in t.child && n in d ensures t.child[n] in d {
      ChildIsNode(t, n);
      StaleUnfold(t, stamp, n);
    }
    forall r, o, o' | r in t.outputs && o in t.outputs[r] && o' in t.outputs[r] && o in d ensures o' in d {
      assert r in d;
    }
  }

  lemma NewSourceHasRule(t: Topology, stamp: Stamps, s: Vertex)
    requires WellFormed(t) && s in NewSources(t, stamp, t.rules)
    ensures s in t.parents && exists p :: p in t.parents[s] && p in Stale(t, stamp)
  {
    hide WellFormed, Stale;
    var r, o :| r in t.rules && r in t.inputs && r in t.outputs && !IsPhony(t, r)
                && s in t.inputs[r] && o in t.outputs[r] && Newer(stamp, s, o);
    RuleShape(t, r);
    assert Outdated(t, stamp, r);
    StaleUnfold(t, stamp, r);
    NodeShape(t, s);
    assert r in t.parents[s];
  }

  /** Source `s` is newer than an output of rule `p`, which consumes it. */
  ghost predicate Outdates(t: Topology, stamp: Stamps, s: Vertex, p: Vertex) {
    && s in t.nodes && IsSource(t, s) && p in t.rules && p in t.inputs && p in t.outputs && !IsPhony(t, p)
        && s in t.inputs[p]
    && exists o :: o in t.outputs[p] && Newer(stamp, s, o)
  }

  /** Rule `r` is outdated by itself or lies above a rule that is. */
  ghost predicate AboveOutdated(t: Topology, stamp: Stamps, r: Vertex) {
    exists q :: q in t.rules && Outdated(t, stamp, q) && r in Above(t, q)
  }

  /** GraphConsistencyChecker asks that every rule with a dirty input is dirty.  The scan meets
      that exactly when every rule that consumes a source newer than some output is outdated, by
      itself or through a rule below it. */
  lemma ScanMeetsCheckerIff(t: Topology, stamp: Stamps)
    requires WellFormed(t)
    ensures var d := Stale(t, stamp) + NewSources(t, stamp, t.rules);
            (forall r, i :: r in t.inputs && i in t.inputs[r] && i in d ==> r in d)
            <==> (forall s, p, r :: Outdates(t, stamp, s, p) && r in t.inputs && s in t.inputs[r] ==>
                AboveOutdated(t, stamp, r))
  {
    hide WellFormed, Stale, NewSources, Outdates, AboveOutdated;
    SameKeys(t);
    ScanConsistent(t, stamp);
    var d := Stale(t, stamp) + NewSources(t, stamp, t.rules);
    forall v | v in NewSources(t, stamp, t.rules) ensures v in t.nodes && v !in t.child
        && exists p :: Outdates(t, stamp, v, p) {
      NewSourceIsSource(t, stamp, v);
      NewMeans(t, stamp, v);
    }
    forall s, p | Outdates(t, stamp, s, p) ensures s in NewSources(t, stamp, t.rules) {
      OutdatesMeans(t, stamp, s, p);
    }
    forall r | r in t.rules ensures r in d <==> AboveOutdated(t, stamp, r) {
      StaleMeans(t, stamp, r);
    }
    if forall s, p, r :: Outdates(t, stamp, s, p) && r in t.inputs && s in t.inputs[r] ==> AboveOutdated(t, stamp, r) {
      forall r, i | r in t.inputs && i in t.inputs[r] && i in d ensures r in d {
        RuleShape(t, r);
        StaleUnfold(t, stamp, i);
        if i !in t.child {
          var p :| Outdates(t, stamp, i, p);
        }
      }
    }
    if forall r, i :: r in t.inputs && i in t.inputs[r] && i in d ==> r in d {
      forall s, p, r | Outdates(t, stamp, s, p) && r in t.inputs
          && s in t.inputs[r] ensures AboveOutdated(t, stamp, r) {
        assert s in d;
      }
    }
  }

  lemma NewMeans(t: Topology, stamp: Stamps, s: Vertex)
    requires WellFormed(t) && s in NewSources(t, stamp, t.rules)
    ensures exists p :: Outdates(t, stamp, s, p)
  {
    hide WellFormed;
    var p, o :| p in t.rules && p in t.inputs && p in t.outputs && !IsPhony(t, p)
                && s in t.inputs[p] && o in t.outputs[p] && Newer(stamp, s, o);
    assert Outdates(t, stamp, s, p);
  }

  lemma OutdatesMeans(t: Topology, stamp: Stamps, s: Vertex, p: Vertex)
    requires Outdates(t, stamp, s, p)
    ensures s in NewSources(t, stamp, t.rules)
  {
  }

  lemma StaleMeans(t: Topology, stamp: Stamps, r: Vertex)
    requires r in t.rules
    ensures r in Stale(t, stamp) <==> AboveOutdated(t, stamp, r)
  {
    hide Above, Outdated;
  }

  lemma NewSourceIsSource(t: Topology, stamp: Stamps, v: Vertex)
    requires v in NewSources(t, stamp, t.rules)
    ensures v in t.nodes && v !in t.child
  {
  }

  /** A source newer than one output and older than another: the scan marks it dirty and leaves
      one of the rules that consume it clean. */
  lemma ScanMissesChecker() returns (t: Topology, stamp: Stamps, s: Vertex, r: Vertex)
    ensures WellFormed(t) && r in t.inputs && s in t.inputs[r]
    ensures s in NewSources(t, stamp, t.rules) && r !in Stale(t, stamp) + NewSources(t, stamp, t.rules)
  {
    var a, b := Node("a"), Node("bb");
    s, r := Node(""), Rule(1);
    t, stamp := Shared(s, a, b), map[s := 2, a := 1, b := 3];
    SharedScanned(s, a, b, stamp);
  }

  /** One source file compiled by two rules. */
  function Shared(s: Vertex, a: Vertex, b: Vertex): Topology {
    var p, q := Rule(0), Rule(1);
    Topology({s, a, b}, {p, q}, map[p := [s], q := [s]], map[p := [a], q := [b]], map[p := 0, q := 0],
             map[p := "cc", q := "cc"], map[a := p, b := q], map[s := [p, q], a := [], b := []], {a, b})
  }

  lemma SharedWellFormed(s: Vertex, a: Vertex, b: Vertex)
    requires s.Node? && a.Node? && b.Node? && s != a && s != b && a != b
    ensures WellFormed(Shared(s, a, b))
  {
    hide InputEdges, OutputEdges, Typed;
    SharedInputs(s, a, b);
    SharedOutputs(s, a, b);
    SharedTyped(s, a, b);
    assert forall r :: r in Shared(s, a, b).rules ==> r == Rule(0) || r == Rule(1);
  }

  lemma SharedTyped(s: Vertex, a: Vertex, b: Vertex)
    requires s.Node? && a.Node? && b.Node? && s != a && s != b && a != b
    ensures Typed(Shared(s, a, b))
  {
  }

  lemma SharedOutputs(s: Vertex, a: Vertex, b: Vertex)
    requires a != b
    ensures OutputEdges(Shared(s, a, b))
  {
  }

  lemma SharedInputs(s: Vertex, a: Vertex, b: Vertex)
    requires s.Node? && a.Node? && b.Node? && s != a && s != b && a != b
    ensures InputEdges(Shared(s, a, b))
  {
    var t := Shared(s, a, b);
    assert forall n, r :: n in t.parents ==> (r in t.parents[n] <==> n == s && (r == Rule(0) || r == Rule(1)));
    assert forall n, r :: r in t.inputs ==> (n in t.inputs[r] <==> n == s);
  }

  lemma SharedScanned(s: Vertex, a: Vertex, b: Vertex, stamp: Stamps)
    requires s.Node? && a.Node? && b.Node? && s != a && s != b && a != b
    requires s in stamp && a in stamp && b in stamp && stamp[a] < stamp[s] < stamp[b]
    ensures var t := Shared(s, a, b);
            && WellFormed(t) && Rule(1) in t.inputs && s in t.inputs[Rule(1)]
            && s in NewSources(t, stamp, t.rules) && Rule(1) !in Stale(t, stamp) + NewSources(t, stamp, t.rules)
  {
    hide WellFormed, Stale;
    var t := Shared(s, a, b);
    SharedWellFormed(s, a, b);
    assert Rule(0) in t.rules && s in t.inputs[Rule(0)] && a in t.outputs[Rule(0)] && Newer(stamp, s, a);
    StaleUnfold(t, stamp, Rule(1));
    StaleUnfold(t, stamp, s);
    assert forall i :: i in t.inputs[Rule(1)] ==> i == s;
    assert forall o :: o in t.outputs[Rule(1)] ==> o == b;
  }

  // ----- From the graph file to a daemon -----

  /** The timestamps that a scan of a new graph works with. */
  function FirstStamps(t: Topology, stat: map<Vertex, int>): Stamps
    requires t.nodes <= stat.Keys
  {
    Stats(t, map v | v in t.nodes + t.rules :: 0, stat)
  }

  /** What the first scan finds dirty. */
  ghost function FirstDirty(t: Topology, stat: map<Vertex, int>): set<Vertex>
    requires t.nodes <= stat.Keys
  {
    Stale(t, FirstStamps(t, stat)) + NewSources(t, FirstStamps(t, stat), t.rules)
  }

  /** When the file of a node was last written; the target of a rule without a command has no file. */
  function Written(t: Topology, stat: map<Vertex, int>, n: Vertex): int
    requires n in stat
  {
    if n in t.child && t.child[n] in t.command && t.command[t.child[n]] == "" then 0 else stat[n]
  }

  /** A rule with a command has an input that was written after one of its outputs. */
  ghost predicate BehindOnDisk(t: Topology, stat: map<Vertex, int>, r: Vertex) {
    && r in t.inputs && r in t.outputs && r in t.command && t.command[r] != ""
    && exists i, o :: i in t.inputs[r] && o in t.outputs[r] && i in stat && o in stat && Written(t, stat, i) > stat[o]
  }

  /** What the first scan marks, told by the files alone: the rules that are behind on disk and what lies
      above them, the outputs of these, and the sources written after an output made from them. */
  lemma FirstDirtyIff(t: Topology, stat: map<Vertex, int>, v: Vertex)
    requires WellFormed(t) && t.nodes <= stat.Keys && v in t.nodes + t.rules
    ensures v in FirstDirty(t, stat) <==>
              if v in t.rules || v in t.child
              then exists r :: r in t.rules && BehindOnDisk(t, stat, r) && v in Above(t, r)
              else exists r, o :: r in t.rules && r in t.inputs && r in t.outputs && r in t.command
                                  && t.command[r] != "" && v in t.inputs[r] && o in t.outputs[r] && o in stat
                                  && stat[v] > stat[o]
  {
    hide WellFormed, Above, FirstStamps;
    var stamp := FirstStamps(t, stat);
    SameKeys(t);
    FirstTimes(t, stat);
    forall r | r in t.rules ensures Outdated(t, stamp, r) <==> BehindOnDisk(t, stat, r) {
      OutdatedOnDisk(t, stat, r);
    }
    if v !in t.rules && v !in t.child {
      NodeShape(t, v);
      StaleUnfold(t, stamp, v);
      SourceOnDisk(t, stat, v);
    } else {
      if v in NewSources(t, stamp, t.rules) {
        NewSourceIsSource(t, stamp, v);
        NodeShape(t, v);
      }
    }
  }

  /** The timestamps of a first scan are the times of the files. */
  lemma FirstTimes(t: Topology, stat: map<Vertex, int>)
    requires WellFormed(t) && t.nodes <= stat.Keys
    ensures var stamp := FirstStamps(t, stat);
            && stamp.Keys == t.nodes + t.rules && (forall n :: n in t.nodes ==> stamp[n] == Written(t, stat, n))
  {
    hide WellFormed;
    SameKeys(t);
    var stamp: Stamps := map v | v in t.nodes + t.rules :: 0;
    StatsRead(t, stamp, stat);
    forall n | n in t.nodes ensures FirstStamps(t, stat)[n] == Written(t, stat, n) {
      NodeShape(t, n);
    }
  }

  lemma OutdatedOnDisk(t: Topology, stat: map<Vertex, int>, r: Vertex)
    requires WellFormed(t) && t.nodes <= stat.Keys && r in t.rules
    ensures Outdated(t, FirstStamps(t, stat), r) <==> BehindOnDisk(t, stat, r)
  {
    hide WellFormed, FirstStamps;
    FirstTimes(t, stat);
    RuleShape(t, r);
    var stamp := FirstStamps(t, stat);
    if BehindOnDisk(t, stat, r) {
      var i, o :| i in t.inputs[r] && o in t.outputs[r] && i in stat && o in stat && Written(t, stat, i) > stat[o];
      assert Newer(stamp, i, o);
    }
  }

  lemma SourceOnDisk(t: Topology, stat: map<Vertex, int>, s: Vertex)
    requires WellFormed(t) && t.nodes <= stat.Keys && s in t.nodes && s !in t.child
    ensures s in NewSources(t, FirstStamps(t, stat), t.rules) <==>
              exists r, o :: r in t.rules && r in t.inputs && r in t.outputs && r in t.command
                             && t.command[r] != "" && s in t.inputs[r] && o in t.outputs[r] && o in stat
                             && stat[s] > stat[o]
  {
    hide WellFormed, FirstStamps;
    FirstTimes(t, stat);
    var stamp := FirstStamps(t, stat);
    if s in NewSources(t, stamp, t.rules) {
      var r, o :| r in t.rules && r in t.inputs && r in t.outputs && !IsPhony(t, r)
                  && s in t.inputs[r] && o in t.outputs[r] && Newer(stamp, s, o);
      RuleShape(t, r);
    }
    if r, o :| r in t.rules && r in t.inputs && r in t.outputs && r in t.command
               && t.command[r] != "" && s in t.inputs[r] && o in t.outputs[r] && o in stat && stat[s] > stat[o] {
      RuleShape(t, r);
      assert Newer(stamp, s, o);
    }
  }

  /** Nothing is dirty after the first scan exactly when no rule is behind on disk: a tree that was built
      and not touched since is not built again. */
  lemma CleanTreeIff(t: Topology, stat: map<Vertex, int>)
    requires WellFormed(t) && t.nodes <= stat.Keys
    ensures FirstDirty(t, stat) == {} <==>
              forall r, i, o :: r in t.rules && r in t.inputs && r in t.outputs && r in t.command && t.command[r] != ""
                                && i in t.inputs[r] && o in t.outputs[r] && i in stat && o in stat ==>
                                  Written(t, stat, i) <= stat[o]
  {
    hide WellFormed, FirstDirty, Above;
    if FirstDirty(t, stat) == {} {
      forall r, i, o | r in t.rules && r in t.inputs && r in t.outputs && r in t.command && t.command[r] != ""
                       && i in t.inputs[r] && o in t.outputs[r] && i in stat && o in stat
        ensures Written(t, stat, i) <= stat[o]
      {
        FirstDirtyIff(t, stat, r);
        AboveSelf(t, r);
        assert !BehindOnDisk(t, stat, r);
      }
    } else {
      var v :| v in FirstDirty(t, stat);
      FirstDirtyInside(t, stat);
      FirstDirtyIff(t, stat, v);
      if v in t.rules || v in t.child {
        var r :| r in t.rules && BehindOnDisk(t, stat, r) && v in Above(t, r);
      } else {
        var r, o :| r in t.rules && r in t.inputs && r in t.outputs && r in t.command
                    && t.command[r] != "" && v in t.inputs[r] && o in t.outputs[r] && o in stat && stat[v] > stat[o];
      }
    }
  }

  lemma FirstDirtyInside(t: Topology, stat: map<Vertex, int>)
    requires t.nodes <= stat.Keys
    ensures FirstDirty(t, stat) <= t.nodes + t.rules
  {
    hide FirstStamps, Outdated, Above;
  }

  /** No depfile has been loaded yet. */
  ghost predicate NoImplicits(t: Topology) {
    forall r :: r in t.rules ==> r in t.implicits && t.implicits[r] == 0
  }

  /** A new graph has all the roots that depfiles rely on, and no implicit input to lose. */
  lemma NewGraphLoads(t: Topology, d: set<Vertex>)
    requires WellFormed(t) && NoImplicits(t)
    ensures ImplicitRoots(t) && Droppable(t, d)
  {
    hide WellFormed;
    SameKeys(t);
    forall q | q in t.rules ensures HasInputs(t, q) && ExplicitInputs(t, q) == t.inputs[q]
        && ImplicitInputs(t, q) == [] {
      RuleShape(t, q);
    }
    forall n | n in t.child && (forall r :: HasInputs(t, r) ==> n !in ExplicitInputs(t, r)) ensures n in t.roots {
      RootOrListed(t, n);
    }
  }

  lemma RootOrListed(t: Topology, n: Vertex)
    requires WellFormed(t) && NoImplicits(t) && n in t.nodes
    ensures n in t.roots || exists r :: HasInputs(t, r) && n in ExplicitInputs(t, r)
  {
    hide WellFormed;
    NodeShape(t, n);
    if t.parents[n] != [] {
      var p := t.parents[n][0];
      RuleShape(t, p);
      assert HasInputs(t, p) && ExplicitInputs(t, p) == t.inputs[p];
    }
  }

  /** The cycle check and the scan, on the graph that the parser made. */
  method CheckAndScan(t: Topology, stat: map<Vertex, int>, content: Hashes, sha: string -> string)
    returns (loop: bool, graph: Graph, hashes: GraphHash)
    requires WellFormed(t) && RootsReachAll(t) && t.nodes <= stat.Keys && forall x :: sha(x) != ""
    ensures fresh(graph) && fresh(hashes) && graph.topo == hashes.topo == t && hashes.sha == sha
            && hashes.content == content
    ensures loop <==> !Acyclic(t)
    ensures !loop ==> Invariant(graph) && graph.lazy == {} && graph.dirty == FirstDirty(t, stat)
    ensures !loop ==> forall n :: n in t.nodes ==> n in graph.stamp && graph.stamp[n] == Written(t, stat, n)
    ensures !loop ==> forall r :: r in t.rules ==>
              (r in graph.dirty <==> exists q :: q in t.rules && BehindOnDisk(t, stat, q) && r in Above(t, q))
    ensures !loop ==> HashesHold(hashes, t)
    ensures !loop ==> forall v :: v in graph.dirty ==> !Unused(t, v)
  {
    hide WellFormed, Linked, Acyclic, RootsReachAll, NoLoopBelowRoots, Consistent, Graph.Counted, Graph.Exact,
         FirstDirty, Unused, RanksBelowRoots, HashesHold, Invariant, BehindOnDisk, Above, FirstStamps, Written;
    graph := new Graph(t);
    var none := map v | v in t.nodes + t.rules :: "";
    hashes := new GraphHash(t, sha, content, none, none);
    LinkedOf(t);
    AcyclicIff(t);
    var checker := new CycleChecker(t);
    var ok, _ := checker.CheckGraphLoop();
    loop := !ok;
    if !loop {
      ScanNew(graph, hashes, stat);
      FirstTimes(t, stat);
      forall r | r in t.rules
        ensures r in FirstDirty(t, stat) <==> exists q :: q in t.rules && BehindOnDisk(t, stat, q) && r in Above(t, q)
      {
        FirstDirtyIff(t, stat, r);
      }
    }
  }

  /** The scan of a new graph. */
  method ScanNew(graph: Graph, hashes: GraphHash, stat: map<Vertex, int>)
    requires WellFormed(graph.topo) && Acyclic(graph.topo) && graph.topo.nodes <= stat.Keys
    requires graph.dirty == {} && graph.lazy == {} && graph.Counted() && graph.Exact()
    requires graph.stamp == map v | v in graph.topo.nodes + graph.topo.rules :: 0
    requires hashes.topo == graph.topo && forall x :: hashes.sha(x) != ""
    requires hashes.hash == hashes.hashDep == map v | v in graph.topo.nodes + graph.topo.rules :: ""
    modifies graph, hashes`hash, hashes`hashDep
    ensures Invariant(graph) && graph.topo == old(graph.topo) && graph.lazy == {}
            && graph.dirty == FirstDirty(graph.topo, stat) && graph.stamp == FirstStamps(graph.topo, stat)
    ensures HashesHold(hashes, graph.topo) && forall v :: v in graph.dirty ==> !Unused(graph.topo, v)
  {
    hide WellFormed, Acyclic, Stale, NewSources, Consistent, Graph.Counted, Graph.Exact, Stats, Unused,
         HoldOutside, GraphDependencyScan.Hashed, Complete;
    var scanner := new GraphDependencyScan(graph, hashes);
    NothingBlocked(graph);
    NothingHashed(scanner);
    StatKeys(graph.topo, graph.stamp, stat);
    scanner.Scan(stat);
    ScanConsistent(graph.topo, graph.stamp);
  }

  lemma NothingHashed(s: GraphDependencyScan)
    requires s.hashes.topo == s.graph.topo && forall x :: s.hashes.sha(x) != ""
    requires s.hashes.hash == s.hashes.hashDep == map v | v in s.graph.topo.nodes + s.graph.topo.rules :: ""
    ensures s.Hashed({})
  {
  }

  /** The rules that the first build has to run. */
  ghost function FirstPlan(t: Topology, stat: map<Vertex, int>): set<Vertex>
    requires t.nodes <= stat.Keys
  {
    Needed(t, FirstDirty(t, stat), t.roots)
  }

  /** The whole way from a parsed graph to the end of its first build, depfiles included.  Whatever
      order the commands finish in, if none of them fails and no interrupt comes, the build succeeds
      and leaves nothing dirty, sources included, and every counter full. */
  method Start(t: Topology, stat: map<Vertex, int>, content: Hashes, sha: string -> string, numThreads: nat,
               env: Environment)
    returns (loop: bool, graph: Graph, hashes: GraphHash, result: BuildResult, log: seq<Action>)
    requires WellFormed(t) && RootsReachAll(t) && NoImplicits(t) && t.nodes <= stat.Keys && numThreads >= 1
    requires forall x :: sha(x) != ""
    requires forall r :: r in FirstPlan(t, stat) ==> MayList(t, FirstDirty(t, stat), env, r)
    ensures loop <==> !Acyclic(t)
    ensures !loop ==> Invariant(graph) && HashesHold(hashes, graph.topo) && graph.topo == Reloaded(t, env, log)
    ensures !loop ==> result == Verdict(log) && Faithful(t, env, log)
                      && Orderly(t, env, FirstPlan(t, stat), numThreads, log) && RunningRules(log) == {}
    ensures !loop && NoFailure(log) && !Stopped(env.stop, log) ==> AllUpToDate(graph)
    ensures !loop && Undisturbed(t, env, FirstPlan(t, stat)) ==> result == SUCCEEDED && AllUpToDate(graph)
  {
    hide *;
    loop, graph, hashes := CheckAndScan(t, stat, content, sha);
    result, log := SUCCEEDED, [];
    if loop {
      return;
    }
    ghost var d := graph.dirty;
    FirstPlanIs(t, stat, env, graph);
    var plan := new BuildPlan(graph, t.roots);
    var builder := new GraphParallelBuilder(graph, plan, hashes, numThreads, env);
    NewGraphLoads(t, d);
    PlanCanRun(builder, t.roots);
    builder.BuildThread();
    result, log := builder.result, builder.log;
    if NoFailure(log) && !Stopped(env.stop, log) {
      EverythingBuilt(t, d, env, log, graph);
    }
    if Undisturbed(t, env, FirstPlan(t, stat)) {
      UndisturbedSucceeds(t, env, FirstPlan(t, stat), numThreads, log);
    }
  }

  /** What the first build relies on. */
  lemma FirstPlanIs(t: Topology, stat: map<Vertex, int>, env: Environment, g: Graph)
    requires Invariant(g) && g.topo == t && g.lazy == {} && t.nodes <= stat.Keys && g.dirty == FirstDirty(t, stat)
    requires forall r :: r in FirstPlan(t, stat) ==> MayList(t, FirstDirty(t, stat), env, r)
    ensures WellFormed(t) && Acyclic(t) && Consistent(t, g.dirty, {}) && g.Counted() && g.Exact() && t.roots <= t.nodes
    ensures forall n :: n in t.child && n in g.dirty ==> t.child[n] in g.dirty
    ensures FirstPlan(t, stat) == Needed(t, g.dirty, t.roots) && g.stamp.Keys == t.nodes + t.rules
    ensures DepfilesFit(t, g.dirty, env, FirstPlan(t, stat))
  {
    hide WellFormed, Acyclic, Consistent, Graph.Counted, Graph.Exact, Needed, MayList, Layers, UsesDepfiles, FirstDirty;
    PlanParts(t, g.dirty, {});
    forall r | r in Needed(t, g.dirty, t.roots) ensures r in t.rules && r in g.dirty {
      NeededIsDirty(t, g.dirty, {}, t.roots, r);
    }
    LayersUnfetched(t, g.dirty, env, FirstPlan(t, stat));
  }

  /** Nothing is dirty and every counter is full. */
  ghost predicate AllUpToDate(g: Graph)
    reads g
  {
    && g.dirty == {} && g.numReady.Keys == g.topo.inputs.Keys
    && forall r :: r in g.numReady ==> g.numReady[r] == |g.topo.inputs[r]|
  }

  /** Loading depfiles keeps the explicit inputs. */
  lemma {:induction false} ExplicitKept(t: Topology, env: Environment, log: seq<Action>, r: Vertex)
    ensures ExplicitInputs(Reloaded(t, env, log), r) == ExplicitInputs(t, r)
    ensures HasInputs(Reloaded(t, env, log), r) == HasInputs(t, r)
  {
    if log != [] {
      ExplicitKept(t, env, log[..|log| - 1], r);
      var u, a := Reloaded(t, env, log[..|log| - 1]), log[|log| - 1];
      if a.Built? && LoadsFrom(u, env, a.rule) {
        LoadKeepsExplicit(u, a.rule, env.depfile(a.rule).parsed.ins, r);
      }
    }
  }

  lemma LoadKeepsExplicit(t: Topology, r: Vertex, deps: seq<string>, q: Vertex)
    requires HasInputs(t, r)
    ensures ExplicitInputs(Loaded(t, r, deps), q) == ExplicitInputs(t, q)
    ensures HasInputs(Loaded(t, r, deps), q) == HasInputs(t, q)
  {
    hide NewInputs, Gone;
    var imp := NewInputs(ExplicitInputs(t, r), deps);
    assert (ExplicitInputs(t, r) + imp)[..|ExplicitInputs(t, r)|] == ExplicitInputs(t, r);
  }

  /** Once every needed rule is built nothing is dirty any more. */
  lemma EverythingBuilt(t: Topology, d: set<Vertex>, env: Environment, log: seq<Action>, g: Graph)
    requires WellFormed(t) && Acyclic(t) && Consistent(t, d, {}) && NoImplicits(t)
             && (forall v :: v in d ==> !Unused(t, v))
    requires Invariant(g) && g.topo == Reloaded(t, env, log) && Kept(t, g.topo, BuiltRules(log))
    requires BuiltRules(log) == Needed(t, d, t.roots) && g.dirty <= d - ClearedBy(g.topo, BuiltRules(log))
    ensures AllUpToDate(g)
  {
    hide WellFormed, Acyclic, Needed, Graph.Counted, Graph.Exact, RuleOfDirtyNode, OutputsOfDirtyRule,
         DirtyGeneratedInput, UniformOutputs, Unused, Reloaded, ExplicitInputs;
    var t' := g.topo;
    forall v | v in g.dirty ensures v !in t.rules {
      if v in t.rules {
        DirtyRuleNeeded(t, d, v);
        SelfCleared(t', BuiltRules(log), v);
      }
    }
    forall v | v in g.dirty ensures exists q :: q in g.dirty && q in t.rules {
      DirtyRuleNear(t, d, env, log, g, v);
    }
    assert g.dirty == {};
    CountersFull(g);
  }

  lemma SelfCleared(t: Topology, built: set<Vertex>, r: Vertex)
    requires r in built
    ensures r in ClearedBy(t, built)
  {
    assert r in Cleared(t, r);
  }

  /** As long as anything is dirty some rule is. */
  lemma DirtyRuleNear(t: Topology, d: set<Vertex>, env: Environment, log: seq<Action>, g: Graph, v: Vertex)
    requires WellFormed(t) && NoImplicits(t) && (forall u :: u in d ==> !Unused(t, u))
             && g.dirty <= d <= t.nodes + t.rules
    requires Invariant(g) && g.topo == Reloaded(t, env, log) && g.topo.child == t.child && g.topo.rules == t.rules
    requires v in g.dirty
    ensures exists q :: q in g.dirty && q in t.rules
  {
    hide WellFormed, Acyclic, Graph.Counted, Graph.Exact, OutputsOfDirtyRule, DirtyGeneratedInput,
         UniformOutputs, Reloaded;
    var t' := g.topo;
    SameKeys(t);
    SameKeys(t');
    if v in t.child {
      NodeShape(t', v);
      assert t.child[v] in g.dirty;
    } else if v !in t.rules {
      assert !Unused(t, v);
      NodeShape(t, v);
      var p := t.parents[v][0];
      RuleShape(t, p);
      ExplicitKept(t, env, log, p);
      assert ExplicitInputs(t, p) == t.inputs[p] && v in ExplicitInputs(t', p);
      InputHasParent(t', p, v);
      var q :| q in t'.parents[v] && q in g.dirty;
      NodeShape(t', v);
    }
  }

  lemma LinkedOf(t: Topology)
    requires WellFormed(t)
    ensures Linked(t)
  {
  }

  lemma NothingBlocked(g: Graph)
    requires g.Exact() && g.dirty == {}
    ensures g.blocked == {}
  {
  }

  lemma StatKeys(t: Topology, stamp: Stamps, stat: map<Vertex, int>)
    requires t.nodes <= stat.Keys
    ensures Stats(t, stamp, stat).Keys == stamp.Keys
  {
  }

  lemma CountersFull(g: Graph)
    requires Invariant(g) && g.dirty == {}
    ensures AllUpToDate(g)
  {
    hide WellFormed, Acyclic, Consistent, Graph.Exact;
    forall r | r in g.topo.inputs ensures g.numReady[r] == |g.topo.inputs[r]| {
      SameKeys(g.topo);
      ReadyMeans(g, r);
      assert Blockers(g.topo, {}, r) == {};
    }
  }

  // ----- From the graph file to the daemon -----

  /** From an output of a rule object to its inputs. */
  ghost function EntryEdges(es: seq<RuleEntry>): Edges {
    map n | n in Named(es) ::
      set e, i | e in es && e.RuleObject? && n in Names(e.outputs) && i in Names(e.inputs) :: i
  }

  /** No rule object takes `n` as an input. */
  ghost predicate Unconsumed(es: seq<RuleEntry>, n: Vertex) {
    forall e :: e in es && e.RuleObject? ==> n !in Names(e.inputs)
  }

  /** `n` leads, through the rule objects that consume it, to a file that nothing consumes. */
  ghost predicate LeadsOut(es: seq<RuleEntry>, n: Vertex) {
    exists m :: m in Named(es) && Unconsumed(es, m) && Reaches(EntryEdges(es), m, n)
  }

  ghost predicate EntriesReachAll(es: seq<RuleEntry>) {
    forall n :: n in Named(es) ==> LeadsOut(es, n)
  }

  lemma {:induction false} SamePaths(g: Edges, h: Edges, u: Vertex, v: Vertex)
    requires forall a, b :: Step(g, a, b) ==> Step(h, a, b)
    ensures Reaches(g, u, v) ==> Reaches(h, u, v)
  {
    if Reaches(g, u, v) {
      var p :| Connects(g, p, u, v);
      assert Connects(h, p, u, v);
    }
  }

  /** The edges of the graph are those of the entries. */
  lemma EntryStep(t: Topology, es: seq<RuleEntry>, u: Vertex, v: Vertex)
    requires Linked(t) && Represents(t, es)
    ensures Step(DependsOn(t), u, v) <==> Step(EntryEdges(es), u, v)
  {
    hide Linked, Names, RuleObjects;
    var os := RuleObjects(es);
    ChildOfOutputs(t, u);
    if Step(DependsOn(t), u, v) {
      var k :| 0 <= k < |os| && t.child[u] == Rule(k);
      assert Declares(t, os[k], Rule(k)) && u in Range(t.outputs[Rule(k)]) && v in Range(t.inputs[Rule(k)]);
      ObjectsAmong(es, os[k]);
      assert os[k] in es && u in Names(os[k].outputs) && v in Names(os[k].inputs);
      NamesAreNamed(es, os[k], u);
    }
    if Step(EntryEdges(es), u, v) {
      var e :| e in es && e.RuleObject? && u in Names(e.outputs) && v in Names(e.inputs);
      ObjectsAmong(es, e);
      var k :| 0 <= k < |os| && os[k] == e;
      assert Declares(t, os[k], Rule(k)) && u in Range(t.outputs[Rule(k)]) && v in Range(t.inputs[Rule(k)]);
      ChildOf(t, Rule(k), u);
    }
  }

  lemma NamesAreNamed(es: seq<RuleEntry>, e: RuleEntry, n: Vertex)
    requires e in es && e.RuleObject? && (n in Names(e.inputs) || n in Names(e.outputs))
    ensures n in Named(es)
  {
    hide Names;
    assert n in Names(e.inputs) + Names(e.outputs);
  }

  lemma ChildOf(t: Topology, r: Vertex, n: Vertex)
    requires Linked(t) && r in t.outputs && n in t.outputs[r]
    ensures n in t.child && t.child[n] == r
  {
  }

  /** A named file is a root exactly when no entry consumes it. */
  lemma EntryRoot(t: Topology, es: seq<RuleEntry>, n: Vertex)
    requires Linked(t) && Represents(t, es) && ExactRoots(t) && n in t.nodes
    ensures n in t.roots <==> Unconsumed(es, n)
  {
    hide Names, RuleObjects, Linked;
    var os := RuleObjects(es);
    RootIff(t, n);
    if !Unconsumed(es, n) {
      var e :| e in es && e.RuleObject? && n in Names(e.inputs);
      ObjectsAmong(es, e);
      var k :| 0 <= k < |os| && os[k] == e;
      assert Declares(t, os[k], Rule(k)) && n in Range(t.inputs[Rule(k)]);
    }
    if n !in t.roots {
      var r :| r in t.rules && r in t.inputs && n in t.inputs[r];
      var k :| 0 <= k < |os| && r == Rule(k);
      assert Declares(t, os[k], Rule(k)) && n in Range(t.inputs[r]);
      ObjectsAmong(es, os[k]);
    }
  }

  lemma RootIff(t: Topology, n: Vertex)
    requires Linked(t) && ExactRoots(t) && n in t.nodes
    ensures n in t.roots <==> forall r :: r in t.rules && r in t.inputs ==> n !in t.inputs[r]
  {
    hide OutputEdges, NoDuplicates;
    if t.parents[n] != [] {
      assert t.parents[n][0] in t.inputs && n in t.inputs[t.parents[n][0]];
    }
  }

  /** Every node of the graph lies below a root exactly when every named file leads to one that nothing
      consumes. */
  lemma EntriesReachIff(t: Topology, es: seq<RuleEntry>, file: Vertex)
    requires Linked(t) && Represents(t, es) && ExactRoots(t) && t.nodes == Named(es) + {file} && file !in Named(es)
    ensures RootsReachAll(t) <==> EntriesReachAll(es)
  {
    hide Linked, Represents, ExactRoots, Named, BelowRoot, LeadsOut;
    forall n | n in t.nodes ensures BelowRoot(t, n) <==> n == file || LeadsOut(es, n) {
      EntryBelowRoot(t, es, file, n);
    }
    ReachMeans(t, es);
  }

  lemma ReachMeans(t: Topology, es: seq<RuleEntry>)
    ensures RootsReachAll(t) <==> forall n :: n in t.nodes ==> BelowRoot(t, n)
    ensures EntriesReachAll(es) <==> forall n :: n in Named(es) ==> LeadsOut(es, n)
  {
    hide Reaches, DependsOn, EntryEdges, Unconsumed, Named;
  }

  lemma EntryBelowRoot(t: Topology, es: seq<RuleEntry>, file: Vertex, n: Vertex)
    requires Linked(t) && Represents(t, es) && ExactRoots(t) && t.nodes == Named(es) + {file} && file !in Named(es)
    requires n in t.nodes
    ensures BelowRoot(t, n) <==> n == file || LeadsOut(es, n)
  {
    hide Linked, Represents, ExactRoots, Named, Reaches, DependsOn, EntryEdges, Unconsumed;
    FileApart(t, es, file);
    if BelowRoot(t, n) {
      var m :| m in t.roots && Reaches(DependsOn(t), m, n);
      RootsInside(t, es, m);
      EntryRoot(t, es, m);
      SameReach(t, es, m, n);
    }
    var m := file;
    if n == file {
      ReachesSelf(DependsOn(t), file);
      EntryRoot(t, es, m);
    } else if LeadsOut(es, n) {
      m :| m in Named(es) && Unconsumed(es, m) && Reaches(EntryEdges(es), m, n);
      SameReach(t, es, m, n);
      EntryRoot(t, es, m);
    }
  }

  lemma RootsInside(t: Topology, es: seq<RuleEntry>, m: Vertex)
    requires Linked(t) && m in t.roots
    ensures m in t.nodes
  {
  }

  lemma SameReach(t: Topology, es: seq<RuleEntry>, u: Vertex, v: Vertex)
    requires Linked(t) && Represents(t, es)
    ensures Reaches(DependsOn(t), u, v) <==> Reaches(EntryEdges(es), u, v)
  {
    hide Linked, Represents, Reaches, DependsOn, EntryEdges;
    forall a, b ensures Step(DependsOn(t), a, b) <==> Step(EntryEdges(es), a, b) {
      EntryStep(t, es, a, b);
    }
    SamePaths(DependsOn(t), EntryEdges(es), u, v);
    SamePaths(EntryEdges(es), DependsOn(t), u, v);
  }

  /** The graph file stands apart: nothing consumes it and it depends on nothing. */
  lemma FileApart(t: Topology, es: seq<RuleEntry>, file: Vertex)
    requires file !in Named(es)
    ensures Unconsumed(es, file) && forall n :: Reaches(EntryEdges(es), file, n) ==> n == file
  {
    hide Reaches, Names;
    forall e | e in es && e.RuleObject? ensures file !in Names(e.inputs) {
      if file in Names(e.inputs) {
        NamesAreNamed(es, e, file);
      }
    }
    forall n | Reaches(EntryEdges(es), file, n) ensures n == file {
      if n != file {
        var w := ReachesSplitFirst(EntryEdges(es), file, n);
      }
    }
  }

  /** The graph file: refused, cyclic, or served by a daemon. */
  datatype BootResult = Refused | Cyclic | Serving

  /** From the graph file to a daemon that can take its first event: parse, check for cycles, scan and
      hash.  The graph is the one that the file declares. */
  method Boot(path: string, es: seq<RuleEntry>, stat: map<Vertex, int>, content: Hashes, sha: string -> string)
    returns (res: BootResult, daemon: DaemonInstance?)
    requires Node(path) !in Named(es) && Buildable(es) && Named(es) + {Node(path)} <= stat.Keys
             && forall x :: sha(x) != ""
    requires EntriesReachAll(es)
    ensures res == Refused <==> !Acceptable(es)
    ensures daemon == null <==> res == Refused
    ensures res != Refused ==>
            Represents(daemon.graph.topo, es) && WellFormed(daemon.graph.topo)
            && ExactRoots(daemon.graph.topo)
    ensures res != Refused ==> (res == Cyclic <==> !Acyclic(daemon.graph.topo))
    ensures res == Serving ==>
              && daemon.Valid() && daemon.graph.lazy == {} && daemon.sourcesMissing == {}
              && daemon.graph.topo.nodes <= stat.Keys && daemon.graph.dirty == FirstDirty(daemon.graph.topo, stat)
              && daemon.hashes.sha == sha && daemon.hashes.content == content
              && daemon.explicit == daemon.graph.topo.nodes
              && forall n :: n in daemon.graph.topo.nodes ==>
                               n in daemon.graph.stamp && daemon.graph.stamp[n] == Written(daemon.graph.topo, stat, n)
  {
    hide WellFormed, Acyclic, RootsReachAll, Represents, ExactRoots, Linked, Named, Buildable, Acceptable,
         Invariant, HashesHold, FirstDirty, Unused, ImplicitRoots, Droppable, NoImplicits, EntriesReachAll, Written;
    var parser := new GraphParser(path);
    var ok := parser.ProcessJson(es);
    var t := parser.topo;
    if !ok {
      return Refused, null;
    }
    EntriesReachIff(t, es, Node(path));
    var loop, graph, hashes := CheckAndScan(t, stat, content, sha);
    daemon := new DaemonInstance(graph, hashes, t.nodes);
    if loop {
      return Cyclic, daemon;
    }
    NoneDeclared(t, es);
    NewGraphLoads(t, graph.dirty);
    return Serving, daemon;
  }

  /** A parsed graph has no implicit inputs. */
  lemma NoneDeclared(t: Topology, es: seq<RuleEntry>)
    requires Represents(t, es)
    ensures NoImplicits(t)
  {
    forall r | r in t.rules ensures r in t.implicits && t.implicits[r] == 0 {
      var k :| 0 <= k < |RuleObjects(es)| && r == Rule(k);
      assert Declares(t, RuleObjects(es)[k], Rule(k));
    }
  }
}
