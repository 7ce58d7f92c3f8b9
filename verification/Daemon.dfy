/** The daemon (src/daemon_instance.cpp) as a state machine: file changes and whole builds, in
    any order.  A build holds the graph for its whole duration, so the steps are sequential. */
module Daemon {
  import opened Reachability
  import opened Topology
  import opened DirtyTracking
  import opened GraphInvariant
  import opened Planning
  import opened Building
  import opened LazyFetch
  import opened Hashing
  import opened DepfileLoading

  /** The shape of the set that markDirty adds. */
  lemma AboveShape(t: Topology, rank: map<Vertex, nat>, n: Vertex)
    requires WellFormed(t) && Ranked(t, rank) && n in t.nodes
    ensures n in Above(t, n)
    ensures forall m :: m in Above(t, n) && m != n && m in t.nodes ==> m in t.child && t.child[m] in Above(t, n)
    ensures forall r, o :: r in Above(t, n) && r in t.outputs && o in t.outputs[r] ==> o in Above(t, n)
    ensures forall m, p :: m in Above(t, n) && m in t.parents && p in t.parents[m] ==> p in Above(t, n)
    ensures n in t.child ==> t.child[n] !in Above(t, n)
  {
    hide WellFormed, Ranked, UpEdges;
    AboveSelf(t, n);
    forall m | m in Above(t, n) && m != n && m in t.nodes ensures m in t.child && t.child[m] in Above(t, n) {
      var w := ReachesSplitLast(UpEdges(t), n, m);
      UpStep(t, w, m);
      NodeShape(t, m);
      if w in t.nodes {
        NodeShape(t, w);
      } else {
        RuleShape(t, w);
      }
    }
    forall u, v | u in Above(t, n) && Step(UpEdges(t), u, v) ensures v in Above(t, n) {
      UpStep(t, u, v);
      ReachesStepLast(UpEdges(t), n, u, v);
    }
    forall r, o | r in Above(t, n) && r in t.outputs && o in t.outputs[r] ensures o in Above(t, n) {
      SameKeys(t);
      UpStep(t, r, o);
    }
    forall m, p | m in Above(t, n) && m in t.parents && p in t.parents[m] ensures p in Above(t, n) {
      SameKeys(t);
      UpStep(t, m, p);
    }
    if n in t.child {
      NodeShape(t, n);
      RuleShape(t, t.child[n]);
      RankStep(t, rank, t.child[n], n);
      if t.child[n] in Above(t, n) {
        AboveRank(t, rank, n, t.child[n]);
      }
    }
  }

  /** The parts of consistency that markDirty can never break. */
  lemma MarkedMostly(t: Topology, rank: map<Vertex, nat>, d: set<Vertex>, lazy: set<Vertex>, n: Vertex,
                     extra: set<Vertex>)
    requires WellFormed(t) && Ranked(t, rank) && n in t.nodes && Consistent(t, d, lazy)
    requires extra <= t.rules
    ensures var d', lazy' := d + Above(t, n) + extra, lazy - Above(t, n);
            && d' <= t.nodes + t.rules && lazy' <= t.child.Keys && lazy' !! d'
            && DirtyGeneratedInput(t, d') && DirtySource(t, d')
  {
    hide WellFormed, Ranked, Above;
    AboveShape(t, rank, n);
    AboveInside(t, n);
    var d', lazy' := d + Above(t, n) + extra, lazy - Above(t, n);
    forall v | v in extra ensures v !in t.nodes && v !in t.child && v !in t.parents {
      RuleShape(t, v);
    }
    forall r, i | r in t.inputs && i in t.inputs[r] && i in t.child && i in d' ensures r in d' {
      InputHasParent(t, r, i);
    }
    forall s | s in t.parents && IsSource(t, s) && s in d' && t.parents[s] != []
      ensures exists p :: p in t.parents[s] && p in d'
    {
      SameKeys(t);
      if s in Above(t, n) {
        assert t.parents[s][0] in d';
      } else {
        var p :| p in t.parents[s] && p in d;
        assert p in d';
      }
    }
  }

  lemma AboveInside(t: Topology, n: Vertex)
    ensures Above(t, n) <= t.nodes + t.rules
  {
  }

  /** A changed source file: markDirty keeps the graph consistent. */
  lemma SourceMarked(t: Topology, rank: map<Vertex, nat>, d: set<Vertex>, lazy: set<Vertex>, n: Vertex)
    requires WellFormed(t) && Ranked(t, rank) && Consistent(t, d, lazy) && n in t.nodes && IsSource(t, n)
    ensures Consistent(t, d + Above(t, n), lazy - Above(t, n))
  {
    hide WellFormed, Ranked, Above, DirtyGeneratedInput, DirtySource;
    AboveShape(t, rank, n);
    MarkedMostly(t, rank, d, lazy, n, {});
    var d' := d + Above(t, n);
    assert d' + {} == d';
    forall m | m in t.child && m in d' ensures t.child[m] in d' {
      ChildIsNode(t, m);
    }
    forall r, o, o' | r in t.outputs && o in t.outputs[r] && o' in t.outputs[r] && o in d' ensures o' in d' {
      OutputOf(t, r, o);
      ChildIsNode(t, o);
    }
  }

  /** A changed output: markDirty on the node plus marking its rule keeps the graph consistent
      exactly when the rule has no other output or the node was dirty already. */
  lemma OutputMarked(t: Topology, rank: map<Vertex, nat>, d: set<Vertex>, lazy: set<Vertex>, n: Vertex)
    requires WellFormed(t) && Ranked(t, rank) && Consistent(t, d, lazy) && n in t.child
    ensures Consistent(t, d + Above(t, n) + {t.child[n]}, lazy - Above(t, n))
            <==> n in d || (t.child[n] in t.outputs && |t.outputs[t.child[n]]| == 1)
  {
    hide WellFormed, Ranked, Above, DirtyGeneratedInput, DirtySource;
    ChildIsNode(t, n);
    NodeShape(t, n);
    var c := t.child[n];
    RuleShape(t, c);
    AboveShape(t, rank, n);
    MarkedMostly(t, rank, d, lazy, n, {c});
    var d', lazy' := d + Above(t, n) + {c}, lazy - Above(t, n);
    if n in d || |t.outputs[c]| == 1 {
      forall m | m in t.child && m in d' ensures t.child[m] in d' {
        ChildIsNode(t, m);
      }
      forall o | o in t.outputs[c] ensures o in d' {
        assert |t.outputs[c]| == 1 ==> o == n;
      }
      forall r, o, o' | r in t.outputs && o in t.outputs[r] && o' in t.outputs[r] && o in d' ensures o' in d' {
        OutputOf(t, r, o);
        ChildIsNode(t, o);
      }
    } else {
      var k := if t.outputs[c][0] == n then 1 else 0;
      var o := t.outputs[c][k];
      assert o != n && o in t.outputs[c];
      assert o !in d;
      assert n in d' && o !in d';
    }
  }

  /** A phony target reported changed: only the node is marked, so its rule must already have
      been dirty. */
  lemma PhonyMarked(t: Topology, rank: map<Vertex, nat>, d: set<Vertex>, lazy: set<Vertex>, n: Vertex)
    requires WellFormed(t) && Ranked(t, rank) && Consistent(t, d, lazy) && n in t.child && IsPhony(t, t.child[n])
    ensures Consistent(t, d + Above(t, n), lazy - Above(t, n)) <==> t.child[n] in d
  {
    hide WellFormed, Ranked, Above, DirtyGeneratedInput, DirtySource;
    ChildIsNode(t, n);
    NodeShape(t, n);
    var c := t.child[n];
    RuleShape(t, c);
    AboveShape(t, rank, n);
    MarkedMostly(t, rank, d, lazy, n, {});
    var d' := d + Above(t, n);
    assert d' + {} == d';
    if c in d {
      PhonyKept(t, rank, d, n);
    } else {
      assert n in d' && c !in d';
    }
  }

  lemma PhonyKept(t: Topology, rank: map<Vertex, nat>, d: set<Vertex>, n: Vertex)
    requires WellFormed(t) && Ranked(t, rank) && n in t.child && IsPhony(t, t.child[n]) && t.child[n] in d
    requires RuleOfDirtyNode(t, d) && UniformOutputs(t, d)
    ensures RuleOfDirtyNode(t, d + Above(t, n)) && UniformOutputs(t, d + Above(t, n))
  {
    hide WellFormed, Ranked, Above;
    ChildIsNode(t, n);
    NodeShape(t, n);
    RuleShape(t, t.child[n]);
    AboveShape(t, rank, n);
    var d' := d + Above(t, n);
    forall m | m in t.child && m in d' ensures t.child[m] in d' {
      ChildIsNode(t, m);
    }
    forall r, o, o' | r in t.outputs && o in t.outputs[r] && o' in t.outputs[r] && o in d' ensures o' in d' {
      OutputOf(t, r, o);
      ChildIsNode(t, o);
    }
  }

  /** What the file system says about a path. */
  datatype Stat = Missing | Found(mtime: int, data: string)

  datatype ChangeResult = TargetNotFound | Ignored | Marked

  /** A build that was not refused ends with a result, after the actions in its log. */
  datatype StartBuildResult = InvalidBuild | Completed(result: BuildResult, log: seq<Action>)

  /** A request for a build says what is wanted; what the cache holds and what the environment does
      comes with it. */
  datatype Request = Request(targets: set<Vertex>, numThreads: nat, lazyFetch: bool, cached: Vertex -> bool,
      env: Environment)

  datatype Event = FileChanged(target: Vertex, stat: Stat) | BuildRequested(request: Request)

  datatype Outcome = Changed(change: ChangeResult) | Finished(build: StartBuildResult)

  /** The fields that the daemon's steps change. */
  datatype Snapshot = Snapshot(topo: Topology, dirty: set<Vertex>, lazy: set<Vertex>, numReady: map<Vertex, nat>,
                               stamp: map<Vertex, int>, missing: set<Vertex>, content: Hashes, hash: Hashes,
                               hashDep: Hashes)

  /** The file of a generated node is not newer than its rule, or than the lazy fetch of the node. */
  predicate IsRecent(a: Snapshot, n: Vertex, stat: Stat)
    requires n in a.topo.child && a.topo.child[n] in a.stamp && n in a.stamp
  {
    && !IsPhony(a.topo, a.topo.child[n]) && stat.Found?
    && (a.stamp[a.topo.child[n]] >= stat.mtime || (n in a.lazy && a.stamp[n] >= stat.mtime))
  }

  /** What setDirty answers. */
  ghost predicate Answers(a: Snapshot, b: Snapshot, n: Vertex, stat: Stat, res: ChangeResult)
    requires n in a.topo.child ==> a.topo.child[n] in a.stamp && n in a.stamp
  {
    if n !in a.topo.nodes then res == TargetNotFound
    else if n !in a.topo.child then
      n in a.hash && n in b.hash && res == if a.hash[n] != b.hash[n] then Marked else Ignored
    else res == if IsRecent(a, n, stat) then Ignored else Marked
  }

  /** What a marked node adds to the dirty set. */
  ghost function MarkedBy(t: Topology, n: Vertex): set<Vertex> {
    Above(t, n) + if n in t.child && !IsPhony(t, t.child[n]) then {t.child[n]} else {}
  }

  /** The source files known to be missing after a report about `n`. */
  function MissingAfter(t: Topology, explicit: set<Vertex>, missing: set<Vertex>, n: Vertex, stat: Stat): set<Vertex> {
    if n !in t.nodes || n in t.child then missing
    else if stat.Found? then missing - {n}
    else if n in explicit then missing + {n}
    else missing
  }

  /** A step of setDirty. */
  ghost predicate ChangeStep(explicit: set<Vertex>, a: Snapshot, b: Snapshot, n: Vertex, stat: Stat,
                             res: ChangeResult) {
    && b.topo == a.topo && b.stamp == a.stamp && b.missing == MissingAfter(a.topo, explicit, a.missing, n, stat)
    && (n in a.topo.child ==> a.topo.child[n] in a.stamp && n in a.stamp) && Answers(a, b, n, stat, res)
    && (if n in a.topo.nodes && n !in a.topo.child
        then b.content == a.content[n := if stat.Found? then stat.data else ""]
        else b.content == a.content && b.hash == a.hash && b.hashDep == a.hashDep)
    && b.dirty == a.dirty + (if res == Marked then MarkedBy(a.topo, n) else {})
    && b.lazy == a.lazy - (if res == Marked then Above(a.topo, n) else {})
  }

  ghost function Wanted(t: Topology, targets: set<Vertex>): set<Vertex> {
    if targets == {} then t.roots else targets
  }

  /** What a request takes from the cache before the build. */
  ghost function FetchedBy(t: Topology, d: set<Vertex>, q: Request): set<Vertex> {
    if q.lazyFetch then FetchSet(t, d, q.cached, Wanted(t, q.targets)) else {}
  }

  /** The timestamps after the nodes `fetched` have been taken from the cache. */
  function FetchStamps(stamp: map<Vertex, int>, fetched: set<Vertex>, clock: Vertex -> int): map<Vertex, int> {
    map v | v in stamp :: if v in fetched then clock(v) else stamp[v]
  }

  /** The rules that the build then has to run. */
  ghost function PlannedBy(t: Topology, d: set<Vertex>, q: Request): set<Vertex> {
    Needed(t, d - FetchedBy(t, d, q), Wanted(t, q.targets))
  }

  /** A step of startBuild, up to the completion of the build. */
  ghost predicate BuildStep(a: Snapshot, b: Snapshot, q: Request, res: StartBuildResult) {
    && b.missing == a.missing
    && (res == InvalidBuild <==> Refuses(a, q))
    && (res == InvalidBuild ==> b == a)
    && (res.Completed? ==> Completes(a, b, q, res.result, res.log))
  }

  /** A request is refused while sources are missing, and for unknown targets. */
  predicate Refuses(a: Snapshot, q: Request) { a.missing != {} || !(q.targets <= a.topo.nodes) }

  ghost predicate Completes(a: Snapshot, b: Snapshot, q: Request, result: BuildResult, log: seq<Action>) {
    var t, planned, fetched := a.topo, PlannedBy(a.topo, a.dirty, q), FetchedBy(a.topo, a.dirty, q);
    && result == Verdict(log) && Faithful(t, q.env, log) && Orderly(t, q.env, planned, q.numThreads, log)
    && BuiltRules(log) <= planned && RunningRules(log) == {}
    && b.topo == Reloaded(t, q.env, log) && b.content == ReadBy(t, q.env, log, a.content)
    && b.stamp == Stamped(t, q.env, log, FetchStamps(a.stamp, fetched, q.env.clock))
    && b.dirty == Left(t, q.env, log, a.dirty - fetched) && b.lazy == Left(t, q.env, log, a.lazy + fetched)
    && (NoFailure(log) && !Stopped(q.env.stop, log) ==> BuiltRules(log) == planned)
  }

  /** What a request asks of the graph: after the lazy fetch the outputs of each rule are alike, and
      depfiles list nothing that the code cannot deal with. */
  ghost predicate Supported(a: Snapshot, q: Request) {
    && q.numThreads >= 1
    && (!Refuses(a, q) ==>
          var d := a.dirty - FetchedBy(a.topo, a.dirty, q);
          UniformOutputs(a.topo, d) && DepfilesFit(a.topo, d, q.env, PlannedBy(a.topo, a.dirty, q)))
  }

  /** Marking `n` as the daemon does would leave the graph consistent. */
  ghost predicate SafeToMark(t: Topology, d: set<Vertex>, n: Vertex) {
    n in t.child ==>
      if IsPhony(t, t.child[n]) then t.child[n] in d
      else n in d || (t.child[n] in t.outputs && |t.outputs[t.child[n]]| == 1)
  }

  class DaemonInstance {
    const graph: Graph
    const hashes: GraphHash
    /** The nodes named in the graph file, as opposed to discovered in depfiles. */
    const explicit: set<Vertex>
    var sourcesMissing: set<Vertex>

    constructor (g: Graph, h: GraphHash, e: set<Vertex>)
      ensures graph == g && hashes == h && explicit == e && sourcesMissing == {}
    {
      graph, hashes, explicit, sourcesMissing := g, h, e, {};
    }

    ghost predicate Valid()
      reads this, graph, hashes
    {
      && Invariant(graph) && HashesHold(hashes, graph.topo)
      && ImplicitRoots(graph.topo) && Droppable(graph.topo, graph.dirty)
    }

    ghost function Now(): Snapshot
      reads this, graph, hashes
    {
      Snapshot(graph.topo, graph.dirty, graph.lazy, graph.numReady, graph.stamp, sourcesMissing, hashes.content,
               hashes.hash, hashes.hashDep)
    }

    /** Node::markDirty called on an exact graph. */
    method MarkDirty(n: Vertex)
      requires Invariant(graph) && n in graph.topo.nodes
      modifies graph`dirty, graph`lazy, graph`numReady, graph`blocked
      ensures graph.Counted() && graph.Exact()
      ensures graph.dirty == old(graph.dirty) + Above(graph.topo, n)
              && graph.lazy == old(graph.lazy) - Above(graph.topo, n)
    {
      hide WellFormed, Acyclic, RuleOfDirtyNode, OutputsOfDirtyRule, DirtyGeneratedInput, DirtySource,
           UniformOutputs, Graph.Counted, Above, Waits, AgreesOn;
      ghost var rank := SomeRank(graph.topo);
      AgreesEverywhere(graph.topo, graph.dirty, Above(graph.topo, n));
      InsideGraph(graph.topo, graph.dirty, graph.lazy);
      graph.MarkNodeDirty(n, rank);
      WaitsUnion(graph.topo, old(graph.dirty), Above(graph.topo, n));
    }

    /** DaemonInstance::setDirty for a target other than the graph file.  Counters stay exact and
        hashes stay equal to the bottom-up ones whatever happens; the consistency of the states
        survives exactly when the marked node was safe to mark. */
    method SetDirty(n: Vertex, stat: Stat) returns (res: ChangeResult)
      requires Valid()
      modifies this`sourcesMissing, graph`dirty, graph`lazy, graph`numReady, graph`blocked,
               hashes`content, hashes`hash, hashes`hashDep
      ensures graph.Counted() && graph.Exact() && HashesHold(hashes, graph.topo)
      ensures ChangeStep(explicit, old(Now()), Now(), n, stat, res)
      ensures Valid() <==> (res == Marked ==> SafeToMark(graph.topo, old(graph.dirty), n))
    {
      hide WellFormed, Acyclic, Consistent, Graph.Counted, Graph.Exact, Above, HashesHold, SafeToMark, Invariant,
           ImplicitRoots, Droppable;
      InvariantParts(graph);
      if n !in graph.topo.nodes {
        OnlyNodes(graph, n);
        return TargetNotFound;
      }
      if n in graph.topo.child {
        res := OutputChanged(n, stat);
      } else {
        res := SourceReported(n, stat);
      }
    }

    /** A report about a generated node: it is marked unless its rule, or the lazy fetch, is at least
        as recent as the file. */
    method OutputChanged(n: Vertex, stat: Stat) returns (res: ChangeResult)
      requires Valid() && n in graph.topo.nodes && n in graph.topo.child
      modifies this`sourcesMissing, graph`dirty, graph`lazy, graph`numReady, graph`blocked,
               hashes`content, hashes`hash, hashes`hashDep
      ensures graph.Counted() && graph.Exact() && HashesHold(hashes, graph.topo)
      ensures ChangeStep(explicit, old(Now()), Now(), n, stat, res)
      ensures Valid() <==> (res == Marked ==> SafeToMark(graph.topo, old(graph.dirty), n))
    {
      hide WellFormed, Acyclic, Consistent, Graph.Counted, Graph.Exact, Above, HashesHold, SafeToMark,
           Invariant, MarkedBy, ImplicitRoots, Droppable;
      InvariantParts(graph);
      StampKnown(graph, n);
      if !IsPhony(graph.topo, graph.topo.child[n]) && stat.Found? {
        if graph.stamp[graph.topo.child[n]] >= stat.mtime || (n in graph.lazy && graph.stamp[n] >= stat.mtime) {
          return Ignored;
        }
      }
      DroppableMarked(graph.topo, RankFor(graph), graph.dirty, n);
      MarkNode(n);
      return Marked;
    }

    /** A report about a source file: it is marked if its hash changed. */
    method SourceReported(n: Vertex, stat: Stat) returns (res: ChangeResult)
      requires Valid() && n in graph.topo.nodes && n !in graph.topo.child
      modifies this`sourcesMissing, graph`dirty, graph`lazy, graph`numReady, graph`blocked,
               hashes`content, hashes`hash, hashes`hashDep
      ensures graph.Counted() && graph.Exact() && HashesHold(hashes, graph.topo)
      ensures ChangeStep(explicit, old(Now()), Now(), n, stat, res)
      ensures Valid() <==> (res == Marked ==> SafeToMark(graph.topo, old(graph.dirty), n))
    {
      hide WellFormed, Acyclic, Consistent, Graph.Counted, Graph.Exact, Above, Complete, HoldOutside, Scratch,
           MarkedBy, SafeToMark, Invariant, ChangeStep, ImplicitRoots, Droppable;
      InvariantParts(graph);
      if stat.Found? {
        sourcesMissing := sourcesMissing - {n};
      } else if n in explicit {
        sourcesMissing := sourcesMissing + {n};
      }
      HashKnown(hashes, n);
      var changed := SourceChanged(hashes, n, if stat.Found? then stat.data else "", RankFor(graph));
      HashKnown(hashes, n);
      if changed {
        DroppableMarked(graph.topo, RankFor(graph), graph.dirty, n);
        MarkNode(n);
      }
      res := if changed then Marked else Ignored;
      SourceStep(explicit, old(Now()), Now(), n, stat, res);
    }

    /** Node::markDirty, and for an output that is not phony its rule as well. */
    method MarkNode(n: Vertex)
      requires Invariant(graph) && n in graph.topo.nodes
      modifies graph`dirty, graph`lazy, graph`numReady, graph`blocked
      ensures graph.Counted() && graph.Exact()
      ensures graph.dirty == old(graph.dirty) + MarkedBy(graph.topo, n)
              && graph.lazy == old(graph.lazy) - Above(graph.topo, n)
      ensures Invariant(graph) <==> SafeToMark(graph.topo, old(graph.dirty), n)
    {
      hide WellFormed, Acyclic, Consistent, Graph.Counted, Graph.Exact, Above, SafeToMark;
      MarkedConsistent(graph.topo, SomeRank(graph.topo), graph.dirty, graph.lazy, n);
      if n in graph.topo.child {
        StampKnown(graph, n);
      }
      MarkDirty(n);
      if n in graph.topo.child && !IsPhony(graph.topo, graph.topo.child[n]) {
        MarkChild(graph.topo.child[n]);
      }
      assert graph.dirty == old(graph.dirty) + MarkedBy(graph.topo, n);
    }

    /** DaemonInstance::startBuild, up to the completion of the build it starts.  An undisturbed build
        succeeds and makes every requested target up to date, and the whole graph if all roots were
        requested and nothing is lazily fetched. */
    method StartBuild(q: Request) returns (res: StartBuildResult)
      requires Valid() && Supported(Now(), q)
      modifies graph, hashes
      ensures Valid() && BuildStep(old(Now()), Now(), q, res)
      ensures res.Completed? && Undisturbed(old(graph.topo), q.env, PlannedBy(old(graph.topo), old(graph.dirty), q)) ==>
                Fulfilled(old(Now()), Now(), q, res.result)
    {
      hide *;
      ghost var a := Now();
      NowIs(this);
      SupportedParts(this, q);
      if sourcesMissing != {} {
        return InvalidBuild;
      }
      if !(q.targets <= graph.topo.nodes) {
        return InvalidBuild;
      }
      ValidParts(this);
      var wanted := if q.targets == {} then graph.topo.roots else q.targets;
      if q.lazyFetch {
        FetchFirst(q.cached, q.env.clock, wanted);
      }
      AfterFetch(this, a, q);
      assert graph.lazy == a.lazy + FetchedBy(a.topo, a.dirty, q);
      assert graph.stamp == FetchStamps(a.stamp, FetchedBy(a.topo, a.dirty, q), q.env.clock) by {
        NothingStamped(a.stamp, q.env.clock);
      }
      var plan := new BuildPlan(graph, wanted);
      var builder := new GraphParallelBuilder(graph, plan, hashes, q.numThreads, q.env);
      PlanCanRun(builder, wanted);
      builder.BuildThread();
      ValidParts(this);
      NowIs(this);
      BuildCompletes(this, a, q, builder.result, builder.log);
      return Completed(builder.result, builder.log);
    }

    /** The lazy fetch before a build. */
    method FetchFirst(cached: Vertex -> bool, clock: Vertex -> int, wanted: set<Vertex>)
      requires Invariant(graph) && wanted <= graph.topo.nodes
      requires UniformOutputs(graph.topo, graph.dirty - FetchSet(graph.topo, graph.dirty, cached, wanted))
      modifies graph`dirty, graph`lazy, graph`numReady, graph`blocked, graph`stamp
      ensures Invariant(graph)
      ensures graph.dirty == old(graph.dirty) - FetchSet(graph.topo, old(graph.dirty), cached, wanted)
      ensures graph.lazy == old(graph.lazy) + FetchSet(graph.topo, old(graph.dirty), cached, wanted)
      ensures graph.stamp
              == FetchStamps(old(graph.stamp), FetchSet(graph.topo, old(graph.dirty), cached, wanted), clock)
    {
      hide *;
      InvariantIff(graph);
      var cache := new LazyCache(graph, cached, clock);
      cache.Fetch(wanted);
      InvariantIff(graph);
      FetchStampsAre(old(graph.stamp), graph.stamp, Range(cache.restored), clock);
    }

    method MarkChild(c: Vertex)
      requires graph.Counted() && graph.Exact() && c !in graph.topo.child
      modifies graph`dirty
      ensures graph.Counted() && graph.Exact() && graph.dirty == old(graph.dirty) + {c}
    {
      hide Graph.Counted;
      graph.SetRuleState(c, true);
      WaitsUnion(graph.topo, old(graph.dirty), {c});
      assert Waits(graph.topo, {c}) == {};
    }
  }

  /** The requested targets are up to date, and after a build of everything only source files that no
      rule consumes are left dirty. */
  ghost predicate Fulfilled(a: Snapshot, b: Snapshot, q: Request, result: BuildResult) {
    && result == SUCCEEDED
    && (forall n :: n in Wanted(a.topo, q.targets) && n in a.topo.child ==> n !in b.dirty)
    && (q.targets == {} && !q.lazyFetch && a.lazy == {} ==> forall v :: v in b.dirty ==> Unused(b.topo, v))
  }

  /** A build in which nothing goes wrong does what was requested. */
  lemma UndisturbedBuild(a: Snapshot, b: Snapshot, q: Request, result: BuildResult, log: seq<Action>)
    requires WellFormed(a.topo) && Acyclic(a.topo) && Consistent(a.topo, a.dirty, a.lazy) && q.targets <= a.topo.nodes
    requires WellFormed(b.topo) && Consistent(b.topo, b.dirty, b.lazy)
    requires Completes(a, b, q, result, log) && Undisturbed(a.topo, q.env, PlannedBy(a.topo, a.dirty, q))
    ensures Fulfilled(a, b, q, result)
  {
    hide WellFormed, Acyclic, Consistent, Needed, BuiltRules, Faithful, Orderly, NoFailure, Verdict, FetchSet, Unused,
         Undisturbed, RunningRules, Reloaded, Left, ReadBy;
    var t, planned := a.topo, PlannedBy(a.topo, a.dirty, q);
    UndisturbedSucceeds(t, q.env, planned, q.numThreads, log);
    var d := a.dirty - FetchedBy(t, a.dirty, q);
    PlanParts(t, a.dirty, a.lazy);
    LeftInside(t, q.env, log, d);
    SameShape(t, q.env, log);
    forall r | r in planned ensures r !in b.dirty && (r in t.outputs ==> b.dirty !! Range(t.outputs[r])) {
      LeftBuilt(t, q.env, log, d, r);
    }
    BuiltClean(t, d, Wanted(t, q.targets), b.dirty);
    if q.targets == {} && !q.lazyFetch && a.lazy == {} {
      assert d == a.dirty;
      RootsClean(t, d, b.topo, b.dirty, b.lazy);
    }
  }

  /** Marking keeps all consumers of a dirty source that some depfile listed dirty. */
  lemma DroppableMarked(t: Topology, rank: map<Vertex, nat>, d: set<Vertex>, n: Vertex)
    requires WellFormed(t) && Ranked(t, rank) && n in t.nodes && Droppable(t, d)
    ensures Droppable(t, d + MarkedBy(t, n))
  {
    hide WellFormed, Ranked, Above;
    AboveShape(t, rank, n);
    var d' := d + MarkedBy(t, n);
    forall s, q, p | s in d' && s in t.parents && IsSource(t, s) && q in t.rules && s in ImplicitInputs(t, q)
        && p in t.parents[s]
      ensures p in d'
    {
      SameKeys(t);
      if s !in d {
        if n in t.child {
          ChildIsNode(t, n);
          NodeShape(t, n);
          RuleShape(t, t.child[n]);
        }
        assert s in Above(t, n);
      }
    }
    DroppableMeans(t, d');
  }

  /** A lazy fetch takes only generated nodes from the dirty ones. */
  lemma DroppableFetched(t: Topology, d: set<Vertex>, fetched: set<Vertex>)
    requires WellFormed(t) && Droppable(t, d) && fetched <= t.child.Keys
    ensures Droppable(t, d - fetched)
  {
    hide WellFormed;
    var d' := d - fetched;
    forall s, q, p | s in d' && s in t.parents && IsSource(t, s) && q in t.rules && s in ImplicitInputs(t, q)
        && p in t.parents[s]
      ensures p in d'
    {
      SameKeys(t);
      NodeShape(t, s);
      RuleShape(t, p);
    }
    DroppableMeans(t, d');
  }

  /** What a request relies on before the lazy fetch. */
  lemma SupportedParts(daemon: DaemonInstance, q: Request)
    requires daemon.Valid() && Supported(daemon.Now(), q)
    ensures var a := daemon.Now();
            && Consistent(a.topo, a.dirty, a.lazy) && q.numThreads >= 1
            && (Refuses(a, q) <==> a.missing != {} || !(q.targets <= a.topo.nodes))
            && (Refuses(a, q) ==> BuildStep(a, a, q, InvalidBuild))
            && (!Refuses(a, q) ==>
                  && UniformOutputs(a.topo, a.dirty - FetchedBy(a.topo, a.dirty, q))
                  && FetchedBy(a.topo, a.dirty, q)
                     == (if q.lazyFetch then FetchSet(a.topo, a.dirty, q.cached, Wanted(a.topo, q.targets)) else {})
                  && Wanted(a.topo, q.targets) == (if q.targets == {} then a.topo.roots else q.targets)
                  && Wanted(a.topo, q.targets) <= a.topo.nodes)
  {
    hide Acyclic, Consistent, Graph.Counted, Graph.Exact, HashesHold, ImplicitRoots, Droppable, UniformOutputs,
         DepfilesFit, FetchSet, PlannedBy, Completes;
  }

  lemma FetchStampsAre(before: map<Vertex, int>, after: map<Vertex, int>, fetched: set<Vertex>, clock: Vertex -> int)
    requires after.Keys == before.Keys
    requires forall v :: v in after ==> after[v] == if v in fetched then clock(v) else before[v]
    ensures after == FetchStamps(before, fetched, clock)
  {
  }

  lemma NothingStamped(stamp: map<Vertex, int>, clock: Vertex -> int)
    ensures FetchStamps(stamp, {}, clock) == stamp
  {
  }

  lemma NowIs(daemon: DaemonInstance)
    ensures var a := daemon.Now();
            && a.stamp == daemon.graph.stamp
            && a.topo == daemon.graph.topo && a.dirty == daemon.graph.dirty && a.lazy == daemon.graph.lazy
            && a.missing == daemon.sourcesMissing && a.content == daemon.hashes.content
  {
  }

  lemma ValidParts(daemon: DaemonInstance)
    ensures daemon.Valid() <==> Invariant(daemon.graph) && HashesHold(daemon.hashes, daemon.graph.topo)
                                && ImplicitRoots(daemon.graph.topo) && Droppable(daemon.graph.topo, daemon.graph.dirty)
  {
    hide Invariant, HashesHold, ImplicitRoots, Droppable;
  }

  /** After the lazy fetch the plan can be made and run. */
  lemma AfterFetch(daemon: DaemonInstance, a: Snapshot, q: Request)
    requires Invariant(daemon.graph) && Supported(a, q) && !Refuses(a, q) && Droppable(a.topo, a.dirty)
    requires daemon.graph.topo == a.topo && daemon.graph.dirty == a.dirty - FetchedBy(a.topo, a.dirty, q)
    ensures WellFormed(a.topo) && Acyclic(a.topo) && daemon.graph.Counted() && daemon.graph.Exact()
    ensures daemon.graph.stamp.Keys == a.topo.nodes + a.topo.rules
    ensures forall n :: n in a.topo.child && n in daemon.graph.dirty ==> a.topo.child[n] in daemon.graph.dirty
    ensures Droppable(a.topo, daemon.graph.dirty)
    ensures Needed(a.topo, daemon.graph.dirty, Wanted(a.topo, q.targets)) == PlannedBy(a.topo, a.dirty, q)
    ensures DepfilesFit(a.topo, daemon.graph.dirty, q.env, PlannedBy(a.topo, a.dirty, q))
  {
    hide WellFormed, Acyclic, Graph.Counted, Graph.Exact, Droppable, UniformOutputs, DepfilesFit, Needed, Reaches;
    PlanParts(a.topo, daemon.graph.dirty, daemon.graph.lazy);
    DroppableFetched(a.topo, a.dirty, FetchedBy(a.topo, a.dirty, q));
  }

  /** What the build loop says is what a completed request is. */
  lemma BuildCompletes(daemon: DaemonInstance, a: Snapshot, q: Request, result: BuildResult, log: seq<Action>)
    requires daemon.Valid() && !Refuses(a, q) && daemon.sourcesMissing == a.missing
    requires WellFormed(a.topo) && Acyclic(a.topo) && Consistent(a.topo, a.dirty, a.lazy)
    requires var t, planned, fetched := a.topo, PlannedBy(a.topo, a.dirty, q), FetchedBy(a.topo, a.dirty, q);
             && result == Verdict(log) && Faithful(t, q.env, log) && Orderly(t, q.env, planned, q.numThreads, log)
             && BuiltRules(log) <= planned && RunningRules(log) == {}
             && (NoFailure(log) && !Stopped(q.env.stop, log) ==> BuiltRules(log) == planned)
             && daemon.graph.topo == Reloaded(t, q.env, log)
             && daemon.hashes.content == ReadBy(t, q.env, log, a.content)
             && daemon.graph.stamp == Stamped(t, q.env, log, FetchStamps(a.stamp, fetched, q.env.clock))
             && daemon.graph.dirty == Left(t, q.env, log, a.dirty - fetched)
             && daemon.graph.lazy == Left(t, q.env, log, a.lazy + fetched)
    ensures BuildStep(a, daemon.Now(), q, Completed(result, log))
    ensures Undisturbed(a.topo, q.env, PlannedBy(a.topo, a.dirty, q)) ==> Fulfilled(a, daemon.Now(), q, result)
  {
    hide WellFormed, Acyclic, Consistent, Graph.Counted, Graph.Exact, HashesHold, ImplicitRoots, Droppable,
         Fulfilled, Undisturbed, PlannedBy, FetchedBy, Verdict, Faithful, Orderly, BuiltRules, RunningRules, NoFailure,
         Reloaded, ReadBy, Left, Stamped, FetchStamps;
    assert Completes(a, daemon.Now(), q, result, log);
    if Undisturbed(a.topo, q.env, PlannedBy(a.topo, a.dirty, q)) {
      UndisturbedBuild(a, daemon.Now(), q, result, log);
    }
  }

  /** A report about a source file is a step of setDirty. */
  lemma SourceStep(explicit: set<Vertex>, a: Snapshot, b: Snapshot, n: Vertex, stat: Stat, res: ChangeResult)
    requires n in a.topo.nodes && n !in a.topo.child && n in a.hash && n in b.hash && b.topo == a.topo
    requires res == if a.hash[n] != b.hash[n] then Marked else Ignored
    requires b.stamp == a.stamp && b.content == a.content[n := if stat.Found? then stat.data else ""]
    requires b.missing == if stat.Found? then a.missing - {n} else if n in explicit then a.missing + {n} else a.missing
    requires b.dirty == if res == Marked then a.dirty + MarkedBy(a.topo, n) else a.dirty
    requires b.lazy == if res == Marked then a.lazy - Above(a.topo, n) else a.lazy
    ensures ChangeStep(explicit, a, b, n, stat, res)
  {
    hide MarkedBy, Above;
  }

  lemma OnlyNodes(g: Graph, n: Vertex)
    requires Invariant(g) && n !in g.topo.nodes
    ensures n !in g.topo.child
  {
    SameKeys(g.topo);
  }

  lemma InvariantParts(g: Graph)
    requires Invariant(g)
    ensures InOrder(g) && WellFormed(g.topo) && g.Counted() && g.Exact() && g.stamp.Keys == g.topo.nodes + g.topo.rules
  {
  }

  lemma HashKnown(h: GraphHash, n: Vertex)
    requires Complete(h.topo, h.hash, h.hashDep) && n in h.topo.nodes
    ensures n in h.hash
  {
  }

  lemma AgreesEverywhere(t: Topology, d: set<Vertex>, s: set<Vertex>)
    ensures AgreesOn(t, Waits(t, d), d, s)
  {
  }

  lemma StampKnown(g: Graph, n: Vertex)
    requires WellFormed(g.topo) && g.stamp.Keys == g.topo.nodes + g.topo.rules && n in g.topo.child
    ensures n in g.stamp && g.topo.child[n] in g.stamp && g.topo.child[n] !in g.topo.child
  {
    hide WellFormed;
    ChildIsNode(g.topo, n);
    NodeShape(g.topo, n);
    RuleShape(g.topo, g.topo.child[n]);
  }

  lemma MarkedConsistent(t: Topology, rank: map<Vertex, nat>, d: set<Vertex>, lazy: set<Vertex>, n: Vertex)
    requires WellFormed(t) && Ranked(t, rank) && Consistent(t, d, lazy) && n in t.nodes
    ensures Consistent(t, d + MarkedBy(t, n), lazy - Above(t, n)) <==> SafeToMark(t, d, n)
  {
    hide WellFormed, Ranked, Consistent, Above;
    assert n in t.child && !IsPhony(t, t.child[n]) ==> d + MarkedBy(t, n) == d + Above(t, n) + {t.child[n]};
    assert n !in t.child || IsPhony(t, t.child[n]) ==> MarkedBy(t, n) == Above(t, n);
    if n !in t.child {
      SourceMarked(t, rank, d, lazy, n);
    } else if IsPhony(t, t.child[n]) {
      PhonyMarked(t, rank, d, lazy, n);
    } else {
      OutputMarked(t, rank, d, lazy, n);
    }
  }

  /** A source file that no rule consumes: nothing ever rebuilds it. */
  ghost predicate Unused(t: Topology, v: Vertex) {
    v in t.parents && IsSource(t, v) && t.parents[v] == []
  }

  lemma PlanParts(t: Topology, d: set<Vertex>, lazy: set<Vertex>)
    requires WellFormed(t) && Consistent(t, d, lazy)
    ensures t.roots <= t.nodes
    ensures forall n :: n in t.child && n in d ==> t.child[n] in d
  {
  }

  /** Once every needed rule is built, every requested generated node is up to date. */
  lemma BuiltClean(t: Topology, d: set<Vertex>, targets: set<Vertex>, d': set<Vertex>)
    requires WellFormed(t) && targets <= t.nodes && d' <= d
    requires forall r :: r in Needed(t, d, targets) && r in t.outputs ==> d' !! Range(t.outputs[r])
    ensures forall n :: n in targets && n in t.child ==> n !in d'
  {
    hide WellFormed, Needed;
    forall n | n in targets && n in t.child && n in d ensures n !in d' {
      NodeShape(t, n);
      NeededProducer(t, d, n);
      NeededFrom(t, d, targets, n);
    }
  }

  /** Building all roots of a graph without lazily fetched nodes cleans everything except source files
      that no rule consumes; `u` is the graph after the build, with the depfiles it loaded. */
  lemma RootsClean(t: Topology, d: set<Vertex>, u: Topology, d': set<Vertex>, lazy': set<Vertex>)
    requires WellFormed(t) && Acyclic(t) && Consistent(t, d, {})
    requires WellFormed(u) && Consistent(u, d', lazy') && u.rules == t.rules && u.child == t.child
    requires d' <= d && forall r :: r in Needed(t, d, t.roots) ==> r !in d'
    ensures forall v :: v in d' ==> Unused(u, v)
  {
    hide WellFormed, Acyclic, Needed, OutputsOfDirtyRule, DirtyGeneratedInput, UniformOutputs;
    forall r | r in t.rules ensures r !in d' {
      if r in d {
        DirtyRuleNeeded(t, d, r);
      }
    }
    forall v | v in d' ensures Unused(u, v) {
      NodeShape(u, v);
      SameKeys(u);
    }
  }

  /** Every dirty rule is needed for some root: everything above it is dirty too. */
  lemma DirtyRuleNeeded(t: Topology, d: set<Vertex>, r: Vertex)
    requires WellFormed(t) && Acyclic(t) && Consistent(t, d, {}) && r in t.rules && r in d
    ensures r in Needed(t, d, t.roots)
  {
    hide WellFormed, Acyclic, Ranked, Consistent, Above, Reaches;
    DirtyAbove(t, d, r);
    var rank := SomeRank(t);
    var root := SomeRootAbove(t, rank, r);
    NodeShape(t, root);
    DownAgain(t, d, r, root);
    NeededWitness(t, d, root, r);
  }

  lemma NeededWitness(t: Topology, d: set<Vertex>, n: Vertex, r: Vertex)
    requires r in t.rules && n in t.roots && Reaches(NeedEdges(t, d), n, r)
    ensures r in Needed(t, d, t.roots)
  {
  }

  /** An upward path through dirty vertices is a downward path of needs. */
  lemma DownAgain(t: Topology, d: set<Vertex>, r: Vertex, w: Vertex)
    requires WellFormed(t) && r in t.rules && Above(t, r) <= d && w in Above(t, r)
    ensures Reaches(NeedEdges(t, d), w, r)
  {
    hide WellFormed, UpEdges, Reaches, NeedEdges;
    var g := NeedEdges(t, d);
    var s := set x | x in Above(t, r) && x in t.rules + t.child.Keys && Reaches(g, x, r);
    ReachesSelf(g, r);
    AboveSelf(t, r);
    forall u, v | u in s && Step(UpEdges(t), u, v) ensures v in s {
      UpStep(t, u, v);
      NeedStep(t, d, u, v);
      ReachesStepLast(UpEdges(t), r, u, v);
      assert v in Above(t, r);
      ReachesStepFirst(g, v, u, r);
    }
    ClosedContains(UpEdges(t), s, r, w);
  }

  lemma NeedStep(t: Topology, d: set<Vertex>, u: Vertex, v: Vertex)
    requires WellFormed(t) && Step(UpEdges(t), u, v) && u in t.rules + t.child.Keys && u in d
    ensures v in t.rules + t.child.Keys
    ensures v in d ==> Step(NeedEdges(t, d), v, u)
  {
    hide WellFormed, UpEdges;
    UpStep(t, u, v);
    if u in t.rules {
      RuleShape(t, u);
    } else {
      ChildIsNode(t, u);
      NodeShape(t, u);
      RuleShape(t, v);
    }
  }

  // ----- Whole runs -----

  /** A step that the code can make without breaking the graph: a report about a generated node that is
      to be marked leaves the outputs of its rule alike (see `OutputMarked` and `PhonyMarked`), and a
      build is supported. */
  ghost predicate Allowed(a: Snapshot, e: Event) {
    match e
    case FileChanged(n, stat) =>
      n in a.topo.child && a.topo.child[n] in a.stamp && n in a.stamp && !IsRecent(a, n, stat) ==>
        SafeToMark(a.topo, a.dirty, n)
    case BuildRequested(q) => Supported(a, q)
  }

  /** What the daemon keeps true between its steps. */
  ghost predicate Sane(sha: string -> string, a: Snapshot) {
    && WellFormed(a.topo) && Acyclic(a.topo) && a.stamp.Keys == a.topo.nodes + a.topo.rules
    && Consistent(a.topo, a.dirty, a.lazy) && Counts(a.topo, a.dirty, a.numReady)
    && ImplicitRoots(a.topo) && Droppable(a.topo, a.dirty)
    && Complete(a.topo, a.hash, a.hashDep) && HoldOutside(a.topo, sha, a.content, a.hash, a.hashDep, {})
  }

  /** Event `e` with outcome `o` takes the daemon from `a` to `b`. */
  ghost predicate Steps(explicit: set<Vertex>, e: Event, o: Outcome, a: Snapshot, b: Snapshot) {
    match e
    case FileChanged(n, stat) => o.Changed? && ChangeStep(explicit, a, b, n, stat, o.change)
    case BuildRequested(q) => o.Finished? && BuildStep(a, b, q, o.build)
  }

  /** The states that the daemon goes through: each is sane and follows from the one before. */
  ghost predicate IsRun(explicit: set<Vertex>, sha: string -> string, events: seq<Event>, outcomes: seq<Outcome>,
                        trace: seq<Snapshot>) {
    && |trace| == |events| + 1 == |outcomes| + 1
    && (forall k :: 0 <= k < |trace| ==> Sane(sha, trace[k]))
    && (forall k :: 0 <= k < |events| ==> Steps(explicit, events[k], outcomes[k], trace[k], trace[k + 1]))
  }

  /** Whatever happened before it, each event is allowed when it comes. */
  ghost predicate Foreseen(explicit: set<Vertex>, sha: string -> string, a: Snapshot, events: seq<Event>) {
    forall outcomes, trace ::
      |outcomes| < |events| && IsRun(explicit, sha, events[..|outcomes|], outcomes, trace) && trace[0] == a
      ==> Allowed(trace[|outcomes|], events[|outcomes|])
  }

  lemma ValidIsSane(daemon: DaemonInstance)
    requires daemon.Valid()
    ensures Sane(daemon.hashes.sha, daemon.Now())
  {
    hide WellFormed, Acyclic, Consistent, Complete, HoldOutside, Counts, ImplicitRoots, Droppable;
    CountsMeans(daemon.graph);
  }

  lemma RunGrows(explicit: set<Vertex>, sha: string -> string, events: seq<Event>, outcomes: seq<Outcome>,
                 trace: seq<Snapshot>, k: nat, o: Outcome, b: Snapshot)
    requires k < |events| && IsRun(explicit, sha, events[..k], outcomes, trace)
    requires Sane(sha, b) && Steps(explicit, events[k], o, trace[k], b)
    ensures IsRun(explicit, sha, events[..k + 1], outcomes + [o], trace + [b])
  {
    hide Sane, Steps;
    assert events[..k + 1] == events[..k] + [events[k]];
  }

  lemma IsForeseen(explicit: set<Vertex>, sha: string -> string, events: seq<Event>, outcomes: seq<Outcome>,
                   trace: seq<Snapshot>, k: nat)
    requires k < |events| && IsRun(explicit, sha, events[..k], outcomes, trace)
    requires Foreseen(explicit, sha, trace[0], events)
    ensures Allowed(trace[k], events[k])
  {
    hide Allowed, Sane, Steps;
    assert |outcomes| == k;
  }

  /** What an allowed report marks was safe to mark. */
  lemma AllowedIsSafe(explicit: set<Vertex>, a: Snapshot, b: Snapshot, n: Vertex, stat: Stat, res: ChangeResult)
    requires Allowed(a, FileChanged(n, stat)) && ChangeStep(explicit, a, b, n, stat, res)
    ensures res == Marked ==> SafeToMark(a.topo, a.dirty, n)
  {
    hide Above, MarkedBy;
  }

  /** Every run of the daemon, whatever files change, whichever commands fail, whatever depfiles are
      loaded and whenever it is interrupted: every event is performed, each state follows from the one
      before as setDirty and startBuild say, and in each the graph is well formed and acyclic, the states
      are consistent, the counters right and the hashes equal to hashing from scratch. */
  method Run(daemon: DaemonInstance, events: seq<Event>) returns (outcomes: seq<Outcome>, ghost trace: seq<Snapshot>)
    requires daemon.Valid()
    requires Foreseen(daemon.explicit, daemon.hashes.sha, daemon.Now(), events)
    modifies daemon, daemon.graph, daemon.hashes
    ensures daemon.Valid() && IsRun(daemon.explicit, daemon.hashes.sha, events, outcomes, trace)
    ensures trace[0] == old(daemon.Now()) && trace[|events|] == daemon.Now()
  {
    hide *;
    outcomes, trace := [], [daemon.Now()];
    ValidIsSane(daemon);
    RunBegins(daemon.explicit, daemon.hashes.sha, events, daemon.Now());
    for k := 0 to |events|
      invariant daemon.Valid()
      invariant IsRun(daemon.explicit, daemon.hashes.sha, events[..k], outcomes, trace)
      invariant |trace| == k + 1 && trace[0] == old(daemon.Now()) && trace[k] == daemon.Now()
    {
      IsForeseen(daemon.explicit, daemon.hashes.sha, events, outcomes, trace, k);
      var outcome := Perform(daemon, events[k]);
      RunGrows(daemon.explicit, daemon.hashes.sha, events, outcomes, trace, k, outcome, daemon.Now());
      outcomes, trace := outcomes + [outcome], trace + [daemon.Now()];
    }
    assert events[..|events|] == events;
  }

  lemma AllowedParts(a: Snapshot, e: Event)
    ensures e.BuildRequested? ==> (Allowed(a, e) <==> Supported(a, e.request))
  {
  }

  lemma RunBegins(explicit: set<Vertex>, sha: string -> string, events: seq<Event>, a: Snapshot)
    requires Sane(sha, a)
    ensures IsRun(explicit, sha, events[..0], [], [a])
  {
    hide Sane;
  }

  method Perform(daemon: DaemonInstance, e: Event) returns (o: Outcome)
    requires daemon.Valid() && Allowed(daemon.Now(), e)
    modifies daemon, daemon.graph, daemon.hashes
    ensures daemon.Valid() && Steps(daemon.explicit, e, o, old(daemon.Now()), daemon.Now())
    ensures Sane(daemon.hashes.sha, daemon.Now())
  {
    hide SafeToMark, ChangeStep, BuildStep, Sane, Fulfilled, Undisturbed, DaemonInstance.Valid, DaemonInstance.Now,
         Supported, PlannedBy, IsRecent, Invariant, HashesHold, Allowed;
    AllowedParts(daemon.Now(), e);
    ghost var a := daemon.Now();
    NowIs(daemon);
    match e {
      case FileChanged(n, stat) =>
        var res := daemon.SetDirty(n, stat);
        AllowedIsSafe(daemon.explicit, a, daemon.Now(), n, stat, res);
        o := Changed(res);
      case BuildRequested(q) =>
        var res := daemon.StartBuild(q);
        o := Finished(res);
    }
    ValidIsSane(daemon);
  }

  /** An event of the simple kind: no report about a phony target or about one of several outputs, lazy
      fetching only where every rule has one output, and no depfiles. */
  ghost predicate Plain(t: Topology, e: Event) {
    match e
    case FileChanged(n, _) =>
      n in t.child ==> !IsPhony(t, t.child[n]) && t.child[n] in t.outputs && |t.outputs[t.child[n]]| == 1
    case BuildRequested(q) =>
      q.numThreads >= 1 && (q.lazyFetch ==> SingleOutputs(t)) && forall r :: q.env.depfile(r).NoDepfile?
  }

  /** Plain events are always allowed. */
  lemma {:induction false} PlainForeseen(explicit: set<Vertex>, sha: string -> string, a: Snapshot, events: seq<Event>)
    requires forall e :: e in events ==> Plain(a.topo, e)
    ensures Foreseen(explicit, sha, a, events)
  {
    hide Sane, Steps, Allowed, Plain;
    forall outcomes, trace | |outcomes| < |events| && IsRun(explicit, sha, events[..|outcomes|], outcomes, trace)
                             && trace[0] == a
      ensures Allowed(trace[|outcomes|], events[|outcomes|])
    {
      var k := |outcomes|;
      PlainKeepsTopology(explicit, sha, events[..k], outcomes, trace, k);
      PlainAllowed(sha, trace[k], events[k]);
    }
  }

  lemma {:induction false} PlainKeepsTopology(explicit: set<Vertex>, sha: string -> string, events: seq<Event>,
                                              outcomes: seq<Outcome>, trace: seq<Snapshot>, k: nat)
    requires IsRun(explicit, sha, events, outcomes, trace) && k <= |events|
    requires forall e :: e in events ==> Plain(trace[0].topo, e)
    ensures trace[k].topo == trace[0].topo
  {
    hide Sane, MarkedBy, Above, Answers, MissingAfter, Faithful, Orderly, Reloaded, Left, ReadBy, FetchedBy, PlannedBy;
    if k > 0 {
      PlainKeepsTopology(explicit, sha, events, outcomes, trace, k - 1);
      var e, o := events[k - 1], outcomes[k - 1];
      assert Steps(explicit, e, o, trace[k - 1], trace[k]) && Plain(trace[0].topo, e);
      if e.BuildRequested? && o.build.Completed? {
        NotReloaded(trace[k - 1].topo, e.request.env, o.build.log);
      }
    }
  }

  lemma PlainAllowed(sha: string -> string, a: Snapshot, e: Event)
    requires Sane(sha, a) && Plain(a.topo, e)
    ensures Allowed(a, e)
  {
    hide WellFormed, Acyclic, Counts, Complete, HoldOutside, ImplicitRoots, Droppable, FetchSet, PlannedBy;
    if e.BuildRequested? {
      var q := e.request;
      assert !UsesDepfiles(q.env, PlannedBy(a.topo, a.dirty, q));
      if q.lazyFetch {
        SingleUniform(a.topo, a.dirty - FetchedBy(a.topo, a.dirty, q));
      } else {
        assert a.dirty - FetchedBy(a.topo, a.dirty, q) == a.dirty;
      }
    }
  }

  lemma SingleUniform(t: Topology, d: set<Vertex>)
    requires SingleOutputs(t)
    ensures UniformOutputs(t, d)
  {
  }

  ghost predicate NeverLazy(events: seq<Event>) {
    forall e :: e in events && e.BuildRequested? ==> !e.request.lazyFetch
  }

  /** Without lazy fetching no state of a run has lazily fetched nodes, and a generated node is dirty
      in it exactly when its rule is. */
  lemma {:induction false} NeverLazyRun(explicit: set<Vertex>, sha: string -> string, events: seq<Event>,
                                        outcomes: seq<Outcome>, trace: seq<Snapshot>, k: nat)
    requires IsRun(explicit, sha, events, outcomes, trace) && trace[0].lazy == {} && NeverLazy(events)
    requires k <= |events|
    ensures trace[k].lazy == {}
    ensures forall n :: n in trace[k].topo.child ==>
              (n in trace[k].dirty <==> trace[k].topo.child[n] in trace[k].dirty)
  {
    hide WellFormed, BuiltRules, Faithful, Orderly, NoFailure, Verdict, Above, Needed, Checked, Answers, MarkedBy,
         Left, Reloaded, ReadBy, RunningRules;
    if k > 0 {
      NeverLazyRun(explicit, sha, events, outcomes, trace, k - 1);
      var e, o := events[k - 1], outcomes[k - 1];
      assert e in events && Steps(explicit, e, o, trace[k - 1], trace[k]);
      if e.BuildRequested? && o.build.Completed? {
        LeftInside(trace[k - 1].topo, e.request.env, o.build.log, {} + {});
      }
    }
    assert Sane(sha, trace[k]) && trace[k].lazy == {};
    assert Checked(trace[k].topo, trace[k].dirty, {});
    forall n | n in trace[k].topo.child ensures n in trace[k].dirty <==> trace[k].topo.child[n] in trace[k].dirty {
      DirtyIffRule(trace[k].topo, trace[k].dirty, n);
    }
  }

  // ----- What a run means for files and builds -----

  /** Rules, commands and generated files stay the same over a run. */
  lemma {:induction false} ShapeStays(explicit: set<Vertex>, sha: string -> string, events: seq<Event>,
                                      outcomes: seq<Outcome>, trace: seq<Snapshot>, k: nat)
    requires IsRun(explicit, sha, events, outcomes, trace) && k <= |events|
    ensures trace[k].topo.rules == trace[0].topo.rules && trace[k].topo.child == trace[0].topo.child
    ensures trace[k].topo.command == trace[0].topo.command && trace[k].topo.outputs == trace[0].topo.outputs
  {
    hide Sane, MarkedBy, Above, Answers, MissingAfter, Faithful, Orderly, Reloaded, Left, ReadBy, FetchedBy, PlannedBy,
         Stamped, FetchStamps, RunningRules, BuiltRules, NoFailure, Verdict;
    if k > 0 {
      ShapeStays(explicit, sha, events, outcomes, trace, k - 1);
      var e, o := events[k - 1], outcomes[k - 1];
      assert Steps(explicit, e, o, trace[k - 1], trace[k]);
      if e.BuildRequested? && o.build.Completed? {
        SameShape(trace[k - 1].topo, e.request.env, o.build.log);
      }
    }
  }

  /** In this step `v` was noted to be new: a rule was collected or restored, or a node was fetched. */
  ghost predicate Touched(a: Snapshot, e: Event, o: Outcome, v: Vertex) {
    && e.BuildRequested? && o.Finished? && o.build.Completed?
    && if v in a.topo.rules then Noted(a.topo, e.request.env, o.build.log, v)
       else v in FetchedBy(a.topo, a.dirty, e.request)
  }

  /** When `v` was last noted to be new before event `k`. */
  ghost function LastTime(events: seq<Event>, outcomes: seq<Outcome>, trace: seq<Snapshot>, k: nat, v: Vertex): int
    requires k <= |events| == |outcomes| && |trace| == |events| + 1 && v in trace[0].stamp
  {
    if k == 0 then trace[0].stamp[v]
    else if Touched(trace[k - 1], events[k - 1], outcomes[k - 1], v) then events[k - 1].request.env.clock(v)
    else LastTime(events, outcomes, trace, k - 1, v)
  }

  /** The timestamp of a rule or a generated file is the time at which it was last noted to be new. */
  lemma {:induction false} StampIsLastTime(explicit: set<Vertex>, sha: string -> string, events: seq<Event>,
                                           outcomes: seq<Outcome>, trace: seq<Snapshot>, k: nat, v: Vertex)
    requires IsRun(explicit, sha, events, outcomes, trace) && k <= |events|
    requires v in trace[0].topo.rules || v in trace[0].topo.child
    ensures |trace| == |events| + 1 == |outcomes| + 1 && v in trace[0].stamp && v in trace[k].stamp
    ensures trace[k].stamp[v] == LastTime(events, outcomes, trace, k, v)
  {
    hide *;
    RunAt(explicit, sha, events, outcomes, trace, 0);
    KnownStamps(sha, trace[0]);
    LastTimeIs(events, outcomes, trace, k, v);
    if k > 0 {
      StampIsLastTime(explicit, sha, events, outcomes, trace, k - 1, v);
      ShapeStays(explicit, sha, events, outcomes, trace, k - 1);
      RunAt(explicit, sha, events, outcomes, trace, k - 1);
      StampStep(explicit, sha, events[k - 1], outcomes[k - 1], trace[k - 1], trace[k], v);
    }
  }

  /** One state of a run and the step that follows it. */
  lemma RunAt(explicit: set<Vertex>, sha: string -> string, events: seq<Event>, outcomes: seq<Outcome>,
              trace: seq<Snapshot>, k: nat)
    requires IsRun(explicit, sha, events, outcomes, trace) && k <= |events|
    ensures |trace| == |events| + 1 == |outcomes| + 1 && Sane(sha, trace[k])
    ensures k < |events| ==> Sane(sha, trace[k + 1]) && Steps(explicit, events[k], outcomes[k], trace[k], trace[k + 1])
  {
    hide Sane, Steps;
  }

  lemma LastTimeIs(events: seq<Event>, outcomes: seq<Outcome>, trace: seq<Snapshot>, k: nat, v: Vertex)
    requires k <= |events| == |outcomes| && |trace| == |events| + 1 && v in trace[0].stamp
    ensures LastTime(events, outcomes, trace, k, v)
            == if k == 0 then trace[0].stamp[v]
               else if Touched(trace[k - 1], events[k - 1], outcomes[k - 1], v) then events[k - 1].request.env.clock(v)
               else LastTime(events, outcomes, trace, k - 1, v)
  {
    hide Touched;
  }

  lemma KnownStamps(sha: string -> string, a: Snapshot)
    requires Sane(sha, a)
    ensures a.stamp.Keys == a.topo.nodes + a.topo.rules && WellFormed(a.topo) && a.topo.child.Keys <= a.topo.nodes
    ensures a.topo.child.Keys !! a.topo.rules
  {
    hide Acyclic, Consistent, Counts, Complete, HoldOutside, ImplicitRoots, Droppable;
    RulesApart(a.topo);
  }

  lemma StampStep(explicit: set<Vertex>, sha: string -> string, e: Event, o: Outcome, a: Snapshot, b: Snapshot,
                  v: Vertex)
    requires Steps(explicit, e, o, a, b) && Sane(sha, a) && (v in a.topo.rules || v in a.topo.child)
    ensures v in a.stamp && v in b.stamp
    ensures b.stamp[v] == if Touched(a, e, o, v) then e.request.env.clock(v) else a.stamp[v]
  {
    hide *;
    KnownStamps(sha, a);
    StampsAfter(explicit, e, o, a, b);
    TouchedIs(a, e, o, v);
    if e.BuildRequested? && o.build.Completed? {
      var q, fetched := e.request, FetchedBy(a.topo, a.dirty, e.request);
      var stamp := FetchStamps(a.stamp, fetched, q.env.clock);
      FetchedGenerated(a.topo, a.dirty, q);
      PlannedAreRules(a.topo, a.dirty, q);
      FetchStampsMean(a.stamp, fetched, q.env.clock);
      StampsEnd(Origin(a.topo, {}, {}, map[], stamp), q.env, PlannedBy(a.topo, a.dirty, q), q.numThreads, o.build.log);
      StampsToldMean(a.topo, q.env, o.build.log, stamp, b.topo, b.stamp, v);
    }
  }

  lemma StampsAfter(explicit: set<Vertex>, e: Event, o: Outcome, a: Snapshot, b: Snapshot)
    requires Steps(explicit, e, o, a, b)
    ensures e.FileChanged? || (o.Finished? && o.build == InvalidBuild) ==> b.stamp == a.stamp
    ensures e.BuildRequested? ==> o.Finished?
    ensures e.BuildRequested? && o.build.Completed? ==>
              && b.topo == Reloaded(a.topo, e.request.env, o.build.log)
              && b.stamp == Stamped(a.topo, e.request.env, o.build.log,
                                    FetchStamps(a.stamp, FetchedBy(a.topo, a.dirty, e.request), e.request.env.clock))
              && Orderly(a.topo, e.request.env, PlannedBy(a.topo, a.dirty, e.request), e.request.numThreads,
                         o.build.log)
  {
    hide Faithful, Orderly, Reloaded, Left, ReadBy, FetchedBy, PlannedBy, Stamped, RunningRules, BuiltRules, NoFailure,
         Verdict, FetchStamps, MarkedBy, Above, Answers, MissingAfter;
  }

  lemma TouchedIs(a: Snapshot, e: Event, o: Outcome, v: Vertex)
    ensures Touched(a, e, o, v) <==>
              && e.BuildRequested? && o.Finished? && o.build.Completed?
              && if v in a.topo.rules then Noted(a.topo, e.request.env, o.build.log, v)
                 else v in FetchedBy(a.topo, a.dirty, e.request)
  {
    hide Noted, FetchedBy;
  }

  lemma FetchStampsMean(stamp: map<Vertex, int>, fetched: set<Vertex>, clock: Vertex -> int)
    ensures var s := FetchStamps(stamp, fetched, clock);
            s.Keys == stamp.Keys && forall v :: v in s ==> s[v] == if v in fetched then clock(v) else stamp[v]
  {
  }

  lemma StampsToldMean(t: Topology, env: Environment, log: seq<Action>, before: map<Vertex, int>, u: Topology,
                       after: map<Vertex, int>, v: Vertex)
    requires StampsTold(t, env, log, before, u, after)
    ensures v in t.rules ==>
              v in before && v in after && after[v] == if Noted(t, env, log, v) then env.clock(v) else before[v]
    ensures v in t.child ==> v in before && v in after && after[v] == before[v]
  {
    hide Noted;
  }

  lemma FetchedGenerated(t: Topology, d: set<Vertex>, q: Request)
    ensures FetchedBy(t, d, q) <= t.child.Keys
  {
    hide Reaches;
  }

  lemma PlannedAreRules(t: Topology, d: set<Vertex>, q: Request)
    ensures PlannedBy(t, d, q) <= t.rules
  {
    hide Reaches;
  }

  /** A report about the daemon's own output changes nothing: the file is not newer than the last time its
      rule ran or was restored, or than the time at which it was lazily fetched. */
  lemma OwnOutputIgnored(explicit: set<Vertex>, sha: string -> string, events: seq<Event>, outcomes: seq<Outcome>,
                         trace: seq<Snapshot>, k: nat, n: Vertex, mtime: int, data: string)
    requires IsRun(explicit, sha, events, outcomes, trace) && k < |events|
    requires events[k] == FileChanged(n, Found(mtime, data)) && n in trace[0].topo.child
    requires trace[0].topo.child[n] in trace[0].topo.command && trace[0].topo.command[trace[0].topo.child[n]] != ""
    requires n in trace[0].stamp && trace[0].topo.child[n] in trace[0].stamp
    requires || mtime <= LastTime(events, outcomes, trace, k, trace[0].topo.child[n])
             || (n in trace[k].lazy && mtime <= LastTime(events, outcomes, trace, k, n))
    ensures outcomes[k] == Changed(Ignored) && trace[k + 1] == trace[k]
  {
    hide Sane, MarkedBy, Above, MissingAfter, LastTime;
    assert Sane(sha, trace[0]) && Sane(sha, trace[k]) && Sane(sha, trace[k + 1]);
    assert Steps(explicit, events[k], outcomes[k], trace[k], trace[k + 1]);
    var r := trace[0].topo.child[n];
    ChildKnown(sha, trace[0], n);
    ShapeStays(explicit, sha, events, outcomes, trace, k);
    ChildKnown(sha, trace[k], n);
    StampIsLastTime(explicit, sha, events, outcomes, trace, k, n);
    StampIsLastTime(explicit, sha, events, outcomes, trace, k, r);
    MissingSame(trace[k].topo, explicit, trace[k].missing, n, Found(mtime, data));
    SameCounters(sha, trace[k], trace[k + 1]);
  }

  /** A report that somebody else removed or rewrote an output makes it dirty again, with its rule and
      everything above it. */
  lemma ForeignOutputMarked(explicit: set<Vertex>, sha: string -> string, events: seq<Event>, outcomes: seq<Outcome>,
                            trace: seq<Snapshot>, k: nat, n: Vertex, stat: Stat)
    requires IsRun(explicit, sha, events, outcomes, trace) && k < |events|
    requires events[k] == FileChanged(n, stat) && n in trace[0].topo.child
    requires trace[0].topo.child[n] in trace[0].topo.command && trace[0].topo.command[trace[0].topo.child[n]] != ""
    requires n in trace[0].stamp && trace[0].topo.child[n] in trace[0].stamp
    requires stat.Found? ==> stat.mtime > LastTime(events, outcomes, trace, k, trace[0].topo.child[n])
    requires stat.Found? && n in trace[k].lazy ==> stat.mtime > LastTime(events, outcomes, trace, k, n)
    ensures outcomes[k] == Changed(Marked) && trace[0].topo.child[n] in trace[k + 1].dirty
    ensures Above(trace[k].topo, n) <= trace[k + 1].dirty
  {
    hide Sane, Above, MissingAfter, LastTime;
    RunAt(explicit, sha, events, outcomes, trace, k);
    RunAt(explicit, sha, events, outcomes, trace, 0);
    var r := trace[0].topo.child[n];
    ChildKnown(sha, trace[0], n);
    ShapeStays(explicit, sha, events, outcomes, trace, k);
    ChildKnown(sha, trace[k], n);
    StampIsLastTime(explicit, sha, events, outcomes, trace, k, n);
    StampIsLastTime(explicit, sha, events, outcomes, trace, k, r);
  }

  lemma ChildKnown(sha: string -> string, a: Snapshot, n: Vertex)
    requires Sane(sha, a) && n in a.topo.child
    ensures n in a.topo.nodes && a.topo.child[n] in a.topo.rules
  {
    hide WellFormed, Acyclic, Consistent, Counts, Complete, HoldOutside, ImplicitRoots, Droppable;
    ChildIsNode(a.topo, n);
    NodeShape(a.topo, n);
  }

  lemma MissingSame(t: Topology, explicit: set<Vertex>, missing: set<Vertex>, n: Vertex, stat: Stat)
    requires n in t.child
    ensures MissingAfter(t, explicit, missing, n, stat) == missing
  {
  }

  /** The counters follow from the states. */
  lemma SameCounters(sha: string -> string, a: Snapshot, b: Snapshot)
    requires Sane(sha, a) && Sane(sha, b) && a.topo == b.topo && a.dirty == b.dirty
    ensures a.numReady == b.numReady
  {
    hide WellFormed, Acyclic, Consistent, Complete, HoldOutside, ImplicitRoots, Droppable, ReadyInputs;
  }

  /** Event `k` reports about `n` while it is a source. */
  ghost predicate ReportsSource(a: Snapshot, e: Event, n: Vertex) {
    e.FileChanged? && e.target == n && n in a.topo.nodes && n !in a.topo.child
  }

  /** The missing files are exactly the sources of the graph file whose last report said so: a build is
      refused until each of them has been seen again. */
  lemma {:induction false} MissingIs(explicit: set<Vertex>, sha: string -> string, events: seq<Event>,
                                     outcomes: seq<Outcome>, trace: seq<Snapshot>, k: nat, n: Vertex)
    requires IsRun(explicit, sha, events, outcomes, trace) && k <= |events| && trace[0].missing == {}
    ensures n in trace[k].missing <==>
              && n in explicit
              && exists j :: && 0 <= j < k && ReportsSource(trace[j], events[j], n) && events[j].stat.Missing?
                             && forall i :: j < i < k && ReportsSource(trace[i], events[i], n) ==>
                                              events[i].stat.Missing?
  {
    hide Sane, MarkedBy, Above, Answers, Faithful, Orderly, Reloaded, Left, ReadBy, FetchedBy, PlannedBy,
         Stamped, FetchStamps, RunningRules, BuiltRules, NoFailure, Verdict;
    if k > 0 {
      MissingIs(explicit, sha, events, outcomes, trace, k - 1, n);
      var e, o := events[k - 1], outcomes[k - 1];
      assert Steps(explicit, e, o, trace[k - 1], trace[k]);
      if ReportsSource(trace[k - 1], e, n) {
        if e.stat.Missing? {
          assert ReportsSource(trace[k - 1], events[k - 1], n) && events[k - 1].stat.Missing?;
        }
      } else if n in trace[k - 1].missing {
        var j :| 0 <= j < k - 1 && ReportsSource(trace[j], events[j], n) && events[j].stat.Missing?
                 && forall i :: j < i < k - 1 && ReportsSource(trace[i], events[i], n) ==> events[i].stat.Missing?;
        assert forall i :: j < i < k && ReportsSource(trace[i], events[i], n) ==> events[i].stat.Missing?;
      }
    }
  }

  /** A step that changes the hash of a rule leaves the rule dirty, and a dirty rule stays dirty unless it
      is built. */
  lemma HashStep(explicit: set<Vertex>, sha: string -> string, e: Event, o: Outcome, a: Snapshot, b: Snapshot,
                 r: Vertex)
    requires Steps(explicit, e, o, a, b) && Sane(sha, a) && Sane(sha, b) && r in a.topo.rules && Plain(a.topo, e)
    ensures r in a.hash && r in b.hash && (a.hash[r] != b.hash[r] ==> r in b.dirty)
    ensures r in a.dirty && r !in b.dirty ==> e.BuildRequested? && o.build.Completed? && r in BuiltRules(o.build.log)
  {
    hide *;
    SaneParts(sha, a);
    SaneParts(sha, b);
    var rank := SomeRank(a.topo);
    match e
    case FileChanged(n, stat) =>
      ChangeParts(explicit, e, o, a, b);
      ChangeHash(explicit, sha, a, b, n, stat, o.change, rank, r);
    case BuildRequested(q) =>
      BuildParts(explicit, e, o, a, b);
      if o.build.Completed? {
        NotReloaded(a.topo, q.env, o.build.log);
        ContentKept(a.topo, q.env, o.build.log, a.content);
        SameHash(a.topo, sha, a.content, a.hash, a.hashDep, b.hash, b.hashDep, rank, r);
        if r in a.dirty {
          DirtyUnlessBuilt(sha, a, q, o.build.log, r);
        }
      }
  }

  lemma ChangeParts(explicit: set<Vertex>, e: Event, o: Outcome, a: Snapshot, b: Snapshot)
    requires Steps(explicit, e, o, a, b) && e.FileChanged?
    ensures o.Changed? && ChangeStep(explicit, a, b, e.target, e.stat, o.change)
    ensures b.topo == a.topo && b.dirty >= a.dirty
  {
    hide Above, MarkedBy, Answers, MissingAfter;
  }

  lemma BuildParts(explicit: set<Vertex>, e: Event, o: Outcome, a: Snapshot, b: Snapshot)
    requires Steps(explicit, e, o, a, b) && e.BuildRequested? && Plain(a.topo, e)
    ensures o.Finished? && (forall r :: e.request.env.depfile(r).NoDepfile?)
    ensures o.build == InvalidBuild ==> b == a
    ensures o.build.Completed? ==>
              && b.topo == Reloaded(a.topo, e.request.env, o.build.log)
              && b.content == ReadBy(a.topo, e.request.env, o.build.log, a.content)
              && b.dirty == Left(a.topo, e.request.env, o.build.log, a.dirty - FetchedBy(a.topo, a.dirty, e.request))
              && Orderly(a.topo, e.request.env, PlannedBy(a.topo, a.dirty, e.request), e.request.numThreads,
                         o.build.log)
  {
    hide Faithful, Orderly, Reloaded, Left, ReadBy, FetchedBy, PlannedBy, Stamped, RunningRules, BuiltRules, NoFailure,
         Verdict;
  }

  lemma SaneParts(sha: string -> string, a: Snapshot)
    requires Sane(sha, a)
    ensures WellFormed(a.topo) && Acyclic(a.topo) && Consistent(a.topo, a.dirty, a.lazy)
    ensures a.hash.Keys == a.topo.nodes + a.topo.rules
    ensures HoldOutside(a.topo, sha, a.content, a.hash, a.hashDep, {})
  {
    hide WellFormed, Acyclic, Consistent, Counts, HoldOutside, ImplicitRoots, Droppable;
  }

  lemma ChangeHash(explicit: set<Vertex>, sha: string -> string, a: Snapshot, b: Snapshot, n: Vertex, stat: Stat,
                   res: ChangeResult, rank: map<Vertex, nat>, r: Vertex)
    requires ChangeStep(explicit, a, b, n, stat, res) && WellFormed(a.topo) && Ranked(a.topo, rank) && r in a.topo.rules
    requires HoldOutside(a.topo, sha, a.content, a.hash, a.hashDep, {})
    requires HoldOutside(b.topo, sha, b.content, b.hash, b.hashDep, {})
    requires a.hash.Keys == b.hash.Keys == a.topo.nodes + a.topo.rules
    ensures a.hash[r] != b.hash[r] ==> r in b.dirty
  {
    hide WellFormed, HoldOutside, Ranked, Above, MissingAfter;
    if n in a.topo.nodes && n !in a.topo.child {
      ChangesAbove(a.topo, sha, a.content, a.hash, a.hashDep, b.content, b.hash, b.hashDep, rank, n, r);
    }
  }

  lemma {:induction false} ContentKept(t: Topology, env: Environment, log: seq<Action>, content: Hashes)
    requires forall r :: env.depfile(r).NoDepfile?
    ensures ReadBy(t, env, log, content) == content
  {
    hide Reloaded;
    if log != [] {
      ContentKept(t, env, log[..|log| - 1], content);
      NotReloaded(t, env, log[..|log| - 1]);
      NotReloaded(t, env, log);
    }
  }

  /** Hashes that hold are determined by the graph and the contents. */
  lemma SameHash(t: Topology, sha: string -> string, content: Hashes, h1: Hashes, d1: Hashes, h2: Hashes, d2: Hashes,
                 rank: map<Vertex, nat>, v: Vertex)
    requires WellFormed(t) && Ranked(t, rank) && v in t.nodes + t.rules
    requires HoldOutside(t, sha, content, h1, d1, {}) && HoldOutside(t, sha, content, h2, d2, {})
    ensures v in h1 && v in h2 && h1[v] == h2[v]
  {
    hide WellFormed, Ranked, Scratch, Local;
    forall w | w in t.nodes + t.rules
      ensures Holds(t, sha, content, h1, d1, w) && Holds(t, sha, content, h2, d2, w)
    {
      assert w in t.nodes + t.rules - {};
    }
    AgreesWithScratch(t, sha, content, h1, rank, v, false);
    AgreesWithScratch(t, sha, content, h2, rank, v, false);
  }

  lemma DirtyUnlessBuilt(sha: string -> string, a: Snapshot, q: Request, log: seq<Action>, r: Vertex)
    requires Sane(sha, a) && r in a.topo.rules && r in a.dirty && (forall v :: q.env.depfile(v).NoDepfile?)
    requires Orderly(a.topo, q.env, PlannedBy(a.topo, a.dirty, q), q.numThreads, log)
    ensures r in Left(a.topo, q.env, log, a.dirty - FetchedBy(a.topo, a.dirty, q)) || r in BuiltRules(log)
  {
    hide Sane, FetchSet, PlannedBy, BuiltRules, Orderly;
    var d := a.dirty - FetchedBy(a.topo, a.dirty, q);
    SaneParts(sha, a);
    KnownStamps(sha, a);
    DirtyKnown(a.topo, a.dirty, a.lazy);
    FetchedGenerated(a.topo, a.dirty, q);
    LeftPlain(a.topo, q.env, log, d);
    OnlyOwnCleared(a.topo, BuiltRules(log), r);
  }

  lemma DirtyKnown(t: Topology, d: set<Vertex>, lazy: set<Vertex>)
    requires Consistent(t, d, lazy)
    ensures d <= t.nodes + t.rules
  {
  }

  lemma OnlyOwnCleared(t: Topology, built: set<Vertex>, r: Vertex)
    requires WellFormed(t) && r in t.rules
    ensures r in ClearedBy(t, built) ==> r in built
  {
    hide WellFormed;
    forall q | q in built && r in Cleared(t, q) ensures q == r {
      SameKeys(t);
      if q in t.rules {
        RuleShape(t, q);
      }
      RuleShape(t, r);
    }
  }

  /** Nothing is ever believed to be up to date that is not: over a run of plain events, a rule whose hash
      at `k` is not the one at `i`, so that something below it has changed in between, is dirty at `k`
      unless a build in between has built it. */
  lemma {:induction false} ChangedIsDirty(explicit: set<Vertex>, sha: string -> string, events: seq<Event>,
                                          outcomes: seq<Outcome>, trace: seq<Snapshot>, i: nat, k: nat, r: Vertex)
    requires IsRun(explicit, sha, events, outcomes, trace) && i <= k <= |events| && r in trace[0].topo.rules
    requires forall e :: e in events ==> Plain(trace[0].topo, e)
    requires forall j :: i <= j < k && events[j].BuildRequested?
                         && outcomes[j].Finished? && outcomes[j].build.Completed? ==>
                           r !in BuiltRules(outcomes[j].build.log)
    ensures r in trace[i].hash && r in trace[k].hash
    ensures trace[i].hash[r] != trace[k].hash[r] || r in trace[i].dirty ==> r in trace[k].dirty
  {
    hide *;
    RunAt(explicit, sha, events, outcomes, trace, i);
    PlainKeepsTopology(explicit, sha, events, outcomes, trace, i);
    SaneParts(sha, trace[i]);
    if i < k {
      ChangedIsDirty(explicit, sha, events, outcomes, trace, i, k - 1, r);
      var e, o := events[k - 1], outcomes[k - 1];
      RunAt(explicit, sha, events, outcomes, trace, k - 1);
      PlainKeepsTopology(explicit, sha, events, outcomes, trace, k - 1);
      assert e in events;
      StepKind(explicit, e, o, trace[k - 1], trace[k]);
      HashStep(explicit, sha, e, o, trace[k - 1], trace[k], r);
    }
  }

  lemma StepKind(explicit: set<Vertex>, e: Event, o: Outcome, a: Snapshot, b: Snapshot)
    requires Steps(explicit, e, o, a, b)
    ensures e.BuildRequested? ==> o.Finished?
  {
    hide ChangeStep, BuildStep;
  }
}
