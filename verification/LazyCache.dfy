/** Lazy fetching (src/lazy_cache.cpp): outputs found in the cache are restored without building
    what lies below them.  What the cache holds is arbitrary. */
module LazyFetch {
  import opened Reachability
  import opened Topology
  import opened DirtyTracking
  import opened GraphInvariant
  import opened Planning

  /** Restoring a dirty node keeps what the consistency checker asks for.  The outputs of its rule
      stay uniform, as a build needs them, exactly when the rule has no other output: otherwise a
      dirty sibling is left behind. */
  lemma FetchConsistent(t: Topology, d: set<Vertex>, lazy: set<Vertex>, n: Vertex)
    requires WellFormed(t) && Checked(t, d, lazy) && n in t.child && n in d
    ensures Checked(t, d - {n}, lazy + {n})
    ensures UniformOutputs(t, d) ==>
              (UniformOutputs(t, d - {n}) <==> t.child[n] in t.outputs && |t.outputs[t.child[n]]| == 1)
  {
    hide WellFormed, OutputsOfDirtyRule, DirtySource, UniformOutputs;
    ChildIsNode(t, n);
    NodeShape(t, n);
    FetchSource(t, d, n);
    FetchOutputs(t, d, lazy, n);
    forall m | m in t.child && m in d - {n} ensures t.child[m] in d - {n} {
      ChildIsNode(t, m);
      NodeShape(t, m);
    }
    if UniformOutputs(t, d) {
      FetchUniform(t, d, n);
    }
  }

  lemma FetchUniform(t: Topology, d: set<Vertex>, n: Vertex)
    requires WellFormed(t) && UniformOutputs(t, d) && n in t.child && n in d
    ensures UniformOutputs(t, d - {n}) <==> t.child[n] in t.outputs && |t.outputs[t.child[n]]| == 1
  {
    hide WellFormed;
    ChildIsNode(t, n);
    NodeShape(t, n);
    var r := t.child[n];
    RuleShape(t, r);
    if |t.outputs[r]| == 1 {
      forall q, o, o' | q in t.outputs && o in t.outputs[q] && o' in t.outputs[q] && o in d - {n}
        ensures o' in d - {n}
      {
        if o' == n {
          OutputOf(t, q, o');
        }
      }
    } else {
      var k := if t.outputs[r][0] == n then 1 else 0;
      assert t.outputs[r][k] != n && t.outputs[r][k] in t.outputs[r] && t.outputs[r][k] in d - {n};
    }
  }

  lemma OutputOf(t: Topology, q: Vertex, o: Vertex)
    requires WellFormed(t) && q in t.outputs && o in t.outputs[q]
    ensures o in t.child && t.child[o] == q
  {
  }

  lemma FetchSource(t: Topology, d: set<Vertex>, n: Vertex)
    requires WellFormed(t) && DirtySource(t, d) && n in t.child
    ensures DirtySource(t, d - {n})
  {
    hide WellFormed;
    forall s | s in t.parents && IsSource(t, s) && s in d - {n} && t.parents[s] != []
      ensures exists p :: p in t.parents[s] && p in d - {n}
    {
      var p :| p in t.parents[s] && p in d;
      ParentIsRule(t, s, p);
      ChildIsNode(t, n);
      NodeShape(t, n);
      assert p in d - {n};
    }
  }

  lemma ParentIsRule(t: Topology, s: Vertex, p: Vertex)
    requires WellFormed(t) && s in t.parents && p in t.parents[s]
    ensures p in t.rules
  {
  }

  lemma FetchOutputs(t: Topology, d: set<Vertex>, lazy: set<Vertex>, n: Vertex)
    requires OutputsOfDirtyRule(t, d, lazy) && n !in t.outputs
    ensures OutputsOfDirtyRule(t, d - {n}, lazy + {n})
  {
  }

  ghost predicate SingleOutputs(t: Topology) {
    forall r :: r in t.outputs ==> |t.outputs[r]| == 1
  }

  // ----- What is fetched -----

  /** The traversal goes on below `n`: nothing to restore, or not in the cache. */
  predicate GoesOn(t: Topology, cached: Vertex -> bool, n: Vertex)
    requires n in t.child
  {
    IsPhony(t, t.child[n]) || !cached(n)
  }

  ghost function FetchEdges(t: Topology, d: set<Vertex>, cached: Vertex -> bool): Edges {
    map n | n in t.child.Keys * d && GoesOn(t, cached, n) :: InputsOf(t, t.child[n])
  }

  ghost function InputsOf(t: Topology, r: Vertex): set<Vertex> {
    if r in t.inputs then Range(t.inputs[r]) else {}
  }

  /** The dirty nodes in the cache that can be reached from the targets without passing another. */
  ghost function FetchSet(t: Topology, d: set<Vertex>, cached: Vertex -> bool, targets: set<Vertex>): set<Vertex> {
    set n | n in t.child.Keys * d && !GoesOn(t, cached, n)
            && exists m :: m in targets && Reaches(FetchEdges(t, d, cached), m, n)
  }

  lemma FetchUnion(t: Topology, d: set<Vertex>, cached: Vertex -> bool, a: set<Vertex>, b: set<Vertex>)
    ensures FetchSet(t, d, cached, a + b) == FetchSet(t, d, cached, a) + FetchSet(t, d, cached, b)
    ensures FetchSet(t, d, cached, {}) == {}
  {
    hide Reaches;
  }

  lemma FetchNone(t: Topology, d: set<Vertex>, cached: Vertex -> bool, n: Vertex)
    requires n !in t.child.Keys * d
    ensures FetchSet(t, d, cached, {n}) == {}
  {
    hide Reaches, GoesOn;
    var g := FetchEdges(t, d, cached);
    forall m | m in t.child.Keys * d && !GoesOn(t, cached, m) && Reaches(g, n, m) ensures false {
      var u := ReachesSplitFirst(g, n, m);
    }
  }

  lemma FetchHit(t: Topology, d: set<Vertex>, cached: Vertex -> bool, n: Vertex)
    requires n in t.child.Keys * d && !GoesOn(t, cached, n)
    ensures FetchSet(t, d, cached, {n}) == {n}
  {
    hide Reaches, GoesOn;
    var g := FetchEdges(t, d, cached);
    ReachesSelf(g, n);
    forall m | m in FetchSet(t, d, cached, {n}) && m != n ensures false {
      var u := ReachesSplitFirst(g, n, m);
    }
  }

  lemma FetchBelow(t: Topology, d: set<Vertex>, cached: Vertex -> bool, n: Vertex)
    requires n in t.child.Keys * d && GoesOn(t, cached, n)
    ensures FetchSet(t, d, cached, {n}) == FetchSet(t, d, cached, InputsOf(t, t.child[n]))
  {
    hide Reaches, GoesOn;
    var g, ins := FetchEdges(t, d, cached), InputsOf(t, t.child[n]);
    forall m | m in FetchSet(t, d, cached, {n}) ensures m in FetchSet(t, d, cached, ins) {
      var u := ReachesSplitFirst(g, n, m);
      assert u in ins && Reaches(g, u, m);
    }
    forall m | m in FetchSet(t, d, cached, ins) ensures m in FetchSet(t, d, cached, {n}) {
      var u :| u in ins && Reaches(g, u, m);
      assert Step(g, n, u);
      ReachesStepFirst(g, n, u, m);
    }
  }

  /** Every fetched node was a dirty output of a rule with a command, and in the cache. */
  lemma FetchedAre(t: Topology, d: set<Vertex>, cached: Vertex -> bool, targets: set<Vertex>, n: Vertex)
    requires WellFormed(t) && n in FetchSet(t, d, cached, targets)
    ensures n in d && n in t.child && cached(n) && t.child[n] in t.command && t.command[t.child[n]] != ""
  {
    hide WellFormed, Reaches;
    ChildIsNode(t, n);
    NodeShape(t, n);
    RuleShape(t, t.child[n]);
  }

  /** After a fetch, no node that the cache holds is on the way of what the targets still need. */
  lemma CachedNotNeeded(t: Topology, d: set<Vertex>, cached: Vertex -> bool, targets: set<Vertex>, m: Vertex, n: Vertex)
    requires WellFormed(t) && targets <= t.nodes && m in targets && n in t.child && cached(n)
    requires t.child[n] in t.command && t.command[t.child[n]] != ""
    requires Reaches(NeedEdges(t, d - FetchSet(t, d, cached, targets)), m, n)
    ensures n !in d - FetchSet(t, d, cached, targets)
  {
    hide WellFormed, Reaches, FetchEdges, FetchSet, GoesOn;
    var left := d - FetchSet(t, d, cached, targets);
    var g := FetchEdges(t, d, cached);
    var found := set v | v in t.nodes && Reaches(g, m, v);
    var s := found + set v | v in t.child.Keys * left * found :: t.child[v];
    ReachesSelf(g, m);
    forall u, v | u in s && Step(NeedEdges(t, left), u, v) ensures v in s {
      if u in t.child {
        ChildIsNode(t, u);
        NodeOfSet(t, found, left, u);
        NodeShape(t, u);
        assert u in left && v == t.child[u] && u in t.child.Keys * left * found;
      } else {
        assert v in Blockers(t, left, u);
        SameKeys(t);
        RuleShape(t, u);
        var w :| w in t.child.Keys * left * found && t.child[w] == u;
        StillGoesOn(t, d, cached, targets, m, w);
        FetchStep(t, d, cached, w, v);
        ReachesStepLast(g, m, w, v);
      }
    }
    ClosedContains(NeedEdges(t, left), s, m, n);
    ChildIsNode(t, n);
    NodeOfSet(t, found, left, n);
    if n in left {
      StillGoesOn(t, d, cached, targets, m, n);
      GoesOnIff(t, cached, n);
    }
  }

  lemma NodeOfSet(t: Topology, found: set<Vertex>, left: set<Vertex>, u: Vertex)
    requires WellFormed(t) && u in t.nodes && u in found + set v | v in t.child.Keys * left * found :: t.child[v]
    ensures u in found
  {
    hide WellFormed;
    if u !in found {
      var v :| v in t.child.Keys * left * found && t.child[v] == u;
      ChildIsNode(t, v);
      NodeShape(t, v);
      RuleShape(t, u);
    }
  }

  lemma GoesOnIff(t: Topology, cached: Vertex -> bool, n: Vertex)
    requires n in t.child && t.child[n] in t.command
    ensures GoesOn(t, cached, n) <==> t.command[t.child[n]] == "" || !cached(n)
  {
  }

  lemma StillGoesOn(t: Topology, d: set<Vertex>, cached: Vertex -> bool, targets: set<Vertex>, m: Vertex, w: Vertex)
    requires m in targets && w in t.child.Keys * (d - FetchSet(t, d, cached, targets))
    requires Reaches(FetchEdges(t, d, cached), m, w)
    ensures GoesOn(t, cached, w)
  {
    hide Reaches, FetchEdges, GoesOn;
  }

  lemma FetchStep(t: Topology, d: set<Vertex>, cached: Vertex -> bool, w: Vertex, v: Vertex)
    requires w in t.child.Keys * d && GoesOn(t, cached, w) && t.child[w] in t.inputs && v in t.inputs[t.child[w]]
    ensures Step(FetchEdges(t, d, cached), w, v)
  {
    hide GoesOn;
  }

  /** `cached` says which nodes the cache can restore, `clock` when each is restored. */
  class LazyCache {
    const graph: Graph
    const cached: Vertex -> bool
    const clock: Vertex -> int
    /** The nodes restored so far, in order. */
    ghost var restored: seq<Vertex>
    ghost const stamps: map<Vertex, int>

    constructor (g: Graph, c: Vertex -> bool, time: Vertex -> int)
      ensures graph == g && cached == c && clock == time && restored == [] && stamps == g.stamp
    {
      graph, cached, clock, restored, stamps := g, c, time, [], g.stamp;
    }

    /** What fetching has done since the dirty set was `d0`: each restored node was dirty and in the
        cache, is up to date and flagged, and appears once. */
    ghost predicate Fetched(d0: set<Vertex>, lazy0: set<Vertex>)
      reads this, graph
    {
      && NoDuplicates(restored)
      && (forall n :: n in restored ==> n in graph.topo.child.Keys * d0 && !GoesOn(graph.topo, cached, n))
      && graph.dirty == d0 - Range(restored)
      && graph.lazy == lazy0 + Range(restored)
      && graph.stamp.Keys == stamps.Keys
      && forall v :: v in stamps ==> graph.stamp[v] == if v in restored then clock(v) else stamps[v]
    }

    /** Restores exactly what is due below `n`, each node at most once. */
    method TraverseNode(n: Vertex, ghost rank: map<Vertex, nat>, ghost d0: set<Vertex>, ghost lazy0: set<Vertex>)
      requires InOrder(graph) && Ranked(graph.topo, rank) && n in graph.topo.nodes && n in rank
      requires Fetched(d0, lazy0)
      modifies this`restored, graph`dirty, graph`lazy, graph`numReady, graph`blocked, graph`stamp
      ensures InOrder(graph) && Fetched(d0, lazy0)
      ensures Range(restored) == old(Range(restored)) + FetchSet(graph.topo, d0, cached, {n})
      decreases rank[n], 1
    {
      hide *;
      if n !in graph.dirty || n !in graph.topo.child {
        NotDue(this, d0, lazy0, n);
        return;
      }
      var r := graph.topo.child[n];
      Below(graph, rank, n);
      StillDue(this, d0, lazy0, n);
      if GoesOn(graph.topo, cached, n) {
        FetchBelow(graph.topo, d0, cached, n);
        InputsAre(graph.topo, r);
        TraverseRule(r, rank, d0, lazy0);
      } else {
        FetchHit(graph.topo, d0, cached, n);
        RestoreNode(n, d0, lazy0);
        OneMore(old(restored), n);
      }
    }

    method TraverseRule(r: Vertex, ghost rank: map<Vertex, nat>, ghost d0: set<Vertex>, ghost lazy0: set<Vertex>)
      requires InOrder(graph) && Ranked(graph.topo, rank)
      requires r in rank && r in graph.topo.inputs
      requires forall i :: i in graph.topo.inputs[r] ==> i in graph.topo.nodes && i in rank && rank[i] < rank[r]
      requires Fetched(d0, lazy0)
      modifies this`restored, graph`dirty, graph`lazy, graph`numReady, graph`blocked, graph`stamp
      ensures InOrder(graph) && Fetched(d0, lazy0)
      ensures Range(restored) == old(Range(restored)) + FetchSet(graph.topo, d0, cached, Range(graph.topo.inputs[r]))
      decreases rank[r], 0
    {
      hide *;
      var inputs := graph.topo.inputs[r];
      NoneYet(graph.topo, d0, cached, inputs);
      for k := 0 to |inputs|
        invariant InOrder(graph) && Fetched(d0, lazy0)
        invariant Range(restored) == old(Range(restored)) + FetchSet(graph.topo, d0, cached, Range(inputs[..k]))
      {
        NextFetch(graph.topo, d0, cached, inputs, k);
        TraverseNode(inputs[k], rank, d0, lazy0);
      }
      assert inputs[..|inputs|] == inputs;
    }

    /** The branch of traverseNode in which the cache holds the node. */
    method RestoreNode(n: Vertex, ghost d0: set<Vertex>, ghost lazy0: set<Vertex>)
      requires InOrder(graph) && n in graph.topo.child.Keys * d0 && n in graph.dirty && !GoesOn(graph.topo, cached, n)
      requires Fetched(d0, lazy0)
      modifies this`restored, graph`dirty, graph`lazy, graph`numReady, graph`blocked, graph`stamp
      ensures InOrder(graph) && Fetched(d0, lazy0) && restored == old(restored) + [n]
    {
      hide WellFormed, Acyclic, Checked, Graph.Counted, Graph.Exact, NoDuplicates, GoesOn, Told, ReadyInputs;
      RestoreParts(graph, n);
      FetchConsistent(graph.topo, graph.dirty, graph.lazy, n);
      AppendDistinct(restored, n);
      CountsMeans(graph);
      ToldIff(graph.topo, graph.dirty, graph.numReady, [n]);
      MarkNodeUpToDate(graph, n);
      CountsMeans(graph);
      assert old(graph.dirty) - Range([n]) == old(graph.dirty) - {n};
      graph.lazy := graph.lazy + {n};
      assert graph.lazy == old(graph.lazy) + {n};
      graph.stamp := graph.stamp[n := clock(n)];
      restored := restored + [n];
    }

    /** LazyCache::fetch: exactly the dirty cached nodes that the targets reach first are restored. */
    method Fetch(targets: set<Vertex>)
      requires InOrder(graph) && targets <= graph.topo.nodes && restored == [] && stamps == graph.stamp
      modifies this`restored, graph`dirty, graph`lazy, graph`numReady, graph`blocked, graph`stamp
      ensures InOrder(graph) && (SingleOutputs(graph.topo) ==> Invariant(graph))
      ensures NoDuplicates(restored) && Range(restored) == FetchSet(graph.topo, old(graph.dirty), cached, targets)
      ensures graph.dirty == old(graph.dirty) - Range(restored) && graph.lazy == old(graph.lazy) + Range(restored)
      ensures graph.stamp.Keys == old(graph.stamp.Keys)
      ensures forall v :: v in graph.stamp ==> graph.stamp[v] == if v in restored then clock(v) else old(graph.stamp)[v]
    {
      hide *;
      ghost var d0, lazy0 := graph.dirty, graph.lazy;
      NothingFetched(this);
      ghost var rank := RankFor(graph);
      var left := targets;
      while left != {}
        invariant left <= targets && InOrder(graph) && Fetched(d0, lazy0)
        invariant Range(restored) == FetchSet(graph.topo, d0, cached, targets - left)
        decreases left
      {
        var n :| n in left;
        FetchUnion(graph.topo, d0, cached, targets - left, {n});
        RankedNode(graph, rank, n);
        TraverseNode(n, rank, d0, lazy0);
        assert targets - left + {n} == targets - (left - {n});
        left := left - {n};
      }
      assert targets - {} == targets;
      FetchedMeans(this, d0, lazy0);
    }
  }

  ghost function RankFor(g: Graph): (rank: map<Vertex, nat>)
    reads g
    requires InOrder(g)
    ensures Ranked(g.topo, rank)
  {
    SomeRank(g.topo)
  }

  lemma RankedNode(g: Graph, rank: map<Vertex, nat>, n: Vertex)
    requires Ranked(g.topo, rank) && n in g.topo.nodes
    ensures n in rank
  {
  }

  lemma Below(g: Graph, rank: map<Vertex, nat>, n: Vertex)
    requires InOrder(g) && Ranked(g.topo, rank) && n in g.topo.child && n in g.topo.nodes
    ensures var r := g.topo.child[n];
            && n in rank && r in rank && rank[r] < rank[n] && r in g.topo.inputs
            && forall i :: i in g.topo.inputs[r] ==> i in g.topo.nodes && i in rank && rank[i] < rank[r]
  {
    hide WellFormed, Acyclic, Checked, Graph.Counted, Graph.Exact, Ranked;
    var t, r := g.topo, g.topo.child[n];
    NodeShape(t, n);
    RuleShape(t, r);
    RankStep(t, rank, r, n);
    forall i | i in t.inputs[r] ensures i in rank && rank[i] < rank[r] {
      NodeShape(t, i);
      RankStep(t, rank, i, r);
    }
  }

  lemma RestoreParts(g: Graph, n: Vertex)
    requires InOrder(g) && n in g.topo.child
    ensures n in g.stamp && (n in g.dirty ==> n !in g.lazy)
  {
    hide WellFormed, Acyclic, Graph.Counted, Graph.Exact;
    ChildIsNode(g.topo, n);
  }

  /** A node that is clean now was clean at the start, or has been restored. */
  lemma NotDue(c: LazyCache, d0: set<Vertex>, lazy0: set<Vertex>, n: Vertex)
    requires c.Fetched(d0, lazy0) && (n !in c.graph.dirty || n !in c.graph.topo.child)
    ensures Range(c.restored) == Range(c.restored) + FetchSet(c.graph.topo, d0, c.cached, {n})
  {
    hide FetchSet, NoDuplicates, GoesOn;
    if n in c.graph.topo.child.Keys * d0 {
      FetchHit(c.graph.topo, d0, c.cached, n);
    } else {
      FetchNone(c.graph.topo, d0, c.cached, n);
    }
  }

  lemma StillDue(c: LazyCache, d0: set<Vertex>, lazy0: set<Vertex>, n: Vertex)
    requires c.Fetched(d0, lazy0) && n in c.graph.dirty && n in c.graph.topo.child
    ensures n in c.graph.topo.child.Keys * d0
  {
  }

  lemma InputsAre(t: Topology, r: Vertex)
    requires r in t.inputs
    ensures InputsOf(t, r) == Range(t.inputs[r])
  {
  }

  lemma OneMore(s: seq<Vertex>, n: Vertex)
    ensures Range(s + [n]) == Range(s) + {n}
  {
  }

  lemma NoneYet(t: Topology, d: set<Vertex>, cached: Vertex -> bool, inputs: seq<Vertex>)
    ensures FetchSet(t, d, cached, Range(inputs[..0])) == {}
  {
    hide FetchSet;
    FetchUnion(t, d, cached, {}, {});
    assert Range(inputs[..0]) == {};
  }

  lemma NextFetch(t: Topology, d: set<Vertex>, cached: Vertex -> bool, inputs: seq<Vertex>, k: nat)
    requires k < |inputs|
    ensures FetchSet(t, d, cached, Range(inputs[..k + 1]))
         == FetchSet(t, d, cached, Range(inputs[..k])) + FetchSet(t, d, cached, {inputs[k]})
  {
    hide FetchSet;
    assert inputs[..k + 1] == inputs[..k] + [inputs[k]];
    assert Range(inputs[..k + 1]) == Range(inputs[..k]) + {inputs[k]};
    FetchUnion(t, d, cached, Range(inputs[..k]), {inputs[k]});
  }

  lemma NothingFetched(c: LazyCache)
    requires c.restored == [] && c.stamps == c.graph.stamp
    ensures c.Fetched(c.graph.dirty, c.graph.lazy)
    ensures forall targets: set<Vertex> ::
            Range(c.restored)
            == FetchSet(c.graph.topo, c.graph.dirty, c.cached, targets - targets)
  {
    hide FetchSet;
    FetchUnion(c.graph.topo, c.graph.dirty, c.cached, {}, {});
    assert Range(c.restored) == {};
    forall targets: set<Vertex>
      ensures Range(c.restored) == FetchSet(c.graph.topo, c.graph.dirty, c.cached, targets - targets)
    {
      assert targets - targets == {};
    }
  }

  lemma FetchedMeans(c: LazyCache, d0: set<Vertex>, lazy0: set<Vertex>)
    requires InOrder(c.graph) && c.Fetched(d0, lazy0)
    ensures NoDuplicates(c.restored) && c.graph.dirty == d0 - Range(c.restored)
            && c.graph.lazy == lazy0 + Range(c.restored)
    ensures SingleOutputs(c.graph.topo) ==> Invariant(c.graph)
    ensures c.graph.stamp.Keys == c.stamps.Keys
    ensures forall v :: v in c.stamps ==> c.graph.stamp[v] == if v in c.restored then c.clock(v) else c.stamps[v]
  {
    hide NoDuplicates, InOrder, Invariant;
    InvariantIff(c.graph);
  }
}
