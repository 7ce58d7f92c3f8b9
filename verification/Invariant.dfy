/** The state half of GraphConsistencyChecker (src/graph_consistency_checker.cpp) as an
    invariant, and the step by which a node becomes up to date again. */
module GraphInvariant {
  import opened Reachability
  import opened Topology
  import opened DirtyTracking

  /** A dirty node has a dirty rule. */
  ghost predicate RuleOfDirtyNode(t: Topology, dirty: set<Vertex>) {
    forall n :: n in t.child && n in dirty ==> t.child[n] in dirty
  }

  /** An output of a dirty rule is dirty or was fetched from the cache. */
  ghost predicate OutputsOfDirtyRule(t: Topology, dirty: set<Vertex>, lazy: set<Vertex>) {
    forall r, o :: r in t.outputs && r in dirty && o in t.outputs[r] ==> o in dirty || o in lazy
  }

  /** A rule with a dirty generated input is dirty. */
  ghost predicate DirtyGeneratedInput(t: Topology, dirty: set<Vertex>) {
    forall r, i :: r in t.inputs && i in t.inputs[r] && i in t.child && i in dirty ==> r in dirty
  }

  /** A dirty source that is used at all is used by a dirty rule. */
  ghost predicate DirtySource(t: Topology, dirty: set<Vertex>) {
    forall s :: s in t.parents && IsSource(t, s) && s in dirty && t.parents[s] != []
                ==> exists p :: p in t.parents[s] && p in dirty
  }

  /** The outputs of one rule are all dirty or all up to date. */
  ghost predicate UniformOutputs(t: Topology, dirty: set<Vertex>) {
    forall r, o, o' :: r in t.outputs && o in t.outputs[r] && o' in t.outputs[r] && o in dirty ==> o' in dirty
  }

  /** What the consistency checker asks of the states. */
  ghost predicate Checked(t: Topology, dirty: set<Vertex>, lazy: set<Vertex>) {
    && dirty <= t.nodes + t.rules
    && lazy <= t.child.Keys && lazy !! dirty
    && RuleOfDirtyNode(t, dirty)
    && OutputsOfDirtyRule(t, dirty, lazy)
    && DirtyGeneratedInput(t, dirty)
    && DirtySource(t, dirty)
  }

  /** What a build needs as well: it takes every output of a rule that it runs for dirty. */
  ghost predicate Consistent(t: Topology, dirty: set<Vertex>, lazy: set<Vertex>) {
    Checked(t, dirty, lazy) && UniformOutputs(t, dirty)
  }

  /** A graph whose counters and states are in order. */
  ghost predicate InOrder(g: Graph)
    reads g
  {
    && WellFormed(g.topo) && Acyclic(g.topo)
    && g.Counted() && g.Exact()
    && Checked(g.topo, g.dirty, g.lazy)
    && g.stamp.Keys == g.topo.nodes + g.topo.rules
  }

  /** The invariant of the daemon's graph. */
  ghost predicate Invariant(g: Graph)
    reads g
  {
    && WellFormed(g.topo) && Acyclic(g.topo)
    && g.Counted() && g.Exact()
    && Consistent(g.topo, g.dirty, g.lazy)
    && g.stamp.Keys == g.topo.nodes + g.topo.rules
  }

  lemma InvariantIff(g: Graph)
    ensures Invariant(g) <==> InOrder(g) && UniformOutputs(g.topo, g.dirty)
  {
    hide WellFormed, Acyclic, Graph.Counted, Graph.Exact, Checked, UniformOutputs;
  }

  /** States are about vertices of the graph. */
  lemma InsideGraph(t: Topology, d: set<Vertex>, l: set<Vertex>)
    requires WellFormed(t) && Checked(t, d, l)
    ensures d <= t.nodes + t.rules && l <= t.nodes
  {
  }

  /** Without lazily fetched nodes, a generated node is dirty exactly when its rule is. */
  lemma DirtyIffRule(t: Topology, dirty: set<Vertex>, n: Vertex)
    requires WellFormed(t) && Checked(t, dirty, {}) && n in t.child
    ensures n in dirty <==> t.child[n] in dirty
  {
    hide WellFormed;
    ChildIsNode(t, n);
    NodeShape(t, n);
  }

  /** Without lazily fetched nodes, everything above a dirty generated node or a dirty rule is
      dirty as well. */
  lemma DirtyAbove(t: Topology, dirty: set<Vertex>, v: Vertex)
    requires WellFormed(t) && Consistent(t, dirty, {}) && v in dirty && (v in t.rules || v in t.child)
    ensures Above(t, v) <= dirty
  {
    hide WellFormed;
    var s := dirty * (t.rules + t.child.Keys);
    forall u, w | u in s && Step(UpEdges(t), u, w) ensures w in s {
      UpStep(t, u, w);
      if u in t.nodes {
        NodeShape(t, u);
      } else {
        RuleShape(t, u);
      }
    }
    forall w | w in Above(t, v) ensures w in dirty {
      ClosedContains(UpEdges(t), s, v, w);
    }
  }

  /** The counters are right for the states `dirty`. */
  ghost predicate Counts(t: Topology, dirty: set<Vertex>, numReady: map<Vertex, nat>) {
    numReady.Keys == t.inputs.Keys && forall r :: r in numReady ==> numReady[r] == |ReadyInputs(t, dirty, r)|
  }

  /** The outputs in `os` that a rule consumes. */
  ghost function Taken(t: Topology, os: seq<Vertex>, r: Vertex): set<Vertex>
    requires r in t.inputs
  {
    set o | o in os && o in t.inputs[r]
  }

  /** Every rule has been told once about each of the nodes `os` that it consumes. */
  ghost function Told(t: Topology, numReady: map<Vertex, nat>, os: seq<Vertex>): map<Vertex, nat>
    requires numReady.Keys == t.inputs.Keys
  {
    map r | r in numReady :: numReady[r] + |Taken(t, os, r)|
  }

  /** Mark a generated node up to date and tell every rule that consumes it, as both
      GraphParallelBuilder::markOutputsUpToDate and LazyCache::traverseNode do.  The rules are told
      whether or not the node was dirty. */
  method MarkNodeUpToDate(g: Graph, o: Vertex)
    requires WellFormed(g.topo) && g.numReady.Keys == g.topo.inputs.Keys && o in g.topo.child
    modifies g`dirty, g`lazy, g`numReady, g`blocked
    ensures g.dirty == old(g.dirty) - {o} && g.lazy == old(g.lazy) - {o}
    ensures g.numReady.Keys == g.topo.inputs.Keys && g.numReady == Told(g.topo, old(g.numReady), [o]) && g.Exact()
  {
    hide *;
    g.SetNodeState(o, false);
    ParentsOf(g.topo, o);
    var parents := g.topo.parents[o];
    ghost var before := g.numReady;
    for k := 0 to |parents|
      invariant g.dirty == old(g.dirty) - {o} && g.lazy == old(g.lazy) - {o}
      invariant g.numReady.Keys == before.Keys
      invariant forall r :: r in before ==> g.numReady[r] == before[r] + if r in parents[..k] then 1 else 0
    {
      OneParent(g.topo, o, k);
      var p := parents[k];
      g.numReady := g.numReady[p := g.numReady[p] + 1];
    }
    assert parents[..|parents|] == parents;
    AllTold(g.topo, before, g.numReady, o);
    g.blocked := Waits(g.topo, g.dirty);
    ExactIs(g);
  }

  lemma ExactIs(g: Graph)
    ensures g.Exact() <==> g.blocked == Waits(g.topo, g.dirty)
  {
  }

  lemma ParentsOf(t: Topology, o: Vertex)
    requires WellFormed(t) && o in t.child
    ensures o in t.parents
  {
  }

  lemma OneParent(t: Topology, o: Vertex, k: nat)
    requires WellFormed(t) && o in t.child && o in t.parents && k < |t.parents[o]|
    ensures t.parents[o][k] in t.inputs && t.parents[o][k] !in t.parents[o][..k]
    ensures forall r :: r in t.parents[o][..k + 1] <==> r in t.parents[o][..k] || r == t.parents[o][k]
  {
    hide WellFormed;
    ChildIsNode(t, o);
    NodeShape(t, o);
    assert t.parents[o][k] in t.parents[o];
    assert t.parents[o][..k + 1] == t.parents[o][..k] + [t.parents[o][k]];
  }

  lemma AllTold(t: Topology, before: map<Vertex, nat>, after: map<Vertex, nat>, o: Vertex)
    requires WellFormed(t) && o in t.child && o in t.parents && before.Keys == after.Keys == t.inputs.Keys
    requires forall r :: r in before ==> after[r] == before[r] + if r in t.parents[o] then 1 else 0
    ensures after == Told(t, before, [o])
  {
    hide WellFormed;
    ChildIsNode(t, o);
    NodeShape(t, o);
    forall r | r in before ensures |Taken(t, [o], r)| == if r in t.parents[o] then 1 else 0 {
      if o in t.inputs[r] {
        InputHasParent(t, r, o);
        assert Taken(t, [o], r) == {o};
      } else {
        assert Taken(t, [o], r) == {};
      }
    }
  }

  /** The ghost account of a graph says the same as its counters. */
  lemma CountsMeans(g: Graph)
    requires g.Exact()
    ensures g.Counted() <==> Counts(g.topo, g.dirty, g.numReady)
  {
    forall r | r in g.topo.inputs ensures NotBlocked(g.topo.inputs[r], g.blocked, r)
        == ReadyInputs(g.topo, g.dirty, r) {
    }
  }

  /** Telling every consumer about the nodes `os` keeps the counters right exactly when each of
      them that is consumed at all was dirty: a clean one is counted twice. */
  lemma ToldIff(t: Topology, dirty: set<Vertex>, numReady: map<Vertex, nat>, os: seq<Vertex>)
    requires WellFormed(t) && Counts(t, dirty, numReady) && forall o :: o in os ==> o in t.child
    ensures Counts(t, dirty - Range(os), Told(t, numReady, os))
            <==> forall o :: o in os && o in t.parents && t.parents[o] != [] ==> o in dirty
  {
    hide WellFormed, ReadyInputs;
    forall r | r in t.inputs
      ensures |ReadyInputs(t, dirty, r)| + |Taken(t, os, r)| == |ReadyInputs(t, dirty - Range(os), r)|
              <==> Taken(t, os, r) <= dirty
    {
      ToldOne(t, dirty, os, r);
    }
    if forall r :: r in t.inputs ==> Taken(t, os, r) <= dirty {
      forall o | o in os && o in t.parents && t.parents[o] != [] ensures o in dirty {
        ChildIsNode(t, o);
        NodeShape(t, o);
        assert o in Taken(t, os, t.parents[o][0]);
      }
    }
    if forall o :: o in os && o in t.parents && t.parents[o] != [] ==> o in dirty {
      forall r, o | r in t.inputs && o in Taken(t, os, r) ensures o in dirty {
        InputHasParent(t, r, o);
      }
    }
  }

  lemma ToldOne(t: Topology, dirty: set<Vertex>, os: seq<Vertex>, r: Vertex)
    requires r in t.inputs && forall o :: o in os ==> o in t.child
    ensures |ReadyInputs(t, dirty, r)| + |Taken(t, os, r)| == |ReadyInputs(t, dirty - Range(os), r)|
            <==> Taken(t, os, r) <= dirty
  {
    var ready, taken := ReadyInputs(t, dirty, r), Taken(t, os, r);
    var a, b := taken * dirty, taken - dirty;
    assert ReadyInputs(t, dirty - Range(os), r) == ready + a && ready !! a;
    assert taken == a + b && a !! b;
    assert b == {} <==> taken <= dirty;
  }

  lemma ChildIsNode(t: Topology, o: Vertex)
    requires WellFormed(t) && o in t.child
    ensures o in t.nodes
  {
  }

  lemma InputHasParent(t: Topology, r: Vertex, i: Vertex)
    requires WellFormed(t) && r in t.inputs && i in t.inputs[r]
    ensures i in t.parents && r in t.parents[i]
  {
  }
}
