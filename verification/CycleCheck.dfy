/** Cycle detection (src/graph_cycle.cpp). */
module CycleCheck {
  import opened Reachability
  import opened Topology

  /** From a generated node to the inputs of the rule that generates it. */
  function DependsOn(t: Topology): Edges {
    map n | n in t.child && t.child[n] in t.inputs :: Range(t.inputs[t.child[n]])
  }

  /** `n` depends on itself. */
  ghost predicate OnCycle(g: Edges, n: Vertex) {
    exists w :: Step(g, n, w) && Reaches(g, w, n)
  }

  /** A cycle can be reached downwards from `n`. */
  ghost predicate CycleBelow(g: Edges, n: Vertex) {
    exists m :: Reaches(g, n, m) && OnCycle(g, m)
  }

  /** No downward path from `n` is longer than `k`. */
  ghost predicate Bounded(g: Edges, n: Vertex, k: nat)
    decreases k
  {
    forall w :: Step(g, n, w) ==> k > 0 && Bounded(g, w, k - 1)
  }

  /** The path from a root down to the node being visited, as the code keeps it: a set. */
  class CycleChecker {
    const topo: Topology
    var stack: set<Vertex>

    constructor (t: Topology)
      ensures topo == t && stack == {}
    {
      topo, stack := t, {};
    }

    /** isCycle.  The exception is modelled by `loop`, which every caller passes on. */
    method IsCycle(n: Vertex, ghost chain: seq<Vertex>) returns (loop: bool)
      requires Linked(topo) && n in topo.nodes
      requires stack == Range(chain) && stack <= topo.nodes && IsPath(DependsOn(topo), chain + [n])
      modifies this`stack
      ensures loop ==> CycleBelow(DependsOn(topo), (chain + [n])[0])
      ensures !loop ==> stack == old(stack) && Bounded(DependsOn(topo), n, |topo.nodes - stack|)
      decreases |topo.nodes - stack|
    {
      hide Linked, CycleBelow, Bounded, DependsOn, IsPath;
      if n in stack {
        ClosesLoop(DependsOn(topo), chain, n);
        return true;
      }
      if n !in topo.child {
        Leaf(topo, n, |topo.nodes - stack|);
        return false;
      }
      ghost var outer := stack;
      ghost var room := topo.nodes - stack;
      assert topo.nodes - (stack + {n}) == room - {n};
      stack := stack + {n};
      ChildInputs(topo, n);
      var inputs := topo.inputs[topo.child[n]];
      for k := 0 to |inputs|
        invariant stack == outer + {n}
        invariant forall i :: i in inputs[..k] ==> Bounded(DependsOn(topo), i, |room| - 1)
      {
        assert inputs[..k + 1] == inputs[..k] + [inputs[k]];
        ExtendPath(topo, chain, n, inputs[k]);
        var below := IsCycle(inputs[k], chain + [n]);
        if below {
          return true;
        }
      }
      assert inputs[..|inputs|] == inputs;
      stack := stack - {n};
      BoundedBy(topo, n, |room|);
      return false;
    }

    /** checkGraphLoop returns normally exactly when no cycle lies below a root, and then that part of
        the graph has a rank. */
    method CheckGraphLoop() returns (ok: bool, ghost rank: map<Vertex, nat>)
      requires Linked(topo)
      modifies this`stack
      ensures ok <==> NoLoopBelowRoots(topo)
      ensures ok ==> RanksBelowRoots(topo, rank)
    {
      hide InputEdges, OutputEdges, CycleBelow, Bounded;
      var left := topo.roots;
      while left != {}
        invariant left <= topo.roots
        invariant forall n :: n in topo.roots - left ==> Bounded(DependsOn(topo), n, |topo.nodes|)
        decreases left
      {
        var n :| n in left;
        stack := {};
        assert topo.nodes - {} == topo.nodes && [] + [n] == [n];
        var loop := IsCycle(n, []);
        if loop {
          return false, map[];
        }
        left := left - {n};
      }
      forall n | n in topo.roots ensures !CycleBelow(DependsOn(topo), n) {
        BoundedHasNoCycle(DependsOn(topo), n, |topo.nodes|);
      }
      RankedBelowRoots(topo);
      return true, RankBelow(topo);
    }
  }

  lemma ClosesLoop(g: Edges, chain: seq<Vertex>, n: Vertex)
    requires IsPath(g, chain + [n]) && n in chain
    ensures CycleBelow(g, (chain + [n])[0])
  {
    var p := chain + [n];
    var i :| 0 <= i < |chain| && chain[i] == n;
    assert Connects(g, p[..i + 1], p[0], n);
    assert Step(g, p[i], p[i + 1]);
    assert Connects(g, p[i + 1..], p[i + 1], n);
    assert Reaches(g, p[0], n) && OnCycle(g, n);
  }

  lemma ExtendPath(t: Topology, chain: seq<Vertex>, n: Vertex, i: Vertex)
    requires Linked(t) && n in t.child && t.child[n] in t.inputs
    requires IsPath(DependsOn(t), chain + [n]) && i in t.inputs[t.child[n]]
    ensures IsPath(DependsOn(t), chain + [n] + [i]) && (chain + [n] + [i])[0] == (chain + [n])[0]
    ensures Range(chain + [n]) == Range(chain) + {n} && i in t.nodes
  {
    hide Linked;
    ChildInputs(t, n);
    assert Step(DependsOn(t), n, i);
  }

  lemma ChildInputs(t: Topology, n: Vertex)
    requires Linked(t) && n in t.child
    ensures t.child[n] in t.inputs
    ensures forall i :: i in t.inputs[t.child[n]] ==> i in t.nodes
  {
  }

  lemma Leaf(t: Topology, n: Vertex, k: nat)
    requires n !in t.child
    ensures Bounded(DependsOn(t), n, k)
  {
  }

  lemma BoundedBy(t: Topology, n: Vertex, k: nat)
    requires n in t.child && t.child[n] in t.inputs && k > 0
    requires forall i :: i in t.inputs[t.child[n]] ==> Bounded(DependsOn(t), i, k - 1)
    ensures Bounded(DependsOn(t), n, k)
  {
  }

  lemma {:induction false} BoundedBelow(g: Edges, n: Vertex, k: nat, p: seq<Vertex>)
    requires Bounded(g, n, k) && IsPath(g, p) && p[0] == n
    ensures |p| <= k + 1 && Bounded(g, p[|p| - 1], k + 1 - |p|)
    decreases |p|
  {
    if |p| > 1 {
      assert Step(g, p[0], p[1]);
      BoundedBelow(g, p[1], k - 1, p[1..]);
    }
  }

  /** Cycles have arbitrarily long paths. */
  lemma {:induction false} LongPath(g: Edges, m: Vertex, k: nat) returns (p: seq<Vertex>)
    requires OnCycle(g, m)
    ensures IsPath(g, p) && p[0] == m && p[|p| - 1] == m && |p| > k
  {
    if k == 0 {
      p := [m];
    } else {
      var q := LongPath(g, m, k - 1);
      var w :| Step(g, m, w) && Reaches(g, w, m);
      var r :| Connects(g, r, w, m);
      p := q + r;
      forall i | 0 < i < |p| ensures Step(g, p[i - 1], p[i]) {
        if i > |q| {
          assert p[i - 1] == r[i - 1 - |q|] && p[i] == r[i - |q|];
        }
      }
    }
  }

  lemma BoundedHasNoCycle(g: Edges, n: Vertex, k: nat)
    requires Bounded(g, n, k)
    ensures !CycleBelow(g, n)
  {
    if CycleBelow(g, n) {
      var m :| Reaches(g, n, m) && OnCycle(g, m);
      var p :| Connects(g, p, n, m);
      BoundedBelow(g, n, k, p);
      var q := LongPath(g, m, k + 1);
      BoundedBelow(g, m, k + 1 - |p|, q);
    }
  }

  /** The length of the longest downward path. */
  ghost function Height(g: Edges, n: Vertex, k: nat): (h: nat)
    requires Bounded(g, n, k)
    ensures Bounded(g, n, h) && h <= k
    ensures forall j: nat :: j < h ==> !Bounded(g, n, j)
  {
    if k == 0 || !Bounded(g, n, k - 1) then
      BoundedMore(g, n, k);
      k
    else Height(g, n, k - 1)
  }

  lemma BoundedMore(g: Edges, n: Vertex, k: nat)
    ensures k > 0 && !Bounded(g, n, k - 1) ==> forall j: nat :: j < k ==> !Bounded(g, n, j)
  {
    forall j: nat | j < k && Bounded(g, n, j) ensures Bounded(g, n, k - 1) {
      BoundedUp(g, n, j, k - 1);
    }
  }

  lemma {:induction false} BoundedUp(g: Edges, n: Vertex, j: nat, k: nat)
    requires Bounded(g, n, j) && j <= k
    ensures Bounded(g, n, k)
    decreases j
  {
    forall w | Step(g, n, w) ensures k > 0 && Bounded(g, w, k - 1) {
      BoundedUp(g, w, j - 1, k - 1);
    }
  }

  lemma HeightGrows(g: Edges, n: Vertex, w: Vertex, k: nat)
    requires Bounded(g, n, k) && Bounded(g, w, k) && Step(g, n, w)
    ensures Height(g, w, k) < Height(g, n, k)
  {
    var h := Height(g, n, k);
    assert Bounded(g, w, h - 1);
  }

  /** Some root reaches every node downwards. */
  ghost predicate RootsReachAll(t: Topology) {
    forall n :: n in t.nodes ==> exists root :: root in t.roots && Reaches(DependsOn(t), root, n)
  }

  /** On a finite graph a node either has a cycle below it or only short paths. */
  lemma {:induction false} CycleOrBounded(t: Topology, n: Vertex, chain: seq<Vertex>)
    requires Linked(t) && n in t.nodes && Range(chain) <= t.nodes && IsPath(DependsOn(t), chain + [n])
    ensures CycleBelow(DependsOn(t), (chain + [n])[0]) || Bounded(DependsOn(t), n, |t.nodes - Range(chain)|)
    decreases |t.nodes - Range(chain)|
  {
    hide Linked, CycleBelow, Bounded, DependsOn, IsPath;
    if n in chain {
      ClosesLoop(DependsOn(t), chain, n);
    } else if n !in t.child {
      Leaf(t, n, |t.nodes - Range(chain)|);
    } else if !CycleBelow(DependsOn(t), (chain + [n])[0]) {
      ChildInputs(t, n);
      assert t.nodes - Range(chain + [n]) == t.nodes - Range(chain) - {n};
      forall i | i in t.inputs[t.child[n]] ensures Bounded(DependsOn(t), i, |t.nodes - Range(chain)| - 1) {
        ExtendPath(t, chain, n, i);
        CycleOrBounded(t, i, chain + [n]);
      }
      BoundedBy(t, n, |t.nodes - Range(chain)|);
    }
  }

  /** What checkGraphLoop checks. */
  ghost predicate NoLoopBelowRoots(t: Topology) {
    forall n :: n in t.roots ==> !CycleBelow(DependsOn(t), n)
  }

  lemma BelowRootsBounded(t: Topology, n: Vertex)
    requires Linked(t) && NoLoopBelowRoots(t) && n in t.nodes
    requires exists root :: root in t.roots && Reaches(DependsOn(t), root, n)
    ensures Bounded(DependsOn(t), n, |t.nodes|)
  {
    hide Linked, Bounded, CycleBelow, DependsOn;
    var g, k := DependsOn(t), |t.nodes|;
    var root :| root in t.roots && Reaches(g, root, n);
    RootIsNode(t, root);
    assert [] + [root] == [root] && IsPath(g, [root]) && t.nodes - Range([]) == t.nodes;
    CycleOrBounded(t, root, []);
    var p :| Connects(g, p, root, n);
    BoundedBelow(g, root, k, p);
    BoundedUp(g, n, k + 1 - |p|, k);
  }

  /** The nodes below some root. */
  ghost predicate BelowRoot(t: Topology, n: Vertex) {
    exists root :: root in t.roots && Reaches(DependsOn(t), root, n)
  }

  /** Every node below a root has a rank, higher than those of what it depends on. */
  ghost predicate RanksBelowRoots(t: Topology, rank: map<Vertex, nat>) {
    && (forall n :: n in t.nodes && BelowRoot(t, n) ==> n in rank)
    && (forall n, w :: n in t.nodes && BelowRoot(t, n) && Step(DependsOn(t), n, w) ==>
        w in rank && n in rank
        && rank[w] < rank[n])
  }

  ghost function RankBelow(t: Topology): map<Vertex, nat>
    requires Linked(t) && NoLoopBelowRoots(t)
  {
    map n | n in t.nodes && BelowRoot(t, n) :: HeightBelow(t, n)
  }

  ghost function HeightBelow(t: Topology, n: Vertex): nat
    requires Linked(t) && NoLoopBelowRoots(t) && n in t.nodes && BelowRoot(t, n)
  {
    hide Linked, NoLoopBelowRoots, Bounded, Height, DependsOn;
    BelowRootsBounded(t, n);
    Height(DependsOn(t), n, |t.nodes|)
  }

  lemma RankedBelowRoots(t: Topology)
    requires Linked(t) && NoLoopBelowRoots(t)
    ensures RanksBelowRoots(t, RankBelow(t))
  {
    hide Linked, NoLoopBelowRoots, Bounded, Height, DependsOn;
    var g := DependsOn(t);
    forall n, w | n in t.nodes && BelowRoot(t, n) && Step(g, n, w)
      ensures w in t.nodes && BelowRoot(t, w) && HeightBelow(t, w) < HeightBelow(t, n)
    {
      var root :| root in t.roots && Reaches(g, root, n);
      ReachesStepLast(g, root, n, w);
      StepToNode(t, n, w);
      BelowRootsBounded(t, n);
      BelowRootsBounded(t, w);
      HeightGrows(g, n, w, |t.nodes|);
    }
  }

  lemma StepToNode(t: Topology, n: Vertex, w: Vertex)
    requires Linked(t) && Step(DependsOn(t), n, w)
    ensures w in t.nodes
  {
  }

  lemma RootIsNode(t: Topology, n: Vertex)
    requires Linked(t) && n in t.roots
    ensures n in t.nodes
  {
  }

  ghost function HeightRank(t: Topology): map<Vertex, nat>
    requires WellFormed(t) && forall n :: n in t.nodes ==> Bounded(DependsOn(t), n, |t.nodes|)
  {
    map v | v in t.nodes + t.rules :: HeightAt(t, v)
  }

  /** The height of a node, or of what a rule produces. */
  ghost function HeightAt(t: Topology, v: Vertex): nat
    requires WellFormed(t) && v in t.nodes + t.rules
    requires forall n :: n in t.nodes ==> Bounded(DependsOn(t), n, |t.nodes|)
  {
    hide WellFormed, Height, Bounded, DependsOn;
    if v in t.nodes then 2 * Height(DependsOn(t), v, |t.nodes|) + 1
    else RuleShape(t, v); 2 * Height(DependsOn(t), t.outputs[v][0], |t.nodes|)
  }

  lemma HeightRankStep(t: Topology, u: Vertex, v: Vertex)
    requires WellFormed(t) && forall n :: n in t.nodes ==> Bounded(DependsOn(t), n, |t.nodes|)
    requires Step(UpEdges(t), u, v)
    ensures u in HeightRank(t) && v in HeightRank(t) && HeightRank(t)[u] < HeightRank(t)[v]
  {
    hide WellFormed, Bounded, Height, UpEdges;
    UpStep(t, u, v);
    if u in t.nodes {
      NodeShape(t, u);
      RuleShape(t, v);
      assert Step(DependsOn(t), t.outputs[v][0], u);
      HeightGrows(DependsOn(t), t.outputs[v][0], u, |t.nodes|);
    } else {
      RuleShape(t, u);
      SameHeight(t, u, v, |t.nodes|);
    }
  }

  /** What checkGraphLoop is worth: a graph is acyclic exactly when no cycle lies below a root
      and every node lies below a root. */
  lemma AcyclicIff(t: Topology)
    requires WellFormed(t)
    ensures Acyclic(t) <==> NoLoopBelowRoots(t) && RootsReachAll(t)
  {
    hide WellFormed, NoLoopBelowRoots, RootsReachAll, Acyclic;
    if NoLoopBelowRoots(t) && RootsReachAll(t) {
      LoopFreeIsAcyclic(t);
    }
    if Acyclic(t) {
      AcyclicIsLoopFree(t);
    }
  }

  lemma LoopFreeIsAcyclic(t: Topology)
    requires WellFormed(t) && NoLoopBelowRoots(t) && RootsReachAll(t)
    ensures Acyclic(t)
  {
    hide Linked, HasOutputs, Bounded, Height, DependsOn, UpEdges, NoLoopBelowRoots;
    forall n | n in t.nodes ensures Bounded(DependsOn(t), n, |t.nodes|) {
      BelowRootsBounded(t, n);
    }
    forall u, v | Step(UpEdges(t), u, v)
      ensures u in HeightRank(t) && v in HeightRank(t) && HeightRank(t)[u] < HeightRank(t)[v]
    {
      HeightRankStep(t, u, v);
    }
    assert Ranked(t, HeightRank(t));
  }

  /** Dependencies lower the rank. */
  lemma DependsRank(t: Topology, rank: map<Vertex, nat>, n: Vertex, w: Vertex)
    requires WellFormed(t) && Ranked(t, rank) && Step(DependsOn(t), n, w)
    ensures n in rank && w in rank && rank[w] < rank[n] && n in Above(t, w)
  {
    hide WellFormed, Ranked, UpEdges;
    var r := t.child[n];
    ChildAndInputs(t, n, w);
    RankStep(t, rank, w, r);
    RankStep(t, rank, r, n);
    UpStep(t, w, r);
    UpStep(t, r, n);
    ReachesSelf(UpEdges(t), n);
    ReachesStepFirst(UpEdges(t), r, n, n);
    ReachesStepFirst(UpEdges(t), w, r, n);
  }

  lemma ChildAndInputs(t: Topology, n: Vertex, w: Vertex)
    requires WellFormed(t) && n in t.child && t.child[n] in t.inputs && w in t.inputs[t.child[n]]
    ensures var r := t.child[n];
            && r in t.rules && n in t.nodes && w in t.nodes && w in t.parents && r in t.parents[w]
            && r in t.outputs && n in t.outputs[r] && r !in t.parents
  {
  }

  lemma {:induction false} RankFallsPath(t: Topology, rank: map<Vertex, nat>, p: seq<Vertex>)
    requires WellFormed(t) && Ranked(t, rank) && IsPath(DependsOn(t), p) && |p| > 1
    ensures p[0] in rank && p[|p| - 1] in rank && rank[p[|p| - 1]] < rank[p[0]]
  {
    hide WellFormed, Ranked, DependsOn;
    assert Step(DependsOn(t), p[0], p[1]);
    DependsRank(t, rank, p[0], p[1]);
    if |p| > 2 {
      RankFallsPath(t, rank, p[1..]);
    }
  }

  lemma AcyclicIsLoopFree(t: Topology)
    requires WellFormed(t) && Acyclic(t)
    ensures NoLoopBelowRoots(t) && RootsReachAll(t)
  {
    hide WellFormed, Acyclic, DependsOn, Ranked;
    var rank := SomeRank(t);
    var g := DependsOn(t);
    forall n | n in t.roots ensures !CycleBelow(g, n) {
      if CycleBelow(g, n) {
        var m :| Reaches(g, n, m) && OnCycle(g, m);
        var w :| Step(g, m, w) && Reaches(g, w, m);
        var p :| Connects(g, p, w, m);
        assert IsPath(g, [m] + p);
        RankFallsPath(t, rank, [m] + p);
      }
    }
    forall n | n in t.nodes ensures exists root :: root in t.roots && Reaches(g, root, n) {
      var root := RootOver(t, rank, n);
    }
  }

  lemma {:induction false} RootOver(t: Topology, rank: map<Vertex, nat>, n: Vertex) returns (root: Vertex)
    requires WellFormed(t) && Ranked(t, rank) && n in t.nodes
    ensures root in t.roots && Reaches(DependsOn(t), root, n)
    decreases Top(t, rank) - (if n in rank then rank[n] else 0)
  {
    hide WellFormed, Ranked;
    NodeShape(t, n);
    RanksCover(t, rank);
    if t.parents[n] == [] {
      root := n;
      ReachesSelf(DependsOn(t), n);
    } else {
      var r := t.parents[n][0];
      RuleShape(t, r);
      var o := t.outputs[r][0];
      assert Step(DependsOn(t), o, n);
      DependsRank(t, rank, o, n);
      root := RootOver(t, rank, o);
      ReachesStepLast(DependsOn(t), root, o, n);
    }
  }

  /** Two rules that feed each other have no root above them, so the check does not see them. */
  lemma UnseenCycle() returns (t: Topology)
    ensures WellFormed(t) && NoLoopBelowRoots(t) && !Acyclic(t)
  {
    hide WellFormed, Acyclic, Reaches;
    t := TwoRules();
    TwoRulesWellFormed();
    var a := Node("a");
    assert a in t.nodes && !exists root :: root in t.roots && Reaches(DependsOn(t), root, a);
    AcyclicIff(t);
  }

  /** Two rules that need each other's output, and no root. */
  function TwoRules(): Topology {
    var a, b, p, q := Node("a"), Node("b"), Rule(0), Rule(1);
    Topology({a, b}, {p, q}, map[p := [a], q := [b]], map[p := [b], q := [a]], map[p := 0, q := 0],
             map[p := "cc", q := "cc"], map[b := p, a := q], map[a := [p], b := [q]], {})
  }

  lemma TwoRulesWellFormed()
    ensures WellFormed(TwoRules())
  {
    TwoRulesTyped();
    TwoRulesInputs();
    TwoRulesOutputs();
    hide Typed, InputEdges, OutputEdges;
  }

  lemma TwoRulesTyped()
    ensures Typed(TwoRules())
  {
  }

  lemma TwoRulesInputs()
    ensures InputEdges(TwoRules())
  {
  }

  lemma TwoRulesOutputs()
    ensures OutputEdges(TwoRules())
  {
  }

  lemma SameHeight(t: Topology, r: Vertex, o: Vertex, k: nat)
    requires WellFormed(t) && r in t.rules && r in t.outputs && o in t.outputs[r] && t.outputs[r] != []
    requires Bounded(DependsOn(t), o, k) && Bounded(DependsOn(t), t.outputs[r][0], k)
    ensures Height(DependsOn(t), o, k) == Height(DependsOn(t), t.outputs[r][0], k)
  {
    hide WellFormed, Height;
    var g, o0 := DependsOn(t), t.outputs[r][0];
    RuleShape(t, r);
    assert forall w :: Step(g, o, w) <==> Step(g, o0, w);
    assert forall j: nat :: Bounded(g, o, j) <==> Bounded(g, o0, j);
    assert Bounded(g, o, Height(g, o, k)) && Bounded(g, o0, Height(g, o0, k));
  }
}
