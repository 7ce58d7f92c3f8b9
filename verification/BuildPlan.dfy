/** Planning (src/build_plan.cpp): which rules a build has to run, and which of them can start. */
module Planning {
  import opened Reachability
  import opened Topology
  import opened DirtyTracking

  /** The inputs that keep a rule from running. */
  ghost function Blockers(t: Topology, dirty: set<Vertex>, r: Vertex): set<Vertex> {
    set i | r in t.inputs && i in t.inputs[r] && i in t.child && i in dirty
  }

  /** From a dirty generated node to the rule producing it, from a rule to what blocks it. */
  ghost function NeedEdges(t: Topology, dirty: set<Vertex>): Edges {
    map v | v in t.child.Keys * dirty + t.inputs.Keys :: if v in t.child then {t.child[v]} else Blockers(t, dirty, v)
  }

  /** The rules that must run to bring `targets` up to date. */
  ghost function Needed(t: Topology, dirty: set<Vertex>, targets: set<Vertex>): set<Vertex> {
    set r | r in t.rules && exists n :: n in targets && Reaches(NeedEdges(t, dirty), n, r)
  }

  /** Every producer of a blocking input of `r` belongs to `rules`. */
  ghost predicate NeedsMet(t: Topology, dirty: set<Vertex>, rules: set<Vertex>, r: Vertex) {
    forall i :: i in Blockers(t, dirty, r) ==> t.child[i] in rules
  }

  /** A rule with no blocking input has a full counter, and conversely. */
  ghost function Startable(t: Topology, dirty: set<Vertex>, rules: set<Vertex>): set<Vertex> {
    set r | r in rules && Blockers(t, dirty, r) == {}
  }

  /** The rules that consume an output of `r`. */
  ghost function Consumers(t: Topology, outputs: seq<Vertex>): set<Vertex> {
    set o, p | o in outputs && o in t.parents && p in t.parents[o] :: p
  }

  datatype Work = NoWork | Work(rule: Vertex)

  class BuildPlan {
    const graph: Graph
    var rules: set<Vertex>
    var ready: set<Vertex>
    var numStarted: nat

    /** What planning relies on: exact counters, and a dirty node has a dirty rule. */
    ghost predicate Plannable()
      reads graph
    {
      && WellFormed(graph.topo) && graph.Counted() && graph.Exact()
      && forall n :: n in graph.topo.child && n in graph.dirty ==> graph.topo.child[n] in graph.dirty
    }

    ghost predicate Valid()
      reads this, graph
    {
      && rules <= graph.topo.rules
      && ready == Startable(graph.topo, graph.dirty, rules)
    }

    constructor (g: Graph, targets: set<Vertex>)
      requires WellFormed(g.topo) && g.Counted() && g.Exact() && Acyclic(g.topo) && targets <= g.topo.nodes
      requires forall n :: n in g.topo.child && n in g.dirty ==> g.topo.child[n] in g.dirty
      ensures graph == g && numStarted == 0
      ensures rules == Needed(g.topo, g.dirty, targets)
      ensures ready == Startable(g.topo, g.dirty, rules)
      ensures forall r :: r in rules ==> NeedsMet(g.topo, g.dirty, rules, r)
      ensures rules != {} ==> ready != {}
    {
      hide WellFormed, Needed, NeedsMet, Startable, TargetMet, Blockers, Ranked, Acyclic, Graph.Counted,
           Graph.Exact, Graph.Ready;
      graph, rules, ready, numStarted := g, {}, {}, 0;
      new;
      ghost var rank := SomeRank(g.topo);
      EmptyPlan(this, targets, rank);
      var left := targets;
      while left != {}
        invariant left <= targets && Plannable() && Valid() && numStarted == 0
        invariant forall r :: r in rules ==> NeedsMet(g.topo, g.dirty, rules, r)
        invariant forall n :: n in targets - left ==> TargetMet(g.topo, g.dirty, rules, n)
        invariant rules <= Needed(g.topo, g.dirty, targets)
        decreases left
      {
        var n :| n in left;
        ghost var before := rules;
        AddTarget(n, rank);
        left := left - {n};
        KeepNeeds(g.topo, g.dirty, before, rules);
        NeededFrom(g.topo, g.dirty, targets, n);
      }
      WholePlan(g.topo, g.dirty, targets, rules);
      SomeReady(g.topo, g.dirty, rank, rules);
    }

    /** The rule handed out is arbitrary among the ready ones: the set is ordered by address. */
    method FindWork() returns (work: Work)
      modifies this`ready, this`numStarted
      ensures old(ready) == {} ==> work == NoWork && ready == {} && numStarted == old(numStarted)
      ensures old(ready) != {} ==> work.Work? && work.rule in old(ready) && ready == old(ready) - {work.rule}
                                   && numStarted == old(numStarted) + 1
    {
      if ready == {} {
        return NoWork;
      }
      var r :| r in ready;
      ready := ready - {r};
      numStarted := numStarted + 1;
      return Work(r);
    }

    /** Every planned consumer of the outputs of `r` that nothing blocks any more becomes ready. */
    method NotifyRuleBuilt(r: Vertex)
      requires WellFormed(graph.topo) && graph.Counted() && graph.Exact()
      requires r in rules && rules <= graph.topo.rules && r !in ready && r in graph.topo.outputs
      modifies this`ready
      ensures ready == old(ready) + Startable(graph.topo, graph.dirty,
              rules * Consumers(graph.topo, graph.topo.outputs[r]))
    {
      hide WellFormed, Startable, Consumers, Blockers, Graph.Counted, Graph.Exact, Graph.Ready;
      RuleShape(graph.topo, r);
      var outputs := graph.topo.outputs[r];
      ConsumersGrow(graph.topo, outputs, 0);
      StartableGrow(graph.topo, graph.dirty, rules, {}, r);
      for k := 0 to |outputs|
        invariant ready == old(ready) + Startable(graph.topo, graph.dirty, rules * Consumers(graph.topo, outputs[..k]))
      {
        ConsumersGrow(graph.topo, outputs, k);
        NotifyParents(outputs[k], old(ready), Consumers(graph.topo, outputs[..k]));
      }
      assert outputs[..|outputs|] == outputs;
    }

    method NotifyParents(o: Vertex, ghost start: set<Vertex>, ghost before: set<Vertex>)
      requires WellFormed(graph.topo) && graph.Counted() && graph.Exact() && o in graph.topo.parents
      requires forall p :: p in graph.topo.parents[o] ==> p in graph.topo.rules
      requires ready == start + Startable(graph.topo, graph.dirty, rules * before)
      modifies this`ready
      ensures ready == start + Startable(graph.topo, graph.dirty, rules * (before + Range(graph.topo.parents[o])))
    {
      hide WellFormed, Startable, Blockers, Graph.Counted, Graph.Exact, Graph.Ready;
      var parents := graph.topo.parents[o];
      assert before + Range(parents[..0]) == before;
      for j := 0 to |parents|
        invariant ready == start + Startable(graph.topo, graph.dirty, rules * (before + Range(parents[..j])))
      {
        var p := parents[j];
        ReadyMeans(graph, p);
        StartableGrow(graph.topo, graph.dirty, rules, before + Range(parents[..j]), p);
        assert before + Range(parents[..j]) + {p} == before + Range(parents[..j + 1]);
        if graph.Ready(p) && p in rules {
          ready := ready + {p};
        }
      }
      assert parents[..|parents|] == parents;
    }

    method AddTarget(n: Vertex, ghost rank: map<Vertex, nat>)
      requires Plannable() && Valid() && Ranked(graph.topo, rank) && n in graph.topo.nodes && n in rank
      modifies this`rules, this`ready
      ensures Valid() && rules >= old(rules)
      ensures TargetMet(graph.topo, graph.dirty, rules, n)
      ensures forall r :: r in rules - old(rules) ==> NeedsMet(graph.topo, graph.dirty, rules, r)
      ensures rules - old(rules) <= Needed(graph.topo, graph.dirty, {n})
      decreases rank[n]
    {
      hide WellFormed, Needed, NeedsMet, Startable, TargetMet, Blockers, Ranked, Acyclic, Graph.Counted,
           Graph.Exact, Graph.Ready;
      NoNeed(graph.topo, graph.dirty, rules, n);
      if n !in graph.dirty {
        return;
      }
      if n !in graph.topo.child {
        return;
      }
      var r := graph.topo.child[n];
      if r in rules {
        return;
      }
      Producer(this, rank, n);
      assert r in graph.dirty;
      rules := rules + {r};
      if graph.Ready(r) {
        ready := ready + {r};
      } else {
        var inputs := graph.topo.inputs[r];
        for k := 0 to |inputs|
          invariant Valid() && rules >= old(rules) + {r}
          invariant forall q :: q in rules - old(rules) - {r} ==> NeedsMet(graph.topo, graph.dirty, rules, q)
          invariant forall i :: i in inputs[..k] ==> TargetMet(graph.topo, graph.dirty, rules, i)
          invariant rules - old(rules) <= Needed(graph.topo, graph.dirty, {n})
        {
          ghost var before := rules;
          AddTarget(inputs[k], rank);
          KeepNeeds(graph.topo, graph.dirty, before, rules);
          assert inputs[..k + 1] == inputs[..k] + [inputs[k]];
        }
        assert inputs[..|inputs|] == inputs;
      }
      InputsMet(graph.topo, graph.dirty, rules, r);
      NoNeed(graph.topo, graph.dirty, rules, n);
    }
  }

  lemma ConsumersGrow(t: Topology, outputs: seq<Vertex>, k: nat)
    requires WellFormed(t) && k < |outputs| && outputs[k] in t.nodes
    ensures Consumers(t, outputs[..0]) == {} && outputs[k] in t.parents
    ensures Consumers(t, outputs[..k + 1]) == Consumers(t, outputs[..k]) + Range(t.parents[outputs[k]])
    ensures forall p :: p in t.parents[outputs[k]] ==> p in t.rules
  {
    hide WellFormed;
    NodeShape(t, outputs[k]);
    assert outputs[..k + 1] == outputs[..k] + [outputs[k]];
  }

  lemma StartableGrow(t: Topology, d: set<Vertex>, rules: set<Vertex>, seen: set<Vertex>, p: Vertex)
    ensures Startable(t, d, rules * {}) == {}
    ensures Startable(t, d, rules * (seen + {p}))
            == Startable(t, d, rules * seen) + (if p in rules && Blockers(t, d, p) == {} then {p} else {})
  {
  }

  ghost predicate TargetMet(t: Topology, dirty: set<Vertex>, rules: set<Vertex>, n: Vertex) {
    n in t.child && n in dirty ==> t.child[n] in rules
  }

  lemma NoNeed(t: Topology, dirty: set<Vertex>, rules: set<Vertex>, n: Vertex)
    ensures TargetMet(t, dirty, rules, n) <==> !(n in t.child && n in dirty && t.child[n] !in rules)
  {
  }

  lemma KeepNeeds(t: Topology, dirty: set<Vertex>, rules: set<Vertex>, more: set<Vertex>)
    requires rules <= more
    ensures forall r :: NeedsMet(t, dirty, rules, r) ==> NeedsMet(t, dirty, more, r)
    ensures forall n :: TargetMet(t, dirty, rules, n) ==> TargetMet(t, dirty, more, n)
  {
  }

  lemma InputsMet(t: Topology, dirty: set<Vertex>, rules: set<Vertex>, r: Vertex)
    requires r in t.inputs
    requires Blockers(t, dirty, r) == {} || forall i :: i in t.inputs[r] ==> TargetMet(t, dirty, rules, i)
    ensures NeedsMet(t, dirty, rules, r)
  {
  }

  /** What AddTarget needs to know about the rule producing a dirty node. */
  lemma Producer(plan: BuildPlan, rank: map<Vertex, nat>, n: Vertex)
    requires plan.Plannable() && plan.Valid() && Ranked(plan.graph.topo, rank)
    requires n in plan.graph.topo.nodes && n in plan.graph.topo.child && n in plan.graph.dirty && n in rank
    ensures var t, d, r, rules := plan.graph.topo, plan.graph.dirty, plan.graph.topo.child[n], plan.rules;
            && r in t.rules && r in d && r in t.inputs && r in plan.graph.numReady
            && (plan.graph.Ready(r) <==> Blockers(t, d, r) == {})
            && Startable(t, d, rules + {r}) == plan.ready + (if Blockers(t, d, r) == {} then {r} else {})
            && r in Needed(t, d, {n})
            && forall i :: i in t.inputs[r] ==>
                 i in t.nodes && i in rank && rank[i] < rank[n] && Needed(t, d, {i}) <= Needed(t, d, {n})
  {
    hide Needed, Ranked, WellFormed, Graph.Counted, Graph.Exact;
    var g, t, d, r := plan.graph, plan.graph.topo, plan.graph.dirty, plan.graph.topo.child[n];
    NodeShape(t, n);
    RuleShape(t, r);
    ReadyMeans(g, r);
    RankStep(t, rank, r, n);
    NeededProducer(t, d, n);
    forall i | i in t.inputs[r]
      ensures i in t.nodes && i in rank && rank[i] < rank[n] && Needed(t, d, {i}) <= Needed(t, d, {n})
    {
      NodeShape(t, i);
      RankStep(t, rank, i, r);
      NeededInput(t, d, n, i);
    }
  }

  lemma ReadyMeans(g: Graph, r: Vertex)
    requires WellFormed(g.topo) && g.Counted() && g.Exact() && r in g.topo.rules
    ensures r in g.numReady && r in g.topo.inputs && (g.Ready(r) <==> Blockers(g.topo, g.dirty, r) == {})
  {
    hide WellFormed, Graph.Exact;
    RuleShape(g.topo, r);
    ExactCounter(g, r);
    if !g.Ready(r) {
      var i :| i in g.topo.inputs[r] && i in g.topo.child && i in g.dirty;
      assert i in Blockers(g.topo, g.dirty, r);
    }
  }

  lemma NeededProducer(t: Topology, d: set<Vertex>, n: Vertex)
    requires n in t.child && n in d && t.child[n] in t.rules
    ensures t.child[n] in Needed(t, d, {n})
  {
    var g := NeedEdges(t, d);
    assert Step(g, n, t.child[n]);
    ReachesSelf(g, t.child[n]);
    ReachesStepFirst(g, n, t.child[n], t.child[n]);
  }

  lemma NeededInput(t: Topology, d: set<Vertex>, n: Vertex, i: Vertex)
    requires WellFormed(t) && n in t.nodes && n in t.child && n in d
    requires t.child[n] in t.inputs && i in t.inputs[t.child[n]] && i in t.nodes
    ensures Needed(t, d, {i}) <= Needed(t, d, {n})
  {
    hide WellFormed;
    var g, r := NeedEdges(t, d), t.child[n];
    NodeShape(t, i);
    NodeShape(t, n);
    RuleShape(t, r);
    forall q | q in Needed(t, d, {i}) ensures q in Needed(t, d, {n}) {
      var w := ReachesSplitFirst(g, i, q);
      assert Step(g, r, i) && Step(g, n, r);
      ReachesStepFirst(g, r, i, q);
      ReachesStepFirst(g, n, r, q);
    }
  }

  lemma NeededFrom(t: Topology, d: set<Vertex>, targets: set<Vertex>, n: Vertex)
    requires n in targets
    ensures Needed(t, d, {n}) <= Needed(t, d, targets)
  {
  }

  /** What a target needs, as the recursive search says: nothing if it is clean or a source, otherwise the
      rule that produces it and what the inputs of that rule need. */
  lemma NeededUnfold(t: Topology, d: set<Vertex>, n: Vertex)
    requires WellFormed(t) && n in t.nodes
    ensures n !in t.child || n !in d ==> Needed(t, d, {n}) == {}
    ensures n in t.child && n in d ==>
              && t.child[n] in t.inputs
              && Needed(t, d, {n}) == {t.child[n]} + Needed(t, d, set i | i in t.inputs[t.child[n]])
  {
    hide WellFormed, Reaches;
    var g := NeedEdges(t, d);
    NodeShape(t, n);
    if n !in t.child || n !in d {
      forall q | q in Needed(t, d, {n}) ensures false {
        RuleShape(t, q);
        var w := ReachesSplitFirst(g, n, q);
      }
    } else {
      var r := t.child[n];
      RuleShape(t, r);
      NeededProducer(t, d, n);
      forall q | q in Needed(t, d, {n}) && q != r ensures q in Needed(t, d, set i | i in t.inputs[r]) {
        RuleShape(t, q);
        var w := ReachesSplitFirst(g, n, q);
        var i := ReachesSplitFirst(g, r, q);
      }
      forall q | q in Needed(t, d, set i | i in t.inputs[r]) ensures q in Needed(t, d, {n}) {
        var i :| i in t.inputs[r] && Reaches(g, i, q);
        NodeShape(t, i);
        NeededInput(t, d, n, i);
        assert q in Needed(t, d, {i});
      }
    }
  }

  lemma EmptyPlan(plan: BuildPlan, targets: set<Vertex>, rank: map<Vertex, nat>)
    requires WellFormed(plan.graph.topo) && plan.graph.Counted() && plan.graph.Exact()
    requires forall n :: n in plan.graph.topo.child && n in plan.graph.dirty ==>
             plan.graph.topo.child[n] in plan.graph.dirty
    requires plan.rules == {} && plan.ready == {} && Ranked(plan.graph.topo, rank) && targets <= plan.graph.topo.nodes
    ensures plan.Plannable() && plan.Valid() && targets <= rank.Keys
  {
    hide WellFormed, Graph.Counted, Graph.Exact;
  }

  /** A set of needed rules that leaves no need unmet is the whole set of needed rules. */
  lemma WholePlan(t: Topology, d: set<Vertex>, targets: set<Vertex>, rules: set<Vertex>)
    requires WellFormed(t) && targets <= t.nodes && rules <= Needed(t, d, targets)
    requires forall r :: r in rules ==> NeedsMet(t, d, rules, r)
    requires forall n :: n in targets ==> TargetMet(t, d, rules, n)
    ensures rules == Needed(t, d, targets)
  {
    hide WellFormed;
    var g := NeedEdges(t, d);
    var met := rules + set n | n in t.nodes && TargetMet(t, d, rules, n);
    forall u, v | u in met && Step(g, u, v) ensures v in met {
      if u in rules {
        RuleShape(t, u);
      } else {
        NodeShape(t, u);
      }
    }
    forall r | r in Needed(t, d, targets) ensures r in rules {
      var n :| n in targets && Reaches(g, n, r);
      ClosedContains(g, met, n, r);
      RuleShape(t, r);
    }
  }

  lemma {:induction false} Lowest(s: set<Vertex>, rank: map<Vertex, nat>) returns (r: Vertex)
    requires s != {} && s <= rank.Keys
    ensures r in s && forall q :: q in s ==> rank[r] <= rank[q]
  {
    r :| r in s;
    if s != {r} {
      var q := Lowest(s - {r}, rank);
      if rank[q] < rank[r] {
        r := q;
      }
    }
  }

  /** On an acyclic graph a non-empty set of rules whose needs are met inside the set contains a
      rule that nothing blocks. */
  lemma SomeReady(t: Topology, d: set<Vertex>, rank: map<Vertex, nat>, rules: set<Vertex>)
    requires WellFormed(t) && Ranked(t, rank) && rules <= t.rules
    requires forall r :: r in rules ==> NeedsMet(t, d, rules, r)
    ensures rules != {} ==> Startable(t, d, rules) != {}
  {
    hide WellFormed, Ranked;
    if rules != {} {
      RanksCover(t, rank);
      var r := Lowest(rules, rank);
      RuleShape(t, r);
      forall i | i in Blockers(t, d, r) ensures false {
        NodeShape(t, i);
        RuleShape(t, t.child[i]);
        RankStep(t, rank, i, r);
        RankStep(t, rank, t.child[i], i);
      }
      assert r in Startable(t, d, rules);
    }
  }
}
