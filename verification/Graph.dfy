/** Dirty tracking (src/graph.cpp): the states of nodes and rules and the counter of ready
    inputs that each rule keeps. */
module DirtyTracking {
  import opened Reachability
  import opened Topology

  /** The pairs (rule, input) in which the input is generated and belongs to `s`: when `s` is
      the set of dirty vertices these are the inputs a rule has to wait for. */
  ghost function Waits(t: Topology, s: set<Vertex>): set<(Vertex, Vertex)> {
    set r, i | r in t.inputs && i in t.inputs[r] && i in t.child && i in s :: (r, i)
  }

  ghost function NotBlocked(ins: seq<Vertex>, blocked: set<(Vertex, Vertex)>, r: Vertex): set<Vertex> {
    set i | i in ins && (r, i) !in blocked
  }

  /** The inputs of `r` that the design calls ready: source files and up-to-date nodes. */
  ghost function ReadyInputs(t: Topology, dirty: set<Vertex>, r: Vertex): set<Vertex>
    requires r in t.inputs
  {
    set i | i in t.inputs[r] && (IsSource(t, i) || i !in dirty)
  }

  /** `dirty` holds the nodes and rules whose `state_` is OUT_OF_DATE, `lazy` the nodes whose
      `isLazyFetched_` flag is set, `numReady` the `numInputsReady_` counters, `stamp` the timestamps.  The ghost field
      `blocked` names the inputs that each counter currently leaves out. */
  class Graph {
    var topo: Topology
    var dirty: set<Vertex>
    var lazy: set<Vertex>
    var numReady: map<Vertex, nat>
    var stamp: map<Vertex, int>
    ghost var blocked: set<(Vertex, Vertex)>

    /** Every counter is the number of inputs that are not currently blocked. */
    ghost predicate Counted()
      reads this`topo, this`numReady, this`blocked
    {
      && numReady.Keys == topo.inputs.Keys
      && forall r :: r in numReady ==> numReady[r] == |NotBlocked(topo.inputs[r], blocked, r)|
    }

    /** Every counter is the number of inputs that are sources or up to date. */
    ghost predicate Exact()
      reads this`topo, this`dirty, this`blocked
    {
      blocked == Waits(topo, dirty)
    }

    constructor (t: Topology)
      requires WellFormed(t)
      ensures topo == t && dirty == {} && lazy == {}
      ensures stamp == map v | v in t.nodes + t.rules :: 0
      ensures Counted() && Exact()
    {
      topo, dirty, lazy, blocked := t, {}, {}, {};
      numReady := map r | r in t.rules :: |t.inputs[r]|;
      stamp := map v | v in t.nodes + t.rules :: 0;
      new;
      forall r | r in t.rules ensures |NotBlocked(t.inputs[r], {}, r)| == |t.inputs[r]| {
        assert NotBlocked(t.inputs[r], {}, r) == Range(t.inputs[r]);
        RangeSize(t.inputs[r]);
      }
    }

    predicate Ready(r: Vertex)
      reads this
      requires r in numReady && r in topo.inputs
    {
      numReady[r] == |topo.inputs[r]|
    }

    method MarkInputDirty(r: Vertex, ghost i: Vertex)
      requires Counted() && r in topo.inputs && i in topo.inputs[r] && (r, i) !in blocked
      modifies this`numReady, this`blocked
      ensures Counted()
      ensures blocked == old(blocked) + {(r, i)}
      ensures old(numReady[r]) > 0 && numReady == old(numReady)[r := old(numReady[r]) - 1]
    {
      assert i in NotBlocked(topo.inputs[r], blocked, r);
      numReady := numReady[r := numReady[r] - 1];
      blocked := blocked + {(r, i)};
      assert NotBlocked(topo.inputs[r], blocked, r) == old(NotBlocked(topo.inputs[r], blocked, r)) - {i};
      forall q | q in numReady && q != r ensures numReady[q] == |NotBlocked(topo.inputs[q], blocked, q)| {
        assert NotBlocked(topo.inputs[q], blocked, q) == old(NotBlocked(topo.inputs[q], blocked, q));
      }
    }

    method SetNodeState(n: Vertex, outOfDate: bool)
      modifies this`dirty, this`lazy
      ensures dirty == if outOfDate then old(dirty) + {n} else old(dirty) - {n}
      ensures lazy == old(lazy) - {n}
    {
      dirty := if outOfDate then dirty + {n} else dirty - {n};
      lazy := lazy - {n};
    }

    method SetRuleState(r: Vertex, outOfDate: bool)
      modifies this`dirty
      ensures dirty == if outOfDate then old(dirty) + {r} else old(dirty) - {r}
    {
      dirty := if outOfDate then dirty + {r} else dirty - {r};
    }

    /** Node::markDirty makes dirty exactly what was dirty plus everything above the node, and
        takes every newly dirty generated input out of its rule's counter exactly once. */
    method MarkNodeDirty(n: Vertex, ghost rank: map<Vertex, nat>)
      requires WellFormed(topo) && Counted() && Ranked(topo, rank) && n in topo.nodes
      requires lazy <= topo.nodes && AgreesOn(topo, blocked, dirty, Above(topo, n))
      modifies this`dirty, this`lazy, this`numReady, this`blocked
      ensures Counted()
      ensures dirty == old(dirty) + Above(topo, n)
      ensures lazy == old(lazy) - Above(topo, n)
      ensures blocked == old(blocked) + Waits(topo, Above(topo, n))
      decreases Top(topo, rank) - rank[n], 1
    {
      hide *;
      ghost var d0, l0, b0 := dirty, lazy, blocked;
      UnfoldNode(topo, n);
      var parents := topo.parents[n];
      TraversedList(topo, parents, n);
      OnInputNone(topo, d0, n, parents);
      for k := 0 to |parents|
        invariant Counted()
        invariant dirty == d0 + AboveAll(topo, parents[..k])
        invariant lazy == l0 - AboveAll(topo, parents[..k])
        invariant blocked == b0 + Waits(topo, AboveAll(topo, parents[..k])) + OnInput(topo, d0, n, parents[..k])
      {
        var p := parents[k];
        RankStep(topo, rank, n, p);
        ExtendLoop(topo, parents, k);
        NodeStep(topo, rank, b0, d0, n, parents, k, Above(topo, n));
        MarkRuleDirty(p, rank);
        if n in topo.child && n !in dirty {
          MarkInputDirty(p, n);
        }
      }
      assert parents[..|parents|] == parents;
      SetNodeState(n, true);
      FinishNode(topo, b0, d0, n);
    }

    /** Rule::markDirty. */
    method MarkRuleDirty(r: Vertex, ghost rank: map<Vertex, nat>)
      requires WellFormed(topo) && Counted() && Ranked(topo, rank) && r in topo.rules
      requires lazy <= topo.nodes && AgreesOn(topo, blocked, dirty, Above(topo, r))
      modifies this`dirty, this`lazy, this`numReady, this`blocked
      ensures Counted()
      ensures dirty == old(dirty) + Above(topo, r)
      ensures lazy == old(lazy) - Above(topo, r)
      ensures blocked == old(blocked) + Waits(topo, Above(topo, r))
      decreases Top(topo, rank) - rank[r], 1
    {
      hide *;
      ghost var d0, l0, b0, all := dirty, lazy, blocked, Above(topo, r);
      UnfoldRule(topo, r);
      var outputs := topo.outputs[r];
      TraversedList(topo, outputs, r);
      for k := 0 to |outputs|
        invariant Counted()
        invariant dirty == d0 + AboveAll(topo, outputs[..k])
        invariant lazy == l0 - AboveAll(topo, outputs[..k])
        invariant blocked == b0 + Waits(topo, AboveAll(topo, outputs[..k]))
      {
        RankStep(topo, rank, r, outputs[k]);
        ExtendLoop(topo, outputs, k);
        AgreesLater(topo, b0, d0, all, AboveAll(topo, outputs[..k]), {}, Above(topo, outputs[k]));
        MarkNodeDirty(outputs[k], rank);
      }
      assert outputs[..|outputs|] == outputs;
      SetRuleState(r, true);
    }
  }

  /** The counters agree with the states as far as the inputs in `s` are concerned. */
  ghost predicate AgreesOn(t: Topology, blocked: set<(Vertex, Vertex)>, dirty: set<Vertex>, s: set<Vertex>) {
    blocked * Waits(t, s) == Waits(t, dirty * s)
  }

  /** The decrements that Node::markDirty itself makes for the parents `ps`. */
  ghost function OnInput(t: Topology, dirty: set<Vertex>, n: Vertex, ps: seq<Vertex>): set<(Vertex, Vertex)> {
    if n in t.child && n !in dirty then set r | r in ps :: (r, n) else {}
  }

  lemma OnInputNone(t: Topology, dirty: set<Vertex>, n: Vertex, ps: seq<Vertex>)
    ensures OnInput(t, dirty, n, ps[..0]) == {}
  {
  }

  lemma AgreesLater(t: Topology, b0: set<(Vertex, Vertex)>, d0: set<Vertex>, all: set<Vertex>,
                    done: set<Vertex>, extra: set<(Vertex, Vertex)>, s: set<Vertex>)
    requires AgreesOn(t, b0, d0, all) && s <= all
    requires forall r, i :: (r, i) in extra ==> i !in s
    ensures AgreesOn(t, b0 + Waits(t, done) + extra, d0 + done, s)
    ensures extra == {} ==> AgreesOn(t, b0 + Waits(t, done), d0 + done, s)
  {
    forall r, i | (r, i) in Waits(t, s)
      ensures (r, i) in b0 + Waits(t, done) + extra <==> i in d0 + done
    {
      assert (r, i) in Waits(t, all);
      assert (r, i) in b0 <==> (r, i) in Waits(t, d0 * all);
    }
    assert extra == {} ==> b0 + Waits(t, done) + extra == b0 + Waits(t, done);
  }

  lemma UnfoldRule(t: Topology, r: Vertex)
    requires WellFormed(t) && r in t.rules
    ensures r in t.outputs && UpList(t, r) == t.outputs[r]
    ensures r !in t.nodes && r !in t.child
    ensures Above(t, r) == {r} + AboveAll(t, t.outputs[r])
    ensures forall o :: o in t.outputs[r] ==> o in t.nodes
  {
    hide WellFormed, Above, AboveAll;
    RuleShape(t, r);
    AboveUnfold(t, r);
  }

  lemma UnfoldNode(t: Topology, n: Vertex)
    requires WellFormed(t) && n in t.nodes
    ensures n in t.parents && UpList(t, n) == t.parents[n]
    ensures Above(t, n) == {n} + AboveAll(t, t.parents[n])
    ensures NoDuplicates(t.parents[n])
    ensures forall p :: p in t.parents[n] ==> p in t.rules && p in t.inputs && n in t.inputs[p]
  {
    AboveUnfold(t, n);
  }

  /** Facts about an empty and about a single member of the traversed list. */
  lemma TraversedList(t: Topology, vs: seq<Vertex>, v: Vertex)
    ensures AboveAll(t, vs[..0]) == {} && Waits(t, {}) == {}
    ensures v !in t.child ==> Waits(t, {v} + AboveAll(t, vs)) == Waits(t, AboveAll(t, vs))
    ensures forall w :: w in vs ==> Above(t, w) <= AboveAll(t, vs)
  {
  }

  lemma NotAbove(t: Topology, rank: map<Vertex, nat>, n: Vertex, k: nat)
    requires Ranked(t, rank) && k < |UpList(t, n)|
    ensures n !in AboveAll(t, UpList(t, n)[..k]) + Above(t, UpList(t, n)[k])
  {
    forall q | q in UpList(t, n) ensures n !in Above(t, q) {
      RankStep(t, rank, n, q);
      if n in Above(t, q) {
        AboveRank(t, rank, q, n);
      }
    }
  }

  /** One iteration of the loop of Node::markDirty: the counters still agree above the next
      parent `p`, and `n` has not yet been taken out of the counter of `p`. */
  lemma NodeStep(t: Topology, rank: map<Vertex, nat>, b0: set<(Vertex, Vertex)>, d0: set<Vertex>, n: Vertex,
                 ps: seq<Vertex>, k: nat, all: set<Vertex>)
    requires Ranked(t, rank) && ps == UpList(t, n) && k < |ps| && NoDuplicates(ps)
    requires n in all && Above(t, ps[k]) <= all && AgreesOn(t, b0, d0, all)
    requires ps[k] in t.inputs && n in t.inputs[ps[k]]
    ensures var p := ps[k];
            var done, own := AboveAll(t, ps[..k]), OnInput(t, d0, n, ps[..k]);
            && AgreesOn(t, b0 + Waits(t, done) + own, d0 + done, Above(t, p))
            && n !in done + Above(t, p)
            && (n in t.child && n !in d0 ==> (p, n) !in b0 + Waits(t, done) + own + Waits(t, Above(t, p)))
            && OnInput(t, d0, n, ps[..k + 1])
               == own + (if n in t.child && n !in d0 then {(p, n)} else {})
  {
    hide Above, AboveAll, Ranked, UpList;
    var p := ps[k];
    var done, own := AboveAll(t, ps[..k]), OnInput(t, d0, n, ps[..k]);
    NotAbove(t, rank, n, k);
    AgreesLater(t, b0, d0, all, done, own, Above(t, p));
    assert ps[..k + 1] == ps[..k] + [p];
    if n in t.child && n !in d0 {
      assert (p, n) in Waits(t, all);
      assert (p, n) in b0 ==> (p, n) in Waits(t, d0 * all);
    }
  }

  lemma FinishNode(t: Topology, b0: set<(Vertex, Vertex)>, d0: set<Vertex>, n: Vertex)
    requires WellFormed(t) && n in t.nodes && AgreesOn(t, b0, d0, Above(t, n))
    ensures b0 + Waits(t, AboveAll(t, t.parents[n])) + OnInput(t, d0, n, t.parents[n])
            == b0 + Waits(t, Above(t, n))
  {
    hide Above, AboveAll;
    UnfoldNode(t, n);
    WaitsUnion(t, {n}, AboveAll(t, t.parents[n]));
    forall r, i | (r, i) in Waits(t, {n})
      ensures (r, i) in b0 || (r, i) in OnInput(t, d0, n, t.parents[n])
    {
      assert i == n && (n in d0 ==> (r, n) in Waits(t, d0 * Above(t, n)));
    }
  }

  lemma ExtendLoop(t: Topology, vs: seq<Vertex>, k: nat)
    requires k < |vs|
    ensures AboveAll(t, vs[..k + 1]) == AboveAll(t, vs[..k]) + Above(t, vs[k])
    ensures Waits(t, AboveAll(t, vs[..k + 1])) == Waits(t, AboveAll(t, vs[..k])) + Waits(t, Above(t, vs[k]))
  {
    AboveAllExtend(t, vs, k);
    WaitsUnion(t, AboveAll(t, vs[..k]), Above(t, vs[k]));
  }

  lemma WaitsUnion(t: Topology, a: set<Vertex>, b: set<Vertex>)
    ensures Waits(t, a + b) == Waits(t, a) + Waits(t, b)
  {
  }

  /** With exact counters, `numReady` is what the consistency checker recomputes. */
  lemma ExactCounter(g: Graph, r: Vertex)
    requires WellFormed(g.topo) && g.Counted() && g.Exact() && r in g.topo.rules
    ensures g.numReady[r] == |ReadyInputs(g.topo, g.dirty, r)|
    ensures g.Ready(r) <==> forall i :: i in g.topo.inputs[r] && i in g.topo.child ==> i !in g.dirty
  {
    hide WellFormed;
    var t := g.topo;
    RuleShape(t, r);
    assert NotBlocked(t.inputs[r], g.blocked, r) == ReadyInputs(t, g.dirty, r);
    RangeSize(t.inputs[r]);
    SubsetSize(ReadyInputs(t, g.dirty, r), Range(t.inputs[r]));
    if forall i :: i in t.inputs[r] && i in t.child ==> i !in g.dirty {
      assert ReadyInputs(t, g.dirty, r) == Range(t.inputs[r]);
    }
  }
}
