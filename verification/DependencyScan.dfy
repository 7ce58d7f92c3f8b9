/** The initial scan (src/graph_dependency_scan.cpp) of a graph without depfiles. */
module DependencyScan {
  import opened Reachability
  import opened Topology
  import opened DirtyTracking
  import opened Hashing

  type Stamps = map<Vertex, int>

  /** A rule is out of date by itself when an input is newer than one of its outputs. */
  ghost predicate Outdated(t: Topology, stamp: Stamps, r: Vertex) {
    && r in t.inputs && r in t.outputs && !IsPhony(t, r)
    && exists i, o :: i in t.inputs[r] && o in t.outputs[r] && Newer(stamp, i, o)
  }

  predicate Newer(stamp: Stamps, i: Vertex, o: Vertex) {
    i in stamp && o in stamp && stamp[i] > stamp[o]
  }

  /** What has to be rebuilt: everything at or above a rule that is out of date by itself. */
  ghost function Stale(t: Topology, stamp: Stamps): set<Vertex> {
    set v | v in t.nodes + t.rules && exists r :: r in t.rules && Outdated(t, stamp, r) && v in Above(t, r)
  }

  /** The source files that make one of the rules `rs` out of date by itself. */
  ghost function NewSources(t: Topology, stamp: Stamps, rs: set<Vertex>): set<Vertex> {
    set s | s in t.nodes && IsSource(t, s)
            && exists r, o :: r in rs && r in t.inputs && r in t.outputs && !IsPhony(t, r)
                              && s in t.inputs[r] && o in t.outputs[r] && Newer(stamp, s, o)
  }

  /** Nodes produced by a phony rule are not looked up on disk. */
  predicate Statted(t: Topology, n: Vertex) {
    n !in t.child || !IsPhony(t, t.child[n])
  }

  function Stats(t: Topology, stamp: Stamps, stat: map<Vertex, int>): Stamps
    requires t.nodes <= stat.Keys
  {
    map v | v in stamp :: if v in t.nodes && Statted(t, v) then stat[v] else stamp[v]
  }

  /** Sources and the outputs of rules with a command have the times of their files, the outputs of
      rules without one and the rules themselves keep what they had. */
  ghost predicate LookedUp(t: Topology, before: Stamps, after: Stamps, stat: map<Vertex, int>) {
    && after.Keys == before.Keys
    && (forall n :: n in t.nodes && n !in t.child ==> n in after && n in stat && after[n] == stat[n])
    && (forall r, o :: r in t.outputs && r in t.command && o in t.outputs[r] ==>
          && o in before && o in after && o in stat
          && after[o] == if t.command[r] != "" then stat[o] else before[o])
    && (forall r :: r in t.rules ==> r in before && r in after && after[r] == before[r])
  }

  lemma StatsRead(t: Topology, stamp: Stamps, stat: map<Vertex, int>)
    requires WellFormed(t) && t.nodes <= stat.Keys && stamp.Keys == t.nodes + t.rules
    ensures LookedUp(t, stamp, Stats(t, stamp, stat), stat)
  {
    hide WellFormed;
    SameKeys(t);
    forall r | r in t.rules
      ensures r !in t.nodes && r in t.outputs && r in t.command
      ensures forall o :: o in t.outputs[r] ==> o in t.nodes && o in t.child && t.child[o] == r
    {
      RuleShape(t, r);
    }
  }

  /** The oldest of a rule's outputs. */
  function Oldest(outputs: seq<Vertex>, stamp: Stamps): (o: Vertex)
    requires outputs != [] && forall v :: v in outputs ==> v in stamp
    ensures o in outputs && forall v :: v in outputs ==> stamp[o] <= stamp[v]
  {
    if |outputs| == 1 then outputs[0] else
      var rest := Oldest(outputs[1..], stamp);
      if stamp[rest] < stamp[outputs[0]] then rest else outputs[0]
  }

  /** The recursive reading of staleness: a rule is stale iff it is outdated by itself or one of
      its inputs is stale, a node iff it is generated by a stale rule. */
  lemma StaleUnfold(t: Topology, stamp: Stamps, v: Vertex)
    requires WellFormed(t)
    ensures v in t.rules ==>
              (v in Stale(t, stamp) <==> Outdated(t, stamp, v) || exists i :: i in t.inputs[v] && i in Stale(t, stamp))
    ensures v in t.nodes ==>
              (v in Stale(t, stamp) <==> v in t.child && t.child[v] in Stale(t, stamp))
  {
    hide Graph.Counted, WellFormed, Outdated;
    if v in t.rules {
      RuleShape(t, v);
      if v in Stale(t, stamp) && !Outdated(t, stamp, v) {
        var w := StaleBelow(t, stamp, v);
      }
      if Outdated(t, stamp, v) {
        AboveSelf(t, v);
      }
      forall i | i in t.inputs[v] && i in Stale(t, stamp) ensures v in Stale(t, stamp) {
        NodeShape(t, i);
        StaleAbove(t, stamp, i, v);
      }
    } else if v in t.nodes {
      NodeShape(t, v);
      if v in Stale(t, stamp) {
        var w := StaleBelow(t, stamp, v);
      }
      if v in t.child && t.child[v] in Stale(t, stamp) {
        RuleShape(t, t.child[v]);
        StaleAbove(t, stamp, t.child[v], v);
      }
    }
  }

  lemma StaleAbove(t: Topology, stamp: Stamps, w: Vertex, v: Vertex)
    requires WellFormed(t) && w in Stale(t, stamp) && v in UpList(t, w)
    ensures v in Stale(t, stamp)
  {
    hide Outdated;
    var r :| r in t.rules && Outdated(t, stamp, r) && w in Above(t, r);
    UpStep(t, w, v);
    ReachesStepLast(UpEdges(t), r, w, v);
    assert v in Above(t, r);
  }

  /** A stale vertex that is not outdated by itself has a stale vertex directly below it. */
  lemma StaleBelow(t: Topology, stamp: Stamps, v: Vertex) returns (w: Vertex)
    requires WellFormed(t) && v in Stale(t, stamp) && !(v in t.rules && Outdated(t, stamp, v))
    ensures w in Stale(t, stamp)
    ensures v in t.nodes ==> v in t.child && w == t.child[v]
    ensures v in t.rules ==> v in t.inputs && w in t.inputs[v]
  {
    hide Outdated, WellFormed, UpEdges;
    var r :| r in t.rules && Outdated(t, stamp, r) && v in Above(t, r);
    w := ReachesSplitLast(UpEdges(t), r, v);
    UpStep(t, w, v);
    assert w in Above(t, r);
    if w in t.nodes {
      NodeShape(t, w);
      RuleShape(t, v);
    } else {
      RuleShape(t, w);
      NodeShape(t, v);
    }
  }

  /** The dirty set a traversal leaves once it has finished with the vertices `done`. */
  ghost function DirtyAfter(t: Topology, stamp: Stamps, done: set<Vertex>): set<Vertex> {
    Stale(t, stamp) * done + NewSources(t, stamp, done)
  }

  /** The inputs that the finished rules wait for. */
  ghost function WaitsAfter(t: Topology, stamp: Stamps, done: set<Vertex>): set<(Vertex, Vertex)> {
    set w | w in Waits(t, Stale(t, stamp)) && w.0 in done
  }

  /** Every rule that is entered but not finished is strictly above `v`. */
  ghost predicate Entered(t: Topology, rank: map<Vertex, nat>, unfinished: set<Vertex>, v: Vertex) {
    && Ranked(t, rank) && v in rank
    && forall r :: r in unfinished ==> r in rank && rank[r] > rank[v]
  }

  /** A scan in progress: `seen` are the rules entered, `done` the vertices finished, and
      `open` the decrements already made for rules that are entered but not finished. */
  class GraphDependencyScan {
    const graph: Graph
    const hashes: GraphHash
    var seen: set<Vertex>
    ghost var done: set<Vertex>
    ghost var open: set<(Vertex, Vertex)>

    constructor (g: Graph, h: GraphHash)
      ensures graph == g && hashes == h && seen == {} && done == {} && open == {}
    {
      graph, hashes, seen, done, open := g, h, {}, {}, {};
    }

    /** Exactly the finished vertices `done` have their hashes. */
    ghost predicate Hashed(done: set<Vertex>)
      reads graph`topo, hashes
    {
      && hashes.topo == graph.topo && (forall x :: hashes.sha(x) != "")
      && Complete(graph.topo, hashes.hash, hashes.hashDep) && DownClosed(graph.topo, done)
      && HoldOutside(graph.topo, hashes.sha, hashes.content, hashes.hash, hashes.hashDep,
          graph.topo.nodes + graph.topo.rules - done)
      && (forall n :: n in graph.topo.nodes ==> (hashes.hash[n] == "" <==> n !in done))
    }

    ghost predicate Valid()
      reads this, graph
    {
      && WellFormed(graph.topo)
      && graph.Counted()
      && graph.lazy == {}
      && graph.stamp.Keys == graph.topo.nodes + graph.topo.rules
      && done <= graph.topo.nodes + graph.topo.rules
      && done * graph.topo.rules <= seen <= graph.topo.rules
      && DownClosed(graph.topo, done)
      && graph.dirty == DirtyAfter(graph.topo, graph.stamp, done)
      && graph.blocked == WaitsAfter(graph.topo, graph.stamp, done) + open
      && (forall r, i :: (r, i) in open ==> r in seen - done)
    }

    method CompareInputsWithOutputs(r: Vertex) returns (newer: bool)
      requires WellFormed(graph.topo) && r in graph.topo.rules && !IsPhony(graph.topo, r)
      requires graph.stamp.Keys == graph.topo.nodes + graph.topo.rules && graph.lazy == {}
      modifies graph`dirty, graph`lazy
      ensures newer <==> Outdated(graph.topo, graph.stamp, r)
      ensures graph.dirty == old(graph.dirty) + NewSources(graph.topo, graph.stamp, {r}) && graph.lazy == {}
    {
      hide Graph.Counted, WellFormed, Outdated, NewSources, IsPhony;
      RuleShape(graph.topo, r);
      var inputs, stamp := graph.topo.inputs[r], graph.stamp;
      var oldest := Oldest(graph.topo.outputs[r], stamp);
      newer := false;
      ghost var marked: set<Vertex> := {};
      for k := 0 to |inputs|
        invariant newer <==> exists i :: i in inputs[..k] && stamp[i] > stamp[oldest]
        invariant marked == set s | s in inputs[..k] && IsSource(graph.topo, s) && stamp[s] > stamp[oldest]
        invariant graph.dirty == old(graph.dirty) + marked && graph.lazy == {}
      {
        var input := inputs[k];
        assert inputs[..k + 1] == inputs[..k] + [input];
        if stamp[input] > stamp[oldest] {
          if IsSource(graph.topo, input) {
            graph.SetNodeState(input, true);
            marked := marked + {input};
          }
          newer := true;
        }
      }
      assert inputs[..|inputs|] == inputs;
      OldestDecides(graph.topo, stamp, r, oldest);
    }

    method UpdateNode(n: Vertex, ghost rank: map<Vertex, nat>) returns (d: bool)
      requires Valid() && Hashed(done) && n in graph.topo.nodes && Entered(graph.topo, rank, seen - done, n)
      modifies this, graph`dirty, graph`lazy, graph`numReady, graph`blocked, hashes`hash, hashes`hashDep
      ensures Valid() && Hashed(done) && open == old(open) && seen - done == old(seen - done)
      ensures done >= old(done) + {n}
      ensures d <==> n in Stale(graph.topo, graph.stamp)
      decreases rank[n], 1
    {
      hide Graph.Counted, WellFormed, Ranked, Stale, DirtyAfter, WaitsAfter, DownClosed, Hashed;
      NodeFacts(graph.topo, graph.stamp, rank, n);
      d := false;
      if n in graph.topo.child {
        d := UpdateRule(graph.topo.child[n], rank);
        if d {
          graph.SetNodeState(n, true);
        }
      }
      LeaveNode(graph.topo, graph.stamp, done, n);
      HashNode(n, rank);
      done := done + {n};
    }

    /** A node without a hash gets one. */
    method HashNode(n: Vertex, ghost rank: map<Vertex, nat>)
      requires Hashed(done) && WellFormed(graph.topo) && Ranked(graph.topo, rank) && n in graph.topo.nodes
      requires n in graph.topo.child ==> graph.topo.child[n] in done
      modifies hashes`hash, hashes`hashDep
      ensures Hashed(done + {n})
    {
      hide WellFormed, Ranked, HoldOutside, Local, DownClosed;
      NodeShape(graph.topo, n);
      ClosedWith(graph.topo, done, n);
      if hashes.hash[n] == "" {
        HashNext(graph.topo, hashes.sha, hashes.content, hashes.hash, hashes.hashDep, rank, done, n);
        HashNotEmpty(graph.topo, hashes.sha, hashes.content, hashes.hash, n, false);
        var _ := hashes.UpdateNodeHash(n, true);
      } else {
        assert done + {n} == done;
      }
    }

    /** A rule gets its hash. */
    method HashRule(r: Vertex, ghost rank: map<Vertex, nat>)
      requires Hashed(done) && WellFormed(graph.topo) && Ranked(graph.topo, rank) && r in graph.topo.rules && r !in done
      requires r in graph.topo.inputs && forall i :: i in graph.topo.inputs[r] ==> i in done
      modifies hashes`hash, hashes`hashDep
      ensures Hashed(done + {r})
    {
      hide WellFormed, Ranked, HoldOutside, Local, DownClosed;
      RuleShape(graph.topo, r);
      ClosedWith(graph.topo, done, r);
      HashNext(graph.topo, hashes.sha, hashes.content, hashes.hash, hashes.hashDep, rank, done, r);
      hashes.UpdateRuleHash(r);
    }

    method UpdateRule(r: Vertex, ghost rank: map<Vertex, nat>) returns (d: bool)
      requires Valid() && Hashed(done) && r in graph.topo.rules && Entered(graph.topo, rank, seen - done, r)
      modifies this, graph`dirty, graph`lazy, graph`numReady, graph`blocked, hashes`hash, hashes`hashDep
      ensures Valid() && Hashed(done) && open == old(open) && seen - done == old(seen - done)
      ensures done >= old(done) + {r}
      ensures d <==> r in Stale(graph.topo, graph.stamp)
      decreases rank[r], 1
    {
      hide *;
      if r in seen {
        DirtyOfDone(this, rank, r);
        return r in graph.dirty;
      }
      EnterRule(r, rank);
      d := false;
      var inputs := graph.topo.inputs[r];
      for k := 0 to |inputs|
        invariant Valid() && Hashed(done) && done >= old(done)
        invariant seen - done == old(seen - done) + {r}
        invariant open == old(open) + StaleInputs(r, inputs[..k], Stale(graph.topo, graph.stamp))
        invariant forall i :: i in inputs[..k] ==> i in done
        invariant forall i :: i in inputs[k..] ==> (r, i) !in open
        invariant d <==> exists i :: i in inputs[..k] && i in Stale(graph.topo, graph.stamp)
      {
        NextInput(r, inputs, k, Stale(graph.topo, graph.stamp));
        var inputDirty := UpdateInput(r, inputs[k], rank);
        d := d || inputDirty;
      }
      assert inputs[..|inputs|] == inputs;
      d := LeaveUpdatedRule(r, d, old(open), rank);
    }

    /** GraphDependencyScan::scan on a freshly parsed graph.  `stat` gives the modification time
        of every path, 0 when it cannot be read. */
    method Scan(stat: map<Vertex, int>)
      requires WellFormed(graph.topo) && Acyclic(graph.topo)
      requires graph.Counted() && graph.dirty == {} && graph.lazy == {} && graph.blocked == {}
      requires graph.stamp.Keys == graph.topo.nodes + graph.topo.rules && graph.topo.nodes <= stat.Keys
      requires seen == {} && done == {} && open == {} && Hashed(done)
      modifies this, graph, hashes`hash, hashes`hashDep
      ensures graph.topo == old(graph.topo) && graph.lazy == {}
      ensures graph.stamp == Stats(graph.topo, old(graph.stamp), stat) && graph.stamp.Keys == old(graph.stamp.Keys)
      ensures LookedUp(graph.topo, old(graph.stamp), graph.stamp, stat)
      ensures graph.dirty == Stale(graph.topo, graph.stamp) + NewSources(graph.topo, graph.stamp, graph.topo.rules)
      ensures graph.Counted() && graph.Exact()
      ensures Complete(graph.topo, hashes.hash, hashes.hashDep)
      ensures HoldOutside(graph.topo, hashes.sha, hashes.content, hashes.hash, hashes.hashDep, {})
    {
      hide *;
      StatNodes(stat);
      ghost var rank := SomeRank(graph.topo);
      Start(this);
      var left := graph.topo.roots;
      RootsKnown(graph.topo, rank);
      while left != {}
        invariant Valid() && Hashed(done) && seen - done == {} && open == {}
        invariant left <= graph.topo.roots <= left + done
        invariant graph.topo == old(graph.topo) && graph.stamp == Stats(graph.topo, old(graph.stamp), stat)
        decreases left
      {
        var n :| n in left;
        var _ := UpdateNode(n, rank);
        left := left - {n};
      }
      Finish(this);
      AllHashed(this);
      StatsRead(graph.topo, old(graph.stamp), stat);
    }

    method StatNodes(stat: map<Vertex, int>)
      requires WellFormed(graph.topo)
      requires graph.stamp.Keys == graph.topo.nodes + graph.topo.rules && graph.topo.nodes <= stat.Keys
      modifies graph`stamp
      ensures graph.stamp.Keys == old(graph.stamp.Keys)
      ensures graph.stamp == Stats(graph.topo, old(graph.stamp), stat)
    {
      hide WellFormed;
      var left := graph.topo.nodes;
      while left != {}
        invariant left <= graph.topo.nodes
        invariant graph.stamp == map v | v in old(graph.stamp) ::
                    if v in graph.topo.nodes - left && Statted(graph.topo, v) then stat[v] else old(graph.stamp)[v]
        decreases left
      {
        var n :| n in left;
        if Statted(graph.topo, n) {
          graph.stamp := graph.stamp[n := stat[n]];
        }
        left := left - {n};
      }
    }

    /** The start of updateRule: `r` is seen and all its inputs are strictly below every
        unfinished rule. */
    method EnterRule(r: Vertex, ghost rank: map<Vertex, nat>)
      requires Valid() && r in graph.topo.rules && Entered(graph.topo, rank, seen - done, r) && r !in seen
      modifies this`seen
      ensures Valid() && seen - done == old(seen - done) + {r} && r in graph.topo.inputs
      ensures Ranked(graph.topo, rank) && r in rank && NoDuplicates(graph.topo.inputs[r])
      ensures StaleInputs(r, graph.topo.inputs[r][..0], Stale(graph.topo, graph.stamp)) == {}
      ensures forall q, i :: (q, i) in open ==> q in seen - done - {r}
      ensures forall i :: i in graph.topo.inputs[r] ==>
                            Entered(graph.topo, rank, seen - done, i) && rank[i] < rank[r]
    {
      hide Graph.Counted, WellFormed, Ranked, Stale, DirtyAfter, WaitsAfter, DownClosed, Outdated, NewSources, Hashed;
      RuleFacts(graph.topo, graph.stamp, rank, r);
      seen := seen + {r};
    }

    /** One iteration of the loop over the inputs of `r`. */
    method UpdateInput(r: Vertex, input: Vertex, ghost rank: map<Vertex, nat>) returns (inputDirty: bool)
      requires Valid() && Hashed(done) && r in graph.topo.rules && r in seen - done && r in graph.topo.inputs
      requires input in graph.topo.inputs[r] && (r, input) !in open
      requires r in rank && Entered(graph.topo, rank, seen - done, input) && rank[input] < rank[r]
      modifies this, graph`dirty, graph`lazy, graph`numReady, graph`blocked, hashes`hash, hashes`hashDep
      ensures Valid() && Hashed(done) && seen - done == old(seen - done) && done >= old(done) + {input}
      ensures inputDirty <==> input in Stale(graph.topo, graph.stamp)
      ensures open == old(open) + StaleInputs(r, [input], Stale(graph.topo, graph.stamp))
      decreases rank[r], 0
    {
      hide Graph.Counted, WellFormed, Ranked, Stale, DirtyAfter, WaitsAfter, DownClosed, Outdated, NewSources, Hashed;
      RuleFacts(graph.topo, graph.stamp, rank, r);
      inputDirty := UpdateNode(input, rank);
      if inputDirty {
        if input in graph.topo.child {
          NotYetWaited(graph.topo, graph.stamp, done, r, input);
          graph.MarkInputDirty(r, input);
          open := open + {(r, input)};
        }
      }
    }

    /** The end of updateRule, once all the inputs of `r` are finished. */
    method LeaveUpdatedRule(r: Vertex, inputDirty: bool, ghost outer: set<(Vertex, Vertex)>,
                            ghost rank: map<Vertex, nat>)
      returns (d: bool)
      requires Valid() && Hashed(done) && r in graph.topo.rules && r in seen - done && Ranked(graph.topo, rank)
               && r in graph.topo.inputs
      requires open == outer + StaleInputs(r, graph.topo.inputs[r], Stale(graph.topo, graph.stamp))
      requires forall q, i :: (q, i) in outer ==> q in seen - done - {r}
      requires forall i :: i in graph.topo.inputs[r] ==> i in done
      requires inputDirty <==> exists i :: i in graph.topo.inputs[r] && i in Stale(graph.topo, graph.stamp)
      modifies this`done, this`open, graph`dirty, graph`lazy, hashes`hash, hashes`hashDep
      ensures Valid() && Hashed(done) && open == outer && done == old(done) + {r}
      ensures d <==> r in Stale(graph.topo, graph.stamp)
    {
      hide Graph.Counted, WellFormed, Ranked, Stale, DirtyAfter, WaitsAfter, DownClosed, Outdated, NewSources,
           StaleInputs, Hashed;
      RuleFacts(graph.topo, graph.stamp, rank, r);
      LeaveRule(graph.topo, graph.stamp, done, r);
      HashRule(r, rank);
      d := inputDirty;
      if !IsPhony(graph.topo, r) {
        var newer := CompareInputsWithOutputs(r);
        d := d || newer;
      }
      if d {
        graph.SetRuleState(r, true);
      }
      open, done := outer, done + {r};
    }
  }

  lemma RootsKnown(t: Topology, rank: map<Vertex, nat>)
    requires WellFormed(t) && Ranked(t, rank)
    ensures forall n :: n in t.roots ==> n in t.nodes && Entered(t, rank, {}, n)
  {
  }

  lemma Start(s: GraphDependencyScan)
    requires WellFormed(s.graph.topo) && s.graph.Counted()
    requires s.graph.dirty == {} && s.graph.lazy == {} && s.graph.blocked == {}
    requires s.graph.stamp.Keys == s.graph.topo.nodes + s.graph.topo.rules
    requires s.seen == {} && s.done == {} && s.open == {}
    ensures s.Valid()
  {
    hide WellFormed, Graph.Counted, Stale;
  }

  lemma Finish(s: GraphDependencyScan)
    requires s.Valid() && s.open == {} && Acyclic(s.graph.topo) && s.graph.topo.roots <= s.done
    ensures s.graph.dirty == Stale(s.graph.topo, s.graph.stamp)
            + NewSources(s.graph.topo, s.graph.stamp, s.graph.topo.rules)
    ensures s.graph.Counted() && s.graph.Exact() && s.graph.lazy == {}
  {
    hide WellFormed, Graph.Counted, Stale, NewSources, DirtyAfter, WaitsAfter, Acyclic, DownClosed;
    RootsCover(s.graph.topo, s.done);
    WholeGraph(s.graph.topo, s.graph.stamp);
  }

  lemma ClosedWith(t: Topology, done: set<Vertex>, v: Vertex)
    requires DownClosed(t, done) && (v in t.child ==> t.child[v] in done)
    requires v in t.inputs ==> forall i :: i in t.inputs[v] ==> i in done
    ensures DownClosed(t, done + {v})
  {
  }

  lemma AllHashed(s: GraphDependencyScan)
    requires s.Valid() && s.Hashed(s.done) && Acyclic(s.graph.topo) && s.graph.topo.roots <= s.done
    ensures Complete(s.graph.topo, s.hashes.hash, s.hashes.hashDep)
    ensures HoldOutside(s.graph.topo, s.hashes.sha, s.hashes.content, s.hashes.hash, s.hashes.hashDep, {})
  {
    hide WellFormed, Graph.Counted, Stale, NewSources, DirtyAfter, WaitsAfter, Acyclic, DownClosed, HoldOutside;
    RootsCover(s.graph.topo, s.done);
    assert s.graph.topo.nodes + s.graph.topo.rules - s.done == {};
  }

  /** Once the traversal has finished every root it has finished everything. */
  lemma RootsCover(t: Topology, done: set<Vertex>)
    requires WellFormed(t) && Acyclic(t) && DownClosed(t, done)
    requires t.roots <= done <= t.nodes + t.rules
    ensures done == t.nodes + t.rules
  {
    hide WellFormed, Ranked, UpEdges;
    var rank := SomeRank(t);
    var rest := t.nodes + t.rules - done;
    forall u, v | u in rest && Step(UpEdges(t), u, v) ensures v in rest {
      UpStep(t, u, v);
      if u in t.nodes {
        NodeShape(t, u);
      } else {
        RuleShape(t, u);
      }
    }
    forall v | v in t.nodes + t.rules ensures v in done {
      var root := SomeRootAbove(t, rank, v);
      NodeShape(t, root);
      if v in rest {
        ClosedContains(UpEdges(t), rest, v, root);
      }
    }
  }

  /** After a whole traversal the dirty vertices are the stale ones and the new sources, and
      every counter is exact. */
  lemma WholeGraph(t: Topology, stamp: Stamps)
    requires WellFormed(t)
    ensures DirtyAfter(t, stamp, t.nodes + t.rules) == Stale(t, stamp) + NewSources(t, stamp, t.rules)
    ensures WaitsAfter(t, stamp, t.nodes + t.rules) == Waits(t, DirtyAfter(t, stamp, t.nodes + t.rules))
  {
    hide Stale;
    forall v | v in Stale(t, stamp) ensures v in t.nodes + t.rules {
      StaleInside(t, stamp, v);
    }
  }

  lemma StaleInside(t: Topology, stamp: Stamps, v: Vertex)
    requires v in Stale(t, stamp)
    ensures v in t.nodes + t.rules
  {
  }

  /** The decrements made for `r` while going through the inputs `ins`. */
  ghost function StaleInputs(r: Vertex, ins: seq<Vertex>, stale: set<Vertex>): set<(Vertex, Vertex)> {
    set i | i in ins && i in stale :: (r, i)
  }

  lemma NodeFacts(t: Topology, stamp: Stamps, rank: map<Vertex, nat>, n: Vertex)
    requires WellFormed(t) && Ranked(t, rank) && n in t.nodes
    ensures n !in t.rules && n in rank
    ensures n in t.child ==> t.child[n] in t.rules && t.child[n] in rank && rank[t.child[n]] < rank[n]
    ensures n in Stale(t, stamp) <==> n in t.child && t.child[n] in Stale(t, stamp)
  {
    hide Graph.Counted, WellFormed, Stale, Ranked;
    StaleUnfold(t, stamp, n);
    NodeShape(t, n);
    RanksCover(t, rank);
    if n in t.child {
      RuleShape(t, t.child[n]);
      RankStep(t, rank, t.child[n], n);
    }
  }

  lemma RuleFacts(t: Topology, stamp: Stamps, rank: map<Vertex, nat>, r: Vertex)
    requires WellFormed(t) && Ranked(t, rank) && r in t.rules
    ensures r in t.inputs && NoDuplicates(t.inputs[r]) && r in rank
    ensures forall i :: i in t.inputs[r] ==> i in t.nodes && i in rank && rank[i] < rank[r]
    ensures forall i :: i in t.inputs[r] && i in Stale(t, stamp) ==> i in t.child
    ensures r in Stale(t, stamp) <==> Outdated(t, stamp, r) || exists i :: i in t.inputs[r] && i in Stale(t, stamp)
    ensures IsPhony(t, r) ==> !Outdated(t, stamp, r)
  {
    hide Graph.Counted, WellFormed, Stale, Ranked, Outdated;
    StaleUnfold(t, stamp, r);
    RuleShape(t, r);
    RanksCover(t, rank);
    if IsPhony(t, r) {
      PhonyNotOutdated(t, stamp, r);
    }
    forall i | i in t.inputs[r]
      ensures i in t.nodes && i in rank && rank[i] < rank[r] && (i in Stale(t, stamp) ==> i in t.child)
    {
      NodeShape(t, i);
      RankStep(t, rank, i, r);
      StaleUnfold(t, stamp, i);
    }
  }

  lemma PhonyNotOutdated(t: Topology, stamp: Stamps, r: Vertex)
    requires IsPhony(t, r)
    ensures !Outdated(t, stamp, r)
  {
  }

  lemma DirtyOfDone(s: GraphDependencyScan, rank: map<Vertex, nat>, r: Vertex)
    requires s.Valid() && r in s.graph.topo.rules && r in s.seen
    requires Entered(s.graph.topo, rank, s.seen - s.done, r)
    ensures r in s.done
    ensures r in s.graph.dirty <==> r in Stale(s.graph.topo, s.graph.stamp)
  {
    hide Stale, DownClosed, WaitsAfter, Ranked, WellFormed;
    RuleShape(s.graph.topo, r);
  }

  lemma NextInput(r: Vertex, inputs: seq<Vertex>, k: nat, stale: set<Vertex>)
    requires k < |inputs| && NoDuplicates(inputs)
    ensures StaleInputs(r, inputs[..k + 1], stale)
            == StaleInputs(r, inputs[..k], stale) + StaleInputs(r, [inputs[k]], stale)
    ensures inputs[..k + 1] == inputs[..k] + [inputs[k]] && inputs[k..] == [inputs[k]] + inputs[k + 1..]
    ensures forall i :: i in inputs[k + 1..] ==> (r, i) !in StaleInputs(r, [inputs[k]], stale)
  {
  }

  lemma NotYetWaited(t: Topology, stamp: Stamps, done: set<Vertex>, r: Vertex, i: Vertex)
    requires r !in done
    ensures (r, i) !in WaitsAfter(t, stamp, done)
  {
  }

  lemma LeaveNode(t: Topology, stamp: Stamps, done: set<Vertex>, n: Vertex)
    requires WellFormed(t) && DownClosed(t, done) && n in t.nodes && (n in t.child ==> t.child[n] in done)
    ensures DownClosed(t, done + {n})
    ensures DirtyAfter(t, stamp, done + {n}) == DirtyAfter(t, stamp, done) + (if n in Stale(t, stamp) then {n} else {})
    ensures WaitsAfter(t, stamp, done + {n}) == WaitsAfter(t, stamp, done)
  {
    hide Stale, WellFormed;
    NodeShape(t, n);
  }

  lemma LeaveRule(t: Topology, stamp: Stamps, done: set<Vertex>, r: Vertex)
    requires WellFormed(t) && DownClosed(t, done) && r in t.rules
    requires r in t.inputs && forall i :: i in t.inputs[r] ==> i in done
    ensures DownClosed(t, done + {r})
    ensures DirtyAfter(t, stamp, done + {r}) == DirtyAfter(t, stamp, done)
              + (if IsPhony(t, r) then {} else NewSources(t, stamp, {r}))
              + (if r in Stale(t, stamp) then {r} else {})
    ensures WaitsAfter(t, stamp, done + {r}) == WaitsAfter(t, stamp, done)
              + StaleInputs(r, t.inputs[r], Stale(t, stamp))
  {
    hide Stale, WellFormed;
    RuleShape(t, r);
    forall i | i in t.inputs[r] && i in Stale(t, stamp) ensures i in t.child {
      StaleUnfold(t, stamp, i);
    }
  }

  lemma OldestDecides(t: Topology, stamp: Stamps, r: Vertex, oldest: Vertex)
    requires r in t.inputs && r in t.outputs && !IsPhony(t, r)
    requires forall i :: i in t.inputs[r] ==> i in t.nodes && i in stamp
    requires oldest in t.outputs[r] && oldest in stamp
    requires forall v :: v in t.outputs[r] ==> v in stamp && stamp[oldest] <= stamp[v]
    ensures Outdated(t, stamp, r) <==> exists i :: i in t.inputs[r] && stamp[i] > stamp[oldest]
    ensures NewSources(t, stamp, {r}) == set s | s in t.inputs[r] && IsSource(t, s) && stamp[s] > stamp[oldest]
  {
    forall i | i in t.inputs[r]
      ensures stamp[i] > stamp[oldest] <==> exists o :: o in t.outputs[r] && Newer(stamp, i, o)
    {
      if stamp[i] > stamp[oldest] {
        assert Newer(stamp, i, oldest);
      }
    }
  }
}
