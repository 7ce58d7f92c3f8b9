/** Loading the implicit dependencies of a rule from its parsed depfile (src/depfile.cpp). */
module DepfileLoading {
  import opened Reachability
  import opened Topology
  import opened DirtyTracking
  import opened GraphInvariant
  import opened DepfileParsing

  /** The nodes that `deps` adds to the explicit inputs `ex`: each once, in order of appearance. */
  function NewInputs(ex: seq<Vertex>, deps: seq<string>): (ns: seq<Vertex>)
    ensures forall n :: n in ns <==> n !in ex && n.Node? && n.path in deps
  {
    if deps == [] then [] else
      var ns := NewInputs(ex, deps[..|deps| - 1]);
      var n := Node(deps[|deps| - 1]);
      if n in ex || n in ns then ns else ns + [n]
  }

  /** A generated node that no rule lists explicitly is a root, also while depfiles mention it. */
  ghost predicate ImplicitRoots(t: Topology) {
    forall n :: n in t.child
                && (forall r :: HasInputs(t, r) ==> n !in ExplicitInputs(t, r))
                ==> n in t.roots
  }

  /** A parent list without `r`. */
  function Without(ps: seq<Vertex>, r: Vertex): seq<Vertex> {
    if ps == [] then [] else if ps[0] == r then ps[1..] else [ps[0]] + Without(ps[1..], r)
  }

  /** The graph once the inputs of `r` are `ex` followed by `imp`, before old edges are dropped. */
  function WithImplicit(t: Topology, r: Vertex, ex: seq<Vertex>, imp: seq<Vertex>): Topology {
    t.(nodes := t.nodes + Range(imp),
       inputs := t.inputs[r := ex + imp],
       implicits := t.implicits[r := |imp|],
       parents := ImplicitParents(t.parents, r, imp))
  }

  function ImplicitParents(parents: map<Vertex, seq<Vertex>>, r: Vertex, imp: seq<Vertex>): map<Vertex, seq<Vertex>> {
    map n | n in parents.Keys + Range(imp) ::
      if n !in parents then [r]
      else if n in imp && r !in parents[n] then parents[n] + [r]
      else parents[n]
  }

  /** Dropping `r` from the parents of the nodes `stale`; a source left without parents is
      deleted. */
  function Dropped(t: Topology, r: Vertex, stale: set<Vertex>): Topology {
    var gone := Gone(t, r, stale);
    t.(nodes := t.nodes - gone,
       parents := map n | n in t.parents.Keys - gone :: if n in stale then Without(t.parents[n], r) else t.parents[n],
       roots := t.roots - gone)
  }

  function Gone(t: Topology, r: Vertex, stale: set<Vertex>): set<Vertex> {
    set n | n in stale && n in t.parents && n !in t.child && Without(t.parents[n], r) == []
  }

  /** The graph after a successful load of `deps`. */
  function Loaded(t: Topology, r: Vertex, deps: seq<string>): Topology
    requires HasInputs(t, r)
  {
    var imp := NewInputs(ExplicitInputs(t, r), deps);
    Dropped(WithImplicit(t, r, ExplicitInputs(t, r), imp), r, Range(ImplicitInputs(t, r)) - Range(imp))
  }

  lemma {:induction false} WithoutMembers(ps: seq<Vertex>, r: Vertex, q: Vertex)
    requires NoDuplicates(ps)
    ensures NoDuplicates(Without(ps, r))
    ensures q in Without(ps, r) <==> q in ps && q != r
  {
    if ps != [] {
      WithoutMembers(ps[1..], r, q);
      if ps[0] != r && Without(ps[1..], r) != [] {
        forall k | 0 <= k < |Without(ps[1..], r)| ensures Without(ps[1..], r)[k] != ps[0] {
          WithoutMembers(ps[1..], r, Without(ps[1..], r)[k]);
        }
      }
    }
  }

  lemma {:induction false} NewInputsDistinct(ex: seq<Vertex>, deps: seq<string>)
    ensures NoDuplicates(NewInputs(ex, deps))
  {
    if deps != [] {
      NewInputsDistinct(ex, deps[..|deps| - 1]);
    }
  }

  /** What is known about the parts of a load. */
  lemma Parts(t: Topology, r: Vertex, deps: seq<string>)
    requires WellFormed(t) && r in t.rules
    ensures HasInputs(t, r) && r in t.outputs && r !in t.nodes
    ensures var ex, old', imp := ExplicitInputs(t, r), ImplicitInputs(t, r), NewInputs(ExplicitInputs(t, r), deps);
            && t.inputs[r] == ex + old' && NoDuplicates(ex) && NoDuplicates(old')
            && (forall n :: n in ex ==> n !in old' && n !in imp && n in t.nodes)
            && (forall n :: n in old' ==> n in t.nodes)
            && (forall n :: n in t.inputs[r] <==> n in ex || n in old')
  {
    hide WellFormed;
    RuleShape(t, r);
    var ex, old' := ExplicitInputs(t, r), ImplicitInputs(t, r);
    assert t.inputs[r] == ex + old';
    forall i, j | 0 <= i < |ex| && 0 <= j < |old'| ensures ex[i] != old'[j] {
      assert t.inputs[r][i] != t.inputs[r][|ex| + j];
    }
    forall i, j | 0 <= i < j < |old'| ensures old'[i] != old'[j] {
      assert t.inputs[r][|ex| + i] != t.inputs[r][|ex| + j];
    }
  }

  /** The parents of a node after the load. */
  lemma ParentsAfter(t: Topology, r: Vertex, deps: seq<string>, n: Vertex, q: Vertex)
    requires WellFormed(t) && r in t.rules && HasInputs(t, r)
    requires n in Loaded(t, r, deps).parents
    ensures var ps := Loaded(t, r, deps).parents[n];
            && NoDuplicates(ps)
            && (q in ps <==> if q == r then n in Loaded(t, r, deps).inputs[r] else n in t.parents && q in t.parents[n])
  {
    hide WellFormed;
    Parts(t, r, deps);
    if n in t.parents {
      SameKeys(t);
      NodeShape(t, n);
      WithoutMembers(t.parents[n], r, q);
      WithoutMembers(t.parents[n], r, r);
      AppendDistinct(t.parents[n], r);
      if n in t.inputs[r] {
        InputHasParent(t, r, n);
      }
    }
  }

  /** A deleted node was consumed by `r` only. */
  lemma GoneUnused(t: Topology, r: Vertex, deps: seq<string>, n: Vertex)
    requires WellFormed(t) && r in t.rules && HasInputs(t, r)
    ensures var imp := NewInputs(ExplicitInputs(t, r), deps);
            var gone := Gone(WithImplicit(t, r, ExplicitInputs(t, r), imp), r,
                Range(ImplicitInputs(t, r)) - Range(imp));
            n in gone ==> n in t.nodes && n !in t.child && n !in ExplicitInputs(t, r) && n !in imp
                          && forall q :: q in t.inputs && n in t.inputs[q] ==> q == r
  {
    hide WellFormed;
    Parts(t, r, deps);
    var imp := NewInputs(ExplicitInputs(t, r), deps);
    var gone := Gone(WithImplicit(t, r, ExplicitInputs(t, r), imp), r, Range(ImplicitInputs(t, r)) - Range(imp));
    if n in gone {
      SameKeys(t);
      NodeShape(t, n);
      assert Without(t.parents[n], r) == [];
      forall q | q in t.inputs && n in t.inputs[q] ensures q == r {
        InputHasParent(t, q, n);
        WithoutMembers(t.parents[n], r, q);
      }
    }
  }

  lemma LoadedInputs(t: Topology, r: Vertex, deps: seq<string>)
    requires WellFormed(t) && r in t.rules && HasInputs(t, r)
    ensures InputEdges(Loaded(t, r, deps))
  {
    hide WellFormed, NewInputs, Without;
    var t' := Loaded(t, r, deps);
    var imp := NewInputs(ExplicitInputs(t, r), deps);
    Parts(t, r, deps);
    NewInputsDistinct(ExplicitInputs(t, r), deps);
    JoinDistinct(ExplicitInputs(t, r), imp);
    forall q | q in t'.inputs ensures NoDuplicates(t'.inputs[q]) {
      if q != r {
        SameKeys(t);
        RuleShape(t, q);
      }
    }
    forall n, q | n in t'.parents
      ensures NoDuplicates(t'.parents[n]) && (q in t'.parents[n] <==> q in t'.inputs && n in t'.inputs[q])
    {
      LoadedParents(t, r, deps, n, q);
    }
    forall q, n | q in t'.inputs && n in t'.inputs[q] ensures n in t'.parents {
      LoadedInput(t, r, deps, q, n);
    }
  }

  lemma LoadedInput(t: Topology, r: Vertex, deps: seq<string>, q: Vertex, n: Vertex)
    requires WellFormed(t) && r in t.rules && HasInputs(t, r)
    requires q in Loaded(t, r, deps).inputs && n in Loaded(t, r, deps).inputs[q]
    ensures n in Loaded(t, r, deps).parents
  {
    hide WellFormed, NewInputs, Without;
    Parts(t, r, deps);
    GoneUnused(t, r, deps, n);
    SameKeys(t);
    if q != r {
      RuleShape(t, q);
    }
  }

  lemma LoadedParents(t: Topology, r: Vertex, deps: seq<string>, n: Vertex, q: Vertex)
    requires WellFormed(t) && r in t.rules && HasInputs(t, r) && n in Loaded(t, r, deps).parents
    ensures var t' := Loaded(t, r, deps);
            NoDuplicates(t'.parents[n]) && (q in t'.parents[n] <==> q in t'.inputs && n in t'.inputs[q])
  {
    hide WellFormed, NewInputs, Without;
    ParentsAfter(t, r, deps, n, q);
    SameKeys(t);
    if n in t.nodes {
      NodeShape(t, n);
    }
    if q in t.inputs {
      RuleShape(t, q);
    }
  }

  lemma JoinDistinct(a: seq<Vertex>, b: seq<Vertex>)
    requires NoDuplicates(a) && NoDuplicates(b) && forall v :: v in a ==> v !in b
    ensures NoDuplicates(a + b)
  {
    forall i, j | 0 <= i < j < |a + b| ensures (a + b)[i] != (a + b)[j] {
      if i < |a| <= j {
        assert a[i] in a && b[j - |a|] in b;
      }
    }
  }

  /** Loading keeps the graph well formed: edges symmetric, no repetition. */
  lemma LoadedWellFormed(t: Topology, r: Vertex, deps: seq<string>)
    requires WellFormed(t) && r in t.rules && HasInputs(t, r)
    requires ImplicitRoots(t)
    ensures WellFormed(Loaded(t, r, deps))
  {
    hide InputEdges, OutputEdges, Typed, NewInputs, NoDuplicates, Without;
    LoadedInputs(t, r, deps);
    LoadedTyped(t, r, deps);
    LoadedOutputs(t, r, deps);
  }

  lemma LoadedTyped(t: Topology, r: Vertex, deps: seq<string>)
    requires WellFormed(t) && r in t.rules && HasInputs(t, r)
    requires ImplicitRoots(t)
    ensures Typed(Loaded(t, r, deps))
  {
    hide InputEdges, OutputEdges, Without, HasOutputs, ImplicitRoots, NewInputs, ImplicitParents, Gone;
    var t' := Loaded(t, r, deps);
    Parts(t, r, deps);
    ParentKeys(t.parents, r, NewInputs(ExplicitInputs(t, r), deps));
    forall n | n in t.child ensures n in t'.nodes {
      GoneUnused(t, r, deps, n);
    }
    forall n | n in t'.nodes && t'.parents[n] == [] ensures n in t'.roots {
      StillRoot(t, r, deps, n);
    }
  }

  /** A node that loses its last parent is generated, and generated nodes without parents were
      roots all along. */
  lemma StillRoot(t: Topology, r: Vertex, deps: seq<string>, n: Vertex)
    requires WellFormed(t) && r in t.rules && HasInputs(t, r)
    requires ImplicitRoots(t)
    requires n in Loaded(t, r, deps).parents && Loaded(t, r, deps).parents[n] == []
    ensures n in Loaded(t, r, deps).roots
  {
    hide WellFormed, NewInputs;
    Parts(t, r, deps);
    SameKeys(t);
    if n in t.nodes {
      NodeShape(t, n);
      if n in t.child && n in ImplicitInputs(t, r) {
        forall q | HasInputs(t, q) ensures n !in ExplicitInputs(t, q) {
          if n in ExplicitInputs(t, q) {
            assert n in t.inputs[q];
            InputHasParent(t, q, n);
            ParentsAfter(t, r, deps, n, q);
          }
        }
      }
    }
  }

  lemma LoadedOutputs(t: Topology, r: Vertex, deps: seq<string>)
    requires OutputEdges(t) && HasInputs(t, r)
    ensures OutputEdges(Loaded(t, r, deps))
  {
    hide NoDuplicates, NewInputs, Without;
  }

  lemma LoadedRoots(t: Topology, r: Vertex, deps: seq<string>)
    requires WellFormed(t) && r in t.rules && HasInputs(t, r)
    requires ImplicitRoots(t)
    ensures ImplicitRoots(Loaded(t, r, deps))
  {
    hide WellFormed, NewInputs, Without;
    var t' := Loaded(t, r, deps);
    Parts(t, r, deps);
    assert ExplicitInputs(t', r) == ExplicitInputs(t, r);
    forall n | n in t'.child
               && (forall q :: HasInputs(t', q) ==> n !in ExplicitInputs(t', q))
      ensures n in t'.roots
    {
      forall q | HasInputs(t, q) ensures n !in ExplicitInputs(t, q) {
        assert q != r ==> ExplicitInputs(t', q) == ExplicitInputs(t, q);
        assert q in t'.inputs && n !in ExplicitInputs(t', q);
      }
    }
  }

  /** New edges into `r` from vertices that are not above `r` cannot close a cycle. */
  lemma EdgesKeepAcyclic(t: Topology, t': Topology, r: Vertex)
    requires WellFormed(t) && Acyclic(t) && WellFormed(t') && r in t.rules
    requires forall u, v :: Step(UpEdges(t'), u, v) ==> Step(UpEdges(t), u, v) || (v == r && u !in Above(t, r))
    ensures Acyclic(t')
  {
    hide WellFormed, Acyclic, UpEdges, Above, Reaches;
    var rank := SomeRank(t);
    RanksCover(t, rank);
    var m := Top(t, rank) + 1;
    var rank' := map v | v in t'.nodes + t'.rules + t.nodes + t.rules ::
      if v in t.nodes + t.rules then rank[v] + (if v in Above(t, r) then m else 0) else 0;
    AboveSelf(t, r);
    forall u, v | Step(UpEdges(t'), u, v) ensures u in rank' && v in rank' && rank'[u] < rank'[v] {
      UpStep(t', u, v);
      if Step(UpEdges(t), u, v) {
        UpStep(t, u, v);
        RankStep(t, rank, u, v);
        AboveStep(t, r, u, v);
      }
    }
    assert Ranked(t', rank');
    AcyclicWitness(t', rank');
  }

  lemma AboveStep(t: Topology, r: Vertex, u: Vertex, v: Vertex)
    requires WellFormed(t) && Step(UpEdges(t), u, v)
    ensures u in Above(t, r) ==> v in Above(t, r)
  {
    hide WellFormed, UpEdges;
    UpStep(t, u, v);
    if u in Above(t, r) {
      ReachesStepLast(UpEdges(t), r, u, v);
    }
  }

  lemma AcyclicWitness(t: Topology, rank: map<Vertex, nat>)
    requires Ranked(t, rank)
    ensures Acyclic(t)
  {
  }

  /** Every listed node that is not already an explicit input is a source, unknown, or an
      up-to-date generated node. */
  ghost predicate Settled(t: Topology, dirty: set<Vertex>, r: Vertex, deps: seq<string>)
    requires HasInputs(t, r)
  {
    forall n :: n in NewInputs(ExplicitInputs(t, r), deps) ==> n !in t.child || n !in dirty
  }

  /** Loading creates no cycle exactly when no new input lies above the rule. */
  lemma LoadedAcyclicIff(t: Topology, r: Vertex, deps: seq<string>)
    requires WellFormed(t) && Acyclic(t) && ImplicitRoots(t) && r in t.rules && HasInputs(t, r)
    ensures Acyclic(Loaded(t, r, deps)) <==> forall n :: n in NewInputs(ExplicitInputs(t, r), deps) ==>
            n !in Above(t, r)
  {
    hide WellFormed, Acyclic, UpEdges, NewInputs, Above, Without, Loaded, ExplicitInputs;
    var t', imp := Loaded(t, r, deps), NewInputs(ExplicitInputs(t, r), deps);
    LoadedWellFormed(t, r, deps);
    if forall n :: n in imp ==> n !in Above(t, r) {
      forall u, v | Step(UpEdges(t'), u, v) ensures Step(UpEdges(t), u, v) || (v == r && u !in Above(t, r)) {
        NewEdge(t, r, deps, u, v);
      }
      EdgesKeepAcyclic(t, t', r);
    }
    if Acyclic(t') {
      forall n | n in imp ensures n !in Above(t, r) {
        NotAboveNew(t, r, deps, n);
      }
    }
  }

  /** The only new edges go from new inputs to the rule. */
  lemma NewEdge(t: Topology, r: Vertex, deps: seq<string>, u: Vertex, v: Vertex)
    requires WellFormed(t) && r in t.rules && HasInputs(t, r)
    requires WellFormed(Loaded(t, r, deps)) && Step(UpEdges(Loaded(t, r, deps)), u, v)
    ensures Step(UpEdges(t), u, v) || (v == r && u in NewInputs(ExplicitInputs(t, r), deps))
  {
    hide WellFormed, UpEdges, NewInputs, Without;
    var t' := Loaded(t, r, deps);
    UpStep(t', u, v);
    UpStep(t, u, v);
    Parts(t, r, deps);
    if u in t'.nodes {
      NodeShape(t', u);
      ParentsAfter(t, r, deps, u, v);
      SameKeys(t);
      if v == r && u in t.inputs[r] {
        InputHasParent(t, r, u);
      }
    } else {
      RuleShape(t', u);
    }
  }

  /** Edges that do not lead to the rule are kept, and every new input has an edge to it. */
  lemma KeptEdge(t: Topology, r: Vertex, deps: seq<string>, u: Vertex, v: Vertex)
    requires WellFormed(t) && r in t.rules && HasInputs(t, r) && WellFormed(Loaded(t, r, deps))
    ensures Step(UpEdges(t), u, v) && v != r ==> Step(UpEdges(Loaded(t, r, deps)), u, v)
    ensures u in NewInputs(ExplicitInputs(t, r), deps) ==> Step(UpEdges(Loaded(t, r, deps)), u, r)
  {
    hide WellFormed, UpEdges, NewInputs, Without;
    var t' := Loaded(t, r, deps);
    UpStep(t', u, v);
    UpStep(t', u, r);
    UpStep(t, u, v);
    Parts(t, r, deps);
    if u in NewInputs(ExplicitInputs(t, r), deps) {
      InputHasParent(t', r, u);
      SameKeys(t');
    }
    if Step(UpEdges(t), u, v) && v != r {
      if u in t.nodes {
        NodeShape(t, u);
        GoneUnused(t, r, deps, u);
        ParentsAfter(t, r, deps, u, v);
      } else {
        RuleShape(t, u);
      }
    }
  }

  /** In an acyclic loaded graph nothing above the rule became its input. */
  lemma NotAboveNew(t: Topology, r: Vertex, deps: seq<string>, n: Vertex)
    requires WellFormed(t) && r in t.rules && HasInputs(t, r) && WellFormed(Loaded(t, r, deps))
    requires Acyclic(Loaded(t, r, deps)) && n in NewInputs(ExplicitInputs(t, r), deps)
    ensures n !in Above(t, r)
  {
    hide WellFormed, Acyclic, UpEdges, NewInputs, Without, Loaded, Ranked, ExplicitInputs;
    var t' := Loaded(t, r, deps);
    var rank := SomeRank(t');
    KeptEdge(t, r, deps, n, r);
    RankStep(t', rank, n, r);
    var s := set v | v in t.nodes + t.rules && v in rank && (v == r || rank[v] > rank[r]);
    forall u, v | u in s && Step(UpEdges(t), u, v) ensures v in s {
      UpStep(t, u, v);
      KeptEdge(t, r, deps, u, v);
      if v != r {
        RankStep(t', rank, u, v);
      }
    }
    if n in Above(t, r) {
      ClosedContains(UpEdges(t), s, r, n);
      RuleShape(t, r);
    }
  }

  /** Loading the depfile of a dirty rule cannot create a cycle while nothing is lazily fetched:
      everything above the rule is dirty, and what a depfile adds is not. */
  lemma SettledNotAbove(t: Topology, dirty: set<Vertex>, r: Vertex, deps: seq<string>)
    requires WellFormed(t) && Consistent(t, dirty, {}) && r in t.rules && r in dirty && HasInputs(t, r)
    requires Settled(t, dirty, r, deps)
    ensures forall n :: n in NewInputs(ExplicitInputs(t, r), deps) ==> n !in Above(t, r)
  {
    hide WellFormed, Consistent, UpEdges, NewInputs, Above, ExplicitInputs;
    DirtyAbove(t, dirty, r);
    forall n | n in NewInputs(ExplicitInputs(t, r), deps) ensures n !in Above(t, r) {
      AboveGenerated(t, r, n);
      assert n.Node?;
      RuleNotNode(t, n);
    }
  }

  lemma RuleNotNode(t: Topology, n: Vertex)
    requires WellFormed(t) && n.Node?
    ensures n !in t.rules
  {
    hide InputEdges, OutputEdges;
  }

  /** A dirty source that the load gives to the rule or takes from it is still used by a dirty rule,
      or by none. */
  ghost predicate SourcesCovered(t: Topology, dirty: set<Vertex>, r: Vertex, deps: seq<string>)
    requires HasInputs(t, r)
  {
    var imp := NewInputs(ExplicitInputs(t, r), deps);
    forall s :: s in t.parents && IsSource(t, s) && s in dirty ==>
      && (s in imp && s !in t.inputs[r] ==> r in dirty || OtherDirty(t, dirty, r, s))
      && (s in ImplicitInputs(t, r) && s !in imp ==> OtherDirty(t, dirty, r, s) || t.parents[s] == [r])
  }

  /** Some rule other than `r` consumes `s` and is dirty. */
  ghost predicate OtherDirty(t: Topology, dirty: set<Vertex>, r: Vertex, s: Vertex)
    requires s in t.parents
  {
    exists p :: p in t.parents[s] && p != r && p in dirty
  }

  /** The states stay consistent across a load exactly when the sources stay covered and a clean
      rule gets no dirty generated input. */
  lemma LoadedConsistentIff(t: Topology, d: set<Vertex>, lazy: set<Vertex>, r: Vertex, deps: seq<string>)
    requires WellFormed(t) && ImplicitRoots(t) && Consistent(t, d, lazy) && r in t.rules && HasInputs(t, r)
    ensures var t' := Loaded(t, r, deps);
            Consistent(t', d * (t'.nodes + t'.rules), lazy * t'.nodes)
            <==> SourcesCovered(t, d, r, deps) && (r in d || Settled(t, d, r, deps))
  {
    hide WellFormed, RuleOfDirtyNode, OutputsOfDirtyRule, DirtyGeneratedInput, DirtySource, UniformOutputs,
         SourcesCovered, NewInputs, ExplicitInputs, Loaded, Settled;
    LoadedFrame(t, r, deps);
    LoadedStates(t, d, lazy, r, deps);
    LoadedGeneratedInput(t, d, r, deps);
    SourcesIff(t, d, r, deps);
  }

  /** What a load does not change. */
  lemma LoadedFrame(t: Topology, r: Vertex, deps: seq<string>)
    requires WellFormed(t) && r in t.rules && HasInputs(t, r)
    ensures var t' := Loaded(t, r, deps);
            && t'.rules == t.rules && t'.outputs == t.outputs && t'.child == t.child && t'.command == t.command
            && t'.inputs == t.inputs[r := ExplicitInputs(t, r) + NewInputs(ExplicitInputs(t, r), deps)]
            && t'.implicits == t.implicits[r := |NewInputs(ExplicitInputs(t, r), deps)|]
            && t.child.Keys <= t'.nodes && t'.roots <= t.roots
  {
    hide WellFormed, NewInputs, ExplicitInputs, Gone;
    SameKeys(t);
    forall n | n in t.child ensures n in Loaded(t, r, deps).nodes {
      GoneUnused(t, r, deps, n);
    }
  }

  lemma LoadedStates(t: Topology, d: set<Vertex>, lazy: set<Vertex>, r: Vertex, deps: seq<string>)
    requires WellFormed(t) && Consistent(t, d, lazy) && r in t.rules && HasInputs(t, r)
    ensures var t' := Loaded(t, r, deps);
            var d' := d * (t'.nodes + t'.rules);
            && lazy * t'.nodes !! d' && RuleOfDirtyNode(t', d') && OutputsOfDirtyRule(t', d', lazy * t'.nodes)
            && UniformOutputs(t', d')
  {
    hide WellFormed, DirtyGeneratedInput, DirtySource, Loaded;
    LoadedFrame(t, r, deps);
    forall q, o | q in t.outputs && o in t.outputs[q] ensures o in t.child && q in t.rules {
      SameKeys(t);
      RuleShape(t, q);
    }
    forall n | n in t.child ensures t.child[n] in t.rules {
      SameKeys(t);
      NodeShape(t, n);
    }
  }

  lemma LoadedGeneratedInput(t: Topology, d: set<Vertex>, r: Vertex, deps: seq<string>)
    requires WellFormed(t) && DirtyGeneratedInput(t, d) && r in t.rules && HasInputs(t, r)
    ensures var t' := Loaded(t, r, deps);
            DirtyGeneratedInput(t', d * (t'.nodes + t'.rules)) <==> r in d || Settled(t, d, r, deps)
  {
    hide WellFormed, NewInputs, Loaded;
    LoadedFrame(t, r, deps);
    SameKeys(t);
    Parts(t, r, deps);
    var t' := Loaded(t, r, deps);
    if r !in d && !Settled(t, d, r, deps) {
      var n :| n in NewInputs(ExplicitInputs(t, r), deps) && n in t.child && n in d;
      assert r in t'.inputs && n in t'.inputs[r] && n in t'.child && n in d * (t'.nodes + t'.rules);
    }
  }

  lemma SourcesIff(t: Topology, d: set<Vertex>, r: Vertex, deps: seq<string>)
    requires WellFormed(t) && ImplicitRoots(t) && DirtySource(t, d) && r in t.rules && HasInputs(t, r)
    requires d <= t.nodes + t.rules
    ensures var t' := Loaded(t, r, deps);
            DirtySource(t', d * (t'.nodes + t'.rules)) <==> SourcesCovered(t, d, r, deps)
  {
    hide WellFormed, NewInputs, ExplicitInputs, Without, Loaded;
    var t' := Loaded(t, r, deps);
    LoadedWellFormed(t, r, deps);
    LoadedFrame(t, r, deps);
    SameKeys(t');
    if SourcesCovered(t, d, r, deps) {
      forall s | s in t'.parents && IsSource(t', s) && s in d * (t'.nodes + t'.rules) && t'.parents[s] != []
        ensures exists p :: p in t'.parents[s] && p in d * (t'.nodes + t'.rules)
      {
        NodeShape(t', s);
        StillCovered(t, d, r, deps, s);
        var p :| p in t'.parents[s] && p in d;
        assert p in t'.rules;
      }
    }
    if DirtySource(t', d * (t'.nodes + t'.rules)) {
      forall s | s in t.parents && IsSource(t, s) && s in d
        ensures s in NewInputs(ExplicitInputs(t, r), deps) && s !in t.inputs[r] ==> r in d || OtherDirty(t, d, r, s)
        ensures s in ImplicitInputs(t, r) && s !in NewInputs(ExplicitInputs(t, r), deps) ==>
                  OtherDirty(t, d, r, s) || t.parents[s] == [r]
      {
        WasCovered(t, d, r, deps, s);
      }
    }
  }

  /** The parents that a source has after a load. */
  lemma SourceParents(t: Topology, r: Vertex, deps: seq<string>, s: Vertex)
    requires WellFormed(t) && r in t.rules && HasInputs(t, r) && s in t.parents && IsSource(t, s)
    ensures var t', imp := Loaded(t, r, deps), NewInputs(ExplicitInputs(t, r), deps);
            && (s in t'.parents <==> !(s in ImplicitInputs(t, r) && s !in imp && t.parents[s] == [r]))
            && (s in t'.parents ==>
                  && (r in t'.parents[s] <==> s in imp || s in ExplicitInputs(t, r))
                  && forall q :: q != r ==> (q in t'.parents[s] <==> q in t.parents[s]))
            && (r in t.parents[s] <==> s in ImplicitInputs(t, r) || s in ExplicitInputs(t, r))
            && (s in ExplicitInputs(t, r) ==> s !in imp)
  {
    hide WellFormed, NewInputs, ExplicitInputs, ImplicitInputs;
    var t', imp := Loaded(t, r, deps), NewInputs(ExplicitInputs(t, r), deps);
    Parts(t, r, deps);
    SameKeys(t);
    NodeShape(t, s);
    if s in t.inputs[r] {
      InputHasParent(t, r, s);
    }
    OnlyParent(t.parents[s], r);
    ParentKeys(t.parents, r, imp);
    if s in t'.parents {
      forall q ensures q in t'.parents[s] <==> if q == r then s in t'.inputs[r] else q in t.parents[s] {
        ParentsAfter(t, r, deps, s, q);
      }
    }
  }

  lemma OnlyParent(ps: seq<Vertex>, r: Vertex)
    requires NoDuplicates(ps)
    ensures r in ps ==> (Without(ps, r) == [] <==> ps == [r])
  {
  }

  lemma StillCovered(t: Topology, d: set<Vertex>, r: Vertex, deps: seq<string>, s: Vertex)
    requires WellFormed(t) && DirtySource(t, d) && r in t.rules && HasInputs(t, r) && d <= t.nodes + t.rules
    requires SourcesCovered(t, d, r, deps)
    requires var t' := Loaded(t, r, deps);
             s in t'.parents && IsSource(t', s) && s in d && t'.parents[s] != []
             && s !in t.rules
    ensures exists p :: p in Loaded(t, r, deps).parents[s] && p in d
  {
    hide WellFormed, NewInputs, ExplicitInputs, ImplicitInputs, Without;
    SameKeys(t);
    Parts(t, r, deps);
    SourceParents(t, r, deps, s);
    var ps := Loaded(t, r, deps).parents[s];
    if OtherDirty(t, d, r, s) {
      var p :| p in t.parents[s] && p != r && p in d;
      assert p in ps;
    } else if t.parents[s] == [] {
      assert ps[0] == r;
    } else {
      var p :| p in t.parents[s] && p in d;
      assert p == r && r in ps;
    }
  }

  lemma WasCovered(t: Topology, d: set<Vertex>, r: Vertex, deps: seq<string>, s: Vertex)
    requires WellFormed(t) && r in t.rules && HasInputs(t, r) && s in t.parents && IsSource(t, s) && s in d
    requires var t' := Loaded(t, r, deps); WellFormed(t') && DirtySource(t', d * (t'.nodes + t'.rules))
    ensures var imp := NewInputs(ExplicitInputs(t, r), deps);
            && (s in imp && s !in t.inputs[r] ==> r in d || OtherDirty(t, d, r, s))
            && (s in ImplicitInputs(t, r) && s !in imp ==> OtherDirty(t, d, r, s) || t.parents[s] == [r])
  {
    hide WellFormed, NewInputs, ExplicitInputs, ImplicitInputs, Without;
    var t' := Loaded(t, r, deps);
    Parts(t, r, deps);
    SameKeys(t');
    SourceParents(t, r, deps, s);
    if s in t'.parents && t'.parents[s] != [] {
      var p :| p in t'.parents[s] && p in d;
    }
  }

  /** Above a rule there are only rules and generated nodes. */
  lemma AboveGenerated(t: Topology, r: Vertex, u: Vertex)
    requires WellFormed(t) && r in t.rules
    ensures u in Above(t, r) && u !in t.rules ==> u in t.child
  {
    hide WellFormed, UpEdges;
    if u in Above(t, r) && u != r {
      var w := ReachesSplitLast(UpEdges(t), r, u);
      UpStep(t, w, u);
      if w in t.nodes {
        NodeShape(t, w);
      } else {
        RuleShape(t, w);
      }
    }
  }

  /** The pairs that keep `ns` out of the counter of `r`. */
  ghost function Excluded(r: Vertex, ns: seq<Vertex>): set<(Vertex, Vertex)> {
    set n | n in ns :: (r, n)
  }

  /** The start of Depfile::load: the implicit inputs of `r` leave its counter and its list. */
  method DropImplicit(g: Graph, r: Vertex) returns (before: set<Vertex>)
    requires WellFormed(g.topo) && g.Counted() && g.Exact() && r in g.topo.rules
    requires HasInputs(g.topo, r)
    modifies g`topo, g`numReady, g`blocked
    ensures before == Range(ImplicitInputs(old(g.topo), r))
    ensures g.topo == WithImplicit(old(g.topo), r, ExplicitInputs(old(g.topo), r), [])
    ensures g.Counted() && g.Exact()
  {
    hide WellFormed, NoDuplicates, Graph.Counted, Excluded, WithImplicit, Waits;
    RuleShape(g.topo, r);
    before := UncountImplicit(g, r);
    SameMap(g.topo, r);
    ShortenInputs(g, r);
  }

  method UncountImplicit(g: Graph, r: Vertex) returns (before: set<Vertex>)
    requires g.Counted() && g.Exact() && r in g.topo.inputs && NoDuplicates(g.topo.inputs[r])
    requires r in g.topo.implicits && g.topo.implicits[r] <= |g.topo.inputs[r]|
    modifies g`numReady, g`blocked
    ensures before == Range(ImplicitInputs(g.topo, r)) && g.Counted()
    ensures g.blocked == Waits(g.topo, g.dirty) + Excluded(r, ImplicitInputs(g.topo, r))
  {
    hide NoDuplicates, Graph.Counted, Excluded;
    var inputs := g.topo.inputs[r];
    before := {};
    ghost var b0 := g.blocked;
    NoneExcluded(r);
    assert inputs[|inputs|..] == [];
    for i := 0 to g.topo.implicits[r]
      invariant g.Counted() && before == Range(inputs[|inputs| - i..])
      invariant g.blocked == b0 + Excluded(r, inputs[|inputs| - i..])
    {
      var dep := inputs[|inputs| - i - 1];
      NextExcluded(r, inputs, |inputs| - i - 1);
      before := before + {dep};
      if dep !in g.dirty || dep !in g.topo.child {
        g.MarkInputDirty(r, dep);
      }
    }
  }

  method ShortenInputs(g: Graph, r: Vertex)
    requires g.Counted() && HasInputs(g.topo, r)
    requires NoDuplicates(g.topo.inputs[r])
    requires g.blocked == Waits(g.topo, g.dirty) + Excluded(r, ImplicitInputs(g.topo, r))
    modifies g`topo, g`blocked
    ensures g.topo == old(g.topo).(inputs := old(g.topo).inputs[r := ExplicitInputs(old(g.topo), r)],
                                   implicits := old(g.topo).implicits[r := 0])
    ensures g.Counted() && g.Exact()
  {
    hide NoDuplicates, Excluded, NotBlocked, Waits;
    Forget(g, r);
    var inputs := g.topo.inputs[r];
    var explicit := |inputs| - g.topo.implicits[r];
    g.topo := g.topo.(inputs := g.topo.inputs[r := inputs[..explicit]], implicits := g.topo.implicits[r := 0]);
    g.blocked := Waits(g.topo, g.dirty);
  }

  lemma NoneExcluded(r: Vertex)
    ensures Excluded(r, []) == {}
  {
  }

  lemma NextExcluded(r: Vertex, ns: seq<Vertex>, k: nat)
    requires k < |ns| && NoDuplicates(ns)
    ensures Excluded(r, ns[k..]) == Excluded(r, ns[k + 1..]) + {(r, ns[k])}
    ensures (r, ns[k]) !in Excluded(r, ns[k + 1..])
    ensures Range(ns[k..]) == Range(ns[k + 1..]) + {ns[k]}
  {
    assert ns[k..] == [ns[k]] + ns[k + 1..];
  }

  /** Shortening the input list by blocked inputs does not change what the counter counts. */
  lemma Forget(g: Graph, r: Vertex)
    requires g.Counted() && HasInputs(g.topo, r)
    requires NoDuplicates(g.topo.inputs[r])
    requires g.blocked == Waits(g.topo, g.dirty) + Excluded(r, ImplicitInputs(g.topo, r))
    ensures var ex := ExplicitInputs(g.topo, r);
            var t' := g.topo.(inputs := g.topo.inputs[r := ex], implicits := g.topo.implicits[r := 0]);
            && g.numReady.Keys == t'.inputs.Keys
            && forall q :: q in g.numReady ==> g.numReady[q] == |NotBlocked(t'.inputs[q], Waits(t', g.dirty), q)|
  {
    hide Waits, Excluded, NotBlocked;
    var ex := ExplicitInputs(g.topo, r);
    var t' := g.topo.(inputs := g.topo.inputs[r := ex], implicits := g.topo.implicits[r := 0]);
    forall q | q in g.numReady
      ensures NotBlocked(g.topo.inputs[q], g.blocked, q) == NotBlocked(t'.inputs[q], Waits(t', g.dirty), q)
    {
      CountsAlike(g.topo, g.dirty, r, q);
    }
  }

  lemma CountsAlike(t: Topology, d: set<Vertex>, r: Vertex, q: Vertex)
    requires HasInputs(t, r) && q in t.inputs && NoDuplicates(t.inputs[r])
    ensures var t' := t.(inputs := t.inputs[r := ExplicitInputs(t, r)], implicits := t.implicits[r := 0]);
            NotBlocked(t.inputs[q], Waits(t, d) + Excluded(r, ImplicitInputs(t, r)), q)
            == NotBlocked(t'.inputs[q], Waits(t', d), q)
  {
    var ex, imp := ExplicitInputs(t, r), ImplicitInputs(t, r);
    assert t.inputs[r] == ex + imp;
    forall i, j | 0 <= i < |ex| && 0 <= j < |imp| ensures ex[i] != imp[j] {
      assert t.inputs[r][i] != t.inputs[r][|ex| + j];
    }
  }

  lemma SameMap(t: Topology, r: Vertex)
    requires WellFormed(t) && r in t.rules && HasInputs(t, r)
    ensures WithImplicit(t, r, ExplicitInputs(t, r), []) ==
            t.(inputs := t.inputs[r := ExplicitInputs(t, r)], implicits := t.implicits[r := 0])
  {
    hide WellFormed;
    assert ExplicitInputs(t, r) + [] == ExplicitInputs(t, r);
    assert WithImplicit(t, r, ExplicitInputs(t, r), []).parents == t.parents;
  }

  /** The graph after `n` has become an implicit input of `r`, unless it already is an input. */
  function WithDependency(t: Topology, r: Vertex, n: Vertex): Topology
    requires r in t.inputs && r in t.implicits
  {
    if n in t.parents && n in t.inputs[r] then t
    else
      var ps := if n in t.parents then t.parents[n] else [];
      t.(nodes := t.nodes + {n},
         inputs := t.inputs[r := t.inputs[r] + [n]],
         implicits := t.implicits[r := t.implicits[r] + 1],
         parents := t.parents[n := if r in ps then ps else ps + [r]])
  }

  /** The entry is a dirty generated node that is new to the rule. */
  predicate Misleads(t: Topology, d: set<Vertex>, r: Vertex, n: Vertex) {
    n in d && n in t.child && r in t.inputs && n !in t.inputs[r]
  }

  /** Depfile::setRuleDependency.  A new input is counted if it is ready; if it is not, the code
      takes one off the counter although the node was never counted, so the counter stays exact
      exactly when the entry is not both new to the rule and a dirty generated node.  The code
      asserts that the counter does not fall below zero. */
  method SetRuleDependency(g: Graph, dep: string, r: Vertex) returns (node: Vertex)
    requires g.numReady.Keys == g.topo.inputs.Keys && r in g.topo.inputs && r in g.topo.implicits
    requires r !in g.topo.parents && g.topo.parents.Keys == g.topo.nodes && g.dirty <= g.stamp.Keys
    requires g.stamp.Keys == g.topo.nodes + g.topo.rules
    requires Node(dep) !in g.topo.rules && forall n :: n in g.topo.inputs[r] ==> n in g.topo.nodes
    requires Misleads(g.topo, g.dirty, r, Node(dep)) ==> g.numReady[r] > 0
    modifies g`topo, g`numReady, g`blocked, g`stamp
    ensures node == Node(dep) && g.topo == WithDependency(old(g.topo), r, node)
    ensures g.stamp.Keys == g.topo.nodes + g.topo.rules && g.dirty <= g.stamp.Keys && g.Exact()
    ensures Restamped(old(g.stamp), g.stamp) && old(g.stamp.Keys) <= g.stamp.Keys
    ensures g.numReady.Keys == g.topo.inputs.Keys
    ensures forall k: nat :: CountsBut(old(g.topo), g.dirty, old(g.numReady), r, k) ==>
              CountsBut(g.topo, g.dirty, g.numReady, r, k + if Misleads(old(g.topo), g.dirty, r, node) then 1 else 0)
    ensures old(g.Counted() && g.Exact()) ==> (g.Counted() <==> !Misleads(old(g.topo), g.dirty, r, node))
  {
    hide NotBlocked, Waits, WithDependency, Graph.Counted, CountsBut, Counts;
    if g.Exact() {
      CountsMeans(g);
    }
    AddNodeTo(g.topo, r, Node(dep));
    node := Node(dep);
    if node in g.topo.nodes && node in g.topo.inputs[r] {
      g.blocked := Waits(g.topo, g.dirty);
      return;
    }
    ghost var t := g.topo;
    AddEdge(g, r, node);
    CountDependency(g, r, node, t);
  }

  /** A vertex keeps its timestamp, and a new one has none yet. */
  ghost predicate Restamped(before: map<Vertex, int>, after: map<Vertex, int>) {
    forall v :: v in after ==> after[v] == if v in before then before[v] else 0
  }

  lemma SameStamps(stamp: map<Vertex, int>)
    ensures Restamped(stamp, stamp)
  {
  }

  lemma RestampedTwice(a: map<Vertex, int>, b: map<Vertex, int>, c: map<Vertex, int>)
    requires Restamped(a, b) && Restamped(b, c) && (a.Keys <= b.Keys || c.Keys <= b.Keys)
    ensures Restamped(a, c)
  {
  }

  /** The edge between a rule and its new input, which may be a new node. */
  method AddEdge(g: Graph, r: Vertex, node: Vertex)
    requires r in g.topo.inputs && r in g.topo.implicits && node !in g.topo.inputs[r] && node !in g.topo.rules
    requires g.topo.parents.Keys == g.topo.nodes && g.dirty <= g.stamp.Keys
    requires g.stamp.Keys == g.topo.nodes + g.topo.rules
    modifies g`topo, g`stamp
    ensures g.topo == WithDependency(old(g.topo), r, node) && g.topo.child == old(g.topo).child
    ensures g.topo.inputs == old(g.topo).inputs[r := old(g.topo).inputs[r] + [node]]
    ensures g.stamp.Keys == g.topo.nodes + g.topo.rules && g.dirty <= g.stamp.Keys
    ensures Restamped(old(g.stamp), g.stamp) && old(g.stamp.Keys) <= g.stamp.Keys
  {
    var t := g.topo;
    var ps := if node in t.nodes then t.parents[node] else [];
    if node !in t.nodes {
      g.stamp := g.stamp[node := 0];
    }
    if r !in ps {
      ps := ps + [r];
    }
    g.topo := t.(nodes := t.nodes + {node}, inputs := t.inputs[r := t.inputs[r] + [node]],
                 implicits := t.implicits[r := t.implicits[r] + 1], parents := t.parents[node := ps]);
  }

  /** The counter update of setRuleDependency; `before` is the graph without the new input. */
  method CountDependency(g: Graph, r: Vertex, node: Vertex, ghost before: Topology)
    requires r in before.inputs && node !in before.inputs[r] && g.numReady.Keys == before.inputs.Keys
    requires g.topo.child == before.child && g.topo.inputs == before.inputs[r := before.inputs[r] + [node]]
    requires Misleads(before, g.dirty, r, node) ==> g.numReady[r] > 0
    modifies g`numReady, g`blocked
    ensures g.Exact() && g.numReady.Keys == g.topo.inputs.Keys
    ensures forall k: nat :: CountsBut(before, g.dirty, old(g.numReady), r, k) ==>
              CountsBut(g.topo, g.dirty, g.numReady, r, k + if Misleads(before, g.dirty, r, node) then 1 else 0)
    ensures Counts(before, g.dirty, old(g.numReady)) ==> (g.Counted() <==> !Misleads(before, g.dirty, r, node))
  {
    hide NotBlocked, Waits, Graph.Counted, CountsBut, Counts;
    CountNew(before, g.topo, g.dirty, g.numReady, r, node);
    if node in g.dirty && node in g.topo.child {
      g.numReady := g.numReady[r := g.numReady[r] - 1];
    } else {
      g.numReady := g.numReady[r := g.numReady[r] + 1];
    }
    g.blocked := Waits(g.topo, g.dirty);
    CountsMeans(g);
  }

  /** The counters are right, but for that of `r`, which is `k` too low. */
  ghost predicate CountsBut(t: Topology, d: set<Vertex>, numReady: map<Vertex, nat>, r: Vertex, k: nat) {
    && numReady.Keys == t.inputs.Keys && r in numReady && numReady[r] + k == |ReadyInputs(t, d, r)|
    && forall q :: q in numReady && q != r ==> numReady[q] == |ReadyInputs(t, d, q)|
  }

  lemma CountsButIff(t: Topology, d: set<Vertex>, numReady: map<Vertex, nat>, r: Vertex, k: nat)
    ensures r in t.inputs ==> (CountsBut(t, d, numReady, r, 0) <==> Counts(t, d, numReady))
    ensures CountsBut(t, d, numReady, r, k) ==> (Counts(t, d, numReady) <==> k == 0)
  {
    hide ReadyInputs;
  }

  lemma AddNodeTo(t: Topology, r: Vertex, n: Vertex)
    requires r in t.inputs && r in t.implicits && t.parents.Keys == t.nodes
    requires forall i :: i in t.inputs[r] ==> i in t.nodes
    ensures n in t.inputs[r] ==> WithDependency(t, r, n) == t
  {
  }

  /** What a new last input does to the counter of its rule. */
  lemma CountNew(t: Topology, t': Topology, d: set<Vertex>, numReady: map<Vertex, nat>, r: Vertex, n: Vertex)
    requires r in t.inputs && n !in t.inputs[r] && t'.child == t.child && t'.inputs == t.inputs[r := t.inputs[r] + [n]]
    requires numReady.Keys == t.inputs.Keys
    ensures forall k: nat :: CountsBut(t, d, numReady, r, k) ==>
              if Misleads(t, d, r, n) then
                numReady[r] > 0 ==> CountsBut(t', d, numReady[r := numReady[r] - 1], r, k + 1)
              else CountsBut(t', d, numReady[r := numReady[r] + 1], r, k)
    ensures Counts(t, d, numReady) ==>
              if Misleads(t, d, r, n) then numReady[r] > 0 ==> !Counts(t', d, numReady[r := numReady[r] - 1])
              else Counts(t', d, numReady[r := numReady[r] + 1])
  {
    hide ReadyInputs;
    NewReadyInput(t, t', d, r, n);
    forall q | q in numReady && q != r ensures ReadyInputs(t', d, q) == ReadyInputs(t, d, q) {
      OtherReadyInputs(t, t', d, q);
    }
    assert Counts(t, d, numReady) ==> CountsBut(t, d, numReady, r, 0);
  }

  lemma OtherReadyInputs(t: Topology, t': Topology, d: set<Vertex>, q: Vertex)
    requires q in t.inputs && q in t'.inputs && t'.inputs[q] == t.inputs[q] && t'.child == t.child
    ensures ReadyInputs(t', d, q) == ReadyInputs(t, d, q)
  {
  }

  lemma NewReadyInput(t: Topology, t': Topology, d: set<Vertex>, r: Vertex, n: Vertex)
    requires r in t.inputs && n !in t.inputs[r] && t'.child == t.child && t'.inputs == t.inputs[r := t.inputs[r] + [n]]
    ensures n !in ReadyInputs(t, d, r)
    ensures ReadyInputs(t', d, r) == ReadyInputs(t, d, r) + (if n in d && n in t.child then {} else {n})
  {
  }

  /** Adding the listed dependencies one by one builds the list of new inputs. */
  lemma DependencyStep(t: Topology, r: Vertex, ex: seq<Vertex>, imp: seq<Vertex>, n: Vertex)
    requires r in t.inputs && r in t.implicits && r !in t.parents && t.parents.Keys == t.nodes
    requires forall i :: i in ex ==> i in t.nodes
    ensures WithDependency(WithImplicit(t, r, ex, imp), r, n)
            == WithImplicit(t, r, ex, if n in ex || n in imp then imp else imp + [n])
  {
    hide ImplicitParents, Range;
    ParentKeys(t.parents, r, imp);
    if n !in ex && n !in imp {
      assert ex + imp + [n] == ex + (imp + [n]);
      assert Range(imp + [n]) == Range(imp) + {n};
      NextParents(t.parents, r, imp, n);
      assert t.nodes + Range(imp) + {n} == t.nodes + Range(imp + [n]);
    }
  }

  lemma ParentKeys(parents: map<Vertex, seq<Vertex>>, r: Vertex, imp: seq<Vertex>)
    ensures ImplicitParents(parents, r, imp).Keys == parents.Keys + Range(imp)
  {
  }

  lemma NextParents(parents: map<Vertex, seq<Vertex>>, r: Vertex, imp: seq<Vertex>, n: Vertex)
    requires n !in imp
    ensures n in ImplicitParents(parents, r, imp) <==> n in parents
    ensures var ps := if n in parents then ImplicitParents(parents, r, imp)[n] else [];
            ImplicitParents(parents, r, imp + [n])
            == ImplicitParents(parents, r, imp)[n := if r in ps then ps else ps + [r]]
  {
    hide ImplicitParents;
    ParentsAt(parents, r, imp, n, n);
    var ps := if n in parents then ImplicitParents(parents, r, imp)[n] else [];
    var a, b := ImplicitParents(parents, r, imp + [n]),
        ImplicitParents(parents, r, imp)[n := if r in ps then ps else ps + [r]];
    forall m ensures (m in a <==> m in b) && (m in a ==> a[m] == b[m]) {
      ParentsAt(parents, r, imp, n, m);
    }
  }

  lemma ParentsAt(parents: map<Vertex, seq<Vertex>>, r: Vertex, imp: seq<Vertex>, n: Vertex, m: Vertex)
    requires n !in imp
    ensures n in ImplicitParents(parents, r, imp) <==> n in parents
    ensures var ps := if n in parents then ImplicitParents(parents, r, imp)[n] else [];
            var a, b := ImplicitParents(parents, r, imp + [n]),
                ImplicitParents(parents, r, imp)[n := if r in ps then ps else ps + [r]];
            (m in a <==> m in b) && (m in a ==> a[m] == b[m])
  {
    assert [] + [r] == [r];
    assert m in imp + [n] <==> m in imp || m == n;
  }

  /** The end of Depfile::load: `r` leaves the parents of every dropped dependency. */
  method DropStale(g: Graph, r: Vertex, stale: set<Vertex>)
    requires g.Exact() && g.stamp.Keys == g.topo.nodes + g.topo.rules && g.topo.parents.Keys == g.topo.nodes
    requires stale <= g.topo.nodes && forall n :: n in stale ==> r in g.topo.parents[n] && n !in g.topo.rules
    modifies g`topo, g`dirty, g`lazy, g`stamp
    ensures g.topo == Dropped(old(g.topo), r, stale)
    ensures g.dirty == old(g.dirty) - Gone(old(g.topo), r, stale) && g.lazy == old(g.lazy) - Gone(old(g.topo), r, stale)
    ensures g.stamp.Keys == g.topo.nodes + g.topo.rules && g.Exact() && (g.Counted() <==> old(g.Counted()))
    ensures Restamped(old(g.stamp), g.stamp) && g.stamp.Keys <= old(g.stamp.Keys)
  {
    hide Graph.Counted, Waits, Dropped, Gone, Without;
    ghost var t, d, l := g.topo, g.dirty, g.lazy;
    var left := stale;
    NothingDropped(t, r);
    assert stale - left == {};
    while left != {}
      invariant left <= stale && g.topo == Dropped(t, r, stale - left)
      invariant g.dirty == d - Gone(t, r, stale - left) && g.lazy == l - Gone(t, r, stale - left)
      invariant g.stamp.Keys == g.topo.nodes + g.topo.rules && g.Exact() && (g.Counted() <==> old(g.Counted()))
      invariant Restamped(old(g.stamp), g.stamp) && g.stamp.Keys <= old(g.stamp.Keys)
      decreases left
    {
      var n :| n in left;
      DropStep(t, r, stale - left, n);
      DropGone(t, r, stale - left, n);
      assert stale - (left - {n}) == stale - left + {n};
      DropOne(g, r, n);
      left := left - {n};
    }
    assert stale - {} == stale;
  }

  method DropOne(g: Graph, r: Vertex, n: Vertex)
    requires g.Exact() && n in g.topo.parents && r in g.topo.parents[n] && n !in g.topo.rules
    requires g.stamp.Keys == g.topo.nodes + g.topo.rules
    modifies g`topo, g`dirty, g`lazy, g`stamp
    ensures g.topo == DroppedOne(old(g.topo), r, n)
    ensures g.dirty == old(g.dirty) - (if n in g.topo.parents then {} else {n})
    ensures g.lazy == old(g.lazy) - (if n in g.topo.parents then {} else {n})
    ensures g.stamp.Keys == g.topo.nodes + g.topo.rules && g.Exact() && (g.Counted() <==> old(g.Counted()))
    ensures Restamped(old(g.stamp), g.stamp) && g.stamp.Keys <= old(g.stamp.Keys)
  {
    hide NotBlocked, Without;
    var rest := Without(g.topo.parents[n], r);
    if rest == [] && n !in g.topo.child {
      g.topo := g.topo.(nodes := g.topo.nodes - {n}, parents := g.topo.parents - {n}, roots := g.topo.roots - {n});
      g.dirty, g.lazy, g.stamp := g.dirty - {n}, g.lazy - {n}, g.stamp - {n};
    } else {
      g.topo := g.topo.(parents := g.topo.parents[n := rest]);
    }
  }

  function DroppedOne(t: Topology, r: Vertex, n: Vertex): Topology
    requires n in t.parents
  {
    var rest := Without(t.parents[n], r);
    if rest == [] && n !in t.child
    then t.(nodes := t.nodes - {n}, parents := t.parents - {n}, roots := t.roots - {n})
    else t.(parents := t.parents[n := rest])
  }

  lemma NothingDropped(t: Topology, r: Vertex)
    ensures Dropped(t, r, {}) == t && Gone(t, r, {}) == {}
  {
    assert Dropped(t, r, {}).parents == t.parents;
  }

  lemma GoneMore(t: Topology, r: Vertex, done: set<Vertex>, n: Vertex)
    requires n in t.parents
    ensures Gone(t, r, done + {n}) == Gone(t, r, done)
            + (if n !in t.child && Without(t.parents[n], r) == [] then {n} else {})
  {
    hide Without;
  }

  lemma DropStep(t: Topology, r: Vertex, done: set<Vertex>, n: Vertex)
    requires n in t.parents && n !in done && t.parents.Keys == t.nodes
    ensures n in Dropped(t, r, done).parents && Dropped(t, r, done).parents[n] == t.parents[n]
    ensures Dropped(t, r, done).rules == t.rules
    ensures DroppedOne(Dropped(t, r, done), r, n) == Dropped(t, r, done + {n})
  {
    hide Without, Gone;
    GoneMore(t, r, done, n);
    NotGone(t, r, done, n);
    DropStepParents(t, r, done, n);
  }

  lemma DropStepParents(t: Topology, r: Vertex, done: set<Vertex>, n: Vertex)
    requires n in t.parents && n !in done && t.parents.Keys == t.nodes
    ensures n in Dropped(t, r, done).parents
    ensures DroppedOne(Dropped(t, r, done), r, n).parents == Dropped(t, r, done + {n}).parents
  {
    hide Without, Gone;
    GoneMore(t, r, done, n);
    NotGone(t, r, done, n);
  }

  lemma NotGone(t: Topology, r: Vertex, done: set<Vertex>, n: Vertex)
    requires n !in done
    ensures n !in Gone(t, r, done)
  {
  }

  lemma DropGone(t: Topology, r: Vertex, done: set<Vertex>, n: Vertex)
    requires n in t.parents && n !in done
    ensures Gone(t, r, done + {n}) == Gone(t, r, done) + (if n in Dropped(t, r, done + {n}).parents then {} else {n})
  {
    hide Without, Gone;
    GoneMore(t, r, done, n);
    NotGone(t, r, done, n);
  }

  /** The depfile is about the first output of the rule. */
  predicate Matches(t: Topology, r: Vertex, parsed: Parsed) {
    parsed.Deps? && r in t.outputs && t.outputs[r] != [] && t.outputs[r][0] == Node(parsed.output)
  }

  /** Depfile::load once the file has been parsed.  A successful load turns the graph into
      `Loaded`: explicit inputs kept, implicit inputs exactly the listed ones that are not
      explicit, edges symmetric.  The counters stay exact exactly when no listed node is a dirty
      generated one, unless it is explicit: each such node makes the counter one too low.  The graph
      stays acyclic exactly when no new input lies above the rule, which is certain while the rule is
      dirty and nothing is lazily fetched, and consistent exactly when the sources stay covered and a
      clean rule gets no dirty input.  After a failed load the implicit inputs are gone from the rule's
      list but not from the nodes, so the edges stay symmetric exactly when there were no implicit
      inputs. */
  method Load(g: Graph, r: Vertex, parsed: Parsed) returns (ok: bool)
    requires Invariant(g) && ImplicitRoots(g.topo) && r in g.topo.rules && HasInputs(g.topo, r)
    requires Matches(g.topo, r, parsed) ==> StaysPositive(g.topo, g.dirty, r, parsed.ins)
    modifies g
    ensures ok <==> Matches(old(g.topo), r, parsed)
    ensures g.Exact() && (g.Counted() <==> !ok || Settled(old(g.topo), old(g.dirty), r, parsed.ins))
    ensures ok ==> CountsBut(g.topo, g.dirty, g.numReady, r, |Misleading(old(g.topo), old(g.dirty), r, parsed.ins)|)
    ensures ok ==> g.topo == Loaded(old(g.topo), r, parsed.ins) && WellFormed(g.topo) && ImplicitRoots(g.topo)
    ensures ok ==> g.dirty == old(g.dirty) * (g.topo.nodes + g.topo.rules) && g.lazy == old(g.lazy) * g.topo.nodes
    ensures ok ==> g.stamp.Keys == g.topo.nodes + g.topo.rules && Restamped(old(g.stamp), g.stamp)
    ensures ok ==> (Acyclic(g.topo) <==> forall n :: n in NewInputs(ExplicitInputs(old(g.topo), r), parsed.ins) ==>
                                                      n !in Above(old(g.topo), r))
    ensures ok && r in old(g.dirty) && old(g.lazy) == {} && Settled(old(g.topo), old(g.dirty), r, parsed.ins) ==>
              Acyclic(g.topo)
    ensures ok ==> (Consistent(g.topo, g.dirty, g.lazy) <==>
                      && SourcesCovered(old(g.topo), old(g.dirty), r, parsed.ins)
                      && (r in old(g.dirty) || Settled(old(g.topo), old(g.dirty), r, parsed.ins)))
    ensures !ok ==> g.topo == WithImplicit(old(g.topo), r, ExplicitInputs(old(g.topo), r), [])
    ensures !ok ==> g.dirty == old(g.dirty) && g.lazy == old(g.lazy) && g.stamp == old(g.stamp)
    ensures !ok ==> (WellFormed(g.topo) <==> ImplicitInputs(old(g.topo), r) == [])
    ensures !ok && ImplicitInputs(old(g.topo), r) == [] ==> g.topo == old(g.topo)
  {
    hide WellFormed, Acyclic, Checked, UniformOutputs, Graph.Counted, Graph.Exact, ImplicitRoots, Loaded,
         WithImplicit, Settled, NewInputs, Dropped, Gone, WithDependency, SourcesCovered, Above,
         ExplicitInputs, ImplicitInputs, Restamped;
    ghost var t, d, l := g.topo, g.dirty, g.lazy;
    RuleShape(t, r);
    Parts(t, r, if parsed.Deps? then parsed.ins else []);
    FailedLoad(t, r);
    InsideGraph(t, d, l);
    ImplicitShape(t, r, ExplicitInputs(t, r), []);
    var before := DropImplicit(g, r);
    if parsed.ParseError? {
      return false;
    }
    if g.topo.outputs[r][0] != Node(parsed.output) {
      return false;
    }
    var stale := AddDependencies(g, r, parsed.ins, before, t);
    StaleParents(t, r, parsed.ins);
    ghost var t1, d1, s1 := g.topo, g.dirty, g.stamp;
    DropStale(g, r, stale);
    RestampedTwice(old(g.stamp), s1, g.stamp);
    GoneAreSources(t1, r, stale);
    DropKeepsCounts(t1, g.topo, d1, g.dirty, g.numReady, r, |Misleading(t, d, r, parsed.ins)|);
    LoadedIs(t, r, parsed.ins, d, l);
    LoadedWellFormed(t, r, parsed.ins);
    LoadedRoots(t, r, parsed.ins);
    LoadedAcyclicIff(t, r, parsed.ins);
    LoadedConsistentIff(t, d, l, r, parsed.ins);
    if r in d && l == {} && Settled(t, d, r, parsed.ins) {
      SettledNotAbove(t, d, r, parsed.ins);
    }
    return true;
  }

  /** The buffer is parsed in place and the graph changes as the original contents say. */
  method LoadBuffer(g: Graph, r: Vertex, buf: array<char>) returns (ok: bool)
    requires Invariant(g) && ImplicitRoots(g.topo) && r in g.topo.rules && HasInputs(g.topo, r)
    requires buf.Length > 0 && buf[buf.Length - 1] == NUL
    requires Matches(g.topo, r, Tokenize(buf[..])) ==> StaysPositive(g.topo, g.dirty, r, Tokenize(buf[..]).ins)
    modifies g, buf
    ensures ok <==> Matches(old(g.topo), r, old(Tokenize(buf[..])))
    ensures g.Exact()
            && (g.Counted() <==> !ok || Settled(old(g.topo), old(g.dirty), r, old(Tokenize(buf[..])).ins))
    ensures ok ==> g.topo == Loaded(old(g.topo), r, old(Tokenize(buf[..])).ins) && WellFormed(g.topo)
    ensures ok ==> ImplicitRoots(g.topo)
    ensures ok ==> g.dirty == old(g.dirty) * (g.topo.nodes + g.topo.rules) && g.lazy == old(g.lazy) * g.topo.nodes
    ensures ok ==> (Acyclic(g.topo) <==>
                      forall n :: n in NewInputs(ExplicitInputs(old(g.topo), r), old(Tokenize(buf[..])).ins) ==>
                                    n !in Above(old(g.topo), r))
    ensures ok ==> (Consistent(g.topo, g.dirty, g.lazy) <==>
                      && SourcesCovered(old(g.topo), old(g.dirty), r, old(Tokenize(buf[..])).ins)
                      && (r in old(g.dirty) || Settled(old(g.topo), old(g.dirty), r, old(Tokenize(buf[..])).ins)))
    ensures !ok ==> g.topo == WithImplicit(old(g.topo), r, ExplicitInputs(old(g.topo), r), [])
    ensures !ok ==> g.dirty == old(g.dirty) && g.lazy == old(g.lazy)
    ensures !ok ==> (WellFormed(g.topo) <==> ImplicitInputs(old(g.topo), r) == [])
  {
    hide WellFormed, Acyclic, Consistent, Graph.Counted, Graph.Exact, ImplicitRoots, Loaded, WithImplicit,
         Settled, Tokenize, SourcesCovered, ExplicitInputs, ImplicitInputs, NewInputs, Above, Matches;
    var parser := new DepfileParser();
    var read := parser.Parse(buf);
    var parsed := ParseError;
    if read {
      parsed := Deps(At(buf[..], parser.out), Texts(buf[..], parser.ins));
    }
    ok := Load(g, r, parsed);
  }

  /** What stays the same when the implicit inputs of `r` become `imp`. */
  lemma ImplicitShape(t: Topology, r: Vertex, ex: seq<Vertex>, imp: seq<Vertex>)
    requires WellFormed(t) && r in t.rules && (forall n :: n in imp ==> n.Node?)
             && (forall n :: n in ex ==> n in t.nodes)
    ensures var t' := WithImplicit(t, r, ex, imp);
            && t'.outputs == t.outputs && t'.child == t.child && t'.rules == t.rules && t'.roots == t.roots
            && t'.nodes == t.nodes + Range(imp) && t'.parents.Keys == t'.nodes
            && r in t'.inputs && t'.inputs[r] == ex + imp && r in t'.implicits && r !in t'.parents
            && forall n :: n in t'.inputs[r] ==> n in t'.nodes
  {
    hide WellFormed;
    RuleShape(t, r);
    SameKeys(t);
    assert t.parents.Keys == t.nodes by { SameKeys(t); }
  }

  /** After a failed load the edges are symmetric only if nothing had to be dropped. */
  lemma FailedLoad(t: Topology, r: Vertex)
    requires WellFormed(t) && r in t.rules && HasInputs(t, r)
    ensures WellFormed(WithImplicit(t, r, ExplicitInputs(t, r), [])) <==> ImplicitInputs(t, r) == []
    ensures ImplicitInputs(t, r) == [] ==> WithImplicit(t, r, ExplicitInputs(t, r), []) == t
  {
    hide WellFormed;
    Parts(t, r, []);
    SameMap(t, r);
    var ex, old' := ExplicitInputs(t, r), ImplicitInputs(t, r);
    var t' := WithImplicit(t, r, ex, []);
    if old' == [] {
      assert t' == t;
    } else {
      var n := old'[0];
      assert n in t.inputs[r] && n !in ex;
      InputHasParent(t, r, n);
      if WellFormed(t') {
        NodeShape(t', n);
      }
    }
  }

  /** The loop of Depfile::load over the listed dependencies. */
  method AddDependencies(g: Graph, r: Vertex, deps: seq<string>, before: set<Vertex>,
                         ghost t: Topology) returns (stale: set<Vertex>)
    requires WellFormed(t) && r in t.rules && HasInputs(t, r)
    requires g.topo == WithImplicit(t, r, ExplicitInputs(t, r), []) && g.Counted() && g.Exact()
    requires g.stamp.Keys == t.nodes + t.rules && g.dirty <= t.nodes + t.rules
    requires StaysPositive(t, g.dirty, r, deps) && before == Range(ImplicitInputs(t, r))
    modifies g`topo, g`numReady, g`blocked, g`stamp
    ensures g.topo == WithImplicit(t, r, ExplicitInputs(t, r), NewInputs(ExplicitInputs(t, r), deps)) && g.Exact()
    ensures CountsBut(g.topo, g.dirty, g.numReady, r, |Misleading(t, g.dirty, r, deps)|)
    ensures g.Counted() <==> Settled(t, g.dirty, r, deps)
    ensures g.stamp.Keys == g.topo.nodes + g.topo.rules
    ensures Restamped(old(g.stamp), g.stamp) && old(g.stamp.Keys) <= g.stamp.Keys
    ensures stale == Range(ImplicitInputs(t, r)) - Range(NewInputs(ExplicitInputs(t, r), deps))
  {
    hide *;
    ghost var ex := ExplicitInputs(t, r);
    stale := before;
    SameStamps(g.stamp);
    LoadBegins(t, r, ex, deps, g.dirty);
    CountsMeans(g);
    CountsButIff(g.topo, g.dirty, g.numReady, r, 0);
    for k := 0 to |deps|
      invariant g.topo == WithImplicit(t, r, ex, NewInputs(ex, deps[..k])) && g.Exact()
      invariant CountsBut(g.topo, g.dirty, g.numReady, r, |Misleading(t, g.dirty, r, deps[..k])|)
      invariant g.stamp.Keys == g.topo.nodes + g.topo.rules && g.dirty <= g.stamp.Keys
      invariant Restamped(old(g.stamp), g.stamp) && old(g.stamp.Keys) <= g.stamp.Keys
      invariant stale == before - Listed(deps[..k])
    {
      LoadStep(t, g.dirty, r, deps, k);
      LoadCount(t, g.dirty, g.numReady, r, deps, k);
      ghost var s := g.stamp;
      var node := SetRuleDependency(g, deps[k], r);
      RestampedTwice(old(g.stamp), s, g.stamp);
      stale := stale - {node};
    }
    assert deps[..|deps|] == deps;
    LeftOver(t, r, deps);
    CountsMeans(g);
    CountsButIff(g.topo, g.dirty, g.numReady, r, |Misleading(t, g.dirty, r, deps)|);
    SettledIff(t, g.dirty, r, deps);
  }

  /** The new inputs that the counter of `r` is lowered for. */
  ghost function Misleading(t: Topology, d: set<Vertex>, r: Vertex, deps: seq<string>): set<Vertex> {
    set n | n in NewInputs(ExplicitInputs(t, r), deps) && n in t.child && n in d
  }

  lemma SettledIff(t: Topology, d: set<Vertex>, r: Vertex, deps: seq<string>)
    requires HasInputs(t, r)
    ensures Settled(t, d, r, deps) <==> |Misleading(t, d, r, deps)| == 0
  {
    var m := Misleading(t, d, r, deps);
    assert |m| == 0 <==> m == {};
    if !Settled(t, d, r, deps) {
      var n :| n in NewInputs(ExplicitInputs(t, r), deps) && n in t.child && n in d;
      assert n in m;
    }
  }

  /** Deleting sources changes no counter. */
  lemma DropKeepsCounts(t: Topology, t': Topology, d: set<Vertex>, d': set<Vertex>, numReady: map<Vertex, nat>,
                        r: Vertex, k: nat)
    requires CountsBut(t, d, numReady, r, k) && t'.inputs == t.inputs && t'.child == t.child
    requires d' <= d && forall v :: v in d - d' ==> v !in t.child
    ensures CountsBut(t', d', numReady, r, k)
  {
    assert forall q :: q in t.inputs ==> ReadyInputs(t', d', q) == ReadyInputs(t, d, q);
  }

  lemma GoneAreSources(t: Topology, r: Vertex, stale: set<Vertex>)
    ensures Dropped(t, r, stale).inputs == t.inputs && Dropped(t, r, stale).child == t.child
    ensures forall n :: n in Gone(t, r, stale) ==> n !in t.child
  {
  }

  /** The counter of `r` can be lowered for every such node in turn, as the code asserts. */
  ghost predicate StaysPositive(t: Topology, d: set<Vertex>, r: Vertex, deps: seq<string>)
    requires HasInputs(t, r)
  {
    forall k :: 0 <= k <= |deps| ==> |Misleading(t, d, r, deps[..k])| <= |ReadyAmong(t, d, r, deps[..k])|
  }

  /** The ready inputs of `r` once `deps` are added to its explicit inputs. */
  ghost function ReadyAmong(t: Topology, d: set<Vertex>, r: Vertex, deps: seq<string>): set<Vertex> {
    set n | n in ExplicitInputs(t, r) + NewInputs(ExplicitInputs(t, r), deps) && (IsSource(t, n) || n !in d)
  }

  lemma SettledStaysPositive(t: Topology, d: set<Vertex>, r: Vertex, deps: seq<string>)
    requires HasInputs(t, r) && Settled(t, d, r, deps)
    ensures StaysPositive(t, d, r, deps)
  {
    forall k | 0 <= k <= |deps| ensures |Misleading(t, d, r, deps[..k])| == 0 {
      assert forall n :: n in NewInputs(ExplicitInputs(t, r), deps[..k]) ==>
                           n in NewInputs(ExplicitInputs(t, r), deps);
      assert Misleading(t, d, r, deps[..k]) == {};
    }
  }

  lemma LoadBegins(t: Topology, r: Vertex, ex: seq<Vertex>, deps: seq<string>, d: set<Vertex>)
    requires WellFormed(t) && r in t.rules && HasInputs(t, r)
    requires ex == ExplicitInputs(t, r)
    ensures NewInputs(ex, deps[..0]) == [] && Listed(deps[..0]) == {}
    ensures WithImplicit(t, r, ex, []).nodes == t.nodes && WithImplicit(t, r, ex, []).rules == t.rules
    ensures r in WithImplicit(t, r, ex, []).inputs && |Misleading(t, d, r, deps[..0])| == 0
  {
    hide WellFormed, NewInputs, WithImplicit;
    Parts(t, r, deps);
    NoNewInputs(ex);
    assert Misleading(t, d, r, deps[..0]) == {};
    assert deps[..0] == [];
    ImplicitShape(t, r, ex, []);
  }

  /** One iteration of the loop over the listed dependencies. */
  lemma LoadStep(t: Topology, d: set<Vertex>, r: Vertex, deps: seq<string>, k: nat)
    requires WellFormed(t) && r in t.rules && HasInputs(t, r) && k < |deps|
    ensures var ex, n := ExplicitInputs(t, r), Node(deps[k]);
            var s := WithImplicit(t, r, ex, NewInputs(ex, deps[..k]));
            && r in s.inputs && r in s.implicits && r !in s.parents && s.parents.Keys == s.nodes
            && n !in s.rules && (forall i :: i in s.inputs[r] ==> i in s.nodes)
            && WithDependency(s, r, n) == WithImplicit(t, r, ex, NewInputs(ex, deps[..k + 1]))
            && Listed(deps[..k + 1]) == Listed(deps[..k]) + {n}
  {
    hide WellFormed, NewInputs, WithImplicit, WithDependency;
    var ex, n := ExplicitInputs(t, r), Node(deps[k]);
    Parts(t, r, deps);
    RuleShape(t, r);
    SameKeys(t);
    NewInputsStep(ex, deps, k);
    RuleNotNode(t, n);
    ImplicitShape(t, r, ex, NewInputs(ex, deps[..k]));
    DependencyStep(t, r, ex, NewInputs(ex, deps[..k]), n);
    assert deps[..k + 1] == deps[..k] + [deps[k]];
  }

  /** The counter in one iteration: it can be lowered, and what is missing from it grows. */
  lemma LoadCount(t: Topology, d: set<Vertex>, numReady: map<Vertex, nat>, r: Vertex, deps: seq<string>, k: nat)
    requires WellFormed(t) && r in t.rules && HasInputs(t, r) && k < |deps| && StaysPositive(t, d, r, deps)
    requires var s := WithImplicit(t, r, ExplicitInputs(t, r), NewInputs(ExplicitInputs(t, r), deps[..k]));
             CountsBut(s, d, numReady, r, |Misleading(t, d, r, deps[..k])|)
    ensures var s := WithImplicit(t, r, ExplicitInputs(t, r), NewInputs(ExplicitInputs(t, r), deps[..k]));
            && numReady.Keys == s.inputs.Keys
            && (Misleads(s, d, r, Node(deps[k])) ==> numReady[r] > 0)
            && |Misleading(t, d, r, deps[..k + 1])|
               == |Misleading(t, d, r, deps[..k])| + if Misleads(s, d, r, Node(deps[k])) then 1 else 0
  {
    hide WellFormed, NewInputs, StaysPositive, Misleading, ReadyAmong, ReadyInputs, ExplicitInputs;
    var ex := ExplicitInputs(t, r);
    var s := WithImplicit(t, r, ex, NewInputs(ex, deps[..k]));
    NewInputsStep(ex, deps, k);
    MisleadingStep(t, d, r, ex, deps, k, NewInputs(ex, deps[..k]), NewInputs(ex, deps[..k + 1]), s);
    Positive(t, d, r, deps, k + 1);
  }

  lemma MisleadingStep(t: Topology, d: set<Vertex>, r: Vertex, ex: seq<Vertex>, deps: seq<string>, k: nat,
                       imp: seq<Vertex>, more: seq<Vertex>, s: Topology)
    requires k < |deps| && ex == ExplicitInputs(t, r) && imp == NewInputs(ex, deps[..k])
    requires more == NewInputs(ex, deps[..k + 1])
    requires var n := Node(deps[k]); more == if n in ex || n in imp then imp else imp + [n]
    requires s.child == t.child && r in s.inputs && s.inputs[r] == ex + imp
    ensures var m, m' := Misleading(t, d, r, deps[..k]), Misleading(t, d, r, deps[..k + 1]);
            if Misleads(s, d, r, Node(deps[k])) then
              |m'| == |m| + 1 && ReadyAmong(t, d, r, deps[..k + 1]) == ReadyInputs(s, d, r)
            else |m'| == |m|
  {
    hide NewInputs, ExplicitInputs;
    var n := Node(deps[k]);
    var m, m' := Misleading(t, d, r, deps[..k]), Misleading(t, d, r, deps[..k + 1]);
    if Misleads(s, d, r, n) {
      assert m' == m + {n} && n !in m;
      assert forall v :: v in ex + more <==> v in ex + imp || v == n;
    } else {
      assert m' == m;
    }
  }

  lemma Positive(t: Topology, d: set<Vertex>, r: Vertex, deps: seq<string>, k: nat)
    requires HasInputs(t, r) && StaysPositive(t, d, r, deps) && k <= |deps|
    ensures |Misleading(t, d, r, deps[..k])| <= |ReadyAmong(t, d, r, deps[..k])|
  {
  }

  ghost function Listed(deps: seq<string>): set<Vertex> {
    set d | d in deps :: Node(d)
  }

  lemma NoNewInputs(ex: seq<Vertex>)
    ensures NewInputs(ex, []) == [] && Listed([]) == {}
  {
  }

  lemma NewInputsStep(ex: seq<Vertex>, deps: seq<string>, k: nat)
    requires k < |deps|
    ensures var imp, n := NewInputs(ex, deps[..k]), Node(deps[k]);
            NewInputs(ex, deps[..k + 1]) == if n in ex || n in imp then imp else imp + [n]
    ensures forall n :: n in NewInputs(ex, deps[..k]) ==> n.Node?
  {
    assert deps[..k + 1][..k] == deps[..k];
  }

  lemma LeftOver(t: Topology, r: Vertex, deps: seq<string>)
    requires WellFormed(t) && r in t.rules && HasInputs(t, r)
    ensures Range(ImplicitInputs(t, r)) - Listed(deps)
            == Range(ImplicitInputs(t, r)) - Range(NewInputs(ExplicitInputs(t, r), deps))
    ensures forall n :: n in NewInputs(ExplicitInputs(t, r), deps) ==> n.Node?
  {
    hide WellFormed;
    Parts(t, r, deps);
    forall n | n in ImplicitInputs(t, r) ensures n.Node? {
      NodeShape(t, n);
    }
  }

  /** The nodes to drop still list `r` as a parent. */
  lemma StaleParents(t: Topology, r: Vertex, deps: seq<string>)
    requires WellFormed(t) && r in t.rules && HasInputs(t, r)
    ensures var t' := WithImplicit(t, r, ExplicitInputs(t, r), NewInputs(ExplicitInputs(t, r), deps));
            var stale := Range(ImplicitInputs(t, r)) - Range(NewInputs(ExplicitInputs(t, r), deps));
            && t'.parents.Keys == t'.nodes && t'.rules == t.rules && stale <= t'.nodes
            && forall n :: n in stale ==> n in t'.parents && r in t'.parents[n] && n !in t'.rules
  {
    hide WellFormed, NewInputs;
    Parts(t, r, deps);
    LeftOver(t, r, deps);
    ImplicitShape(t, r, ExplicitInputs(t, r), NewInputs(ExplicitInputs(t, r), deps));
    forall n | n in ImplicitInputs(t, r) ensures n in t.parents && r in t.parents[n] && n !in t.rules {
      InputHasParent(t, r, n);
      NodeShape(t, n);
    }
  }

  lemma LoadedIs(t: Topology, r: Vertex, deps: seq<string>, d: set<Vertex>, l: set<Vertex>)
    requires WellFormed(t) && r in t.rules && HasInputs(t, r)
    requires d <= t.nodes + t.rules && l <= t.nodes
    ensures var t1 := WithImplicit(t, r, ExplicitInputs(t, r), NewInputs(ExplicitInputs(t, r), deps));
            var stale := Range(ImplicitInputs(t, r)) - Range(NewInputs(ExplicitInputs(t, r), deps));
            && Dropped(t1, r, stale) == Loaded(t, r, deps)
            && d - Gone(t1, r, stale) == d * (Loaded(t, r, deps).nodes + Loaded(t, r, deps).rules)
            && l - Gone(t1, r, stale) == l * Loaded(t, r, deps).nodes
  {
    hide WellFormed, NewInputs, Without;
    Parts(t, r, deps);
    forall n | n in ImplicitInputs(t, r) ensures n !in t.rules {
      NodeShape(t, n);
    }
  }
}
