/** Small graphs on which the code does not keep the promises that it keeps in general.  The exact
    conditions are stated where the steps are modelled. */
module Counterexamples {
  import opened Reachability
  import opened Topology
  import opened DirtyTracking
  import opened GraphInvariant
  import opened Planning
  import opened LazyFetch
  import opened DepfileParsing
  import opened DepfileLoading
  import opened Daemon

  const S := Node("s")
  const A := Node("a")
  const B := Node("bb")
  const C := Node("ccc")
  const P := Rule(0)
  const Q := Rule(1)

  /** A source, a rule that makes one or two nodes of it, and a rule that makes another of the first;
      the last `imp` inputs of the second rule come from a depfile. */
  function Chain(cmd: string, two: bool, imp: nat): Topology {
    var outs := if two then [A, B] else [A];
    Topology({S, A, C} + (if two then {B} else {}), {P, Q}, map[P := [S], Q := [A]], map[P := outs, Q := [C]],
             map[P := 0, Q := imp], map[P := cmd, Q := "cc"],
             if two then map[A := P, B := P, C := Q] else map[A := P, C := Q],
             if two then map[S := [P], A := [Q], B := [], C := []] else map[S := [P], A := [Q], C := []],
             {C} + (if two then {B} else {}) + (if imp == 1 then {A} else {}))
  }

  const RANK: map<Vertex, nat> := map[S := 0, P := 1, A := 2, B := 2, Q := 3, C := 4]

  lemma ChainTyped(cmd: string, two: bool, imp: nat)
    requires imp <= 1
    ensures Typed(Chain(cmd, two, imp))
  {
  }

  lemma ChainInputs(cmd: string, two: bool, imp: nat)
    ensures InputEdges(Chain(cmd, two, imp))
  {
  }

  lemma ChainOutputs(cmd: string, two: bool, imp: nat)
    ensures OutputEdges(Chain(cmd, two, imp))
  {
  }

  lemma ChainWellFormed(cmd: string, two: bool, imp: nat)
    requires imp <= 1 && (cmd != "" || !two)
    ensures WellFormed(Chain(cmd, two, imp))
  {
    hide Typed, InputEdges, OutputEdges;
    ChainTyped(cmd, two, imp);
    ChainInputs(cmd, two, imp);
    ChainOutputs(cmd, two, imp);
    ChainHasOutputs(cmd, two, imp);
  }

  lemma ChainHasOutputs(cmd: string, two: bool, imp: nat)
    requires cmd != "" || !two
    ensures HasOutputs(Chain(cmd, two, imp))
  {
  }

  lemma ChainRoots(cmd: string, two: bool, imp: nat)
    requires imp <= 1
    ensures ImplicitRoots(Chain(cmd, two, imp))
  {
    var t := Chain(cmd, two, imp);
    assert HasInputs(t, Q) && (imp == 0 ==> ExplicitInputs(t, Q) == [A]);
  }

  lemma ChainRanked(cmd: string, two: bool, imp: nat)
    requires imp <= 1 && (cmd != "" || !two)
    ensures Ranked(Chain(cmd, two, imp), RANK) && Acyclic(Chain(cmd, two, imp))
  {
    hide WellFormed, Chain, UpEdges, Ranked;
    var t := Chain(cmd, two, imp);
    ChainWellFormed(cmd, two, imp);
    forall u, v | Step(UpEdges(t), u, v) ensures u in RANK && v in RANK && RANK[u] < RANK[v] {
      ChainStep(cmd, two, imp, u, v);
    }
    ChainVertices(cmd, two, imp);
    RankedMeans(t, RANK);
    AcyclicWitness(t, RANK);
  }

  lemma ChainVertices(cmd: string, two: bool, imp: nat)
    ensures Chain(cmd, two, imp).nodes + Chain(cmd, two, imp).rules <= RANK.Keys
  {
  }

  lemma ChainStep(cmd: string, two: bool, imp: nat, u: Vertex, v: Vertex)
    requires Step(UpEdges(Chain(cmd, two, imp)), u, v)
    ensures (u, v) in {(S, P), (P, A), (P, B), (A, Q), (Q, C)}
  {
  }

  lemma RankedMeans(t: Topology, rank: map<Vertex, nat>)
    requires t.nodes + t.rules <= rank.Keys
    requires forall u, v :: Step(UpEdges(t), u, v) ==> u in rank && v in rank && rank[u] < rank[v]
    ensures Ranked(t, rank)
  {
  }

  lemma CleanIsConsistent(cmd: string, two: bool, imp: nat)
    ensures Consistent(Chain(cmd, two, imp), {}, {})
  {
  }

  /** One of two clean outputs is reported changed: its rule is dirty and its sibling is not. */
  lemma SiblingLeftClean()
    ensures var t := Chain("cc", true, 0);
            && WellFormed(t) && Acyclic(t) && Consistent(t, {}, {}) && A in t.nodes && !SafeToMark(t, {}, A)
            && !Consistent(t, {} + MarkedBy(t, A), {} - Above(t, A))
  {
    hide WellFormed, Acyclic, Ranked, Consistent, Above;
    ChainWellFormed("cc", true, 0);
    ChainRanked("cc", true, 0);
    CleanIsConsistent("cc", true, 0);
    MarkedConsistent(Chain("cc", true, 0), RANK, {}, {}, A);
  }

  /** A phony target is reported changed: it is dirty and its rule is not. */
  lemma PhonyRuleLeftClean()
    ensures var t := Chain("", false, 0);
            && WellFormed(t) && Acyclic(t) && Consistent(t, {}, {}) && A in t.nodes && IsPhony(t, P)
                && !SafeToMark(t, {}, A)
            && !Consistent(t, {} + MarkedBy(t, A), {} - Above(t, A))
  {
    hide WellFormed, Acyclic, Ranked, Consistent, Above;
    ChainWellFormed("", false, 0);
    ChainRanked("", false, 0);
    CleanIsConsistent("", false, 0);
    MarkedConsistent(Chain("", false, 0), RANK, {}, {}, A);
  }

  const ALL: set<Vertex> := {S, P, A, B, Q, C}

  /** One of two dirty outputs is fetched from the cache, and then their rule is built: the rule that
      consumes the fetched one is told a second time, and counts two ready inputs of one. */
  lemma CountedTwice()
    ensures var t := Chain("cc", true, 0);
            && WellFormed(t) && Consistent(t, ALL, {}) && t.inputs.Keys == {P, Q} && Counts(t, ALL, map[P := 1, Q := 0])
            && Told(t, map[P := 1, Q := 0], [A]) == map[P := 1, Q := 1] && Counts(t, ALL - {A}, map[P := 1, Q := 1])
            && Checked(t, ALL - {A}, {A}) && !UniformOutputs(t, ALL - {A})
            && Told(t, map[P := 1, Q := 1], [A, B]) == map[P := 1, Q := 2]
            && !Counts(t, ALL - {A} - Range([A, B]), map[P := 1, Q := 2])
  {
    hide WellFormed, Chain, Told, Counts, Consistent, Checked, UniformOutputs, Range;
    var t := Chain("cc", true, 0);
    ChainWellFormed("cc", true, 0);
    AllConsistent();
    ToldTwice();
    FetchConsistent(t, ALL, {}, A);
    ConsistentParts(t, ALL, {});
    ToldIff(t, ALL - {A}, map[P := 1, Q := 1], [A, B]);
    assert [A, B][0] == A;
    assert {} + {A} == {A};
  }

  /** The counters of the two rules, one after the other. */
  lemma ToldTwice()
    ensures var t := Chain("cc", true, 0);
            && A in t.child && B in t.child && t.child[A] == P && P in t.outputs && |t.outputs[P]| == 2
            && A in t.parents && t.parents[A] != [] && t.inputs.Keys == {P, Q}
            && Counts(t, ALL, map[P := 1, Q := 0]) && Counts(t, ALL - {A}, map[P := 1, Q := 1])
            && Told(t, map[P := 1, Q := 0], [A]) == map[P := 1, Q := 1]
                && Told(t, map[P := 1, Q := 1], [A, B]) == map[P := 1, Q := 2]
  {
    hide Counts, Told;
    ReadyTwice();
    TakenTwice(0, [A]);
    TakenTwice(1, [A, B]);
  }

  lemma TakenTwice(n: nat, os: seq<Vertex>)
    requires os == [A] || os == [A, B]
    ensures var t := Chain("cc", true, 0);
            t.inputs.Keys == {P, Q} && Told(t, map[P := 1, Q := n], os) == map[P := 1, Q := n + 1]
  {
    hide Chain, Taken;
    OnlyQTakes(os);
  }

  lemma OnlyQTakes(os: seq<Vertex>)
    requires os == [A] || os == [A, B]
    ensures var t := Chain("cc", true, 0); t.inputs.Keys == {P, Q} && |Taken(t, os, P)| == 0 && |Taken(t, os, Q)| == 1
  {
    var t := Chain("cc", true, 0);
    assert Taken(t, os, P) == {} && Taken(t, os, Q) == {A};
  }

  lemma ReadyTwice()
    ensures var t := Chain("cc", true, 0);
            && Counts(t, ALL, map[P := 1, Q := 0]) && Counts(t, ALL - {A}, map[P := 1, Q := 1])
  {
    var t := Chain("cc", true, 0);
    assert ReadyInputs(t, ALL, P) == {S} && ReadyInputs(t, ALL, Q) == {};
    assert ReadyInputs(t, ALL - {A}, P) == {S} && ReadyInputs(t, ALL - {A}, Q) == {A};
  }

  lemma ConsistentParts(t: Topology, d: set<Vertex>, lazy: set<Vertex>)
    requires Consistent(t, d, lazy)
    ensures Checked(t, d, lazy) && UniformOutputs(t, d)
  {
  }

  lemma AllConsistent()
    ensures Consistent(Chain("cc", true, 0), ALL, {})
  {
    var t := Chain("cc", true, 0);
    assert P in t.parents[S];
  }

  /** The same, but the second rule consumes the source as well, which may come from its depfile. */
  function Diamond(two: bool, imp: nat): Topology {
    var t := Chain("cc", two, 0);
    t.(inputs := t.inputs[Q := [A, S]], implicits := t.implicits[Q := imp], parents := t.parents[S := [P, Q]])
  }

  lemma DiamondWellFormed(two: bool, imp: nat)
    requires imp <= 1
    ensures WellFormed(Diamond(two, imp))
  {
    hide Typed, InputEdges, OutputEdges, HasOutputs, Diamond;
    DiamondTyped(two, imp);
    DiamondInputs(two, imp);
    DiamondOutputs(two, imp);
  }

  lemma DiamondTyped(two: bool, imp: nat)
    requires imp <= 1
    ensures Typed(Diamond(two, imp))
  {
    ChainTyped("cc", two, 0);
  }

  lemma DiamondInputs(two: bool, imp: nat)
    ensures InputEdges(Diamond(two, imp))
  {
    hide NoDuplicates;
    assert NoDuplicates([A, S]) && NoDuplicates([S]) && NoDuplicates([P, Q]) && NoDuplicates([P]) by {
      ShortLists();
    }
    assert NoDuplicates([Q]) && NoDuplicates<Vertex>([]) by {
      ShortLists();
    }
  }

  lemma ShortLists()
    ensures forall v: Vertex :: NoDuplicates([v])
    ensures NoDuplicates([A, S]) && NoDuplicates([P, Q]) && NoDuplicates<Vertex>([])
  {
  }

  lemma DiamondOutputs(two: bool, imp: nat)
    ensures OutputEdges(Diamond(two, imp)) && HasOutputs(Diamond(two, imp))
  {
    hide InputEdges;
    ChainOutputs("cc", two, 0);
    ChainHasOutputs("cc", two, 0);
  }

  lemma DiamondRoots(two: bool, imp: nat)
    requires imp <= 1
    ensures ImplicitRoots(Diamond(two, imp))
  {
    var t := Diamond(two, imp);
    assert HasInputs(t, Q) && ExplicitInputs(t, Q)[0] == A;
  }

  lemma DiamondStep(two: bool, imp: nat, u: Vertex, v: Vertex)
    requires Step(UpEdges(Diamond(two, imp)), u, v)
    ensures (u, v) in {(S, P), (S, Q), (P, A), (P, B), (A, Q), (Q, C)}
  {
  }

  lemma DiamondRanked(two: bool, imp: nat)
    ensures Ranked(Diamond(two, imp), RANK)
  {
    hide Diamond, UpEdges, Ranked;
    var t := Diamond(two, imp);
    forall u, v | Step(UpEdges(t), u, v) ensures u in RANK && v in RANK && RANK[u] < RANK[v] {
      DiamondStep(two, imp, u, v);
    }
    DiamondVertices(two, imp);
    RankedMeans(t, RANK);
  }

  lemma DiamondVertices(two: bool, imp: nat)
    ensures Diamond(two, imp).nodes + Diamond(two, imp).rules <= RANK.Keys
  {
  }

  /** The depfile of a rule lists a dirty generated node that does not lie above it: one is taken off a
      counter that never counted it. */
  lemma DirtyEntryMiscounted()
    ensures var (t, d, before) := (Diamond(true, 0), {P, A, B, Q, C}, map[P := 1, Q := 1]);
            && WellFormed(t) && Consistent(t, d, {}) && Counts(t, d, before) && HasInputs(t, Q)
            && B !in Above(t, Q) && StaysPositive(t, d, Q, [B.path]) && !Settled(t, d, Q, [B.path])
            && !Counts(WithDependency(t, Q, B), d, before[Q := 0])
  {
    hide WellFormed, Diamond, Counts, Consistent, WithDependency, StaysPositive, Settled, Above, Ranked;
    var t := Diamond(true, 0);
    DiamondWellFormed(true, 0);
    DirtyDiamond();
    DirtyDiamondEntry();
    DiamondRanked(true, 0);
    if B in Above(t, Q) {
      AboveRank(t, RANK, Q, B);
    }
  }

  lemma DirtyDiamond()
    ensures var (t, d, before) := (Diamond(true, 0), {P, A, B, Q, C}, map[P := 1, Q := 1]);
            && Consistent(t, d, {}) && Counts(t, d, before) && Q in t.inputs && Q in t.implicits
            && !Counts(WithDependency(t, Q, B), d, before[Q := 0])
  {
    hide Consistent, Diamond, ReadyInputs, WithDependency;
    DirtyDiamondConsistent();
    DirtyDiamondReady();
  }

  lemma DirtyDiamondConsistent()
    ensures Consistent(Diamond(true, 0), {P, A, B, Q, C}, {})
  {
  }

  lemma DirtyDiamondReady()
    ensures var (t, d) := (Diamond(true, 0), {P, A, B, Q, C});
            && t.inputs.Keys == {P, Q} && Q in t.implicits && ReadyInputs(t, d, P) == {S} && ReadyInputs(t, d, Q) == {S}
            && var t' := WithDependency(t, Q, B); Q in t'.inputs && ReadyInputs(t', d, Q) == {S}
  {
    var t, d := Diamond(true, 0), {P, A, B, Q, C};
    assert WithDependency(t, Q, B).inputs[Q] == [A, S, B];
  }

  lemma DirtyDiamondEntry()
    ensures var (t, d) := (Diamond(true, 0), {P, A, B, Q, C});
            HasInputs(t, Q) && StaysPositive(t, d, Q, [B.path]) && !Settled(t, d, Q, [B.path])
  {
    var t, d, deps := Diamond(true, 0), {P, A, B, Q, C}, [B.path];
    var ex := ExplicitInputs(t, Q);
    assert HasInputs(t, Q) && ex == [A, S];
    assert deps[0] == B.path && B in NewInputs(ex, deps) && B in t.child && B in d;
    forall k | 0 <= k <= 1 ensures |Misleading(t, d, Q, deps[..k])| <= |ReadyAmong(t, d, Q, deps[..k])| {
      assert deps[..k] == if k == 0 then [] else deps;
      assert S in ReadyAmong(t, d, Q, deps[..k]);
      assert Misleading(t, d, Q, deps[..k]) <= {B};
      SubsetSize(Misleading(t, d, Q, deps[..k]), {B});
      SubsetSize({S}, ReadyAmong(t, d, Q, deps[..k]));
    }
  }

  /** A dirty source comes from the depfile of a dirty rule, and a clean rule consumes it too: a depfile
      that does not list it any more leaves it dirty with a clean consumer alone. */
  lemma SourceLeftUncovered()
    ensures var (t, d) := (Diamond(false, 1), {S, Q, C});
            && WellFormed(t) && ImplicitRoots(t) && Consistent(t, d, {}) && Q in t.rules && HasInputs(t, Q)
            && Settled(t, d, Q, []) && !SourcesCovered(t, d, Q, [])
            && var t' := Loaded(t, Q, []); !Consistent(t', d * (t'.nodes + t'.rules), {} * t'.nodes)
  {
    hide WellFormed, Diamond, Consistent, Settled, SourcesCovered, ImplicitRoots, Loaded;
    DiamondWellFormed(false, 1);
    DiamondRoots(false, 1);
    DiamondSource();
    LoadedConsistentIff(Diamond(false, 1), {S, Q, C}, {}, Q, []);
  }

  lemma DiamondSource()
    ensures var (t, d) := (Diamond(false, 1), {S, Q, C});
            && Consistent(t, d, {}) && Q in t.rules && HasInputs(t, Q) && Settled(t, d, Q, [])
            && !SourcesCovered(t, d, Q, [])
  {
    var t, d := Diamond(false, 1), {S, Q, C};
    assert Q in t.parents[S];
    assert ImplicitInputs(t, Q) == [S] && S in ImplicitInputs(t, Q);
    assert NewInputs(ExplicitInputs(t, Q), []) == [];
    assert t.parents[S] != [Q] && !OtherDirty(t, d, Q, S);
  }

  /** A depfile is refused after the implicit input of its rule was dropped: the node still names the
      rule as a parent. */
  lemma RefusedDepfileLeavesEdge()
    ensures var t := Chain("cc", false, 1);
            && WellFormed(t) && ImplicitRoots(t) && ImplicitInputs(t, Q) == [A]
            && !WellFormed(WithImplicit(t, Q, ExplicitInputs(t, Q), []))
  {
    hide WellFormed, ImplicitRoots;
    var t := Chain("cc", false, 1);
    ChainWellFormed("cc", false, 1);
    ChainRoots("cc", false, 1);
    assert HasInputs(t, Q) && ImplicitInputs(t, Q) == [A];
    FailedLoad(t, Q);
  }

  /** What lies above a dirty rule was fetched, so it is clean and the depfile of the rule may list it:
      the graph gets a cycle.  The rule is planned when its output is requested. */
  lemma LazyCycle()
    ensures var (t, d, deps) := (Chain("cc", false, 0), {P, A, Q}, [C.path]);
            && WellFormed(t) && Acyclic(t) && ImplicitRoots(t) && Consistent(t, d + {C}, {}) && Consistent(t, d, {C})
            && P in Needed(t, d, {A}) && HasInputs(t, P) && Settled(t, d, P, deps) && !Acyclic(Loaded(t, P, deps))
  {
    hide WellFormed, Acyclic, Ranked, Loaded, Chain, Consistent, Settled, ImplicitRoots, NewInputs, Above, Needed;
    var t, deps := Chain("cc", false, 0), [C.path];
    ChainWellFormed("cc", false, 0);
    ChainRanked("cc", false, 0);
    ChainRoots("cc", false, 0);
    FetchedChain();
    NeededProducer(t, {P, A, Q}, A);
    CAboveP(t);
    LoadedAcyclicIff(t, P, deps);
  }

  lemma FetchedChain()
    ensures var (t, d) := (Chain("cc", false, 0), {P, A, Q});
            && Consistent(t, d + {C}, {}) && Consistent(t, d, {C}) && P in t.rules && HasInputs(t, P)
            && A in t.child && t.child[A] == P && Settled(t, d, P, [C.path])
            && C in NewInputs(ExplicitInputs(t, P), [C.path])
  {
  }

  lemma CAboveP(t: Topology)
    requires t == Chain("cc", false, 0)
    ensures C in Above(t, P)
  {
    hide Reaches;
    var g := UpEdges(t);
    assert Step(g, P, A) && Step(g, A, Q) && Step(g, Q, C);
    ReachesSelf(g, P);
    ReachesStepLast(g, P, P, A);
    ReachesStepLast(g, P, A, Q);
    ReachesStepLast(g, P, Q, C);
  }
}
