/** The shape of Falcon's graph: which rule produces a node, which rules consume it, and in
    which order a rule lists its inputs and outputs (src/graph.h). */
module Topology {
  import opened Reachability

  /** `inputs[r]` holds the explicit inputs followed by `implicits[r]` implicit ones.  A node
      without an entry in `child` is a source file.  A rule with an empty command is phony. */
  datatype Topology = Topology(
    nodes: set<Vertex>,
    rules: set<Vertex>,
    inputs: map<Vertex, seq<Vertex>>,
    outputs: map<Vertex, seq<Vertex>>,
    implicits: map<Vertex, nat>,
    command: map<Vertex, string>,
    child: map<Vertex, Vertex>,
    parents: map<Vertex, seq<Vertex>>,
    roots: set<Vertex>)

  predicate NoDuplicates<T(==)>(s: seq<T>) {
    forall i, j :: 0 <= i < j < |s| ==> s[i] != s[j]
  }

  lemma AppendDistinct<T>(s: seq<T>, v: T)
    requires NoDuplicates(s)
    ensures v !in s ==> NoDuplicates(s + [v])
  {
  }

  predicate IsSource(t: Topology, n: Vertex) {
    n !in t.child
  }

  predicate IsPhony(t: Topology, r: Vertex) {
    r in t.command && t.command[r] == ""
  }

  /** The inputs of a rule are listed, the implicit ones last. */
  predicate HasInputs(t: Topology, r: Vertex) {
    r in t.inputs && r in t.implicits && t.implicits[r] <= |t.inputs[r]|
  }

  function ExplicitInputs(t: Topology, r: Vertex): seq<Vertex> {
    if HasInputs(t, r) then t.inputs[r][..|t.inputs[r]| - t.implicits[r]] else []
  }

  function ImplicitInputs(t: Topology, r: Vertex): seq<Vertex> {
    if HasInputs(t, r) then t.inputs[r][|t.inputs[r]| - t.implicits[r]..] else []
  }

  /** Every field is defined exactly where it should be. */
  ghost predicate Typed(t: Topology) {
    && (forall n :: n in t.nodes ==> n.Node?)
    && (forall r :: r in t.rules ==> r.Rule?)
    && t.inputs.Keys == t.outputs.Keys == t.implicits.Keys == t.command.Keys == t.rules
    && t.parents.Keys == t.nodes
    && t.child.Keys <= t.nodes
    && t.roots <= t.nodes
    && (forall r :: r in t.rules ==> t.implicits[r] <= |t.inputs[r]|)
    && (forall n :: n in t.nodes && t.parents[n] == [] ==> n in t.roots)
  }

  /** A node is an input of a rule exactly when the rule is one of its parents. */
  ghost predicate InputEdges(t: Topology) {
    && (forall r :: r in t.inputs ==> NoDuplicates(t.inputs[r]))
    && (forall n :: n in t.parents ==> NoDuplicates(t.parents[n]))
    && (forall r, n :: r in t.inputs && n in t.inputs[r] ==> n in t.parents && r in t.parents[n])
    && (forall r, n :: n in t.parents && r in t.parents[n] ==> r in t.inputs && n in t.inputs[r])
  }

  /** A node is an output of a rule exactly when the rule is its child. */
  ghost predicate OutputEdges(t: Topology) {
    && (forall r :: r in t.outputs ==> NoDuplicates(t.outputs[r]))
    && (forall r, n :: r in t.outputs && n in t.outputs[r] ==> n in t.child && t.child[n] == r)
    && (forall n :: n in t.child ==> t.child[n] in t.outputs && n in t.outputs[t.child[n]])
  }

  /** Edges are recorded on both sides and without repetition. */
  ghost predicate Linked(t: Topology) {
    Typed(t) && InputEdges(t) && OutputEdges(t)
  }

  /** Every rule has an output, a phony rule exactly one. */
  ghost predicate HasOutputs(t: Topology) {
    && (forall r :: r in t.rules && r in t.outputs ==> t.outputs[r] != [])
    && (forall r :: r in t.rules && r in t.outputs && IsPhony(t, r) ==> |t.outputs[r]| == 1)
  }

  /** The structural half of GraphConsistencyChecker. */
  ghost predicate WellFormed(t: Topology) {
    Linked(t) && HasOutputs(t)
  }

  /** What well-formedness says about one rule. */
  lemma RuleShape(t: Topology, r: Vertex)
    requires WellFormed(t) && r in t.rules
    ensures r in t.inputs && r in t.outputs && r in t.command && r in t.implicits && t.implicits[r] <= |t.inputs[r]|
    ensures r.Rule? && r !in t.nodes && r !in t.parents && r !in t.child
    ensures NoDuplicates(t.inputs[r]) && NoDuplicates(t.outputs[r]) && t.outputs[r] != []
    ensures IsPhony(t, r) ==> |t.outputs[r]| == 1
    ensures forall i :: i in t.inputs[r] ==> i in t.nodes && i in t.parents && r in t.parents[i]
    ensures forall o :: o in t.outputs[r] ==> o in t.nodes && o in t.child && t.child[o] == r
  {
  }

  /** What well-formedness says about one node. */
  lemma NodeShape(t: Topology, n: Vertex)
    requires WellFormed(t) && n in t.nodes
    ensures n.Node? && n in t.parents && n !in t.rules && n !in t.inputs && n !in t.outputs
            && NoDuplicates(t.parents[n])
    ensures forall p :: p in t.parents[n] ==> p in t.rules && p in t.inputs && n in t.inputs[p]
    ensures n in t.child ==> t.child[n] in t.rules && t.child[n] in t.outputs && n in t.outputs[t.child[n]]
    ensures t.parents[n] == [] ==> n in t.roots
  {
  }

  function Range(s: seq<Vertex>): (r: set<Vertex>)
    ensures forall x :: x in r <==> x in s
  {
    set x | x in s
  }

  lemma {:induction false} RangeSize(s: seq<Vertex>)
    ensures |Range(s)| <= |s|
    ensures NoDuplicates(s) ==> |Range(s)| == |s|
  {
    if s != [] {
      var last := |s| - 1;
      RangeSize(s[..last]);
      assert s == s[..last] + [s[last]];
      assert Range(s) == Range(s[..last]) + {s[last]};
    }
  }

  lemma {:induction false} SubsetSize(a: set<Vertex>, b: set<Vertex>)
    requires a <= b
    ensures |a| <= |b|
    ensures |a| == |b| ==> a == b
  {
    assert b == a + (b - a);
  }

  /** Edges from a node to the rules that consume it and from a rule to its outputs. */
  function UpEdges(t: Topology): Edges {
    map v | v in t.parents.Keys + t.outputs.Keys :: Range(UpList(t, v))
  }

  function UpList(t: Topology, v: Vertex): seq<Vertex> {
    if v in t.parents then t.parents[v] else if v in t.outputs then t.outputs[v] else []
  }

  /** Everything that depends, directly or not, on `v`, and `v` itself. */
  ghost function Above(t: Topology, v: Vertex): set<Vertex> {
    set w | w in t.nodes + t.rules && Reaches(UpEdges(t), v, w)
  }

  ghost function AboveAll(t: Topology, vs: seq<Vertex>): set<Vertex> {
    set w, v | v in vs && w in Above(t, v) :: w
  }

  /** Inputs come strictly before the rule and the rule strictly before its outputs. */
  ghost predicate Ranked(t: Topology, rank: map<Vertex, nat>) {
    && t.nodes + t.rules <= rank.Keys
    && RankedBy(UpEdges(t), rank)
  }

  ghost predicate Acyclic(t: Topology) {
    exists rank :: Ranked(t, rank)
  }

  ghost function SomeRank(t: Topology): (rank: map<Vertex, nat>)
    requires Acyclic(t)
    ensures Ranked(t, rank)
  {
    var rank :| Ranked(t, rank);
    rank
  }

  /** The largest rank, used as the bound of upward traversals. */
  ghost function Top(t: Topology, rank: map<Vertex, nat>): (top: nat)
    requires Ranked(t, rank)
    ensures forall v :: v in t.nodes + t.rules ==> rank[v] <= top
  {
    MaxRank(t.nodes + t.rules, rank)
  }

  ghost function MaxRank(s: set<Vertex>, rank: map<Vertex, nat>): (m: nat)
    requires s <= rank.Keys
    ensures forall v :: v in s ==> rank[v] <= m
  {
    if s == {} then 0 else
      var v :| v in s;
      var m := MaxRank(s - {v}, rank);
      if rank[v] > m then rank[v] else m
  }

  lemma UpStep(t: Topology, u: Vertex, v: Vertex)
    requires WellFormed(t)
    ensures Step(UpEdges(t), u, v) <==>
            (u in t.nodes && v in t.parents[u]) || (u in t.rules && v in t.outputs[u])
    ensures Step(UpEdges(t), u, v) ==> u in t.nodes + t.rules && v in t.nodes + t.rules
  {
    hide WellFormed;
    SameKeys(t);
    if u in t.nodes {
      NodeShape(t, u);
    } else if u in t.rules {
      RuleShape(t, u);
    }
  }

  lemma SameKeys(t: Topology)
    requires WellFormed(t)
    ensures t.parents.Keys == t.nodes && t.outputs.Keys == t.inputs.Keys == t.rules && t.nodes !! t.rules
    ensures t.child.Keys <= t.nodes
  {
    hide InputEdges, OutputEdges;
  }

  lemma AboveSelf(t: Topology, v: Vertex)
    requires WellFormed(t) && v in t.nodes + t.rules
    ensures v in Above(t, v)
  {
    ReachesSelf(UpEdges(t), v);
  }

  /** One unfolding of upward reachability along the list that the code iterates over. */
  lemma AboveUnfold(t: Topology, v: Vertex)
    requires WellFormed(t) && v in t.nodes + t.rules
    ensures Above(t, v) == {v} + AboveAll(t, UpList(t, v))
  {
    var g := UpEdges(t);
    AboveSelf(t, v);
    forall w | w in Above(t, v) && w != v ensures w in AboveAll(t, UpList(t, v)) {
      var u := ReachesSplitFirst(g, v, w);
      assert u in UpList(t, v) && w in Above(t, u);
    }
    forall w | w in AboveAll(t, UpList(t, v)) ensures w in Above(t, v) {
      var u :| u in UpList(t, v) && w in Above(t, u);
      UpStep(t, v, u);
      ReachesStepFirst(g, v, u, w);
    }
  }

  lemma AboveAllExtend(t: Topology, vs: seq<Vertex>, k: nat)
    requires k < |vs|
    ensures AboveAll(t, vs[..k + 1]) == AboveAll(t, vs[..k]) + Above(t, vs[k])
  {
    assert forall v :: v in vs[..k + 1] <==> v in vs[..k] || v == vs[k];
  }

  lemma RanksCover(t: Topology, rank: map<Vertex, nat>)
    requires Ranked(t, rank)
    ensures t.nodes + t.rules <= rank.Keys
  {
  }

  lemma RankStep(t: Topology, rank: map<Vertex, nat>, u: Vertex, v: Vertex)
    requires Ranked(t, rank) && (v in UpList(t, u) || Step(UpEdges(t), u, v))
    ensures u in rank && v in rank && rank[u] < rank[v]
  {
    assert Step(UpEdges(t), u, v);
  }

  /** Nothing above `v` is `v` again, except by the empty path. */
  lemma AboveRank(t: Topology, rank: map<Vertex, nat>, v: Vertex, w: Vertex)
    requires Ranked(t, rank) && w in Above(t, v) && w != v
    ensures v in rank && rank[v] < rank[w]
  {
    RankGrows(UpEdges(t), rank, v, w);
  }

  lemma NotAboveItself(t: Topology, rank: map<Vertex, nat>, v: Vertex)
    requires Ranked(t, rank)
    ensures v !in AboveAll(t, UpList(t, v)) && v !in UpList(t, v)
  {
    forall u | u in UpList(t, v) ensures v != u && v !in Above(t, u) {
      RankStep(t, rank, v, u);
      if v in Above(t, u) {
        AboveRank(t, rank, u, v);
      }
    }
  }

  /** Climbing from any vertex of an acyclic graph ends in a node that no rule consumes. */
  lemma {:induction false} SomeRootAbove(t: Topology, rank: map<Vertex, nat>, v: Vertex) returns (root: Vertex)
    requires WellFormed(t) && Ranked(t, rank) && v in t.nodes + t.rules
    ensures root in Above(t, v) && root in t.nodes && t.parents[root] == []
    decreases Top(t, rank) - rank[v]
  {
    AboveSelf(t, v);
    if v in t.nodes && t.parents[v] == [] {
      root := v;
    } else {
      var u := UpList(t, v)[0];
      UpStep(t, v, u);
      root := SomeRootAbove(t, rank, u);
      ReachesStepFirst(UpEdges(t), v, u, root);
    }
  }
}
