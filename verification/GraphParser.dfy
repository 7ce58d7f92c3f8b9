/** Building the graph from the list of rules of the graph file (src/graphparser.cpp). */
module GraphParsing {
  import opened Reachability
  import opened Topology

  /** An element of an input or output list: a string, or some other JSON value. */
  datatype Entry = Str(value: string) | NotString

  datatype Field = Absent | Text(value: string) | NotText

  /** An element of the "rules" array.  A rule object has both lists or neither. */
  datatype RuleEntry =
    | NotObject
    | NoLists
    | RuleObject(inputs: seq<Entry>, outputs: seq<Entry>, cmd: Field, depfile: Field)

  predicate AllStrings(es: seq<Entry>) {
    forall e :: e in es ==> e.Str?
  }

  function Names(es: seq<Entry>): set<Vertex> {
    set e | e in es && e.Str? :: Node(e.value)
  }

  function Command(cmd: Field): string {
    if cmd.Text? then cmd.value else ""
  }

  /** Rule `r` of the graph is what entry `e` asked for. */
  ghost predicate Declares(t: Topology, e: RuleEntry, r: Vertex) {
    && e.RuleObject? && r in t.rules && r in t.inputs && r in t.outputs && r in t.command && r in t.implicits
    && Range(t.inputs[r]) == Names(e.inputs) && Range(t.outputs[r]) == Names(e.outputs)
    && t.command[r] == Command(e.cmd) && t.implicits[r] == 0
  }

  function RuleObjects(es: seq<RuleEntry>): (os: seq<RuleEntry>)
    ensures forall o :: o in os ==> o.RuleObject?
  {
    if es == [] then [] else
      var os := RuleObjects(es[..|es| - 1]);
      if es[|es| - 1].RuleObject? then os + [es[|es| - 1]] else os
  }

  /** The graph holds exactly one rule per rule object, numbered in order, and exactly the nodes
      that those objects name. */
  ghost predicate Represents(t: Topology, es: seq<RuleEntry>) {
    && t.rules == (set k | 0 <= k < |RuleObjects(es)| :: Rule(k))
    && (forall k :: 0 <= k < |RuleObjects(es)| ==> Declares(t, RuleObjects(es)[k], Rule(k)))
  }

  /** The nodes no rule consumes are exactly the roots. */
  ghost predicate ExactRoots(t: Topology) {
    forall n :: n in t.roots <==> n in t.parents && t.parents[n] == []
  }

  ghost predicate Good(t: Topology, es: seq<RuleEntry>) {
    Linked(t) && ExactRoots(t) && Represents(t, es)
  }

  /** The nodes that the rule objects name. */
  ghost function Named(es: seq<RuleEntry>): set<Vertex> {
    set e, n | e in es && e.RuleObject? && n in Names(e.inputs) + Names(e.outputs) :: n
  }

  ghost predicate EntryOk(e: RuleEntry) {
    e.RuleObject? ==> AllStrings(e.inputs) && AllStrings(e.outputs) && !e.cmd.NotText? && !e.depfile.NotText?
  }

  /** What the parser accepts: fields of the right type, and no output with two rules. */
  ghost predicate Acceptable(es: seq<RuleEntry>) {
    && (forall k :: 0 <= k < |es| ==> EntryOk(es[k]))
    && (forall i, j :: 0 <= i < j < |es| && es[i].RuleObject? && es[j].RuleObject?
                       ==> Names(es[i].outputs) !! Names(es[j].outputs))
  }

  /** What the consistency checker additionally asks of a graph file. */
  ghost predicate Buildable(es: seq<RuleEntry>) {
    forall e :: e in es && e.RuleObject? ==>
      Names(e.outputs) != {} && (Command(e.cmd) == "" ==> |Names(e.outputs)| == 1)
  }

  function AddParent(parents: map<Vertex, seq<Vertex>>, r: Vertex, ns: seq<Vertex>): map<Vertex, seq<Vertex>> {
    map n | n in parents :: if n in ns then parents[n] + [r] else parents[n]
  }

  function AsChild(r: Vertex, ns: seq<Vertex>): map<Vertex, Vertex> {
    map n | n in ns :: r
  }

  const EMPTY := Topology({}, {}, map[], map[], map[], map[], map[], map[], {})

  class GraphParser {
    const graphFile: Vertex
    var topo: Topology

    constructor (path: string)
      ensures graphFile == Node(path) && topo == EMPTY
    {
      graphFile, topo := Node(path), EMPTY;
    }

    /** GraphParser::checkNode: create the nodes that do not exist yet.  The result lists each
        node once, in an arbitrary order. */
    method CheckNode(es: seq<Entry>, ghost done: seq<RuleEntry>) returns (ok: bool, nodes: seq<Vertex>)
      requires Good(topo, done)
      modifies this`topo
      ensures Good(topo, done) && topo.nodes >= old(topo.nodes)
      ensures ok <==> AllStrings(es)
      ensures ok ==> NoDuplicates(nodes) && Range(nodes) == Names(es) && Range(nodes) <= topo.nodes
      ensures topo.nodes <= old(topo.nodes) + Names(es) && topo.child == old(topo.child)
    {
      hide Good, NoDuplicates;
      var found: set<Vertex> := {};
      nodes := [];
      for k := 0 to |es|
        invariant Good(topo, done) && old(topo.nodes) <= topo.nodes <= old(topo.nodes) + Names(es)
        invariant AllStrings(es[..k]) && found == Names(es[..k]) && found <= topo.nodes && topo.child == old(topo.child)
      {
        assert es[..k + 1] == es[..k] + [es[k]];
        if es[k].NotString? {
          assert es[k] in es;
          return false, [];
        }
        var n := Node(es[k].value);
        if n !in topo.nodes {
          NewNode(topo, n, done);
          topo := WithNode(topo, n);
        }
        found := found + {n};
      }
      assert es[..|es|] == es;
      ok := true;
      nodes := ToSeq(found);
    }

    /** The edges of a new rule.  Fails when an output already has a rule. */
    method AddRule(ins: seq<Vertex>, outs: seq<Vertex>, e: RuleEntry, ghost done: seq<RuleEntry>) returns (ok: bool)
      requires Good(topo, done) && e.RuleObject?
      requires NoDuplicates(ins) && NoDuplicates(outs) && Range(ins) + Range(outs) <= topo.nodes
      requires Range(ins) == Names(e.inputs) && Range(outs) == Names(e.outputs)
      modifies this`topo
      ensures ok <==> Range(outs) !! old(topo.child).Keys
      ensures ok ==> Good(topo, done + [e]) && topo.nodes == old(topo.nodes)
      ensures ok ==> topo.child.Keys == old(topo.child).Keys + Range(outs)
    {
      hide Linked, ExactRoots, Represents, Good, NoDuplicates, RuleObjects, Names, AddParent;
      ghost var t0 := topo;
      NextRule(t0, done, e);
      var r := Rule(|topo.rules|);
      topo := topo.(rules := topo.rules + {r}, inputs := topo.inputs[r := ins], outputs := topo.outputs[r := outs],
                    implicits := topo.implicits[r := 0], command := topo.command[r := Command(e.cmd)]);
      AddInputs(r, ins);
      ok := AddOutputs(r, outs);
      if ok {
        RuleAdded(t0, ins, outs, r, e, done);
      }
    }

    method AddInputs(r: Vertex, ins: seq<Vertex>)
      requires NoDuplicates(ins) && Range(ins) <= topo.parents.Keys
      modifies this`topo
      ensures topo == old(topo).(parents := AddParent(old(topo).parents, r, ins), roots := old(topo).roots - Range(ins))
    {
      hide NoDuplicates, AddParent;
      var t0 := topo;
      NoParentsYet(t0, r, ins);
      for k := 0 to |ins|
        invariant topo == t0.(parents := AddParent(t0.parents, r, ins[..k]), roots := t0.roots - Range(ins[..k]))
      {
        ParentStep(t0.parents, r, ins, k);
        topo := topo.(parents := topo.parents[ins[k] := topo.parents[ins[k]] + [r]], roots := topo.roots - {ins[k]});
      }
      assert ins[..|ins|] == ins;
    }

    method AddOutputs(r: Vertex, outs: seq<Vertex>) returns (ok: bool)
      requires NoDuplicates(outs)
      modifies this`topo
      ensures ok <==> Range(outs) !! old(topo).child.Keys
      ensures ok ==> topo == old(topo).(child := old(topo).child + AsChild(r, outs))
    {
      hide NoDuplicates, AsChild;
      var t0 := topo;
      NoChildren(t0.child, r);
      for k := 0 to |outs|
        invariant topo == t0.(child := t0.child + AsChild(r, outs[..k]))
        invariant forall o :: o in outs[..k] ==> o !in t0.child
      {
        assert outs[..k + 1] == outs[..k] + [outs[k]];
        OneMoreChild(t0.child, r, outs[..k], outs[k]);
        if outs[k] in topo.child {
          OutputTaken(t0.child, r, outs, k);
          return false;
        }
        topo := topo.(child := topo.child[outs[k] := r]);
      }
      assert outs[..|outs|] == outs;
      ok := true;
    }

    /** GraphParser::processJson for rules that do not name the graph file itself. */
    method ProcessJson(es: seq<RuleEntry>) returns (ok: bool)
      requires topo == EMPTY && graphFile.Node? && graphFile !in Named(es)
      modifies this`topo
      ensures ok <==> Acceptable(es)
      ensures ok ==> Linked(topo) && ExactRoots(topo) && Represents(topo, es) && topo.nodes == Named(es) + {graphFile}
      ensures ok ==> (WellFormed(topo) <==> Buildable(es))
      ensures ok ==> forall k :: 0 <= k < |RuleObjects(es)| ==>
                Rule(k) in topo.command
                && topo.command[Rule(k)] == match RuleObjects(es)[k].cmd case Text(text) => text case _ => ""
    {
      hide Linked, ExactRoots, Represents, Good, NoDuplicates, RuleObjects, Names, Named, Acceptable, EntryOk,
           Buildable;
      NothingYet(es);
      for k := 0 to |es|
        invariant Good(topo, es[..k]) && topo.nodes == Named(es[..k]) && Acceptable(es[..k])
      {
        var e := es[k];
        NextEntry(topo, es, k);
        if !e.RuleObject? {
          continue;
        }
        var okIn, ins := CheckNode(e.inputs, es[..k]);
        if !okIn {
          return false;
        }
        var okOut, outs := CheckNode(e.outputs, es[..k]);
        if !okOut {
          return false;
        }
        if e.cmd.NotText? || e.depfile.NotText? {
          return false;
        }
        var added := AddRule(ins, outs, e, es[..k]);
        if !added {
          return false;
        }
      }
      assert es[..|es|] == es;
      NewNode(topo, graphFile, es);
      GoodParts(WithNode(topo, graphFile), es);
      BuildableIsWellFormed(WithNode(topo, graphFile), es);
      CommandsAre(WithNode(topo, graphFile), es);
      topo := WithNode(topo, graphFile);
      ok := true;
    }
  }

  /** The command of a rule is the text of its field, and empty if it has none. */
  lemma CommandsAre(t: Topology, es: seq<RuleEntry>)
    requires Represents(t, es)
    ensures forall k :: 0 <= k < |RuleObjects(es)| ==>
              Rule(k) in t.command
              && t.command[Rule(k)] == match RuleObjects(es)[k].cmd case Text(text) => text case _ => ""
  {
    hide RuleObjects, Names;
    forall k | 0 <= k < |RuleObjects(es)|
      ensures Rule(k) in t.command
              && t.command[Rule(k)] == match RuleObjects(es)[k].cmd case Text(text) => text case _ => ""
    {
      assert Declares(t, RuleObjects(es)[k], Rule(k));
    }
  }

  /** The elements of a set in an arbitrary order. */
  method ToSeq(s: set<Vertex>) returns (r: seq<Vertex>)
    ensures NoDuplicates(r) && Range(r) == s
  {
    r := [];
    var left := s;
    while left != {}
      invariant NoDuplicates(r) && left !! Range(r) && Range(r) + left == s
      decreases left
    {
      var v :| v in left;
      r, left := r + [v], left - {v};
    }
  }

  function WithNode(t: Topology, n: Vertex): Topology {
    t.(nodes := t.nodes + {n}, parents := t.parents[n := []], roots := t.roots + {n})
  }

  lemma NewNode(t: Topology, n: Vertex, done: seq<RuleEntry>)
    requires Good(t, done) && n.Node? && n !in t.nodes
    ensures Good(WithNode(t, n), done)
  {
    LinkedWithNode(t, n);
    hide Linked, RuleObjects, Names;
  }

  lemma LinkedWithNode(t: Topology, n: Vertex)
    requires Linked(t) && n.Node? && n !in t.nodes
    ensures Linked(WithNode(t, n))
  {
    hide Typed, InputEdges, OutputEdges;
    TypedWithNode(t, n);
    InputsWithNode(t, n);
    OutputsWithNode(t, n);
  }

  lemma TypedWithNode(t: Topology, n: Vertex)
    requires Typed(t) && n.Node? && n !in t.nodes
    ensures Typed(WithNode(t, n))
  {
  }

  lemma InputsWithNode(t: Topology, n: Vertex)
    requires Typed(t) && InputEdges(t) && n !in t.nodes
    ensures InputEdges(WithNode(t, n))
  {
    hide NoDuplicates;
    EmptyList();
  }

  lemma OutputsWithNode(t: Topology, n: Vertex)
    requires Typed(t) && OutputEdges(t) && n !in t.nodes
    ensures OutputEdges(WithNode(t, n))
  {
    hide NoDuplicates;
  }

  lemma OneMoreChild(child: map<Vertex, Vertex>, r: Vertex, outs: seq<Vertex>, o: Vertex)
    ensures child + AsChild(r, outs + [o]) == (child + AsChild(r, outs))[o := r]
    ensures o in child + AsChild(r, outs) <==> o in child || o in outs
  {
  }

  lemma NoChildren(child: map<Vertex, Vertex>, r: Vertex)
    ensures child + AsChild(r, []) == child
  {
  }

  lemma EmptyList()
    ensures NoDuplicates<Vertex>([])
  {
  }

  lemma GoodParts(t: Topology, es: seq<RuleEntry>)
    requires Good(t, es)
    ensures Linked(t) && ExactRoots(t) && Represents(t, es)
  {
  }

  lemma NoParentsYet(t: Topology, r: Vertex, ins: seq<Vertex>)
    ensures AddParent(t.parents, r, ins[..0]) == t.parents && t.roots - Range(ins[..0]) == t.roots
  {
  }

  lemma ParentStep(parents: map<Vertex, seq<Vertex>>, r: Vertex, ns: seq<Vertex>, k: nat)
    requires NoDuplicates(ns) && k < |ns| && ns[k] in parents
    ensures ns[k] in AddParent(parents, r, ns[..k]) && AddParent(parents, r, ns[..k])[ns[k]] == parents[ns[k]]
    ensures AddParent(parents, r, ns[..k + 1]) == AddParent(parents, r, ns[..k])[ns[k] := parents[ns[k]] + [r]]
    ensures Range(ns[..k + 1]) == Range(ns[..k]) + {ns[k]}
  {
    assert ns[..k + 1] == ns[..k] + [ns[k]];
  }

  lemma OutputTaken(child: map<Vertex, Vertex>, r: Vertex, outs: seq<Vertex>, k: nat)
    requires k < |outs| && NoDuplicates(outs) && outs[k] in child + AsChild(r, outs[..k])
    ensures outs[k] in child && outs[k] in outs
  {
  }

  /** The next rule number is fresh. */
  lemma NextRule(t: Topology, done: seq<RuleEntry>, e: RuleEntry)
    requires Good(t, done) && e.RuleObject?
    ensures |t.rules| == |RuleObjects(done)| && Rule(|t.rules|) !in t.rules
    ensures RuleObjects(done + [e]) == RuleObjects(done) + [e]
    ensures t.parents.Keys == t.nodes
  {
    Numbered(|RuleObjects(done)|);
    assert (done + [e])[..|done|] == done;
  }

  lemma {:induction false} Numbered(n: nat)
    ensures |set k | 0 <= k < n :: Rule(k)| == n
  {
    if n > 0 {
      Numbered(n - 1);
      assert (set k | 0 <= k < n :: Rule(k)) == (set k | 0 <= k < n - 1 :: Rule(k)) + {Rule(n - 1)};
    }
  }

  function WithRule(t: Topology, r: Vertex, ins: seq<Vertex>, outs: seq<Vertex>, cmd: string): Topology {
    t.(rules := t.rules + {r}, inputs := t.inputs[r := ins], outputs := t.outputs[r := outs],
       implicits := t.implicits[r := 0], command := t.command[r := cmd],
       parents := AddParent(t.parents, r, ins), roots := t.roots - Range(ins),
       child := t.child + AsChild(r, outs))
  }

  lemma RuleAdded(t: Topology, ins: seq<Vertex>, outs: seq<Vertex>, r: Vertex, e: RuleEntry, done: seq<RuleEntry>)
    requires Good(t, done) && e.RuleObject? && r == Rule(|t.rules|)
    requires NoDuplicates(ins) && NoDuplicates(outs) && Range(ins) + Range(outs) <= t.nodes
    requires Range(ins) == Names(e.inputs) && Range(outs) == Names(e.outputs)
    requires Range(outs) !! t.child.Keys
    ensures Good(WithRule(t, r, ins, outs, Command(e.cmd)), done + [e])
  {
    hide Linked, Names, ExactRoots, RuleObjects, Represents, Range;
    NextRule(t, done, e);
    LinkedWithRule(t, r, ins, outs, Command(e.cmd));
    RootsWithRule(t, r, ins, outs, Command(e.cmd));
    RepresentsWithRule(t, r, ins, outs, e, done);
  }

  lemma RepresentsWithRule(t: Topology, r: Vertex, ins: seq<Vertex>, outs: seq<Vertex>, e: RuleEntry,
                           done: seq<RuleEntry>)
    requires Represents(t, done) && e.RuleObject? && r == Rule(|t.rules|) && r !in t.rules
    requires |t.rules| == |RuleObjects(done)| && RuleObjects(done + [e]) == RuleObjects(done) + [e]
    requires Range(ins) == Names(e.inputs) && Range(outs) == Names(e.outputs)
    ensures Represents(WithRule(t, r, ins, outs, Command(e.cmd)), done + [e])
  {
    hide Names, RuleObjects, AddParent, AsChild, Declares;
    forall k | 0 <= k < |RuleObjects(done)| + 1
      ensures Declares(WithRule(t, r, ins, outs, Command(e.cmd)), RuleObjects(done + [e])[k], Rule(k))
    {
      DeclaresWithRule(t, r, ins, outs, e, if k < |RuleObjects(done)| then RuleObjects(done)[k] else e, Rule(k));
    }
  }

  lemma DeclaresWithRule(t: Topology, r: Vertex, ins: seq<Vertex>, outs: seq<Vertex>, e: RuleEntry, o: RuleEntry,
                         q: Vertex)
    requires e.RuleObject? && Range(ins) == Names(e.inputs) && Range(outs) == Names(e.outputs)
    requires if q == r then o == e else Declares(t, o, q)
    ensures Declares(WithRule(t, r, ins, outs, Command(e.cmd)), o, q)
  {
    hide Names, Range, AddParent, AsChild;
  }

  lemma RootsWithRule(t: Topology, r: Vertex, ins: seq<Vertex>, outs: seq<Vertex>, cmd: string)
    requires ExactRoots(t)
    ensures ExactRoots(WithRule(t, r, ins, outs, cmd))
  {
  }

  lemma LinkedWithRule(t: Topology, r: Vertex, ins: seq<Vertex>, outs: seq<Vertex>, cmd: string)
    requires Linked(t) && r.Rule? && r !in t.rules
    requires NoDuplicates(ins) && NoDuplicates(outs) && Range(ins) + Range(outs) <= t.nodes
    requires Range(outs) !! t.child.Keys
    ensures Linked(WithRule(t, r, ins, outs, cmd))
  {
    hide *;
    TypedWithRule(t, r, ins, outs, cmd);
    InputsWithRule(t, r, ins, outs, cmd);
    OutputsWithRule(t, r, ins, outs, cmd);
    LinkedFrom(WithRule(t, r, ins, outs, cmd));
  }

  lemma LinkedFrom(t: Topology)
    requires Typed(t) && InputEdges(t) && OutputEdges(t)
    ensures Linked(t)
  {
  }

  lemma TypedWithRule(t: Topology, r: Vertex, ins: seq<Vertex>, outs: seq<Vertex>, cmd: string)
    requires Linked(t) && r.Rule? && r !in t.rules && Range(ins) + Range(outs) <= t.nodes
    ensures Typed(WithRule(t, r, ins, outs, cmd))
  {
    hide InputEdges, OutputEdges;
  }

  lemma InputsWithRule(t: Topology, r: Vertex, ins: seq<Vertex>, outs: seq<Vertex>, cmd: string)
    requires Linked(t) && r !in t.rules && NoDuplicates(ins) && Range(ins) <= t.nodes
    ensures InputEdges(WithRule(t, r, ins, outs, cmd))
  {
    hide NoDuplicates, Linked, AddParent;
    var t' := WithRule(t, r, ins, outs, cmd);
    ParentsAdded(t, r, ins);
    forall q, n | q in t'.inputs && n in t'.inputs[q] ensures n in t'.parents && q in t'.parents[n] {
      assert if q == r then n in ins else n in t.inputs[q];
    }
  }

  lemma ParentsAdded(t: Topology, r: Vertex, ins: seq<Vertex>)
    requires Linked(t) && r !in t.rules && Range(ins) <= t.nodes
    ensures var ps := AddParent(t.parents, r, ins);
            && ps.Keys == t.nodes == t.parents.Keys && r !in t.inputs && InputEdges(t)
            && (forall n :: n in ps ==> NoDuplicates(ps[n]))
            && (forall n, q :: n in ps ==> (q in ps[n] <==> q in t.parents[n] || (q == r && n in ins)))
  {
    hide NoDuplicates, OutputEdges;
    forall n | n in t.parents ensures NoDuplicates(AddParent(t.parents, r, ins)[n]) {
      AppendDistinct(t.parents[n], r);
      assert r !in t.parents[n];
    }
  }

  lemma OutputsWithRule(t: Topology, r: Vertex, ins: seq<Vertex>, outs: seq<Vertex>, cmd: string)
    requires Linked(t) && r !in t.rules && NoDuplicates(outs) && Range(outs) !! t.child.Keys
    ensures OutputEdges(WithRule(t, r, ins, outs, cmd))
  {
    hide NoDuplicates, InputEdges, AddParent, AsChild;
    assert r !in t.outputs;
    ClaimOutputs(t.outputs, t.child, r, outs);
  }

  ghost predicate Mutual(outputs: map<Vertex, seq<Vertex>>, child: map<Vertex, Vertex>) {
    && (forall q, n :: q in outputs && n in outputs[q] ==> n in child && child[n] == q)
    && (forall n :: n in child ==> child[n] in outputs && n in outputs[child[n]])
  }

  lemma ClaimOutputs(outputs: map<Vertex, seq<Vertex>>, child: map<Vertex, Vertex>, r: Vertex, outs: seq<Vertex>)
    requires Mutual(outputs, child) && r !in outputs && Range(outs) !! child.Keys
    ensures Mutual(outputs[r := outs], child + AsChild(r, outs))
  {
  }

  lemma NothingYet(es: seq<RuleEntry>)
    ensures Good(EMPTY, es[..0]) && Named(es[..0]) == {} && Acceptable(es[..0])
  {
    assert RuleObjects(es[..0]) == [];
  }

  lemma {:induction false} ObjectsAmong(es: seq<RuleEntry>, e: RuleEntry)
    ensures e in RuleObjects(es) <==> e in es && e.RuleObject?
  {
    if es != [] {
      ObjectsAmong(es[..|es| - 1], e);
      assert es == es[..|es| - 1] + [es[|es| - 1]];
    }
  }

  lemma ChildOfOutputs(t: Topology, n: Vertex)
    requires Linked(t)
    ensures n in t.child ==> t.child[n] in t.rules && n in t.outputs[t.child[n]]
    ensures forall r :: r in t.rules && n in t.outputs[r] ==> n in t.child
  {
  }

  /** The generated nodes are the outputs of the rule objects. */
  lemma Generated(t: Topology, es: seq<RuleEntry>, n: Vertex)
    requires Good(t, es)
    ensures n in t.child <==> exists k :: 0 <= k < |es| && es[k].RuleObject? && n in Names(es[k].outputs)
  {
    hide Names, NoDuplicates, Linked, ExactRoots, RuleObjects;
    var os := RuleObjects(es);
    ChildOfOutputs(t, n);
    if n in t.child {
      var j :| 0 <= j < |os| && t.child[n] == Rule(j);
      assert n in Range(t.outputs[Rule(j)]) && Declares(t, os[j], Rule(j));
      ObjectsAmong(es, os[j]);
    }
    forall k | 0 <= k < |es| && es[k].RuleObject? && n in Names(es[k].outputs) ensures n in t.child {
      ObjectsAmong(es, es[k]);
      var j :| 0 <= j < |os| && os[j] == es[k];
      assert Declares(t, os[j], Rule(j));
      assert n in Range(t.outputs[Rule(j)]);
    }
  }

  /** How the next entry changes what is named and what is acceptable. */
  lemma NextEntry(t: Topology, es: seq<RuleEntry>, k: nat)
    requires k < |es| && Good(t, es[..k]) && Acceptable(es[..k])
    ensures es[..k + 1] == es[..k] + [es[k]]
    ensures !es[k].RuleObject? ==>
            Named(es[..k + 1]) == Named(es[..k]) && Acceptable(es[..k + 1])
            && Good(t, es[..k + 1])
    ensures es[k].RuleObject? ==> Named(es[..k + 1]) == Named(es[..k]) + Names(es[k].inputs) + Names(es[k].outputs)
    ensures es[k].RuleObject? && EntryOk(es[k]) ==> (Acceptable(es[..k + 1]) <==> Names(es[k].outputs) !! t.child.Keys)
    ensures es[k].RuleObject? ==> (EntryOk(es[k]) <==> AllStrings(es[k].inputs) && AllStrings(es[k].outputs)
                                                       && !es[k].cmd.NotText? && !es[k].depfile.NotText?)
    ensures !EntryOk(es[k]) || !Acceptable(es[..k + 1]) ==> !Acceptable(es)
  {
    hide Linked, Names, RuleObjects, ExactRoots, Represents;
    var e, fst, more := es[k], es[..k], es[..k + 1];
    assert more == fst + [e];
    if e.RuleObject? {
      forall n ensures n in Named(more) <==> n in Named(fst) || n in Names(e.inputs) + Names(e.outputs) {
        assert e in more;
      }
      forall n ensures n in t.child <==> exists i :: 0 <= i < k && es[i].RuleObject? && n in Names(es[i].outputs) {
        Generated(t, fst, n);
        assert forall i :: 0 <= i < k ==> fst[i] == es[i];
      }
      if EntryOk(e) {
        AcceptNext(es, k);
      }
    } else {
      SkipEntry(t, fst, e);
    }
  }

  lemma AcceptNext(es: seq<RuleEntry>, k: nat)
    requires k < |es| && Acceptable(es[..k]) && es[k].RuleObject? && EntryOk(es[k])
    ensures Acceptable(es[..k + 1]) <==>
            !exists n, i :: 0 <= i < k && es[i].RuleObject? && n in Names(es[i].outputs) && n in Names(es[k].outputs)
  {
    hide Names, EntryOk;
    var more := es[..k + 1];
    assert forall i :: 0 <= i < k ==> more[i] == es[..k][i];
    if exists n, i :: 0 <= i < k && es[i].RuleObject? && n in Names(es[i].outputs) && n in Names(es[k].outputs) {
      var n, i :| 0 <= i < k && es[i].RuleObject? && n in Names(es[i].outputs) && n in Names(es[k].outputs);
      assert more[i] == es[i] && more[k] == es[k];
    }
  }

  lemma SkipEntry(t: Topology, es: seq<RuleEntry>, e: RuleEntry)
    requires !e.RuleObject?
    ensures Named(es + [e]) == Named(es)
    ensures Acceptable(es) ==> Acceptable(es + [e])
    ensures Good(t, es) ==> Good(t, es + [e])
  {
    assert (es + [e])[..|es|] == es;
  }

  lemma BuildableIsWellFormed(t: Topology, es: seq<RuleEntry>)
    requires Linked(t) && Represents(t, es)
    ensures WellFormed(t) <==> Buildable(es)
  {
    hide Linked, Names, RuleObjects;
    var os := RuleObjects(es);
    forall k | 0 <= k < |os| ensures |t.outputs[Rule(k)]| == |Names(os[k].outputs)| && Declares(t, os[k], Rule(k)) {
      OutputsDistinct(t, Rule(k));
      RangeSize(t.outputs[Rule(k)]);
    }
    forall e ensures e in os <==> e in es && e.RuleObject? {
      ObjectsAmong(es, e);
    }
    if Buildable(es) {
      forall k | 0 <= k < |os| ensures t.outputs[Rule(k)] != [] && (IsPhony(t, Rule(k)) ==> |t.outputs[Rule(k)]| == 1) {
        assert os[k] in os;
      }
    } else {
      var e :| e in es && e.RuleObject? && !(Names(e.outputs) != {}
          && (Command(e.cmd) == "" ==> |Names(e.outputs)| == 1));
      var k :| 0 <= k < |os| && os[k] == e;
      assert Rule(k) in t.rules;
    }
  }

  lemma OutputsDistinct(t: Topology, r: Vertex)
    requires Linked(t) && r in t.rules
    ensures NoDuplicates(t.outputs[r])
  {
  }
}
