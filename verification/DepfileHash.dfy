/** Hashes after a depfile has been loaded: new files are read and hashed, deleted ones forgotten,
    and the hashes above the rule recomputed (src/depfile.cpp, src/graph_parallel_builder.cpp). */
module Rehashing {
  import opened Reachability
  import opened Topology
  import opened DepfileLoading
  import opened Hashing

  /** The vertices of `t'` that `t` does not have. */
  function NewFiles(t: Topology, t': Topology): set<Vertex> {
    t'.nodes - t.nodes
  }

  /** What has been read of each file once the new ones have been read. */
  function Reread(content: Hashes, t: Topology, t': Topology, data: Vertex -> string): Hashes {
    content + map n | n in NewFiles(t, t') :: data(n)
  }

  /** The hashes of the vertices of `t'`, empty for the new ones. */
  function Moved(hash: Hashes, t': Topology): Hashes {
    map v | v in t'.nodes + t'.rules :: if v in hash then hash[v] else ""
  }

  /** What a hash should be depends only on what lies directly below. */
  lemma LocalSame(t: Topology, t': Topology, sha: string -> string, c: Hashes, c': Hashes, a: Hashes, b: Hashes,
                  v: Vertex, deps: bool)
    requires t'.child == t.child && t'.command == t.command
    requires v.Node? && v !in t.child ==> (v in c <==> v in c') && (v in c ==> c[v] == c'[v])
    requires v.Node? && v in t.child ==> t.child[v] in a && t.child[v] in b && a[t.child[v]] == b[t.child[v]]
    requires v.Rule? ==> v in t.inputs && v in t'.inputs
    requires v.Rule? ==> ExplicitInputs(t', v) == ExplicitInputs(t, v) && (deps || t'.inputs[v] == t.inputs[v])
    requires v.Rule? ==> forall i :: i in (if deps then ExplicitInputs(t, v) else t.inputs[v]) ==>
                                       i in a && i in b && a[i] == b[i]
    ensures Local(t', sha, c', b, v, deps) == Local(t, sha, c, a, v, deps)
  {
    hide ExplicitInputs;
    match v
    case Node(_) =>
      if v in t.child {
        SameConcat(a, b, [t.child[v]]);
      }
    case Rule(_) => SameConcat(a, b, if deps then ExplicitInputs(t, v) else t.inputs[v]);
  }

  /** After a load only the hashes of the rule and of the new files are not yet what they should be,
      and of the rule only the first one. */
  lemma MovedHolds(t: Topology, sha: string -> string, content: Hashes, hash: Hashes, hashDep: Hashes, r: Vertex,
                   deps: seq<string>, data: Vertex -> string)
    requires WellFormed(t) && r in t.rules && HasInputs(t, r) && WellFormed(Loaded(t, r, deps))
    requires Complete(t, hash, hashDep) && HoldOutside(t, sha, content, hash, hashDep, {})
    ensures var t' := Loaded(t, r, deps);
            var c, h, d := Reread(content, t, t', data), Moved(hash, t'), Moved(hashDep, t');
            && Complete(t', h, d) && HoldOutside(t', sha, c, h, d, {r} + NewFiles(t, t'))
            && r in d && d[r] == Local(t', sha, c, d, r, true)
            && NewFiles(t, t') !! hashDep.Keys
  {
    hide WellFormed, NewInputs, Loaded, Local;
    var t' := Loaded(t, r, deps);
    var c, h, d := Reread(content, t, t', data), Moved(hash, t'), Moved(hashDep, t');
    LoadedFrame(t, r, deps);
    RuleShape(t', r);
    forall n | n in NewFiles(t, t') ensures n !in t.rules {
      NodeShape(t', n);
      RuleNotNode(t, n);
    }
    forall v | v in t'.nodes + t'.rules - ({r} + NewFiles(t, t')) ensures Holds(t', sha, c, h, d, v) {
      assert v in t.nodes + t.rules - {};
      KeptLocal(t, sha, content, hash, r, deps, data, v, false);
      KeptLocal(t, sha, content, hashDep, r, deps, data, v, true);
    }
    assert r in t.nodes + t.rules - {};
    KeptLocal(t, sha, content, hashDep, r, deps, data, r, true);
  }

  lemma KeptLocal(t: Topology, sha: string -> string, content: Hashes, hash: Hashes, r: Vertex, deps: seq<string>,
                  data: Vertex -> string, v: Vertex, second: bool)
    requires WellFormed(t) && r in t.rules && HasInputs(t, r) && WellFormed(Loaded(t, r, deps))
    requires hash.Keys == t.nodes + t.rules && (v != r || second)
    requires var t' := Loaded(t, r, deps); v in t'.nodes + t'.rules - NewFiles(t, t') && v in t.nodes + t.rules
    ensures var t' := Loaded(t, r, deps);
            Local(t', sha, Reread(content, t, t', data), Moved(hash, t'), v, second)
            == Local(t, sha, content, hash, v, second)
  {
    hide WellFormed, NewInputs, Loaded, Local, ExplicitInputs;
    var t' := Loaded(t, r, deps);
    LoadedFrame(t, r, deps);
    ExplicitAfter(t, r, deps, v);
    if v in t.rules {
      RuleShape(t, v);
      RuleShape(t', v);
      ExplicitAreInputs(t', v);
      ExplicitAreInputs(t, v);
    } else {
      NodeShape(t, v);
    }
    LocalSame(t, t', sha, content, Reread(content, t, t', data), hash, Moved(hash, t'), v, second);
  }

  lemma ExplicitAreInputs(t: Topology, r: Vertex)
    requires r in t.inputs
    ensures forall i :: i in ExplicitInputs(t, r) ==> i in t.inputs[r]
  {
  }

  lemma ExplicitAfter(t: Topology, r: Vertex, deps: seq<string>, q: Vertex)
    requires WellFormed(t) && r in t.rules && HasInputs(t, r)
    ensures ExplicitInputs(Loaded(t, r, deps), q) == ExplicitInputs(t, q)
  {
    hide WellFormed, NewInputs, Loaded;
    LoadedFrame(t, r, deps);
    var ex, imp := ExplicitInputs(t, r), NewInputs(ExplicitInputs(t, r), deps);
    assert (ex + imp)[..|ex|] == ex;
  }

  /** Follows a load of `deps` for the rule `r`: afterwards every hash is again what it should be, on
      the loaded graph and with the new files read.  Second hashes of old vertices are not touched. */
  method Rehash(h: GraphHash, r: Vertex, t': Topology, data: Vertex -> string, ghost deps: seq<string>,
                ghost rank: map<Vertex, nat>)
    requires HashesHold(h, h.topo) && WellFormed(h.topo) && r in h.topo.rules && HasInputs(h.topo, r)
    requires t' == Loaded(h.topo, r, deps) && WellFormed(t') && Ranked(t', rank)
    modifies h`topo, h`content, h`hash, h`hashDep
    ensures HashesHold(h, t') && h.content == Reread(old(h.content), old(h.topo), t', data)
    ensures forall v :: v in h.hashDep && v in old(h.hashDep) ==> h.hashDep[v] == old(h.hashDep)[v]
  {
    hide *;
    ghost var t := h.topo;
    HashesParts(h);
    MovedHolds(t, h.sha, h.content, h.hash, h.hashDep, r, deps, data);
    var files := NewFiles(h.topo, t');
    h.content, h.hash, h.hashDep := Reread(h.content, h.topo, t', data), Moved(h.hash, t'), Moved(h.hashDep, t');
    h.topo := t';
    MovedKeeps(old(h.hashDep), t, t');
    ReadNew(h, r, files, t, deps, rank);
    LoadedRule(t, r, deps);
    NowDepsHold(h, r);
    h.RecomputeRuleHash(r, false, {}, rank);
    HashesParts(h);
  }

  lemma HashesParts(h: GraphHash)
    ensures HashesHold(h, h.topo) <==>
              && Complete(h.topo, h.hash, h.hashDep)
              && HoldOutside(h.topo, h.sha, h.content, h.hash, h.hashDep, {})
  {
  }

  lemma MovedKeeps(hash: Hashes, t: Topology, t': Topology)
    ensures forall v :: v in Moved(hash, t') && v in hash ==> Moved(hash, t')[v] == hash[v]
    ensures forall v :: v in Moved(hash, t') && v !in hash ==> Moved(hash, t')[v] == ""
  {
  }

  lemma LoadedRule(t: Topology, r: Vertex, deps: seq<string>)
    requires WellFormed(t) && r in t.rules && HasInputs(t, r)
    ensures r in Loaded(t, r, deps).rules
  {
    hide WellFormed;
    LoadedFrame(t, r, deps);
  }

  lemma NowDepsHold(h: GraphHash, r: Vertex)
    requires HoldOutside(h.topo, h.sha, h.content, h.hash, h.hashDep, {r}) && r in h.hashDep
    requires h.hashDep[r] == Local(h.topo, h.sha, h.content, h.hashDep, r, true)
    ensures DepsHold(h.topo, h.sha, h.content, h.hashDep)
    ensures HoldOutside(h.topo, h.sha, h.content, h.hash, h.hashDep, {} + {r})
  {
    hide Local;
    assert {} + {r} == {r};
    forall v | v in h.topo.nodes + h.topo.rules
      ensures v in h.hashDep && h.hashDep[v] == Local(h.topo, h.sha, h.content, h.hashDep, v, true)
    {
      assert v != r ==> Holds(h.topo, h.sha, h.content, h.hash, h.hashDep, v);
    }
  }

  /** hash::updateNodeHash for every new file. */
  method ReadNew(h: GraphHash, r: Vertex, files: set<Vertex>, ghost t: Topology, ghost deps: seq<string>,
                 ghost rank: map<Vertex, nat>)
    requires WellFormed(t) && r in t.rules && HasInputs(t, r) && h.topo == Loaded(t, r, deps) && WellFormed(h.topo)
    requires Ranked(h.topo, rank) && files == NewFiles(t, h.topo)
    requires Complete(h.topo, h.hash, h.hashDep) && r in h.hashDep
    requires HoldOutside(h.topo, h.sha, h.content, h.hash, h.hashDep, {r} + files)
    requires h.hashDep[r] == Local(h.topo, h.sha, h.content, h.hashDep, r, true)
    modifies h`hash, h`hashDep
    ensures Complete(h.topo, h.hash, h.hashDep) && r in h.hashDep
    ensures HoldOutside(h.topo, h.sha, h.content, h.hash, h.hashDep, {r})
    ensures h.hashDep[r] == Local(h.topo, h.sha, h.content, h.hashDep, r, true)
    ensures forall v :: v in h.hashDep && v !in files ==> v in old(h.hashDep) && h.hashDep[v] == old(h.hashDep)[v]
  {
    hide *;
    RuleShape(t, r);
    var left := files;
    while left != {}
      invariant left <= files && Complete(h.topo, h.hash, h.hashDep) && r in h.hashDep
      invariant HoldOutside(h.topo, h.sha, h.content, h.hash, h.hashDep, {r} + left)
      invariant h.hashDep[r] == Local(h.topo, h.sha, h.content, h.hashDep, r, true)
      invariant forall v :: v in h.hashDep && v !in files ==> v in old(h.hashDep) && h.hashDep[v] == old(h.hashDep)[v]
      decreases left
    {
      var n :| n in left;
      NewFileShape(t, r, deps, n, rank);
      NodeParts(h, rank, n);
      ghost var h0, d0 := h.hash, h.hashDep;
      assert {r} + left == {r} + (left - {n}) + {n};
      AfterUpdate(h.topo, h.sha, h.content, h0, d0, rank, n, {r} + (left - {n}));
      OnlyReader(h.topo, n, r, {r} + (left - {n}));
      SecondKept(t, h.topo, h.sha, h.content, d0, r, deps, n);
      var _ := h.UpdateNodeHash(n, true);
      Updated(h, h0, d0, n);
      left := left - {n};
    }
    assert {r} + {} == {r};
  }

  /** A new file is a source that only `r` consumes. */
  lemma NewFileShape(t: Topology, r: Vertex, deps: seq<string>, n: Vertex, rank: map<Vertex, nat>)
    requires WellFormed(t) && r in t.rules && HasInputs(t, r) && WellFormed(Loaded(t, r, deps))
    requires n in NewFiles(t, Loaded(t, r, deps))
    ensures var t' := Loaded(t, r, deps);
            && n in t'.nodes && n.Node? && IsSource(t', n) && n != r && n !in ExplicitInputs(t', r)
            && n in t'.parents && (forall p :: p in t'.parents[n] ==> p == r)
  {
    hide WellFormed, NewInputs, Loaded, ExplicitInputs;
    var t' := Loaded(t, r, deps);
    NodeShape(t', n);
    RuleShape(t, r);
    LoadedFrame(t, r, deps);
    ExplicitAfter(t, r, deps, r);
    ExplicitAreInputs(t, r);
    SameKeys(t);
    forall p | p in t'.parents[n] ensures p == r {
      ParentsAfter(t, r, deps, n, p);
    }
  }

  lemma OnlyReader(t: Topology, n: Vertex, r: Vertex, broken: set<Vertex>)
    requires WellFormed(t) && n in t.nodes && n in t.parents && (forall p :: p in t.parents[n] ==> p == r)
    requires r in broken && UpList(t, n) == t.parents[n]
    ensures broken + Range(UpList(t, n)) == broken
  {
    hide WellFormed;
  }

  /** Hashing a new file leaves the second hash of the rule right. */
  lemma SecondKept(t: Topology, t': Topology, sha: string -> string, content: Hashes, d0: Hashes, r: Vertex,
                   deps: seq<string>, n: Vertex)
    requires r.Rule? && n !in ExplicitInputs(t', r)
    ensures var d1 := d0[n := Local(t', sha, content, d0, n, true)];
            Local(t', sha, content, d1, r, true) == Local(t', sha, content, d0, r, true)
  {
    hide ExplicitInputs;
    ConcatFrame(d0, ExplicitInputs(t', r), n, Local(t', sha, content, d0, n, true));
  }
}
