/** Content hashes (src/graph_hash.cpp): every node and rule carries a hash over all its inputs
    and a second one that leaves implicit inputs out. */
module Hashing {
  import opened Reachability
  import opened Topology

  type Hashes = map<Vertex, string>

  function Concat(hash: Hashes, vs: seq<Vertex>): string {
    if vs == [] then "" else (if vs[0] in hash then hash[vs[0]] else "") + Concat(hash, vs[1..])
  }

  /** What the hash of `v` should be, given the hashes directly below it. */
  function Local(t: Topology, sha: string -> string, content: Hashes, hash: Hashes, v: Vertex, deps: bool): string {
    match v
    case Node(path) =>
      if v in t.child then sha(path + Concat(hash, [t.child[v]]))
      else sha(path + (if v in content then content[v] else ""))
    case Rule(_) =>
      sha(Concat(hash, if deps then ExplicitInputs(t, v) else if v in t.inputs then t.inputs[v] else [])
          + (if v in t.command then t.command[v] else ""))
  }

  /** The hash of `v` computed bottom-up from the file contents alone. */
  ghost function Scratch(t: Topology, sha: string -> string, content: Hashes, rank: map<Vertex, nat>, v: Vertex,
                         deps: bool): string
    requires WellFormed(t) && Ranked(t, rank) && v in t.nodes + t.rules
    decreases rank[v], 1, 0
  {
    match v
    case Node(path) =>
      if v in t.child then
        RankStep(t, rank, t.child[v], v);
        sha(path + Scratch(t, sha, content, rank, t.child[v], deps))
      else sha(path + (if v in content then content[v] else ""))
    case Rule(_) =>
      var ins := if deps then ExplicitInputs(t, v) else t.inputs[v];
      InputsBelow(t, rank, v);
      sha(ScratchAll(t, sha, content, rank, rank[v], ins, deps) + t.command[v])
  }

  ghost function ScratchAll(t: Topology, sha: string -> string, content: Hashes, rank: map<Vertex, nat>, bound: nat,
                            vs: seq<Vertex>, deps: bool): string
    requires WellFormed(t) && Ranked(t, rank)
    requires forall v :: v in vs ==> v in t.nodes && rank[v] < bound
    decreases bound, 0, |vs|
  {
    if vs == [] then "" else
      Scratch(t, sha, content, rank, vs[0], deps) + ScratchAll(t, sha, content, rank, bound, vs[1..], deps)
  }

  lemma InputsBelow(t: Topology, rank: map<Vertex, nat>, r: Vertex)
    requires WellFormed(t) && Ranked(t, rank) && r in t.rules
    ensures forall i :: i in t.inputs[r] ==> i in t.nodes && i in rank && rank[i] < rank[r]
    ensures forall i :: i in ExplicitInputs(t, r) ==> i in t.inputs[r]
  {
    hide WellFormed, Ranked;
    RuleShape(t, r);
    forall i | i in t.inputs[r] ensures i in t.nodes && i in rank && r in rank && rank[i] < rank[r] {
      RankStep(t, rank, i, r);
    }
  }

  /** The two hashes stored on `v` are what they should be. */
  ghost predicate Holds(t: Topology, sha: string -> string, content: Hashes, hash: Hashes, hashDep: Hashes, v: Vertex) {
    && v in hash && hash[v] == Local(t, sha, content, hash, v, false)
    && v in hashDep && hashDep[v] == Local(t, sha, content, hashDep, v, true)
  }

  ghost predicate HoldOutside(t: Topology, sha: string -> string, content: Hashes, hash: Hashes, hashDep: Hashes,
                              broken: set<Vertex>) {
    forall v :: v in t.nodes + t.rules - broken ==> Holds(t, sha, content, hash, hashDep, v)
  }

  /** `after` differs from `before` only at vertices of `s`. */
  ghost predicate SameOutside(before: Hashes, after: Hashes, s: set<Vertex>) {
    before.Keys == after.Keys && forall v :: v in before && v !in s ==> after[v] == before[v]
  }

  /** Every vertex has its two hashes, which are the same for a source file. */
  ghost predicate Complete(t: Topology, hash: Hashes, hashDep: Hashes) {
    && hash.Keys == hashDep.Keys == t.nodes + t.rules
    && forall s :: s in hash && s.Node? && IsSource(t, s) ==> hash[s] == hashDep[s]
  }

  /** Every second hash is what it should be. */
  ghost predicate DepsHold(t: Topology, sha: string -> string, content: Hashes, hashDep: Hashes) {
    forall v :: v in t.nodes + t.rules ==> v in hashDep && hashDep[v] == Local(t, sha, content, hashDep, v, true)
  }

  /** All hashes of the graph `t` are in place and right. */
  ghost predicate HashesHold(h: GraphHash, t: Topology)
    reads h
  {
    h.topo == t && Complete(t, h.hash, h.hashDep) && HoldOutside(t, h.sha, h.content, h.hash, h.hashDep, {})
  }

  /** `content` holds what each source file contained when it was last read. */
  class GraphHash {
    var topo: Topology
    const sha: string -> string
    var content: Hashes
    var hash: Hashes
    var hashDep: Hashes

    constructor (t: Topology, s: string -> string, c: Hashes, h: Hashes, d: Hashes)
      ensures topo == t && sha == s && content == c && hash == h && hashDep == d
    {
      topo, sha, content, hash, hashDep := t, s, c, h, d;
    }

    /** hash::updateNodeHash; `deps` says whether the second hash is recomputed as well, otherwise it
        must be right already.  For a source file only the first hash is compared. */
    method UpdateNodeHash(n: Vertex, deps: bool) returns (changed: bool)
      requires n.Node? && n in hash && n in hashDep && (IsSource(topo, n) ==> hash[n] == hashDep[n])
      requires n in topo.child ==> topo.child[n] in hash && topo.child[n] in hashDep
      requires !deps ==> hashDep[n] == Local(topo, sha, content, hashDep, n, true)
      modifies this`hash, this`hashDep
      ensures hash == old(hash)[n := Local(topo, sha, content, old(hash), n, false)]
      ensures hashDep == old(hashDep)[n := Local(topo, sha, content, old(hashDep), n, true)]
      ensures changed <==> hash[n] != old(hash)[n] || hashDep[n] != old(hashDep)[n]
    {
      changed := false;
      if n !in topo.child {
        var data := if n in content then content[n] else "";
        var h := sha(n.path + data);
        changed := changed || hash[n] != h;
        hash := hash[n := h];
        if deps {
          changed := changed || hash[n] != h;
          hashDep := hashDep[n := h];
        }
      } else {
        var c := topo.child[n];
        assert Concat(hash, [c]) == hash[c] && Concat(hashDep, [c]) == hashDep[c];
        var h := sha(n.path + hash[c]);
        changed := changed || hash[n] != h;
        hash := hash[n := h];
        if deps {
          var d := sha(n.path + hashDep[c]);
          changed := changed || hashDep[n] != d;
          hashDep := hashDep[n := d];
        }
      }
    }

    /** hash::updateRuleHash. */
    method UpdateRuleHash(r: Vertex)
      requires r.Rule? && r in topo.inputs && r in topo.implicits && r in topo.command
      requires topo.implicits[r] <= |topo.inputs[r]|
      requires forall i :: i in topo.inputs[r] ==> i in hash && i in hashDep
      modifies this`hash, this`hashDep
      ensures hash == old(hash)[r := Local(topo, sha, content, old(hash), r, false)]
      ensures hashDep == old(hashDep)[r := Local(topo, sha, content, old(hashDep), r, true)]
    {
      var inputs := topo.inputs[r];
      var all, deps := "", "";
      for i := 0 to |inputs|
        invariant hash == old(hash) && hashDep == old(hashDep)
        invariant all == Concat(hash, inputs[..i])
      {
        ConcatSnoc(hash, inputs, i);
        all := all + hash[inputs[i]];
      }
      for i := 0 to |inputs|
        invariant hash == old(hash) && hashDep == old(hashDep)
        invariant deps == Concat(hashDep, if i <= |ExplicitInputs(topo, r)| then inputs[..i]
                  else ExplicitInputs(topo, r))
      {
        if i < |inputs| - topo.implicits[r] {
          ConcatSnoc(hashDep, inputs, i);
          deps := deps + hashDep[inputs[i]];
        }
      }
      assert inputs[..|inputs|] == inputs;
      hash := hash[r := sha(all + topo.command[r])];
      hashDep := hashDep[r := sha(deps + topo.command[r])];
    }

    /** hash::recomputeNodeHash repairs the hashes of `n` and of everything above it that depends
        on the change, and breaks no other: whatever held or was not in `broken` holds after.  If the
        second hashes are not to be recomputed they must be right, and stay as they are. */
    method RecomputeNodeHash(n: Vertex, deps: bool, ghost broken: set<Vertex>, ghost rank: map<Vertex, nat>)
      returns (changed: bool)
      requires WellFormed(topo) && Ranked(topo, rank) && Complete(topo, hash, hashDep) && n in topo.nodes
      requires HoldOutside(topo, sha, content, hash, hashDep, broken + {n})
      requires !deps ==> DepsHold(topo, sha, content, hashDep)
      modifies this`hash, this`hashDep
      ensures Complete(topo, hash, hashDep) && HoldOutside(topo, sha, content, hash, hashDep, broken)
      ensures SameOutside(old(hash), hash, Above(topo, n)) && SameOutside(old(hashDep), hashDep, Above(topo, n))
      ensures changed <==> hash[n] != old(hash)[n] || hashDep[n] != old(hashDep)[n]
      ensures !changed ==> hash == old(hash) && hashDep == old(hashDep)
      ensures !deps ==> hashDep == old(hashDep)
      decreases Top(topo, rank) - rank[n], 1
    {
      hide *;
      NodeParts(this, rank, n);
      ghost var h0, d0 := hash, hashDep;
      if !deps {
        DepsHoldAt(topo, sha, content, d0, n);
      }
      changed := UpdateNodeHash(n, deps);
      AfterUpdate(topo, sha, content, h0, d0, rank, n, broken);
      Unchanged(h0, Above(topo, n));
      Unchanged(d0, Above(topo, n));
      if !changed {
        return false;
      }
      var parents := topo.parents[n];
      ListStart(topo, parents, n, h0, d0, hash, hashDep);
      Updated(this, h0, d0, n);
      for k := 0 to |parents|
        invariant Complete(topo, hash, hashDep) && HoldOutside(topo, sha, content, hash, hashDep,
                  broken + Range(parents[k..]))
        invariant SameOutside(h0, hash, {n} + AboveAll(topo, parents[..k]))
        invariant SameOutside(d0, hashDep, {n} + AboveAll(topo, parents[..k]))
        invariant n in hash && n in hashDep && (!deps ==> hashDep == d0)
        invariant hash[n] == Local(topo, sha, content, h0, n, false)
        invariant hashDep[n] == Local(topo, sha, content, d0, n, true)
      {
        NextInList(topo, parents, k, broken);
        ghost var h1, d1 := hash, hashDep;
        RecomputeRuleHash(parents[k], deps, broken + Range(parents[k + 1..]), rank);
        SameLater(topo, h0, h1, hash, d0, d1, hashDep, n, parents, k);
      }
      ListEnd(topo, parents, n, broken);
    }

    /** hash::recomputeRuleHash, while the cache has no depfile to offer.  It is asked for one only
        if the second hash of a rule changes, which it does not unless second hashes are recomputed. */
    method RecomputeRuleHash(r: Vertex, deps: bool, ghost broken: set<Vertex>, ghost rank: map<Vertex, nat>)
      requires WellFormed(topo) && Ranked(topo, rank) && Complete(topo, hash, hashDep) && r in topo.rules
      requires HoldOutside(topo, sha, content, hash, hashDep, broken + {r})
      requires !deps ==> DepsHold(topo, sha, content, hashDep)
      modifies this`hash, this`hashDep
      ensures Complete(topo, hash, hashDep) && HoldOutside(topo, sha, content, hash, hashDep, broken)
      ensures SameOutside(old(hash), hash, Above(topo, r)) && SameOutside(old(hashDep), hashDep, Above(topo, r))
      ensures !deps ==> hashDep == old(hashDep)
      decreases Top(topo, rank) - rank[r], 1
    {
      hide *;
      RuleParts(this, rank, r);
      ghost var h0, d0 := hash, hashDep;
      if !deps {
        DepsHoldAt(topo, sha, content, d0, r);
      }
      UpdateRuleHash(r);
      AfterUpdate(topo, sha, content, h0, d0, rank, r, broken);
      var outputs := topo.outputs[r];
      ListStart(topo, outputs, r, h0, d0, hash, hashDep);
      Updated(this, h0, d0, r);
      for k := 0 to |outputs|
        invariant Complete(topo, hash, hashDep) && HoldOutside(topo, sha, content, hash, hashDep,
                  broken + Range(outputs[k..]))
        invariant SameOutside(h0, hash, {r} + AboveAll(topo, outputs[..k]))
        invariant SameOutside(d0, hashDep, {r} + AboveAll(topo, outputs[..k])) && (!deps ==> hashDep == d0)
      {
        NextInList(topo, outputs, k, broken);
        ghost var h1, d1 := hash, hashDep;
        var _ := RecomputeNodeHash(outputs[k], deps, broken + Range(outputs[k + 1..]), rank);
        SameLater(topo, h0, h1, hash, d0, d1, hashDep, r, outputs, k);
      }
      ListEnd(topo, outputs, r, broken);
    }
  }

  lemma DepsHoldAt(t: Topology, sha: string -> string, content: Hashes, hashDep: Hashes, v: Vertex)
    requires DepsHold(t, sha, content, hashDep) && v in t.nodes + t.rules
    ensures v in hashDep && hashDep[v] == Local(t, sha, content, hashDep, v, true)
    ensures hashDep[v := Local(t, sha, content, hashDep, v, true)] == hashDep
  {
    hide Local;
  }

  lemma NodeParts(g: GraphHash, rank: map<Vertex, nat>, n: Vertex)
    requires WellFormed(g.topo) && Ranked(g.topo, rank) && Complete(g.topo, g.hash, g.hashDep) && n in g.topo.nodes
    ensures n.Node? && n in g.hash && n in g.hashDep && (IsSource(g.topo, n) ==> g.hash[n] == g.hashDep[n])
    ensures n in g.topo.child ==> g.topo.child[n] in g.hash && g.topo.child[n] in g.hashDep
    ensures n in g.topo.parents && UpList(g.topo, n) == g.topo.parents[n]
    ensures n !in AboveAll(g.topo, g.topo.parents[n])
    ensures Above(g.topo, n) == {n} + AboveAll(g.topo, g.topo.parents[n])
    ensures forall p :: p in g.topo.parents[n] ==> p in g.topo.rules && p in rank && n in rank && rank[n] < rank[p]
  {
    hide AboveAll, Above, Ranked;
    NotAboveItself(g.topo, rank, n);
    AboveUnfold(g.topo, n);
    forall p | p in g.topo.parents[n] ensures p in rank && n in rank && rank[n] < rank[p] {
      RankStep(g.topo, rank, n, p);
    }
  }

  lemma RuleParts(g: GraphHash, rank: map<Vertex, nat>, r: Vertex)
    requires WellFormed(g.topo) && Ranked(g.topo, rank) && Complete(g.topo, g.hash, g.hashDep) && r in g.topo.rules
    ensures r.Rule? && r in g.topo.inputs && r in g.topo.implicits && r in g.topo.command
    ensures g.topo.implicits[r] <= |g.topo.inputs[r]|
    ensures r in g.hash && r in g.hashDep
    ensures forall i :: i in g.topo.inputs[r] ==> i in g.hash && i in g.hashDep
    ensures r in g.topo.outputs && UpList(g.topo, r) == g.topo.outputs[r]
    ensures Above(g.topo, r) == {r} + AboveAll(g.topo, g.topo.outputs[r])
    ensures forall o :: o in g.topo.outputs[r] ==> o in g.topo.nodes && o in rank && r in rank && rank[r] < rank[o]
  {
    hide AboveAll, Above, Ranked, WellFormed;
    RuleShape(g.topo, r);
    AboveUnfold(g.topo, r);
    forall o | o in g.topo.outputs[r] ensures o in rank && r in rank && rank[r] < rank[o] {
      RankStep(g.topo, rank, r, o);
    }
  }

  lemma ListStart(t: Topology, vs: seq<Vertex>, v: Vertex, h0: Hashes, d0: Hashes, h1: Hashes, d1: Hashes)
    requires v in h0 && v in d0 && v in h1 && v in d1
    requires h1 == h0[v := h1[v]] && d1 == d0[v := d1[v]]
    ensures vs[0..] == vs
    ensures SameOutside(h0, h1, {v} + AboveAll(t, vs[..0])) && SameOutside(d0, d1, {v} + AboveAll(t, vs[..0]))
  {
  }

  lemma Unchanged(h: Hashes, s: set<Vertex>)
    ensures SameOutside(h, h, s)
  {
  }

  lemma NextInList(t: Topology, vs: seq<Vertex>, k: nat, broken: set<Vertex>)
    requires k < |vs|
    ensures broken + Range(vs[k..]) == broken + Range(vs[k + 1..]) + {vs[k]}
  {
  }

  lemma ListEnd(t: Topology, vs: seq<Vertex>, v: Vertex, broken: set<Vertex>)
    ensures broken + Range(vs[|vs|..]) == broken && vs[..|vs|] == vs
  {
  }

  lemma SameLater(t: Topology, h0: Hashes, h1: Hashes, h2: Hashes, d0: Hashes, d1: Hashes, d2: Hashes,
                  v: Vertex, vs: seq<Vertex>, k: nat)
    requires k < |vs|
    requires SameOutside(h0, h1, {v} + AboveAll(t, vs[..k])) && SameOutside(h1, h2, Above(t, vs[k]))
    requires SameOutside(d0, d1, {v} + AboveAll(t, vs[..k])) && SameOutside(d1, d2, Above(t, vs[k]))
    ensures SameOutside(h0, h2, {v} + AboveAll(t, vs[..k + 1])) && SameOutside(d0, d2, {v} + AboveAll(t, vs[..k + 1]))
    ensures v !in AboveAll(t, vs) && v in h1 && v in d1 ==> v in h2 && v in d2 && h2[v] == h1[v] && d2[v] == d1[v]
  {
    hide Above, AboveAll;
    AboveAllExtend(t, vs, k);
    AboveAllMember(t, vs, k);
  }

  lemma AboveAllMember(t: Topology, vs: seq<Vertex>, k: nat)
    requires k < |vs|
    ensures Above(t, vs[k]) <= AboveAll(t, vs)
  {
  }

  lemma Updated(g: GraphHash, h0: Hashes, d0: Hashes, v: Vertex)
    requires v in g.topo.nodes + g.topo.rules
    requires Complete(g.topo, h0, d0)
    requires g.hash == h0[v := Local(g.topo, g.sha, g.content, h0, v, false)]
    requires g.hashDep == d0[v := Local(g.topo, g.sha, g.content, d0, v, true)]
    ensures Complete(g.topo, g.hash, g.hashDep)
  {
  }

  /** Storing what the hash of `u` should be affects only the hashes directly above `u`. */
  lemma UpdateAffects(t: Topology, sha: string -> string, content: Hashes, hash: Hashes, u: Vertex, x: string,
                      v: Vertex, deps: bool)
    requires WellFormed(t) && v in t.nodes + t.rules && v !in UpList(t, u)
    ensures Local(t, sha, content, hash[u := x], v, deps) == Local(t, sha, content, hash, v, deps)
  {
    hide WellFormed, Concat;
    if v in t.nodes {
      NodeShape(t, v);
      if v in t.child {
        RuleShape(t, t.child[v]);
        ConcatFrame(hash, [t.child[v]], u, x);
      }
    } else {
      RuleShape(t, v);
      assert u !in t.inputs[v] by {
        if u in t.inputs[v] {
          NodeShape(t, u);
        }
      }
      ConcatFrame(hash, t.inputs[v], u, x);
      ConcatFrame(hash, ExplicitInputs(t, v), u, x);
    }
  }

  lemma AfterUpdate(t: Topology, sha: string -> string, content: Hashes, h0: Hashes, d0: Hashes, rank: map<Vertex, nat>,
                    u: Vertex, broken: set<Vertex>)
    requires WellFormed(t) && Ranked(t, rank) && u in t.nodes + t.rules && u in h0 && u in d0
    requires HoldOutside(t, sha, content, h0, d0, broken + {u})
    ensures var h1, d1 := h0[u := Local(t, sha, content, h0, u, false)], d0[u := Local(t, sha, content, d0, u, true)];
            && HoldOutside(t, sha, content, h1, d1, broken + Range(UpList(t, u)))
            && (h1[u] == h0[u] && d1[u] == d0[u] ==>
                h1 == h0 && d1 == d0
                && HoldOutside(t, sha, content, h0, d0, broken))
  {
    hide WellFormed, Ranked, Local;
    var x, y := Local(t, sha, content, h0, u, false), Local(t, sha, content, d0, u, true);
    NotAboveItself(t, rank, u);
    forall v | v in t.nodes + t.rules - (broken + Range(UpList(t, u)))
      ensures Holds(t, sha, content, h0[u := x], d0[u := y], v)
    {
      UpdateAffects(t, sha, content, h0, u, x, v, false);
      UpdateAffects(t, sha, content, d0, u, y, v, true);
      assert v != u ==> Holds(t, sha, content, h0, d0, v);
    }
  }

  ghost predicate DownClosed(t: Topology, done: set<Vertex>) {
    && (forall r, i :: r in done && r in t.inputs && i in t.inputs[r] ==> i in done)
    && (forall n :: n in done && n in t.child ==> t.child[n] in done)
  }

  /** Hashing one more vertex, once everything below it has been hashed. */
  lemma HashNext(t: Topology, sha: string -> string, content: Hashes, h0: Hashes, d0: Hashes, rank: map<Vertex, nat>,
                 done: set<Vertex>, u: Vertex)
    requires WellFormed(t) && Ranked(t, rank) && Complete(t, h0, d0) && u in t.nodes + t.rules && u !in done
             && DownClosed(t, done)
    requires HoldOutside(t, sha, content, h0, d0, t.nodes + t.rules - done)
    ensures var h1, d1 := h0[u := Local(t, sha, content, h0, u, false)], d0[u := Local(t, sha, content, d0, u, true)];
            && Complete(t, h1, d1) && HoldOutside(t, sha, content, h1, d1, t.nodes + t.rules - (done + {u}))
  {
    hide WellFormed, Ranked, Holds, Local;
    var rest := t.nodes + t.rules - done - {u};
    assert rest + {u} == t.nodes + t.rules - done && rest == t.nodes + t.rules - (done + {u});
    AfterUpdate(t, sha, content, h0, d0, rank, u, rest);
    NotAboveItself(t, rank, u);
    forall v | v in UpList(t, u) ensures v in rest {
      UpStep(t, u, v);
      if u in t.nodes {
        NodeShape(t, u);
      } else {
        RuleShape(t, u);
      }
    }
    assert rest + Range(UpList(t, u)) == rest;
    SourceHashes(t, sha, content, h0, d0, u);
  }

  lemma SourceHashes(t: Topology, sha: string -> string, content: Hashes, h0: Hashes, d0: Hashes, u: Vertex)
    requires Complete(t, h0, d0) && u in t.nodes + t.rules
    ensures Complete(t, h0[u := Local(t, sha, content, h0, u, false)], d0[u := Local(t, sha, content, d0, u, true)])
  {
  }

  /** Digests are never empty, so neither are hashes. */
  lemma HashNotEmpty(t: Topology, sha: string -> string, content: Hashes, hash: Hashes, v: Vertex, deps: bool)
    requires forall x :: sha(x) != ""
    ensures Local(t, sha, content, hash, v, deps) != ""
  {
  }

  lemma {:induction false} ConcatSnoc(hash: Hashes, vs: seq<Vertex>, k: nat)
    requires k < |vs| && forall v :: v in vs ==> v in hash
    ensures Concat(hash, vs[..k + 1]) == Concat(hash, vs[..k]) + hash[vs[k]]
  {
    if k == 0 {
      assert vs[..1] == [vs[0]] && vs[..1][1..] == [];
    } else {
      ConcatSnoc(hash, vs[1..], k - 1);
      assert vs[..k + 1][1..] == vs[1..][..k] && vs[..k][1..] == vs[1..][..k - 1];
    }
  }

  lemma {:induction false} ConcatFrame(hash: Hashes, vs: seq<Vertex>, u: Vertex, x: string)
    requires u !in vs
    ensures Concat(hash[u := x], vs) == Concat(hash, vs)
  {
    if vs != [] {
      ConcatFrame(hash, vs[1..], u, x);
    }
  }

  /** Hashes that all hold are the hashes computed from scratch. */
  lemma {:induction false} AgreesWithScratch(t: Topology, sha: string -> string, content: Hashes, hash: Hashes,
                                             rank: map<Vertex, nat>, v: Vertex, deps: bool)
    requires WellFormed(t) && Ranked(t, rank) && v in t.nodes + t.rules
    requires forall u :: u in t.nodes + t.rules ==> u in hash && hash[u] == Local(t, sha, content, hash, u, deps)
    ensures v in rank && hash[v] == Scratch(t, sha, content, rank, v, deps)
    decreases rank[v], 1, 0
  {
    hide WellFormed, Ranked;
    RanksCover(t, rank);
    if v in t.nodes {
      NodeShape(t, v);
      if v in t.child {
        var c := t.child[v];
        RuleShape(t, c);
        RankStep(t, rank, c, v);
        AgreesWithScratch(t, sha, content, hash, rank, c, deps);
        assert Concat(hash, [c]) == hash[c];
      }
    } else {
      RuleShape(t, v);
      InputsBelow(t, rank, v);
      AllAgreeWithScratch(t, sha, content, hash, rank, rank[v], if deps then ExplicitInputs(t, v) else t.inputs[v],
          deps);
    }
  }

  lemma {:induction false} AllAgreeWithScratch(t: Topology, sha: string -> string, content: Hashes, hash: Hashes,
                                               rank: map<Vertex, nat>, bound: nat, vs: seq<Vertex>, deps: bool)
    requires WellFormed(t) && Ranked(t, rank)
    requires forall v :: v in vs ==> v in t.nodes && v in rank && rank[v] < bound
    requires forall u :: u in t.nodes + t.rules ==> u in hash && hash[u] == Local(t, sha, content, hash, u, deps)
    ensures Concat(hash, vs) == ScratchAll(t, sha, content, rank, bound, vs, deps)
    decreases bound, 0, |vs|
  {
    hide WellFormed, Ranked, Local;
    if vs != [] {
      AgreesWithScratch(t, sha, content, hash, rank, vs[0], deps);
      AllAgreeWithScratch(t, sha, content, hash, rank, bound, vs[1..], deps);
    }
  }

  lemma ContentAffects(t: Topology, sha: string -> string, content: Hashes, hash: Hashes, hashDep: Hashes,
                       n: Vertex, data: string)
    requires HoldOutside(t, sha, content, hash, hashDep, {})
    ensures HoldOutside(t, sha, content[n := data], hash, hashDep, {} + {n})
  {
    forall v | v in t.nodes + t.rules - ({} + {n}) ensures Holds(t, sha, content[n := data], hash, hashDep, v) {
      assert v in t.nodes + t.rules - {} && Holds(t, sha, content, hash, hashDep, v);
    }
  }

  lemma ScratchEverywhere(g: GraphHash, rank: map<Vertex, nat>)
    requires WellFormed(g.topo) && Ranked(g.topo, rank)
    requires HoldOutside(g.topo, g.sha, g.content, g.hash, g.hashDep, {})
    ensures forall v :: v in g.topo.nodes + g.topo.rules ==>
              && v in g.hash && g.hash[v] == Scratch(g.topo, g.sha, g.content, rank, v, false)
              && v in g.hashDep && g.hashDep[v] == Scratch(g.topo, g.sha, g.content, rank, v, true)
  {
    hide WellFormed, Ranked, Scratch, Local;
    forall v | v in g.topo.nodes + g.topo.rules
      ensures Holds(g.topo, g.sha, g.content, g.hash, g.hashDep, v)
    {
      assert v in g.topo.nodes + g.topo.rules - {};
    }
    forall v | v in g.topo.nodes + g.topo.rules
      ensures v in g.hash && g.hash[v] == Scratch(g.topo, g.sha, g.content, rank, v, false)
      ensures v in g.hashDep && g.hashDep[v] == Scratch(g.topo, g.sha, g.content, rank, v, true)
    {
      AgreesWithScratch(g.topo, g.sha, g.content, g.hash, rank, v, false);
      AgreesWithScratch(g.topo, g.sha, g.content, g.hashDep, rank, v, true);
    }
  }

  /** After a source file changed, recomputing from that file alone leaves every hash of the
      graph equal to the hash computed from scratch over the new contents. */
  method SourceChanged(g: GraphHash, n: Vertex, data: string, ghost rank: map<Vertex, nat>) returns (changed: bool)
    requires WellFormed(g.topo) && Ranked(g.topo, rank) && n in g.topo.nodes && IsSource(g.topo, n)
    requires Complete(g.topo, g.hash, g.hashDep) && HoldOutside(g.topo, g.sha, g.content, g.hash, g.hashDep, {})
    modifies g`content, g`hash, g`hashDep
    ensures g.content == old(g.content)[n := data]
    ensures Complete(g.topo, g.hash, g.hashDep) && HoldOutside(g.topo, g.sha, g.content, g.hash, g.hashDep, {})
    ensures forall v :: v in g.topo.nodes + g.topo.rules ==>
              g.hash[v] == Scratch(g.topo, g.sha, g.content, rank, v, false)
              && g.hashDep[v] == Scratch(g.topo, g.sha, g.content, rank, v, true)
    ensures changed <==> g.hash[n] != old(g.hash[n])
    ensures !changed ==> g.hash == old(g.hash) && g.hashDep == old(g.hashDep)
  {
    hide WellFormed, Ranked, Scratch, HoldOutside;
    ContentAffects(g.topo, g.sha, g.content, g.hash, g.hashDep, n, data);
    g.content := g.content[n := data];
    assert n.Node? by { NodeShape(g.topo, n); }
    changed := g.RecomputeNodeHash(n, true, {}, rank);
    ScratchEverywhere(g, rank);
  }

  // ----- What a hash tells -----

  /** The text that is hashed at `v`: the path with the contents of a source or the hash of the rule of a
      generated file, the hashes of all inputs with the command of a rule. */
  ghost function Preimage(t: Topology, content: Hashes, hash: Hashes, v: Vertex): string {
    match v
    case Node(path) =>
      if v in t.child then path + Concat(hash, [t.child[v]]) else path + (if v in content then content[v] else "")
    case Rule(_) =>
      Concat(hash, if v in t.inputs then t.inputs[v] else []) + (if v in t.command then t.command[v] else "")
  }

  /** What `v` itself contributes to hashes: the contents of a source, the command of a rule. */
  ghost function Own(t: Topology, content: Hashes, v: Vertex): string {
    if v.Rule? then (if v in t.command then t.command[v] else "")
    else if v in t.child then "" else if v in content then content[v] else ""
  }

  /** First hashes that hold are those of the texts; the second hash of a rule leaves its implicit inputs
      out. */
  lemma HashIsOfPreimage(t: Topology, sha: string -> string, content: Hashes, hash: Hashes, hashDep: Hashes, v: Vertex)
    requires HoldOutside(t, sha, content, hash, hashDep, {}) && v in t.nodes + t.rules
    ensures v in hash && hash[v] == sha(Preimage(t, content, hash, v)) && v in hashDep
    ensures v.Node? ==> hashDep[v] == sha(Preimage(t, content, hashDep, v))
    ensures v.Rule? && v in t.command && HasInputs(t, v) ==>
              hashDep[v] == sha(Concat(hashDep, t.inputs[v][..|t.inputs[v]| - t.implicits[v]]) + t.command[v])
  {
    assert v in t.nodes + t.rules - {};
    assert Holds(t, sha, content, hash, hashDep, v);
  }

  /** Hashes in two states of a graph whose commands may differ: as far as the hash function tells apart
      what is hashed, two hashes of a vertex are equal exactly when all contents of sources and all
      commands at it and below it are. */
  ghost predicate TellsApart(t: Topology, u: Topology, sha: string -> string, c1: Hashes, h1: Hashes, c2: Hashes,
                             h2: Hashes) {
    && (forall x, y :: |sha(x)| == |sha(y)|)
    && forall v :: v in t.nodes + t.rules && sha(Preimage(t, c1, h1, v)) == sha(Preimage(u, c2, h2, v)) ==>
                     Preimage(t, c1, h1, v) == Preimage(u, c2, h2, v)
  }

  ghost predicate SameBelow(t: Topology, u: Topology, c1: Hashes, c2: Hashes, v: Vertex) {
    forall w :: w in t.nodes + t.rules && v in Above(t, w) ==> Own(t, c1, w) == Own(u, c2, w)
  }

  lemma {:induction false} HashTells(t: Topology, u: Topology, sha: string -> string,
                                     c1: Hashes, h1: Hashes, d1: Hashes, c2: Hashes, h2: Hashes, d2: Hashes,
                                     rank: map<Vertex, nat>, v: Vertex)
    requires WellFormed(t) && Ranked(t, rank) && u == t.(command := u.command) && v in t.nodes + t.rules
    requires HoldOutside(t, sha, c1, h1, d1, {}) && HoldOutside(u, sha, c2, h2, d2, {})
    requires TellsApart(t, u, sha, c1, h1, c2, h2)
    ensures v in rank && v in h1 && v in h2 && (h1[v] == h2[v] <==> SameBelow(t, u, c1, c2, v))
    decreases rank[v]
  {
    hide WellFormed, Ranked, HoldOutside, Above, SameBelow, Concat;
    RanksCover(t, rank);
    HashIsOfPreimage(t, sha, c1, h1, d1, v);
    HashIsOfPreimage(u, sha, c2, h2, d2, v);
    var ins := DirectlyBelow(t, v);
    forall i | i in ins
      ensures i in t.nodes + t.rules && i in h1 && i in h2 && (h1[i] == h2[i] <==> SameBelow(t, u, c1, c2, i))
      ensures |h1[i]| == |h2[i]|
    {
      BelowShape(t, rank, v, i);
      HashTells(t, u, sha, c1, h1, d1, c2, h2, d2, rank, i);
      HashIsOfPreimage(t, sha, c1, h1, d1, i);
      HashIsOfPreimage(u, sha, c2, h2, d2, i);
    }
    SameBelowUnfold(t, u, c1, c2, v);
    ShapeOf(t, v);
    PreimageSplit(t, c1, h1, v);
    PreimageSplit(u, c2, h2, v);
    SplitEqual(h1, h2, ins, Own(t, c1, v), Own(u, c2, v));
    assert (h1[v] == h2[v]) <==> Preimage(t, c1, h1, v) == Preimage(u, c2, h2, v);
  }

  /** The vertices directly below `v`, as they are hashed. */
  function DirectlyBelow(t: Topology, v: Vertex): seq<Vertex> {
    match v
    case Node(_) => if v in t.child then [t.child[v]] else []
    case Rule(_) => if v in t.inputs then t.inputs[v] else []
  }

  lemma ShapeOf(t: Topology, v: Vertex)
    requires WellFormed(t) && v in t.nodes + t.rules
    ensures v in t.child ==> v.Node?
    ensures v.Rule? ==> v !in t.child
  {
    hide WellFormed;
    if v in t.nodes {
      NodeShape(t, v);
    } else {
      RuleShape(t, v);
    }
  }

  lemma BelowShape(t: Topology, rank: map<Vertex, nat>, v: Vertex, i: Vertex)
    requires WellFormed(t) && Ranked(t, rank) && v in t.nodes + t.rules && i in DirectlyBelow(t, v)
    ensures i in t.nodes + t.rules && i in rank && v in rank && rank[i] < rank[v] && v in UpList(t, i)
  {
    hide WellFormed, Ranked;
    if v in t.nodes {
      NodeShape(t, v);
      RuleShape(t, t.child[v]);
    } else {
      RuleShape(t, v);
      NodeShape(t, i);
    }
    RankStep(t, rank, i, v);
  }

  lemma PreimageSplit(t: Topology, content: Hashes, hash: Hashes, v: Vertex)
    ensures Preimage(t, content, hash, v)
            == (if v.Node? then v.path else "") + Concat(hash, DirectlyBelow(t, v)) + Own(t, content, v)
  {
    match v
    case Node(path) => assert Concat(hash, []) == "";
    case Rule(_) => assert "" + Concat(hash, DirectlyBelow(t, v)) == Concat(hash, DirectlyBelow(t, v));
  }

  /** Texts made of hashes of equal lengths and a rest are equal exactly when all their parts are. */
  lemma {:induction false} SplitEqual(h1: Hashes, h2: Hashes, ins: seq<Vertex>, a: string, b: string)
    requires forall i :: i in ins ==> i in h1 && i in h2 && |h1[i]| == |h2[i]|
    ensures forall p: string :: p + Concat(h1, ins) + a == p + Concat(h2, ins) + b <==>
                                  (forall i :: i in ins ==> h1[i] == h2[i]) && a == b
  {
    ConcatEqual(h1, h2, ins);
    forall p: string ensures p + Concat(h1, ins) + a == p + Concat(h2, ins) + b <==>
                             Concat(h1, ins) == Concat(h2, ins) && a == b {
      CutAt(p + Concat(h1, ins), a, p + Concat(h2, ins), b);
      CutAt(p, Concat(h1, ins), p, Concat(h2, ins));
    }
  }

  lemma {:induction false} ConcatEqual(h1: Hashes, h2: Hashes, ins: seq<Vertex>)
    requires forall i :: i in ins ==> i in h1 && i in h2 && |h1[i]| == |h2[i]|
    ensures |Concat(h1, ins)| == |Concat(h2, ins)|
    ensures Concat(h1, ins) == Concat(h2, ins) <==> forall i :: i in ins ==> h1[i] == h2[i]
  {
    if ins != [] {
      ConcatEqual(h1, h2, ins[1..]);
      CutAt(h1[ins[0]], Concat(h1, ins[1..]), h2[ins[0]], Concat(h2, ins[1..]));
      assert forall i :: i in ins <==> i == ins[0] || i in ins[1..];
    }
  }

  lemma CutAt(a: string, b: string, c: string, d: string)
    requires |a| == |c|
    ensures a + b == c + d <==> a == c && b == d
  {
    if a + b == c + d {
      assert (a + b)[..|a|] == a && (c + d)[..|c|] == c && (a + b)[|a|..] == b && (c + d)[|c|..] == d;
    }
  }

  lemma SameBelowUnfold(t: Topology, u: Topology, c1: Hashes, c2: Hashes, v: Vertex)
    requires WellFormed(t) && v in t.nodes + t.rules
    ensures SameBelow(t, u, c1, c2, v) <==>
              Own(t, c1, v) == Own(u, c2, v) && forall i :: i in DirectlyBelow(t, v) ==> SameBelow(t, u, c1, c2, i)
  {
    hide WellFormed, Own, UpEdges;
    AboveSelf(t, v);
    if SameBelow(t, u, c1, c2, v) {
      forall i, w | i in DirectlyBelow(t, v) && w in t.nodes + t.rules && i in Above(t, w)
        ensures Own(t, c1, w) == Own(u, c2, w)
      {
        StepBelow(t, v, i);
        ReachesStepLast(UpEdges(t), w, i, v);
      }
    }
    if Own(t, c1, v) == Own(u, c2, v) && forall i :: i in DirectlyBelow(t, v) ==> SameBelow(t, u, c1, c2, i) {
      forall w | w in t.nodes + t.rules && v in Above(t, w) ensures Own(t, c1, w) == Own(u, c2, w) {
        if w != v {
          var i := ReachesSplitLast(UpEdges(t), w, v);
          StepIsBelow(t, i, v);
        }
      }
    }
  }

  lemma StepBelow(t: Topology, v: Vertex, i: Vertex)
    requires WellFormed(t) && v in t.nodes + t.rules && i in DirectlyBelow(t, v)
    ensures Step(UpEdges(t), i, v)
  {
    hide WellFormed, UpEdges;
    UpStep(t, i, v);
    if v in t.nodes {
      NodeShape(t, v);
      RuleShape(t, t.child[v]);
    } else {
      RuleShape(t, v);
    }
  }

  lemma StepIsBelow(t: Topology, i: Vertex, v: Vertex)
    requires WellFormed(t) && Step(UpEdges(t), i, v)
    ensures i in DirectlyBelow(t, v) && i in t.nodes + t.rules
  {
    hide WellFormed, UpEdges;
    UpStep(t, i, v);
    if i in t.nodes {
      NodeShape(t, i);
      RuleShape(t, v);
    } else {
      RuleShape(t, i);
      NodeShape(t, v);
    }
  }

  /** If only the contents of `n` change, hashes change only above `n`, and none do unless that of `n`
      itself does. */
  lemma {:induction false} ChangesAbove(t: Topology, sha: string -> string, c1: Hashes, h1: Hashes, d1: Hashes,
                                        c2: Hashes, h2: Hashes, d2: Hashes,
                                        rank: map<Vertex, nat>, n: Vertex, v: Vertex)
    requires WellFormed(t) && Ranked(t, rank) && v in t.nodes + t.rules && n in t.nodes && n !in t.child
    requires HoldOutside(t, sha, c1, h1, d1, {}) && HoldOutside(t, sha, c2, h2, d2, {})
    requires forall w :: w != n ==> (w in c1 <==> w in c2) && (w in c1 ==> c1[w] == c2[w])
    ensures v in rank && n in h1 && n in h2 && v in h1 && v in h2
    ensures h1[v] != h2[v] ==> v in Above(t, n) && h1[n] != h2[n]
    decreases rank[v]
  {
    hide WellFormed, Ranked, HoldOutside, Above, Concat;
    RanksCover(t, rank);
    HashIsOfPreimage(t, sha, c1, h1, d1, v);
    HashIsOfPreimage(t, sha, c2, h2, d2, v);
    HashIsOfPreimage(t, sha, c1, h1, d1, n);
    HashIsOfPreimage(t, sha, c2, h2, d2, n);
    var ins := DirectlyBelow(t, v);
    forall i | i in ins
      ensures i in h1 && i in h2 && (h1[i] != h2[i] ==> v in Above(t, n) && h1[n] != h2[n])
    {
      BelowShape(t, rank, v, i);
      ChangesAbove(t, sha, c1, h1, d1, c2, h2, d2, rank, n, i);
      if h1[i] != h2[i] {
        StepBelow(t, v, i);
        AboveMore(t, n, i, v);
      }
    }
    if v == n {
      AboveSelf(t, n);
    } else if forall i :: i in ins ==> h1[i] == h2[i] {
      PreimageSplit(t, c1, h1, v);
      PreimageSplit(t, c2, h2, v);
      SameConcat(h1, h2, ins);
    }
  }

  lemma AboveMore(t: Topology, n: Vertex, i: Vertex, v: Vertex)
    requires i in Above(t, n) && Step(UpEdges(t), i, v) && v in t.nodes + t.rules
    ensures v in Above(t, n)
  {
    hide UpEdges;
    ReachesStepLast(UpEdges(t), n, i, v);
  }

  lemma {:induction false} SameConcat(h1: Hashes, h2: Hashes, ins: seq<Vertex>)
    requires forall i :: i in ins ==> i in h1 && i in h2 && h1[i] == h2[i]
    ensures Concat(h1, ins) == Concat(h2, ins)
  {
    if ins != [] {
      SameConcat(h1, h2, ins[1..]);
    }
  }
}
