/** Paths and reachability in a finite directed graph whose edges are given as a map from a
    vertex to the set of its successors.  Every dependency-graph property of the model is
    stated with `Reaches`, so that it does not mention the traversal that computes it. */
module Reachability {

  /** A node of the build graph is identified by its path, a rule by its index in the graph. */
  datatype Vertex = Node(path: string) | Rule(id: nat)

  type Edges = map<Vertex, set<Vertex>>

  predicate Step(g: Edges, u: Vertex, v: Vertex) {
    u in g && v in g[u]
  }

  predicate IsPath(g: Edges, p: seq<Vertex>) {
    && |p| > 0
    && forall i :: 0 < i < |p| ==> Step(g, p[i - 1], p[i])
  }

  ghost predicate Connects(g: Edges, p: seq<Vertex>, u: Vertex, v: Vertex) {
    IsPath(g, p) && p[0] == u && p[|p| - 1] == v
  }

  /** `v` is `u` or can be reached from it by following edges. */
  ghost predicate Reaches(g: Edges, u: Vertex, v: Vertex) {
    exists p :: Connects(g, p, u, v)
  }

  ghost predicate Closed(g: Edges, s: set<Vertex>) {
    forall u, v :: u in s && Step(g, u, v) ==> v in s
  }

  /** No edge leads to a vertex of smaller or equal rank. */
  ghost predicate RankedBy(g: Edges, rank: map<Vertex, nat>) {
    forall u, v :: Step(g, u, v) ==> u in rank && v in rank && rank[u] < rank[v]
  }

  lemma ReachesSelf(g: Edges, u: Vertex)
    ensures Reaches(g, u, u)
  {
    assert Connects(g, [u], u, u);
  }

  lemma ReachesStepFirst(g: Edges, u: Vertex, w: Vertex, v: Vertex)
    requires Step(g, u, w) && Reaches(g, w, v)
    ensures Reaches(g, u, v)
  {
    var p :| Connects(g, p, w, v);
    assert Connects(g, [u] + p, u, v);
  }

  lemma ReachesStepLast(g: Edges, u: Vertex, w: Vertex, v: Vertex)
    requires Reaches(g, u, w) && Step(g, w, v)
    ensures Reaches(g, u, v)
  {
    var p :| Connects(g, p, u, w);
    assert Connects(g, p + [v], u, v);
  }

  /** The last edge of a non-trivial path. */
  lemma ReachesSplitLast(g: Edges, u: Vertex, v: Vertex) returns (w: Vertex)
    requires Reaches(g, u, v) && u != v
    ensures Reaches(g, u, w) && Step(g, w, v)
  {
    var p :| Connects(g, p, u, v);
    w := p[|p| - 2];
    assert Connects(g, p[..|p| - 1], u, w);
  }

  /** The first edge of a non-trivial path. */
  lemma ReachesSplitFirst(g: Edges, u: Vertex, v: Vertex) returns (w: Vertex)
    requires Reaches(g, u, v) && u != v
    ensures Step(g, u, w) && Reaches(g, w, v)
  {
    var p :| Connects(g, p, u, v);
    w := p[1];
    assert Connects(g, p[1..], w, v);
  }

  /** A closed set contains everything reachable from its members. */
  lemma {:induction false} ClosedContains(g: Edges, s: set<Vertex>, u: Vertex, v: Vertex)
    requires Closed(g, s) && u in s && Reaches(g, u, v)
    ensures v in s
  {
    var p :| Connects(g, p, u, v);
    ClosedContainsPath(g, s, p);
  }

  lemma {:induction false} ClosedContainsPath(g: Edges, s: set<Vertex>, p: seq<Vertex>)
    requires Closed(g, s) && IsPath(g, p) && p[0] in s
    ensures p[|p| - 1] in s
  {
    if |p| > 1 {
      assert Step(g, p[0], p[1]);
      ClosedContainsPath(g, s, p[1..]);
    }
  }

  /** Ranks grow along paths, so a ranked graph has no path from a vertex back to itself. */
  lemma {:induction false} RankGrows(g: Edges, rank: map<Vertex, nat>, u: Vertex, v: Vertex)
    requires RankedBy(g, rank) && Reaches(g, u, v) && u != v
    ensures u in rank && v in rank && rank[u] < rank[v]
  {
    var p :| Connects(g, p, u, v);
    RankGrowsPath(g, rank, p);
  }

  lemma {:induction false} RankGrowsPath(g: Edges, rank: map<Vertex, nat>, p: seq<Vertex>)
    requires RankedBy(g, rank) && IsPath(g, p) && |p| > 1
    ensures p[0] in rank && p[|p| - 1] in rank && rank[p[0]] < rank[p[|p| - 1]]
  {
    assert Step(g, p[0], p[1]);
    if |p| > 2 {
      RankGrowsPath(g, rank, p[1..]);
    }
  }
}
