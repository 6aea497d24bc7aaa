/** Paths in a finite directed graph, and the strongly connected sets they define. */
module Reachability {

  type Graph = map<string, set<string>>

  /** The successors of a node; a node that is only ever a target has none. */
  function Targets(g: Graph, node: string): set<string> {
    if node in g then g[node] else {}
  }

  function Nodes(g: Graph): set<string> {
    g.Keys + set n, t | n in g && t in g[n] :: t
  }

  ghost predicate IsPath(g: Graph, p: seq<string>) {
    |p| > 0 && forall i :: 0 <= i < |p| - 1 ==> p[i + 1] in Targets(g, p[i])
  }

  ghost predicate PathFromTo(g: Graph, p: seq<string>, a: string, b: string) {
    IsPath(g, p) && p[0] == a && p[|p| - 1] == b
  }

  ghost predicate Reach(g: Graph, a: string, b: string) {
    exists p :: PathFromTo(g, p, a, b)
  }

  /** A maximal, non-empty set of pairwise mutually reachable nodes. */
  ghost predicate IsScc(g: Graph, c: set<string>) {
    && c != {} && c <= Nodes(g)
    && (forall a, b :: a in c && b in c ==> Reach(g, a, b))
    && (forall a, b :: a in c && Reach(g, a, b) && Reach(g, b, a) ==> b in c)
  }

  lemma ReachSelf(g: Graph, a: string)
    ensures Reach(g, a, a)
  {
    assert PathFromTo(g, [a], a, a);
  }

  lemma ReachEdge(g: Graph, a: string, b: string)
    requires b in Targets(g, a)
    ensures Reach(g, a, b)
  {
    assert PathFromTo(g, [a, b], a, b);
  }

  lemma ReachTrans(g: Graph, a: string, b: string, c: string)
    requires Reach(g, a, b) && Reach(g, b, c)
    ensures Reach(g, a, c)
  {
    var p :| PathFromTo(g, p, a, b);
    var q :| PathFromTo(g, q, b, c);
    var r := p + q[1..];
    forall i | 0 <= i < |r| - 1
      ensures r[i + 1] in Targets(g, r[i])
    {
      if i >= |p| - 1 {
        assert r[i] == q[i - (|p| - 1)] && r[i + 1] == q[i - (|p| - 1) + 1];
      }
    }
    assert PathFromTo(g, r, a, c);
  }

  /** What is reachable from inside a set closed under edges stays inside it. */
  lemma {:induction false} ClosedPath(g: Graph, s: set<string>, p: seq<string>)
    requires forall u :: u in s ==> Targets(g, u) <= s
    requires IsPath(g, p) && p[0] in s
    ensures p[|p| - 1] in s
    decreases |p|
  {
    if |p| > 1 {
      var q := p[1..];
      forall i | 0 <= i < |q| - 1
        ensures q[i + 1] in Targets(g, q[i])
      {
        assert p[i + 2] in Targets(g, p[i + 1]);
      }
      assert p[0 + 1] in Targets(g, p[0]);
      ClosedPath(g, s, q);
    }
  }

  lemma ClosedReach(g: Graph, s: set<string>, a: string, b: string)
    requires forall u :: u in s ==> Targets(g, u) <= s
    requires a in s && Reach(g, a, b)
    ensures b in s
  {
    var p :| PathFromTo(g, p, a, b);
    ClosedPath(g, s, p);
  }

  /** Two strongly connected components that meet are the same set. */
  lemma SccsMeetingAreEqual(g: Graph, c: set<string>, d: set<string>, x: string)
    requires IsScc(g, c) && IsScc(g, d) && x in c && x in d
    ensures c == d
  {
  }
}
