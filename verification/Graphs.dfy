/** Finite dependency graphs: a node is mapped to the nodes it depends on. */
module Graphs {
  import opened Text

  type Graph = map<string, set<string>>

  ghost predicate Closed(g: Graph) {
    forall n :: n in g ==> g[n] <= g.Keys
  }

  /** A walk follows dependencies, one at a time. */
  ghost predicate Walk(g: Graph, p: seq<string>) {
    && p != []
    && (forall i :: 0 <= i < |p| ==> p[i] in g)
    && (forall i :: 0 <= i < |p| - 1 ==> p[i + 1] in g[p[i]])
  }

  ghost predicate Cycle(g: Graph, c: seq<string>) {
    Walk(g, c) && |c| >= 2 && c[0] == c[|c| - 1]
  }

  /** Following dependencies from `n` can lead onto a cycle. */
  ghost predicate ReachesCycle(g: Graph, n: string) {
    exists p, c :: Walk(g, p) && p[0] == n && Cycle(g, c) && p[|p| - 1] == c[0]
  }

  ghost predicate Acyclic(g: Graph) {
    !exists c :: Cycle(g, c)
  }

  /** `order` lists nodes so that each comes after everything it depends on. */
  ghost predicate DepsFirst(g: Graph, order: seq<string>) {
    forall i :: 0 <= i < |order| ==> order[i] in g && g[order[i]] <= Elems(order[..i])
  }

  lemma AcyclicMeansNoneReaches(g: Graph)
    ensures Acyclic(g) <==> forall n :: n in g ==> !ReachesCycle(g, n)
  {
    if c :| Cycle(g, c) {
      assert Walk(g, [c[0]]) && [c[0]][|[c[0]]| - 1] == c[0];
      assert ReachesCycle(g, c[0]);
    }
  }

  /** Fewer dependencies never make a cycle. */
  lemma SubgraphAcyclic(g: Graph, h: Graph)
    requires Acyclic(g) && forall n :: n in h ==> n in g && h[n] <= g[n]
    ensures Acyclic(h)
  {
    if c :| Cycle(h, c) {
      assert Cycle(g, c);
    }
  }

  lemma WalkOn(g: Graph, p: seq<string>, next: string)
    requires Walk(g, p) && next in g && next in g[p[|p| - 1]]
    ensures Walk(g, p + [next]) && Elems(p + [next]) == Elems(p) + {next}
  {
  }

  // A walk that comes back to where it was has gone round a cycle.
  lemma WalkedRound(g: Graph, p: seq<string>, k: nat)
    requires Walk(g, p) && k < |p| - 1 && p[k] == p[|p| - 1]
    ensures ReachesCycle(g, p[0])
  {
    var front, c := p[..k + 1], p[k..];
    assert Walk(g, front) && Cycle(g, c) && front[|front| - 1] == c[0];
  }

  /** A walk inside a set that no node can leave ends on a cycle. */
  lemma {:induction false} TrappedWalk(g: Graph, m: set<string>, p: seq<string>)
    requires m <= g.Keys && forall x :: x in m ==> g[x] * m != {}
    requires Walk(g, p) && Elems(p) <= m
    ensures ReachesCycle(g, p[0])
    decreases m - Elems(p)
  {
    hide ReachesCycle;
    var last := p[|p| - 1];
    assert last in Elems(p);
    var next :| next in g[last] * m;
    var q := p + [next];
    WalkOn(g, p, next);
    if next in p {
      var k :| 0 <= k < |p| && p[k] == next;
      WalkedRound(g, q, k);
    } else {
      assert next in m - Elems(p) && next !in m - Elems(q);
      TrappedWalk(g, m, q);
    }
  }

  /** If every node of a set depends on a node of the set, all of them reach a cycle. */
  lemma Trapped(g: Graph, m: set<string>, n: string)
    requires m <= g.Keys && forall x :: x in m ==> g[x] * m != {}
    requires n in m
    ensures ReachesCycle(g, n)
  {
    TrappedWalk(g, m, [n]);
  }

  function Position(order: seq<string>, x: string): (i: nat)
    requires x in order
    ensures i < |order| && order[i] == x
  {
    if order[0] == x then 0 else 1 + Position(order[1..], x)
  }

  lemma {:induction false} PositionIsFirst(order: seq<string>, x: string, i: nat)
    requires i < |order| && order[i] == x
    ensures Position(order, x) <= i
  {
    if order[0] != x { PositionIsFirst(order[1..], x, i - 1); }
  }

  /** A walk through an ordered set of nodes moves strictly towards the front. */
  lemma {:induction false} WalkDescends(g: Graph, order: seq<string>, p: seq<string>)
    requires DepsFirst(g, order) && Walk(g, p) && p[0] in order
    ensures p[|p| - 1] in order
    ensures Position(order, p[|p| - 1]) + |p| - 1 <= Position(order, p[0])
  {
    if |p| > 1 {
      var i := Position(order, p[0]);
      assert p[1] in Elems(order[..i]);
      var j :| 0 <= j < i && order[j] == p[1];
      PositionIsFirst(order, p[1], j);
      var rest := p[1..];
      assert Walk(g, rest) by {
        assert forall k :: 0 <= k < |rest| - 1 ==> rest[k] == p[k + 1] && p[k + 2] in g[p[k + 1]];
      }
      WalkDescends(g, order, rest);
    }
  }

  /** Nothing that can be ordered reaches a cycle. */
  lemma OrderedReachesNoCycle(g: Graph, order: seq<string>, n: string)
    requires DepsFirst(g, order) && n in order
    ensures !ReachesCycle(g, n)
  {
    if p, c :| Walk(g, p) && p[0] == n && Cycle(g, c) && p[|p| - 1] == c[0] {
      WalkDescends(g, order, p);
      WalkDescends(g, order, c);
    }
  }
}
