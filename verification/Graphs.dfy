/**
 Finite directed graphs given by successor sets: walks, cycles, and the two facts the
 depth-first searches of this project rest on. A listing in which every vertex comes
 after its successors excludes cycles, and a finite graph without cycles has a sink.
 */
module Graphs {

  type Graph<V> = map<V, set<V>>

  ghost function Succ<V>(g: Graph<V>, v: V): set<V> {
    if v in g then g[v] else {}
  }

  /** `p` follows edges of `g`; a single vertex is a walk. */
  ghost predicate IsWalk<V>(g: Graph<V>, p: seq<V>) {
    && p != []
    && forall i :: 0 <= i < |p| - 1 ==> p[i + 1] in Succ(g, p[i])
  }

  ghost predicate IsCycle<V>(g: Graph<V>, p: seq<V>) {
    |p| > 1 && IsWalk(g, p) && p[0] == p[|p| - 1]
  }

  ghost predicate Cyclic<V(!new)>(g: Graph<V>) { exists p :: IsCycle(g, p) }

  ghost predicate Reaches<V(!new)>(g: Graph<V>, a: V, b: V) {
    exists p :: IsWalk(g, p) && p[0] == a && p[|p| - 1] == b
  }

  ghost predicate Distinct<V>(s: seq<V>) {
    forall i, j :: 0 <= i < j < |s| ==> s[i] != s[j]
  }

  /** Every vertex of `order` comes after all its successors. */
  ghost predicate Topological<V>(g: Graph<V>, order: seq<V>) {
    forall i :: 0 <= i < |order| ==> Succ(g, order[i]) <= Elements(order[..i])
  }

  ghost function Elements<V>(s: seq<V>): set<V> { set v | v in s }

  /** A vertex whose successors are all listed may be listed next. */
  lemma Appended<V>(g: Graph<V>, order: seq<V>, v: V)
    requires Topological(g, order) && Distinct(order) && v !in order && Succ(g, v) <= Elements(order)
    ensures Topological(g, order + [v]) && Distinct(order + [v])
  {
    var longer := order + [v];
    forall i | 0 <= i < |longer|
      ensures Succ(g, longer[i]) <= Elements(longer[..i])
    {
      assert longer[..i] == order[..i];
    }
  }

  /** Any finite set can be listed. */
  lemma {:induction false} Listed<V>(s: set<V>) returns (order: seq<V>)
    ensures Distinct(order) && Elements(order) == s
    decreases |s|
  {
    if s == {} {
      return [];
    }
    var v :| v in s;
    var rest := Listed(s - {v});
    assert forall w :: w in rest <==> w in Elements(rest);
    order := rest + [v];
    assert Elements(order) == Elements(rest) + {v};
  }

  lemma WalkSnoc<V>(g: Graph<V>, p: seq<V>, v: V)
    requires IsWalk(g, p) && v in Succ(g, p[|p| - 1])
    ensures IsWalk(g, p + [v])
  {
  }

  lemma WalkSuffix<V>(g: Graph<V>, p: seq<V>, k: nat)
    requires IsWalk(g, p) && k < |p|
    ensures IsWalk(g, p[k..])
  {
  }

  lemma WalkJoin<V>(g: Graph<V>, p: seq<V>, q: seq<V>)
    requires IsWalk(g, p) && IsWalk(g, q) && p[|p| - 1] == q[0]
    ensures IsWalk(g, p + q[1..])
  {
    var r := p + q[1..];
    forall i | 0 <= i < |r| - 1
      ensures r[i + 1] in Succ(g, r[i])
    {
      if i >= |p| - 1 {
        assert r[i + 1] == q[i + 1 - (|p| - 1)];
        assert r[i] == q[i - (|p| - 1)];
      }
    }
  }

  lemma ReachesRefl<V(!new)>(g: Graph<V>, a: V)
    ensures Reaches(g, a, a)
  {
    assert IsWalk(g, [a]);
  }

  lemma ReachesTrans<V(!new)>(g: Graph<V>, a: V, b: V, c: V)
    requires Reaches(g, a, b) && Reaches(g, b, c)
    ensures Reaches(g, a, c)
  {
    var p :| IsWalk(g, p) && p[0] == a && p[|p| - 1] == b;
    var q :| IsWalk(g, q) && q[0] == b && q[|q| - 1] == c;
    WalkJoin(g, p, q);
    var r := p + q[1..];
    assert r[0] == a && r[|r| - 1] == c;
  }

  lemma ReachesEdge<V(!new)>(g: Graph<V>, a: V, b: V)
    requires b in Succ(g, a)
    ensures Reaches(g, a, b)
  {
    assert IsWalk(g, [a, b]);
  }

  /** A walk that starts inside a set closed under successors stays inside it. */
  lemma {:induction false} WalkStaysInside<V>(g: Graph<V>, p: seq<V>, inside: set<V>)
    requires IsWalk(g, p) && p[0] in inside
    requires forall v :: v in inside ==> Succ(g, v) <= inside
    ensures p[|p| - 1] in inside
  {
    if |p| > 1 {
      WalkSuffix(g, p, 1);
      WalkStaysInside(g, p[1..], inside);
    }
  }

  /** Along a walk, positions in a topological listing strictly go down. */
  lemma {:induction false} TopologicalDescends<V>(g: Graph<V>, order: seq<V>, p: seq<V>, at: nat)
    requires Topological(g, order) && IsWalk(g, p) && |p| > 1
    requires at < |order| && order[at] == p[0]
    ensures p[|p| - 1] in order[..at]
  {
    assert p[1] in Succ(g, p[0]);
    assert p[1] in Elements(order[..at]);
    var next :| 0 <= next < at && order[next] == p[1];
    if |p| > 2 {
      WalkSuffix(g, p, 1);
      TopologicalDescends(g, order, p[1..], next);
      assert order[..next] <= order[..at];
    }
  }

  /** A vertex listed topologically lies on no cycle and reaches none. */
  lemma TopologicalNoCycle<V>(g: Graph<V>, order: seq<V>, p: seq<V>)
    requires Topological(g, order) && Distinct(order)
    requires IsCycle(g, p)
    ensures p[0] !in order
  {
    if p[0] in order {
      var at :| 0 <= at < |order| && order[at] == p[0];
      TopologicalDescends(g, order, p, at);
      assert false;
    }
  }

  /** A listing of every vertex that has successors excludes all cycles. */
  lemma TopologicalAcyclic<V(!new)>(g: Graph<V>, order: seq<V>)
    requires Topological(g, order) && Distinct(order)
    requires forall v :: v in g && g[v] != {} ==> v in order
    ensures !Cyclic(g)
  {
    if Cyclic(g) {
      var p :| IsCycle(g, p);
      assert p[1] in Succ(g, p[0]);
      TopologicalNoCycle(g, order, p);
      assert false;
    }
  }

  /** A walk that returns to one of its own vertices closes a cycle. */
  lemma ClosedWalk<V(!new)>(g: Graph<V>, p: seq<V>, k: nat, v: V)
    requires IsWalk(g, p) && k < |p| && p[k] == v && v in Succ(g, p[|p| - 1])
    ensures IsCycle(g, p[k..] + [v]) && Cyclic(g)
  {
    WalkSuffix(g, p, k);
    WalkSnoc(g, p[k..], v);
    assert IsCycle(g, p[k..] + [v]);
  }

  lemma {:induction false} DistinctBounded<V>(p: seq<V>, within: set<V>)
    requires Distinct(p) && forall v :: v in p ==> v in within
    ensures |p| <= |within|
    decreases |p|
  {
    if p != [] {
      var rest := p[1..];
      assert forall v :: v in rest ==> v in within - {p[0]};
      DistinctBounded(rest, within - {p[0]});
    }
  }

  /** From the end of a simple walk inside `g`, following edges of an acyclic graph
      leads out of the vertices that have successors. */
  lemma {:induction false} WalkLeaves<V(!new)>(g: Graph<V>, p: seq<V>) returns (q: seq<V>)
    requires !Cyclic(g) && (forall v :: v in g ==> g[v] != {})
    requires IsWalk(g, p) && Distinct(p) && forall v :: v in p ==> v in g
    ensures IsWalk(g, q) && q[0] == p[0] && q[|q| - 1] !in g && |q| > 1
    decreases |g.Keys| - |p|
  {
    DistinctBounded(p, g.Keys);
    var v :| v in g[p[|p| - 1]];
    if v in p {
      var k :| 0 <= k < |p| && p[k] == v;
      ClosedWalk(g, p, k, v);
    }
    WalkSnoc(g, p, v);
    if v in g {
      DistinctBounded(p + [v], g.Keys);
      q := WalkLeaves(g, p + [v]);
    } else {
      q := p + [v];
    }
  }

  /** Edges that strictly lower a rank admit no cycle. */
  lemma RankedAcyclic<V(!new)>(g: Graph<V>, rank: V -> int)
    requires forall v, w :: w in Succ(g, v) ==> rank(w) < rank(v)
    ensures !Cyclic(g)
  {
    if Cyclic(g) {
      var p :| IsCycle(g, p);
      RankDescends(g, rank, p);
      assert false;
    }
  }

  lemma {:induction false} RankDescends<V(!new)>(g: Graph<V>, rank: V -> int, p: seq<V>)
    requires forall v, w :: w in Succ(g, v) ==> rank(w) < rank(v)
    requires IsWalk(g, p) && |p| > 1
    ensures rank(p[|p| - 1]) < rank(p[0])
  {
    assert p[1] in Succ(g, p[0]);
    if |p| > 2 {
      WalkSuffix(g, p, 1);
      RankDescends(g, rank, p[1..]);
    }
  }
}
