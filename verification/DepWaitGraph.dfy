/**
 The waits-for graph of committed transactions (ferrosa-cluster/src/accord/dep_wait.rs):
 forward and reverse edges, cycle detection by depth-first search on every new edge,
 and the wake-up computed when a transaction is applied.
 */
module DepWaitGraph {
  import opened Base
  import opened Graphs

  type Txn = nat

  /** The graph as a value: `waiting_on`, `waited_by` and `applied`. */
  datatype Board = Board(waits: Graph<Txn>, rev: Graph<Txn>, applied: set<Txn>)

  function AddEdge(g: Graph<Txn>, a: Txn, b: Txn): Graph<Txn> {
    g[a := (if a in g then g[a] else {}) + {b}]
  }

  function DropEdge(g: Graph<Txn>, a: Txn, b: Txn): Graph<Txn> {
    if a !in g then g else if g[a] - {b} == {} then g - {a} else g[a := g[a] - {b}]
  }

  function WokenBy(b: Board, t: Txn): set<Txn> {
    set w | w in b.waits && b.waits[w] == {t}
  }

  function Marked(b: Board, t: Txn): Board {
    Board(map w | w in b.waits && w != t && b.waits[w] - {t} != {} :: b.waits[w] - {t},
          b.rev - {t}, b.applied + {t})
  }

  function Cleared(b: Board, w: Txn): Board {
    var mine := if w in b.waits then b.waits[w] else {};
    Board(b.waits - {w},
          map d | d in b.rev && (d in mine ==> b.rev[d] - {w} != {}) :: if d in mine then b.rev[d] - {w} else b.rev[d],
          b.applied)
  }

  function WaitAdded(b: Board, w: Txn, d: Txn): Board {
    Board(AddEdge(b.waits, w, d), AddEdge(b.rev, d, w), b.applied)
  }

  function EdgeWaived(b: Board, w: Txn, d: Txn): Board {
    if w in b.waits && d in b.waits[w]
    then Board(DropEdge(b.waits, w, d), DropEdge(b.rev, d, w), b.applied)
    else b
  }

  /** Forward edges are non-empty, mirrored, lead to no applied transaction and close no
      cycle. Reverse edges may be stale: applying a waiter does not withdraw its own. */
  ghost predicate WellFormed(b: Board) {
    && (forall w :: w in b.waits ==> b.waits[w] != {})
    && (forall w, d :: w in b.waits && d in b.waits[w] ==> d in b.rev && w in b.rev[d] && d !in b.applied)
    && !Cyclic(b.waits)
  }

  // ---------------------------------------------------------------- cycles

  lemma SupergraphCyclic(g: Graph<Txn>, h: Graph<Txn>)
    requires Cyclic(g) && forall v :: Succ(g, v) <= Succ(h, v)
    ensures Cyclic(h)
  {
    var p :| IsCycle(g, p);
    assert IsCycle(h, p);
  }

  /** A cycle can be entered at any of its vertices. */
  lemma RotateCycle(g: Graph<Txn>, p: seq<Txn>, k: nat)
    requires IsCycle(g, p) && k < |p| - 1
    ensures IsCycle(g, p[k..] + p[1..k + 1]) && (p[k..] + p[1..k + 1])[0] == p[k]
  {
    WalkSuffix(g, p, k);
    assert IsWalk(g, p[..k + 1]);
    WalkJoin(g, p[k..], p[..k + 1]);
    assert p[..k + 1][1..] == p[1..k + 1];
  }

  lemma CycleAvoidingSource(g: Graph<Txn>, w: Txn, d: Txn, p: seq<Txn>)
    requires IsCycle(AddEdge(g, w, d), p) && forall i :: 0 <= i < |p| - 1 ==> p[i] != w
    ensures IsCycle(g, p)
  {
  }

  /** The only cycles a new edge can create pass through its source. */
  lemma NewCycleThroughSource(g: Graph<Txn>, w: Txn, d: Txn, p: seq<Txn>) returns (q: seq<Txn>)
    requires !Cyclic(g) && IsCycle(AddEdge(g, w, d), p)
    ensures IsCycle(AddEdge(g, w, d), q) && q[0] == w
  {
    if forall i :: 0 <= i < |p| - 1 ==> p[i] != w {
      q := p;
      CycleAvoidingSource(g, w, d, p);
      assert false;
    } else {
      var k :| 0 <= k < |p| - 1 && p[k] == w;
      RotateCycle(AddEdge(g, w, d), p, k);
      q := p[k..] + p[1..k + 1];
    }
  }

  /** One depth-first visit. `order` is the finishing order of the vertices already
      explored; every visited vertex is explored or on the current path. */
  method DfsCycle(g: Graph<Txn>, node: Txn, seen: set<Txn>, path: seq<Txn>, ghost order: seq<Txn>, ghost all: set<Txn>)
    returns (cycle: Option<seq<Txn>>, visited: set<Txn>, ghost finished: seq<Txn>)
    requires node in all && seen <= all && forall v :: v in all ==> Succ(g, v) <= all
    requires IsWalk(g, path + [node]) && Distinct(path)
    requires seen == Elements(path) + Elements(order) && Elements(path) !! Elements(order)
    requires Topological(g, order) && Distinct(order)
    ensures cycle.Some? ==> cycle.value != [] && IsCycle(g, cycle.value + [cycle.value[0]])
    ensures cycle.None? ==> && Topological(g, finished) && Distinct(finished) && node in finished
                            && Elements(order) <= Elements(finished) && seen <= visited <= all
                            && visited == Elements(path) + Elements(finished)
                            && Elements(path) !! Elements(finished)
    decreases all - seen
  {
    if node in path {
      var k :| 0 <= k < |path| && path[k] == node;
      WalkSuffix(g, path + [node], k);
      assert (path + [node])[k..] == path[k..] + [path[k]];
      return Some(path[k..]), seen, order;
    }
    if node in seen {
      return None, seen, order;
    }
    visited, finished := seen + {node}, order;
    var todo := if node in g then g[node] else {};
    ghost var deps := todo;
    while todo != {}
      invariant todo <= deps == Succ(g, node)
      invariant Topological(g, finished) && Distinct(finished)
      invariant Elements(order) <= Elements(finished) && seen + {node} <= visited <= all
      invariant visited == Elements(path + [node]) + Elements(finished)
      invariant Elements(path + [node]) !! Elements(finished)
      invariant deps - todo <= Elements(finished)
    {
      var d :| d in todo;
      WalkSnoc(g, path + [node], d);
      cycle, visited, finished := DfsCycle(g, d, visited, path + [node], finished, all);
      if cycle.Some? {
        return;
      }
      todo := todo - {d};
    }
    Appended(g, finished, node);
    assert Elements(finished + [node]) == Elements(finished) + {node};
    assert Elements(path + [node]) == Elements(path) + {node};
    finished := finished + [node];
    cycle := None;
  }

  /** Searching from `w` finds a cycle exactly when the edge `w -> d` closed one. */
  method ClosesCycle(g: Graph<Txn>, w: Txn, d: Txn) returns (cycle: Option<seq<Txn>>)
    requires !Cyclic(g)
    ensures cycle.Some? <==> Cyclic(AddEdge(g, w, d))
    ensures cycle.Some? ==> cycle.value != [] && IsCycle(AddEdge(g, w, d), cycle.value + [cycle.value[0]])
  {
    var h := AddEdge(g, w, d);
    ghost var all := h.Keys + set v, s | v in h && s in h[v] :: s;
    assert IsWalk(h, [] + [w]);
    var visited; ghost var finished;
    cycle, visited, finished := DfsCycle(h, w, {}, [], [], all);
    if cycle.None? && Cyclic(h) {
      ghost var p :| IsCycle(h, p);
      ghost var q := NewCycleThroughSource(g, w, d, p);
      TopologicalNoCycle(h, finished, q);
    }
    if cycle.Some? {
      assert IsCycle(h, cycle.value + [cycle.value[0]]);
    }
  }

  // ---------------------------------------------------------------- what each operation keeps

  lemma MarkedKeeps(b: Board, t: Txn)
    requires WellFormed(b)
    ensures WellFormed(Marked(b, t)) && t !in WokenBy(b, t)
    ensures forall w :: w in WokenBy(b, t) ==> w !in Marked(b, t).waits
  {
    if Cyclic(Marked(b, t).waits) {
      SupergraphCyclic(Marked(b, t).waits, b.waits);
    }
    if t in WokenBy(b, t) {
      SelfLoopCyclic(b.waits, t);
    }
  }

  lemma SelfLoopCyclic(g: Graph<Txn>, t: Txn)
    requires t in Succ(g, t)
    ensures Cyclic(g)
  {
    assert IsCycle(g, [t, t]);
  }

  lemma ClearedKeeps(b: Board, w: Txn)
    requires WellFormed(b)
    ensures WellFormed(Cleared(b, w))
  {
    if Cyclic(Cleared(b, w).waits) {
      SupergraphCyclic(Cleared(b, w).waits, b.waits);
    }
  }

  lemma WaivedKeeps(b: Board, w: Txn, d: Txn)
    requires WellFormed(b)
    ensures WellFormed(EdgeWaived(b, w, d))
  {
    var after := EdgeWaived(b, w, d);
    forall v, e | v in after.waits && e in after.waits[v]
      ensures e in after.rev && v in after.rev[e] && e !in after.applied
    {
      assert v in b.waits && e in b.waits[v];
      if w in b.waits && d in b.waits[w] && e == d {
        assert v != w && v in b.rev[d] - {w};
      }
    }
    if Cyclic(EdgeWaived(b, w, d).waits) {
      SupergraphCyclic(EdgeWaived(b, w, d).waits, b.waits);
    }
  }

  lemma AddedKeeps(b: Board, w: Txn, d: Txn)
    requires WellFormed(b) && d !in b.applied && !Cyclic(AddEdge(b.waits, w, d))
    ensures WellFormed(WaitAdded(b, w, d))
  {
  }

  /** Some waiter waits for a transaction that is neither applied nor itself waiting:
      the waiters never hold each other up. */
  lemma SomebodyOutsideBlocks(b: Board)
    requires WellFormed(b) && b.waits != map[]
    ensures exists w, d :: w in b.waits && d in b.waits[w] && d !in b.waits && d !in b.applied
  {
    var v :| v in b.waits;
    var q := WalkLeaves(b.waits, [v]);
    var w, d := q[|q| - 2], q[|q| - 1];
    assert d in Succ(b.waits, w);
    assert w in b.waits && d in b.waits[w] && d !in b.waits && d !in b.applied;
  }

  lemma StaleDropped(b: Board, w: Txn, d: Txn)
    requires WellFormed(b) && !(w in b.waits && d in b.waits[w])
    ensures WellFormed(b.(rev := DropEdge(b.rev, d, w)))
  {
    var rev := DropEdge(b.rev, d, w);
    forall v, e | v in b.waits && e in b.waits[v]
      ensures e in rev && v in rev[e]
    {
      if e == d {
        assert v in b.rev[d] - {w};
      }
    }
  }

  lemma AddPresent(g: Graph<Txn>, a: Txn, b: Txn)
    requires a in g && b in g[a]
    ensures AddEdge(g, a, b) == g
  {
    assert g[a] + {b} == g[a];
  }

  lemma DropAdded(g: Graph<Txn>, a: Txn, b: Txn)
    ensures DropEdge(AddEdge(g, a, b), a, b) == DropEdge(g, a, b)
  {
    if a in g {
      assert g[a] + {b} - {b} == g[a] - {b};
    }
  }

  // ---------------------------------------------------------------- the graph in place

  class WaitGraph {
    var waitingOn: Graph<Txn>
    var waitedBy: Graph<Txn>
    var applied: set<Txn>

    ghost function Value(): Board reads this { Board(waitingOn, waitedBy, applied) }

    constructor ()
      ensures Value() == Board(map[], map[], {}) && WellFormed(Value())
    {
      waitingOn, waitedBy, applied := map[], map[], {};
      new;
      EmptyAcyclic();
    }

    /** Adds the wait unless the dependency is applied already or the edge would close a
        cycle; a refused edge is taken back, with any stale reverse edge it met. */
    method RegisterWait(w: Txn, d: Txn) returns (cycle: Option<seq<Txn>>)
      requires WellFormed(Value())
      modifies this`waitingOn, this`waitedBy
      ensures WellFormed(Value())
      ensures cycle.Some? <==> d !in applied && Cyclic(AddEdge(old(waitingOn), w, d))
      ensures cycle.Some? ==>
                cycle.value != [] && IsCycle(AddEdge(old(waitingOn), w, d), cycle.value + [cycle.value[0]])
      ensures d in applied ==> Value() == old(Value())
      ensures d !in applied && cycle.None? ==> Value() == WaitAdded(old(Value()), w, d)
      ensures cycle.Some? ==> Value() == old(Value()).(rev := DropEdge(old(waitedBy), d, w))
    {
      if d in applied {
        return None;
      }
      if w in waitingOn && d in waitingOn[w] {
        AddPresent(waitingOn, w, d);
      }
      cycle := ClosesCycle(waitingOn, w, d);
      if cycle.None? {
        AddedKeeps(Value(), w, d);
      }
      ghost var before := waitingOn;
      waitingOn := AddEdge(waitingOn, w, d);
      waitedBy := AddEdge(waitedBy, d, w);
      if cycle.Some? {
        waitingOn := DropEdge(waitingOn, w, d);
        DropAdded(before, w, d);
        DropAdded(waitedBy, d, w);
        DropAdded(old(waitedBy), d, w);
        waitedBy := DropEdge(waitedBy, d, w);
        assert w in before ==> before[w] - {d} == before[w];
        assert waitingOn == before;
        StaleDropped(old(Value()), w, d);
      }
    }

    /** Marks `t` applied and returns, in some order, exactly the waiters left with
        nothing to wait for. */
    method MarkApplied(t: Txn) returns (woken: seq<Txn>)
      requires WellFormed(Value())
      modifies this
      ensures Value() == Marked(old(Value()), t) && WellFormed(Value())
      ensures Elements(woken) == WokenBy(old(Value()), t) && Distinct(woken)
    {
      MarkedKeeps(Value(), t);
      var waiters := if t in waitedBy then waitedBy[t] else {};
      var left;
      left, woken := StripWaiters(waitingOn, waiters, t);
      StrippedIsMarked(Value(), t, left, woken);
      applied := applied + {t};
      waitedBy := waitedBy - {t};
      waitingOn := left - (set w | w in woken) - {t};
    }

    method ClearWaits(w: Txn)
      requires WellFormed(Value())
      modifies this`waitingOn, this`waitedBy
      ensures Value() == Cleared(old(Value()), w) && WellFormed(Value())
    {
      ClearedKeeps(Value(), w);
      if w in waitingOn {
        var deps := waitingOn[w];
        waitingOn := waitingOn - {w};
        var before := waitedBy;
        var todo := deps;
        while todo != {}
          invariant todo <= deps && waitingOn == old(waitingOn) - {w}
          invariant waitedBy == map d | d in before && (d in deps - todo ==> before[d] - {w} != {}) ::
                                  if d in deps - todo then before[d] - {w} else before[d]
        {
          var d :| d in todo;
          waitedBy := DropEdge(waitedBy, d, w);
          todo := todo - {d};
        }
        assert deps - todo == deps;
        assert waitedBy == Cleared(old(Value()), w).rev;
      }
    }

    method Waive(w: Txn, d: Txn) returns (unblocked: bool)
      requires WellFormed(Value())
      modifies this`waitingOn, this`waitedBy
      ensures Value() == EdgeWaived(old(Value()), w, d) && WellFormed(Value())
      ensures unblocked <==> w in old(waitingOn) && old(waitingOn)[w] == {d}
    {
      WaivedKeeps(Value(), w, d);
      if w !in waitingOn || d !in waitingOn[w] {
        return false;
      }
      waitedBy := DropEdge(waitedBy, d, w);
      unblocked := waitingOn[w] - {d} == {};
      waitingOn := DropEdge(waitingOn, w, d);
    }

    method Forget(ts: set<Txn>)
      requires WellFormed(Value())
      modifies this`applied
      ensures applied == old(applied) - ts && WellFormed(Value())
    {
      applied := applied - ts;
    }
  }

  /** Takes `t` off the wait of each waiter, and lists those left with nothing. */
  method StripWaiters(waits: map<Txn, set<Txn>>, waiters: set<Txn>, t: Txn)
    returns (left: map<Txn, set<Txn>>, woken: seq<Txn>)
    ensures left.Keys == waits.Keys
    ensures forall w :: w in waits ==> left[w] == if w in waiters then waits[w] - {t} else waits[w]
    ensures Distinct(woken)
    ensures forall w :: w in woken <==> w in waits && w in waiters && waits[w] - {t} == {}
  {
    left, woken := waits, [];
    var todo := waiters;
    while todo != {}
      invariant todo <= waiters && left.Keys == waits.Keys
      invariant forall w :: w in waits ==> left[w] == if w in waiters - todo then waits[w] - {t} else waits[w]
      invariant Distinct(woken)
      invariant forall w :: w in woken <==> w in waits && w in waiters - todo && waits[w] - {t} == {}
      decreases todo
    {
      var w :| w in todo;
      if w in left {
        left := left[w := left[w] - {t}];
        if left[w] == {} {
          woken := woken + [w];
        }
      }
      todo := todo - {w};
    }
  }

  lemma StrippedIsMarked(b: Board, t: Txn, left: map<Txn, set<Txn>>, woken: seq<Txn>)
    requires WellFormed(b) && left.Keys == b.waits.Keys
    requires var waiters := if t in b.rev then b.rev[t] else {};
             && (forall w :: w in b.waits ==> left[w] == if w in waiters then b.waits[w] - {t} else b.waits[w])
             && (forall w :: w in woken <==> w in b.waits && w in waiters && b.waits[w] - {t} == {})
    ensures left - (set w | w in woken) - {t} == Marked(b, t).waits && Elements(woken) == WokenBy(b, t)
  {
    forall w | w in b.waits
      ensures w in woken <==> b.waits[w] - {t} == {}
      ensures left[w] == b.waits[w] - {t}
    {
      assert t in b.waits[w] ==> t in b.rev && w in b.rev[t];
      assert t !in b.waits[w] ==> b.waits[w] - {t} == b.waits[w];
    }
  }

  lemma EmptyAcyclic()
    ensures !Cyclic<Txn>(map[])
  {
    RankedAcyclic<Txn>(map[], v => v);
  }
}
