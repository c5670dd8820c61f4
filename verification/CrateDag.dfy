/**
 The dependency order of the workspace crates (`dag` in scripts/lean_gap_inventory.py):
 a recursive depth-first search that keeps the path it is on, and stops on a crate met
 twice along that path.
 */
module CrateDag {
  import opened Graphs

  /** Crate name to its path dependencies, as the manifest lists them; a dependency
      that is not a library crate of the workspace is not a key. */
  type Crates = map<string, seq<string>>

  ghost function Workspace(crates: Crates): Graph<string> {
    map n | n in crates :: set d | d in crates[n] && d in crates
  }

  /** How a walk ended: every crate listed, or stopped with the path it reports. */
  datatype Walk = Listed | Stopped(path: seq<string>)

  /** The reported path ends in a cycle of the workspace graph. */
  ghost predicate EndsInCycle(crates: Crates, path: seq<string>) {
    exists k :: 0 <= k < |path| && IsCycle(Workspace(crates), path[k..])
  }

  class DagWalk {
    const crates: Crates
    var seen: map<string, nat>
    var order: seq<string>

    ghost predicate Valid()
      reads this
    {
      && Distinct(order)
      && Topological(Workspace(crates), order)
      && (forall n :: n in order ==> n in crates)
      && (forall n :: n in order <==> n in seen && seen[n] == 2)
    }

    constructor (c: Crates)
      ensures Valid() && crates == c && order == []
    {
      crates, seen, order := c, map[], [];
    }

    method Visit(name: string, stack: seq<string>) returns (r: Walk)
      requires Valid() && name in crates
      requires IsWalk(Workspace(crates), stack + [name]) && Distinct(stack)
      requires forall n :: n in stack ==> n in crates && n !in order
      modifies this
      ensures r.Listed? ==> Valid() && old(order) <= order && name in order
      ensures r.Listed? ==> forall n :: n in stack ==> n !in order
      ensures r.Stopped? ==> EndsInCycle(crates, r.path)
      decreases |crates.Keys| - |stack|
    {
      if name in stack {
        ghost var k :| 0 <= k < |stack| && stack[k] == name;
        WalkSuffix(Workspace(crates), stack + [name], k);
        assert IsCycle(Workspace(crates), (stack + [name])[k..]);
        return Stopped(stack + [name]);
      }
      if name in seen && seen[name] == 2 {
        return Listed;
      }
      DistinctBounded(stack + [name], crates.Keys);
      seen := seen[name := 1];
      var deps := crates[name];
      for i := 0 to |deps|
        invariant Valid() && old(order) <= order
        invariant forall n :: n in stack + [name] ==> n !in order
        invariant forall j :: 0 <= j < i && deps[j] in crates ==> deps[j] in order
      {
        if deps[i] in crates {
          assert deps[i] in Succ(Workspace(crates), name);
          WalkSnoc(Workspace(crates), stack + [name], deps[i]);
          var sub := Visit(deps[i], stack + [name]);
          if sub.Stopped? {
            return sub;
          }
        }
      }
      seen := seen[name := 2];
      assert Succ(Workspace(crates), name) <= Elements(order);
      Appended(Workspace(crates), order, name);
      order := order + [name];
      return Listed;
    }
  }

  /** `dag`: `names` are the crates in the order the top-level loop takes them. It
      returns normally exactly on acyclic workspaces, and then lists every crate once,
      dependencies first; otherwise the path it reports runs into a real cycle. */
  method Dag(crates: Crates, names: seq<string>) returns (r: Walk, order: seq<string>)
    requires forall n :: n in names <==> n in crates
    ensures r.Listed? <==> !Cyclic(Workspace(crates))
    ensures r.Listed? ==> Distinct(order) && Elements(order) == crates.Keys
    ensures r.Listed? ==> Topological(Workspace(crates), order)
    ensures r.Stopped? ==> EndsInCycle(crates, r.path)
  {
    var walk := new DagWalk(crates);
    for i := 0 to |names|
      invariant walk.Valid() && walk.crates == crates && fresh(walk)
      invariant forall j :: 0 <= j < i ==> names[j] in walk.order
    {
      assert IsWalk(Workspace(crates), [] + [names[i]]);
      r := walk.Visit(names[i], []);
      if r.Stopped? {
        CycleIsCyclic(crates, r.path);
        return r, walk.order;
      }
    }
    order := walk.order;
    assert forall n :: n in crates ==> n in order;
    TopologicalAcyclic(Workspace(crates), order);
    r := Listed;
  }

  lemma CycleIsCyclic(crates: Crates, path: seq<string>)
    requires EndsInCycle(crates, path)
    ensures Cyclic(Workspace(crates))
  {
  }

  /** The listing seen from a crate: whatever it reaches is listed at or before it. */
  lemma ReachedBefore(crates: Crates, order: seq<string>, name: string, dep: string)
    requires Distinct(order) && Topological(Workspace(crates), order)
    requires name in order && Reaches(Workspace(crates), name, dep)
    ensures exists i, j :: 0 <= i <= j < |order| && order[i] == dep && order[j] == name
  {
    var p :| IsWalk(Workspace(crates), p) && p[0] == name && p[|p| - 1] == dep;
    var j :| 0 <= j < |order| && order[j] == name;
    if |p| > 1 {
      TopologicalDescends(Workspace(crates), order, p, j);
      var i :| 0 <= i < j && order[..j][i] == dep;
      assert order[i] == dep;
    } else {
      assert order[j] == dep;
    }
  }
}
