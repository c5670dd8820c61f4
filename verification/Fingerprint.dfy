/**
 The key a cached measurement is stored under (`crate_fingerprint` in
 scripts/lean_gap_inventory.py): the toolchain, then the sources of every workspace
 crate the measured one depends on, in the order a seen-set search meets them. The
 digest is modelled by the sequence of `update` calls it is fed.
 */
module Fingerprint {
  import opened Base
  import opened Graphs
  import CrateDag

  datatype SourceFile = SourceFile(path: string, bytes: seq<bv8>)

  /** What the walk reads of one crate: its sorted `src/` files, its manifest when there
      is one, and its dependency names. */
  datatype Crate = Crate(files: seq<SourceFile>, manifest: Option<seq<bv8>>, deps: seq<string>)

  type Crates = map<string, Crate>

  datatype Update = Identity(toolchain: string) | Path(path: string) | Bytes(bytes: seq<bv8>)

  ghost function Edges(crates: Crates): Graph<string> {
    map n | n in crates :: set d | d in crates[n].deps && d in crates
  }

  function FileUpdates(files: seq<SourceFile>): seq<Update> {
    if files == [] then []
    else [Path(files[0].path), Bytes(files[0].bytes)] + FileUpdates(files[1..])
  }

  function CrateUpdates(c: Crate): seq<Update> {
    FileUpdates(c.files) + if c.manifest.Some? then [Bytes(c.manifest.value)] else []
  }

  function AllUpdates(crates: Crates, visited: seq<string>): seq<Update>
    requires forall n :: n in visited ==> n in crates
  {
    if visited == [] then [] else CrateUpdates(crates[visited[0]]) + AllUpdates(crates, visited[1..])
  }

  /** The crates first met from `todo`, in order, when those in `seen` are skipped. */
  function Preorder(crates: Crates, todo: seq<string>, seen: set<string>): (r: seq<string>)
    ensures forall n :: n in r ==> n in crates && n !in seen
    decreases crates.Keys - seen, |todo|
  {
    if todo == [] then []
    else if todo[0] in seen || todo[0] !in crates then Preorder(crates, todo[1..], seen)
    else [todo[0]] + Preorder(crates, crates[todo[0]].deps + todo[1..], seen + {todo[0]})
  }

  lemma {:induction false} PreorderDistinct(crates: Crates, todo: seq<string>, seen: set<string>)
    ensures Distinct(Preorder(crates, todo, seen))
    decreases crates.Keys - seen, |todo|
  {
    if todo != [] {
      if todo[0] in seen || todo[0] !in crates {
        PreorderDistinct(crates, todo[1..], seen);
      } else {
        PreorderDistinct(crates, crates[todo[0]].deps + todo[1..], seen + {todo[0]});
      }
    }
  }

  /** The search takes a worklist piece by piece. */
  lemma {:induction false} PreorderSplit(crates: Crates, a: seq<string>, b: seq<string>, seen: set<string>)
    ensures Preorder(crates, a + b, seen) ==
            Preorder(crates, a, seen) + Preorder(crates, b, seen + Elements(Preorder(crates, a, seen)))
    decreases crates.Keys - seen, |a|
  {
    if a == [] {
      assert a + b == b;
      assert seen + Elements<string>([]) == seen;
    } else if a[0] in seen || a[0] !in crates {
      assert (a + b)[1..] == a[1..] + b;
      PreorderSplit(crates, a[1..], b, seen);
    } else {
      var deeper := crates[a[0]].deps + a[1..];
      assert crates[a[0]].deps + (a + b)[1..] == deeper + b;
      PreorderSplit(crates, deeper, b, seen + {a[0]});
      var first := Preorder(crates, deeper, seen + {a[0]});
      assert Preorder(crates, a, seen) == [a[0]] + first;
      assert seen + {a[0]} + Elements(first) == seen + Elements([a[0]] + first);
    }
  }

  /** What was met is closed: its dependencies were met too, or skipped on purpose. */
  lemma {:induction false} PreorderClosed(crates: Crates, todo: seq<string>, seen: set<string>)
    ensures forall n :: n in todo && n in crates ==> n in seen || n in Preorder(crates, todo, seen)
    ensures forall n, d :: n in Preorder(crates, todo, seen) && d in crates[n].deps && d in crates
                           ==> d in seen || d in Preorder(crates, todo, seen)
    decreases crates.Keys - seen, |todo|
  {
    if todo != [] {
      if todo[0] in seen || todo[0] !in crates {
        PreorderClosed(crates, todo[1..], seen);
      } else {
        PreorderClosed(crates, crates[todo[0]].deps + todo[1..], seen + {todo[0]});
      }
    }
  }

  /** Everything met is reachable from somewhere on the worklist. */
  lemma {:induction false} PreorderSound(crates: Crates, root: string, todo: seq<string>, seen: set<string>)
    requires forall n :: n in todo && n in crates ==> Reaches(Edges(crates), root, n)
    ensures forall n :: n in Preorder(crates, todo, seen) ==> Reaches(Edges(crates), root, n)
    decreases crates.Keys - seen, |todo|
  {
    if todo != [] {
      var n := todo[0];
      if n in seen || n !in crates {
        PreorderSound(crates, root, todo[1..], seen);
      } else {
        forall d | d in crates[n].deps && d in crates
          ensures Reaches(Edges(crates), root, d)
        {
          ReachesEdge(Edges(crates), n, d);
          ReachesTrans(Edges(crates), root, n, d);
        }
        PreorderSound(crates, root, crates[n].deps + todo[1..], seen + {n});
      }
    }
  }

  /** The walk feeds exactly the crates reachable from `name`, each once. */
  lemma FeedsExactlyReachable(crates: Crates, name: string)
    ensures Distinct(Preorder(crates, [name], {}))
    ensures forall n :: n in Preorder(crates, [name], {}) <==>
                        name in crates && n in crates && Reaches(Edges(crates), name, n)
  {
    var met := Preorder(crates, [name], {});
    PreorderDistinct(crates, [name], {});
    PreorderClosed(crates, [name], {});
    ReachesRefl(Edges(crates), name);
    PreorderSound(crates, name, [name], {});
    forall n | name in crates && n in crates && Reaches(Edges(crates), name, n)
      ensures n in met
    {
      var p :| IsWalk(Edges(crates), p) && p[0] == name && p[|p| - 1] == n;
      WalkStaysInside(Edges(crates), p, Elements(met));
    }
    assert [name][1..] == [];
  }

  /** `edited` differs from `crates` only outside the crates `name` reaches. */
  ghost predicate EditedElsewhere(crates: Crates, edited: Crates, name: string) {
    && (name in crates <==> name in edited)
    && forall n :: n in crates && name in crates && Reaches(Edges(crates), name, n) ==>
         && n in edited && edited[n] == crates[n]
         && forall d :: d in crates[n].deps ==> (d in crates <==> d in edited)
  }

  lemma {:induction false} PreorderLocal(crates: Crates, edited: Crates, name: string, todo: seq<string>,
        seen: set<string>)
    requires EditedElsewhere(crates, edited, name) && name in crates
    requires forall n :: n in todo ==> (n in crates <==> n in edited)
    requires forall n :: n in todo && n in crates ==> Reaches(Edges(crates), name, n)
    ensures Preorder(crates, todo, seen) == Preorder(edited, todo, seen)
    decreases crates.Keys - seen, |todo|
  {
    if todo != [] {
      var n := todo[0];
      if n in seen || n !in crates {
        PreorderLocal(crates, edited, name, todo[1..], seen);
      } else {
        forall d | d in crates[n].deps && d in crates
          ensures Reaches(Edges(crates), name, d)
        {
          ReachesEdge(Edges(crates), n, d);
          ReachesTrans(Edges(crates), name, n, d);
        }
        PreorderLocal(crates, edited, name, crates[n].deps + todo[1..], seen + {n});
      }
    }
  }

  lemma {:induction false} UpdatesLocal(crates: Crates, edited: Crates, visited: seq<string>)
    requires forall n :: n in visited ==> n in crates && n in edited && crates[n] == edited[n]
    ensures AllUpdates(crates, visited) == AllUpdates(edited, visited)
  {
    if visited != [] {
      UpdatesLocal(crates, edited, visited[1..]);
    }
  }

  function Fingerprint(name: string, crates: Crates, toolchain: string): seq<Update> {
    [Identity(toolchain)] + AllUpdates(crates, Preorder(crates, [name], {}))
  }

  /** An edit outside what the crate reaches leaves its fingerprint as it was. */
  lemma UnchangedByOtherEdits(crates: Crates, edited: Crates, name: string, toolchain: string)
    requires EditedElsewhere(crates, edited, name)
    ensures Fingerprint(name, edited, toolchain) == Fingerprint(name, crates, toolchain)
  {
    assert [name][1..] == [];
    if name in crates {
      ReachesRefl(Edges(crates), name);
      PreorderLocal(crates, edited, name, [name], {});
      FeedsExactlyReachable(crates, name);
      UpdatesLocal(crates, edited, Preorder(crates, [name], {}));
    } else {
      assert Preorder(crates, [name], {}) == Preorder(edited, [name], {}) == [];
    }
  }

  ghost function DepsOf(crates: Crates): CrateDag.Crates { map n | n in crates :: crates[n].deps }

  /** In a dependency order of the workspace, every crate hashed for `name` is listed at
      or before it. */
  lemma HashedAtOrBefore(crates: Crates, order: seq<string>, name: string, hashed: string)
    requires Distinct(order) && Topological(CrateDag.Workspace(DepsOf(crates)), order) && name in order
    requires hashed in Preorder(crates, [name], {})
    ensures exists i, j :: 0 <= i <= j < |order| && order[i] == hashed && order[j] == name
  {
    var g := CrateDag.Workspace(DepsOf(crates));
    assert g == Edges(crates) by {
      forall n | n in crates ensures g[n] == Edges(crates)[n] {
        assert forall d :: d in g[n] <==> d in Edges(crates)[n];
      }
    }
    FeedsExactlyReachable(crates, name);
    CrateDag.ReachedBefore(DepsOf(crates), order, name, hashed);
  }

  // ---------------------------------------------------------------- the walk itself

  class Hasher {
    const crates: Crates
    var seen: set<string>
    var fed: seq<Update>

    constructor (c: Crates, toolchain: string)
      ensures crates == c && seen == {} && fed == [Identity(toolchain)]
    {
      crates, seen, fed := c, {}, [Identity(toolchain)];
    }

    method Feed(c: Crate)
      modifies this`fed
      ensures fed == old(fed) + CrateUpdates(c)
    {
      ghost var start := fed;
      for i := 0 to |c.files|
        invariant fed + FileUpdates(c.files[i..]) == start + FileUpdates(c.files)
      {
        fed := fed + [Path(c.files[i].path), Bytes(c.files[i].bytes)];
      }
      assert FileUpdates(c.files[|c.files|..]) == [];
      assert fed == start + FileUpdates(c.files);
      if c.manifest.Some? {
        fed := fed + [Bytes(c.manifest.value)];
      }
    }

    method Add(n: string)
      modifies this
      ensures seen == old(seen) + Elements(Preorder(crates, [n], old(seen)))
      ensures fed == old(fed) + AllUpdates(crates, Preorder(crates, [n], old(seen)))
      decreases crates.Keys - seen, 0
    {
      if n in seen || n !in crates {
        PreorderSkip(crates, n, seen);
        return;
      }
      PreorderRoot(crates, n, seen);
      seen := seen + {n};
      Feed(crates[n]);
      AddAll(crates[n].deps);
    }

    /** Adds each dependency in turn. */
    method AddAll(deps: seq<string>)
      modifies this
      ensures seen == old(seen) + Elements(Preorder(crates, deps, old(seen)))
      ensures fed == old(fed) + AllUpdates(crates, Preorder(crates, deps, old(seen)))
      decreases crates.Keys - seen, 2
    {
      ghost var before, start := seen, fed;
      for i := 0 to |deps|
        invariant Walked(before, start, Preorder(crates, deps[..i], before))
      {
        AddNext(deps, i, before, start);
      }
      assert deps[..|deps|] == deps;
    }

    method AddNext(deps: seq<string>, i: nat, ghost before: set<string>, ghost start: seq<Update>)
      requires i < |deps| && Walked(before, start, Preorder(crates, deps[..i], before))
      modifies this
      ensures Walked(before, start, Preorder(crates, deps[..i + 1], before))
      decreases crates.Keys - seen, 1
    {
      ghost var seenBefore, fedBefore := seen, fed;
      Add(deps[i]);
      WalkedNext(crates, deps, i, before, start, seenBefore, fedBefore);
    }

    /** The walk so far: what it has met is seen and hashed, after what was there before. */
    ghost predicate Walked(before: set<string>, start: seq<Update>, met: seq<string>)
      reads this
    {
      (forall n :: n in met ==> n in crates) && seen == before + Elements(met) && fed == start + AllUpdates(crates, met)
    }
  }

  lemma PreorderSkip(crates: Crates, n: string, seen: set<string>)
    requires n in seen || n !in crates
    ensures Preorder(crates, [n], seen) == []
  {
    assert [n][1..] == [];
  }

  lemma PreorderRoot(crates: Crates, n: string, seen: set<string>)
    requires n in crates && n !in seen
    ensures Preorder(crates, [n], seen) == [n] + Preorder(crates, crates[n].deps, seen + {n})
    ensures Elements(Preorder(crates, [n], seen)) == {n} + Elements(Preorder(crates, crates[n].deps, seen + {n}))
    ensures AllUpdates(crates, Preorder(crates, [n], seen)) ==
            CrateUpdates(crates[n]) + AllUpdates(crates, Preorder(crates, crates[n].deps, seen + {n}))
  {
    assert [n][1..] == [] && crates[n].deps + [] == crates[n].deps;
    var rest := Preorder(crates, crates[n].deps, seen + {n});
    assert ([n] + rest)[1..] == rest;
  }

  /** What one more dependency adds to the walk. */
  lemma PreorderNext(crates: Crates, deps: seq<string>, i: nat, seen: set<string>)
    requires i < |deps|
    ensures var done := Preorder(crates, deps[..i], seen);
            var more := Preorder(crates, [deps[i]], seen + Elements(done));
            var both := Preorder(crates, deps[..i + 1], seen);
            && Elements(both) == Elements(done) + Elements(more)
            && AllUpdates(crates, both) == AllUpdates(crates, done) + AllUpdates(crates, more)
  {
    assert deps[..i + 1] == deps[..i] + [deps[i]];
    PreorderSplit(crates, deps[..i], [deps[i]], seen);
    var done := Preorder(crates, deps[..i], seen);
    UpdatesAppend(crates, done, Preorder(crates, [deps[i]], seen + Elements(done)));
  }

  lemma WalkedNext(crates: Crates, deps: seq<string>, i: nat, before: set<string>, start: seq<Update>,
                   seen: set<string>, fed: seq<Update>)
    requires i < |deps| && seen == before + Elements(Preorder(crates, deps[..i], before))
    requires fed == start + AllUpdates(crates, Preorder(crates, deps[..i], before))
    ensures var more := Preorder(crates, [deps[i]], seen);
            var both := Preorder(crates, deps[..i + 1], before);
            seen + Elements(more) == before + Elements(both) &&
            fed + AllUpdates(crates, more) == start + AllUpdates(crates, both)
  {
    PreorderNext(crates, deps, i, before);
    var done, more := Preorder(crates, deps[..i], before), Preorder(crates, [deps[i]], seen);
    JoinUp(before, Elements(done), Elements(more), start, AllUpdates(crates, done), AllUpdates(crates, more));
  }

  lemma JoinUp(before: set<string>, a: set<string>, b: set<string>, start: seq<Update>, u: seq<Update>, v: seq<Update>)
    ensures before + a + b == before + (a + b) && start + u + v == start + (u + v)
  {
  }

  lemma {:induction false} UpdatesAppend(crates: Crates, a: seq<string>, b: seq<string>)
    requires forall n :: n in a + b ==> n in crates
    ensures (forall n :: n in a ==> n in crates) && (forall n :: n in b ==> n in crates)
    ensures AllUpdates(crates, a + b) == AllUpdates(crates, a) + AllUpdates(crates, b)
  {
    forall n | n in a ensures n in crates { assert n in a + b; }
    forall n | n in b ensures n in crates { assert n in a + b; }
    if a == [] {
      assert a + b == b;
    } else {
      assert (a + b)[1..] == a[1..] + b;
      UpdatesAppend(crates, a[1..], b);
    }
  }

  method CrateFingerprint(name: string, crates: Crates, toolchain: string) returns (h: seq<Update>)
    ensures h == Fingerprint(name, crates, toolchain)
  {
    var hasher := new Hasher(crates, toolchain);
    hasher.Add(name);
    h := hasher.fed;
  }
}
