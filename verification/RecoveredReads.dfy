/**
 Recovery and purge together: the merged contents of one partition over the SSTables a
 crash leaves behind. The replacement protocol (CompactionIntent) says which generations
 are live, the purge law (CompactionPurge) what a compacted generation may leave out.
 `contents` gives what each generation holds of the partition, possibly nothing, and `mem`
 what is not flushed, which the commit log restores.
 */
module RecoveredReads {
  import opened CellOrder
  import opened CompactionPurge
  import CompactionIntent

  type Gen = CompactionIntent.Gen
  type Task = CompactionIntent.Task
  type Record = CompactionIntent.Record
  type Contents = Gen -> Partition

  // ---------------------------------------------------------------- reading a set of generations

  ghost function Listing(view: set<Gen>): (r: seq<Gen>)
    ensures multiset(r) == multiset(view) && forall g :: g in r <==> g in view
  {
    if view == {} then []
    else
      var g :| g in view;
      assert multiset(view) == multiset(view - {g}) + multiset{g};
      Listing(view - {g}) + [g]
  }

  function Parts(contents: Contents, gens: seq<Gen>): seq<Partition> {
    seq(|gens|, i requires 0 <= i < |gens| => contents(gens[i]))
  }

  lemma PartsJoin(contents: Contents, a: seq<Gen>, b: seq<Gen>)
    ensures Parts(contents, a + b) == Parts(contents, a) + Parts(contents, b)
  {
  }

  lemma {:induction false} PartsAnyOrder(contents: Contents, a: seq<Gen>, b: seq<Gen>)
    requires multiset(a) == multiset(b)
    ensures multiset(Parts(contents, a)) == multiset(Parts(contents, b))
    decreases |a|
  {
    if a == [] {
      assert |multiset(b)| == 0;
      assert b == [];
    } else {
      var front, last := a[..|a| - 1], a[|a| - 1];
      assert a == front + [last];
      assert last in multiset(b);
      var i :| 0 <= i < |b| && b[i] == last;
      var x, y := b[..i], b[i + 1..];
      assert b == x + [last] + y;
      SameFront(front, x, y, last);
      PartsAnyOrder(contents, front, x + y);
      PartsJoin(contents, front, [last]);
      PartsJoin(contents, x + [last], y);
      PartsJoin(contents, x, [last]);
      PartsJoin(contents, x, y);
      assert multiset(Parts(contents, b)) ==
             multiset(Parts(contents, x)) + multiset(Parts(contents, [last])) + multiset(Parts(contents, y));
    }
  }

  lemma SameFront(front: seq<Gen>, x: seq<Gen>, y: seq<Gen>, last: Gen)
    requires multiset(front + [last]) == multiset(x + [last] + y)
    ensures multiset(front) == multiset(x + y)
  {
    assert multiset(front + [last]) - multiset{last} == multiset(front);
    assert multiset(x + [last] + y) - multiset{last} == multiset(x + y);
  }

  /** What a read of the partition shows at `ck`: the row marker, the cells of the row and
      those of the static row. */
  datatype Seen = Seen(marker: bool, cells: map<Key, Cell>, shared: map<Key, Cell>)

  function ShownCells(r: Row): map<Key, Cell> { map k | k in r.cells && Shown(r, k).Some? :: Shown(r, k).value }

  function Look(sources: seq<Partition>, ck: Clustering): Seen
    requires sources != []
  {
    Seen(Marked(Read(sources, ck)), ShownCells(Read(sources, ck)), ShownCells(ReadStatic(sources)))
  }

  lemma SameShown(a: Row, b: Row)
    ensures ShownCells(a) == ShownCells(b) <==> forall k :: Shown(a, k) == Shown(b, k)
  {
    assert forall k :: (k in ShownCells(a) <==> Shown(a, k).Some?) && (k in ShownCells(b) <==> Shown(b, k).Some?);
    if ShownCells(a) == ShownCells(b) {
      forall k ensures Shown(a, k) == Shown(b, k) {
        assert k in ShownCells(a) <==> k in ShownCells(b);
      }
    }
  }

  lemma AlikeSeen(a: Row, b: Row)
    requires Alike(a, b)
    ensures Marked(a) == Marked(b) && ShownCells(a) == ShownCells(b)
  {
  }

  lemma LookAnyOrder(xs: seq<Partition>, ys: seq<Partition>, ck: Clustering)
    requires xs != [] && multiset(xs) == multiset(ys)
    ensures ys != [] && Look(xs, ck) == Look(ys, ck)
  {
    ReadAnyOrder(xs, ys);
    var p, q := SuppressAll(MergeAll(xs)), SuppressAll(MergeAll(ys));
    SameRowAt(p, q, ck);
    AlikeSeen(RowAt(p, ck), RowAt(q, ck));
    AlikeSeen(p.shared, q.shared);
  }

  lemma SameRowAt(p: Partition, q: Partition, ck: Clustering)
    requires SamePartition(p, q)
    ensures Alike(RowAt(p, ck), RowAt(q, ck))
  {
  }

  /** What the table shows when the generations `view` are live. */
  ghost function SeenIn(mem: Partition, contents: Contents, ck: Clustering, view: set<Gen>): Seen {
    Look([mem] + Parts(contents, Listing(view)), ck)
  }

  // ---------------------------------------------------------------- one replacement

  /** None of the three situations of the purge law shows anything. */
  ghost predicate Unaffected(p: Policy, inputs: seq<Partition>, outside: seq<Partition>, ck: Clustering)
    requires inputs != [] && outside != []
  {
    var ins, rest := MergeAll(inputs), MergeAll(outside);
    var i, o := RowAt(ins, ck), RowAt(rest, ck);
    && (Stripped(p, ins.deletion, i, rest.deletion, o) ==> ShowsNothing(Masked(MergeRows(i, o))))
    && (Exposed(p, ins.deletion, i, rest.deletion, o) ==> ShowsNothing(Masked(o)))
    && (Reinserted(ins.deletion, i, rest.deletion, o) ==> SameView(Masked(o), Masked(MergeRows(i, o))))
  }

  ghost function Ins(contents: Contents, r: Record): (parts: seq<Partition>)
    requires r.inputs != {}
    ensures parts != []
  {
    var g :| g in r.inputs;
    assert g in Listing(r.inputs);
    Parts(contents, Listing(r.inputs))
  }

  ghost function Outside(mem: Partition, contents: Contents, r: Record, view: set<Gen>): seq<Partition> {
    [mem] + Parts(contents, Listing(view - r.inputs))
  }

  /** A compaction: its policy, and its inputs in the order it merged them. */
  datatype Job = Job(policy: Policy, parts: seq<Partition>)

  /** The output of `r` was written by the compaction `j`. */
  ghost predicate Purged(contents: Contents, r: Record, j: Job) {
    && r.inputs != {} && j.parts != [] && multiset(j.parts) == multiset(Ins(contents, r))
    && contents(r.output) == Compacted(j.policy, j.parts)
  }

  /** A view made of two disjoint parts reads like the parts, one after the other. */
  lemma ViewSplits(mem: Partition, contents: Contents, a: set<Gen>, b: set<Gen>)
    requires a !! b
    ensures multiset([mem] + Parts(contents, Listing(a + b))) ==
            multiset(Parts(contents, Listing(a)) + ([mem] + Parts(contents, Listing(b))))
  {
    assert multiset(a + b) == multiset(a) + multiset(b);
    PartsAnyOrder(contents, Listing(a + b), Listing(a) + Listing(b));
    PartsJoin(contents, Listing(a), Listing(b));
    MemMoved(mem, Parts(contents, Listing(a + b)), Parts(contents, Listing(a)), Parts(contents, Listing(b)));
  }

  lemma MemMoved(mem: Partition, all: seq<Partition>, a: seq<Partition>, b: seq<Partition>)
    requires multiset(all) == multiset(a + b)
    ensures multiset([mem] + all) == multiset(a + ([mem] + b))
  {
    assert multiset([mem] + all) == multiset{mem} + multiset(all);
    assert multiset(a + ([mem] + b)) == multiset(a) + (multiset{mem} + multiset(b));
  }

  lemma BeforeSplits(mem: Partition, contents: Contents, r: Record, view: set<Gen>, parts: seq<Partition>)
    requires r.inputs != {} && r.inputs <= view && multiset(parts) == multiset(Ins(contents, r))
    ensures multiset([mem] + Parts(contents, Listing(view))) == multiset(parts + Outside(mem, contents, r, view))
  {
    assert view == r.inputs + (view - r.inputs);
    ViewSplits(mem, contents, r.inputs, view - r.inputs);
    assert multiset(Ins(contents, r) + Outside(mem, contents, r, view)) ==
           multiset(parts + Outside(mem, contents, r, view));
  }

  lemma AfterSplits(mem: Partition, contents: Contents, r: Record, view: set<Gen>)
    requires r.output !in view
    ensures multiset([mem] + Parts(contents, Listing(CompactionIntent.Replace(view, r)))) ==
            multiset([contents(r.output)] + Outside(mem, contents, r, view))
  {
    assert CompactionIntent.Replace(view, r) == {r.output} + (view - r.inputs);
    ViewSplits(mem, contents, {r.output}, view - r.inputs);
    OnePart(contents, r.output);
  }

  lemma OnePart(contents: Contents, g: Gen)
    ensures Parts(contents, Listing({g})) == [contents(g)]
  {
    OneListed(g);
  }

  lemma OneListed(g: Gen)
    ensures Listing({g}) == [g]
  {
    assert {g} - {g} == {};
    assert Listing({}) == [];
  }

  /** Replacing the inputs of a compaction by its output changes nothing the table shows if
      and only if none of the three situations shows anything. */
  lemma ReplacedExactly(mem: Partition, contents: Contents, ck: Clustering, view: set<Gen>, r: Record, j: Job)
    requires r.inputs <= view && r.output !in view && Purged(contents, r, j)
    requires AllAbove(Outside(mem, contents, r, view), j.policy.maxPurgeable)
    ensures SeenIn(mem, contents, ck, CompactionIntent.Replace(view, r)) == SeenIn(mem, contents, ck, view) <==>
            Unaffected(j.policy, j.parts, Outside(mem, contents, r, view), ck)
  {
    var p, ins, out := j.policy, j.parts, Outside(mem, contents, r, view);
    BeforeSplits(mem, contents, r, view, ins);
    AfterSplits(mem, contents, r, view);
    LookAnyOrder([mem] + Parts(contents, Listing(view)), ins + out, ck);
    LookAnyOrder([mem] + Parts(contents, Listing(CompactionIntent.Replace(view, r))), [Compacted(p, ins)] + out, ck);
    CompactedReadsSame(p, ins, out, ck);
    forall k ensures Shown(ReadStatic([Compacted(p, ins)] + out), k) == Shown(ReadStatic(ins + out), k) {
      StaticReadsSame(p, ins, out, k);
    }
    SameShown(ReadStatic([Compacted(p, ins)] + out), ReadStatic(ins + out));
    SameShown(Read([Compacted(p, ins)] + out, ck), Read(ins + out, ck));
  }

  // ---------------------------------------------------------------- what recovery brings back

  /** The view with the replacements `ts` of the interrupted compactions carried out. */
  function Partly(s: CompactionIntent.State, ts: set<Task>): set<Gen>
    requires ts <= s.records.Keys
  {
    CompactionIntent.Rolled(s.served, s.records, ts)
  }

  /** `t` is a compaction that purged nothing it should not have, seen beside `ts`. */
  ghost predicate Sound(mem: Partition, contents: Contents, ck: Clustering, s: CompactionIntent.State,
                        jobs: map<Task, Job>, ts: set<Task>, t: Task)
    requires ts + {t} <= s.records.Keys
  {
    var r := s.records[t];
    && t in jobs && Purged(contents, r, jobs[t])
    && AllAbove(Outside(mem, contents, r, Partly(s, ts)), jobs[t].policy.maxPurgeable)
    && Unaffected(jobs[t].policy, jobs[t].parts, Outside(mem, contents, r, Partly(s, ts)), ck)
  }

  ghost predicate Recovered(steps: seq<CompactionIntent.Step>) {
    && CompactionIntent.IsRun(CompactionIntent.INIT, steps)
    && CompactionIntent.GuardedRun(CompactionIntent.INIT, steps)
    && var s := CompactionIntent.Exec(CompactionIntent.INIT, steps); s.mode.Recovering? && CompactionIntent.Clean(s)
  }

  ghost function End(steps: seq<CompactionIntent.Step>): CompactionIntent.State
    requires Recovered(steps)
  {
    CompactionIntent.Exec(CompactionIntent.INIT, steps)
  }

  /** One more replacement is a `Replace` of the view so far. */
  lemma OneMore(steps: seq<CompactionIntent.Step>, ts: set<Task>, t: Task)
    requires Recovered(steps) && t in CompactionIntent.InFlights(End(steps)) && t !in ts
    requires ts <= CompactionIntent.InFlights(End(steps))
    ensures var s := End(steps);
            && s.records[t].inputs <= Partly(s, ts) && s.records[t].output !in Partly(s, ts)
            && Partly(s, ts + {t}) == CompactionIntent.Replace(Partly(s, ts), s.records[t])
  {
    var s := End(steps);
    CompactionIntent.InitHolds();
    CompactionIntent.RunKeeps(CompactionIntent.INIT, steps);
    CompactionIntent.InFlightsCompatible(s);
    CompactionIntent.RolledOneMore(s.served, s.records, ts, t);
  }

  lemma SoundReadsSame(mem: Partition, contents: Contents, ck: Clustering, jobs: map<Task, Job>,
                       steps: seq<CompactionIntent.Step>, ts: set<Task>, t: Task)
    requires Recovered(steps) && t in CompactionIntent.InFlights(End(steps)) && t !in ts
    requires ts <= CompactionIntent.InFlights(End(steps)) && Sound(mem, contents, ck, End(steps), jobs, ts, t)
    ensures SeenIn(mem, contents, ck, Partly(End(steps), ts + {t})) == SeenIn(mem, contents, ck, Partly(End(steps), ts))
  {
    OneMore(steps, ts, t);
    ReplacedExactly(mem, contents, ck, Partly(End(steps), ts), End(steps).records[t], jobs[t]);
  }

  /** After any crashes and half-done recoveries, once the directory is clean the table
      shows what it showed before: no purged row is back, no kept one is lost. */
  lemma RecoveredReadsSame(mem: Partition, contents: Contents, ck: Clustering, jobs: map<Task, Job>,
                           steps: seq<CompactionIntent.Step>)
    requires Recovered(steps)
    requires var s := End(steps);
             forall t, ts :: t in CompactionIntent.InFlights(s) && ts <= CompactionIntent.InFlights(s) - {t} ==>
               Sound(mem, contents, ck, s, jobs, ts, t)
    ensures SeenIn(mem, contents, ck, End(steps).disk) == SeenIn(mem, contents, ck, End(steps).served)
  {
    var s := End(steps);
    var read := (view: set<Gen>) => SeenIn(mem, contents, ck, view);
    forall t, ts | t in CompactionIntent.InFlights(s) && ts <= CompactionIntent.InFlights(s) - {t}
      ensures CompactionIntent.Faithful(read, s.served, s.records, ts, t)
    {
      SoundReadsSame(mem, contents, ck, jobs, steps, ts, t);
    }
    CompactionIntent.RecoveryReadsSame(read, steps);
  }

  /** And with one interrupted compaction, exactly then. */
  lemma RecoveredExactly(mem: Partition, contents: Contents, ck: Clustering, j: Job,
                         steps: seq<CompactionIntent.Step>, t: Task)
    requires Recovered(steps) && CompactionIntent.InFlights(End(steps)) == {t}
    requires var s := End(steps);
             Purged(contents, s.records[t], j) &&
             AllAbove(Outside(mem, contents, s.records[t], s.served), j.policy.maxPurgeable)
    ensures var s := End(steps);
            SeenIn(mem, contents, ck, s.disk) == SeenIn(mem, contents, ck, s.served) <==>
              Unaffected(j.policy, j.parts, Outside(mem, contents, s.records[t], s.served), ck)
  {
    var s := End(steps);
    OneReplaced(steps, t);
    ReplacedExactly(mem, contents, ck, s.served, s.records[t], j);
  }

  lemma OneReplaced(steps: seq<CompactionIntent.Step>, t: Task)
    requires Recovered(steps) && CompactionIntent.InFlights(End(steps)) == {t}
    ensures var s := End(steps);
            && s.records[t].inputs <= s.served && s.records[t].output !in s.served
            && s.disk == CompactionIntent.Replace(s.served, s.records[t])
  {
    CompactionIntent.ReopensWhole(steps);
    OneMore(steps, {}, t);
    assert {} + {t} == {t};
  }

  // ---------------------------------------------------------------- without partition deletions

  ghost predicate Undeleted(p: Partition) { p.deletion.at == NO_TS }

  lemma {:induction false} MergedUndeleted(sources: seq<Partition>)
    requires sources != [] && forall p :: p in sources ==> Undeleted(p)
    ensures Undeleted(MergeAll(sources))
    decreases |sources|
  {
    var front, last := sources[..|sources| - 1], sources[|sources| - 1];
    assert last in sources && Undeleted(last);
    if |sources| > 1 {
      assert forall p :: p in front ==> p in sources;
      MergedUndeleted(front);
      assert MergeAll(sources) == MergeTwo(MergeAll(front), last);
    }
  }

  /** A compaction of data above a limit is above it too. */
  lemma CompactedAbove(p: Policy, inputs: seq<Partition>, limit: int)
    requires inputs != [] && AllAbove(inputs, limit)
    ensures AllAbove([Compacted(p, inputs)], limit)
  {
    var m, c := MergeAll(inputs), Compacted(p, inputs);
    MergedAbove(inputs, limit, []);
    forall ck | ck in c.rows ensures Above(c.rows[ck], limit) {
      MergedAbove(inputs, limit, ck);
    }
  }

  /** Every compaction ran under a policy that nothing else was older than, and no
      partition was deleted. */
  ghost predicate Careful(mem: Partition, contents: Contents, s: CompactionIntent.State, jobs: map<Task, Job>) {
    && Undeleted(mem) && (forall g :: g in s.served ==> Undeleted(contents(g)))
    && forall t :: t in CompactionIntent.InFlights(s) ==>
         && t in jobs && Purged(contents, s.records[t], jobs[t])
         && AllAbove(Outside(mem, contents, s.records[t], s.served), jobs[t].policy.maxPurgeable)
  }

  lemma MemberOf(contents: Contents, view: set<Gen>, part: Partition)
    ensures part in Parts(contents, Listing(view)) <==> exists g :: g in view && contents(g) == part
  {
    var gens := Listing(view);
    if part in Parts(contents, gens) {
      var i :| 0 <= i < |gens| && Parts(contents, gens)[i] == part;
      assert gens[i] in view && contents(gens[i]) == part;
    }
    if g :| g in view && contents(g) == part {
      assert g in gens;
      var i :| 0 <= i < |gens| && gens[i] == g;
      assert Parts(contents, gens)[i] == part;
    }
  }

  lemma OutsideIs(mem: Partition, contents: Contents, r: Record, view: set<Gen>, part: Partition)
    ensures part in Outside(mem, contents, r, view) <==>
            part == mem || exists g :: g in view - r.inputs && contents(g) == part
  {
    MemberOf(contents, view - r.inputs, part);
  }

  lemma PartOfInput(contents: Contents, r: Record, j: Job, part: Partition)
    requires Purged(contents, r, j) && part in j.parts
    ensures exists g :: g in r.inputs && contents(g) == part
  {
    assert part in multiset(j.parts);
    MemberOf(contents, r.inputs, part);
  }

  lemma ServedKept(mem: Partition, contents: Contents, s: CompactionIntent.State, jobs: map<Task, Job>,
                   t: Task, part: Partition)
    requires Careful(mem, contents, s, jobs) && t in CompactionIntent.InFlights(s)
    requires part in Outside(mem, contents, s.records[t], s.served)
    ensures Undeleted(part) && AllAbove([part], jobs[t].policy.maxPurgeable)
  {
    OutsideIs(mem, contents, s.records[t], s.served, part);
  }

  /** The inputs of one interrupted compaction lie outside every other. */
  lemma InputKept(mem: Partition, contents: Contents, s: CompactionIntent.State, jobs: map<Task, Job>,
                  u: Task, t: Task, part: Partition)
    requires Careful(mem, contents, s, jobs) && u in CompactionIntent.InFlights(s) &&
             t in CompactionIntent.InFlights(s)
    requires s.records[u].inputs <= s.served && s.records[u].inputs !! s.records[t].inputs
    requires part in jobs[u].parts
    ensures Undeleted(part) && AllAbove([part], jobs[t].policy.maxPurgeable)
  {
    PartOfInput(contents, s.records[u], jobs[u], part);
    OutsideIs(mem, contents, s.records[t], s.served, part);
    ServedKept(mem, contents, s, jobs, t, part);
  }

  lemma AboveEach(parts: seq<Partition>, limit: int)
    requires forall part :: part in parts ==> AllAbove([part], limit)
    ensures AllAbove(parts, limit)
  {
    assert forall part :: part in parts ==> part in [part];
  }

  /** So what holds of everything served also holds of its output. */
  lemma OutputKept(mem: Partition, contents: Contents, s: CompactionIntent.State, jobs: map<Task, Job>,
                   u: Task, t: Task)
    requires CompactionIntent.Inv(s) && Careful(mem, contents, s, jobs) && u != t
    requires u in CompactionIntent.InFlights(s) && t in CompactionIntent.InFlights(s)
    ensures Undeleted(contents(s.records[u].output))
    ensures AllAbove([contents(s.records[u].output)], jobs[t].policy.maxPurgeable)
  {
    CompactionIntent.InFlightsCompatible(s);
    var ins := jobs[u].parts;
    forall part | part in ins ensures Undeleted(part) && AllAbove([part], jobs[t].policy.maxPurgeable) {
      InputKept(mem, contents, s, jobs, u, t, part);
    }
    AboveEach(ins, jobs[t].policy.maxPurgeable);
    MergedUndeleted(ins);
    CompactedAbove(jobs[u].policy, ins, jobs[t].policy.maxPurgeable);
  }

  lemma OutsideKept(mem: Partition, contents: Contents, s: CompactionIntent.State, jobs: map<Task, Job>,
                    ts: set<Task>, t: Task, part: Partition)
    requires CompactionIntent.Inv(s) && Careful(mem, contents, s, jobs) && t in CompactionIntent.InFlights(s)
    requires ts <= CompactionIntent.InFlights(s) - {t} && part in Outside(mem, contents, s.records[t], Partly(s, ts))
    ensures Undeleted(part) && AllAbove([part], jobs[t].policy.maxPurgeable)
  {
    OutsideIs(mem, contents, s.records[t], s.served, mem);
    OutsideIs(mem, contents, s.records[t], Partly(s, ts), part);
    if part == mem {
      ServedKept(mem, contents, s, jobs, t, mem);
    } else {
      var g :| g in Partly(s, ts) - s.records[t].inputs && contents(g) == part;
      GenerationKept(mem, contents, s, jobs, ts, t, g);
    }
  }

  lemma GenerationKept(mem: Partition, contents: Contents, s: CompactionIntent.State, jobs: map<Task, Job>,
                       ts: set<Task>, t: Task, g: Gen)
    requires CompactionIntent.Inv(s) && Careful(mem, contents, s, jobs) && t in CompactionIntent.InFlights(s)
    requires ts <= CompactionIntent.InFlights(s) - {t} && g in Partly(s, ts) - s.records[t].inputs
    ensures Undeleted(contents(g)) && AllAbove([contents(g)], jobs[t].policy.maxPurgeable)
  {
    if g in s.served {
      OutsideIs(mem, contents, s.records[t], s.served, contents(g));
      ServedKept(mem, contents, s, jobs, t, contents(g));
    } else {
      var u := RolledIn(s, ts, g);
      OutputKept(mem, contents, s, jobs, u, t);
    }
  }

  lemma RolledIn(s: CompactionIntent.State, ts: set<Task>, g: Gen) returns (u: Task)
    requires ts <= s.records.Keys && g in Partly(s, ts) && g !in s.served
    ensures u in ts && s.records[u].output == g
  {
    u :| u in ts && s.records[u].output == g;
  }

  /** So when no partition was deleted, a clean recovery never changes what is shown,
      however many compactions the crash interrupted. */
  lemma RecoveredUndeleted(mem: Partition, contents: Contents, ck: Clustering, jobs: map<Task, Job>,
                           steps: seq<CompactionIntent.Step>)
    requires Recovered(steps) && Careful(mem, contents, End(steps), jobs)
    ensures SeenIn(mem, contents, ck, End(steps).disk) == SeenIn(mem, contents, ck, End(steps).served)
  {
    var s := End(steps);
    CompactionIntent.InitHolds();
    CompactionIntent.RunKeeps(CompactionIntent.INIT, steps);
    forall t, ts | t in CompactionIntent.InFlights(s) && ts <= CompactionIntent.InFlights(s) - {t}
      ensures Sound(mem, contents, ck, s, jobs, ts, t)
    {
      UndeletedSound(mem, contents, ck, s, jobs, ts, t);
    }
    RecoveredReadsSame(mem, contents, ck, jobs, steps);
  }

  lemma UndeletedSound(mem: Partition, contents: Contents, ck: Clustering, s: CompactionIntent.State,
                       jobs: map<Task, Job>, ts: set<Task>, t: Task)
    requires CompactionIntent.Inv(s) && Careful(mem, contents, s, jobs)
    requires t in CompactionIntent.InFlights(s) && ts <= CompactionIntent.InFlights(s) - {t}
    ensures Sound(mem, contents, ck, s, jobs, ts, t)
  {
    var r := s.records[t];
    var ins, out := jobs[t].parts, Outside(mem, contents, r, Partly(s, ts));
    forall part | part in out ensures Undeleted(part) && AllAbove([part], jobs[t].policy.maxPurgeable) {
      OutsideKept(mem, contents, s, jobs, ts, t, part);
    }
    AboveEach(out, jobs[t].policy.maxPurgeable);
    MergedUndeleted(out);
    forall part | part in ins ensures Undeleted(part) {
      PartOfInput(contents, r, jobs[t], part);
    }
    MergedUndeleted(ins);
  }
}
