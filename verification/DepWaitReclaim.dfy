/**
 What sweeping for stale parks does to the promise of dependency order (`reclaim_stale` in
 ferrosa-cluster/src/accord/apply.rs, called under the state lock by the maintenance loop).
 A sweep looks for stale parks, clears their waits and drops them in three lock sections,
 and an inbound apply may fall between them.
 */
module DepWaitReclaim {
  import opened Base
  import opened Graphs
  import opened DepWaitGraph
  import opened DepWaitApplier

  predicate HollowFree(log: seq<Event>) { forall e :: e in log ==> !e.Hollow? }

  /** A cascade will come to `t`, or may: it is woken, or it waits and is neither about to
      be parked anew nor about to be marked. */
  predicate Expected(s: State, t: Txn) {
    t in s.queue || (t in s.board.waits && !((s.hand.Parking? || s.hand.Marking?) && s.hand.txn == t))
  }

  /** A cascade that comes to `t` will find nothing to persist. */
  predicate Naked(s: State, t: Txn) { Expected(s, t) && t !in s.pending }

  /** The last section of a sweep takes the park of a transaction that is expected: woken
      before the sweep cleared its waits, or registered again after that. */
  predicate Snatch(s: State, step: Step) {
    step.Drop? && s.sweep.Unhooked? && exists t :: t in s.sweep.txns && t in s.pending && Expected(s, t)
  }

  ghost predicate Snatches(at: Txn -> int, s: State, steps: seq<Step>)
    requires IsRun(at, s, steps)
    decreases |steps|
  {
    steps != [] && (Snatch(s, steps[0]) || Snatches(at, Next(at, s, steps[0]), steps[1..]))
  }

  // ---------------------------------------------------------------- without a snatch

  /** Everything expected is parked, and nothing was marked applied for nothing. */
  ghost predicate Unbroken(s: State) {
    (forall t :: !Naked(s, t)) && HollowFree(s.log) && (s.hand.Marking? ==> !s.hand.event.Hollow?)
  }

  lemma NotNaked(at: Txn -> int, s: State, step: Step, t: Txn)
    requires Inv(at, s) && Unbroken(s) && Enabled(at, s, step) && !Snatch(s, step)
    ensures !Naked(Next(at, s, step), t)
  {
    assert !Naked(s, t);
    match step
    case Submit(u, _, deps, _) =>
      RegisterAllKeeps(s.board, u, deps);
    case Mark(woken) =>
      MarkedKeeps(s.board, s.hand.txn);
      assert t in woken <==> t in Elements(woken);
    case Notify(_, woken) =>
      assert t in woken <==> t in Elements(woken);
    case Clear =>
      ClearedAllKeeps(s.board, s.sweep.txns);
    case _ =>
  }

  lemma UnbrokenStep(at: Txn -> int, s: State, step: Step)
    requires Inv(at, s) && Unbroken(s) && Enabled(at, s, step) && !Snatch(s, step)
    ensures Unbroken(Next(at, s, step))
  {
    forall t ensures !Naked(Next(at, s, step), t) {
      NotNaked(at, s, step, t);
    }
    if step.Take? {
      assert !Naked(s, s.queue[0]);
    }
  }

  lemma {:induction false} UnbrokenRun(at: Txn -> int, s: State, steps: seq<Step>)
    requires Inv(at, s) && Unbroken(s) && IsRun(at, s, steps) && !Snatches(at, s, steps)
    ensures Unbroken(Exec(at, s, steps))
    decreases |steps|
  {
    if steps != [] {
      UnbrokenStep(at, s, steps[0]);
      StepKeeps(at, s, steps[0]);
      UnbrokenRun(at, Next(at, s, steps[0]), steps[1..]);
    }
  }

  /** In every run, a write-set becomes durable only after each dependency that executes
      earlier has been marked applied, and `Applied` always follows durable writes. Without
      a snatch, marked means persisted or finalized. */
  lemma AppliesInDependencyOrder(at: Txn -> int, steps: seq<Step>, i: nat, d: Txn)
    requires IsRun(at, INIT, steps)
    requires var log := Exec(at, INIT, steps).log;
             i < |log| && log[i].Persisted? && d in log[i].deps && at(d) < at(log[i].txn)
    ensures MarkedIn(Exec(at, INIT, steps).log[..i], d)
    ensures !Snatches(at, INIT, steps) ==> ResolvedIn(Exec(at, INIT, steps).log[..i], d)
    ensures AppliedIsDurable(Exec(at, INIT, steps).log)
  {
    StartHolds(at);
    RunKeeps(at, INIT, steps);
    var log := Exec(at, INIT, steps).log;
    assert Settled(log[..i], log[i].txn, d);
    assert Waived(log[i].txn, d) !in log;
    assert forall e :: e in log[..i] ==> e in log;
    if !Snatches(at, INIT, steps) {
      UnbrokenRun(at, INIT, steps);
      assert Hollow(d) !in log;
    }
  }

  /** Over the whole dependency set: a dependency that executes earlier is resolved first
      if the replica holds state for it. */
  lemma KnownDependenciesInOrder(at: Txn -> int, steps: seq<Step>, i: nat, deps: seq<Txn>, states: map<Txn, Known>,
        d: Txn)
    requires IsRun(at, INIT, steps)
    requires var log := Exec(at, INIT, steps).log;
             i < |log| && log[i].Persisted? && log[i].deps == Elements(OrderedDeps(deps, at(log[i].txn), states))
             && d in deps && at(d) < at(log[i].txn)
    requires d in states && (states[d].committed ==> states[d].time == at(d))
    ensures MarkedIn(Exec(at, INIT, steps).log[..i], d)
    ensures !Snatches(at, INIT, steps) ==> ResolvedIn(Exec(at, INIT, steps).log[..i], d)
  {
    AppliesInDependencyOrder(at, steps, i, d);
  }

  // ---------------------------------------------------------------- what can still be marked

  /** Steps that do not name `t` themselves. */
  predicate LeavesAlone(step: Step, t: Txn) {
    (step.Submit? ==> step.txn != t) && (step.Notify? ==> step.txn != t)
  }

  /** Some cascade may still mark `t`. */
  predicate InPlay(s: State, t: Txn) {
    t in s.board.waits || t in s.queue || ((s.hand.Storing? || s.hand.Marking?) && s.hand.txn == t)
  }

  lemma OutOfPlayStep(at: Txn -> int, s: State, step: Step, t: Txn)
    requires Inv(at, s) && Enabled(at, s, step) && LeavesAlone(step, t) && !InPlay(s, t) && !MarkedIn(s.log, t)
    ensures !InPlay(Next(at, s, step), t) && !MarkedIn(Next(at, s, step).log, t)
  {
    match step
    case Submit(u, _, deps, _) =>
      RegisterAllKeeps(s.board, u, deps);
    case Mark(woken) =>
      assert t in woken <==> t in Elements(woken);
    case Notify(_, woken) =>
      assert t in woken <==> t in Elements(woken);
    case Clear =>
      ClearedAllKeeps(s.board, s.sweep.txns);
    case _ =>
  }

  lemma {:induction false} OutOfPlayRun(at: Txn -> int, s: State, steps: seq<Step>, t: Txn)
    requires Inv(at, s) && IsRun(at, s, steps) && !InPlay(s, t) && !MarkedIn(s.log, t)
    requires forall i :: 0 <= i < |steps| ==> LeavesAlone(steps[i], t)
    ensures !InPlay(Exec(at, s, steps), t) && !MarkedIn(Exec(at, s, steps).log, t)
    decreases |steps|
  {
    if steps != [] {
      OutOfPlayStep(at, s, steps[0], t);
      StepKeeps(at, s, steps[0]);
      OutOfPlayRun(at, Next(at, s, steps[0]), steps[1..], t);
    }
  }

  /** Steps that submit another transaction, or work off what is in hand and in the queue. */
  predicate Onward(step: Step, t: Txn) { Inner(step) || (step.Submit? && step.txn != t) }

  ghost predicate OnwardRun(at: Txn -> int, s: State, to: State, steps: seq<Step>, t: Txn) {
    Goes(at, s, to, steps) && forall i :: 0 <= i < |steps| ==> Onward(steps[i], t)
  }

  ghost predicate Leads(at: Txn -> int, s: State, to: State, t: Txn) { exists steps :: OnwardRun(at, s, to, steps, t) }

  lemma LeadsNext(at: Txn -> int, s: State, step: Step, to: State, t: Txn)
    requires Enabled(at, s, step) && Onward(step, t) && Leads(at, Next(at, s, step), to, t)
    ensures Leads(at, s, to, t)
  {
    var steps :| OnwardRun(at, Next(at, s, step), to, steps, t);
    GoesOne(at, s, step);
    GoesOn(at, s, Next(at, s, step), to, [step], steps);
    assert OnwardRun(at, s, to, [step] + steps, t);
  }

  /** `t` has been marked, and for nothing if `hollow`. */
  ghost predicate MarkedAs(log: seq<Event>, t: Txn, hollow: bool) {
    MarkedIn(log, t) && (hollow ==> Hollow(t) in log)
  }

  predicate WillBeHollow(s: State, t: Txn) { Naked(s, t) || s.hand == Marking(t, Hollow(t)) }

  /** The next step on the way to marking `t`. */
  lemma Nearer(at: Txn -> int, s: State, t: Txn) returns (step: Step)
    requires Inv(at, s) && InPlay(s, t) && !GateFree(s) && !(s.hand.Marking? && s.hand.txn == t)
    ensures Enabled(at, s, step) && Inner(step)
    ensures var n := Next(at, s, step);
            && InPlay(n, t) && (WillBeHollow(s, t) ==> WillBeHollow(n, t))
            && Succ(n.board.waits, t) <= Succ(s.board.waits, t)
  {
    if s.hand.Parking? {
      step := Park(true);
    } else if s.hand.Storing? {
      step := Store(s.hand.txn == t && !Naked(s, t));
    } else if s.hand.Marking? {
      var woken := Listed(WokenBy(s.board, s.hand.txn));
      step := Mark(woken);
      assert t in woken <==> t in Elements(woken);
    } else {
      step := Take;
    }
  }

  /** With the gate free, a dependency that `t` waits for is applied. */
  lemma DependencyApplied(at: Txn -> int, s: State, t: Txn) returns (to: State, d: Txn)
    requires Inv(at, s) && InPlay(s, t) && GateFree(s)
    ensures Leads(at, s, to, t) && Inv(at, to) && InPlay(to, t) && (Naked(s, t) ==> Naked(to, t))
    ensures d in Succ(s.board.waits, t) && Succ(to.board.waits, t) <= Succ(s.board.waits, t) - {d}
    ensures Work(to) <= Work(s)
  {
    d :| d in s.board.waits[t];
    if d == t {
      SelfLoopCyclic(s.board.waits, t);
    }
    var woken := Listed(WokenBy(s.board, d));
    assert t in woken <==> t in Elements(woken);
    AppliesAtOnce(at, s, d, [], woken, false);
    MarkShrinks(s.board, d, woken);
    to := s.(board := Marked(s.board, d), queue := woken, exclusive := false,
             log := s.log + [Persisted(d, [], {}), Applied(d)]);
    RunKeeps(at, s, [Submit(d, [], [], false), Store(true), Mark(woken)]);
    assert OnwardRun(at, s, to, [Submit(d, [], [], false), Store(true), Mark(woken)], t);
  }

  lemma LeadsOn(at: Txn -> int, s: State, mid: State, to: State, t: Txn)
    requires Leads(at, s, mid, t) && Leads(at, mid, to, t)
    ensures Leads(at, s, to, t)
  {
    var first :| OnwardRun(at, s, mid, first, t);
    var second :| OnwardRun(at, mid, to, second, t);
    GoesOn(at, s, mid, to, first, second);
    assert OnwardRun(at, s, to, first + second, t);
  }

  /** Whatever is in play can be marked without coming back itself, and a sweep in progress
      need not move; what has no park by then is marked for nothing. */
  lemma {:induction false} Resolvable(at: Txn -> int, s: State, t: Txn) returns (to: State)
    requires Inv(at, s) && InPlay(s, t)
    ensures Leads(at, s, to, t) && MarkedAs(to.log, t, WillBeHollow(s, t))
    decreases |Succ(s.board.waits, t)|, Work(s)
  {
    if s.hand.Marking? && s.hand.txn == t {
      var woken := Listed(WokenBy(s.board, t));
      to := Next(at, s, Mark(woken));
      GoesOne(at, s, Mark(woken));
      assert OnwardRun(at, s, to, [Mark(woken)], t);
      assert s.hand.event in to.log;
    } else if GateFree(s) {
      var mid, d := DependencyApplied(at, s, t);
      SubsetSize(Succ(mid.board.waits, t), Succ(s.board.waits, t) - {d});
      to := Resolvable(at, mid, t);
      LeadsOn(at, s, mid, to, t);
    } else {
      var step := Nearer(at, s, t);
      var n := Next(at, s, step);
      StepKeeps(at, s, step);
      CascadeShrinks(at, s, step);
      SubsetSize(Succ(n.board.waits, t), Succ(s.board.waits, t));
      to := Resolvable(at, n, t);
      LeadsNext(at, s, step, to, t);
    }
  }

  /** Whatever happens, `t` is not marked applied before it comes back itself. */
  ghost predicate NeverMarked(at: Txn -> int, s: State, t: Txn) {
    forall steps :: IsRun(at, s, steps) && (forall i :: 0 <= i < |steps| ==> LeavesAlone(steps[i], t)) ==>
      !MarkedIn(Exec(at, s, steps).log, t)
  }

  lemma NeverMarkedExactly(at: Txn -> int, s: State, t: Txn)
    requires Inv(at, s) && !MarkedIn(s.log, t)
    ensures NeverMarked(at, s, t) <==> !InPlay(s, t)
  {
    if InPlay(s, t) {
      var to := Resolvable(at, s, t);
      var steps :| OnwardRun(at, s, to, steps, t);
      assert MarkedIn(Exec(at, s, steps).log, t);
    } else {
      forall steps | IsRun(at, s, steps) && (forall i :: 0 <= i < |steps| ==> LeavesAlone(steps[i], t))
        ensures !MarkedIn(Exec(at, s, steps).log, t)
      {
        OutOfPlayRun(at, s, steps, t);
      }
    }
  }

  /** A reclaimed transaction can only be resolved by coming back itself if and only if,
      when its park is dropped, it is not woken, waits for nothing again and is not being
      applied. */
  lemma ReclaimedNeverApplied(at: Txn -> int, s: State, t: Txn)
    requires Inv(at, s) && Enabled(at, s, Drop) && t in s.sweep.txns && !MarkedIn(s.log, t)
    ensures NeverMarked(at, Next(at, s, Drop), t) <==> !InPlay(s, t)
  {
    StepKeeps(at, s, Drop);
    NeverMarkedExactly(at, Next(at, s, Drop), t);
  }

  // ---------------------------------------------------------------- exactly when a mark is hollow

  /** Without a further snatch, something may be marked for nothing. */
  ghost predicate HollowAhead(at: Txn -> int, s: State) {
    exists steps :: IsRun(at, s, steps) && !Snatches(at, s, steps) && !HollowFree(Exec(at, s, steps).log)
  }

  lemma {:induction false} OnwardNoSnatch(at: Txn -> int, s: State, steps: seq<Step>, t: Txn)
    requires IsRun(at, s, steps) && forall i :: 0 <= i < |steps| ==> Onward(steps[i], t)
    ensures !Snatches(at, s, steps)
    decreases |steps|
  {
    if steps != [] {
      assert Onward(steps[0], t);
      OnwardNoSnatch(at, Next(at, s, steps[0]), steps[1..], t);
    }
  }

  /** From a state in which nothing has gone wrong yet: something may be marked for nothing
      if and only if something expected has no park. */
  lemma NakedExactly(at: Txn -> int, s: State)
    requires Inv(at, s) && HollowFree(s.log) && (s.hand.Marking? ==> !s.hand.event.Hollow?)
    ensures HollowAhead(at, s) <==> exists t :: Naked(s, t)
  {
    if t :| Naked(s, t) {
      var to := Resolvable(at, s, t);
      var steps :| OnwardRun(at, s, to, steps, t);
      OnwardNoSnatch(at, s, steps, t);
      assert !HollowFree(Exec(at, s, steps).log);
    } else {
      forall steps | IsRun(at, s, steps) && !Snatches(at, s, steps)
        ensures HollowFree(Exec(at, s, steps).log)
      {
        UnbrokenRun(at, s, steps);
      }
    }
  }

  /** Over every run: as long as no sweep snatches, nothing is marked for nothing; and the
      next step makes that possible if and only if it is a snatch. */
  lemma HollowExactly(at: Txn -> int, steps: seq<Step>, step: Step)
    requires IsRun(at, INIT, steps) && !Snatches(at, INIT, steps) && Enabled(at, Exec(at, INIT, steps), step)
    ensures HollowFree(Exec(at, INIT, steps).log)
    ensures HollowAhead(at, Next(at, Exec(at, INIT, steps), step)) <==> Snatch(Exec(at, INIT, steps), step)
  {
    StartHolds(at);
    RunKeeps(at, INIT, steps);
    UnbrokenRun(at, INIT, steps);
    var s := Exec(at, INIT, steps);
    var n := Next(at, s, step);
    StepKeeps(at, s, step);
    if Snatch(s, step) {
      var t :| t in s.sweep.txns && t in s.pending && Expected(s, t);
      assert Naked(n, t);
    } else {
      UnbrokenStep(at, s, step);
    }
    NakedExactly(at, n);
  }

  /** A sweep is harmless if none of its transactions is woken when their waits have been
      cleared and none is submitted again before they are dropped. */
  lemma {:induction false} UntouchedSweepSafe(at: Txn -> int, s: State, steps: seq<Step>)
    requires Inv(at, s) && s.sweep.Unhooked? && IsRun(at, s, steps)
    requires forall t :: t in s.sweep.txns ==> t !in s.board.waits && t !in s.queue
    requires forall i :: 0 <= i < |steps| ==> !steps[i].Drop? && (steps[i].Submit? ==> steps[i].txn !in s.sweep.txns)
    ensures Exec(at, s, steps).sweep == s.sweep && !Snatch(Exec(at, s, steps), Drop)
    decreases |steps|
  {
    if steps != [] {
      var n := Next(at, s, steps[0]);
      StepKeeps(at, s, steps[0]);
      forall t | t in s.sweep.txns ensures t !in n.board.waits && t !in n.queue {
        UntouchedStep(at, s, steps[0], t);
      }
      UntouchedSweepSafe(at, n, steps[1..]);
    }
  }

  lemma UntouchedStep(at: Txn -> int, s: State, step: Step, t: Txn)
    requires Inv(at, s) && s.sweep.Unhooked? && Enabled(at, s, step)
    requires t !in s.board.waits && t !in s.queue && (step.Submit? ==> step.txn != t)
    ensures t !in Next(at, s, step).board.waits && t !in Next(at, s, step).queue
  {
    match step
    case Submit(u, _, deps, _) =>
      RegisterAllKeeps(s.board, u, deps);
    case Mark(woken) =>
      assert t in woken <==> t in Elements(woken);
    case _ =>
  }

  // ---------------------------------------------------------------- two runs from the empty replica

  lemma {:induction false} SnatchesLater(at: Txn -> int, a: State, b: State, first: seq<Step>, second: seq<Step>)
    requires Goes(at, a, b, first) && IsRun(at, b, second) && Snatches(at, b, second)
    ensures IsRun(at, a, first + second) && Snatches(at, a, first + second)
    decreases |first|
  {
    if first == [] {
      assert first + second == second;
    } else {
      SnatchesLater(at, Next(at, a, first[0]), b, first[1..], second);
      assert (first + second)[1..] == first[1..] + second;
    }
  }

  lemma SnatchesNow(at: Txn -> int, s: State, rest: seq<Step>)
    requires Snatch(s, Drop) && IsRun(at, Next(at, s, Drop), rest)
    ensures IsRun(at, s, [Drop] + rest) && Snatches(at, s, [Drop] + rest)
  {
    assert ([Drop] + rest)[1..] == rest;
  }

  /** An inbound write-set with one earlier dependency parks behind it. */
  lemma Parks(at: Txn -> int, s: State, t: Txn, writes: seq<Write>, d: Txn)
    requires GateFree(s) && WaitsOrdered(at, s.board) && at(d) < at(t) && d !in s.board.applied
    ensures Goes(at, s, s.(board := WaitAdded(s.board, t, d), pending := s.pending[t := Parked(writes, {d})],
                           exclusive := false),
                 [Submit(t, writes, [d], false), Park(true)])
  {
    RankedAcyclic(AddEdge(s.board.waits, t, d), at);
    assert [d][1..] == [] && Elements([d]) == {d};
    assert RegisterAll(WaitAdded(s.board, t, d), t, []) == Registration(WaitAdded(s.board, t, d), false, false);
    assert RegisterAll(s.board, t, [d]) == Registration(WaitAdded(s.board, t, d), true, false);
    var submit := Submit(t, writes, [d], false);
    GoesOne(at, s, submit);
    GoesNext(at, s, Next(at, s, submit), [submit], Park(true));
    assert [submit] + [Park(true)] == [submit, Park(true)];
  }

  function OneParked(d: Txn, w: Txn): State {
    State(Board(map[w := {d}], map[d := {w}], {}), map[w := Parked(["w"], {d})], [], Free, false, Resting, [])
  }

  lemma FirstParks(at: Txn -> int, d: Txn, w: Txn)
    requires at(d) < at(w)
    ensures Goes(at, INIT, OneParked(d, w), [Submit(w, ["w"], [d], false), Park(true)])
  {
    Parks(at, INIT, w, ["w"], d);
    assert {} + {d} == {d} && {} + {w} == {w};
    assert WaitAdded(INIT.board, w, d) == OneParked(d, w).board;
  }

  /** Parked, swept up to the clearing of its waits, and parked again. */
  lemma ParksAgain(at: Txn -> int, d: Txn, w: Txn)
    requires at(d) < at(w)
    ensures Goes(at, OneParked(d, w), OneParked(d, w).(sweep := Unhooked([w])),
                 [Scan([w]), Clear, Submit(w, ["w"], [d], false), Park(true)])
  {
    var one := OneParked(d, w);
    var found := one.(sweep := Found([w]));
    var unhooked := one.(board := INIT.board, sweep := Unhooked([w]));
    assert [w][1..] == [] && {w} - {w} == {};
    assert ClearedAll(one.board, [w]) == Cleared(one.board, w);
    assert Cleared(one.board, w) == INIT.board;
    GoesOne(at, one, Scan([w]));
    GoesNext(at, one, found, [Scan([w])], Clear);
    Parks(at, unhooked, w, ["w"], d);
    assert {} + {d} == {d} && {} + {w} == {w};
    assert WaitAdded(INIT.board, w, d) == one.board && unhooked.pending[w := Parked(["w"], {d})] == one.pending;
    GoesOn(at, one, unhooked, one.(sweep := Unhooked([w])), [Scan([w])] + [Clear],
           [Submit(w, ["w"], [d], false), Park(true)]);
    assert [Scan([w])] + [Clear] + [Submit(w, ["w"], [d], false), Park(true)]
        == [Scan([w]), Clear, Submit(w, ["w"], [d], false), Park(true)];
  }

  /** The new park is dropped, the dependency resolves, and `w` is marked for nothing. */
  lemma HollowTail(at: Txn -> int, d: Txn, w: Txn) returns (end: State)
    requires at(d) < at(w)
    ensures var s := OneParked(d, w).(sweep := Unhooked([w]));
            Snatch(s, Drop) && Goes(at, Next(at, s, Drop), end, [Notify(d, [w]), Take, Mark([])])
    ensures end.log == [Reclaimed([w]), Finalized(d), Hollow(w)]
  {
    var s := OneParked(d, w).(sweep := Unhooked([w]));
    assert w in s.sweep.txns && w in s.pending && Expected(s, w);
    var dropped := Next(at, s, Drop);
    assert dropped.pending == map[];
    assert WokenBy(dropped.board, d) == {w} && Elements([w]) == {w} && Elements<Txn>([]) == {};
    var woken := Next(at, dropped, Notify(d, [w]));
    assert woken.board == Board(map[], map[], {d});
    var taken := Next(at, woken, Take);
    assert WokenBy(taken.board, w) == {};
    end := Next(at, taken, Mark([]));
    GoesOne(at, dropped, Notify(d, [w]));
    GoesNext(at, dropped, woken, [Notify(d, [w])], Take);
    GoesNext(at, dropped, taken, [Notify(d, [w])] + [Take], Mark([]));
    assert [Notify(d, [w])] + [Take] + [Mark([])] == [Notify(d, [w]), Take, Mark([])];
  }

  /** A write-set that is submitted again while a sweep is between clearing its waits and
      dropping its park loses the new park: no cascade was under way, and the transaction
      is marked applied with nothing persisted. */
  lemma ResubmittedSnatched(at: Txn -> int, d: Txn, w: Txn) returns (steps: seq<Step>)
    requires at(d) < at(w)
    ensures IsRun(at, INIT, steps) && Snatches(at, INIT, steps)
    ensures Exec(at, INIT, steps).log == [Reclaimed([w]), Finalized(d), Hollow(w)]
  {
    var one := OneParked(d, w);
    var again := one.(sweep := Unhooked([w]));
    FirstParks(at, d, w);
    ParksAgain(at, d, w);
    var end := HollowTail(at, d, w);
    var head := [Submit(w, ["w"], [d], false), Park(true)]
              + [Scan([w]), Clear, Submit(w, ["w"], [d], false), Park(true)];
    GoesOn(at, INIT, one, again, [Submit(w, ["w"], [d], false), Park(true)],
           [Scan([w]), Clear, Submit(w, ["w"], [d], false), Park(true)]);
    steps := SnatchedRun(at, again, end, head, [Notify(d, [w]), Take, Mark([])]);
  }

  lemma SnatchedRun(at: Txn -> int, s: State, end: State, head: seq<Step>, tail: seq<Step>) returns (steps: seq<Step>)
    requires Goes(at, INIT, s, head) && Snatch(s, Drop) && Goes(at, Next(at, s, Drop), end, tail)
    ensures Goes(at, INIT, end, steps) && Snatches(at, INIT, steps)
  {
    steps := head + ([Drop] + tail);
    SnatchesNow(at, s, tail);
    SnatchesLater(at, INIT, s, head, [Drop] + tail);
    GoesOne(at, s, Drop);
    GoesOn(at, s, Next(at, s, Drop), end, [Drop], tail);
    GoesOn(at, INIT, s, end, head, [Drop] + tail);
  }

  function TwoParked(d: Txn, w: Txn, x: Txn): State {
    State(Board(map[w := {d}, x := {w}], map[d := {w}, w := {x}], {}),
          map[w := Parked(["w"], {d}), x := Parked(["x"], {w})], [], Free, false, Resting, [])
  }

  lemma SecondParks(at: Txn -> int, d: Txn, w: Txn, x: Txn)
    requires at(d) < at(w) < at(x)
    ensures Goes(at, OneParked(d, w), TwoParked(d, w, x), [Submit(x, ["x"], [w], false), Park(true)])
  {
    Parks(at, OneParked(d, w), x, ["x"], w);
    assert {} + {w} == {w} && {} + {x} == {x};
    assert WaitAdded(OneParked(d, w).board, x, w) == TwoParked(d, w, x).board;
  }

  /** A sweep has found `w` when its dependency is applied and wakes it; clearing its waits
      comes too late. */
  function Woken(d: Txn, w: Txn, x: Txn): State {
    State(Board(map[x := {w}], map[w := {x}], {d}), TwoParked(d, w, x).pending, [w], Free, false, Unhooked([w]),
          [Persisted(d, ["d"], {}), Applied(d)])
  }

  lemma WakesWaiter(d: Txn, w: Txn, x: Txn)
    requires d != w && w != x && x != d
    ensures WakesAll(TwoParked(d, w, x).board, d, [w]) && Marked(TwoParked(d, w, x).board, d) == Woken(d, w, x).board
    ensures ClearedAll(Woken(d, w, x).board, [w]) == Woken(d, w, x).board
  {
    var two, last := TwoParked(d, w, x), Woken(d, w, x);
    assert WokenBy(two.board, d) == {w} && Elements([w]) == {w};
    assert {w} - {d} == {w} && {d} - {d} == {};
    assert Marked(two.board, d) == last.board;
    assert [w][1..] == [] && ClearedAll(last.board, [w]) == Cleared(last.board, w);
    assert Cleared(last.board, w) == last.board;
  }

  lemma WokenReached(at: Txn -> int, d: Txn, w: Txn, x: Txn) returns (steps: seq<Step>)
    requires at(d) < at(w) < at(x)
    ensures Goes(at, TwoParked(d, w, x), Woken(d, w, x), steps)
  {
    var two, last := TwoParked(d, w, x), Woken(d, w, x);
    var found := two.(sweep := Found([w]));
    WakesWaiter(d, w, x);
    AppliesAtOnce(at, found, d, ["d"], [w], false);
    assert [] + [Persisted(d, ["d"], {}), Applied(d)] == last.log;
    var woken := last.(sweep := Found([w]));
    GoesOne(at, two, Scan([w]));
    steps := [Submit(d, ["d"], [], false), Store(true), Mark([w])];
    GoesNext(at, found, woken, steps, Clear);
    GoesOn(at, two, found, last, [Scan([w])], steps + [Clear]);
    steps := [Scan([w])] + (steps + [Clear]);
  }

  lemma WokenFromStart(at: Txn -> int, d: Txn, w: Txn, x: Txn) returns (steps: seq<Step>)
    requires at(d) < at(w) < at(x)
    ensures Goes(at, INIT, Woken(d, w, x), steps)
  {
    FirstParks(at, d, w);
    SecondParks(at, d, w, x);
    var sweep := WokenReached(at, d, w, x);
    var first, second := [Submit(w, ["w"], [d], false), Park(true)], [Submit(x, ["x"], [w], false), Park(true)];
    GoesOn(at, OneParked(d, w), TwoParked(d, w, x), Woken(d, w, x), second, sweep);
    GoesOn(at, INIT, OneParked(d, w), Woken(d, w, x), first, second + sweep);
    steps := first + (second + sweep);
  }

  /** `w` is marked with nothing persisted, and `x` is next. */
  function Behind(d: Txn, w: Txn, x: Txn): State {
    State(Board(map[], map[], {d, w}), map[x := Parked(["x"], {w})], [x], Free, false, Resting,
          [Persisted(d, ["d"], {}), Applied(d), Reclaimed([w]), Hollow(w)])
  }

  lemma BehindReached(at: Txn -> int, d: Txn, w: Txn, x: Txn)
    requires at(d) < at(w) < at(x)
    ensures Snatch(Woken(d, w, x), Drop)
    ensures Goes(at, Next(at, Woken(d, w, x), Drop), Behind(d, w, x), [Take, Mark([x])])
  {
    var s := Woken(d, w, x);
    assert w in s.sweep.txns && w in s.pending && Expected(s, w);
    var dropped := Next(at, s, Drop);
    assert dropped.pending == map[x := Parked(["x"], {w})];
    var taken := Next(at, dropped, Take);
    assert taken.pending == dropped.pending && taken.queue == [];
    assert WokenBy(taken.board, w) == {x} && Elements([x]) == {x} && {w} - {w} == {};
    assert Marked(taken.board, w) == Behind(d, w, x).board;
    assert Next(at, taken, Mark([x])) == Behind(d, w, x);
    GoesOne(at, dropped, Take);
    GoesNext(at, dropped, taken, [Take], Mark([x]));
    assert [Take] + [Mark([x])] == [Take, Mark([x])];
  }

  lemma LastPersists(at: Txn -> int, d: Txn, w: Txn, x: Txn) returns (end: State)
    requires at(d) < at(w) < at(x)
    ensures Goes(at, Behind(d, w, x), end, [Take, Store(true), Mark([])])
    ensures end.log == Behind(d, w, x).log + [Persisted(x, ["x"], {w}), Applied(x)]
  {
    var s := Behind(d, w, x);
    var taken := Next(at, s, Take);
    var stored := Next(at, taken, Store(true));
    assert WokenBy(stored.board, x) == {} && Elements<Txn>([]) == {};
    end := Next(at, stored, Mark([]));
    GoesOne(at, s, Take);
    GoesNext(at, s, taken, [Take], Store(true));
    GoesNext(at, s, stored, [Take] + [Store(true)], Mark([]));
    assert [Take] + [Store(true)] + [Mark([])] == [Take, Store(true), Mark([])];
  }

  lemma OrderBroken(at: Txn -> int, d: Txn, w: Txn, x: Txn) returns (end: State, steps: seq<Step>)
    requires at(d) < at(w) < at(x)
    ensures Snatch(Woken(d, w, x), Drop) && Goes(at, Next(at, Woken(d, w, x), Drop), end, steps)
    ensures end.log == [Persisted(d, ["d"], {}), Applied(d), Reclaimed([w]), Hollow(w),
                        Persisted(x, ["x"], {w}), Applied(x)]
  {
    BehindReached(at, d, w, x);
    end := LastPersists(at, d, w, x);
    GoesOn(at, Next(at, Woken(d, w, x), Drop), Behind(d, w, x), end, [Take, Mark([x])], [Take, Store(true), Mark([])]);
    steps := [Take, Mark([x])] + [Take, Store(true), Mark([])];
  }

  /** And then the promise of order is broken too: of two write-sets parked one behind the
      other, the first is swept away when its own dependency has just woken it, and the
      second becomes durable on a dependency that was neither applied nor finalized. */
  lemma SnatchBreaksOrder(at: Txn -> int, d: Txn, w: Txn, x: Txn) returns (steps: seq<Step>)
    requires at(d) < at(w) < at(x)
    ensures IsRun(at, INIT, steps) && Snatches(at, INIT, steps)
    ensures Exec(at, INIT, steps).log == [Persisted(d, ["d"], {}), Applied(d), Reclaimed([w]), Hollow(w),
                                          Persisted(x, ["x"], {w}), Applied(x)]
    ensures !ResolvedIn(Exec(at, INIT, steps).log, w)
  {
    var head := WokenFromStart(at, d, w, x);
    var end, tail := OrderBroken(at, d, w, x);
    steps := SnatchedRun(at, Woken(d, w, x), end, head, tail);
  }
}
