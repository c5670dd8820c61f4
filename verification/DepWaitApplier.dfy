/**
 Dependency-ordered apply of committed transactions (`DepWaitApplier` in
 ferrosa-cluster/src/accord/apply.rs): write-sets park behind unapplied dependencies, and
 each apply cascades to the waiters it unblocks. A step is one lock section of the code, or
 one storage write. The apply gate makes applies, notices and waivers exclusive, so one
 transaction at a time is in hand; a cascade empties its queue by `Take`, `Store` and `Mark`.
 Sweeping for stale parks and forgetting applied transactions take the state lock but not
 the gate. An inbound apply holds only the gate, so the three sections of a sweep may fall
 between any two of its steps; an apply that also holds the state lock excludes them.
 */
module DepWaitApplier {
  import opened Base
  import opened Graphs
  import opened DepWaitGraph

  type Write = string

  datatype Parked = Parked(writes: seq<Write>, deps: set<Txn>)

  /** What an observer of the replica sees, in order. `Applied` follows a write-set made
      durable here, `Finalized` an apply with nothing to write, `Hollow` a cascade that found
      nothing parked for a transaction it had woken. */
  datatype Event =
    | Persisted(txn: Txn, writes: seq<Write>, deps: set<Txn>)
    | Applied(txn: Txn)
    | Finalized(txn: Txn)
    | Hollow(txn: Txn)
    | Waived(waiter: Txn, dep: Txn)
    | Reclaimed(txns: seq<Txn>)

  /** What the holder of the apply gate is about to do: park a registered write-set, make
      one durable, or mark a transaction applied and report it. */
  datatype Hand =
    | Free
    | Parking(txn: Txn, writes: seq<Write>, deps: set<Txn>)
    | Storing(txn: Txn, writes: seq<Write>, deps: set<Txn>)
    | Marking(txn: Txn, event: Event)

  /** How far a sweep for stale parks has come: it has found them, then cleared their waits. */
  datatype Sweep = Resting | Found(txns: seq<Txn>) | Unhooked(txns: seq<Txn>)

  /** `exclusive`: whoever holds the gate, if anybody does, holds the state lock as well. */
  datatype State = State(
    board: Board, pending: map<Txn, Parked>, queue: seq<Txn>, hand: Hand, exclusive: bool, sweep: Sweep,
    log: seq<Event>)

  const INIT: State := State(Board(map[], map[], {}), map[], [], Free, true, Resting, [])

  /** What registering the waits of a write-set came to. */
  datatype Registration = Registration(board: Board, waiting: bool, refused: bool)

  ghost function RegisterAll(b: Board, t: Txn, deps: seq<Txn>): Registration
    decreases |deps|
  {
    if deps == [] then Registration(b, false, false)
    else if deps[0] in b.applied then RegisterAll(b, t, deps[1..])
    else if Cyclic(AddEdge(b.waits, t, deps[0]))
    then Registration(Cleared(b.(rev := DropEdge(b.rev, deps[0], t)), t), true, true)
    else RegisterAll(WaitAdded(b, t, deps[0]), t, deps[1..]).(waiting := true)
  }

  ghost function ClearedAll(b: Board, txns: seq<Txn>): Board
    decreases |txns|
  {
    if txns == [] then b else ClearedAll(Cleared(b, txns[0]), txns[1..])
  }

  datatype Step =
    | Submit(txn: Txn, writes: seq<Write>, deps: seq<Txn>, exclusive: bool)
    | Park(staged: bool)
    | Store(persisted: bool)
    | Mark(woken: seq<Txn>)
    | Take
    | Notify(txn: Txn, woken: seq<Txn>)
    | Waive(waiter: Txn, dep: Txn)
    | Scan(txns: seq<Txn>)
    | Clear
    | Drop
    | Forget(pruned: set<Txn>)

  ghost predicate WakesAll(b: Board, t: Txn, woken: seq<Txn>) {
    Distinct(woken) && Elements(woken) == WokenBy(b, t)
  }

  predicate GateFree(s: State) { s.hand.Free? && s.queue == [] }

  /** Nobody in the middle of an apply holds the state lock. */
  predicate LockFree(s: State) { GateFree(s) || !s.exclusive }

  /** `at` gives execution timestamps: a wait is waived only on a dependency that has
      committed to execute later. */
  ghost predicate Enabled(at: Txn -> int, s: State, step: Step) {
    match step
    case Submit(t, writes, deps, exclusive) => GateFree(s) && (exclusive ==> s.sweep.Resting?)
    case Park(staged) => s.hand.Parking?
    case Store(persisted) => s.hand.Storing?
    case Mark(woken) => s.hand.Marking? && WakesAll(s.board, s.hand.txn, woken)
    case Take => s.hand.Free? && s.queue != []
    case Notify(t, woken) => GateFree(s) && s.sweep.Resting? && WakesAll(s.board, t, woken)
    case Waive(w, d) => GateFree(s) && s.sweep.Resting? && at(w) < at(d)
    case Scan(ts) => s.sweep.Resting? && LockFree(s) && ts != [] && forall t :: t in ts ==> t in s.pending
    case Clear => s.sweep.Found?
    case Drop => s.sweep.Unhooked?
    case Forget(ts) => s.sweep.Resting? && LockFree(s)
  }

  ghost function Submitted(s: State, step: Step): State
    requires step.Submit?
  {
    var r := RegisterAll(s.board, step.txn, step.deps);
    if r.refused then s.(board := r.board)
    else if r.waiting then
      s.(board := r.board, hand := Parking(step.txn, step.writes, Elements(step.deps)), exclusive := step.exclusive)
    else s.(hand := Storing(step.txn, step.writes, Elements(step.deps)), exclusive := step.exclusive)
  }

  ghost function Taken(s: State): State
    requires s.queue != []
  {
    var t := s.queue[0];
    s.(pending := s.pending - {t}, queue := s.queue[1..],
       hand := if t in s.pending then Storing(t, s.pending[t].writes, s.pending[t].deps) else Marking(t, Hollow(t)))
  }

  ghost function Next(at: Txn -> int, s: State, step: Step): State
    requires Enabled(at, s, step)
  {
    match step
    case Submit(t, writes, deps, exclusive) => Submitted(s, step)
    case Park(staged) =>
      if staged then s.(pending := s.pending[s.hand.txn := Parked(s.hand.writes, s.hand.deps)], hand := Free)
      else s.(board := Cleared(s.board, s.hand.txn), hand := Free)
    case Store(persisted) =>
      if persisted
      then s.(hand := Marking(s.hand.txn, Applied(s.hand.txn)),
              log := s.log + [Persisted(s.hand.txn, s.hand.writes, s.hand.deps)])
      else s.(hand := Free)
    case Mark(woken) =>
      s.(board := Marked(s.board, s.hand.txn), queue := s.queue + woken, hand := Free, log := s.log + [s.hand.event])
    case Take => Taken(s)
    case Notify(t, woken) =>
      s.(board := Marked(s.board, t), queue := woken, exclusive := true, log := s.log + [Finalized(t)])
    case Waive(w, d) =>
      if w in s.board.waits && d in s.board.waits[w]
      then s.(board := EdgeWaived(s.board, w, d), exclusive := true,
              queue := if s.board.waits[w] == {d} then [w] else [],
              log := s.log + [Waived(w, d)])
      else s
    case Scan(ts) => s.(sweep := Found(ts))
    case Clear => s.(board := ClearedAll(s.board, s.sweep.txns), sweep := Unhooked(s.sweep.txns))
    case Drop =>
      s.(pending := s.pending - Elements(s.sweep.txns), sweep := Resting, log := s.log + [Reclaimed(s.sweep.txns)])
    case Forget(ts) => s.(board := s.board.(applied := s.board.applied - ts))
  }

  ghost predicate IsRun(at: Txn -> int, s: State, steps: seq<Step>)
    decreases |steps|
  {
    steps == [] || (Enabled(at, s, steps[0]) && IsRun(at, Next(at, s, steps[0]), steps[1..]))
  }

  ghost function Exec(at: Txn -> int, s: State, steps: seq<Step>): State
    requires IsRun(at, s, steps)
    decreases |steps|
  {
    if steps == [] then s else Exec(at, Next(at, s, steps[0]), steps[1..])
  }

  // ---------------------------------------------------------------- what a run guarantees

  ghost predicate ResolvedIn(log: seq<Event>, t: Txn) { Applied(t) in log || Finalized(t) in log }

  /** The graph holds, or held, `t` for applied. */
  ghost predicate MarkedIn(log: seq<Event>, t: Txn) { ResolvedIn(log, t) || Hollow(t) in log }

  /** A dependency of `t` that `t` need not wait for any more. */
  ghost predicate Settled(log: seq<Event>, t: Txn, d: Txn) { MarkedIn(log, d) || Waived(t, d) in log }

  /** Every write-set became durable after each of its dependencies was marked applied
      here or waived. */
  ghost predicate OrderedLog(log: seq<Event>) {
    forall i, d :: 0 <= i < |log| && log[i].Persisted? && d in log[i].deps ==> Settled(log[..i], log[i].txn, d)
  }

  /** Apart from reports of a sweep, the last event is that `t` became durable. */
  ghost predicate EndsDurable(log: seq<Event>, t: Txn)
    decreases |log|
  {
    && log != []
    && var last := log[|log| - 1];
       if last.Reclaimed? then EndsDurable(log[..|log| - 1], t) else last.Persisted? && last.txn == t
  }

  /** A transaction is reported applied only right after its writes became durable. */
  ghost predicate AppliedIsDurable(log: seq<Event>) {
    forall i :: 0 <= i < |log| && log[i].Applied? ==> EndsDurable(log[..i], log[i].txn)
  }

  ghost predicate WaiversLater(at: Txn -> int, log: seq<Event>) {
    forall e :: e in log && e.Waived? ==> at(e.waiter) < at(e.dep)
  }

  ghost predicate LogHolds(at: Txn -> int, log: seq<Event>) {
    OrderedLog(log) && AppliedIsDurable(log) && WaiversLater(at, log)
  }

  /** A dependency of `t` still waited for, or already settled. */
  ghost predicate Covered(s: State, t: Txn, d: Txn) {
    (t in s.board.waits && d in s.board.waits[t]) || Settled(s.log, t, d)
  }

  predicate InHand(s: State, t: Txn) { !s.hand.Free? && s.hand.txn == t }

  /** A park the cascade may come to: a new write-set in hand will replace it otherwise. */
  predicate Live(s: State, t: Txn) {
    t in s.pending && (t in s.board.waits || t in s.queue) && !(s.hand.Parking? && s.hand.txn == t)
  }

  ghost predicate ParksHold(s: State) {
    forall t, d :: Live(s, t) && d in s.pending[t].deps ==> Covered(s, t, d)
  }

  ghost predicate QueueHolds(s: State) {
    Distinct(s.queue) && forall t :: t in s.queue ==> t !in s.board.waits && !InHand(s, t)
  }

  ghost predicate HandHolds(s: State) {
    match s.hand
    case Free => true
    case Parking(t, _, deps) => s.queue == [] && (t in s.board.waits ==> forall d :: d in deps ==> Covered(s, t, d))
    case Storing(t, _, deps) => forall d :: d in deps ==> Settled(s.log, t, d)
    case Marking(t, e) => e == Hollow(t) || (e == Applied(t) && EndsDurable(s.log, t))
  }

  ghost predicate Inv(at: Txn -> int, s: State) {
    && WellFormed(s.board)
    && (forall t :: t in s.board.applied ==> MarkedIn(s.log, t))
    && LogHolds(at, s.log) && ParksHold(s) && QueueHolds(s) && HandHolds(s)
  }

  lemma LogAppend(at: Txn -> int, log: seq<Event>, e: Event)
    requires LogHolds(at, log)
    requires e.Persisted? ==> forall d :: d in e.deps ==> Settled(log, e.txn, d)
    requires e.Applied? ==> EndsDurable(log, e.txn)
    requires e.Waived? ==> at(e.waiter) < at(e.dep)
    ensures LogHolds(at, log + [e])
  {
    var longer := log + [e];
    forall i, d | 0 <= i < |longer| && longer[i].Persisted? && d in longer[i].deps
      ensures Settled(longer[..i], longer[i].txn, d)
    {
      assert longer[..i] == log[..i];
      assert i == |log| ==> log[..i] == log;
    }
    forall i | 0 <= i < |longer| && longer[i].Applied?
      ensures EndsDurable(longer[..i], longer[i].txn)
    {
      assert longer[..i] == log[..i];
      assert i == |log| ==> log[..i] == log;
    }
  }

  /** Registering waits keeps the graph sound and accounts for every dependency. */
  lemma {:induction false} RegisterAllKeeps(b: Board, t: Txn, deps: seq<Txn>)
    requires WellFormed(b)
    ensures var r := RegisterAll(b, t, deps);
            && WellFormed(r.board) && r.board.applied == b.applied
            && (forall w :: w in r.board.waits && w != t ==> w in b.waits && r.board.waits[w] == b.waits[w])
            && (r.refused ==> t !in r.board.waits)
            && (!r.refused ==> r.waiting || r.board == b)
            && (!r.refused ==> Succ(b.waits, t) <= Succ(r.board.waits, t))
            && (!r.refused ==> forall d :: d in deps ==> d in b.applied || d in Succ(r.board.waits, t))
    decreases |deps|
  {
    if deps != [] {
      var d := deps[0];
      if d in b.applied {
        RegisterAllKeeps(b, t, deps[1..]);
      } else if Cyclic(AddEdge(b.waits, t, d)) {
        if t in b.waits && d in b.waits[t] {
          AddPresent(b.waits, t, d);
        }
        StaleDropped(b, t, d);
        ClearedKeeps(b.(rev := DropEdge(b.rev, d, t)), t);
      } else {
        AddedKeeps(b, t, d);
        RegisterAllKeeps(WaitAdded(b, t, d), t, deps[1..]);
      }
    }
  }

  lemma {:induction false} NotWaitingMeansApplied(b: Board, t: Txn, deps: seq<Txn>)
    requires WellFormed(b) && !RegisterAll(b, t, deps).waiting
    ensures forall d :: d in deps ==> d in b.applied
    decreases |deps|
  {
    if deps != [] && deps[0] in b.applied {
      NotWaitingMeansApplied(b, t, deps[1..]);
    }
  }

  lemma {:induction false} ClearedAllKeeps(b: Board, txns: seq<Txn>)
    requires WellFormed(b)
    ensures var c := ClearedAll(b, txns);
            && WellFormed(c) && c.applied == b.applied
            && (forall w :: w in c.waits <==> w in b.waits && w !in txns)
            && (forall w :: w in c.waits ==> c.waits[w] == b.waits[w])
    decreases |txns|
  {
    if txns != [] {
      ClearedKeeps(b, txns[0]);
      ClearedAllKeeps(Cleared(b, txns[0]), txns[1..]);
    }
  }

  lemma SubmitKeeps(at: Txn -> int, s: State, step: Step)
    requires Inv(at, s) && Enabled(at, s, step) && step.Submit?
    ensures Inv(at, Next(at, s, step))
  {
    var t := step.txn;
    RegisterAllKeeps(s.board, t, step.deps);
    var after := Next(at, s, step);
    forall v, d | Live(after, v) && d in after.pending[v].deps
      ensures Covered(after, v, d)
    {
      assert Live(s, v) && Covered(s, v, d);
    }
    if after.hand.Storing? {
      NotWaitingMeansApplied(s.board, t, step.deps);
    }
  }

  lemma ParkKeeps(at: Txn -> int, s: State, step: Step)
    requires Inv(at, s) && Enabled(at, s, step) && step.Park?
    ensures Inv(at, Next(at, s, step))
  {
    ClearedKeeps(s.board, s.hand.txn);
    var after := Next(at, s, step);
    forall v, d | Live(after, v) && d in after.pending[v].deps
      ensures Covered(after, v, d)
    {
      if v != s.hand.txn {
        assert Live(s, v) && Covered(s, v, d);
      } else {
        assert Covered(s, v, d);
      }
    }
  }

  lemma StoreKeeps(at: Txn -> int, s: State, step: Step)
    requires Inv(at, s) && Enabled(at, s, step) && step.Store?
    ensures Inv(at, Next(at, s, step))
  {
    var after := Next(at, s, step);
    if step.persisted {
      LogAppend(at, s.log, Persisted(s.hand.txn, s.hand.writes, s.hand.deps));
    }
    forall v, d | Live(after, v) && d in after.pending[v].deps
      ensures Covered(after, v, d)
    {
      assert Live(s, v) && Covered(s, v, d);
    }
  }

  /** Marking `t` applied: the woken leave the waiters, everyone else stays covered. */
  lemma MarkParks(s: State, t: Txn, woken: seq<Txn>, after: State)
    requires WellFormed(s.board) && WakesAll(s.board, t, woken) && s.log <= after.log && MarkedIn(after.log, t)
    requires ParksHold(s) && QueueHolds(s) && t !in s.queue && !s.hand.Parking?
    requires after.board == Marked(s.board, t) && after.queue == s.queue + woken
    requires after.hand.Free? && after.pending == s.pending
    ensures WellFormed(after.board) && ParksHold(after) && QueueHolds(after)
  {
    MarkedKeeps(s.board, t);
    assert forall w :: w in woken ==> w in s.board.waits && s.board.waits[w] == {t} by {
      assert forall w :: w in woken <==> w in Elements(woken);
    }
    assert Distinct(after.queue) by {
      assert forall i :: 0 <= i < |s.queue| ==> s.queue[i] in s.queue;
      assert forall i :: 0 <= i < |woken| ==> woken[i] in woken;
    }
    forall w, d | Live(after, w) && d in after.pending[w].deps
      ensures Covered(after, w, d)
    {
      assert Live(s, w) && Covered(s, w, d);
    }
  }

  lemma MarkKeeps(at: Txn -> int, s: State, step: Step)
    requires Inv(at, s) && Enabled(at, s, step) && step.Mark?
    ensures Inv(at, Next(at, s, step))
  {
    LogAppend(at, s.log, s.hand.event);
    assert s.hand.event in s.log + [s.hand.event];
    MarkParks(s, s.hand.txn, step.woken, Next(at, s, step));
  }

  lemma NotifyKeeps(at: Txn -> int, s: State, step: Step)
    requires Inv(at, s) && Enabled(at, s, step) && step.Notify?
    ensures Inv(at, Next(at, s, step))
  {
    LogAppend(at, s.log, Finalized(step.txn));
    assert Finalized(step.txn) in s.log + [Finalized(step.txn)];
    assert [] + step.woken == step.woken;
    MarkParks(s, step.txn, step.woken, Next(at, s, step));
  }

  lemma TakeKeeps(at: Txn -> int, s: State)
    requires Inv(at, s) && Enabled(at, s, Take)
    ensures Inv(at, Next(at, s, Take))
  {
    var t, after := s.queue[0], Next(at, s, Take);
    forall v, d | Live(after, v) && d in after.pending[v].deps
      ensures Covered(after, v, d)
    {
      assert Live(s, v) && Covered(s, v, d);
    }
    if t in s.pending {
      forall d | d in s.pending[t].deps
        ensures Settled(s.log, t, d)
      {
        assert Live(s, t) && Covered(s, t, d);
      }
    }
  }

  lemma WaiveKeeps(at: Txn -> int, s: State, step: Step)
    requires Inv(at, s) && Enabled(at, s, step) && step.Waive?
    ensures Inv(at, Next(at, s, step))
  {
    var w, d := step.waiter, step.dep;
    if w in s.board.waits && d in s.board.waits[w] {
      WaivedKeeps(s.board, w, d);
      LogAppend(at, s.log, Waived(w, d));
      var after := Next(at, s, step);
      assert Waived(w, d) in after.log;
      forall v, e | Live(after, v) && e in after.pending[v].deps
        ensures Covered(after, v, e)
      {
        assert Live(s, v) && Covered(s, v, e);
      }
    }
  }

  lemma ClearKeeps(at: Txn -> int, s: State)
    requires Inv(at, s) && Enabled(at, s, Clear)
    ensures Inv(at, Next(at, s, Clear))
  {
    ClearedAllKeeps(s.board, s.sweep.txns);
    var after := Next(at, s, Clear);
    forall v, d | Live(after, v) && d in after.pending[v].deps
      ensures Covered(after, v, d)
    {
      assert Live(s, v) && Covered(s, v, d);
    }
    if s.hand.Parking? && s.hand.txn in after.board.waits {
      forall d | d in s.hand.deps
        ensures Covered(after, s.hand.txn, d)
      {
        assert Covered(s, s.hand.txn, d);
      }
    }
  }

  lemma DropKeeps(at: Txn -> int, s: State)
    requires Inv(at, s) && Enabled(at, s, Drop)
    ensures Inv(at, Next(at, s, Drop))
  {
    LogAppend(at, s.log, Reclaimed(s.sweep.txns));
    var after := Next(at, s, Drop);
    assert after.log[..|after.log| - 1] == s.log;
    forall v, d | Live(after, v) && d in after.pending[v].deps
      ensures Covered(after, v, d)
    {
      assert Live(s, v) && Covered(s, v, d);
    }
    if s.hand.Parking? && s.hand.txn in s.board.waits {
      forall d | d in s.hand.deps
        ensures Covered(after, s.hand.txn, d)
      {
        assert Covered(s, s.hand.txn, d);
      }
    }
  }

  lemma QuietKeeps(at: Txn -> int, s: State, step: Step)
    requires Inv(at, s) && Enabled(at, s, step) && (step.Scan? || step.Forget?)
    ensures Inv(at, Next(at, s, step))
  {
    var after := Next(at, s, step);
    assert forall t, d :: Covered(s, t, d) ==> Covered(after, t, d);
    assert forall t :: Live(after, t) ==> Live(s, t);
  }

  lemma StepKeeps(at: Txn -> int, s: State, step: Step)
    requires Inv(at, s) && Enabled(at, s, step)
    ensures Inv(at, Next(at, s, step))
  {
    match step
    case Submit(_, _, _, _) => SubmitKeeps(at, s, step);
    case Park(_) => ParkKeeps(at, s, step);
    case Store(_) => StoreKeeps(at, s, step);
    case Mark(_) => MarkKeeps(at, s, step);
    case Take => TakeKeeps(at, s);
    case Notify(_, _) => NotifyKeeps(at, s, step);
    case Waive(_, _) => WaiveKeeps(at, s, step);
    case Clear => ClearKeeps(at, s);
    case Drop => DropKeeps(at, s);
    case _ => QuietKeeps(at, s, step);
  }

  lemma {:induction false} RunKeeps(at: Txn -> int, s: State, steps: seq<Step>)
    requires Inv(at, s) && IsRun(at, s, steps)
    ensures Inv(at, Exec(at, s, steps))
    decreases |steps|
  {
    if steps != [] {
      StepKeeps(at, s, steps[0]);
      RunKeeps(at, Next(at, s, steps[0]), steps[1..]);
    }
  }

  lemma StartHolds(at: Txn -> int)
    ensures Inv(at, INIT)
  {
    EmptyAcyclic();
  }

  // ---------------------------------------------------------------- runs

  ghost predicate Goes(at: Txn -> int, from: State, to: State, steps: seq<Step>) {
    IsRun(at, from, steps) && Exec(at, from, steps) == to
  }

  lemma GoesOne(at: Txn -> int, s: State, step: Step)
    requires Enabled(at, s, step)
    ensures Goes(at, s, Next(at, s, step), [step])
  {
    assert [step][1..] == [];
    assert IsRun(at, Next(at, s, step), []);
  }

  lemma {:induction false} GoesOn(at: Txn -> int, a: State, b: State, c: State, first: seq<Step>, second: seq<Step>)
    requires Goes(at, a, b, first) && Goes(at, b, c, second)
    ensures Goes(at, a, c, first + second)
    decreases |first|
  {
    if first == [] {
      assert first + second == second;
    } else {
      GoesOn(at, Next(at, a, first[0]), b, c, first[1..], second);
      assert (first + second)[1..] == first[1..] + second;
    }
  }

  lemma GoesNext(at: Txn -> int, a: State, b: State, steps: seq<Step>, step: Step)
    requires Goes(at, a, b, steps) && Enabled(at, b, step)
    ensures Goes(at, a, Next(at, b, step), steps + [step])
  {
    GoesOne(at, b, step);
    GoesOn(at, a, b, Next(at, b, step), steps, [step]);
  }

  /** What the holder of the gate does between entering the applier and leaving it. */
  predicate Inner(step: Step) { step.Park? || step.Store? || step.Mark? || step.Take? }

  // ---------------------------------------------------------------- which dependencies are awaited

  /** What the replica knows of a transaction: its execution time, final once committed. */
  datatype Known = Known(committed: bool, time: int)

  predicate Awaited(states: map<Txn, Known>, d: Txn, time: int) {
    d in states && !(states[d].committed && states[d].time > time)
  }

  /** The dependencies handed to the applier: those with live state here that have not
      committed to execute later. */
  function OrderedDeps(deps: seq<Txn>, time: int, states: map<Txn, Known>): (r: seq<Txn>)
    ensures forall d :: d in r <==> d in deps && Awaited(states, d, time)
  {
    if deps == [] then []
    else (if Awaited(states, deps[0], time) then [deps[0]] else []) + OrderedDeps(deps[1..], time, states)
  }

  /** A transaction without dependencies is applied at once. */
  lemma AppliesAtOnce(at: Txn -> int, s: State, t: Txn, writes: seq<Write>, woken: seq<Txn>, exclusive: bool)
    requires GateFree(s) && (exclusive ==> s.sweep.Resting?) && WakesAll(s.board, t, woken)
    ensures Goes(at, s, s.(board := Marked(s.board, t), queue := woken, exclusive := exclusive,
                           log := s.log + [Persisted(t, writes, {}), Applied(t)]),
                 [Submit(t, writes, [], exclusive), Store(true), Mark(woken)])
  {
    assert Elements<Txn>([]) == {};
    var s1 := Next(at, s, Submit(t, writes, [], exclusive));
    var s2 := Next(at, s1, Store(true));
    var s3 := Next(at, s2, Mark(woken));
    GoesOne(at, s, Submit(t, writes, [], exclusive));
    GoesNext(at, s, s1, [Submit(t, writes, [], exclusive)], Store(true));
    GoesNext(at, s, s2, [Submit(t, writes, [], exclusive)] + [Store(true)], Mark(woken));
    assert [Submit(t, writes, [], exclusive)] + [Store(true)] + [Mark(woken)]
        == [Submit(t, writes, [], exclusive), Store(true), Mark(woken)];
    assert s3.queue == woken;
    assert s3.log == s.log + [Persisted(t, writes, {}), Applied(t)];
  }

  /** Without state for it, an earlier dependency is not waited for, and a write-set that
      lists it persists at once. */
  lemma UnknownDependencyNotAwaited(at: Txn -> int, t: Txn, d: Txn, writes: seq<Write>) returns (steps: seq<Step>)
    requires t != d && at(d) < at(t)
    ensures |steps| > 0 && steps[0] == Submit(t, writes, OrderedDeps([d], at(t), map[]), true)
    ensures IsRun(at, INIT, steps)
    ensures var log := Exec(at, INIT, steps).log;
            log == [Persisted(t, writes, {}), Applied(t)] && !MarkedIn(log, d)
  {
    var none: map<Txn, Known> := map[];
    assert [d][1..] == [] && !Awaited(none, d, at(t));
    assert OrderedDeps([d], at(t), none) == [] + OrderedDeps([], at(t), none);
    assert WokenBy(INIT.board, t) == {} && Elements<Txn>([]) == {};
    AppliesAtOnce(at, INIT, t, writes, [], true);
    steps := [Submit(t, writes, [], true), Store(true), Mark([])];
  }

  // ---------------------------------------------------------------- progress

  lemma MarkShrinks(b: Board, t: Txn, woken: seq<Txn>)
    requires WellFormed(b) && WakesAll(b, t, woken)
    ensures |woken| + |Marked(b, t).waits| <= |b.waits|
  {
    MarkedKeeps(b, t);
    DistinctBounded(woken, Elements(woken));
    var left := Marked(b, t).waits.Keys;
    assert left !! WokenBy(b, t) && left + WokenBy(b, t) <= b.waits.Keys;
    SubsetSize(left + WokenBy(b, t), b.waits.Keys);
  }

  function Effort(hand: Hand): nat { if hand.Free? then 0 else if hand.Marking? then 1 else 2 }

  /** What is left to do before the gate is free, at most. */
  function Work(s: State): nat { 3 * (|s.queue| + |s.board.waits|) + Effort(s.hand) }

  lemma ClearShrinks(b: Board, t: Txn, txns: seq<Txn>)
    requires WellFormed(b)
    ensures |Cleared(b, t).waits| <= |b.waits| && |ClearedAll(b, txns).waits| <= |b.waits|
  {
    SubsetSize(Cleared(b, t).waits.Keys, b.waits.Keys);
    ClearedAllKeeps(b, txns);
    SubsetSize(ClearedAll(b, txns).waits.Keys, b.waits.Keys);
  }

  /** Every step under the gate uses some of it up and no sweep adds to it, so a cascade
      ends whatever falls into it. */
  lemma CascadeShrinks(at: Txn -> int, s: State, step: Step)
    requires Inv(at, s) && Enabled(at, s, step) && !step.Submit? && !step.Notify? && !step.Waive?
    ensures if Inner(step) then Work(Next(at, s, step)) < Work(s) else Work(Next(at, s, step)) <= Work(s)
  {
    match step
    case Mark(woken) => MarkShrinks(s.board, s.hand.txn, woken);
    case Park(_) => ClearShrinks(s.board, s.hand.txn, []);
    case Clear => ClearShrinks(s.board, 0, s.sweep.txns);
    case _ =>
  }

  /** A quiet replica with parked write-sets is held up by a transaction that is itself
      neither parked on others nor applied; its own apply or finalize moves things on. */
  lemma StuckOnlyFromOutside(at: Txn -> int, steps: seq<Step>)
    requires IsRun(at, INIT, steps) && Exec(at, INIT, steps).board.waits != map[]
    ensures var b := Exec(at, INIT, steps).board;
            exists w, d :: w in b.waits && d in b.waits[w] && d !in b.waits && d !in b.applied
  {
    StartHolds(at);
    RunKeeps(at, INIT, steps);
    SomebodyOutsideBlocks(Exec(at, INIT, steps).board);
  }

  // ---------------------------------------------------------------- the engine in place

  /** The transactions a log reports applied, in order. */
  ghost function Reported(log: seq<Event>): seq<Txn>
    decreases |log|
  {
    if log == [] then []
    else
      var last := log[|log| - 1];
      Reported(log[..|log| - 1]) + if last.Applied? then [last.txn] else []
  }

  lemma Regroup(a: seq<Txn>, b: seq<Txn>, c: seq<Txn>)
    ensures a + b + c == a + (b + c)
  {
  }

  lemma ReportedNext(log: seq<Event>, e: Event)
    ensures Reported(log + [e]) == if e.Applied? then Reported(log) + [e.txn] else Reported(log)
  {
    assert (log + [e])[..|log|] == log;
  }

  ghost predicate Reached(at: Txn -> int, s: State) { exists steps :: Goes(at, INIT, s, steps) }

  lemma ReachedHolds(at: Txn -> int, s: State)
    requires Reached(at, s)
    ensures Inv(at, s)
  {
    var steps :| Goes(at, INIT, s, steps);
    StartHolds(at);
    RunKeeps(at, INIT, steps);
  }

  lemma ReachedOn(at: Txn -> int, from: State, to: State, steps: seq<Step>)
    requires Reached(at, from) && Goes(at, from, to, steps)
    ensures Reached(at, to)
  {
    var before :| Goes(at, INIT, from, before);
    GoesOn(at, INIT, from, to, before, steps);
  }

  /** One call: `first` enters the gate, and steps under the gate follow. */
  ghost predicate IsCall(at: Txn -> int, from: State, to: State, first: Step, rest: seq<Step>) {
    Reached(at, from) && Goes(at, from, to, [first] + rest) && forall i :: 0 <= i < |rest| ==> Inner(rest[i])
  }

  ghost predicate Call(at: Txn -> int, from: State, to: State, first: Step) {
    exists rest :: IsCall(at, from, to, first, rest)
  }

  lemma CallHolds(at: Txn -> int, from: State, to: State, first: Step)
    requires Call(at, from, to, first)
    ensures Reached(at, to) && WellFormed(to.board)
  {
    var rest :| IsCall(at, from, to, first, rest);
    ReachedOn(at, from, to, [first] + rest);
    ReachedHolds(at, to);
  }

  lemma CallFirst(at: Txn -> int, from: State, first: Step)
    requires Reached(at, from) && Enabled(at, from, first)
    ensures Call(at, from, Next(at, from, first), first)
  {
    GoesOne(at, from, first);
    assert [first] + [] == [first];
    assert IsCall(at, from, Next(at, from, first), first, []);
  }

  lemma CallNext(at: Txn -> int, from: State, to: State, first: Step, step: Step)
    requires Call(at, from, to, first) && Enabled(at, to, step) && Inner(step)
    ensures Call(at, from, Next(at, to, step), first) && Work(Next(at, to, step)) < Work(to)
  {
    ReachedShrinks(at, from, to, first, step);
    var rest :| IsCall(at, from, to, first, rest);
    GoesNext(at, from, to, [first] + rest, step);
    assert [first] + rest + [step] == [first] + (rest + [step]);
    assert IsCall(at, from, Next(at, to, step), first, rest + [step]);
  }

  lemma ReachedShrinks(at: Txn -> int, from: State, to: State, first: Step, step: Step)
    requires Call(at, from, to, first) && Enabled(at, to, step) && Inner(step)
    ensures Work(Next(at, to, step)) < Work(to)
  {
    CallHolds(at, from, to, first);
    ReachedHolds(at, to);
    CascadeShrinks(at, to, step);
  }

  lemma BoardHolds(at: Txn -> int, s: State, t: Txn, deps: seq<Txn>)
    requires Reached(at, s)
    ensures WellFormed(s.board)
    ensures var r := RegisterAll(s.board, t, deps); !r.refused && !r.waiting ==> r.board == s.board
  {
    ReachedHolds(at, s);
    RegisterAllKeeps(s.board, t, deps);
  }

  /** The replica's apply engine. The methods are its entry points, run with nothing in
      between; each is the steps of one call. */
  class Engine {
    const graph: WaitGraph
    var pending: map<Txn, Parked>
    ghost var log: seq<Event>

    ghost function Snapshot(queue: seq<Txn>, hand: Hand): State
      reads this, graph
    {
      State(graph.Value(), pending, queue, hand, true, Resting, log)
    }

    constructor ()
      ensures Snapshot([], Free) == INIT && fresh(graph)
    {
      graph := new WaitGraph();
      pending, log := map[], [];
    }

    /** Marks what is in hand applied and adds what that wakes to the queue. */
    method MarkOne(t: Txn, queue: seq<Txn>, ghost event: Event, ghost at: Txn -> int,
          ghost from: State, ghost first: Step)
      returns (rest: seq<Txn>)
      requires Call(at, from, Snapshot(queue, Marking(t, event)), first)
      modifies this`log, graph
      ensures Call(at, from, Snapshot(rest, Free), first)
      ensures Work(Snapshot(rest, Free)) < old(Work(Snapshot(queue, Marking(t, event))))
      ensures log == old(log) + [event]
    {
      ghost var before := Snapshot(queue, Marking(t, event));
      CallHolds(at, from, before, first);
      var woken := graph.MarkApplied(t);
      log := log + [event];
      rest := queue + woken;
      assert Snapshot(rest, Free) == Next(at, before, Mark(woken));
      CallNext(at, from, before, first, Mark(woken));
    }

    /** Makes the write-set in hand durable and marks it; a failed write goes no further. */
    method StoreOne(t: Txn, parked: Parked, queue: seq<Txn>, persisted: bool, ghost at: Txn -> int, ghost from: State,
          ghost first: Step)
      returns (rest: seq<Txn>, applied: seq<Txn>)
      requires Call(at, from, Snapshot(queue, Storing(t, parked.writes, parked.deps)), first)
      modifies this`log, graph
      ensures Call(at, from, Snapshot(rest, Free), first)
      ensures Work(Snapshot(rest, Free)) < old(Work(Snapshot(queue, Storing(t, parked.writes, parked.deps))))
      ensures applied == if persisted then [t] else []
      ensures Reported(log) == Reported(old(log)) + applied
    {
      ghost var event := Persisted(t, parked.writes, parked.deps);
      CallNext(at, from, Snapshot(queue, Storing(t, parked.writes, parked.deps)), first, Store(persisted));
      rest, applied := queue, [];
      if persisted {
        log := log + [event];
        rest := MarkOne(t, rest, Applied(t), at, from, first);
        applied := [t];
        ReportedNext(old(log), event);
        ReportedNext(old(log) + [event], Applied(t));
      }
    }

    /** One turn of the cascade: takes the head of the queue, makes its parked write-set
        durable if it has one, marks it and queues what that unblocks. */
    method ApplyOne(queue: seq<Txn>, persisted: bool, ghost at: Txn -> int, ghost from: State, ghost first: Step)
      returns (rest: seq<Txn>, applied: seq<Txn>)
      requires queue != [] && Call(at, from, Snapshot(queue, Free), first)
      modifies this, graph
      ensures Call(at, from, Snapshot(rest, Free), first)
      ensures Work(Snapshot(rest, Free)) < old(Work(Snapshot(queue, Free)))
      ensures applied == if old(queue[0] in pending) && persisted then [queue[0]] else []
      ensures Reported(log) == Reported(old(log)) + applied
    {
      var t := queue[0];
      CallNext(at, from, Snapshot(queue, Free), first, Take);
      if t in pending {
        var parked := pending[t];
        pending := pending - {t};
        rest, applied := StoreOne(t, parked, queue[1..], persisted, at, from, first);
      } else {
        assert pending - {t} == pending;
        rest := MarkOne(t, queue[1..], Hollow(t), at, from, first);
        applied := [];
        ReportedNext(old(log), Hollow(t));
      }
    }

    /** Applies everything in the queue, then everything that unblocks, until nothing is
        left, and returns what became durable, in order. */
    method ApplyUnblocked(unblocked: seq<Txn>, persists: Txn -> bool, ghost at: Txn -> int, ghost from: State,
          ghost first: Step)
      returns (applied: seq<Txn>)
      requires Call(at, from, Snapshot(unblocked, Free), first)
      modifies this, graph
      ensures Call(at, from, Snapshot([], Free), first)
      ensures Reported(log) == Reported(old(log)) + applied
    {
      var queue := unblocked;
      applied := [];
      while queue != []
        invariant Call(at, from, Snapshot(queue, Free), first)
        invariant Reported(log) == Reported(old(log)) + applied
        decreases Work(Snapshot(queue, Free))
      {
        var more;
        var ok := persists(queue[0]);
        queue, more := ApplyOne(queue, ok, at, from, first);
        Regroup(Reported(old(log)), applied, more);
        applied := applied + more;
      }
    }

    /** Registers the waits of a write-set; a refused one leaves none behind. */
    method RegisterWaits(t: Txn, deps: seq<Txn>) returns (waiting: bool, refused: bool)
      requires WellFormed(graph.Value())
      modifies graph
      ensures Registration(graph.Value(), waiting, refused) == RegisterAll(old(graph.Value()), t, deps)
      ensures WellFormed(graph.Value())
    {
      waiting, refused := false, false;
      var i := 0;
      while i < |deps|
        invariant 0 <= i <= |deps| && WellFormed(graph.Value())
        invariant var r := RegisterAll(graph.Value(), t, deps[i..]);
                  r.(waiting := waiting || r.waiting) == RegisterAll(old(graph.Value()), t, deps)
      {
        assert deps[i..][0] == deps[i] && deps[i..][1..] == deps[i + 1..];
        if deps[i] !in graph.applied {
          waiting := true;
          var cycle := graph.RegisterWait(t, deps[i]);
          if cycle.Some? {
            graph.ClearWaits(t);
            return true, true;
          }
        }
        i := i + 1;
      }
    }

    /** Parks a write-set whose waits are registered; one that cannot be staged leaves none. */
    method ParkNow(t: Txn, writes: seq<Write>, deps: seq<Txn>, staged: bool, ghost at: Txn -> int, ghost from: State,
          ghost first: Step)
      requires Call(at, from, Snapshot([], Parking(t, writes, Elements(deps))), first)
      modifies this, graph
      ensures Call(at, from, Snapshot([], Free), first) && log == old(log)
    {
      ghost var before := Snapshot([], Parking(t, writes, Elements(deps)));
      CallHolds(at, from, before, first);
      CallNext(at, from, before, first, Park(staged));
      if staged {
        pending := pending[t := Parked(writes, set d | d in deps)];
      } else {
        graph.ClearWaits(t);
      }
    }

    /** Makes a write-set durable and applies what that unblocks. */
    method ApplyNow(t: Txn, parked: Parked, persists: Txn -> bool, ghost at: Txn -> int, ghost from: State,
          ghost first: Step)
      returns (applied: seq<Txn>)
      requires Call(at, from, Snapshot([], Storing(t, parked.writes, parked.deps)), first)
      modifies this, graph
      ensures Call(at, from, Snapshot([], Free), first)
      ensures Reported(log) == Reported(old(log)) + applied
    {
      var queue, more;
      var ok := persists(t);
      queue, applied := StoreOne(t, parked, [], ok, at, from, first);
      more := ApplyUnblocked(queue, persists, at, from, first);
      Regroup(Reported(old(log)), applied, more);
      applied := applied + more;
    }

    /** Applies a committed write-set and what that unblocks, or parks it behind the
        dependencies that are not applied; `staged` and `persists` say which of its disk
        writes succeed. Returns what became durable, in order. */
    method TryApply(t: Txn, writes: seq<Write>, deps: seq<Txn>, staged: bool, persists: Txn -> bool,
          ghost at: Txn -> int)
      returns (applied: seq<Txn>)
      requires Reached(at, Snapshot([], Free))
      modifies this, graph
      ensures Reached(at, Snapshot([], Free))
      ensures Call(at, old(Snapshot([], Free)), Snapshot([], Free), Submit(t, writes, deps, true))
      ensures Reported(log) == Reported(old(log)) + applied
    {
      ghost var from, first := Snapshot([], Free), Submit(t, writes, deps, true);
      CallFirst(at, from, first);
      BoardHolds(at, from, t, deps);
      var waiting, refused := RegisterWaits(t, deps);
      if refused {
        applied := [];
      } else if waiting {
        applied := [];
        ParkNow(t, writes, deps, staged, at, from, first);
      } else {
        applied := ApplyNow(t, Parked(writes, set d | d in deps), persists, at, from, first);
      }
      CallHolds(at, from, Snapshot([], Free), first);
    }

    /** Marks a transaction that writes nothing here, and applies what that unblocks. */
    method NotifyApplied(t: Txn, persists: Txn -> bool, ghost at: Txn -> int)
      returns (applied: seq<Txn>, ghost woken: seq<Txn>)
      requires Reached(at, Snapshot([], Free))
      modifies this, graph
      ensures Reached(at, Snapshot([], Free))
      ensures Call(at, old(Snapshot([], Free)), Snapshot([], Free), Notify(t, woken))
      ensures Reported(log) == Reported(old(log)) + applied
    {
      ghost var from := Snapshot([], Free);
      BoardHolds(at, from, t, []);
      var queue := graph.MarkApplied(t);
      woken := queue;
      log := log + [Finalized(t)];
      ReportedNext(old(log), Finalized(t));
      assert Snapshot(queue, Free) == Next(at, from, Notify(t, woken));
      CallFirst(at, from, Notify(t, woken));
      applied := ApplyUnblocked(queue, persists, at, from, Notify(t, woken));
      CallHolds(at, from, Snapshot([], Free), Notify(t, woken));
    }

    /** Releases a waiter from a dependency that executes later; with its last wait gone
        it is applied, and so is what that unblocks. */
    method WaiveDependency(w: Txn, d: Txn, persists: Txn -> bool, ghost at: Txn -> int) returns (applied: seq<Txn>)
      requires Reached(at, Snapshot([], Free)) && at(w) < at(d)
      modifies this, graph
      ensures Reached(at, Snapshot([], Free))
      ensures Call(at, old(Snapshot([], Free)), Snapshot([], Free), Waive(w, d))
      ensures Reported(log) == Reported(old(log)) + applied
    {
      ghost var from := Snapshot([], Free);
      ghost var after := Next(at, from, Waive(w, d));
      BoardHolds(at, from, w, []);
      CallFirst(at, from, Waive(w, d));
      ghost var waited := w in graph.waitingOn && d in graph.waitingOn[w];
      var unblocked := graph.Waive(w, d);
      if waited {
        log := log + [Waived(w, d)];
        ReportedNext(old(log), Waived(w, d));
      }
      var queue := if unblocked then [w] else [];
      assert Snapshot(queue, Free) == after;
      applied := ApplyUnblocked(queue, persists, at, from, Waive(w, d));
      CallHolds(at, from, Snapshot([], Free), Waive(w, d));
    }

    /** A sweep with nothing in between. */
    method ReclaimStale(stale: seq<Txn>, ghost at: Txn -> int)
      requires Reached(at, Snapshot([], Free)) && stale != [] && forall t :: t in stale ==> t in pending
      modifies this, graph
      ensures Goes(at, old(Snapshot([], Free)), Snapshot([], Free), [Scan(stale), Clear, Drop])
      ensures Reached(at, Snapshot([], Free))
    {
      ghost var from := Snapshot([], Free);
      ghost var found := Next(at, from, Scan(stale));
      ghost var unhooked := Next(at, found, Clear);
      GoesOne(at, from, Scan(stale));
      GoesNext(at, from, found, [Scan(stale)], Clear);
      GoesNext(at, from, unhooked, [Scan(stale)] + [Clear], Drop);
      assert [Scan(stale)] + [Clear] + [Drop] == [Scan(stale), Clear, Drop];
      ReachedOn(at, from, Next(at, unhooked, Drop), [Scan(stale), Clear, Drop]);
      BoardHolds(at, from, 0, []);
      var i := 0;
      while i < |stale|
        invariant 0 <= i <= |stale| && WellFormed(graph.Value())
        invariant ClearedAll(graph.Value(), stale[i..]) == unhooked.board
        invariant pending == old(pending) && log == old(log)
      {
        assert stale[i..][0] == stale[i] && stale[i..][1..] == stale[i + 1..];
        graph.ClearWaits(stale[i]);
        i := i + 1;
      }
      assert stale[|stale|..] == [];
      pending := pending - (set t | t in stale);
      log := log + [Reclaimed(stale)];
      assert Snapshot([], Free) == Next(at, unhooked, Drop);
    }
  }

  // ---------------------------------------------------------------- waits in execution order

  ghost predicate WaitsOrdered(at: Txn -> int, b: Board) {
    forall v, e :: e in Succ(b.waits, v) ==> at(e) < at(v)
  }

  predicate EarlierOnly(at: Txn -> int, step: Step) {
    step.Submit? ==> forall d :: d in step.deps ==> at(d) < at(step.txn)
  }

  lemma {:induction false} RegisterAllOrdered(at: Txn -> int, b: Board, t: Txn, deps: seq<Txn>)
    requires WaitsOrdered(at, b) && forall d :: d in deps ==> at(d) < at(t)
    ensures !RegisterAll(b, t, deps).refused && WaitsOrdered(at, RegisterAll(b, t, deps).board)
    decreases |deps|
  {
    if deps != [] {
      if deps[0] !in b.applied {
        RankedAcyclic(AddEdge(b.waits, t, deps[0]), at);
        RegisterAllOrdered(at, WaitAdded(b, t, deps[0]), t, deps[1..]);
      } else {
        RegisterAllOrdered(at, b, t, deps[1..]);
      }
    }
  }

  lemma {:induction false} ClearedAllOrdered(at: Txn -> int, b: Board, txns: seq<Txn>)
    requires WaitsOrdered(at, b)
    ensures WaitsOrdered(at, ClearedAll(b, txns))
    decreases |txns|
  {
    if txns != [] {
      ClearedAllOrdered(at, Cleared(b, txns[0]), txns[1..]);
    }
  }

  lemma OrderedStep(at: Txn -> int, s: State, step: Step)
    requires WaitsOrdered(at, s.board) && Enabled(at, s, step) && EarlierOnly(at, step)
    ensures WaitsOrdered(at, Next(at, s, step).board)
  {
    if step.Submit? {
      RegisterAllOrdered(at, s.board, step.txn, step.deps);
    } else if step.Clear? {
      ClearedAllOrdered(at, s.board, s.sweep.txns);
    }
  }

  /** When every write-set lists only dependencies that execute earlier, waits follow the
      execution order in every reachable state and no submission is ever refused. */
  lemma {:induction false} EarlierWaitsNeverRefused(at: Txn -> int, s: State, steps: seq<Step>, i: nat)
    requires WaitsOrdered(at, s.board) && IsRun(at, s, steps)
    requires forall j :: 0 <= j < |steps| ==> EarlierOnly(at, steps[j])
    requires i < |steps| && steps[i].Submit?
    ensures IsRun(at, s, steps[..i])
    ensures var b := Exec(at, s, steps[..i]).board;
            WaitsOrdered(at, b) && !RegisterAll(b, steps[i].txn, steps[i].deps).refused
    decreases i
  {
    if i == 0 {
      RegisterAllOrdered(at, s.board, steps[0].txn, steps[0].deps);
    } else {
      OrderedStep(at, s, steps[0]);
      EarlierWaitsNeverRefused(at, Next(at, s, steps[0]), steps[1..], i - 1);
      assert steps[..i][1..] == steps[1..][..i - 1];
    }
  }
}
