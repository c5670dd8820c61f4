/**
 Crash-safe replacement of compaction inputs by their output: the durable replacement
 record (ferrosa-storage/src/compaction/intent.rs), the commit sequence of
 `finalize_compactions` and the startup reconciliation of ferrosa-storage/src/engine.rs.
 A state is one table directory: which generations a directory scan would find, the
 records on disk, and the set of generations reads are served from.
 */
module CompactionIntent {
  type Gen = nat
  type Task = nat

  /** `Retired` stands for itself and for the S3 phases after it: startup treats them alike. */
  datatype Phase = Promoting | SwappedIn | Retired

  datatype Record = Record(output: Gen, inputs: set<Gen>, phase: Phase)

  /** Where the task that owns a record is in its commit sequence. */
  datatype Stage = Committed | Promoted | Swapped(tried: set<Gen>, complete: bool)

  /** History of a task's output: never durable, promoted, visible but torn, swapped in. */
  datatype Fate = Idle | Pending | Torn | Done

  datatype Mode = Up(running: map<Task, Stage>) | Recovering(todo: set<Task>)

  /** `torn` holds outputs whose digest does not match their record. `served` is the live
      view; while recovering, the view served before the crash. `fate` is history that no
      step looks at. */
  datatype State = State(
    disk: set<Gen>, torn: set<Gen>, records: map<Task, Record>, served: set<Gen>,
    used: set<Gen>, tasks: set<Task>, fate: map<Task, Fate>, mode: Mode)

  const INIT: State := State({}, {}, map[], {}, {}, {}, map[], Up(map[]))

  datatype Step =
    | Flush(gen: Gen)
    | Commit(task: Task, output: Gen, inputs: set<Gen>)
    | CommitFailed(task: Task, output: Gen, inputs: set<Gen>, landed: bool)
    | Promote(task: Task)
    | PromoteFailed(task: Task, undone: bool, deleted: bool)
    | Rollback(task: Task, removed: bool, deleted: bool)
    | Swap(task: Task, logged: bool)
    | RetireInput(task: Task, gen: Gen, gone: bool, ok: bool)
    | FinishRetire(task: Task, written: bool)
    | Settle(task: Task)
    | Crash(visible: set<Task>)
    | DropRecord(task: Task, deleted: bool)
    | Quarantine(task: Task, deleted: bool)
    | RetireLeftover(task: Task, gen: Gen)
    | RollForward(task: Task, written: bool)
    | GiveUp(task: Task)
    | Open

  predicate Running(s: State, t: Task) {
    s.mode.Up? && t in s.mode.running && t in s.records
  }

  /** A compaction's inputs stay claimed until its finalization returns. */
  predicate Unclaimed(s: State, inputs: set<Gen>)
    requires s.mode.Up?
  {
    forall t :: t in s.mode.running && t in s.records ==> s.records[t].inputs !! inputs
  }

  predicate Enabled(s: State, step: Step) {
    match step
    case Flush(g) => s.mode.Up? && g !in s.used
    case Commit(t, o, inputs) =>
      s.mode.Up? && t !in s.tasks && o !in s.used && inputs != {} && inputs <= s.served && Unclaimed(s, inputs)
    case CommitFailed(t, o, inputs, _) =>
      s.mode.Up? && t !in s.tasks && o !in s.used && inputs != {} && inputs <= s.served && Unclaimed(s, inputs)
    case Promote(t) => Running(s, t) && s.mode.running[t].Committed?
    case PromoteFailed(t, _, _) => Running(s, t) && s.mode.running[t].Committed?
    case Rollback(t, _, _) => Running(s, t) && s.mode.running[t].Promoted?
    case Swap(t, _) => Running(s, t) && s.mode.running[t].Promoted? && s.records[t].inputs <= s.served
    case RetireInput(t, g, gone, ok) =>
      Running(s, t) && s.mode.running[t].Swapped? && g in s.records[t].inputs - s.mode.running[t].tried && (ok ==> gone)
    case FinishRetire(t, _) =>
      Running(s, t) && s.mode.running[t].Swapped? && s.mode.running[t].tried == s.records[t].inputs
    case Settle(t) => s.mode.Up? && t !in s.mode.running && t in s.records && s.records[t].phase.Retired?
    case Crash(visible) => s.mode.Up? ==> forall t :: t in visible ==> Running(s, t) && s.mode.running[t].Committed?
    case DropRecord(t, _) => s.mode.Recovering? && t in s.mode.todo && t in s.records && s.records[t].output !in s.disk
    case Quarantine(t, _) =>
      s.mode.Recovering? && t in s.mode.todo && t in s.records && s.records[t].output in s.disk * s.torn
    case RetireLeftover(t, g) =>
      s.mode.Recovering? && t in s.mode.todo && t in s.records && s.records[t].output in s.disk - s.torn
      && g in s.records[t].inputs
    case RollForward(t, _) =>
      s.mode.Recovering? && t in s.mode.todo && t in s.records && s.records[t].output in s.disk - s.torn
      && s.records[t].inputs !! s.disk
    case GiveUp(t) => s.mode.Recovering? && t in s.mode.todo
    case Open => s.mode.Recovering? && s.mode.todo == {}
  }

  function Erase(records: map<Task, Record>, t: Task, deleted: bool): map<Task, Record> {
    if deleted then records - {t} else records
  }

  function Advance(records: map<Task, Record>, t: Task, phase: Phase, written: bool): map<Task, Record>
    requires t in records
  {
    if written then records[t := records[t].(phase := phase)] else records
  }

  function Next(s: State, step: Step): State
    requires Enabled(s, step)
  {
    match step
    case Flush(g) => s.(disk := s.disk + {g}, served := s.served + {g}, used := s.used + {g})
    case Commit(t, o, inputs) =>
      s.(records := s.records[t := Record(o, inputs, Promoting)], used := s.used + {o}, tasks := s.tasks + {t},
         fate := s.fate[t := Idle], mode := Up(s.mode.running[t := Committed]))
    case CommitFailed(t, o, inputs, landed) =>
      s.(records := if landed then s.records[t := Record(o, inputs, Promoting)] else s.records,
         used := s.used + {o}, tasks := s.tasks + {t}, fate := s.fate[t := Idle])
    case Promote(t) =>
      s.(disk := s.disk + {s.records[t].output}, fate := s.fate[t := Pending],
         mode := Up(s.mode.running[t := Promoted]))
    case PromoteFailed(t, undone, deleted) =>
      s.(disk := if undone then s.disk else s.disk + {s.records[t].output},
         records := Erase(s.records, t, deleted), mode := Up(s.mode.running - {t}))
    case Rollback(t, removed, deleted) =>
      s.(disk := if removed then s.disk - {s.records[t].output} else s.disk,
         records := Erase(s.records, t, deleted), fate := s.fate[t := Idle], mode := Up(s.mode.running - {t}))
    case Swap(t, logged) =>
      s.(served := s.served - s.records[t].inputs + {s.records[t].output},
         records := Advance(s.records, t, SwappedIn, logged), fate := s.fate[t := Done],
         mode := Up(s.mode.running[t := Swapped({}, true)]))
    case RetireInput(t, g, gone, ok) =>
      s.(disk := if gone then s.disk - {g} else s.disk,
         mode := Up(s.mode.running[t := Swapped(s.mode.running[t].tried + {g}, s.mode.running[t].complete && ok)]))
    case FinishRetire(t, written) =>
      s.(records := Advance(s.records, t, Retired, s.mode.running[t].complete && written),
         mode := Up(s.mode.running - {t}))
    case Settle(t) => s.(records := s.records - {t})
    case Crash(visible) =>
      var shown := if s.mode.Up? then set t | t in visible && t in s.records :: s.records[t].output else {};
      s.(disk := s.disk + shown, torn := s.torn + shown,
         fate := map t | t in s.fate :: if s.mode.Up? && t in visible then Torn else s.fate[t],
         mode := Recovering(s.records.Keys))
    case DropRecord(t, deleted) => s.(records := Erase(s.records, t, deleted), mode := Recovering(s.mode.todo - {t}))
    case Quarantine(t, deleted) =>
      s.(disk := s.disk - {s.records[t].output}, records := Erase(s.records, t, deleted),
         fate := s.fate[t := Idle], mode := Recovering(s.mode.todo - {t}))
    case RetireLeftover(t, g) => s.(disk := s.disk - {g})
    case RollForward(t, written) =>
      s.(records := Advance(s.records, t, Retired, written), mode := Recovering(s.mode.todo - {t}))
    case GiveUp(t) => s.(mode := Recovering(s.mode.todo - {t}))
    case Open =>
      s.(served := s.disk, fate := map t | t in s.fate :: if s.fate[t].Pending? then Done else s.fate[t],
         mode := Up(map[]))
  }

  ghost predicate IsRun(s: State, steps: seq<Step>)
    decreases |steps|
  {
    steps == [] || (Enabled(s, steps[0]) && IsRun(Next(s, steps[0]), steps[1..]))
  }

  ghost function Exec(s: State, steps: seq<Step>): State
    requires IsRun(s, steps)
    decreases |steps|
  {
    if steps == [] then s else Exec(Next(s, steps[0]), steps[1..])
  }

  // ---------------------------------------------------------------- what recovery promises

  /** Promoted but never swapped in: recovery completes the replacement. */
  predicate InFlight(s: State, t: Task) {
    && t in s.records
    && s.records[t].output in s.disk - s.torn - s.served
    && s.records[t].inputs <= s.served
  }

  function InFlights(s: State): set<Task> { set t | t in s.records && InFlight(s, t) }

  function Inputs(records: map<Task, Record>, ts: set<Task>): set<Gen>
    requires ts <= records.Keys
  {
    set t, g | t in ts && g in records[t].inputs :: g
  }

  function Outputs(records: map<Task, Record>, ts: set<Task>): set<Gen>
    requires ts <= records.Keys
  {
    set t | t in ts :: records[t].output
  }

  /** The view with the replacements `ts` carried out. */
  function Rolled(view: set<Gen>, records: map<Task, Record>, ts: set<Task>): set<Gen>
    requires ts <= records.Keys
  {
    view - Inputs(records, ts) + Outputs(records, ts)
  }

  /** What a directory scan finds is the view served before the crash, with every
      promoted output in place of all its inputs and nothing else changed. */
  predicate Whole(s: State) {
    s.disk == Rolled(s.served, s.records, InFlights(s))
  }

  /** No record has its output on disk next to one of its inputs, and no torn output is left. */
  predicate Clean(s: State) {
    forall t :: t in s.records && s.records[t].output in s.disk ==>
      s.records[t].output !in s.torn && s.records[t].inputs !! s.disk
  }

  /** The steps a maintainer has to rule out: compacting an output one of whose own inputs
      is still on disk, rolling back without removing the output, and opening past a failed
      recovery. */
  predicate Guarded(s: State, step: Step) {
    match step
    case Commit(_, _, inputs) =>
      forall t :: t in s.records && s.records[t].output in inputs ==> s.records[t].inputs !! s.disk
    case Rollback(_, removed, _) => removed
    case PromoteFailed(_, undone, _) => undone
    case Open => Clean(s)
    case _ => true
  }

  ghost predicate GuardedRun(s: State, steps: seq<Step>)
    requires IsRun(s, steps)
    decreases |steps|
  {
    steps == [] || (Guarded(s, steps[0]) && GuardedRun(Next(s, steps[0]), steps[1..]))
  }

  // ---------------------------------------------------------------- invariant

  predicate Global(s: State) {
    && s.disk <= s.used && s.served <= s.used && s.torn <= s.used && s.torn !! s.served
    && s.records.Keys <= s.tasks && s.records.Keys <= s.fate.Keys <= s.tasks
    && (s.mode.Up? ==> s.mode.running.Keys <= s.records.Keys)
  }

  /** Promoted but not swapped in, or about to be promoted. */
  predicate Active(s: State, t: Task)
    requires t in s.fate
  {
    s.fate[t].Pending? || (s.fate[t].Idle? && Running(s, t))
  }

  predicate StageHolds(s: State, t: Task)
    requires t in s.records && t in s.fate
  {
    var r := s.records[t];
    match s.mode
    case Recovering(_) => true
    case Up(running) =>
      if t !in running then !s.fate[t].Pending? && !s.fate[t].Torn?
      else
        match running[t]
        case Committed => s.fate[t].Idle? && r.phase.Promoting? && r.inputs <= s.served && r.output !in s.torn
        case Promoted => s.fate[t].Pending? && r.phase.Promoting?
        case Swapped(tried, complete) =>
          s.fate[t].Done? && !r.phase.Retired? && tried <= r.inputs && (complete ==> tried !! s.disk)
  }

  predicate Good(s: State, t: Task)
    requires t in s.records && t in s.fate
  {
    var r := s.records[t];
    && r.output in s.used && r.inputs <= s.used && r.output !in r.inputs && r.inputs != {} && r.inputs !! s.torn
    && StageHolds(s, t)
    && match s.fate[t]
       case Idle => r.output !in s.disk && r.output !in s.served
       case Pending => r.output in s.disk - s.torn - s.served && r.inputs <= s.served
       case Torn => r.output in s.disk * s.torn && r.inputs <= s.served
       case Done =>
         && r.inputs !! s.served && r.output !in s.torn
         && (r.inputs !! s.disk || (!r.phase.Retired? && r.output in s.served))
  }

  predicate Apart(s: State, t: Task, u: Task)
    requires t in s.records && u in s.records && t in s.fate && u in s.fate
  {
    && s.records[t].output != s.records[u].output
    && (Active(s, u) || s.fate[u].Torn? ==> s.records[u].output !in s.records[t].inputs)
    && (Active(s, t) && Active(s, u) ==> s.records[t].inputs !! s.records[u].inputs)
    && (s.fate[t].Done? && s.fate[u].Done? ==> s.records[t].inputs !! s.records[u].inputs)
    && (s.fate[t].Done? && Active(s, u) && s.records[t].output in s.records[u].inputs ==> s.records[t].inputs !! s.disk)
  }

  /** Why `t` accounts for a generation being on disk outside the view, or the reverse. */
  predicate Explains(s: State, t: Task, g: Gen) {
    t in s.records && t in s.fate &&
    if g in s.served then s.mode.Recovering? && s.fate[t].Pending? && g in s.records[t].inputs
    else match s.fate[t]
      case Idle => false
      case Pending => s.records[t].output == g
      case Torn => s.records[t].output == g
      case Done => g in s.records[t].inputs
  }

  ghost predicate Accounted(s: State, g: Gen) {
    (g in s.served <==> g in s.disk) || exists t :: Explains(s, t, g)
  }

  ghost predicate Inv(s: State) {
    && Global(s)
    && (forall t :: t in s.records ==> Good(s, t))
    && (forall t, u :: t in s.records && u in s.records && t != u ==> Apart(s, t, u))
    && (forall g :: Accounted(s, g))
  }

  // ---------------------------------------------------------------- every guarded step keeps it

  /** The steps of a task's own commit sequence. */
  predicate Committing(step: Step) {
    step.Commit? || step.CommitFailed? || step.Promote? || step.PromoteFailed? || step.Rollback? || step.Swap?
  }

  lemma GoodWhileCommitting(s: State, step: Step, t: Task)
    requires Inv(s) && Enabled(s, step) && Guarded(s, step) && Committing(step)
    requires t in Next(s, step).records && t in Next(s, step).fate
    ensures Good(Next(s, step), t)
  {
    if t in s.records {
      assert Good(s, t);
      if step.task in s.records {
        assert Good(s, step.task);
        assert t != step.task ==> Apart(s, t, step.task) && Apart(s, step.task, t);
      }
    }
  }

  lemma GoodInCrash(s: State, step: Step, t: Task)
    requires Inv(s) && Enabled(s, step) && step.Crash? && t in s.records
    ensures Good(Next(s, step), t)
  {
    assert Good(s, t);
    assert forall u :: u in step.visible && u in s.records && u != t ==> Apart(s, t, u);
    assert forall u :: u in step.visible && u in s.records ==> Good(s, u);
  }

  lemma GoodOtherwise(s: State, step: Step, t: Task)
    requires Inv(s) && Enabled(s, step) && !Committing(step) && !step.Crash? && !step.Open?
    requires t in Next(s, step).records && t in Next(s, step).fate
    ensures Good(Next(s, step), t)
  {
    assert Good(s, t);
    if !step.Flush? && step.task in s.records {
      assert Good(s, step.task);
      assert t != step.task ==> Apart(s, t, step.task) && Apart(s, step.task, t);
    }
  }

  lemma GoodKept(s: State, step: Step, t: Task)
    requires Inv(s) && Enabled(s, step) && Guarded(s, step) && !step.Open?
    requires t in Next(s, step).records && t in Next(s, step).fate
    ensures Good(Next(s, step), t)
  {
    if Committing(step) {
      GoodWhileCommitting(s, step, t);
    } else if step.Crash? {
      GoodInCrash(s, step, t);
    } else {
      GoodOtherwise(s, step, t);
    }
  }

  lemma ApartWhileCommitting(s: State, step: Step, t: Task, u: Task)
    requires Inv(s) && Enabled(s, step) && Guarded(s, step) && Committing(step) && t != u
    requires t in Next(s, step).records && t in Next(s, step).fate
    requires u in Next(s, step).records && u in Next(s, step).fate
    ensures Apart(Next(s, step), t, u)
  {
    if t in s.records {
      assert Good(s, t);
    }
    if u in s.records {
      assert Good(s, u);
    }
    if t in s.records && u in s.records {
      assert Apart(s, t, u);
    }
  }

  lemma ApartOtherwise(s: State, step: Step, t: Task, u: Task)
    requires Inv(s) && Enabled(s, step) && !Committing(step) && !step.Open? && t != u
    requires t in Next(s, step).records && t in Next(s, step).fate
    requires u in Next(s, step).records && u in Next(s, step).fate
    ensures Apart(Next(s, step), t, u)
  {
    assert Good(s, t) && Good(s, u) && Apart(s, t, u);
  }

  lemma ApartKept(s: State, step: Step, t: Task, u: Task)
    requires Inv(s) && Enabled(s, step) && Guarded(s, step) && !step.Open? && t != u
    requires t in Next(s, step).records && t in Next(s, step).fate
    requires u in Next(s, step).records && u in Next(s, step).fate
    ensures Apart(Next(s, step), t, u)
  {
    if Committing(step) {
      ApartWhileCommitting(s, step, t, u);
    } else {
      ApartOtherwise(s, step, t, u);
    }
  }

  /** The output of an unfinished replacement is still on disk. */
  lemma UnretiredOutputOnDisk(s: State, t: Task)
    requires Inv(s) && t in s.records && s.fate[t].Done? && !(s.records[t].inputs !! s.disk)
    ensures s.records[t].output in s.disk
  {
    var o := s.records[t].output;
    assert Good(s, t) && Accounted(s, o);
    assert forall u :: u in s.records && u != t ==> Apart(s, t, u);
    assert forall u :: !Explains(s, u, o);
  }

  lemma AccountedKept(s: State, step: Step, g: Gen)
    requires Inv(s) && Enabled(s, step) && Guarded(s, step) && !step.Open?
    ensures Accounted(Next(s, step), g)
  {
    var n := Next(s, step);
    if g in s.served <==> g in s.disk {
      ChangedAccounted(s, step, g);
    } else {
      assert Accounted(s, g);
      var t :| Explains(s, t, g);
      assert Good(s, t);
      if !step.Flush? && !step.Crash? && step.task in s.records {
        assert Good(s, step.task);
        assert t != step.task ==> Apart(s, t, step.task) && Apart(s, step.task, t);
      }
      if step.DropRecord? && t == step.task && s.fate[t].Done? && !(s.records[t].inputs !! s.disk) {
        UnretiredOutputOnDisk(s, t);
      }
      assert (g in n.served <==> g in n.disk) || Explains(n, t, g);
    }
  }

  lemma ChangedAccounted(s: State, step: Step, g: Gen)
    requires Inv(s) && Enabled(s, step) && Guarded(s, step) && !step.Open?
    requires g in s.served <==> g in s.disk
    ensures Accounted(Next(s, step), g)
  {
    var n := Next(s, step);
    if step.Crash? {
      if g in n.disk && g !in s.disk {
        var t :| t in step.visible && t in s.records && s.records[t].output == g;
        assert Good(s, t);
        assert Explains(n, t, g);
      }
    } else if !step.Flush? && step.task in s.records {
      assert Good(s, step.task);
      assert (g in n.served <==> g in n.disk) || Explains(n, step.task, g);
    }
  }

  lemma OpenKeeps(s: State)
    requires Inv(s) && Enabled(s, Open) && Clean(s)
    ensures Inv(Next(s, Open))
  {
    var n := Next(s, Open);
    assert s.torn !! s.disk by {
      forall g | g in s.disk && g !in s.served ensures g !in s.torn { CleanKeepsNoTorn(s, g); }
    }
    forall t | t in n.records ensures Good(n, t) { OpenGood(s, t); }
    forall t, u | t in n.records && u in n.records && t != u ensures Apart(n, t, u) {
      assert Apart(s, t, u) && Good(s, t) && Good(s, u);
    }
  }

  lemma CleanKeepsNoTorn(s: State, g: Gen)
    requires Inv(s) && Clean(s) && g in s.disk && g !in s.served
    ensures g !in s.torn
  {
    assert Accounted(s, g);
    var t :| Explains(s, t, g);
    assert Good(s, t);
  }

  lemma OpenGood(s: State, t: Task)
    requires Inv(s) && Enabled(s, Open) && Clean(s) && t in s.records && s.torn !! s.disk
    ensures Good(Next(s, Open), t)
  {
    assert Good(s, t);
    if s.fate[t].Done? && !(s.records[t].inputs !! s.disk) {
      UnretiredOutputOnDisk(s, t);
    }
  }

  lemma StepKeeps(s: State, step: Step)
    requires Inv(s) && Enabled(s, step) && Guarded(s, step)
    ensures Inv(Next(s, step))
  {
    if step.Open? {
      OpenKeeps(s);
    } else {
      var n := Next(s, step);
      forall t | t in n.records ensures t in n.fate && Good(n, t) { GoodKept(s, step, t); }
      forall t, u | t in n.records && u in n.records && t != u ensures Apart(n, t, u) { ApartKept(s, step, t, u); }
      forall g ensures Accounted(n, g) { AccountedKept(s, step, g); }
      GlobalKept(s, step);
    }
  }

  lemma GlobalKept(s: State, step: Step)
    requires Inv(s) && Enabled(s, step) && !step.Open?
    ensures Global(Next(s, step))
  {
    if step.Crash? {
      assert forall t :: t in s.records ==> Good(s, t);
    } else if !step.Flush? && step.task in s.records {
      assert Good(s, step.task);
    }
  }

  lemma {:induction false} RunKeeps(s: State, steps: seq<Step>)
    requires Inv(s) && IsRun(s, steps) && GuardedRun(s, steps)
    ensures Inv(Exec(s, steps))
    decreases |steps|
  {
    if steps != [] {
      StepKeeps(s, steps[0]);
      RunKeeps(Next(s, steps[0]), steps[1..]);
    }
  }

  // ---------------------------------------------------------------- exactly one of inputs and output

  lemma FateInFlight(s: State, t: Task)
    requires Inv(s) && t in s.records
    ensures InFlight(s, t) <==> s.fate[t].Pending?
  {
    assert Good(s, t);
    var g :| g in s.records[t].inputs;
    assert s.fate[t].Done? ==> g !in s.served;
  }

  lemma CleanIsWhole(s: State, g: Gen)
    requires Inv(s) && s.mode.Recovering? && Clean(s)
    ensures g in s.disk <==> g in Rolled(s.served, s.records, InFlights(s))
  {
    assert Accounted(s, g);
    forall t | t in s.records ensures Good(s, t) && (InFlight(s, t) <==> s.fate[t].Pending?) {
      FateInFlight(s, t);
    }
    forall t | t in s.records && s.fate[t].Done? ensures s.records[t].inputs !! s.disk {
      if !(s.records[t].inputs !! s.disk) {
        UnretiredOutputOnDisk(s, t);
      }
    }
  }

  lemma WholeIsClean(s: State, t: Task)
    requires Inv(s) && s.mode.Recovering? && Whole(s) && t in s.records && s.records[t].output in s.disk
    ensures s.records[t].output !in s.torn && s.records[t].inputs !! s.disk
  {
    assert Good(s, t);
    forall u | u in s.records
      ensures InFlight(s, u) <==> s.fate[u].Pending?
      ensures u != t ==> Apart(s, t, u)
    {
      FateInFlight(s, u);
    }
  }

  /** After any guarded run of flushes, compactions, crashes and half-done recoveries, a
      scan of the directory finds exactly one of {all inputs, output} of every compaction
      if and only if no record has its output next to one of its inputs, or torn. */
  lemma ReopensWhole(steps: seq<Step>)
    requires IsRun(INIT, steps) && GuardedRun(INIT, steps) && Exec(INIT, steps).mode.Recovering?
    ensures Whole(Exec(INIT, steps)) <==> Clean(Exec(INIT, steps))
  {
    InitHolds();
    RunKeeps(INIT, steps);
    var s := Exec(INIT, steps);
    if Clean(s) {
      forall g ensures g in s.disk <==> g in Rolled(s.served, s.records, InFlights(s)) { CleanIsWhole(s, g); }
    }
    if Whole(s) {
      forall t | t in s.records && s.records[t].output in s.disk
        ensures s.records[t].output !in s.torn && s.records[t].inputs !! s.disk
      {
        WholeIsClean(s, t);
      }
    }
  }

  lemma InitHolds()
    ensures Inv(INIT)
  {
  }

  // ---------------------------------------------------------------- merged contents

  function Replace(view: set<Gen>, r: Record): set<Gen> { view - r.inputs + {r.output} }

  /** Carrying out `t` after `ts` does not change what the view reads as. */
  ghost predicate Faithful<R>(read: set<Gen> -> R, view: set<Gen>, records: map<Task, Record>, ts: set<Task>, t: Task)
    requires ts + {t} <= records.Keys
  {
    read(Rolled(view, records, ts + {t})) == read(Rolled(view, records, ts))
  }

  ghost predicate Compatible(view: set<Gen>, records: map<Task, Record>, ts: set<Task>)
    requires ts <= records.Keys
  {
    && (forall t :: t in ts ==> records[t].inputs <= view && records[t].output !in view)
    && (forall t, u :: t in ts && u in ts && t != u ==>
          records[t].inputs !! records[u].inputs && records[t].output != records[u].output)
  }

  lemma {:induction false} RolledReadsSame<R>(read: set<Gen> -> R, view: set<Gen>, records: map<Task, Record>,
        ts: set<Task>)
    requires ts <= records.Keys
    requires forall t, us :: t in ts && us <= ts - {t} ==> Faithful(read, view, records, us, t)
    ensures read(Rolled(view, records, ts)) == read(view)
    decreases |ts|
  {
    if ts == {} {
      assert Rolled(view, records, ts) == view;
    } else {
      var t :| t in ts;
      var rest := ts - {t};
      RolledReadsSame(read, view, records, rest);
      assert Faithful(read, view, records, rest, t);
      assert rest + {t} == ts;
    }
  }

  lemma RolledOneMore(view: set<Gen>, records: map<Task, Record>, rest: set<Task>, t: Task)
    requires rest + {t} <= records.Keys && t !in rest && Compatible(view, records, rest + {t})
    ensures records[t].inputs <= Rolled(view, records, rest) && records[t].output !in Rolled(view, records, rest)
    ensures Rolled(view, records, rest + {t}) == Replace(Rolled(view, records, rest), records[t])
  {
    assert Inputs(records, rest + {t}) == Inputs(records, rest) + records[t].inputs;
    assert Outputs(records, rest + {t}) == Outputs(records, rest) + {records[t].output};
    var all := rest + {t};
    assert forall u :: u in rest ==> u in all && records[u].output !in records[t].inputs;
  }

  /** What the table reads as after a clean recovery is what it read as before the crash,
      when each replacement that recovery completed is faithful where it was made. */
  lemma RecoveryReadsSame<R>(read: set<Gen> -> R, steps: seq<Step>)
    requires IsRun(INIT, steps) && GuardedRun(INIT, steps)
    requires var s := Exec(INIT, steps);
             && s.mode.Recovering? && Clean(s)
             && forall t, ts :: t in InFlights(s) && ts <= InFlights(s) - {t} ==>
                  Faithful(read, s.served, s.records, ts, t)
    ensures var s := Exec(INIT, steps); read(s.disk) == read(s.served)
  {
    ReopensWhole(steps);
    var s := Exec(INIT, steps);
    RolledReadsSame(read, s.served, s.records, InFlights(s));
  }

  lemma InFlightsCompatible(s: State)
    requires Inv(s)
    ensures Compatible(s.served, s.records, InFlights(s)) && Outputs(s.records, InFlights(s)) <= s.used
  {
    forall t | t in InFlights(s) ensures s.fate[t].Pending? && Good(s, t) { FateInFlight(s, t); }
    forall t, u | t in InFlights(s) && u in InFlights(s) && t != u
      ensures s.records[t].inputs !! s.records[u].inputs && s.records[t].output != s.records[u].output
    {
      assert Apart(s, t, u);
    }
  }

  // ---------------------------------------------------------------- recovery that finishes

  /** Every record the recovery has dealt with is clean. */
  predicate Dealt(s: State, t: Task) {
    t in s.records && s.records[t].output in s.disk ==>
      s.records[t].output !in s.torn && s.records[t].inputs !! s.disk
  }

  ghost predicate DealtWith(s: State) {
    s.mode.Recovering? && forall t :: t !in s.mode.todo ==> Dealt(s, t)
  }

  predicate Recovers(step: Step) {
    step.Crash? || step.DropRecord? || step.Quarantine? || step.RetireLeftover? || step.RollForward?
  }

  lemma DealtStep(s: State, step: Step)
    requires DealtWith(s) && Enabled(s, step) && Recovers(step)
    ensures DealtWith(Next(s, step))
  {
    var n := Next(s, step);
    forall t | t !in n.mode.todo ensures Dealt(n, t) {
      if t !in s.mode.todo {
        assert Dealt(s, t);
      }
    }
  }

  lemma {:induction false} DealtRun(s: State, steps: seq<Step>)
    requires DealtWith(s) && IsRun(s, steps) && forall i :: 0 <= i < |steps| ==> Recovers(steps[i])
    ensures DealtWith(Exec(s, steps))
    decreases |steps|
  {
    if steps != [] {
      DealtStep(s, steps[0]);
      DealtRun(Next(s, steps[0]), steps[1..]);
    }
  }

  /** However often recovery itself crashes, once it has gone through every record without
      giving one up, the directory is clean. */
  lemma RecoveryCleans(s: State, steps: seq<Step>)
    requires s.mode == Recovering(s.records.Keys) && IsRun(s, steps)
    requires Exec(s, steps).mode == Recovering({}) && forall i :: 0 <= i < |steps| ==> Recovers(steps[i])
    ensures Clean(Exec(s, steps))
  {
    DealtRun(s, steps);
    var end := Exec(s, steps);
    assert forall t :: t in end.records ==> Dealt(end, t);
  }

  /** What reconciling one record comes to when the generations `stuck` cannot be retired. */
  function Reconciled(s: State, t: Task, stuck: set<Gen>): State
    requires s.mode.Recovering? && t in s.mode.todo && t in s.records
  {
    var r := s.records[t];
    var todo := Recovering(s.mode.todo - {t});
    if r.output !in s.disk then s.(records := s.records - {t}, mode := todo)
    else if r.output in s.torn then
      s.(disk := s.disk - {r.output}, records := s.records - {t}, fate := s.fate[t := Idle], mode := todo)
    else if r.inputs !! stuck then
      s.(disk := s.disk - r.inputs, records := s.records[t := r.(phase := Retired)], mode := todo)
    else s.(disk := s.disk - (r.inputs - stuck), mode := todo)
  }

  lemma {:induction false} RetireRun(s: State, t: Task, gs: set<Gen>) returns (steps: seq<Step>)
    requires s.mode.Recovering? && t in s.mode.todo && t in s.records
    requires s.records[t].output in s.disk - s.torn && gs <= s.records[t].inputs && s.records[t].output !in gs
    ensures IsRun(s, steps) && Exec(s, steps) == s.(disk := s.disk - gs)
    ensures forall i :: 0 <= i < |steps| ==> Recovers(steps[i])
    decreases gs
  {
    if gs == {} {
      steps := [];
      assert s.disk - gs == s.disk;
    } else {
      var g :| g in gs;
      var n := Next(s, RetireLeftover(t, g));
      var rest := RetireRun(n, t, gs - {g});
      steps := [RetireLeftover(t, g)] + rest;
      assert steps[1..] == rest;
      assert s.disk - {g} - (gs - {g}) == s.disk - gs;
    }
  }

  /** Reconciling a record is a run of recovery steps; it gives the record up only when an
      input could not be retired. */
  lemma ReconciledIsRun(s: State, t: Task, stuck: set<Gen>) returns (steps: seq<Step>)
    requires s.mode.Recovering? && t in s.mode.todo && t in s.records && s.records[t].output !in s.records[t].inputs
    ensures IsRun(s, steps) && Exec(s, steps) == Reconciled(s, t, stuck)
    ensures s.records[t].inputs !! stuck ==> forall i :: 0 <= i < |steps| ==> Recovers(steps[i])
  {
    var r := s.records[t];
    var before, last := [], GiveUp(t);
    if r.output !in s.disk {
      last := DropRecord(t, true);
    } else if r.output in s.torn {
      last := Quarantine(t, true);
    } else {
      before := RetireRun(s, t, r.inputs - stuck);
      if r.inputs !! stuck {
        last := RollForward(t, true);
        assert r.inputs - stuck == r.inputs;
      }
    }
    RunSnoc(s, before, last);
    steps := before + [last];
  }

  /** The table directory as startup sees it. */
  class Directory {
    var disk: set<Gen>
    var records: map<Task, Record>
    const torn: set<Gen>

    constructor (disk: set<Gen>, torn: set<Gen>, records: map<Task, Record>)
      ensures this.disk == disk && this.torn == torn && this.records == records
    {
      this.disk, this.torn, this.records := disk, torn, records;
    }

    ghost predicate Shows(s: State)
      reads this
    {
      disk == s.disk && records == s.records && torn == s.torn
    }

    method RetireAll(inputs: set<Gen>, stuck: set<Gen>) returns (complete: bool)
      modifies this`disk
      ensures disk == old(disk) - (inputs - stuck)
      ensures complete <==> inputs !! stuck
    {
      complete := true;
      var left := inputs;
      while left != {}
        invariant left <= inputs
        invariant disk == old(disk) - ((inputs - left) - stuck)
        invariant complete <==> (inputs - left) !! stuck
        decreases left
      {
        var g :| g in left;
        left := left - {g};
        if g in stuck {
          complete := false;
        } else {
          disk := disk - {g};
        }
      }
    }

    method Reconcile(t: Task, stuck: set<Gen>, ghost s: State)
      requires Shows(s) && s.mode.Recovering? && t in s.mode.todo && t in records
      modifies this
      ensures Shows(Reconciled(s, t, stuck))
    {
      var r := records[t];
      if r.output !in disk {
        records := records - {t};
        return;
      }
      if r.output in torn {
        disk := disk - {r.output};
        records := records - {t};
        return;
      }
      var complete := RetireAll(r.inputs, stuck);
      if complete {
        assert r.inputs - stuck == r.inputs;
        records := records[t := r.(phase := Retired)];
      }
    }

    /** Going through the records in any order leaves the directory clean when every
        retirement succeeds. */
    method ReconcileAll(ghost s: State) returns (ghost end: State)
      requires Shows(s) && s.mode == Recovering(records.Keys)
      requires forall t :: t in records ==> records[t].output !in records[t].inputs
      modifies this
      ensures Shows(end) && Enabled(end, Open) && Clean(end)
      ensures exists steps :: IsRun(s, steps) && Exec(s, steps) == end
    {
      end := s;
      var todo := records.Keys;
      ghost var run: seq<Step> := [];
      while todo != {}
        invariant Shows(end) && end.mode == Recovering(todo) && todo <= records.Keys
        invariant IsRun(s, run) && Exec(s, run) == end && DealtWith(end)
        invariant forall t :: t in records ==> records[t].output !in records[t].inputs
        decreases todo
      {
        var t :| t in todo;
        ghost var steps := ReconciledIsRun(end, t, {});
        Reconcile(t, {}, end);
        DealtRun(end, steps);
        RunJoin(s, run, steps);
        run := run + steps;
        end := Reconciled(end, t, {});
        todo := todo - {t};
      }
      assert forall t :: t in end.records ==> Dealt(end, t);
    }
  }

  lemma {:induction false} RunJoin(s: State, first: seq<Step>, second: seq<Step>)
    requires IsRun(s, first) && IsRun(Exec(s, first), second)
    ensures IsRun(s, first + second) && Exec(s, first + second) == Exec(Exec(s, first), second)
    decreases |first|
  {
    if first == [] {
      assert first + second == second;
    } else {
      RunJoin(Next(s, first[0]), first[1..], second);
      assert (first + second)[1..] == first[1..] + second;
    }
  }

  // ---------------------------------------------------------------- what the guards rule out

  /** Generation and task ids are never reused. */
  ghost predicate Named(s: State) {
    && s.disk <= s.used && s.served <= s.used && s.records.Keys <= s.tasks
    && (forall t :: t in s.records ==> s.records[t].output in s.used && s.records[t].inputs <= s.used)
    && (forall t, u :: t in s.records && u in s.records && s.records[t].output == s.records[u].output ==> t == u)
  }

  /** `x` has left the view and no task will put it back. */
  predicate Spent(s: State, x: Gen) {
    x !in s.served && forall u :: u in s.records && s.records[u].output == x ==> !Running(s, u)
  }

  /** `t` will never again touch `g`, nor give a reason for it to be there. */
  ghost predicate Harmless(s: State, t: Task, g: Gen)
    requires t in s.records
  {
    var r := s.records[t];
    && (r.output == g ==> g !in s.torn && !Running(s, t) && exists x :: x in r.inputs && Spent(s, x))
    && (g in r.inputs ==> r.output !in s.disk && !Running(s, t))
  }

  /** On disk, outside the view, and no record will ever take it away. */
  ghost predicate Orphan(s: State, g: Gen) {
    Named(s) && g in s.disk && g !in s.served && forall t :: t in s.records ==> Harmless(s, t, g)
  }

  lemma NamedStays(s: State, step: Step)
    requires Named(s) && Enabled(s, step) && !step.Open?
    ensures Named(Next(s, step))
  {
  }

  lemma SpentStays(s: State, step: Step, x: Gen)
    requires Named(s) && Enabled(s, step) && !step.Open? && x in s.used && Spent(s, x)
    ensures Spent(Next(s, step), x)
  {
  }

  lemma HarmlessStays(s: State, step: Step, g: Gen, t: Task)
    requires Orphan(s, g) && Enabled(s, step) && !step.Open? && t in s.records && t in Next(s, step).records
    ensures Harmless(Next(s, step), t, g)
  {
    assert Harmless(s, t, g);
    if s.records[t].output == g {
      var x :| x in s.records[t].inputs && Spent(s, x);
      SpentStays(s, step, x);
    }
  }

  lemma OrphanStays(s: State, step: Step, g: Gen)
    requires Orphan(s, g) && Enabled(s, step) && !step.Open?
    ensures Orphan(Next(s, step), g)
  {
    NamedStays(s, step);
    var n := Next(s, step);
    forall t | t in n.records ensures Harmless(n, t, g) {
      if t in s.records {
        HarmlessStays(s, step, g, t);
      }
    }
    if !step.Flush? && !step.Crash? && step.task in s.records {
      assert Harmless(s, step.task, g);
    }
  }

  /** Whatever happens next, an orphan is still there when the table reopens, so the view
      then served is not the one served before. */
  lemma {:induction false} OrphanReturns(s: State, steps: seq<Step>, g: Gen)
    requires Orphan(s, g) && IsRun(s, steps) && forall i :: 0 <= i < |steps| ==> !steps[i].Open?
    ensures var end := Exec(s, steps); g in end.disk && g !in end.served && !Whole(end)
    decreases |steps|
  {
    if steps == [] {
      assert forall t :: t in InFlights(s) ==> Harmless(s, t, g);
    } else {
      OrphanStays(s, steps[0], g);
      OrphanReturns(Next(s, steps[0]), steps[1..], g);
    }
  }

  lemma InvNamed(s: State)
    requires Inv(s)
    ensures Named(s)
  {
    assert forall t :: t in s.records ==> Good(s, t);
    forall t, u | t in s.records && u in s.records && t != u
      ensures s.records[t].output != s.records[u].output
    {
      assert Apart(s, t, u);
    }
  }

  /** Under the invariant there is no orphan. */
  lemma NoOrphans(s: State, g: Gen)
    requires Inv(s)
    ensures !Orphan(s, g)
  {
    if Orphan(s, g) {
      assert Accounted(s, g);
      var t :| Explains(s, t, g);
      assert Good(s, t) && Harmless(s, t, g);
      if s.fate[t].Done? {
        UnretiredOutputOnDisk(s, t);
      }
    }
  }

  /** After `s`, guarded steps never come to an orphan. */
  ghost predicate OrphanFree(s: State) {
    forall steps, g :: IsRun(s, steps) && GuardedRun(s, steps) ==> !Orphan(Exec(s, steps), g)
  }

  /** The guards are exact: short of opening, a step is guarded if and only if guarded steps
      after it never lead to an orphan. */
  lemma GuardExactly(s: State, step: Step)
    requires Inv(s) && Enabled(s, step) && !step.Open?
    ensures Guarded(s, step) <==> OrphanFree(Next(s, step))
  {
    var n := Next(s, step);
    if Guarded(s, step) {
      StepKeeps(s, step);
      forall steps, g | IsRun(n, steps) && GuardedRun(n, steps) ensures !Orphan(Exec(n, steps), g) {
        RunKeeps(n, steps);
        NoOrphans(Exec(n, steps), g);
      }
    } else if step.Commit? {
      var a, g :| a in s.records && s.records[a].output in step.inputs && g in s.records[a].inputs && g in s.disk;
      var steps := ConsumingOrphans(s, step, a, g);
    } else if step.deleted {
      RollbackOrphans(s, step);
      assert IsRun(n, []) && GuardedRun(n, []) && Exec(n, []) == n;
    } else {
      var steps := LeftoverOrphans(s, step);
    }
  }

  /** A rollback that leaves its output on disk. */
  predicate LeavesOutput(s: State, step: Step) {
    Enabled(s, step) && ((step.Rollback? && !step.removed) || (step.PromoteFailed? && !step.undone))
  }

  /** If it also deletes its record, the output is an orphan at once. */
  lemma RollbackOrphans(s: State, step: Step)
    requires Inv(s) && LeavesOutput(s, step) && step.deleted
    ensures Orphan(Next(s, step), s.records[step.task].output)
  {
    InvNamed(s);
    assert Good(s, step.task);
    var n := Next(s, step);
    forall u | u in n.records ensures Harmless(n, u, s.records[step.task].output) {
      assert Apart(s, u, step.task);
    }
  }

  lemma {:induction false} Unused(s: set<nat>) returns (n: nat)
    ensures forall x :: x in s ==> x < n
    decreases |s|
  {
    if s == {} {
      return 0;
    }
    var x :| x in s;
    var m := Unused(s - {x});
    assert s == (s - {x}) + {x};
    n := if x < m then m else x + 1;
  }

  /** A compaction that swaps its output in, unlinks one of its inputs and then crashes. */
  function Consumed(s: State, step: Step, out: Gen): State
    requires step.Commit? && Enabled(s, step) && out in step.inputs
  {
    var b := step.task;
    var swapped := Next(Next(Next(s, step), Promote(b)), Swap(b, true));
    Next(Next(swapped, RetireInput(b, out, true, true)), Crash({}))
  }

  lemma ConsumedState(s: State, step: Step, out: Gen)
    requires step.Commit? && Enabled(s, step) && out in step.inputs
    ensures var end := Consumed(s, step, out);
            && end.mode.Recovering? && end.torn == s.torn
            && end.disk == s.disk + {step.output} - {out} && end.served == s.served - step.inputs + {step.output}
            && end.records == s.records[step.task := Record(step.output, step.inputs, SwappedIn)]
  {
    var b, r := step.task, Record(step.output, step.inputs, Promoting);
    var s1 := Next(s, step);
    assert s1.records == s.records[b := r];
    var s3 := Next(Next(s1, Promote(b)), Swap(b, true));
    assert s3.disk == s.disk + {step.output} && s3.torn == s.torn;
    assert s3.served == s.served - step.inputs + {step.output};
    assert s3.records == s.records[b := r.(phase := SwappedIn)];
  }

  lemma ConsumedNamed(s: State, step: Step, out: Gen)
    requires Named(s) && step.Commit? && Enabled(s, step) && out in step.inputs
    ensures Named(Consumed(s, step, out))
  {
    var b := step.task;
    var s1 := Next(s, step);
    var s2 := Next(s1, Promote(b));
    var s3 := Next(s2, Swap(b, true));
    NamedStays(s, step);
    NamedStays(s1, Promote(b));
    NamedStays(s2, Swap(b, true));
    NamedStays(s3, RetireInput(b, out, true, true));
    NamedStays(Next(s3, RetireInput(b, out, true, true)), Crash({}));
  }

  lemma ConsumeRun(s: State, step: Step, out: Gen) returns (steps: seq<Step>)
    requires step.Commit? && Enabled(s, step) && out in step.inputs
    ensures var n := Next(s, step); IsRun(n, steps) && GuardedRun(n, steps) && Exec(n, steps) == Consumed(s, step, out)
  {
    var b := step.task;
    var s1 := Next(s, step);
    var s2 := Next(s1, Promote(b));
    var s3 := Next(s2, Swap(b, true));
    var s4 := Next(s3, RetireInput(b, out, true, true));
    GuardedCons(s4, Crash({}), []);
    steps := [Crash({})] + [];
    GuardedCons(s3, RetireInput(b, out, true, true), steps);
    steps := [RetireInput(b, out, true, true)] + steps;
    GuardedCons(s2, Swap(b, true), steps);
    steps := [Swap(b, true)] + steps;
    GuardedCons(s1, Promote(b), steps);
    steps := [Promote(b)] + steps;
  }

  /** If the record stays, the output becomes an orphan when its inputs are compacted again. */
  lemma LeftoverOrphans(s: State, step: Step) returns (steps: seq<Step>)
    requires Inv(s) && LeavesOutput(s, step) && !step.deleted
    ensures var n := Next(s, step);
            IsRun(n, steps) && GuardedRun(n, steps) && Orphan(Exec(n, steps), s.records[step.task].output)
  {
    var n := Next(s, step);
    var r := s.records[step.task];
    var b := Unused(n.tasks);
    var o := Unused(n.used);
    LeftoverUnclaimed(s, step);
    InvNamed(s);
    NamedStays(s, step);
    var out :| out in r.inputs;
    steps := ConsumeRun(n, Commit(b, o, r.inputs), out);
    var end := Consumed(n, Commit(b, o, r.inputs), out);
    ConsumedState(n, Commit(b, o, r.inputs), out);
    ConsumedNamed(n, Commit(b, o, r.inputs), out);
    forall t | t in end.records ensures Harmless(end, t, r.output) {
      LeftoverHarmless(s, step, end, b, o, out, t);
    }
    assert Good(s, step.task);
    GuardedCons(n, Commit(b, o, r.inputs), steps);
    steps := [Commit(b, o, r.inputs)] + steps;
  }

  lemma LeftoverHarmless(s: State, step: Step, end: State, b: Task, o: Gen, x: Gen, t: Task)
    requires Inv(s) && LeavesOutput(s, step) && !step.deleted && t in end.records
    requires var n, r := Next(s, step), s.records[step.task];
             && b !in n.tasks && o !in n.used && x in r.inputs && end.mode.Recovering? && end.torn == n.torn
             && end.served == n.served - r.inputs + {o} && end.records == n.records[b := Record(o, r.inputs, SwappedIn)]
    ensures Harmless(end, t, s.records[step.task].output)
  {
    assert Good(s, step.task);
    if t == step.task {
      assert Spent(end, x);
    } else if t != b {
      assert Apart(s, t, step.task) && Good(s, t);
    }
  }

  lemma LeftoverUnclaimed(s: State, step: Step)
    requires Inv(s) && LeavesOutput(s, step) && !step.deleted
    ensures var n, inputs := Next(s, step), s.records[step.task].inputs;
            && n.mode.Up? && inputs != {} && inputs <= n.served && Unclaimed(n, inputs)
            && forall b, o :: Guarded(n, Commit(b, o, inputs))
  {
    assert Good(s, step.task);
    forall t | t in s.records && t != step.task
      ensures Good(s, t) && Apart(s, t, step.task) && Apart(s, step.task, t)
    {
    }
  }

  /** Compacting the output of a record whose input `g` is still on disk turns `g` into an
      orphan: the record that should have removed it finds its output missing. */
  lemma ConsumingOrphans(s: State, step: Step, a: Task, g: Gen) returns (steps: seq<Step>)
    requires Inv(s) && step.Commit? && Enabled(s, step)
    requires a in s.records && s.records[a].output in step.inputs && g in s.records[a].inputs && g in s.disk
    ensures var n := Next(s, step); IsRun(n, steps) && GuardedRun(n, steps) && Orphan(Exec(n, steps), g)
  {
    InvNamed(s);
    assert Good(s, a);
    steps := ConsumeRun(s, step, s.records[a].output);
    var end := Consumed(s, step, s.records[a].output);
    ConsumedState(s, step, s.records[a].output);
    ConsumedNamed(s, step, s.records[a].output);
    forall t | t in end.records ensures Harmless(end, t, g) {
      if t != step.task {
        ConsumedHarmless(s, step, a, g, t);
        if s.records[t].output == g {
          var x :| x in s.records[t].inputs && x !in s.served;
          assert Good(s, t) && x in s.used && Spent(end, x);
        }
      }
    }
  }

  /** What the other records have to do with such a `g`. */
  lemma ConsumedHarmless(s: State, step: Step, a: Task, g: Gen, t: Task)
    requires Inv(s) && step.Commit? && Enabled(s, step) && t in s.records
    requires a in s.records && s.records[a].output in step.inputs && g in s.records[a].inputs && g in s.disk
    ensures s.records[t].output == g ==> g !in s.torn && exists x :: x in s.records[t].inputs && x !in s.served
    ensures g in s.records[t].inputs ==> t == a || s.records[t].output !in s.disk
  {
    assert Good(s, a) && Good(s, t);
    if t != a {
      assert Apart(s, a, t) && Apart(s, t, a);
    }
    if s.records[t].output == g {
      var x :| x in s.records[t].inputs;
      assert x !in s.served;
    }
  }

  lemma {:induction false} RunSnoc(s: State, steps: seq<Step>, step: Step)
    requires IsRun(s, steps) && Enabled(Exec(s, steps), step)
    ensures IsRun(s, steps + [step]) && Exec(s, steps + [step]) == Next(Exec(s, steps), step)
    decreases |steps|
  {
    if steps == [] {
      assert [step][1..] == [] && steps + [step] == [step];
    } else {
      RunSnoc(Next(s, steps[0]), steps[1..], step);
      assert (steps + [step])[1..] == steps[1..] + [step];
    }
  }

  lemma GuardedCons(s: State, step: Step, rest: seq<Step>)
    requires Enabled(s, step) && Guarded(s, step) && IsRun(Next(s, step), rest) && GuardedRun(Next(s, step), rest)
    ensures IsRun(s, [step] + rest) && GuardedRun(s, [step] + rest)
    ensures Exec(s, [step] + rest) == Exec(Next(s, step), rest)
  {
    assert ([step] + rest)[1..] == rest;
  }

  /** A compaction whose one input cannot be unlinked. */
  const FAILED_RETIRE: seq<Step> := [RetireInput(10, 1, false, false)] + ([FinishRetire(10, true)] + [])
  const STUCK_INPUT: seq<Step> :=
    [Flush(1)] + ([Commit(10, 2, {1})] + ([Promote(10)] + ([Swap(10, true)] + FAILED_RETIRE)))

  const JUST_SWAPPED: State := State({1, 2}, {}, map[10 := Record(2, {1}, SwappedIn)], {2}, {1, 2}, {10},
    map[10 := Done], Up(map[10 := Swapped({}, true)]))
  const STUCK: State := JUST_SWAPPED.(mode := Up(map[]))

  lemma FailedRetireRun()
    ensures IsRun(JUST_SWAPPED, FAILED_RETIRE) && GuardedRun(JUST_SWAPPED, FAILED_RETIRE)
    ensures Exec(JUST_SWAPPED, FAILED_RETIRE) == STUCK
  {
    var tried := JUST_SWAPPED.(mode := Up(map[10 := Swapped({1}, false)]));
    assert {} + {1} == {1} && map[10 := Swapped({}, true)][10 := Swapped({1}, false)] == map[10 := Swapped({1}, false)];
    assert Next(JUST_SWAPPED, RetireInput(10, 1, false, false)) == tried;
    assert Next(tried, FinishRetire(10, true)) == STUCK;
    GuardedCons(tried, FinishRetire(10, true), []);
    GuardedCons(JUST_SWAPPED, RetireInput(10, 1, false, false), [FinishRetire(10, true)] + []);
  }

  lemma StuckInputRun()
    ensures IsRun(INIT, STUCK_INPUT) && GuardedRun(INIT, STUCK_INPUT) && Exec(INIT, STUCK_INPUT) == STUCK
  {
    var flushed := State({1}, {}, map[], {1}, {1}, {}, map[], Up(map[]));
    var committed := State({1}, {}, map[10 := Record(2, {1}, Promoting)], {1}, {1, 2}, {10},
      map[10 := Idle], Up(map[10 := Committed]));
    var promoted := committed.(disk := {1, 2}, fate := map[10 := Pending], mode := Up(map[10 := Promoted]));
    FailedRetireRun();
    assert Next(promoted, Swap(10, true)) == JUST_SWAPPED;
    GuardedCons(promoted, Swap(10, true), FAILED_RETIRE);
    assert Next(committed, Promote(10)) == promoted;
    GuardedCons(committed, Promote(10), [Swap(10, true)] + FAILED_RETIRE);
    assert Next(flushed, Commit(10, 2, {1})) == committed;
    GuardedCons(flushed, Commit(10, 2, {1}), [Promote(10)] + ([Swap(10, true)] + FAILED_RETIRE));
    assert Next(INIT, Flush(1)) == flushed;
    GuardedCons(INIT, Flush(1), [Commit(10, 2, {1})] + ([Promote(10)] + ([Swap(10, true)] + FAILED_RETIRE)));
  }

  /** The hazard is real: a guarded run from an empty table leads to a state in which
      compacting generation 2 brings generation 1 back. */
  lemma StuckInputResurrected() returns (rest: seq<Step>)
    ensures IsRun(INIT, STUCK_INPUT) && GuardedRun(INIT, STUCK_INPUT) && Exec(INIT, STUCK_INPUT) == STUCK
    ensures Enabled(STUCK, Commit(11, 3, {2})) && !Guarded(STUCK, Commit(11, 3, {2}))
    ensures var n := Next(STUCK, Commit(11, 3, {2})); IsRun(n, rest) && Orphan(Exec(n, rest), 1)
  {
    StuckInputRun();
    InitHolds();
    RunKeeps(INIT, STUCK_INPUT);
    assert 1 in STUCK.records[10].inputs;
    rest := ConsumingOrphans(STUCK, Commit(11, 3, {2}), 10, 1);
  }
}
