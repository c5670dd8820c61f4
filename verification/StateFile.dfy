/**
 Concurrent measurement runs sharing one state file
 (`RunStamp`, `stale_writer`, `persist`, `progress` and `publish` in
 scripts/lean_gap_inventory.py). Nothing is locked: a run looks at the file, stamps its row,
 reads the file again, edits its copy and writes the whole copy back, and the steps of
 other runs may fall between any of these. One read or write of the file is one step. The
 clock counts microseconds and never runs backwards; a row is stamped in whole seconds,
 while a run's start keeps its microseconds.
 */
module StateFile {
  import opened Base

  type Crate = string
  type RunId = nat

  const SECOND: nat := 1_000_000

  /** `at` is absent when a row carries no readable time. */
  datatype Row = Row(at: Option<nat>, body: nat)

  datatype Stamp = Stamp(own: set<nat>, started: Option<nat>)

  /** A row on disk that another run wrote after this one started. */
  predicate Foreign(s: Stamp, at: Option<nat>) {
    at.Some? && at.value !in s.own && s.started.Some? && at.value * SECOND > s.started.value
  }

  function TimeOf(rows: map<Crate, Row>, c: Crate): Option<nat> { if c in rows then rows[c].at else None }

  /** The rows on disk after a run merges its own into them. */
  function Published(disk: map<Crate, Row>, mem: map<Crate, Row>, stamps: map<Crate, Stamp>,
                     owned: set<Crate>): map<Crate, Row>
  {
    map c | c in disk.Keys + (owned * mem.Keys) ::
      if c in owned && c in mem && !(c in stamps && Foreign(stamps[c], TimeOf(disk, c))) then mem[c]
      else if c in disk then disk[c] else mem[c]
  }

  // ---------------------------------------------------------------- the code

  class RunStamp {
    var own: set<nat>
    var started: Option<nat>

    function Value(): Stamp
      reads this
    {
      Stamp(own, started)
    }

    constructor ()
      ensures Value() == Stamp({}, None)
    {
      own, started := {}, None;
    }

    method Begin(now: nat)
      modifies this
      ensures Value() == Stamp(old(own), Some(now))
    {
      started := Some(now);
    }

    method Mark(now: nat) returns (at: nat)
      modifies this
      ensures at * SECOND <= now < (at + 1) * SECOND
      ensures Value() == Stamp(old(own) + {at}, old(started))
    {
      at := now / SECOND;
      own := own + {at};
    }

    method IsForeign(at: Option<nat>) returns (foreign: bool)
      ensures foreign <==> Foreign(Value(), at)
    {
      if at.None? || at.value in own || started.None? {
        return false;
      }
      return at.value * SECOND > started.value;
    }
  }

  /** The final merge, crate by crate. */
  method Publish(disk: map<Crate, Row>, mem: map<Crate, Row>, stamps: map<Crate, Stamp>, owned: set<Crate>)
    returns (rows: map<Crate, Row>)
    ensures rows == Published(disk, mem, stamps, owned)
  {
    rows := disk;
    var left := owned;
    while left != {}
      invariant left <= owned && rows == Published(disk, mem, stamps, owned - left)
      decreases left
    {
      var c :| c in left;
      PublishedMore(disk, mem, stamps, owned - left, c);
      assert owned - (left - {c}) == owned - left + {c};
      left := left - {c};
      if c in mem {
        var foreign := c in stamps && Foreign(stamps[c], TimeOf(rows, c));
        if !foreign {
          rows := rows[c := mem[c]];
        }
      }
    }
    assert owned - {} == owned;
  }

  lemma PublishedMore(disk: map<Crate, Row>, mem: map<Crate, Row>, stamps: map<Crate, Stamp>, done: set<Crate>,
        c: Crate)
    requires c !in done
    ensures var rows := Published(disk, mem, stamps, done);
            && TimeOf(rows, c) == TimeOf(disk, c)
            && Published(disk, mem, stamps, done + {c})
               == if c in mem && !(c in stamps && Foreign(stamps[c], TimeOf(disk, c))) then rows[c := mem[c]] else rows
  {
  }

  // ---------------------------------------------------------------- the protocol

  /** How far a run has come with a row: it has found no rival, has stamped the row, or has
      `seen` the file and is about to write `rows`; `own` is absent in the final merge. */
  datatype Phase =
    | Idle
    | Checked(crate: Crate, final: bool)
    | Stamped(crate: Crate, final: bool, row: Row)
    | Writing(own: Option<Crate>, final: bool, seen: map<Crate, Row>, rows: map<Crate, Row>)

  /** One run: its copy of the file, the stamps of the crates it has taken on, the crates it
      is done with, those it gave up to a rival, and the last row it wrote for each. */
  datatype Run = Run(
    mem: map<Crate, Row>, stamps: map<Crate, Stamp>, done: set<Crate>, dropped: set<Crate>, last: map<Crate, Row>,
    phase: Phase)

  datatype World = World(now: nat, disk: map<Crate, Row>, runs: map<RunId, Run>)

  datatype Step =
    | Tick(elapsed: nat)
    | Launch(run: RunId)
    | Begin(run: RunId, crate: Crate)
    | Check(run: RunId, crate: Crate, final: bool)
    | Mark(run: RunId, body: nat)
    | Load(run: RunId)
    | Merge(run: RunId)
    | Store(run: RunId)

  predicate Rivals(w: World, r: RunId, c: Crate)
    requires r in w.runs && c in w.runs[r].stamps
  {
    Foreign(w.runs[r].stamps[c], TimeOf(w.disk, c))
  }

  predicate Enabled(w: World, step: Step) {
    match step
    case Tick(_) => true
    case Launch(r) => r !in w.runs
    case Begin(r, c) => r in w.runs && w.runs[r].phase.Idle? && c !in w.runs[r].stamps
    case Check(r, c, _) => r in w.runs && w.runs[r].phase.Idle? && c in w.runs[r].stamps && c !in w.runs[r].done
    case Mark(r, _) => r in w.runs && w.runs[r].phase.Checked? && w.runs[r].phase.crate in w.runs[r].stamps
    case Load(r) => r in w.runs && w.runs[r].phase.Stamped?
    case Merge(r) => r in w.runs && w.runs[r].phase.Idle? && w.runs[r].stamps.Keys == w.runs[r].done
    case Store(r) => r in w.runs && w.runs[r].phase.Writing?
  }

  function Looked(w: World, r: RunId, c: Crate, final: bool): Run
    requires r in w.runs && c in w.runs[r].stamps
  {
    var run := w.runs[r];
    if !Rivals(w, r, c) then run.(phase := Checked(c, final))
    else if final then run.(done := run.done + {c}, dropped := run.dropped + {c})
    else run
  }

  function Marked(run: Run, at: nat, body: nat): Run
    requires run.phase.Checked? && run.phase.crate in run.stamps
  {
    var c, row := run.phase.crate, Row(Some(at), body);
    run.(mem := run.mem[c := row], stamps := run.stamps[c := run.stamps[c].(own := run.stamps[c].own + {at})],
         phase := Stamped(c, run.phase.final, row))
  }

  function Loaded(run: Run, disk: map<Crate, Row>): Run
    requires run.phase.Stamped?
  {
    var c := run.phase.crate;
    run.(phase := Writing(Some(c), run.phase.final, disk, disk[c := run.phase.row]))
  }

  function Written(run: Run): Run
    requires run.phase.Writing?
  {
    var after := run.(mem := run.phase.rows, phase := Idle);
    if run.phase.own.None? || run.phase.own.value !in run.phase.rows then after
    else
      var c := run.phase.own.value;
      after.(last := run.last[c := run.phase.rows[c]], done := if run.phase.final then run.done + {c} else run.done)
  }

  function Next(w: World, step: Step): World
    requires Enabled(w, step)
  {
    match step
    case Tick(elapsed) => w.(now := w.now + elapsed)
    case Launch(r) => w.(runs := w.runs[r := Run(w.disk, map[], {}, {}, map[], Idle)])
    case Begin(r, c) => w.(runs := w.runs[r := w.runs[r].(stamps := w.runs[r].stamps[c := Stamp({}, Some(w.now))])])
    case Check(r, c, final) => w.(runs := w.runs[r := Looked(w, r, c, final)])
    case Mark(r, body) => w.(runs := w.runs[r := Marked(w.runs[r], w.now / SECOND, body)])
    case Load(r) => w.(runs := w.runs[r := Loaded(w.runs[r], w.disk)])
    case Merge(r) =>
      var run := w.runs[r];
      var rows := Published(w.disk, run.mem, run.stamps, run.stamps.Keys);
      w.(runs := w.runs[r := run.(phase := Writing(None, true, w.disk, rows))])
    case Store(r) => w.(disk := w.runs[r].phase.rows, runs := w.runs[r := Written(w.runs[r])])
  }

  ghost predicate IsRun(w: World, steps: seq<Step>)
    decreases |steps|
  {
    steps == [] || (Enabled(w, steps[0]) && IsRun(Next(w, steps[0]), steps[1..]))
  }

  ghost function Exec(w: World, steps: seq<Step>): World
    requires IsRun(w, steps)
    decreases |steps|
  {
    if steps == [] then w else Exec(Next(w, steps[0]), steps[1..])
  }

  // ---------------------------------------------------------------- when a step is careful

  function RowOf(rows: map<Crate, Row>, c: Crate): Option<Row> { if c in rows then Some(rows[c]) else None }

  /** Apart from the row a run is writing, the file is what it has seen; and the row it is
      about to replace is not a rival's. */
  ghost predicate Fresh(w: World, r: RunId)
    requires r in w.runs && w.runs[r].phase.Writing?
  {
    var p := w.runs[r].phase;
    && (forall d :: p.own != Some(d) ==> RowOf(w.disk, d) == RowOf(p.seen, d))
    && (p.own.Some? && p.own.value in w.runs[r].stamps ==> !Rivals(w, r, p.own.value))
  }

  /** No other run stamped this crate in the current second. */
  predicate AloneThisSecond(w: World, r: RunId, c: Crate) {
    forall q :: q in w.runs && q != r && c in w.runs[q].stamps ==> w.now / SECOND !in w.runs[q].stamps[c].own
  }

  ghost predicate Careful(w: World, step: Step)
    requires Enabled(w, step)
  {
    && (step.Mark? ==> AloneThisSecond(w, step.run, w.runs[step.run].phase.crate))
    && (step.Store? ==> Fresh(w, step.run))
  }

  ghost predicate CarefulRun(w: World, steps: seq<Step>)
    requires IsRun(w, steps)
    decreases |steps|
  {
    steps == [] || (Careful(w, steps[0]) && CarefulRun(Next(w, steps[0]), steps[1..]))
  }

  // ---------------------------------------------------------------- invariant

  /** `later` holds a row for `c` no older than `row`, and `row` itself if equally old. */
  predicate NoOlder(later: map<Crate, Row>, c: Crate, row: Row) {
    row.at.Some? ==>
      c in later && later[c].at.Some? && later[c].at.value >= row.at.value &&
      (later[c].at == row.at ==> later[c] == row)
  }

  predicate NoOlderTime(later: map<Crate, Row>, c: Crate, row: Row) {
    row.at.Some? ==> c in later && later[c].at.Some? && later[c].at.value >= row.at.value
  }

  /** The file once held `seen`: what has changed since was stamped, and is not older. */
  predicate Behind(seen: map<Crate, Row>, disk: map<Crate, Row>, d: Crate) {
    && (d in seen ==> d in disk && NoOlderTime(disk, d, seen[d]))
    && (d in disk && RowOf(seen, d) != RowOf(disk, d) ==> disk[d].at.Some?)
  }

  /** The crate whose row a run has stamped and not written, and that row. */
  function Pending(run: Run): Option<(Crate, Row)> {
    match run.phase
    case Stamped(c, _, row) => Some((c, row))
    case Writing(Some(c), _, _, rows) => if c in rows then Some((c, rows[c])) else None
    case _ => None
  }

  predicate IsPending(run: Run, c: Crate) { Pending(run).Some? && Pending(run).value.0 == c }

  /** The last row a run stamped for `c`. */
  function Latest(run: Run, c: Crate): Option<Row> {
    if IsPending(run, c) then Some(Pending(run).value.1) else RowOf(run.last, c)
  }

  /** What a run's stamps of a crate say: its latest row carries the latest of them. */
  predicate StampsHold(w: World, r: RunId, c: Crate)
    requires r in w.runs && c in w.runs[r].stamps
  {
    var s, top := w.runs[r].stamps[c], Latest(w.runs[r], c);
    && s.started.Some? && s.started.value <= w.now
    && (top.None? ==> s.own == {})
    && (top.Some? ==> && top.value.at.Some? && top.value.at.value in s.own
                      && s.started.value / SECOND <= top.value.at.value <= w.now / SECOND
                      && forall at :: at in s.own ==> at <= top.value.at.value)
  }

  /** What a run knows of a crate it has taken on. */
  predicate Tracks(w: World, r: RunId, c: Crate)
    requires r in w.runs && c in w.runs[r].stamps
  {
    var run := w.runs[r];
    && (c in run.dropped ==> Rivals(w, r, c))
    && (c in run.done ==> c in run.dropped || c in run.last)
    && (c in run.last ==> && run.last[c].at.Some? && run.last[c].at.value in run.stamps[c].own
                          && NoOlder(w.disk, c, run.last[c])
                          && (!IsPending(run, c) ==> NoOlder(run.mem, c, run.last[c])))
  }

  predicate Timely(w: World, c: Crate) { TimeOf(w.disk, c).Some? ==> TimeOf(w.disk, c).value <= w.now / SECOND }

  /** A row carries the stamp of some run, or every run that took the crate on began later. */
  predicate Authored(w: World, c: Crate) {
    TimeOf(w.disk, c).Some? ==>
      || (exists q :: q in w.runs && c in w.runs[q].stamps && TimeOf(w.disk, c).value in w.runs[q].stamps[c].own)
      || (forall q :: q in w.runs && c in w.runs[q].stamps ==>
            !Foreign(w.runs[q].stamps[c].(own := {}), TimeOf(w.disk, c)))
  }

  predicate Scoped(run: Run) {
    && run.done + run.dropped + run.last.Keys <= run.stamps.Keys
    && match run.phase {
         case Idle => true
         case Checked(c, _) => c in run.stamps && c !in run.done
         case Stamped(c, _, _) => c in run.stamps && c !in run.done
         case Writing(Some(c), _, seen, rows) =>
           c in run.stamps && c !in run.done && c in rows && rows == seen[c := rows[c]]
         case Writing(None, _, seen, rows) => rows == seen
       }
  }

  ghost predicate SeenHolds(w: World, run: Run) { run.phase.Writing? ==> forall d :: Behind(run.phase.seen, w.disk, d) }

  predicate MemHolds(w: World, run: Run, c: Crate) {
    c in run.mem && !IsPending(run, c) ==> NoOlderTime(w.disk, c, run.mem[c])
  }

  predicate Apart(w: World, q: RunId, r: RunId, c: Crate)
    requires q in w.runs && r in w.runs
  {
    q != r && c in w.runs[q].stamps && c in w.runs[r].stamps ==> w.runs[q].stamps[c].own !! w.runs[r].stamps[c].own
  }

  ghost predicate Inv(w: World) {
    && (forall c :: Timely(w, c) && Authored(w, c))
    && (forall r :: r in w.runs ==> Scoped(w.runs[r]) && SeenHolds(w, w.runs[r]))
    && (forall r, c :: r in w.runs ==> MemHolds(w, w.runs[r], c))
    && (forall r, c :: r in w.runs && c in w.runs[r].stamps ==> StampsHold(w, r, c) && Tracks(w, r, c))
    && (forall q, r, c :: q in w.runs && r in w.runs ==> Apart(w, q, r, c))
  }

  // ---------------------------------------------------------------- what a store changes

  /** A row that is not a rival's is no newer than the latest of this run. */
  lemma NotRivalNotNewer(w: World, r: RunId, c: Crate)
    requires r in w.runs && c in w.runs[r].stamps && StampsHold(w, r, c) && !Rivals(w, r, c)
    requires Latest(w.runs[r], c).Some? && TimeOf(w.disk, c).Some?
    ensures TimeOf(w.disk, c).value <= Latest(w.runs[r], c).value.at.value
  {
    SecondOf(TimeOf(w.disk, c).value, w.runs[r].stamps[c].started.value);
  }

  lemma SecondOf(at: nat, started: nat)
    ensures at * SECOND <= started <==> at <= started / SECOND
  {
  }

  lemma SecondsPass(a: nat, b: nat)
    requires a <= b
    ensures a / SECOND <= b / SECOND
  {
  }

  /** A careful store writes the run's own row over one that is no newer, and nothing else. */
  lemma StoreChanges(w: World, r: RunId)
    requires Inv(w) && Enabled(w, Store(r)) && Fresh(w, r)
    ensures var own, n := w.runs[r].phase.own, Next(w, Store(r));
            && (forall d :: own != Some(d) ==> RowOf(n.disk, d) == RowOf(w.disk, d))
            && (own.Some? ==> && own.value in n.disk && n.disk[own.value] == w.runs[r].phase.rows[own.value]
                              && (own.value in w.disk ==> NoOlderTime(n.disk, own.value, w.disk[own.value])))
  {
    var run := w.runs[r];
    assert Scoped(run);
    if own :| run.phase.own == Some(own) {
      assert StampsHold(w, r, own);
      if TimeOf(w.disk, own).Some? {
        NotRivalNotNewer(w, r, own);
      }
    } else {
      assert run.phase.own.None?;
    }
  }

  /** A run that is done with a crate and sees no rival has nothing new to publish for it. */
  lemma DoneMeansSame(w: World, r: RunId, c: Crate)
    requires Inv(w) && r in w.runs && w.runs[r].phase.Idle? && c in w.runs[r].done
    requires c in w.runs[r].stamps && !Rivals(w, r, c)
    ensures c in w.disk && c in w.runs[r].mem && w.runs[r].mem[c] == w.disk[c]
  {
    assert StampsHold(w, r, c) && Tracks(w, r, c) && MemHolds(w, w.runs[r], c);
    NotRivalNotNewer(w, r, c);
  }

  /** So the final merge comes to the file as it is. */
  lemma MergeChangesNothing(w: World, r: RunId)
    requires Inv(w) && Enabled(w, Merge(r))
    ensures Published(w.disk, w.runs[r].mem, w.runs[r].stamps, w.runs[r].stamps.Keys) == w.disk
  {
    var run := w.runs[r];
    forall c | c in run.stamps && !Rivals(w, r, c) ensures c in w.disk && c in run.mem && run.mem[c] == w.disk[c] {
      DoneMeansSame(w, r, c);
    }
    forall c | c in run.stamps ensures c in w.disk {
      assert Tracks(w, r, c);
    }
  }

  // ---------------------------------------------------------------- careful steps keep the invariant

  /** A rival stays a rival: no careful step of any run makes a foreign row look like one's
      own or like an old one. */
  lemma RivalStays(w: World, step: Step, r: RunId, c: Crate)
    requires Inv(w) && Enabled(w, step) && Careful(w, step) && r in w.runs && c in w.runs[r].stamps && Rivals(w, r, c)
    ensures var n := Next(w, step); r in n.runs && c in n.runs[r].stamps && Rivals(n, r, c)
  {
    if step.Store? {
      RivalOutlivesStore(w, step.run, r, c);
    } else if step.Mark? && step.run == r && w.runs[r].phase.crate == c {
      RivalOutlivesMark(w, step, c);
    }
  }

  lemma RivalOutlivesMark(w: World, step: Step, c: Crate)
    requires Inv(w) && step.Mark? && Enabled(w, step) && Careful(w, step) && w.runs[step.run].phase.crate == c
    requires Rivals(w, step.run, c)
    ensures Rivals(Next(w, step), step.run, c)
  {
    assert Authored(w, c);
    assert TimeOf(w.disk, c) != Some(w.now / SECOND);
  }

  lemma RivalOutlivesStore(w: World, q: RunId, r: RunId, c: Crate)
    requires Inv(w) && Enabled(w, Store(q)) && Fresh(w, q) && r in w.runs && c in w.runs[r].stamps && Rivals(w, r, c)
    ensures Rivals(Next(w, Store(q)), r, c)
  {
    StoreChanges(w, q);
    assert Scoped(w.runs[q]);
    if w.runs[q].phase.own == Some(c) {
      assert q != r && StampsHold(w, q, c) && Apart(w, q, r, c);
    } else {
      assert RowOf(Next(w, Store(q)).disk, c) == RowOf(w.disk, c);
    }
  }

  lemma TimelyKept(w: World, step: Step, c: Crate)
    requires Inv(w) && Enabled(w, step) && Careful(w, step)
    ensures Timely(Next(w, step), c)
  {
    assert Timely(w, c);
    SecondsPass(w.now, Next(w, step).now);
    if step.Store? {
      StoreChanges(w, step.run);
      assert Scoped(w.runs[step.run]);
      if w.runs[step.run].phase.own == Some(c) {
        assert StampsHold(w, step.run, c);
      } else {
        assert RowOf(Next(w, step).disk, c) == RowOf(w.disk, c);
      }
    }
  }

  lemma AuthoredKept(w: World, step: Step, c: Crate)
    requires Inv(w) && Enabled(w, step) && Careful(w, step)
    ensures Authored(Next(w, step), c)
  {
    var n := Next(w, step);
    assert Authored(w, c) && Timely(w, c);
    if step.Store? {
      StoreChanges(w, step.run);
      assert Scoped(w.runs[step.run]);
      if w.runs[step.run].phase.own == Some(c) {
        assert StampsHold(w, step.run, c);
        assert step.run in n.runs && c in n.runs[step.run].stamps
            && TimeOf(n.disk, c).value in n.runs[step.run].stamps[c].own;
      } else {
        assert RowOf(n.disk, c) == RowOf(w.disk, c);
        AuthorStays(w, step, c);
      }
    } else {
      AuthorStays(w, step, c);
    }
  }

  /** No step forgets a stamp, and a run that takes a crate on begins after every row. */
  lemma AuthorStays(w: World, step: Step, c: Crate)
    requires Inv(w) && Enabled(w, step) && RowOf(Next(w, step).disk, c) == RowOf(w.disk, c)
    ensures Authored(Next(w, step), c)
  {
    assert Authored(w, c) && Timely(w, c);
    if TimeOf(w.disk, c).Some? {
      var at := TimeOf(w.disk, c).value;
      if q :| q in w.runs && c in w.runs[q].stamps && at in w.runs[q].stamps[c].own {
        StampStays(w, step, q, c, at);
      } else {
        forall q | q in Next(w, step).runs && c in Next(w, step).runs[q].stamps
          ensures !Foreign(Next(w, step).runs[q].stamps[c].(own := {}), Some(at))
        {
          StartStays(w, step, q, c, at);
        }
      }
    }
  }

  lemma StampStays(w: World, step: Step, q: RunId, c: Crate, at: nat)
    requires Enabled(w, step) && q in w.runs && c in w.runs[q].stamps && at in w.runs[q].stamps[c].own
    ensures q in Next(w, step).runs && c in Next(w, step).runs[q].stamps
    ensures at in Next(w, step).runs[q].stamps[c].own
  {
  }

  lemma StartStays(w: World, step: Step, q: RunId, c: Crate, at: nat)
    requires Enabled(w, step) && q in Next(w, step).runs && c in Next(w, step).runs[q].stamps
    requires at <= w.now / SECOND
    requires q in w.runs && c in w.runs[q].stamps ==> !Foreign(w.runs[q].stamps[c].(own := {}), Some(at))
    ensures !Foreign(Next(w, step).runs[q].stamps[c].(own := {}), Some(at))
  {
    SecondOf(at, w.now);
  }

  lemma ScopedKept(w: World, step: Step, r: RunId)
    requires Inv(w) && Enabled(w, step) && r in Next(w, step).runs
    ensures Scoped(Next(w, step).runs[r])
  {
    if step.Merge? && step.run == r {
      assert Scoped(w.runs[r]);
      MergeChangesNothing(w, r);
    } else if r in w.runs {
      ScopedStep(w, step, r);
    }
  }

  lemma ScopedStep(w: World, step: Step, r: RunId)
    requires Enabled(w, step) && r in w.runs && Scoped(w.runs[r]) && !(step.Merge? && step.run == r)
    ensures Scoped(Next(w, step).runs[r])
  {
  }

  lemma SeenKept(w: World, step: Step, r: RunId, d: Crate)
    requires Inv(w) && Enabled(w, step) && Careful(w, step)
    requires r in Next(w, step).runs && Next(w, step).runs[r].phase.Writing?
    ensures Behind(Next(w, step).runs[r].phase.seen, Next(w, step).disk, d)
  {
    if step.Store? {
      StoreChanges(w, step.run);
      assert Scoped(w.runs[step.run]) && SeenHolds(w, w.runs[r]) && Behind(w.runs[r].phase.seen, w.disk, d);
      if w.runs[step.run].phase.own == Some(d) {
        assert StampsHold(w, step.run, d);
      } else {
        assert RowOf(Next(w, step).disk, d) == RowOf(w.disk, d);
      }
    } else if r in w.runs && w.runs[r].phase.Writing? {
      assert SeenHolds(w, w.runs[r]);
    }
  }

  lemma MemKept(w: World, step: Step, r: RunId, c: Crate)
    requires Inv(w) && Enabled(w, step) && Careful(w, step) && r in Next(w, step).runs
    ensures MemHolds(Next(w, step), Next(w, step).runs[r], c)
  {
    if step.Store? {
      MemStored(w, step.run, r, c);
    } else if r in w.runs {
      assert MemHolds(w, w.runs[r], c);
    }
  }

  lemma MemStored(w: World, q: RunId, r: RunId, c: Crate)
    requires Inv(w) && Enabled(w, Store(q)) && Fresh(w, q) && r in w.runs
    ensures MemHolds(Next(w, Store(q)), Next(w, Store(q)).runs[r], c)
  {
    var n := Next(w, Store(q));
    StoreChanges(w, q);
    assert Scoped(w.runs[q]) && MemHolds(w, w.runs[r], c);
    if r == q {
      assert n.runs[r].mem == n.disk;
    } else if w.runs[q].phase.own != Some(c) {
      assert RowOf(n.disk, c) == RowOf(w.disk, c);
    }
  }

  /** Only stamping a row for `c` changes the latest row for it or its stamps. */
  lemma LatestKept(w: World, step: Step, r: RunId, c: Crate)
    requires Enabled(w, step) && r in w.runs && c in w.runs[r].stamps && Scoped(w.runs[r])
    requires !(step.Mark? && step.run == r && w.runs[r].phase.crate == c)
    ensures c in Next(w, step).runs[r].stamps && Next(w, step).runs[r].stamps[c] == w.runs[r].stamps[c]
    ensures Latest(Next(w, step).runs[r], c) == Latest(w.runs[r], c)
  {
  }

  lemma MarkStamps(w: World, step: Step, r: RunId, c: Crate)
    requires Inv(w) && Enabled(w, step) && step.Mark? && step.run == r && w.runs[r].phase.crate == c
    ensures c in Next(w, step).runs[r].stamps && StampsHold(Next(w, step), r, c)
  {
    assert StampsHold(w, r, c) && Scoped(w.runs[r]);
    SecondsPass(w.runs[r].stamps[c].started.value, w.now);
    var n := Next(w, step);
    assert Latest(n.runs[r], c) == Some(Row(Some(w.now / SECOND), step.body));
    assert n.runs[r].stamps[c] == Stamp(w.runs[r].stamps[c].own + {w.now / SECOND}, w.runs[r].stamps[c].started);
  }

  lemma StampsKept(w: World, step: Step, r: RunId, c: Crate)
    requires Inv(w) && Enabled(w, step) && r in Next(w, step).runs && c in Next(w, step).runs[r].stamps
    ensures StampsHold(Next(w, step), r, c)
  {
    if step.Mark? && step.run == r && w.runs[r].phase.crate == c {
      MarkStamps(w, step, r, c);
    } else if r in w.runs && c in w.runs[r].stamps {
      assert StampsHold(w, r, c) && Scoped(w.runs[r]);
      LatestKept(w, step, r, c);
      SecondsPass(w.now, Next(w, step).now);
    } else {
      assert step.Begin? && Scoped(w.runs[r]);
      assert Latest(Next(w, step).runs[r], c).None?;
    }
  }

  lemma TracksKept(w: World, step: Step, r: RunId, c: Crate)
    requires Inv(w) && Enabled(w, step) && Careful(w, step)
    requires r in Next(w, step).runs && c in Next(w, step).runs[r].stamps
    ensures Tracks(Next(w, step), r, c)
  {
    if step.Store? {
      StoreTracks(w, step.run, r, c);
    } else if r in w.runs && c in w.runs[r].stamps {
      QuietTracks(w, step, r, c);
    } else {
      assert step.Begin? && Scoped(w.runs[r]);
    }
  }

  lemma QuietTracks(w: World, step: Step, r: RunId, c: Crate)
    requires Inv(w) && Enabled(w, step) && Careful(w, step) && !step.Store? && r in w.runs && c in w.runs[r].stamps
    ensures Tracks(Next(w, step), r, c)
  {
    assert Tracks(w, r, c);
    if Rivals(w, r, c) {
      RivalStays(w, step, r, c);
    }
    if !step.Tick? && step.run == r {
      if step.Check? {
        assert c in Next(w, step).runs[r].dropped ==> c in w.runs[r].dropped || Rivals(w, r, c);
      } else {
        assert Scoped(w.runs[r]);
        BusyTracks(w, step, c);
      }
    }
  }

  lemma BusyTracks(w: World, step: Step, c: Crate)
    requires Enabled(w, step) && (step.Begin? || step.Mark? || step.Load? || step.Merge?)
    requires Scoped(w.runs[step.run]) && c in w.runs[step.run].stamps && Tracks(w, step.run, c)
    requires Rivals(w, step.run, c) ==> Rivals(Next(w, step), step.run, c)
    ensures Tracks(Next(w, step), step.run, c)
  {
    var before, after := w.runs[step.run], Next(w, step).runs[step.run];
    assert after.last == before.last && after.done == before.done && after.dropped == before.dropped;
    assert before.stamps[c].own <= after.stamps[c].own;
    assert IsPending(before, c) ==> IsPending(after, c);
    assert !IsPending(after, c) ==> RowOf(after.mem, c) == RowOf(before.mem, c);
  }

  lemma StoreTracks(w: World, q: RunId, r: RunId, c: Crate)
    requires Inv(w) && Enabled(w, Store(q)) && Fresh(w, q) && r in w.runs && c in w.runs[r].stamps
    ensures Tracks(Next(w, Store(q)), r, c)
  {
    StoreChanges(w, q);
    var n := Next(w, Store(q));
    assert Tracks(w, r, c) && Scoped(w.runs[q]) && Scoped(w.runs[r]);
    if Rivals(w, r, c) {
      RivalOutlivesStore(w, q, r, c);
    }
    if w.runs[q].phase.own == Some(c) {
      assert StampsHold(w, q, c) && StampsHold(w, r, c) && Apart(w, q, r, c);
    } else {
      assert RowOf(n.disk, c) == RowOf(w.disk, c);
    }
  }

  /** The stamps of a crate: those of before, and the current second if it is stamped now. */
  function OwnAfter(w: World, step: Step, r: RunId, c: Crate): set<nat>
    requires Enabled(w, step) && r in w.runs && c in w.runs[r].stamps
  {
    w.runs[r].stamps[c].own +
    if step.Mark? && step.run == r && w.runs[r].phase.crate == c then {w.now / SECOND} else {}
  }

  lemma OwnKept(w: World, step: Step, r: RunId, c: Crate)
    requires Enabled(w, step) && r in Next(w, step).runs && c in Next(w, step).runs[r].stamps
    ensures Next(w, step).runs[r].stamps[c].own ==
            if r in w.runs && c in w.runs[r].stamps then OwnAfter(w, step, r, c) else {}
  {
  }

  lemma ApartKept(w: World, step: Step, q: RunId, r: RunId, c: Crate)
    requires Inv(w) && Enabled(w, step) && Careful(w, step) && q in Next(w, step).runs && r in Next(w, step).runs
    ensures Apart(Next(w, step), q, r, c)
  {
    if q != r && c in Next(w, step).runs[q].stamps && c in Next(w, step).runs[r].stamps {
      OwnKept(w, step, q, c);
      OwnKept(w, step, r, c);
      if q in w.runs && r in w.runs && c in w.runs[q].stamps && c in w.runs[r].stamps {
        assert Apart(w, q, r, c);
      }
    }
  }

  lemma StepKeeps(w: World, step: Step)
    requires Inv(w) && Enabled(w, step) && Careful(w, step)
    ensures Inv(Next(w, step))
  {
    var n := Next(w, step);
    forall c ensures Timely(n, c) && Authored(n, c) {
      TimelyKept(w, step, c);
      AuthoredKept(w, step, c);
    }
    forall r | r in n.runs ensures Scoped(n.runs[r]) && SeenHolds(n, n.runs[r]) {
      ScopedKept(w, step, r);
      if n.runs[r].phase.Writing? {
        forall d ensures Behind(n.runs[r].phase.seen, n.disk, d) {
          SeenKept(w, step, r, d);
        }
      }
    }
    forall r, c | r in n.runs ensures MemHolds(n, n.runs[r], c) {
      MemKept(w, step, r, c);
    }
    forall r, c | r in n.runs && c in n.runs[r].stamps ensures StampsHold(n, r, c) && Tracks(n, r, c) {
      StampsKept(w, step, r, c);
      TracksKept(w, step, r, c);
    }
    forall q, r, c | q in n.runs && r in n.runs ensures Apart(n, q, r, c) {
      ApartKept(w, step, q, r, c);
    }
  }

  lemma {:induction false} RunKeeps(w: World, steps: seq<Step>)
    requires Inv(w) && IsRun(w, steps) && CarefulRun(w, steps)
    ensures Inv(Exec(w, steps))
    decreases |steps|
  {
    if steps != [] {
      StepKeeps(w, steps[0]);
      RunKeeps(Next(w, steps[0]), steps[1..]);
    }
  }

  /** Before the first run starts, any rows stamped in the past will do. */
  ghost predicate Start(w: World) { w.runs == map[] && forall c :: Timely(w, c) }

  lemma StartHolds(w: World)
    requires Start(w)
    ensures Inv(w)
  {
  }

  // ---------------------------------------------------------------- what the runs promise each other

  /** A careful step changes a row only by storing it for a run that took the crate on and
      has no rival for it; the final merge changes none. */
  lemma OnlyOwnedRowsChange(w: World, step: Step, c: Crate)
    requires Inv(w) && Enabled(w, step) && Careful(w, step)
    ensures RowOf(Next(w, step).disk, c) == RowOf(w.disk, c)
            || (&& step.Store? && w.runs[step.run].phase.own == Some(c)
                && c in w.runs[step.run].stamps && !Rivals(w, step.run, c))
    ensures c in w.disk ==> c in Next(w, step).disk
  {
    if step.Store? {
      StoreChanges(w, step.run);
      assert Scoped(w.runs[step.run]);
      assert w.runs[step.run].phase.own != Some(c) ==> RowOf(Next(w, step).disk, c) == RowOf(w.disk, c);
    }
  }

  /** Rows only ever get newer. */
  lemma RowsOnlyGetNewer(w: World, step: Step, c: Crate)
    requires Inv(w) && Enabled(w, step) && Careful(w, step) && c in w.disk
    ensures NoOlderTime(Next(w, step).disk, c, w.disk[c])
  {
    OnlyOwnedRowsChange(w, step, c);
    if step.Store? {
      StoreChanges(w, step.run);
    }
  }

  lemma {:induction false} RunPrefix(w: World, steps: seq<Step>, i: nat)
    requires IsRun(w, steps) && CarefulRun(w, steps) && i < |steps|
    ensures IsRun(w, steps[..i]) && CarefulRun(w, steps[..i])
    ensures Enabled(Exec(w, steps[..i]), steps[i]) && Careful(Exec(w, steps[..i]), steps[i])
    decreases i
  {
    if i > 0 {
      RunPrefix(Next(w, steps[0]), steps[1..], i - 1);
      assert steps[..i][0] == steps[0] && steps[..i][1..] == steps[1..][..i - 1];
    }
  }

  /** What holds of a crate's rival in the state before step `i` of a run. */
  ghost predicate RivalAt(w: World, steps: seq<Step>, r: RunId, c: Crate, i: nat) {
    && i < |steps| && IsRun(w, steps[..i])
    && var s := Exec(w, steps[..i]);
       Enabled(s, steps[i]) && r in s.runs && c in s.runs[r].stamps && Rivals(s, r, c)
  }

  lemma {:induction false} RivalLasts(w: World, steps: seq<Step>, r: RunId, c: Crate, i: nat)
    requires Inv(w) && IsRun(w, steps) && CarefulRun(w, steps) && i < |steps|
    requires r in w.runs && c in w.runs[r].stamps && Rivals(w, r, c)
    ensures RivalAt(w, steps, r, c, i)
    decreases i
  {
    if i > 0 {
      RivalStays(w, steps[0], r, c);
      StepKeeps(w, steps[0]);
      RivalLasts(Next(w, steps[0]), steps[1..], r, c, i - 1);
      assert steps[..i][0] == steps[0] && steps[..i][1..] == steps[1..][..i - 1];
    }
  }

  lemma {:induction false} RivalLater(w: World, steps: seq<Step>, r: RunId, c: Crate, i: nat, j: nat)
    requires Inv(w) && IsRun(w, steps) && CarefulRun(w, steps) && i <= j < |steps| && RivalAt(w, steps, r, c, i)
    ensures RivalAt(w, steps, r, c, j)
    decreases i
  {
    if i == 0 {
      RivalLasts(w, steps, r, c, j);
    } else {
      StepKeeps(w, steps[0]);
      assert steps[..i][0] == steps[0] && steps[..i][1..] == steps[1..][..i - 1];
      RivalLater(Next(w, steps[0]), steps[1..], r, c, i - 1, j - 1);
      assert steps[..j][0] == steps[0] && steps[..j][1..] == steps[1..][..j - 1];
    }
  }

  /** Over any careful run of any number of runs: once `r` has found a foreign row for `c`,
      every later check of it does too, and no later step of `r` changes that row. */
  lemma RivalNeverReplaced(w: World, steps: seq<Step>, r: RunId, c: Crate, i: nat, j: nat)
    requires Start(w) && IsRun(w, steps) && CarefulRun(w, steps) && i <= j < |steps| && RivalAt(w, steps, r, c, i)
    ensures RivalAt(w, steps, r, c, j)
    ensures var s := Exec(w, steps[..j]);
            !steps[j].Tick? && steps[j].run == r ==>
              c in s.disk && RowOf(Next(s, steps[j]).disk, c) == RowOf(s.disk, c)
  {
    StartHolds(w);
    RivalLater(w, steps, r, c, i, j);
    RunPrefix(w, steps, j);
    RunKeeps(w, steps[..j]);
    OnlyOwnedRowsChange(Exec(w, steps[..j]), steps[j], c);
  }

  /** What a store must not do: let a row of another crate get older or vanish, or replace
      a rival's row. */
  ghost predicate Considerate(w: World, r: RunId)
    requires Enabled(w, Store(r))
  {
    var own, n := w.runs[r].phase.own, Next(w, Store(r));
    && (forall d :: d in w.disk && own != Some(d) ==> d in n.disk && NoOlder(n.disk, d, w.disk[d]))
    && (own.Some? && own.value in w.runs[r].stamps && Rivals(w, r, own.value) ==>
          RowOf(n.disk, own.value) == RowOf(w.disk, own.value))
  }

  lemma FreshIsConsiderate(w: World, r: RunId)
    requires Inv(w) && Enabled(w, Store(r)) && Fresh(w, r)
    ensures Considerate(w, r)
  {
    StoreChanges(w, r);
    var own, n := w.runs[r].phase.own, Next(w, Store(r));
    forall d | d in w.disk && own != Some(d) ensures d in n.disk && NoOlder(n.disk, d, w.disk[d]) {
      assert RowOf(n.disk, d) == RowOf(w.disk, d);
    }
  }

  lemma ConsiderateIsFresh(w: World, r: RunId)
    requires Inv(w) && Enabled(w, Store(r)) && Considerate(w, r)
    ensures Fresh(w, r)
  {
    var run := w.runs[r];
    assert Scoped(run) && SeenHolds(w, run);
    forall d | run.phase.own != Some(d) ensures RowOf(w.disk, d) == RowOf(run.phase.seen, d) {
      assert Behind(run.phase.seen, w.disk, d);
      assert RowOf(run.phase.rows, d) == RowOf(run.phase.seen, d);
    }
    if run.phase.own.Some? {
      assert StampsHold(w, r, run.phase.own.value);
    }
  }

  /** After every careful run from a file with no runs: a store keeps every row of another
      crate and every rival's row if and only if those rows are still what the run has seen
      and the row it replaces is not a rival's. A stale copy is always an older one. */
  lemma StoreExactly(w: World, steps: seq<Step>, r: RunId)
    requires Start(w) && IsRun(w, steps) && CarefulRun(w, steps) && Enabled(Exec(w, steps), Store(r))
    ensures Considerate(Exec(w, steps), r) <==> Fresh(Exec(w, steps), r)
  {
    StartHolds(w);
    RunKeeps(w, steps);
    if Fresh(Exec(w, steps), r) {
      FreshIsConsiderate(Exec(w, steps), r);
    } else if Considerate(Exec(w, steps), r) {
      ConsiderateIsFresh(Exec(w, steps), r);
    }
  }

  // ---------------------------------------------------------------- one run at a time

  /** A run takes a step only while every other one is idle, as a lock around each check
      and the write it guards would have it. */
  predicate InTurn(w: World, step: Step) {
    step.Tick? || forall q :: q in w.runs && q != step.run ==> w.runs[q].phase.Idle?
  }

  ghost predicate Turns(w: World, steps: seq<Step>)
    requires IsRun(w, steps)
    decreases |steps|
  {
    steps == [] ||
    (&& InTurn(w, steps[0]) && (steps[0].Mark? ==> Careful(w, steps[0]))
     && Turns(Next(w, steps[0]), steps[1..]))
  }

  /** What a run has found out is still so. */
  predicate UpToDate(w: World, r: RunId)
    requires r in w.runs
  {
    match w.runs[r].phase
    case Idle => true
    case Checked(c, _) => c in w.runs[r].stamps && !Rivals(w, r, c)
    case Stamped(c, _, _) => c in w.runs[r].stamps && !Rivals(w, r, c)
    case Writing(own, _, seen, _) =>
      seen == w.disk && (own.Some? && own.value in w.runs[r].stamps ==> !Rivals(w, r, own.value))
  }

  lemma UpToDateStep(w: World, step: Step, r: RunId)
    requires Enabled(w, step) && InTurn(w, step) && r in Next(w, step).runs && (r in w.runs ==> UpToDate(w, r))
    ensures UpToDate(Next(w, step), r)
  {
  }

  /** Then every step is careful, so all of the above holds. */
  lemma {:induction false} TurnsAreCareful(w: World, steps: seq<Step>)
    requires IsRun(w, steps) && Turns(w, steps) && forall r :: r in w.runs ==> UpToDate(w, r)
    ensures CarefulRun(w, steps)
    decreases |steps|
  {
    if steps != [] {
      var n := Next(w, steps[0]);
      forall r | r in n.runs ensures UpToDate(n, r) {
        UpToDateStep(w, steps[0], r);
      }
      TurnsAreCareful(n, steps[1..]);
    }
  }

  // ---------------------------------------------------------------- what a check can see

  /** A row another run wrote at time `t` is recognised exactly when `t` falls in a later
      second than this run's start and in none this run has stamped the crate in. */
  lemma RecognisedExactly(s: Stamp, t: nat)
    requires s.started.Some?
    ensures Foreign(s, Some(t / SECOND)) <==> t / SECOND > s.started.value / SECOND && t / SECOND !in s.own
  {
    SecondOf(t / SECOND, s.started.value);
  }

  // ---------------------------------------------------------------- three runs from an empty file

  /** A tenth of a millisecond into second 10, nothing measured and nobody running. */
  const START: World := World(10_000_100, map[], map[])

  ghost predicate Goes(from: World, to: World, steps: seq<Step>) {
    IsRun(from, steps) && CarefulRun(from, steps) && Exec(from, steps) == to
  }

  ghost predicate Leads(from: World, to: World) { exists steps :: Goes(from, to, steps) }

  lemma {:induction false} GoesNext(a: World, b: World, steps: seq<Step>, step: Step)
    requires Goes(a, b, steps) && Enabled(b, step) && Careful(b, step)
    ensures Goes(a, Next(b, step), steps + [step])
    decreases |steps|
  {
    if steps == [] {
      assert steps + [step] == [step] && [step][1..] == [];
      assert IsRun(Next(b, step), []);
    } else {
      GoesNext(Next(a, steps[0]), b, steps[1..], step);
      assert (steps + [step])[1..] == steps[1..] + [step];
    }
  }

  lemma LeadsNext(a: World, b: World, step: Step)
    requires Leads(a, b) && Enabled(b, step) && Careful(b, step)
    ensures Leads(a, Next(b, step))
  {
    var steps :| Goes(a, b, steps);
    GoesNext(a, b, steps, step);
  }

  lemma LeadsStay(w: World)
    ensures Leads(w, w)
  {
    assert Goes(w, w, []);
  }

  /** Up to the store: no rival, the row stamped, the file read. */
  function Prepared(w: World, r: RunId, c: Crate, final: bool, body: nat): World
    requires r in w.runs && c in w.runs[r].stamps
  {
    var run, at := w.runs[r], w.now / SECOND;
    var row, stamp := Row(Some(at), body), run.stamps[c].(own := run.stamps[c].own + {at});
    w.(runs := w.runs[r := run.(mem := run.mem[c := row], stamps := run.stamps[c := stamp],
                                phase := Writing(Some(c), final, w.disk, w.disk[c := row]))])
  }

  lemma Prepares(from: World, w: World, r: RunId, c: Crate, final: bool, body: nat)
    requires Leads(from, w) && Enabled(w, Check(r, c, final)) && !Rivals(w, r, c) && AloneThisSecond(w, r, c)
    ensures Leads(from, Prepared(w, r, c, final, body))
    ensures Enabled(Prepared(w, r, c, final, body), Store(r))
  {
    var w1 := Next(w, Check(r, c, final));
    LeadsNext(from, w, Check(r, c, final));
    var w2 := Next(w1, Mark(r, body));
    LeadsNext(from, w1, Mark(r, body));
    LeadsNext(from, w2, Load(r));
    assert Next(w2, Load(r)) == Prepared(w, r, c, final, body);
  }

  /** A row measured with nothing in between. */
  function Measured(w: World, r: RunId, c: Crate, final: bool, body: nat): World
    requires r in w.runs && c in w.runs[r].stamps
  {
    var run, at := w.runs[r], w.now / SECOND;
    var row, stamp := Row(Some(at), body), run.stamps[c].(own := run.stamps[c].own + {at});
    World(w.now, w.disk[c := row],
          w.runs[r := Run(w.disk[c := row], run.stamps[c := stamp], if final then run.done + {c} else run.done,
                          run.dropped, run.last[c := row], Idle)])
  }

  lemma Measures(from: World, w: World, r: RunId, c: Crate, final: bool, body: nat)
    requires Leads(from, w) && Enabled(w, Check(r, c, final)) && !Rivals(w, r, c) && AloneThisSecond(w, r, c)
    ensures Leads(from, Measured(w, r, c, final, body))
  {
    Prepares(from, w, r, c, final, body);
    var p := Prepared(w, r, c, final, body);
    assert !Rivals(p, r, c);
    LeadsNext(from, p, Store(r));
    assert Next(p, Store(r)) == Measured(w, r, c, final, body);
  }

  const FRESH_RUN: Run := Run(map[], map[], {}, {}, map[], Idle)

  function Began(c: Crate): Run { FRESH_RUN.(stamps := map[c := Stamp({}, Some(10_000_100))]) }

  /** Two runs have started, and each has taken on a crate. */
  function BothBegan(a: Crate, b: Crate): World { World(10_000_100, map[], map[0 := Began(a), 1 := Began(b)]) }

  lemma BothBegin(a: Crate, b: Crate)
    ensures Leads(START, BothBegan(a, b))
  {
    LeadsStay(START);
    var one := World(10_000_100, map[], map[0 := FRESH_RUN]);
    assert Next(START, Launch(0)) == one;
    LeadsNext(START, START, Launch(0));
    var two := World(10_000_100, map[], map[0 := FRESH_RUN, 1 := FRESH_RUN]);
    assert Next(one, Launch(1)) == two;
    LeadsNext(START, one, Launch(1));
    var three := World(10_000_100, map[], map[0 := Began(a), 1 := FRESH_RUN]);
    assert Next(two, Begin(0, a)) == three;
    LeadsNext(START, two, Begin(0, a));
    assert Next(three, Begin(1, b)) == BothBegan(a, b);
    LeadsNext(START, three, Begin(1, b));
  }

  /** Distinct crates are not safe: the row of "b" vanishes when a run that never took "b"
      on stores the copy of the file it read before that row was there. */
  lemma LostRow() returns (w: World)
    ensures Leads(START, w) && w.disk == map["b" := Row(Some(10), 9)] && 0 in w.runs && "b" !in w.runs[0].stamps
    ensures Enabled(w, Store(0)) && Next(w, Store(0)).disk == map["a" := Row(Some(10), 7)]
  {
    BothBegin("a", "b");
    var began := BothBegan("a", "b");
    Prepares(START, began, 0, "a", true, 7);
    var ready := Prepared(began, 0, "a", true, 7);
    Measures(START, ready, 1, "b", true, 9);
    w := Measured(ready, 1, "b", true, 9);
  }

  /** Both runs have taken "a" on; one measures it in second 20, the other finds that row,
      gives "a" up and goes on to "b". */
  lemma GivenUp() returns (w: World)
    ensures Leads(START, w) && w.now == 20_000_100 && w.runs.Keys == {0, 1}
    ensures w.disk == map["a" := Row(Some(20), 7)]
    ensures w.runs[0] == Run(map[], map["a" := Stamp({}, Some(10_000_100)), "b" := Stamp({}, Some(20_000_100))],
                             {"a"}, {"a"}, map[], Idle)
    ensures w.runs[1] == Run(w.disk, map["a" := Stamp({20}, Some(10_000_100))], {}, {}, w.disk, Idle)
  {
    BothBegin("a", "a");
    var began := BothBegan("a", "a");
    LeadsNext(START, began, Tick(10_000_000));
    var later := Next(began, Tick(10_000_000));
    Measures(START, later, 1, "a", false, 7);
    var found := Measured(later, 1, "a", false, 7);
    assert {} + {20} == {20};
    LeadsNext(START, found, Check(0, "a", true));
    var dropped := Next(found, Check(0, "a", true));
    assert {} + {"a"} == {"a"};
    LeadsNext(START, dropped, Begin(0, "b"));
    w := Next(dropped, Begin(0, "b"));
  }

  /** A rival's row is not safe either: a run that has given "a" up stores "b", and with it
      the row of "a" it had seen, in place of a newer one. */
  lemma RivalReplaced() returns (w: World)
    ensures Leads(START, w) && 0 in w.runs && "a" in w.runs[0].dropped && "a" in w.runs[0].stamps && Rivals(w, 0, "a")
    ensures w.disk == map["a" := Row(Some(30), 8)]
    ensures Enabled(w, Store(0)) && Next(w, Store(0)).disk == map["a" := Row(Some(20), 7), "b" := Row(Some(20), 1)]
  {
    var given := GivenUp();
    Prepares(START, given, 0, "b", true, 1);
    var ready := Prepared(given, 0, "b", true, 1);
    LeadsNext(START, ready, Tick(10_000_000));
    var later := Next(ready, Tick(10_000_000));
    Measures(START, later, 1, "a", true, 8);
    w := Measured(later, 1, "a", true, 8);
  }

  /** Both runs have taken "a" on, and one has measured it before second 10 is over. */
  lemma MeasuredAtOnce() returns (w: World)
    ensures Leads(START, w) && w.now == 20_900_000 && w.disk == map["a" := Row(Some(10), 7)]
    ensures w.runs.Keys == {0, 1} && w.runs[0] == Began("a")
    ensures w.runs[1].stamps == map["a" := Stamp({10}, Some(10_000_100))]
  {
    BothBegin("a", "a");
    var began := BothBegan("a", "a");
    LeadsNext(START, began, Tick(899_900));
    var later := Next(began, Tick(899_900));
    Measures(START, later, 1, "a", true, 7);
    var found := Measured(later, 1, "a", true, 7);
    assert {} + {10} == {10};
    LeadsNext(START, found, Tick(10_000_000));
    w := Next(found, Tick(10_000_000));
  }

  /** And a rival that finishes after this run started, but within the same second, is not
      recognised: its row is on disk, and a careful store takes its place. */
  lemma SameSecondRivalOverwritten() returns (w: World)
    ensures Leads(START, w) && w.disk == map["a" := Row(Some(10), 7)]
    ensures Enabled(w, Store(0)) && Careful(w, Store(0)) && Next(w, Store(0)).disk == map["a" := Row(Some(20), 8)]
  {
    var found := MeasuredAtOnce();
    assert found.now / SECOND == 20;
    assert !Rivals(found, 0, "a");
    Prepares(START, found, 0, "a", true, 8);
    w := Prepared(found, 0, "a", true, 8);
    assert !Rivals(w, 0, "a");
  }
}
