/**
 Module-by-module coverage of a crate (`settles`, `coverage_row` and `measure_modules` in
 scripts/lean_gap_inventory.py). A module map keeps insertion order, as a Python
 dictionary does; a report is whatever running the measurement on a module returns.
 */
module Coverage {
  import opened Base

  type Module = string

  datatype ModuleRow = ModuleRow(stage: Option<string>, error: Option<string>, seconds: nat)

  datatype Entry = Entry(mod: Module, row: ModuleRow)

  type Rows = seq<Entry>

  datatype Scope = WholeCrate | Modules(concluded: nat, total: nat) | Nothing

  datatype Stop = Stop(mod: Module, stage: Option<string>, error: Option<string>)

  datatype Measurement = Measurement(
    scope: Scope, stage: string, modules: Rows, stopped: Option<Stop>, seconds: nat, crateLevel: string)

  datatype StoredRow = StoredRow(fingerprint: Option<string>, measurement: Option<Measurement>)

  const CONCLUDED_STAGES: set<string> := {"aeneas", "compiled", "aeneas-crash"}

  predicate Concluded(r: ModuleRow) { r.stage.Some? && r.stage.value in CONCLUDED_STAGES }

  predicate AllConcluded(rows: Rows) { forall i :: 0 <= i < |rows| ==> Concluded(rows[i].row) }

  /** Whether a stored row answers the coverage question for this fingerprint. */
  predicate Settles(r: StoredRow, fingerprint: string) {
    && r.measurement.Some? && r.fingerprint == Some(fingerprint)
    && var m := r.measurement.value;
       if m.stage == "modules" then m.modules != [] && AllConcluded(m.modules)
       else m.scope.WholeCrate? && m.stage in CONCLUDED_STAGES
  }

  // ---------------------------------------------------------------- the crate's row

  function CountConcluded(rows: Rows): (n: nat)
    ensures n <= |rows| && (n == |rows| <==> AllConcluded(rows))
  {
    if rows == [] then 0
    else
      var rest := CountConcluded(rows[1..]);
      assert AllConcluded(rows) <==> Concluded(rows[0].row) && AllConcluded(rows[1..]);
      (if Concluded(rows[0].row) then 1 else 0) + rest
  }

  function Seconds(rows: Rows): nat { if rows == [] then 0 else rows[0].row.seconds + Seconds(rows[1..]) }

  /** The first module that did not conclude. */
  function FirstOpen(rows: Rows): (e: Option<Entry>)
    ensures e.None? <==> AllConcluded(rows)
    ensures e.Some? ==>
              exists i :: 0 <= i < |rows| && rows[i] == e.value && !Concluded(e.value.row) && AllConcluded(rows[..i])
  {
    if rows == [] then None
    else if !Concluded(rows[0].row) then
      assert AllConcluded(rows[..0]);
      Some(rows[0])
    else
      var rest := FirstOpen(rows[1..]);
      assert forall i :: 0 <= i < |rows[1..]| && AllConcluded(rows[1..][..i]) ==> AllConcluded(rows[..i + 1]) by {
        forall i | 0 <= i < |rows[1..]| && AllConcluded(rows[1..][..i]) ensures AllConcluded(rows[..i + 1]) {
          assert rows[..i + 1] == [rows[0]] + rows[1..][..i];
        }
      }
      rest
  }

  function CoverageRow(rows: Rows, crateLevel: string): Measurement {
    var done := CountConcluded(rows);
    var open := FirstOpen(rows);
    Measurement(Modules(done, |rows|), if rows != [] && done == |rows| then "modules" else "modules-partial",
                rows,
                if open.None? then None else Some(Stop(open.value.mod, open.value.row.stage, open.value.row.error)),
                Seconds(rows), crateLevel)
  }

  /** A coverage row settles exactly when it lists a module and all it lists concluded. */
  lemma CoverageSettlesExactly(rows: Rows, crateLevel: string, fingerprint: string)
    ensures Settles(StoredRow(Some(fingerprint), Some(CoverageRow(rows, crateLevel))), fingerprint)
       <==> rows != [] && AllConcluded(rows)
  {
    assert "modules" != "modules-partial" by { assert |"modules"| != |"modules-partial"|; }
  }

  /** It names a stopping place exactly when it does not settle for want of a conclusion,
      and that place is the first in the map's order. */
  lemma StoppedIsFirst(rows: Rows, crateLevel: string)
    ensures var stop := CoverageRow(rows, crateLevel).stopped;
            && (stop.None? <==> AllConcluded(rows))
            && (stop.Some? ==> exists i :: 0 <= i < |rows| && AllConcluded(rows[..i]) && !Concluded(rows[i].row)
                                 && stop == Some(Stop(rows[i].mod, rows[i].row.stage, rows[i].row.error)))
  {
    var open := FirstOpen(rows);
    if open.Some? {
      var i :| 0 <= i < |rows| && rows[i] == open.value && !Concluded(open.value.row) && AllConcluded(rows[..i]);
    }
  }

  // ---------------------------------------------------------------- the module map

  function Lookup(rows: Rows, m: Module): Option<ModuleRow> {
    if rows == [] then None else if rows[0].mod == m then Some(rows[0].row) else Lookup(rows[1..], m)
  }

  function Put(rows: Rows, m: Module, row: ModuleRow): Rows {
    if rows == [] then [Entry(m, row)]
    else if rows[0].mod == m then [Entry(m, row)] + rows[1..]
    else [rows[0]] + Put(rows[1..], m, row)
  }

  predicate Unique(rows: Rows) { forall i, j :: 0 <= i < j < |rows| ==> rows[i].mod != rows[j].mod }

  lemma {:induction false} LookupPut(rows: Rows, m: Module, row: ModuleRow, k: Module)
    ensures Lookup(Put(rows, m, row), k) == if k == m then Some(row) else Lookup(rows, k)
    decreases |rows|
  {
    if rows != [] && rows[0].mod != m {
      LookupPut(rows[1..], m, row, k);
    }
  }

  lemma {:induction false} LookupHas(rows: Rows, k: Module)
    ensures Lookup(rows, k).None? <==> forall i :: 0 <= i < |rows| ==> rows[i].mod != k
    decreases |rows|
  {
    if rows != [] {
      LookupHas(rows[1..], k);
      assert forall i :: 0 < i < |rows| ==> rows[i] == rows[1..][i - 1];
      if Lookup(rows, k).None? {
        forall i | 0 <= i < |rows| ensures rows[i].mod != k {
          assert i > 0 ==> rows[1..][i - 1].mod != k;
        }
      }
    }
  }

  lemma {:induction false} PutUnique(rows: Rows, m: Module, row: ModuleRow)
    requires Unique(rows)
    ensures Unique(Put(rows, m, row)) && Put(rows, m, row) != []
    ensures forall e :: e in Put(rows, m, row) ==> e.mod == m || e in rows
    decreases |rows|
  {
    if rows != [] && rows[0].mod != m {
      var rest := Put(rows[1..], m, row);
      PutUnique(rows[1..], m, row);
      forall j | 0 <= j < |rest| ensures rest[j].mod != rows[0].mod {
        assert rest[j] in rest;
      }
    }
  }

  /** Under this key there is nothing left open. */
  predicate Closed(rows: Rows, k: Module) { Lookup(rows, k).Some? ==> Concluded(Lookup(rows, k).value) }

  /** In a map, every entry concluded is the same as every key being closed. */
  lemma {:induction false} AllConcludedByKey(rows: Rows)
    requires Unique(rows)
    ensures AllConcluded(rows) <==> forall k :: Closed(rows, k)
    decreases |rows|
  {
    if rows != [] {
      var rest, first := rows[1..], rows[0].mod;
      AllConcludedByKey(rest);
      LookupHas(rest, first);
      assert AllConcluded(rows) <==> Concluded(rows[0].row) && AllConcluded(rest);
      assert Closed(rows, first) <==> Concluded(rows[0].row);
      forall k ensures Closed(rest, k) <==> k == first || Closed(rows, k) {
        assert Lookup(rest, first).None?;
      }
    }
  }

  // ---------------------------------------------------------------- sweeping

  predicate DoneIn(rows: Rows, m: Module) { Lookup(rows, m).Some? && Concluded(Lookup(rows, m).value) }

  function Swept(rows: Rows, mods: seq<Module>, report: Module -> ModuleRow): Rows
    decreases |mods|
  {
    if mods == [] then rows
    else if DoneIn(rows, mods[0]) then Swept(rows, mods[1..], report)
    else Swept(Put(rows, mods[0], report(mods[0])), mods[1..], report)
  }

  function Ran(rows: Rows, mods: seq<Module>, report: Module -> ModuleRow): seq<Module>
    decreases |mods|
  {
    if mods == [] then []
    else if DoneIn(rows, mods[0]) then Ran(rows, mods[1..], report)
    else [mods[0]] + Ran(Put(rows, mods[0], report(mods[0])), mods[1..], report)
  }

  /** Cover a crate one run per module, keeping the rows an earlier sweep concluded. */
  method MeasureModules(mods: seq<Module>, prior: Rows, report: Module -> ModuleRow, crateLevel: string, seconds: nat)
    returns (m: Measurement, ran: seq<Module>)
    ensures mods == [] ==> m == Measurement(Nothing, "no_module", [], None, seconds, crateLevel) && ran == []
    ensures mods != [] ==> m == CoverageRow(Swept(prior, mods, report), crateLevel) && ran == Ran(prior, mods, report)
  {
    ran := [];
    if mods == [] {
      return Measurement(Nothing, "no_module", [], None, seconds, crateLevel), [];
    }
    var rows := prior;
    for n := 0 to |mods|
      invariant Swept(rows, mods[n..], report) == Swept(prior, mods, report)
      invariant ran + Ran(rows, mods[n..], report) == Ran(prior, mods, report)
    {
      assert mods[n..][0] == mods[n] && mods[n..][1..] == mods[n + 1..];
      if !DoneIn(rows, mods[n]) {
        rows, ran := Put(rows, mods[n], report(mods[n])), ran + [mods[n]];
      }
    }
    m := CoverageRow(rows, crateLevel);
  }

  /** What the sweep leaves under each key. */
  lemma {:induction false} SweptLookup(rows: Rows, mods: seq<Module>, report: Module -> ModuleRow, k: Module)
    ensures Lookup(Swept(rows, mods, report), k) ==
            if k in mods && !DoneIn(rows, k) then Some(report(k)) else Lookup(rows, k)
    decreases |mods|
  {
    if mods != [] {
      var m := mods[0];
      if DoneIn(rows, m) {
        SweptLookup(rows, mods[1..], report, k);
      } else {
        SweptLookup(Put(rows, m, report(m)), mods[1..], report, k);
        LookupPut(rows, m, report(m), k);
      }
      assert k in mods <==> k == m || k in mods[1..];
    }
  }

  lemma {:induction false} SweptUnique(rows: Rows, mods: seq<Module>, report: Module -> ModuleRow)
    requires Unique(rows)
    ensures Unique(Swept(rows, mods, report)) && (mods != [] ==> Swept(rows, mods, report) != [])
    decreases |mods|
  {
    if mods != [] {
      var m := mods[0];
      if DoneIn(rows, m) {
        SweptUnique(rows, mods[1..], report);
        SweptLookup(rows, mods, report, m);
        LookupHas(Swept(rows, mods, report), m);
      } else {
        PutUnique(rows, m, report(m));
        SweptUnique(Put(rows, m, report(m)), mods[1..], report);
        SweptLookup(rows, mods, report, m);
        LookupHas(Swept(rows, mods, report), m);
      }
    }
  }

  /** The row a sweep returns settles exactly when every module of the crate root and every
      row carried over from before concluded. */
  lemma SweepSettlesExactly(mods: seq<Module>, prior: Rows, report: Module -> ModuleRow, crateLevel: string,
        fingerprint: string)
    requires mods != [] && Unique(prior)
    ensures Settles(StoredRow(Some(fingerprint), Some(CoverageRow(Swept(prior, mods, report), crateLevel))),
                fingerprint) <==>
            && (forall m :: m in mods ==> DoneIn(prior, m) || Concluded(report(m)))
            && (forall k :: k !in mods ==> Closed(prior, k))
  {
    var rows := Swept(prior, mods, report);
    CoverageSettlesExactly(rows, crateLevel, fingerprint);
    SweptUnique(prior, mods, report);
    AllConcludedByKey(rows);
    forall k ensures Closed(rows, k) <==>
      if k in mods then DoneIn(prior, k) || Concluded(report(k)) else Closed(prior, k) {
      SweptLookup(prior, mods, report, k);
    }
  }

  /** A crate without modules never settles. */
  lemma NoModulesNeverSettle(seconds: nat, crateLevel: string, fingerprint: string)
    ensures !Settles(StoredRow(Some(fingerprint),
                Some(Measurement(Nothing, "no_module", [], None, seconds, crateLevel))), fingerprint)
  {
    assert "no_module"[0] != "modules"[0];
  }

  /** Resuming runs exactly the modules without a conclusion, in order. */
  function Unfinished(prior: Rows, mods: seq<Module>): seq<Module> {
    if mods == [] then []
    else (if DoneIn(prior, mods[0]) then [] else [mods[0]]) + Unfinished(prior, mods[1..])
  }

  lemma {:induction false} RunsOnlyUnfinished(rows: Rows, prior: Rows, mods: seq<Module>, report: Module -> ModuleRow)
    requires forall i, j :: 0 <= i < j < |mods| ==> mods[i] != mods[j]
    requires forall m :: m in mods ==> Lookup(rows, m) == Lookup(prior, m)
    ensures Ran(rows, mods, report) == Unfinished(prior, mods)
    ensures forall m :: m in Ran(rows, mods, report) ==> m in mods && !DoneIn(prior, m)
    decreases |mods|
  {
    if mods != [] {
      var m := mods[0];
      assert m in mods && forall k :: k in mods[1..] ==> k in mods && k != m;
      if DoneIn(rows, m) {
        RunsOnlyUnfinished(rows, prior, mods[1..], report);
      } else {
        forall k | k in mods[1..] ensures Lookup(Put(rows, m, report(m)), k) == Lookup(prior, k) {
          LookupPut(rows, m, report(m), k);
        }
        RunsOnlyUnfinished(Put(rows, m, report(m)), prior, mods[1..], report);
      }
    }
  }

  // ---------------------------------------------------------------- rows an interrupted sweep leaves

  /** The row written after the first `n` modules: what came before plus what is finished. */
  function ProgressRow(prior: Rows, mods: seq<Module>, report: Module -> ModuleRow, n: nat,
        crateLevel: string): Measurement
    requires n <= |mods|
  {
    CoverageRow(Swept(prior, mods[..n], report), crateLevel)
  }

  /** An interrupted sweep settles exactly when what it has finished and what it carried
      over concluded, whatever is left to do. */
  lemma InterruptedSettlesExactly(
    mods: seq<Module>, prior: Rows, report: Module -> ModuleRow, n: nat, crateLevel: string, fingerprint: string)
    requires 0 < n <= |mods| && Unique(prior)
    ensures Settles(StoredRow(Some(fingerprint), Some(ProgressRow(prior, mods, report, n, crateLevel))),
                fingerprint) <==>
            && (forall m :: m in mods[..n] ==> DoneIn(prior, m) || Concluded(report(m)))
            && (forall k :: k !in mods[..n] ==> Closed(prior, k))
  {
    SweepSettlesExactly(mods[..n], prior, report, crateLevel, fingerprint);
  }

  const GOOD: ModuleRow := ModuleRow(Some("compiled"), None, 1)
  const KILLED: ModuleRow := ModuleRow(Some("oom"), None, 1)

  lemma GoodAndKilled()
    ensures Concluded(GOOD) && !Concluded(KILLED)
  {
    assert |"oom"| != |"aeneas"| && |"oom"| != |"compiled"| && |"oom"| != |"aeneas-crash"|;
  }

  /** So a sweep stopped after one good module of two leaves a row that settles, although
      the second module was never measured and would not conclude. */
  lemma InterruptedRowSettles(a: Module, b: Module, fingerprint: string)
    requires a != b
    ensures var report := (m: Module) => if m == a then GOOD else KILLED;
            && Settles(StoredRow(Some(fingerprint), Some(ProgressRow([], [a, b], report, 1, "oom"))), fingerprint)
            && !Settles(StoredRow(Some(fingerprint), Some(ProgressRow([], [a, b], report, 2, "oom"))), fingerprint)
  {
    var report := (m: Module) => if m == a then GOOD else KILLED;
    GoodAndKilled();
    InterruptedSettlesExactly([a, b], [], report, 1, "oom", fingerprint);
    InterruptedSettlesExactly([a, b], [], report, 2, "oom", fingerprint);
    assert [a, b][..1] == [a] && [a, b][..2] == [a, b];
    assert !DoneIn([], b);
  }

  /** And rows carried over from another fingerprint are taken as they are: when all of
      them concluded, a sweep under a new fingerprint runs nothing and settles for it. */
  lemma StalePriorSettles(mods: seq<Module>, prior: Rows, report: Module -> ModuleRow, crateLevel: string,
        fingerprint: string)
    requires mods != [] && Unique(prior) && AllConcluded(prior) && forall m :: m in mods ==> Lookup(prior, m).Some?
    ensures Ran(prior, mods, report) == [] && Swept(prior, mods, report) == prior
    ensures Settles(StoredRow(Some(fingerprint), Some(CoverageRow(Swept(prior, mods, report), crateLevel))),
                fingerprint)
  {
    AllConcludedByKey(prior);
    forall m | m in mods ensures DoneIn(prior, m) {
      assert Closed(prior, m);
    }
    NothingToRun(prior, mods, report);
    SweepSettlesExactly(mods, prior, report, crateLevel, fingerprint);
  }

  lemma {:induction false} NothingToRun(prior: Rows, mods: seq<Module>, report: Module -> ModuleRow)
    requires forall m :: m in mods ==> DoneIn(prior, m)
    ensures Ran(prior, mods, report) == [] && Swept(prior, mods, report) == prior
    decreases |mods|
  {
    if mods != [] {
      assert mods[0] in mods;
      NothingToRun(prior, mods[1..], report);
    }
  }
}
