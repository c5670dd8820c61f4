/**
 Incremental maintenance of materialized views (ferrosa-view/src: validate.rs, delta.rs,
 metadata.rs). The view's primary-key columns are read from the base row by name; a base
 row is in the view while all of them have a value.
 */
module ViewDelta {
  import opened Base

  type Column = string
  type Value = seq<nat>

  // ---------------------------------------------------------------- definitions

  datatype Source = FromBase(column: Column) | Computed(deterministic: bool) | Aggregate

  datatype ViewColumn = ViewColumn(name: Column, source: Source)

  datatype View = View(selected: seq<ViewColumn>, partitionKey: seq<Column>, clusteringKey: seq<Column>,
        notNull: seq<Column>) {
    function PrimaryKey(): seq<Column> { partitionKey + clusteringKey }
  }

  datatype BaseTable = BaseTable(partitionKey: seq<Column>, clusteringKey: seq<Column>, statics: set<Column>,
        counter: bool) {
    function PrimaryKey(): seq<Column> { partitionKey + clusteringKey }
  }

  datatype DefError =
    | ChainedView | CounterBase
    | MissingBaseKey(column: Column) | TooManyExtraKeys(extra: seq<Column>)
    | ComputedKey(column: Column) | NullableKey(column: Column)
    | AggregateColumn(column: Column) | NondeterministicColumn(column: Column) | StaticColumn(column: Column)

  function SourceOf(view: View, name: Column, n: nat): Option<Source>
    decreases |view.selected| - n
  {
    if n >= |view.selected| then None
    else if view.selected[n].name == name then Some(view.selected[n].source)
    else SourceOf(view, name, n + 1)
  }

  /** The first column of `columns` that fails `ok`. */
  function FirstBad(columns: seq<Column>, ok: Column -> bool): (r: Option<Column>)
    ensures r.None? <==> forall c :: c in columns ==> ok(c)
    ensures r.Some? ==> r.value in columns && !ok(r.value)
  {
    if columns == [] then None else if !ok(columns[0]) then Some(columns[0]) else FirstBad(columns[1..], ok)
  }

  function Extras(base: BaseTable, columns: seq<Column>): seq<Column> {
    if columns == [] then []
    else (if columns[0] in base.PrimaryKey() then [] else [columns[0]]) + Extras(base, columns[1..])
  }

  function ColumnError(base: BaseTable, c: ViewColumn): Option<DefError> {
    match c.source
    case Aggregate => Some(AggregateColumn(c.name))
    case Computed(deterministic) => if deterministic then None else Some(NondeterministicColumn(c.name))
    case FromBase(column) => if column in base.statics then Some(StaticColumn(c.name)) else None
  }

  function FirstColumnError(base: BaseTable, columns: seq<ViewColumn>): (r: Option<DefError>)
    ensures r.None? <==> forall i :: 0 <= i < |columns| ==> ColumnError(base, columns[i]).None?
  {
    if columns == [] then None
    else if ColumnError(base, columns[0]).Some? then ColumnError(base, columns[0])
    else
      var rest := FirstColumnError(base, columns[1..]);
      assert forall i :: 0 < i < |columns| ==> columns[i] == columns[1..][i - 1];
      rest
  }

  predicate PlainKey(view: View, c: Column) {
    var source := SourceOf(view, c, 0);
    source.None? || source.value.FromBase?
  }

  /** The first violated rule, or none. */
  function Validate(base: BaseTable, view: View, baseIsView: bool): Option<DefError> {
    var key := view.PrimaryKey();
    var missing := FirstBad(base.PrimaryKey(), c => c in key);
    var extra := Extras(base, key);
    var computed := FirstBad(key, c => PlainKey(view, c));
    var nullable := FirstBad(key, c => c in view.notNull);
    if baseIsView then Some(ChainedView)
    else if base.counter then Some(CounterBase)
    else if missing.Some? then Some(MissingBaseKey(missing.value))
    else if |extra| > 1 then Some(TooManyExtraKeys(extra))
    else if computed.Some? then Some(ComputedKey(computed.value))
    else if nullable.Some? then Some(NullableKey(nullable.value))
    else FirstColumnError(base, view.selected)
  }

  /** Accepted means every rule holds; in particular the view key covers the base key. */
  lemma AcceptedExactly(base: BaseTable, view: View, baseIsView: bool)
    ensures Validate(base, view, baseIsView).None? <==>
            && !baseIsView && !base.counter
            && (forall c :: c in base.PrimaryKey() ==> c in view.PrimaryKey())
            && |Extras(base, view.PrimaryKey())| <= 1
            && (forall c :: c in view.PrimaryKey() ==> PlainKey(view, c) && c in view.notNull)
            && (forall i :: 0 <= i < |view.selected| ==> ColumnError(base, view.selected[i]).None?)
  {
  }

  // ---------------------------------------------------------------- deltas

  type Row = map<Column, Value>

  datatype Cell = Cell(column: Column, value: Value)

  datatype Delta =
    | Upsert(key: seq<Cell>, columns: seq<Cell>, timestamp: int)
    | Delete(key: seq<Cell>, timestamp: int)

  predicate Projects(view: View, row: Row) { forall c :: c in view.PrimaryKey() ==> c in row }

  function Get(row: Row, c: Column): Value { if c in row then row[c] else [] }

  predicate SameKey(view: View, p: Row, n: Row) { forall c :: c in view.PrimaryKey() ==> Get(p, c) == Get(n, c) }

  function KeyCells(columns: seq<Column>, row: Row): (r: seq<Cell>)
    ensures |r| == |columns| && forall i :: 0 <= i < |columns| ==> r[i] == Cell(columns[i], Get(row, columns[i]))
  {
    seq(|columns|, i requires 0 <= i < |columns| => Cell(columns[i], Get(row, columns[i])))
  }

  function KeyOf(view: View, row: Row): seq<Cell> { KeyCells(view.PrimaryKey(), row) }

  function ColumnsFrom(selected: seq<ViewColumn>, row: Row): seq<Cell> {
    if selected == [] then []
    else
      (match selected[0].source
       case FromBase(column) => if column in row then [Cell(selected[0].name, row[column])] else []
       case _ => []) + ColumnsFrom(selected[1..], row)
  }

  function UpsertOf(view: View, row: Row, timestamp: int): Delta {
    Upsert(KeyOf(view, row), ColumnsFrom(view.selected, row), timestamp)
  }

  function Deltas(view: View, prior: Option<Row>, next: Option<Row>, timestamp: int): seq<Delta> {
    var was := if prior.Some? && Projects(view, prior.value) then prior else None;
    var now := if next.Some? && Projects(view, next.value) then next else None;
    match (was, now)
    case (None, None) => []
    case (None, Some(n)) => [UpsertOf(view, n, timestamp)]
    case (Some(p), None) => [Delete(KeyOf(view, p), timestamp)]
    case (Some(p), Some(n)) =>
      if SameKey(view, p, n) then [UpsertOf(view, n, timestamp)]
      else [Delete(KeyOf(view, p), timestamp), UpsertOf(view, n, timestamp)]
  }

  // ---------------------------------------------------------------- base and view contents

  type Contents = map<seq<Cell>, seq<Cell>>

  function Apply(m: Contents, d: Delta): Contents {
    match d
    case Upsert(key, columns, _) => m[key := columns]
    case Delete(key, _) => m - {key}
  }

  function ApplyAll(m: Contents, ds: seq<Delta>): Contents
    decreases |ds|
  {
    if ds == [] then m else ApplyAll(Apply(m, ds[0]), ds[1..])
  }

  type Rows = map<seq<Cell>, Row>

  /** Base rows are filed under their own primary key, which is never null. */
  predicate Filed(base: BaseTable, rows: Rows) {
    forall k :: k in rows ==>
      (forall c :: c in base.PrimaryKey() ==> c in rows[k]) && k == KeyCells(base.PrimaryKey(), rows[k])
  }

  /** The view recomputed from the base: a row for each projected base row, and no other. */
  ghost predicate IsViewOf(view: View, rows: Rows, m: Contents) {
    && (forall k :: k in rows && Projects(view, rows[k]) ==>
          KeyOf(view, rows[k]) in m && m[KeyOf(view, rows[k])] == ColumnsFrom(view.selected, rows[k]))
    && (forall v :: v in m ==> exists k :: k in rows && Projects(view, rows[k]) && KeyOf(view, rows[k]) == v)
  }

  /** That describes one set of contents only. */
  lemma RecomputedOnce(view: View, rows: Rows, a: Contents, b: Contents)
    requires IsViewOf(view, rows, a) && IsViewOf(view, rows, b)
    ensures a == b
  {
    assert forall v :: v in a <==> v in b;
  }

  /** Equal view keys come from rows that agree on every view-key column. */
  lemma KeyDecides(view: View, p: Row, n: Row)
    ensures KeyOf(view, p) == KeyOf(view, n) <==> SameKey(view, p, n)
  {
    var key := view.PrimaryKey();
    if KeyOf(view, p) == KeyOf(view, n) {
      forall c | c in key ensures Get(p, c) == Get(n, c) {
        var i :| 0 <= i < |key| && key[i] == c;
        assert KeyOf(view, p)[i] == KeyOf(view, n)[i];
      }
    } else {
      assert exists i :: 0 <= i < |key| && KeyOf(view, p)[i] != KeyOf(view, n)[i];
    }
  }

  predicate Covers(base: BaseTable, view: View) { forall c :: c in base.PrimaryKey() ==> c in view.PrimaryKey() }

  lemma CoveredApart(base: BaseTable, view: View, rows: Rows, j: seq<Cell>, k: seq<Cell>)
    requires Covers(base, view) && Filed(base, rows) && j in rows && k in rows
    requires KeyOf(view, rows[j]) == KeyOf(view, rows[k])
    ensures j == k
  {
    KeyDecides(view, rows[j], rows[k]);
    assert KeyCells(base.PrimaryKey(), rows[j]) == KeyCells(base.PrimaryKey(), rows[k]);
  }

  /** An accepted view keeps different base rows apart. */
  lemma RowsStayApart(base: BaseTable, view: View, rows: Rows, j: seq<Cell>, k: seq<Cell>)
    requires Validate(base, view, false).None? && Filed(base, rows) && j in rows && k in rows
    requires KeyOf(view, rows[j]) == KeyOf(view, rows[k])
    ensures j == k
  {
    AcceptedExactly(base, view, false);
    CoveredApart(base, view, rows, j, k);
  }

  predicate Collide(view: View, rows: Rows, j: seq<Cell>, k: seq<Cell>) {
    && j in rows && k in rows && Projects(view, rows[j]) && Projects(view, rows[k])
    && KeyOf(view, rows[j]) == KeyOf(view, rows[k])
  }

  /** No table has two rows that the view would file under one key. */
  ghost predicate KeepsApart(base: BaseTable, view: View) {
    forall rows, j, k :: Filed(base, rows) && Collide(view, rows, j, k) ==> j == k
  }

  function Uniform(columns: seq<Column>): Row { map c | c in columns :: [0] }

  /** Two rows that differ only in a base-key column the view key leaves out. */
  lemma UncoveredCollide(base: BaseTable, view: View, c: Column) returns (rows: Rows, j: seq<Cell>, k: seq<Cell>)
    requires c in base.PrimaryKey() && c !in view.PrimaryKey()
    ensures Filed(base, rows) && Collide(view, rows, j, k) && j != k
  {
    var key := base.PrimaryKey();
    var a := Uniform(key + view.PrimaryKey());
    var b := a[c := [1]];
    j, k := KeyCells(key, a), KeyCells(key, b);
    var i :| 0 <= i < |key| && key[i] == c;
    assert j[i] != k[i];
    rows := map[j := a, k := b];
    KeyDecides(view, a, b);
  }

  /** The rule on keys is exact: a view keeps the rows of every table apart if and only if
      its key covers the base key. */
  lemma CoversExactly(base: BaseTable, view: View)
    ensures KeepsApart(base, view) <==> Covers(base, view)
  {
    if Covers(base, view) {
      forall rows, j, k | Filed(base, rows) && Collide(view, rows, j, k) ensures j == k {
        CoveredApart(base, view, rows, j, k);
      }
    } else {
      var c :| c in base.PrimaryKey() && c !in view.PrimaryKey();
      var rows, j, k := UncoveredCollide(base, view, c);
    }
  }

  // ---------------------------------------------------------------- transitions

  /** A base row replaced, created or deleted. */
  datatype Change = Change(key: seq<Cell>, next: Option<Row>, timestamp: int)

  predicate Sensible(base: BaseTable, c: Change) {
    c.next.Some? ==>
      (forall p :: p in base.PrimaryKey() ==> p in c.next.value) && c.key == KeyCells(base.PrimaryKey(), c.next.value)
  }

  function Prior(rows: Rows, c: Change): Option<Row> { if c.key in rows then Some(rows[c.key]) else None }

  function Changed(rows: Rows, c: Change): Rows { if c.next.Some? then rows[c.key := c.next.value] else rows - {c.key} }

  lemma ChangedFiled(base: BaseTable, rows: Rows, c: Change)
    requires Filed(base, rows) && Sensible(base, c)
    ensures Filed(base, Changed(rows, c))
  {
  }

  /** The view with a row moved from its old place, if it had one, to its new one. */
  function Moved(view: View, m: Contents, prior: Option<Row>, next: Option<Row>): Contents {
    var cleared := if prior.Some? && Projects(view, prior.value) then m - {KeyOf(view, prior.value)} else m;
    if next.Some? && Projects(view, next.value)
    then cleared[KeyOf(view, next.value) := ColumnsFrom(view.selected, next.value)] else cleared
  }

  lemma ApplyFew(m: Contents, a: Delta, b: Delta)
    ensures ApplyAll(m, []) == m && ApplyAll(m, [a]) == Apply(m, a) && ApplyAll(m, [a, b]) == Apply(Apply(m, a), b)
  {
    assert [a][1..] == [] && [a, b][1..] == [b] && [b][1..] == [];
    assert ApplyAll(Apply(m, a), [b]) == Apply(Apply(m, a), b);
  }

  /** The deltas of a change do just that. */
  lemma DeltasMove(view: View, m: Contents, prior: Option<Row>, next: Option<Row>, timestamp: int)
    ensures ApplyAll(m, Deltas(view, prior, next, timestamp)) == Moved(view, m, prior, next)
  {
    var ds := Deltas(view, prior, next, timestamp);
    if ds != [] {
      ApplyFew(m, ds[0], ds[|ds| - 1]);
      assert ds == [ds[0]] || ds == [ds[0], ds[1]];
    }
    if prior.Some? && next.Some? && SameKey(view, prior.value, next.value) {
      KeyDecides(view, prior.value, next.value);
      var key, columns := KeyOf(view, next.value), ColumnsFrom(view.selected, next.value);
      assert m[key := columns] == (m - {key})[key := columns];
    }
  }

  lemma ChangeMaintains(base: BaseTable, view: View, rows: Rows, m: Contents, c: Change)
    requires Validate(base, view, false).None? && Filed(base, rows) && Sensible(base, c) && IsViewOf(view, rows, m)
    ensures IsViewOf(view, Changed(rows, c), ApplyAll(m, Deltas(view, Prior(rows, c), c.next, c.timestamp)))
  {
    var now := Changed(rows, c);
    DeltasMove(view, m, Prior(rows, c), c.next, c.timestamp);
    var after := Moved(view, m, Prior(rows, c), c.next);
    forall k | k in now && Projects(view, now[k])
      ensures KeyOf(view, now[k]) in after && after[KeyOf(view, now[k])] == ColumnsFrom(view.selected, now[k])
    {
      BaseRowInView(base, view, rows, m, c, k);
    }
    forall v | v in after ensures exists k :: k in now && Projects(view, now[k]) && KeyOf(view, now[k]) == v {
      ViewRowHasBase(base, view, rows, m, c, v);
    }
  }

  lemma BaseRowInView(base: BaseTable, view: View, rows: Rows, m: Contents, c: Change, k: seq<Cell>)
    requires Validate(base, view, false).None? && Filed(base, rows) && Sensible(base, c) && IsViewOf(view, rows, m)
    requires k in Changed(rows, c) && Projects(view, Changed(rows, c)[k])
    ensures var after, row := Moved(view, m, Prior(rows, c), c.next), Changed(rows, c)[k];
            KeyOf(view, row) in after && after[KeyOf(view, row)] == ColumnsFrom(view.selected, row)
  {
    if k != c.key {
      OtherRowKept(base, view, rows, c, k);
      MovedKeeps(view, m, Prior(rows, c), c.next, KeyOf(view, rows[k]));
    }
  }

  lemma MovedKeeps(view: View, m: Contents, prior: Option<Row>, next: Option<Row>, key: seq<Cell>)
    requires key in m && (prior.Some? ==> KeyOf(view, prior.value) != key) &&
             (next.Some? ==> KeyOf(view, next.value) != key)
    ensures key in Moved(view, m, prior, next) && Moved(view, m, prior, next)[key] == m[key]
  {
  }

  /** Another base row's view row is neither the old nor the new place of the changed row. */
  lemma OtherRowKept(base: BaseTable, view: View, rows: Rows, c: Change, k: seq<Cell>)
    requires Validate(base, view, false).None? && Filed(base, rows) && Sensible(base, c)
    requires k in rows && k != c.key && Projects(view, rows[k])
    ensures c.key in rows ==> KeyOf(view, rows[c.key]) != KeyOf(view, rows[k])
    ensures c.next.Some? ==> KeyOf(view, c.next.value) != KeyOf(view, rows[k])
  {
    ChangedFiled(base, rows, c);
    if c.key in rows && KeyOf(view, rows[c.key]) == KeyOf(view, rows[k]) {
      RowsStayApart(base, view, rows, c.key, k);
    }
    var now := Changed(rows, c);
    if c.next.Some? && KeyOf(view, now[c.key]) == KeyOf(view, now[k]) {
      RowsStayApart(base, view, now, c.key, k);
    }
  }

  lemma ViewRowHasBase(base: BaseTable, view: View, rows: Rows, m: Contents, c: Change, v: seq<Cell>)
    requires Filed(base, rows) && Sensible(base, c) && IsViewOf(view, rows, m)
    requires v in Moved(view, m, Prior(rows, c), c.next)
    ensures var now := Changed(rows, c);
            exists k :: k in now && Projects(view, now[k]) && KeyOf(view, now[k]) == v
  {
    var now := Changed(rows, c);
    if c.next.Some? && Projects(view, c.next.value) && KeyOf(view, c.next.value) == v {
      assert c.key in now && Projects(view, now[c.key]) && KeyOf(view, now[c.key]) == v;
    } else {
      assert v in m;
      var k :| k in rows && Projects(view, rows[k]) && KeyOf(view, rows[k]) == v;
      assert k != c.key;
      assert k in now && Projects(view, now[k]) && KeyOf(view, now[k]) == v;
    }
  }

  // ---------------------------------------------------------------- whole histories

  function History(rows: Rows, cs: seq<Change>): Rows
    decreases |cs|
  {
    if cs == [] then rows else History(Changed(rows, cs[0]), cs[1..])
  }

  function Maintained(view: View, rows: Rows, m: Contents, cs: seq<Change>): Contents
    decreases |cs|
  {
    if cs == [] then m
    else
      Maintained(view, Changed(rows, cs[0]),
          ApplyAll(m, Deltas(view, Prior(rows, cs[0]), cs[0].next, cs[0].timestamp)), cs[1..])
  }

  /** After any history of inserts, updates, key changes and deletes, the maintained view is
      the view recomputed from the base. */
  lemma {:induction false} MaintainedIsRecomputed(base: BaseTable, view: View, rows: Rows, m: Contents, cs: seq<Change>)
    requires Validate(base, view, false).None? && Filed(base, rows) && IsViewOf(view, rows, m)
    requires forall i :: 0 <= i < |cs| ==> Sensible(base, cs[i])
    ensures IsViewOf(view, History(rows, cs), Maintained(view, rows, m, cs))
    decreases |cs|
  {
    if cs != [] {
      ChangeMaintains(base, view, rows, m, cs[0]);
      ChangedFiled(base, rows, cs[0]);
      var after := ApplyAll(m, Deltas(view, Prior(rows, cs[0]), cs[0].next, cs[0].timestamp));
      MaintainedIsRecomputed(base, view, Changed(rows, cs[0]), after, cs[1..]);
    }
  }

  // ---------------------------------------------------------------- replay by timestamp

  /** What a register by timestamp holds for a view key: its last write, or tombstone. */
  datatype Stamp = Stamp(timestamp: int, columns: Option<seq<Cell>>)

  type Register = map<seq<Cell>, Stamp>

  function StampOf(d: Delta): Stamp { Stamp(d.timestamp, if d.Upsert? then Some(d.columns) else None) }

  function Stamped(m: Register, d: Delta): Register {
    if d.key in m && m[d.key].timestamp >= d.timestamp then m else m[d.key := StampOf(d)]
  }

  function StampAll(m: Register, ds: seq<Delta>): Register {
    if ds == [] then m else Stamped(StampAll(m, ds[..|ds| - 1]), ds[|ds| - 1])
  }

  function Visible(m: Register): Contents { map k | k in m && m[k].columns.Some? :: m[k].columns.value }

  /** What the register holds is the newest of the deltas for its key. */
  ghost predicate Newest(ds: seq<Delta>, d: Delta) {
    d in ds && forall e :: e in ds && e.key == d.key ==> e.timestamp <= d.timestamp
  }

  lemma {:induction false} HoldsNewest(ds: seq<Delta>, k: seq<Cell>)
    ensures k in StampAll(map[], ds) ==> exists d :: Newest(ds, d) && d.key == k && StampAll(map[], ds)[k] == StampOf(d)
    ensures k !in StampAll(map[], ds) ==> forall d :: d in ds ==> d.key != k
    decreases |ds|
  {
    if ds != [] {
      var front, last := ds[..|ds| - 1], ds[|ds| - 1];
      HoldsNewest(front, k);
      assert ds == front + [last];
      var m := StampAll(map[], front);
      if k in m {
        var d :| Newest(front, d) && d.key == k && m[k] == StampOf(d);
        if last.key == k && m[k].timestamp < last.timestamp {
          assert Newest(ds, last);
        } else {
          assert Newest(ds, d);
        }
      } else if last.key == k {
        assert Newest(ds, last);
      }
    }
  }

  /** No two deltas write one key at one time. */
  ghost predicate OneEach(ds: seq<Delta>) {
    forall d, e :: d in ds && e in ds && d.key == e.key && d.timestamp == e.timestamp ==> d == e
  }

  /** Then the order of arrival does not matter. */
  lemma StampAnyOrder(xs: seq<Delta>, ys: seq<Delta>)
    requires OneEach(xs) && forall d :: d in xs <==> d in ys
    ensures StampAll(map[], xs) == StampAll(map[], ys)
  {
    var a, b := StampAll(map[], xs), StampAll(map[], ys);
    forall k ensures (k in a <==> k in b) && (k in a ==> a[k] == b[k]) {
      HoldsNewest(xs, k);
      HoldsNewest(ys, k);
      if k in a && k in b {
        var d :| Newest(xs, d) && d.key == k && a[k] == StampOf(d);
        var e :| Newest(ys, e) && e.key == k && b[k] == StampOf(e);
        assert d in xs && e in xs && d.timestamp == e.timestamp;
      }
    }
  }

  function Emitted(view: View, rows: Rows, cs: seq<Change>): seq<Delta>
    decreases |cs|
  {
    if cs == [] then []
    else Deltas(view, Prior(rows, cs[0]), cs[0].next, cs[0].timestamp) + Emitted(view, Changed(rows, cs[0]), cs[1..])
  }

  predicate Increasing(cs: seq<Change>) { forall i, j :: 0 <= i < j < |cs| ==> cs[i].timestamp < cs[j].timestamp }

  /** The deltas of one change bear its timestamp and go to different keys. */
  lemma DeltasApart(view: View, prior: Option<Row>, next: Option<Row>, timestamp: int)
    ensures var ds := Deltas(view, prior, next, timestamp);
            OneEach(ds) && forall d :: d in ds ==> d.timestamp == timestamp
  {
    if prior.Some? && next.Some? {
      KeyDecides(view, prior.value, next.value);
    }
  }

  lemma {:induction false} EmittedOneEach(view: View, rows: Rows, cs: seq<Change>)
    requires Increasing(cs)
    ensures OneEach(Emitted(view, rows, cs))
    ensures forall d :: d in Emitted(view, rows, cs) ==> cs != [] && cs[0].timestamp <= d.timestamp
    decreases |cs|
  {
    if cs != [] {
      DeltasApart(view, Prior(rows, cs[0]), cs[0].next, cs[0].timestamp);
      EmittedOneEach(view, Changed(rows, cs[0]), cs[1..]);
    }
  }

  predicate Before(m: Register, timestamp: int) { forall k :: k in m ==> m[k].timestamp < timestamp }

  /** Newer deltas act on the register as they do on the view. */
  lemma StampedMoves(view: View, m: Register, prior: Option<Row>, next: Option<Row>, timestamp: int)
    requires Before(m, timestamp)
    ensures var ds := Deltas(view, prior, next, timestamp);
            && Visible(StampAll(m, ds)) == ApplyAll(Visible(m), ds)
            && forall k :: k in StampAll(m, ds) ==> StampAll(m, ds)[k].timestamp <= timestamp
  {
    var ds := Deltas(view, prior, next, timestamp);
    if ds != [] {
      var first, last := ds[0], ds[|ds| - 1];
      ApplyFew(Visible(m), first, last);
      StampFew(m, first, last);
      DeltasApart(view, prior, next, timestamp);
      assert ds == [first] || ds == [first, last];
      StampedApplies(m, first);
      if |ds| == 2 {
        StampedApplies(Stamped(m, first), last);
      }
    }
  }

  lemma StampFew(m: Register, a: Delta, b: Delta)
    ensures StampAll(m, [a]) == Stamped(m, a) && StampAll(m, [a, b]) == Stamped(Stamped(m, a), b)
  {
    assert [a][..0] == [] && [a, b][..1] == [a];
    assert StampAll(m, []) == m;
  }

  lemma StampedApplies(m: Register, d: Delta)
    requires d.key in m ==> m[d.key].timestamp < d.timestamp
    ensures Visible(Stamped(m, d)) == Apply(Visible(m), d)
  {
  }

  lemma {:induction false} StampJoin(m: Register, a: seq<Delta>, b: seq<Delta>)
    ensures StampAll(m, a + b) == StampAll(StampAll(m, a), b)
    decreases |b|
  {
    if b == [] {
      assert a + b == a;
    } else {
      assert (a + b)[..|a + b| - 1] == a + b[..|b| - 1];
      StampJoin(m, a, b[..|b| - 1]);
    }
  }

  lemma {:induction false} StampedInOrder(view: View, rows: Rows, m: Register, cs: seq<Change>)
    requires Increasing(cs) && (cs != [] ==> Before(m, cs[0].timestamp))
    ensures Visible(StampAll(m, Emitted(view, rows, cs))) == Maintained(view, rows, Visible(m), cs)
    decreases |cs|
  {
    if cs != [] {
      var ds := Deltas(view, Prior(rows, cs[0]), cs[0].next, cs[0].timestamp);
      StampedMoves(view, m, Prior(rows, cs[0]), cs[0].next, cs[0].timestamp);
      StampJoin(m, ds, Emitted(view, Changed(rows, cs[0]), cs[1..]));
      StampedInOrder(view, Changed(rows, cs[0]), StampAll(m, ds), cs[1..]);
    }
  }

  /** What the timestamps are for: the deltas of a history of base writes, delivered in any
      order to a store that keeps the newest write of each view key, leave the view
      recomputed from the base. */
  lemma ReplayedInAnyOrder(base: BaseTable, view: View, cs: seq<Change>, ds: seq<Delta>)
    requires Validate(base, view, false).None? && Increasing(cs) && forall i :: 0 <= i < |cs| ==> Sensible(base, cs[i])
    requires multiset(ds) == multiset(Emitted(view, map[], cs))
    ensures IsViewOf(view, History(map[], cs), Visible(StampAll(map[], ds)))
  {
    var all := Emitted(view, map[], cs);
    EmittedOneEach(view, map[], cs);
    assert forall d :: d in all <==> d in ds by {
      assert forall d :: d in all <==> d in multiset(all);
      assert forall d :: d in ds <==> d in multiset(ds);
    }
    StampAnyOrder(all, ds);
    assert Visible(map[]) == map[];
    StampedInOrder(view, map[], map[], cs);
    MaintainedIsRecomputed(base, view, map[], map[], cs);
  }

  // ---------------------------------------------------------------- upserts applied cell by cell

  /** View rows as cells by name. */
  type Sheet = map<seq<Cell>, map<Column, Value>>

  function Values(cells: seq<Cell>): map<Column, Value> {
    if cells == [] then map[] else Values(cells[..|cells| - 1])[cells[|cells| - 1].column := cells[|cells| - 1].value]
  }

  function Sheets(m: Contents): Sheet { map k | k in m :: Values(m[k]) }

  /** An upsert that writes the cells it lists over those of the view row. */
  function CellApply(m: Sheet, d: Delta): Sheet {
    match d
    case Upsert(key, columns, _) => m[key := (if key in m then m[key] else map[]) + Values(columns)]
    case Delete(key, _) => m - {key}
  }

  function CellApplyAll(m: Sheet, ds: seq<Delta>): Sheet
    decreases |ds|
  {
    if ds == [] then m else CellApplyAll(CellApply(m, ds[0]), ds[1..])
  }

  predicate Nulls(view: View, p: Row, n: Row, name: Column) {
    name in Values(ColumnsFrom(view.selected, p)) && name !in Values(ColumnsFrom(view.selected, n))
  }

  /** The change takes the value of a shown column away and leaves the view row in place. */
  ghost predicate NullsInPlace(view: View, rows: Rows, c: Change) {
    StaysInPlace(view, rows, c) && exists name :: Nulls(view, rows[c.key], c.next.value, name)
  }

  lemma OverwritesExactly(view: View, p: Row, n: Row)
    ensures var before, after := Values(ColumnsFrom(view.selected, p)), Values(ColumnsFrom(view.selected, n));
            before + after == after <==> !exists name :: Nulls(view, p, n, name)
  {
    var before, after := Values(ColumnsFrom(view.selected, p)), Values(ColumnsFrom(view.selected, n));
    if before + after == after {
      forall name ensures !Nulls(view, p, n, name) {
        assert name in before ==> name in before + after;
      }
    }
    if forall name :: !Nulls(view, p, n, name) {
      forall name | name in before ensures name in after {
        assert !Nulls(view, p, n, name);
      }
      assert before + after == after;
    }
  }

  lemma CellApplyFew(m: Sheet, a: Delta, b: Delta)
    ensures CellApplyAll(m, []) == m && CellApplyAll(m, [a]) == CellApply(m, a)
    ensures CellApplyAll(m, [a, b]) == CellApply(CellApply(m, a), b)
  {
    assert [a][1..] == [] && [a, b][1..] == [b] && [b][1..] == [];
    assert CellApplyAll(CellApply(m, a), [b]) == CellApply(CellApply(m, a), b);
  }

  /** The new place of a changed row is free, unless it is its old one. */
  lemma NewPlaceFree(base: BaseTable, view: View, rows: Rows, m: Contents, c: Change)
    requires Validate(base, view, false).None? && Filed(base, rows) && Sensible(base, c) && IsViewOf(view, rows, m)
    requires c.next.Some? && KeyOf(view, c.next.value) in m
    ensures c.key in rows && Projects(view, rows[c.key]) && KeyOf(view, rows[c.key]) == KeyOf(view, c.next.value)
  {
    var k :| k in rows && Projects(view, rows[k]) && KeyOf(view, rows[k]) == KeyOf(view, c.next.value);
    if k != c.key {
      OtherRowKept(base, view, rows, c, k);
    }
  }

  lemma InPlace(m: Contents, d: Delta)
    requires d.Upsert? && d.key in m
    ensures CellApply(Sheets(m), d) == Sheets(Apply(m, d)) <==>
              Values(m[d.key]) + Values(d.columns) == Values(d.columns)
  {
    var a, b := CellApply(Sheets(m), d), Sheets(Apply(m, d));
    assert a[d.key] == Values(m[d.key]) + Values(d.columns) && b[d.key] == Values(d.columns);
    if a[d.key] == b[d.key] {
      assert a == b;
    }
  }

  lemma FreshUpsert(m: Contents, d: Delta)
    requires d.Upsert? && d.key !in m
    ensures CellApply(Sheets(m), d) == Sheets(Apply(m, d))
  {
    assert map[] + Values(d.columns) == Values(d.columns);
  }

  lemma DeleteLands(m: Contents, d: Delta)
    requires d.Delete?
    ensures CellApply(Sheets(m), d) == Sheets(Apply(m, d))
  {
  }

  predicate StaysInPlace(view: View, rows: Rows, c: Change) {
    && c.key in rows && c.next.Some? && Projects(view, rows[c.key]) && Projects(view, c.next.value)
    && SameKey(view, rows[c.key], c.next.value)
  }

  lemma StepInPlace(view: View, rows: Rows, m: Contents, c: Change)
    requires IsViewOf(view, rows, m) && StaysInPlace(view, rows, c)
    ensures var ds := Deltas(view, Prior(rows, c), c.next, c.timestamp);
            CellApplyAll(Sheets(m), ds) == Sheets(ApplyAll(m, ds)) <==> !NullsInPlace(view, rows, c)
  {
    var p, n := rows[c.key], c.next.value;
    var up := UpsertOf(view, n, c.timestamp);
    KeyDecides(view, p, n);
    OverwritesExactly(view, p, n);
    InPlace(m, up);
    ApplyFew(m, up, up);
    CellApplyFew(Sheets(m), up, up);
  }

  lemma StepElsewhere(base: BaseTable, view: View, rows: Rows, m: Contents, c: Change)
    requires Validate(base, view, false).None? && Filed(base, rows) && Sensible(base, c) && IsViewOf(view, rows, m)
    requires !StaysInPlace(view, rows, c)
    ensures var ds := Deltas(view, Prior(rows, c), c.next, c.timestamp);
            CellApplyAll(Sheets(m), ds) == Sheets(ApplyAll(m, ds))
  {
    var ds := Deltas(view, Prior(rows, c), c.next, c.timestamp);
    if ds != [] {
      var first, last := ds[0], ds[|ds| - 1];
      ApplyFew(m, first, last);
      CellApplyFew(Sheets(m), first, last);
      assert ds == [first] || ds == [first, last];
      if last.Upsert? {
        FreePlace(base, view, rows, m, c);
      }
      if first.Delete? {
        DeleteLands(m, first);
      } else {
        FreshUpsert(m, first);
      }
      if |ds| == 2 {
        FreshUpsert(Apply(m, first), last);
      }
    }
  }

  lemma FreePlace(base: BaseTable, view: View, rows: Rows, m: Contents, c: Change)
    requires Validate(base, view, false).None? && Filed(base, rows) && Sensible(base, c) && IsViewOf(view, rows, m)
    requires !StaysInPlace(view, rows, c) && c.next.Some? && Projects(view, c.next.value)
    ensures KeyOf(view, c.next.value) !in m
  {
    if KeyOf(view, c.next.value) in m {
      NewPlaceFree(base, view, rows, m, c);
      KeyDecides(view, rows[c.key], c.next.value);
    }
  }

  /** One change: cell by cell comes to the same as row by row if and only if it does not
      take a value away in place. */
  lemma CellwiseStep(base: BaseTable, view: View, rows: Rows, m: Contents, c: Change)
    requires Validate(base, view, false).None? && Filed(base, rows) && Sensible(base, c) && IsViewOf(view, rows, m)
    ensures var ds := Deltas(view, Prior(rows, c), c.next, c.timestamp);
            CellApplyAll(Sheets(m), ds) == Sheets(ApplyAll(m, ds)) <==> !NullsInPlace(view, rows, c)
  {
    if StaysInPlace(view, rows, c) {
      StepInPlace(view, rows, m, c);
    } else {
      StepElsewhere(base, view, rows, m, c);
    }
  }

  /** The cell-wise view and the row-wise view are the same after every change. */
  ghost predicate AgreeThroughout(view: View, rows: Rows, m: Contents, sheet: Sheet, cs: seq<Change>)
    decreases |cs|
  {
    sheet == Sheets(m) && (cs != [] ==>
      var ds := Deltas(view, Prior(rows, cs[0]), cs[0].next, cs[0].timestamp);
      AgreeThroughout(view, Changed(rows, cs[0]), ApplyAll(m, ds), CellApplyAll(sheet, ds), cs[1..]))
  }

  ghost predicate NeverNulls(view: View, rows: Rows, cs: seq<Change>)
    decreases |cs|
  {
    cs == [] || (!NullsInPlace(view, rows, cs[0]) && NeverNulls(view, Changed(rows, cs[0]), cs[1..]))
  }

  /** Upserts list only columns that have a value. Applied cell by cell, they keep the view
      equal to the recomputed one throughout a history if and only if no change of the
      history takes a value away and leaves the view row in place. */
  lemma {:induction false} CellwiseExactly(base: BaseTable, view: View, rows: Rows, m: Contents, cs: seq<Change>)
    requires Validate(base, view, false).None? && Filed(base, rows) && IsViewOf(view, rows, m)
    requires forall i :: 0 <= i < |cs| ==> Sensible(base, cs[i])
    ensures AgreeThroughout(view, rows, m, Sheets(m), cs) <==> NeverNulls(view, rows, cs)
    decreases |cs|
  {
    if cs != [] {
      var ds := Deltas(view, Prior(rows, cs[0]), cs[0].next, cs[0].timestamp);
      CellwiseStep(base, view, rows, m, cs[0]);
      ChangeMaintains(base, view, rows, m, cs[0]);
      ChangedFiled(base, rows, cs[0]);
      CellwiseExactly(base, view, Changed(rows, cs[0]), ApplyAll(m, ds), cs[1..]);
    }
  }
}
