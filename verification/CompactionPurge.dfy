/**
 Compaction with tombstone purge (ferrosa-storage/src/merge.rs and compaction/purge.rs)
 against the merged read of a whole view. A row that a source does not hold merges like
 `VACANT`, so rows are compared one clustering key at a time: `i` is the merged row of the
 compaction's inputs, `o` the merged row of everything outside it.
 */
module CompactionPurge {
  import opened Base
  import opened CellOrder

  type Path = seq<nat>

  /** A column, and the element of it for collection columns. */
  datatype Key = Key(column: nat, path: Option<Path>)

  datatype Deletion = Deletion(at: Ts, ldt: int)

  const LIVE: Deletion := Deletion(NO_TS, 0xFFFF_FFFF)

  datatype Row = Row(deletion: Deletion, liveness: Ts, cells: map<Key, Cell>)

  const VACANT: Row := Row(LIVE, NO_TS, map[])

  function Get(r: Row, k: Key): Option<Cell> { if k in r.cells then Some(r.cells[k]) else None }

  // ---------------------------------------------------------------- merge

  function Newer(a: Deletion, b: Deletion): (d: Deletion)
    ensures d.at == Max(a.at, b.at)
  {
    if b.at > a.at then b else a
  }

  function Join(a: Option<Cell>, b: Option<Cell>): Option<Cell> {
    if a.None? then b else if b.None? then a else Some(Reconcile(a.value, b.value))
  }

  function MergeRows(a: Row, b: Row): Row {
    Row(Newer(a.deletion, b.deletion), if b.liveness > a.liveness then b.liveness else a.liveness,
        map k | k in a.cells.Keys + b.cells.Keys :: Join(Get(a, k), Get(b, k)).value)
  }

  /** Row deletion hides the row's older cells. */
  function Masked(r: Row): Row { r.(cells := map k | k in r.cells && r.cells[k].ts >= r.deletion.at :: r.cells[k]) }

  /** A partition deletion at `d` drops a whole row by the age of its liveness. */
  function Suppressed(d: Ts, r: Row): Row { if r.liveness < d then VACANT else Masked(r) }

  // ---------------------------------------------------------------- purge

  datatype Policy = Policy(gcBefore: int, maxPurgeable: int)

  predicate Purgeable(p: Policy, ts: Ts, ldt: int) { ldt < p.gcBefore && ts < p.maxPurgeable }

  predicate PurgeableDeletion(p: Policy, d: Deletion) { d != LIVE && Purgeable(p, d.at, d.ldt) }

  function PurgedDeletion(p: Policy, d: Deletion): Deletion { if PurgeableDeletion(p, d) then LIVE else d }

  predicate HasElements(r: Row, column: nat) { exists k :: k in r.cells && k.column == column && k.path.Some? }

  /** Dropping a row deletion also drops the older liveness it was hiding. */
  predicate Strips(p: Policy, r: Row) { PurgeableDeletion(p, r.deletion) && NO_TS < r.liveness < r.deletion.at }

  predicate Droppable(p: Policy, r: Row, k: Key)
    requires k in r.cells
  {
    && Tombstone(r.cells[k]) && Purgeable(p, r.cells[k].ts, r.cells[k].ldt)
    && !(k.path.None? && HasElements(r, k.column))
  }

  function PurgedRow(p: Policy, r: Row): Row {
    Row(PurgedDeletion(p, r.deletion), if Strips(p, r) then NO_TS else r.liveness,
        map k | k in r.cells && !Droppable(p, r, k) :: r.cells[k])
  }

  /** What a compaction writes for a row, given the inputs' partition deletion. */
  function CompactedRow(p: Policy, d: Deletion, i: Row): Row { PurgedRow(p, Suppressed(d.at, i)) }

  // ---------------------------------------------------------------- what a reader sees

  /** A pathless tombstone also hides the elements of its column that are not newer. */
  function Shown(r: Row, k: Key): Option<Cell> {
    if k !in r.cells || Tombstone(r.cells[k]) then None
    else if k.path.Some? && Key(k.column, None) in r.cells && Tombstone(r.cells[Key(k.column, None)])
            && r.cells[Key(k.column, None)].ts >= r.cells[k].ts then None
    else Some(r.cells[k])
  }

  /** The row marker of an insert, unless the row deletion is newer. */
  predicate Marked(r: Row) { r.liveness != NO_TS && r.liveness >= r.deletion.at }

  ghost predicate SameView(a: Row, b: Row) {
    (Marked(a) <==> Marked(b)) && forall k :: Shown(a, k) == Shown(b, k)
  }

  /** Nothing outside the compaction is older than the purge limit. */
  predicate Above(r: Row, limit: int) {
    && (r.liveness != NO_TS ==> r.liveness >= limit)
    && (r.deletion.at != NO_TS ==> r.deletion.at >= limit)
    && forall k :: k in r.cells ==> r.cells[k].ts >= limit
  }

  /** The row before the compaction, and after it. */
  function Before(di: Deletion, i: Row, do: Deletion, o: Row): Row {
    Suppressed(Newer(di, do).at, MergeRows(i, o))
  }

  function After(p: Policy, di: Deletion, i: Row, do: Deletion, o: Row): Row {
    Suppressed(Newer(PurgedDeletion(p, di), do).at, MergeRows(CompactedRow(p, di, i), o))
  }

  // ---------------------------------------------------------------- rows no partition deletion touches

  function Mask(c: Option<Cell>, at: Ts): Option<Cell> { if c.Some? && c.value.ts >= at then c else None }

  lemma MaskedGet(r: Row, k: Key)
    ensures Get(Masked(r), k) == Mask(Get(r, k), r.deletion.at)
  {
  }

  lemma MergedGet(a: Row, b: Row, k: Key)
    ensures Get(MergeRows(a, b), k) == Join(Get(a, k), Get(b, k))
  {
  }

  /** Masking each side first, and dropping a deletion or tombstone that nothing outside is
      older than, loses at most a tombstone. */
  lemma CellKept(limit: int, c: Option<Cell>, co: Option<Cell>, at: Ts, atO: Ts, purged: bool, dropped: bool)
    requires co.Some? ==> co.value.ts >= limit
    requires purged ==> at < limit
    requires dropped ==> c.Some? && Tombstone(c.value) && c.value.ts < limit && c.value.ts >= at
    ensures var left := if dropped then None else Mask(c, at);
            var b := Mask(Join(c, co), Max(at, atO));
            var a := Mask(Join(left, co), if purged then atO else Max(at, atO));
            a == b || (dropped && a.None? && b == c)
  {
    if c.Some? && co.Some? {
      WinnerIsNewest(c.value, co.value);
    }
  }

  /** Cell by cell, what a compaction that keeps the row writes merges to the same. */
  lemma RowCellKept(p: Policy, i: Row, o: Row, k: Key)
    requires Above(o, p.maxPurgeable)
    ensures var b, a := Masked(MergeRows(i, o)), Masked(MergeRows(PurgedRow(p, Masked(i)), o));
            || Get(a, k) == Get(b, k)
            || (Get(a, k).None? && Get(b, k) == Get(i, k) && k in Masked(i).cells && Droppable(p, Masked(i), k))
  {
    var m := Masked(i);
    var c := PurgedRow(p, m);
    MaskedGet(i, k);
    MergedGet(i, o, k);
    MergedGet(c, o, k);
    MaskedGet(MergeRows(i, o), k);
    MaskedGet(MergeRows(c, o), k);
    var dropped := k in m.cells && Droppable(p, m, k);
    assert Get(c, k) == if dropped then None else Get(m, k);
    CellKept(p.maxPurgeable, Get(i, k), Get(o, k), i.deletion.at, o.deletion.at,
             PurgeableDeletion(p, i.deletion), dropped);
  }

  lemma RowShownKept(p: Policy, i: Row, o: Row, k: Key)
    requires Above(o, p.maxPurgeable)
    ensures Shown(Masked(MergeRows(PurgedRow(p, Masked(i)), o)), k) == Shown(Masked(MergeRows(i, o)), k)
  {
    var b, a := Masked(MergeRows(i, o)), Masked(MergeRows(PurgedRow(p, Masked(i)), o));
    var whole := Key(k.column, None);
    RowCellKept(p, i, o, k);
    RowCellKept(p, i, o, whole);
    if k.path.Some? && Get(a, whole) != Get(b, whole) && k in b.cells && !Tombstone(b.cells[k]) {
      ElementOutlives(p, i, o, k);
    }
  }

  /** A pathless tombstone is only dropped when every element left is newer. */
  lemma ElementOutlives(p: Policy, i: Row, o: Row, k: Key)
    requires Above(o, p.maxPurgeable) && k.path.Some?
    requires var whole := Key(k.column, None); whole in Masked(i).cells && Droppable(p, Masked(i), whole)
    requires k in Masked(MergeRows(i, o)).cells
    ensures Masked(MergeRows(i, o)).cells[k].ts >= p.maxPurgeable
  {
    var m := Masked(i);
    assert k !in m.cells;
    MergedGet(i, o, k);
  }

  /** A row the compaction keeps, read with nothing to suppress it, shows the same. */
  lemma RowViewKept(p: Policy, i: Row, o: Row)
    requires Above(o, p.maxPurgeable)
    ensures SameView(Masked(MergeRows(PurgedRow(p, Masked(i)), o)), Masked(MergeRows(i, o)))
  {
    forall k ensures Shown(Masked(MergeRows(PurgedRow(p, Masked(i)), o)), k) == Shown(Masked(MergeRows(i, o)), k) {
      RowShownKept(p, i, o, k);
    }
  }

  // ---------------------------------------------------------------- partition deletions

  /** The compaction itself drops the row. */
  predicate DropsRow(di: Deletion, i: Row) { i.liveness < di.at }

  /** Whether the row survives the partition deletion, before and after. */
  predicate KeptBefore(di: Deletion, i: Row, do: Deletion, o: Row) {
    MergeRows(i, o).liveness >= Newer(di, do).at
  }

  predicate KeptAfter(p: Policy, di: Deletion, i: Row, do: Deletion, o: Row) {
    MergeRows(CompactedRow(p, di, i), o).liveness >= Newer(PurgedDeletion(p, di), do).at
  }

  ghost predicate ShowsNothing(r: Row) { SameView(r, VACANT) }

  /** The row marker that carried the row past a partition deletion was stripped with the
      row deletion that hid it. */
  predicate Stripped(p: Policy, di: Deletion, i: Row, do: Deletion, o: Row) {
    && !DropsRow(di, i) && Strips(p, i) && o.liveness == NO_TS && i.liveness >= do.at
    && Newer(PurgedDeletion(p, di), do).at > NO_TS
  }

  /** The partition deletion that hid an outside row without a marker was purged. */
  predicate Exposed(p: Policy, di: Deletion, i: Row, do: Deletion, o: Row) {
    DropsRow(di, i) && PurgeableDeletion(p, di) && o.liveness == NO_TS && do.at == NO_TS
  }

  /** The dropped row belongs to a row that outside data re-inserted after the deletion. */
  predicate Reinserted(di: Deletion, i: Row, do: Deletion, o: Row) {
    DropsRow(di, i) && o.liveness >= Newer(di, do).at
  }

  lemma KeptExactly(p: Policy, di: Deletion, i: Row, do: Deletion, o: Row)
    requires Above(o, p.maxPurgeable)
    ensures KeptBefore(di, i, do, o) && !KeptAfter(p, di, i, do, o) <==> Stripped(p, di, i, do, o)
    ensures !KeptBefore(di, i, do, o) && KeptAfter(p, di, i, do, o) <==> Exposed(p, di, i, do, o)
    ensures DropsRow(di, i) ==> (KeptBefore(di, i, do, o) <==> Reinserted(di, i, do, o))
  {
  }

  /** The exact law of compaction for one row: the merged read is unchanged if and only if
      none of three families applies. A row that loses its marker, or that a purged
      partition deletion exposes, must show nothing; and a row dropped here but
      re-inserted outside must have had nothing to add. */
  lemma CompactionExact(p: Policy, di: Deletion, i: Row, do: Deletion, o: Row)
    requires Above(o, p.maxPurgeable)
    ensures SameView(After(p, di, i, do, o), Before(di, i, do, o)) <==>
            && (Stripped(p, di, i, do, o) ==> ShowsNothing(Masked(MergeRows(i, o))))
            && (Exposed(p, di, i, do, o) ==> ShowsNothing(Masked(o)))
            && (Reinserted(di, i, do, o) ==> SameView(Masked(o), Masked(MergeRows(i, o))))
  {
    KeptExactly(p, di, i, do, o);
    VacantMerge(o);
    if !DropsRow(di, i) {
      RowViewKept(p, i, o);
    }
  }

  lemma VacantMerge(o: Row)
    ensures MergeRows(VACANT, o) == o.(deletion := Newer(LIVE, o.deletion))
    ensures SameView(Masked(MergeRows(VACANT, o)), Masked(o))
  {
    assert MergeRows(VACANT, o).cells == o.cells;
  }

  /** Without partition deletions anywhere, no purge ever changes a read. */
  lemma CompactionInvisible(p: Policy, di: Deletion, i: Row, do: Deletion, o: Row)
    requires Above(o, p.maxPurgeable) && di.at == NO_TS && do.at == NO_TS
    ensures SameView(After(p, di, i, do, o), Before(di, i, do, o))
  {
    CompactionExact(p, di, i, do, o);
  }

  // Each family has a member that shows.

  const COLUMN: Key := Key(0, None)

  function Live(ts: Ts): Cell { Cell(ts, Some([1]), 0, 0) }

  /** Inserted at 5, partition deleted at 10, re-inserted at 20 outside: the uncompacted
      read still shows the cell from before the deletion. */
  lemma ReinsertedChanges(p: Policy)
    requires p.maxPurgeable <= 20
    ensures var i, o := Row(LIVE, 5, map[COLUMN := Live(5)]), Row(LIVE, 20, map[]);
            Above(o, p.maxPurgeable) &&
            !SameView(After(p, Deletion(10, 0), i, LIVE, o), Before(Deletion(10, 0), i, LIVE, o))
  {
    var i, o := Row(LIVE, 5, map[COLUMN := Live(5)]), Row(LIVE, 20, map[]);
    assert Shown(Before(Deletion(10, 0), i, LIVE, o), COLUMN) == Some(Live(5));
    assert Shown(After(p, Deletion(10, 0), i, LIVE, o), COLUMN) == None;
  }

  /** An update at 20 without a row marker is hidden by the partition deletion at 10 until
      that deletion is purged. */
  lemma ExposedChanges()
    ensures var p, o := Policy(1, 20), Row(LIVE, NO_TS, map[COLUMN := Live(20)]);
            Above(o, p.maxPurgeable)
            && !SameView(After(p, Deletion(10, 0), VACANT, LIVE, o), Before(Deletion(10, 0), VACANT, LIVE, o))
  {
    var p, o := Policy(1, 20), Row(LIVE, NO_TS, map[COLUMN := Live(20)]);
    assert PurgedRow(p, Suppressed(10, VACANT)) == VACANT;
    assert Shown(Before(Deletion(10, 0), VACANT, LIVE, o), COLUMN) == None;
    assert Shown(After(p, Deletion(10, 0), VACANT, LIVE, o), COLUMN) == Some(Live(20));
  }

  /** Inserted at 5 over a partition deletion at 3, row deleted at 8, updated at 9: purging
      the row deletion takes the marker along, and the kept partition deletion then hides
      the update. */
  lemma StrippedChanges()
    ensures var p, i := Policy(1, 20), Row(Deletion(8, 0), 5, map[COLUMN := Live(9)]);
            !SameView(After(p, Deletion(3, 1), i, LIVE, VACANT), Before(Deletion(3, 1), i, LIVE, VACANT))
  {
    var p, i := Policy(1, 20), Row(Deletion(8, 0), 5, map[COLUMN := Live(9)]);
    assert Shown(Before(Deletion(3, 1), i, LIVE, VACANT), COLUMN) == Some(Live(9));
    assert Shown(After(p, Deletion(3, 1), i, LIVE, VACANT), COLUMN) == None;
  }

  // ---------------------------------------------------------------- static rows

  /** A partition deletion hides a static row cell by cell. */
  function StaticMasked(d: Ts, r: Row): Row { r.(cells := map k | k in r.cells && r.cells[k].ts >= d :: r.cells[k]) }

  function StaticBefore(di: Deletion, i: Row, do: Deletion, o: Row): Row {
    StaticMasked(Newer(di, do).at, MergeRows(i, o))
  }

  function StaticAfter(p: Policy, di: Deletion, i: Row, do: Deletion, o: Row): Row {
    StaticMasked(Newer(PurgedDeletion(p, di), do).at, MergeRows(PurgedRow(p, StaticMasked(di.at, i)), o))
  }

  lemma StaticCellKept(p: Policy, di: Deletion, i: Row, do: Deletion, o: Row, k: Key)
    requires Above(o, p.maxPurgeable)
    ensures var b, a := StaticBefore(di, i, do, o), StaticAfter(p, di, i, do, o);
            var m := StaticMasked(di.at, i);
            || Get(a, k) == Get(b, k)
            || (Get(a, k).None? && Get(b, k) == Get(i, k) && k in m.cells && Droppable(p, m, k))
  {
    var m := StaticMasked(di.at, i);
    var c := PurgedRow(p, m);
    MergedGet(i, o, k);
    MergedGet(c, o, k);
    var dropped := k in m.cells && Droppable(p, m, k);
    assert Get(c, k) == if dropped then None else Get(m, k);
    assert Get(m, k) == Mask(Get(i, k), di.at);
    CellKept(p.maxPurgeable, Get(i, k), Get(o, k), di.at, do.at, PurgeableDeletion(p, di), dropped);
    assert Get(StaticBefore(di, i, do, o), k) == Mask(Get(MergeRows(i, o), k), Newer(di, do).at);
    assert Get(StaticAfter(p, di, i, do, o), k) == Mask(Get(MergeRows(c, o), k), Newer(PurgedDeletion(p, di), do).at);
  }

  lemma StaticElementOutlives(p: Policy, di: Deletion, i: Row, do: Deletion, o: Row, k: Key)
    requires Above(o, p.maxPurgeable) && k.path.Some?
    requires var m := StaticMasked(di.at, i); Key(k.column, None) in m.cells && Droppable(p, m, Key(k.column, None))
    requires k in StaticBefore(di, i, do, o).cells
    ensures StaticBefore(di, i, do, o).cells[k].ts >= p.maxPurgeable
  {
    assert k !in StaticMasked(di.at, i).cells;
    MergedGet(i, o, k);
  }

  /** Static cells are compared with the partition deletion themselves, so for them the law
      holds without exception. */
  lemma StaticUnchanged(p: Policy, di: Deletion, i: Row, do: Deletion, o: Row, k: Key)
    requires Above(o, p.maxPurgeable)
    ensures Shown(StaticAfter(p, di, i, do, o), k) == Shown(StaticBefore(di, i, do, o), k)
  {
    var b, a := StaticBefore(di, i, do, o), StaticAfter(p, di, i, do, o);
    var whole := Key(k.column, None);
    StaticCellKept(p, di, i, do, o, k);
    StaticCellKept(p, di, i, do, o, whole);
    if k.path.Some? && Get(a, whole) != Get(b, whole) && k in b.cells && !Tombstone(b.cells[k]) {
      StaticElementOutlives(p, di, i, do, o, k);
    }
  }

  // ---------------------------------------------------------------- whole partitions

  type Clustering = seq<nat>

  datatype Partition = Partition(deletion: Deletion, shared: Row, rows: map<Clustering, Row>)

  function RowAt(p: Partition, ck: Clustering): Row { if ck in p.rows then p.rows[ck] else VACANT }

  function MergeTwo(a: Partition, b: Partition): Partition {
    Partition(Newer(a.deletion, b.deletion), MergeRows(a.shared, b.shared),
              map ck | ck in a.rows.Keys + b.rows.Keys ::
                if ck !in b.rows then a.rows[ck] else if ck !in a.rows then b.rows[ck]
                else MergeRows(a.rows[ck], b.rows[ck]))
  }

  function MergeAll(sources: seq<Partition>): Partition
    requires sources != []
  {
    if |sources| == 1 then sources[0]
    else MergeTwo(MergeAll(sources[..|sources| - 1]), sources[|sources| - 1])
  }

  method MergeSources(sources: seq<Partition>) returns (merged: Partition)
    requires sources != []
    ensures merged == MergeAll(sources)
  {
    merged := sources[0];
    assert sources[..1] == [sources[0]];
    for n := 1 to |sources|
      invariant merged == MergeAll(sources[..n])
    {
      assert sources[..n + 1][..n] == sources[..n];
      merged := MergeTwo(merged, sources[n]);
    }
    assert sources[..|sources|] == sources;
  }

  function SuppressAll(p: Partition): Partition {
    p.(shared := StaticMasked(p.deletion.at, p.shared),
       rows := map ck | ck in p.rows && p.rows[ck].liveness >= p.deletion.at :: Masked(p.rows[ck]))
  }

  /** What compacting `inputs` writes for one partition key. */
  function Compacted(policy: Policy, inputs: seq<Partition>): Partition
    requires inputs != []
  {
    var p := SuppressAll(MergeAll(inputs));
    Partition(PurgedDeletion(policy, p.deletion), PurgedRow(policy, p.shared),
              map ck | ck in p.rows && PurgedRow(policy, p.rows[ck]) != VACANT :: PurgedRow(policy, p.rows[ck]))
  }

  /** The merged read of a row over every source that holds the partition. */
  function Read(sources: seq<Partition>, ck: Clustering): Row
    requires sources != []
  {
    RowAt(SuppressAll(MergeAll(sources)), ck)
  }

  function ReadStatic(sources: seq<Partition>): Row
    requires sources != []
  {
    SuppressAll(MergeAll(sources)).shared
  }

  /** Equal except for the local deletion time of the deletion, which no read looks at. */
  predicate Alike(a: Row, b: Row) {
    a.deletion.at == b.deletion.at && a.liveness == b.liveness && a.cells == b.cells
  }

  lemma AlikeReadsSame(d: Ts, a: Row, b: Row)
    requires Alike(a, b)
    ensures SameView(Suppressed(d, a), Suppressed(d, b)) && StaticMasked(d, a).cells == StaticMasked(d, b).cells
  {
    assert Masked(a).cells == Masked(b).cells;
  }

  lemma RowAtMerged(a: Partition, b: Partition, ck: Clustering)
    ensures Alike(RowAt(MergeTwo(a, b), ck), MergeRows(RowAt(a, ck), RowAt(b, ck)))
  {
    var m := MergeRows(RowAt(a, ck), RowAt(b, ck));
    assert RowAt(a, ck) == VACANT ==> m.cells == RowAt(b, ck).cells;
    assert RowAt(b, ck) == VACANT ==> m.cells == RowAt(a, ck).cells;
  }

  lemma JoinAssociative(a: Option<Cell>, b: Option<Cell>, c: Option<Cell>)
    ensures Join(Join(a, b), c) == Join(a, Join(b, c))
  {
    if a.Some? && b.Some? && c.Some? {
      Associative(a.value, b.value, c.value);
    }
  }

  /** Merging rows is commutative, idempotent and associative as far as a read can tell. */
  lemma MergeRowsCommutative(a: Row, b: Row)
    ensures Alike(MergeRows(a, b), MergeRows(b, a))
  {
    forall k ensures Get(MergeRows(a, b), k) == Get(MergeRows(b, a), k) {
      MergedGet(a, b, k);
      MergedGet(b, a, k);
      if k in a.cells && k in b.cells {
        Commutative(a.cells[k], b.cells[k]);
      }
    }
    SameCells(MergeRows(a, b), MergeRows(b, a));
  }

  lemma MergeRowsIdempotent(a: Row)
    ensures Alike(MergeRows(a, a), a)
  {
    forall k ensures Get(MergeRows(a, a), k) == Get(a, k) {
      MergedGet(a, a, k);
      if k in a.cells {
        Idempotent(a.cells[k]);
      }
    }
    SameCells(MergeRows(a, a), a);
  }

  lemma MergeRowsAssociative(a: Row, b: Row, c: Row)
    ensures Alike(MergeRows(MergeRows(a, b), c), MergeRows(a, MergeRows(b, c)))
  {
    var l, r := MergeRows(MergeRows(a, b), c), MergeRows(a, MergeRows(b, c));
    forall k ensures Get(l, k) == Get(r, k) {
      MergedGet(a, b, k);
      MergedGet(b, c, k);
      MergedGet(MergeRows(a, b), c, k);
      MergedGet(a, MergeRows(b, c), k);
      JoinAssociative(Get(a, k), Get(b, k), Get(c, k));
    }
    SameCells(l, r);
  }

  lemma SameCells(a: Row, b: Row)
    requires forall k :: Get(a, k) == Get(b, k)
    ensures a.cells == b.cells
  {
    assert forall k :: k in a.cells ==> Get(a, k) == Get(b, k);
    assert forall k :: k in b.cells ==> Get(a, k) == Get(b, k);
  }

  lemma AlikeMerge(a: Row, b: Row, c: Row)
    requires Alike(a, b)
    ensures Alike(MergeRows(a, c), MergeRows(b, c)) && Alike(MergeRows(c, a), MergeRows(c, b))
  {
    assert MergeRows(a, c).cells == MergeRows(b, c).cells;
    assert MergeRows(c, a).cells == MergeRows(c, b).cells;
  }

  /** `m` reads like the merge of `x` and `y`. */
  predicate Joins(m: Partition, x: Partition, y: Partition, ck: Clustering) {
    && Alike(RowAt(m, ck), MergeRows(RowAt(x, ck), RowAt(y, ck)))
    && Alike(m.shared, MergeRows(x.shared, y.shared))
    && m.deletion.at == Newer(x.deletion, y.deletion).at
  }

  lemma JoinsTwo(x: Partition, y: Partition, ck: Clustering)
    ensures Joins(MergeTwo(x, y), x, y, ck)
  {
    RowAtMerged(x, y, ck);
  }

  lemma JoinsMore(m: Partition, x: Partition, y: Partition, last: Partition, ck: Clustering)
    requires Joins(m, x, y, ck)
    ensures Joins(MergeTwo(m, last), x, MergeTwo(y, last), ck)
  {
    RowAtMerged(m, last, ck);
    RowAtMerged(y, last, ck);
    var all, tail := MergeTwo(m, last), MergeTwo(y, last);
    MergeSplitRow(RowAt(all, ck), RowAt(m, ck), RowAt(x, ck), RowAt(y, ck), RowAt(tail, ck), RowAt(last, ck));
    MergeSplitRow(all.shared, m.shared, x.shared, y.shared, tail.shared, last.shared);
  }

  /** Merging two lists of sources is merging their merges. */
  lemma {:induction false} MergeSplit(xs: seq<Partition>, ys: seq<Partition>, ck: Clustering)
    requires xs != [] && ys != []
    ensures Joins(MergeAll(xs + ys), MergeAll(xs), MergeAll(ys), ck)
    decreases |ys|
  {
    var front, last := ys[..|ys| - 1], ys[|ys| - 1];
    var x := MergeAll(xs);
    assert (xs + ys)[..|xs + ys| - 1] == xs + front;
    if front == [] {
      assert xs + front == xs;
      JoinsTwo(x, last, ck);
    } else {
      MergeSplit(xs, front, ck);
      JoinsMore(MergeAll(xs + front), x, MergeAll(front), last, ck);
    }
  }

  lemma MergeSplitRow(all: Row, m: Row, x: Row, y: Row, tail: Row, last: Row)
    requires Alike(m, MergeRows(x, y)) && Alike(all, MergeRows(m, last)) && Alike(tail, MergeRows(y, last))
    ensures Alike(all, MergeRows(x, tail))
  {
    AlikeMerge(m, MergeRows(x, y), last);
    MergeRowsAssociative(x, y, last);
    AlikeMerge(tail, MergeRows(y, last), x);
  }

  // ---------------------------------------------------------------- the order of sources

  /** Merged partitions no read can tell apart at `ck`. */
  predicate Same(p: Partition, q: Partition, ck: Clustering) {
    Alike(RowAt(p, ck), RowAt(q, ck)) && Alike(p.shared, q.shared) && p.deletion.at == q.deletion.at
  }

  lemma SwappedLast(x: Partition, b: seq<Partition>, ck: Clustering)
    requires b != []
    ensures Same(MergeAll([x] + b), MergeAll(b + [x]), ck)
  {
    MergeSplit([x], b, ck);
    MergeSplit(b, [x], ck);
    MergeRowsCommutative(RowAt(x, ck), RowAt(MergeAll(b), ck));
    MergeRowsCommutative(x.shared, MergeAll(b).shared);
  }

  /** A source moved to the end of the list. */
  lemma MovedLast(a: seq<Partition>, x: Partition, b: seq<Partition>, ck: Clustering)
    ensures Same(MergeAll(a + [x] + b), MergeAll(a + b + [x]), ck)
  {
    Regroup(a, [x], b);
    Regroup(a, b, [x]);
    if b == [] {
      assert [x] + b == [x] == b + [x];
    } else {
      SwappedLast(x, b, ck);
      if a != [] {
        SamePrefixed(a, [x] + b, b + [x], ck);
      }
    }
  }

  lemma Regroup(a: seq<Partition>, b: seq<Partition>, c: seq<Partition>)
    ensures a + b + c == a + (b + c) && (a == [] ==> a + b + c == b + c)
  {
  }

  lemma SamePrefixed(a: seq<Partition>, xs: seq<Partition>, ys: seq<Partition>, ck: Clustering)
    requires a != [] && xs != [] && ys != [] && Same(MergeAll(xs), MergeAll(ys), ck)
    ensures Same(MergeAll(a + xs), MergeAll(a + ys), ck)
  {
    var m, x, y := MergeAll(a), MergeAll(xs), MergeAll(ys);
    MergeSplit(a, xs, ck);
    MergeSplit(a, ys, ck);
    AlikeMerge(RowAt(x, ck), RowAt(y, ck), RowAt(m, ck));
    AlikeMerge(x.shared, y.shared, m.shared);
  }

  lemma SameSuffixed(xs: seq<Partition>, ys: seq<Partition>, last: Partition, ck: Clustering)
    requires xs != [] && ys != [] && Same(MergeAll(xs), MergeAll(ys), ck)
    ensures Same(MergeAll(xs + [last]), MergeAll(ys + [last]), ck)
  {
    var x, y := MergeAll(xs), MergeAll(ys);
    MergeSplit(xs, [last], ck);
    MergeSplit(ys, [last], ck);
    AlikeMerge(RowAt(x, ck), RowAt(y, ck), RowAt(last, ck));
    AlikeMerge(x.shared, y.shared, last.shared);
  }

  /** The merge does not depend on the order in which sources are folded. */
  lemma {:induction false} MergeAnyOrder(xs: seq<Partition>, ys: seq<Partition>, ck: Clustering)
    requires xs != [] && multiset(xs) == multiset(ys)
    ensures ys != [] && Same(MergeAll(xs), MergeAll(ys), ck)
    decreases |xs|
  {
    var front, last := xs[..|xs| - 1], xs[|xs| - 1];
    assert xs == front + [last];
    assert last in multiset(ys);
    var i :| 0 <= i < |ys| && ys[i] == last;
    var a, b := ys[..i], ys[i + 1..];
    assert ys == a + [last] + b;
    assert multiset(ys) == multiset(a + b) + multiset{last};
    assert multiset(xs) == multiset(front) + multiset{last};
    SameRest(multiset(front), multiset(a + b), last);
    MovedLast(a, last, b, ck);
    if front == [] {
      assert |multiset(a + b)| == 0;
      assert a + b == [];
      assert a + b + [last] == xs;
    } else {
      MergeAnyOrder(front, a + b, ck);
      SameSuffixed(front, a + b, last, ck);
    }
  }

  lemma SameRest(a: multiset<Partition>, b: multiset<Partition>, x: Partition)
    requires a + multiset{x} == b + multiset{x}
    ensures a == b
  {
    assert a + multiset{x} - multiset{x} == a && b + multiset{x} - multiset{x} == b;
  }

  /** The rows a merge holds are those of its sources. */
  lemma {:induction false} MergedKeys(sources: seq<Partition>, ck: Clustering)
    requires sources != []
    ensures ck in MergeAll(sources).rows <==> exists s :: s in sources && ck in s.rows
    decreases |sources|
  {
    var front, last := sources[..|sources| - 1], sources[|sources| - 1];
    assert sources == front + [last];
    if front != [] {
      MergedKeys(front, ck);
    }
  }

  /** Partitions with the same rows in every respect a read looks at. */
  ghost predicate SamePartition(p: Partition, q: Partition) {
    && p.deletion.at == q.deletion.at && Alike(p.shared, q.shared) && p.rows.Keys == q.rows.Keys
    && forall ck :: ck in p.rows ==> Alike(p.rows[ck], q.rows[ck])
  }

  /** What a scan hands out for a key does not depend on the order either. */
  lemma ReadAnyOrder(xs: seq<Partition>, ys: seq<Partition>)
    requires xs != [] && multiset(xs) == multiset(ys)
    ensures ys != [] && SamePartition(SuppressAll(MergeAll(xs)), SuppressAll(MergeAll(ys)))
  {
    MergeAnyOrder(xs, ys, []);
    var x, y := MergeAll(xs), MergeAll(ys);
    forall ck
      ensures (ck in x.rows <==> ck in y.rows) && Same(x, y, ck)
      ensures Masked(RowAt(x, ck)).cells == Masked(RowAt(y, ck)).cells
    {
      MergeAnyOrder(xs, ys, ck);
      MergedKeys(xs, ck);
      MergedKeys(ys, ck);
      SameMembers(xs, ys);
    }
    var p, q := SuppressAll(x), SuppressAll(y);
    forall ck ensures (ck in p.rows <==> ck in q.rows) && (ck in p.rows ==> Alike(p.rows[ck], q.rows[ck])) {
      assert Same(x, y, ck);
    }
    AlikeReadsSame(x.deletion.at, x.shared, y.shared);
  }

  lemma SameMembers(xs: seq<Partition>, ys: seq<Partition>)
    requires multiset(xs) == multiset(ys)
    ensures forall s :: s in xs <==> s in ys
  {
    assert forall s :: s in xs <==> s in multiset(xs);
    assert forall s :: s in ys <==> s in multiset(ys);
  }

  predicate AllAbove(sources: seq<Partition>, limit: int) {
    forall s :: s in sources ==> Above(s.shared, limit) && forall ck :: ck in s.rows ==> Above(s.rows[ck], limit)
  }

  lemma {:induction false} MergedAbove(sources: seq<Partition>, limit: int, ck: Clustering)
    requires sources != [] && AllAbove(sources, limit)
    ensures Above(RowAt(MergeAll(sources), ck), limit) && Above(MergeAll(sources).shared, limit)
    decreases |sources|
  {
    var last := sources[|sources| - 1];
    assert last in sources && Above(RowAt(last, ck), limit);
    if |sources| > 1 {
      MergedAbove(sources[..|sources| - 1], limit, ck);
      var front := MergeAll(sources[..|sources| - 1]);
      RowAtMerged(front, last, ck);
      RowsAbove(RowAt(front, ck), RowAt(last, ck), limit);
      RowsAbove(front.shared, last.shared, limit);
    }
  }

  lemma RowsAbove(a: Row, b: Row, limit: int)
    requires Above(a, limit) && Above(b, limit)
    ensures Above(MergeRows(a, b), limit)
  {
    forall k | k in MergeRows(a, b).cells ensures MergeRows(a, b).cells[k].ts >= limit {
      MergedGet(a, b, k);
    }
  }

  /** Compacting any group of sources, read over the whole view: a row reads as before if
      and only if none of the three families applies to it. */
  lemma CompactedReadsSame(policy: Policy, inputs: seq<Partition>, outside: seq<Partition>, ck: Clustering)
    requires inputs != [] && outside != [] && AllAbove(outside, policy.maxPurgeable)
    ensures var ins, rest := MergeAll(inputs), MergeAll(outside);
            var i, o := RowAt(ins, ck), RowAt(rest, ck);
            SameView(Read([Compacted(policy, inputs)] + outside, ck), Read(inputs + outside, ck)) <==>
              && (Stripped(policy, ins.deletion, i, rest.deletion, o) ==> ShowsNothing(Masked(MergeRows(i, o))))
              && (Exposed(policy, ins.deletion, i, rest.deletion, o) ==> ShowsNothing(Masked(o)))
              && (Reinserted(ins.deletion, i, rest.deletion, o) ==> SameView(Masked(o), Masked(MergeRows(i, o))))
  {
    var ins, rest, c := MergeAll(inputs), MergeAll(outside), Compacted(policy, inputs);
    var i, o := RowAt(ins, ck), RowAt(rest, ck);
    MergedAbove(outside, policy.maxPurgeable, ck);
    MergeSplit(inputs, outside, ck);
    MergeSplit([c], outside, ck);
    CompactedRowAt(policy, inputs, ck);
    AlikeReadsSame(Newer(ins.deletion, rest.deletion).at, RowAt(MergeAll(inputs + outside), ck), MergeRows(i, o));
    AlikeReadsSame(Newer(c.deletion, rest.deletion).at, RowAt(MergeAll([c] + outside), ck), MergeRows(RowAt(c, ck), o));
    CompactionExact(policy, ins.deletion, i, rest.deletion, o);
    ReadIsSuppressed(inputs + outside, ck);
    ReadIsSuppressed([c] + outside, ck);
  }

  lemma ReadIsSuppressed(sources: seq<Partition>, ck: Clustering)
    requires sources != []
    ensures var m := MergeAll(sources); SameView(Read(sources, ck), Suppressed(m.deletion.at, RowAt(m, ck)))
  {
    assert Masked(VACANT) == VACANT;
  }

  lemma CompactedRowAt(policy: Policy, inputs: seq<Partition>, ck: Clustering)
    requires inputs != []
    ensures var m := MergeAll(inputs);
            RowAt(Compacted(policy, inputs), ck) == CompactedRow(policy, m.deletion, RowAt(m, ck))
  {
    assert Masked(VACANT) == VACANT && PurgedRow(policy, VACANT) == VACANT;
  }

  lemma StaticReadsSame(policy: Policy, inputs: seq<Partition>, outside: seq<Partition>, k: Key)
    requires inputs != [] && outside != [] && AllAbove(outside, policy.maxPurgeable)
    ensures Shown(ReadStatic([Compacted(policy, inputs)] + outside), k) == Shown(ReadStatic(inputs + outside), k)
  {
    var ins, rest, c := MergeAll(inputs), MergeAll(outside), Compacted(policy, inputs);
    MergedAbove(outside, policy.maxPurgeable, []);
    MergeSplit(inputs, outside, []);
    MergeSplit([c], outside, []);
    StaticUnchanged(policy, ins.deletion, ins.shared, rest.deletion, rest.shared, k);
    AlikeReadsSame(Newer(ins.deletion, rest.deletion).at, MergeAll(inputs + outside).shared,
                   MergeRows(ins.shared, rest.shared));
    AlikeReadsSame(Newer(c.deletion, rest.deletion).at, MergeAll([c] + outside).shared,
                   MergeRows(c.shared, rest.shared));
  }

  /** A compaction of everything, with nothing outside. */
  lemma CompactedAlone(policy: Policy, inputs: seq<Partition>, ck: Clustering)
    requires inputs != []
    ensures var m := MergeAll(inputs);
            SameView(Read([Compacted(policy, inputs)], ck), Read(inputs, ck)) <==>
              (Stripped(policy, m.deletion, RowAt(m, ck), LIVE, VACANT) ==> ShowsNothing(Masked(RowAt(m, ck))))
  {
    var m, c := MergeAll(inputs), Compacted(policy, inputs);
    var i := RowAt(m, ck);
    CompactedRowAt(policy, inputs, ck);
    VacantRight(i);
    VacantRight(RowAt(c, ck));
    CompactionExact(policy, m.deletion, i, LIVE, VACANT);
    AlikeReadsSame(m.deletion.at, MergeRows(i, VACANT), i);
    AlikeReadsSame(NO_TS, MergeRows(i, VACANT), i);
    AlikeReadsSame(c.deletion.at, MergeRows(RowAt(c, ck), VACANT), RowAt(c, ck));
    ReadIsSuppressed(inputs, ck);
    ReadIsSuppressed([c], ck);
  }

  lemma VacantRight(r: Row)
    ensures Alike(MergeRows(r, VACANT), r)
  {
    assert MergeRows(r, VACANT).cells == r.cells;
  }

  // ---------------------------------------------------------------- the purge limit

  /** What the planner knows of an SSTable. */
  datatype Metadata = Metadata(minToken: int, maxToken: int, minTimestamp: Ts, legacy: bool)

  function Bound(s: Metadata): Ts { if s.legacy then NO_TS else s.minTimestamp }

  /** Its token range meets the combined range of the inputs. */
  predicate Overlaps(s: Metadata, inputs: seq<Metadata>) {
    && (exists a :: a in inputs && a.minToken <= s.maxToken)
    && (exists b :: b in inputs && s.minToken <= b.maxToken)
  }

  /** The limit is the greatest timestamp not above anything outside that could overlap,
      and no purge at all without inputs. */
  method MaxPurgeable(inputs: seq<Metadata>, others: seq<Metadata>, unflushed: Ts) returns (limit: Ts)
    ensures inputs == [] ==> limit == NO_TS
    ensures inputs != [] ==>
              && limit <= unflushed
              && (forall s :: s in others && Overlaps(s, inputs) ==> limit <= Bound(s))
              && (limit == unflushed || exists s :: s in others && Overlaps(s, inputs) && limit == Bound(s))
  {
    if inputs == [] {
      return NO_TS;
    }
    var low, high := inputs[0].minToken, inputs[0].maxToken;
    for n := 1 to |inputs|
      invariant forall j :: 0 <= j < n ==> low <= inputs[j].minToken && inputs[j].maxToken <= high
      invariant exists j :: 0 <= j < n && inputs[j].minToken == low
      invariant exists j :: 0 <= j < n && inputs[j].maxToken == high
    {
      low, high := Min(low, inputs[n].minToken), Max(high, inputs[n].maxToken);
    }
    limit := unflushed;
    for n := 0 to |others|
      invariant limit <= unflushed
      invariant forall j :: 0 <= j < n && Overlaps(others[j], inputs) ==> limit <= Bound(others[j])
      invariant limit == unflushed || exists s :: s in others && Overlaps(s, inputs) && limit == Bound(s)
    {
      var s := others[n];
      assert Overlaps(s, inputs) <==> s.minToken <= high && s.maxToken >= low;
      if s.minToken <= high && s.maxToken >= low {
        limit := Min(limit, Bound(s));
      }
    }
  }
}
