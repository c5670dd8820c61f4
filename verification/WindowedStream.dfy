/**
 Windowed range streams between nodes: the producer loop of
 ferrosa-cluster/src/coordinator/stream_request_handler.rs with its resume filter, the
 continuation loop of `WindowedReplicaForwarder`, and the bounded route buffer between
 them. Partition keys and clusterings are given by their places in their orders; 0 is the
 empty clustering. Decode errors and cancellation, which end a stream loudly, are not part
 of a run here.
 */
module WindowedStream {
  import opened Base

  type Clustering = nat

  /** A piece of a partition; `header` marks a static row or partition deletion. */
  datatype Fragment = Fragment(key: int, header: bool, rows: seq<Clustering>)

  datatype Row = Row(key: int, ck: Clustering)

  /** Where a request starts: at the beginning, or after a row. */
  datatype Position = Start | At(key: int, ck: Clustering)

  predicate After(r: Row, p: Position) { p.Start? || r.key > p.key || (r.key == p.key && r.ck > p.ck) }

  // ---------------------------------------------------------------- what the storage iterator yields

  predicate Rising(s: seq<Clustering>) { forall i, j :: 0 <= i < j < |s| ==> s[i] < s[j] }

  /** Fragments come in key order, the rows of a partition in clustering order, and the
      header of a partition, as well as a row without clustering, in its first fragment. */
  predicate Ordered(fs: seq<Fragment>) {
    && (forall i :: 0 <= i < |fs| ==> Rising(fs[i].rows))
    && (forall i, j :: 0 <= i < j < |fs| ==> Follows(fs[i], fs[j]))
  }

  predicate Follows(f: Fragment, g: Fragment) {
    || f.key < g.key
    || (f.key == g.key && !g.header && 0 !in g.rows && forall x, y :: x in f.rows && y in g.rows ==> x < y)
  }

  function RowsIn(key: int, cks: seq<Clustering>, p: Position): seq<Row> {
    if cks == [] then []
    else (if After(Row(key, cks[0]), p) then [Row(key, cks[0])] else []) + RowsIn(key, cks[1..], p)
  }

  /** The rows of a stream after a position, in order. */
  function RowsAfter(fs: seq<Fragment>, p: Position): seq<Row> {
    if fs == [] then [] else RowsIn(fs[0].key, fs[0].rows, p) + RowsAfter(fs[1..], p)
  }

  lemma {:induction false} RowsAfterJoin(a: seq<Fragment>, b: seq<Fragment>, p: Position)
    ensures RowsAfter(a + b, p) == RowsAfter(a, p) + RowsAfter(b, p)
    decreases |a|
  {
    if a == [] {
      assert a + b == b;
    } else {
      assert (a + b)[1..] == a[1..] + b;
      RowsAfterJoin(a[1..], b, p);
    }
  }

  lemma {:induction false} NoneAfter(key: int, cks: seq<Clustering>, p: Position)
    requires forall x :: x in cks ==> !After(Row(key, x), p)
    ensures RowsIn(key, cks, p) == []
    decreases |cks|
  {
    if cks != [] {
      NoneAfter(key, cks[1..], p);
    }
  }

  lemma {:induction false} SameAfter(key: int, cks: seq<Clustering>, p: Position, q: Position)
    requires forall x :: x in cks ==> (After(Row(key, x), p) <==> After(Row(key, x), q))
    ensures RowsIn(key, cks, p) == RowsIn(key, cks, q)
    decreases |cks|
  {
    if cks != [] {
      SameAfter(key, cks[1..], p, q);
    }
  }

  /** `p` separates the first `i` fragments from the rest. */
  predicate Splits(fs: seq<Fragment>, i: nat, p: Position) {
    && i <= |fs|
    && (forall a :: 0 <= a < i ==> Behind(fs[a], p))
    && (forall a :: i <= a < |fs| ==> Ahead(fs[a], p))
  }

  predicate Behind(f: Fragment, p: Position) { forall x :: x in f.rows ==> !After(Row(f.key, x), p) }

  predicate Ahead(f: Fragment, p: Position) { forall x :: x in f.rows ==> After(Row(f.key, x), p) }

  lemma {:induction false} AllBehind(fs: seq<Fragment>, p: Position)
    requires forall a :: 0 <= a < |fs| ==> Behind(fs[a], p)
    ensures RowsAfter(fs, p) == []
    decreases |fs|
  {
    if fs != [] {
      assert Behind(fs[0], p);
      NoneAfter(fs[0].key, fs[0].rows, p);
      AllBehind(fs[1..], p);
    }
  }

  lemma {:induction false} AllAhead(fs: seq<Fragment>, p: Position, q: Position)
    requires forall a :: 0 <= a < |fs| ==> Ahead(fs[a], p) && Ahead(fs[a], q)
    ensures RowsAfter(fs, p) == RowsAfter(fs, q)
    decreases |fs|
  {
    if fs != [] {
      assert Ahead(fs[0], p) && Ahead(fs[0], q);
      SameAfter(fs[0].key, fs[0].rows, p, q);
      AllAhead(fs[1..], p, q);
    }
  }

  /** `q` is no earlier than `p`. */
  predicate NoEarlier(q: Position, p: Position) {
    p.Start? || (q.At? && (q.key > p.key || (q.key == p.key && q.ck >= p.ck)))
  }

  /** What is after `p` is what the first `i` fragments have after `p` and then what is
      after the split. */
  lemma SplitRows(fs: seq<Fragment>, i: nat, p: Position, q: Position)
    requires Splits(fs, i, q) && NoEarlier(q, p)
    ensures RowsAfter(fs, p) == RowsAfter(fs[..i], p) + RowsAfter(fs, q)
  {
    assert fs == fs[..i] + fs[i..];
    RowsAfterJoin(fs[..i], fs[i..], p);
    RowsAfterJoin(fs[..i], fs[i..], q);
    AllBehind(fs[..i], q);
    AllAhead(fs[i..], p, q);
  }

  // ---------------------------------------------------------------- the resume filter

  function Newer(cks: seq<Clustering>, ck: Clustering): (r: seq<Clustering>)
    ensures forall x :: x in r <==> x in cks && x > ck
  {
    if cks == [] then [] else (if cks[0] > ck then [cks[0]] else []) + Newer(cks[1..], ck)
  }

  /** Drop the rows already delivered; nothing is left of a fragment with neither rows nor
      header. */
  function Filtered(f: Fragment, p: Position): Option<Fragment> {
    if p.Start? || f.key != p.key then Some(f)
    else
      var rows := Newer(f.rows, p.ck);
      if rows == [] && !f.header then None else Some(f.(rows := rows))
  }

  lemma {:induction false} NewerRows(key: int, cks: seq<Clustering>, ck: Clustering)
    ensures RowsIn(key, Newer(cks, ck), Start) == RowsIn(key, cks, At(key, ck))
    decreases |cks|
  {
    if cks != [] {
      NewerRows(key, cks[1..], ck);
      NewerTail(cks, ck);
    }
  }

  lemma NewerTail(cks: seq<Clustering>, ck: Clustering)
    requires cks != []
    ensures cks[0] > ck ==> Newer(cks, ck) != [] && Newer(cks, ck)[0] == cks[0]
    ensures cks[0] > ck ==> Newer(cks, ck)[1..] == Newer(cks[1..], ck)
    ensures cks[0] <= ck ==> Newer(cks, ck) == Newer(cks[1..], ck)
  {
  }

  lemma {:induction false} NewerLast(cks: seq<Clustering>, ck: Clustering)
    requires Rising(cks) && Newer(cks, ck) != []
    ensures Newer(cks, ck)[|Newer(cks, ck)| - 1] == cks[|cks| - 1] && cks[|cks| - 1] > ck
    decreases |cks|
  {
    var some := Newer(cks, ck)[0];
    assert some in Newer(cks, ck);
    var n :| 0 <= n < |cks| && cks[n] == some;
    assert cks[|cks| - 1] > ck;
    if |cks| > 1 {
      assert cks[1..][|cks| - 2] in cks[1..];
      NewerLast(cks[1..], ck);
    }
  }

  /** The filter ships exactly the rows after the position. */
  lemma FilteredRows(f: Fragment, p: Position)
    requires p.Start? || f.key >= p.key
    ensures var kept := Filtered(f, p);
            RowsIn(f.key, f.rows, p) == if kept.Some? then RowsIn(f.key, kept.value.rows, Start) else []
    ensures Filtered(f, p).Some? ==> Filtered(f, p).value.key == f.key
  {
    if p.At? && f.key == p.key {
      NewerRows(f.key, f.rows, p.ck);
    } else {
      SameAfter(f.key, f.rows, p, Start);
    }
  }

  // ---------------------------------------------------------------- the producer's position

  /** The position after shipping a fragment: its last row, or for a fragment without rows
      the start of its partition, unless that partition is already under way. */
  function Track(last: Position, f: Fragment): Position {
    if f.rows != [] then At(f.key, f.rows[|f.rows| - 1])
    else if last.At? && last.key == f.key then last
    else At(f.key, 0)
  }

  /** A position from which a continuation delivers exactly what is left. */
  predicate Resumable(fs: seq<Fragment>, p: Position, from: nat, i: nat, last: Position) {
    && from < i && last.At? && Splits(fs, i, last) && NoEarlier(last, p)
    && forall a :: 0 <= a < i ==> fs[a].key <= last.key
  }

  /** Only the header of the resumed partition was shipped again, and the position fell back
      to the start of that partition. */
  predicate Rewound(fs: seq<Fragment>, p: Position, i: nat, sent: seq<Fragment>, last: Position) {
    && |sent| == 1 && sent[0].rows == [] && p.At? && last == At(p.key, 0)
    && i <= |fs| && forall a :: 0 <= a < i ==> fs[a].key <= p.key
  }

  predicate Reached(fs: seq<Fragment>, i: nat, key: int) { i <= |fs| && exists a :: 0 <= a < i && fs[a].key == key }

  lemma ReachedMore(fs: seq<Fragment>, i: nat, key: int)
    requires i < |fs| && (Reached(fs, i, key) || fs[i].key == key)
    ensures Reached(fs, i + 1, key)
  {
    if Reached(fs, i, key) {
      var a :| 0 <= a < i && fs[a].key == key;
      assert 0 <= a < i + 1 && fs[a].key == key;
    } else {
      assert 0 <= i < i + 1 && fs[i].key == key;
    }
  }

  /** Where the scan stands after `i` fragments, of which it shipped `sent`. */
  predicate Scanned(fs: seq<Fragment>, p: Position, from: nat, i: nat, sent: seq<Fragment>, last: Position) {
    && i <= |fs| && RowsAfter(sent, Start) == RowsAfter(fs[..i], p)
    && (last.Start? <==> sent == []) && (last.At? ==> Reached(fs, i, last.key))
    && (sent == [] ==> forall a :: 0 <= a < i ==> p.At? && fs[a].key <= p.key)
    && (sent != [] ==> Resumable(fs, p, from, i, last) || Rewound(fs, p, i, sent, last))
  }

  /** The request's own position: what precedes it, precedes it in the stream. */
  predicate Anchored(fs: seq<Fragment>, p: Position, from: nat) {
    && Ordered(fs) && Splits(fs, from, p) && (p.Start? ==> from == 0)
    && (p.At? ==> forall a :: 0 <= a < from ==> fs[a].key <= p.key)
  }

  lemma RowsTake(fs: seq<Fragment>, i: nat, p: Position)
    requires i < |fs|
    ensures RowsAfter(fs[..i + 1], p) == RowsAfter(fs[..i], p) + RowsIn(fs[i].key, fs[i].rows, p)
  {
    assert fs[..i + 1] == fs[..i] + [fs[i]];
    RowsAfterJoin(fs[..i], [fs[i]], p);
    assert [fs[i]][1..] == [];
  }

  lemma RowsSent(sent: seq<Fragment>, f: Fragment)
    ensures RowsAfter(sent + [f], Start) == RowsAfter(sent, Start) + RowsIn(f.key, f.rows, Start)
  {
    RowsAfterJoin(sent, [f], Start);
    assert [f][1..] == [];
  }

  lemma SkippedBehind(f: Fragment, p: Position)
    requires Filtered(f, p).None?
    ensures p.At? && f.key == p.key && Behind(f, p) && RowsIn(f.key, f.rows, p) == []
  {
    forall x | x in f.rows ensures x <= p.ck {
      assert x !in Newer(f.rows, p.ck);
    }
    NoneAfter(f.key, f.rows, p);
  }

  lemma ResumableSkips(fs: seq<Fragment>, p: Position, from: nat, i: nat, last: Position)
    requires Resumable(fs, p, from, i, last) && i < |fs| && p.At? && fs[i].key == p.key && Behind(fs[i], p)
    ensures Resumable(fs, p, from, i + 1, last)
  {
    assert Behind(fs[i], last);
  }

  /** A fragment the filter dropped. */
  lemma ScanSkips(fs: seq<Fragment>, p: Position, from: nat, i: nat, sent: seq<Fragment>, last: Position)
    requires Scanned(fs, p, from, i, sent, last) && i < |fs| && Filtered(fs[i], p).None?
    ensures Scanned(fs, p, from, i + 1, sent, last)
  {
    RowsTake(fs, i, p);
    SkippedBehind(fs[i], p);
    if last.At? {
      ReachedMore(fs, i, last.key);
    }
    if sent != [] && Resumable(fs, p, from, i, last) {
      ResumableSkips(fs, p, from, i, last);
    }
  }

  /** A fragment shipped with rows. */
  lemma ScanShipsRows(fs: seq<Fragment>, p: Position, from: nat, i: nat, sent: seq<Fragment>, last: Position,
        g: Fragment)
    requires Anchored(fs, p, from) && Scanned(fs, p, from, i, sent, last) && i < |fs| && (p.At? ==> fs[i].key >= p.key)
    requires Filtered(fs[i], p) == Some(g) && g.rows != []
    ensures Scanned(fs, p, from, i + 1, sent + [g], Track(last, g))
  {
    var f := fs[i];
    RowsTake(fs, i, p);
    FilteredRows(f, p);
    RowsSent(sent, g);
    LastRow(f, p, g);
    LastRowSplits(fs, i);
    FreshRow(fs, p, from, i, g);
    ReachedMore(fs, i, f.key);
  }

  lemma LastRow(f: Fragment, p: Position, g: Fragment)
    requires Rising(f.rows) && Filtered(f, p) == Some(g) && g.rows != [] && (p.At? ==> f.key >= p.key)
    ensures f.rows != [] && Track(p, g) == At(f.key, f.rows[|f.rows| - 1]) && NoEarlier(Track(p, g), p)
  {
    if p.At? && f.key == p.key {
      NewerLast(f.rows, p.ck);
    }
  }

  lemma LastRowSplits(fs: seq<Fragment>, i: nat)
    requires Ordered(fs) && i < |fs| && fs[i].rows != []
    ensures var q := At(fs[i].key, fs[i].rows[|fs[i].rows| - 1]);
            Splits(fs, i + 1, q) && forall a :: 0 <= a < i + 1 ==> fs[a].key <= q.key
  {
    var f := fs[i];
    var q := At(f.key, f.rows[|f.rows| - 1]);
    assert f.rows[|f.rows| - 1] in f.rows;
    forall a | 0 <= a < i ensures Behind(fs[a], q) && fs[a].key <= q.key {
      assert Follows(fs[a], f);
    }
    assert Behind(f, q) by {
      forall x | x in f.rows ensures x <= q.ck {
        var n :| 0 <= n < |f.rows| && f.rows[n] == x;
      }
    }
    forall a | i + 1 <= a < |fs| ensures Ahead(fs[a], q) {
      assert Follows(f, fs[a]);
    }
  }

  /** A row after the position cannot lie before the anchor. */
  lemma FreshRow(fs: seq<Fragment>, p: Position, from: nat, i: nat, g: Fragment)
    requires Anchored(fs, p, from) && i < |fs| && (p.At? ==> fs[i].key >= p.key)
    requires Filtered(fs[i], p) == Some(g) && g.rows != []
    ensures from <= i
  {
    if i < from {
      assert Behind(fs[i], p) && g.rows[0] in g.rows;
      assert g.rows[0] in fs[i].rows && After(Row(fs[i].key, g.rows[0]), p);
      assert false;
    }
  }

  /** A fragment shipped without rows, in another partition than the request's own. */
  lemma ScanShipsBare(fs: seq<Fragment>, p: Position, from: nat, i: nat, sent: seq<Fragment>, last: Position)
    requires Anchored(fs, p, from) && Scanned(fs, p, from, i, sent, last) && i < |fs| && fs[i].rows == []
    requires p.Start? || fs[i].key > p.key
    ensures Scanned(fs, p, from, i + 1, sent + [fs[i]], Track(last, fs[i]))
  {
    var f := fs[i];
    RowsTake(fs, i, p);
    RowsSent(sent, f);
    ReachedMore(fs, i, f.key);
    if sent != [] && last.key == f.key {
      BareContinues(fs, p, from, i, last);
    } else {
      BareOpens(fs, p, from, i, last);
    }
  }

  lemma BareContinues(fs: seq<Fragment>, p: Position, from: nat, i: nat, last: Position)
    requires Resumable(fs, p, from, i, last) && i < |fs| && fs[i].rows == [] && fs[i].key == last.key
    ensures Resumable(fs, p, from, i + 1, last)
  {
    assert Behind(fs[i], last);
  }

  /** The first fragment of a partition, without rows: nothing of it is delivered yet. */
  lemma BareOpens(fs: seq<Fragment>, p: Position, from: nat, i: nat, last: Position)
    requires Anchored(fs, p, from) && i < |fs| && fs[i].rows == [] && (p.Start? || fs[i].key > p.key)
    requires last.Start? ==> forall a :: 0 <= a < i ==> p.At? && fs[a].key <= p.key
    requires last.At? ==> last.key != fs[i].key && forall a :: 0 <= a < i ==> fs[a].key <= last.key
    requires last.At? ==> Reached(fs, i, last.key)
    ensures Resumable(fs, p, from, i + 1, At(fs[i].key, 0))
  {
    var f, q := fs[i], At(fs[i].key, 0);
    forall a | 0 <= a < i ensures fs[a].key < f.key {
      assert Follows(fs[a], f);
      if last.At? {
        var b :| 0 <= b < i && fs[b].key == last.key;
        assert Follows(fs[b], f);
      }
    }
    forall a | i + 1 <= a < |fs| ensures Ahead(fs[a], q) {
      assert Follows(f, fs[a]);
    }
  }

  /** The header of the request's own partition, shipped again without rows: it can only be
      the first thing shipped. */
  lemma ScanShipsHeader(fs: seq<Fragment>, p: Position, from: nat, i: nat, sent: seq<Fragment>, last: Position,
        g: Fragment)
    requires Anchored(fs, p, from) && Scanned(fs, p, from, i, sent, last) && i < |fs|
    requires p.At? && fs[i].key == p.key && fs[i].header && Filtered(fs[i], p) == Some(g) && g.rows == []
    ensures sent == [] && Scanned(fs, p, from, i + 1, sent + [g], Track(last, g))
  {
    var f := fs[i];
    RowsTake(fs, i, p);
    RowsSent(sent, g);
    FilteredRows(f, p);
    ReachedMore(fs, i, f.key);
    forall a | 0 <= a < i ensures fs[a].key < f.key {
      assert Follows(fs[a], f);
    }
    assert last.Start?;
  }

  lemma ScanShips(fs: seq<Fragment>, p: Position, from: nat, i: nat, sent: seq<Fragment>, last: Position, g: Fragment)
    requires Anchored(fs, p, from) && Scanned(fs, p, from, i, sent, last) && i < |fs| && (p.At? ==> fs[i].key >= p.key)
    requires Filtered(fs[i], p) == Some(g)
    ensures Scanned(fs, p, from, i + 1, sent + [g], Track(last, g))
  {
    if g.rows != [] {
      ScanShipsRows(fs, p, from, i, sent, last, g);
    } else if p.At? && fs[i].key == p.key {
      ScanShipsHeader(fs, p, from, i, sent, last, g);
    } else {
      ScanShipsBare(fs, p, from, i, sent, last);
    }
  }

  // ---------------------------------------------------------------- one window

  function Flat(chunks: seq<seq<Fragment>>): seq<Fragment> {
    if chunks == [] then [] else Flat(chunks[..|chunks| - 1]) + chunks[|chunks| - 1]
  }

  /** A chunk is full with its first fragment, whatever that is. */
  predicate Tiny(chunkSize: nat, rowCap: nat) { chunkSize <= 1 || rowCap == 0 }

  /** The window cannot end on the first fragment alone. */
  predicate Roomy(chunkSize: nat, rowCap: nat, maxChunks: nat) { maxChunks != 1 || !Tiny(chunkSize, rowCap) }

  /** Nothing before `i` is shipped by a request from `p`. */
  predicate NothingBefore(fs: seq<Fragment>, p: Position, i: nat) {
    i <= |fs| && forall a :: 0 <= a < i ==> (p.At? && fs[a].key < p.key) || Filtered(fs[a], p).None?
  }

  /** Skip to the first partition of the request, as opening the iterator does. */
  method Seek(fs: seq<Fragment>, p: Position, ghost from: nat) returns (i: nat)
    requires Anchored(fs, p, from)
    ensures i <= |fs| && (p.At? ==> forall a :: i <= a < |fs| ==> fs[a].key >= p.key)
    ensures Scanned(fs, p, from, i, [], Start) && NothingBefore(fs, p, i)
  {
    i := 0;
    while i < |fs| && p.At? && fs[i].key < p.key
      invariant i <= |fs| && forall a :: 0 <= a < i ==> p.At? && fs[a].key < p.key
    {
      i := i + 1;
    }
    forall a | i <= a < |fs| ensures p.At? ==> fs[a].key >= p.key {
      assert a > i ==> Follows(fs[i], fs[a]);
    }
    AllBehind(fs[..i], p);
  }

  predicate FromPartition(fs: seq<Fragment>, p: Position, i: nat) {
    i <= |fs| && (p.At? ==> forall a :: i <= a < |fs| ==> fs[a].key >= p.key)
  }

  /** Pass over the fragments of which the resume filter leaves nothing. */
  method SkipDropped(fs: seq<Fragment>, p: Position, ghost from: nat, start: nat, ghost sent: seq<Fragment>,
        ghost before: Position)
    returns (i: nat)
    requires Scanned(fs, p, from, start, sent, before)
    ensures start <= i <= |fs| && Scanned(fs, p, from, i, sent, before) && (i < |fs| ==> Filtered(fs[i], p).Some?)
    ensures forall a :: start <= a < i ==> Filtered(fs[a], p).None?
  {
    i := start;
    while i < |fs| && Filtered(fs[i], p).None?
      invariant start <= i <= |fs| && Scanned(fs, p, from, i, sent, before)
      invariant forall a :: start <= a < i ==> Filtered(fs[a], p).None?
    {
      ScanSkips(fs, p, from, i, sent, before);
      i := i + 1;
    }
  }

  /** Pull the next fragment the resume filter lets through. */
  method NextShipped(fs: seq<Fragment>, p: Position, ghost from: nat, start: nat, ghost sent: seq<Fragment>,
        ghost before: Position)
    returns (g: Option<Fragment>, i: nat)
    requires Anchored(fs, p, from) && FromPartition(fs, p, start) && Scanned(fs, p, from, start, sent, before)
    ensures start <= i && FromPartition(fs, p, i)
    ensures g.None? ==> i == |fs| && Scanned(fs, p, from, i, sent, before)
    ensures g.Some? ==> start < i && Filtered(fs[i - 1], p) == g
    ensures g.Some? ==> Scanned(fs, p, from, i, sent + [g.value], Track(before, g.value))
    ensures forall a :: start <= a < (if g.Some? then i - 1 else i) ==> Filtered(fs[a], p).None?
  {
    i := SkipDropped(fs, p, from, start, sent, before);
    if i == |fs| {
      return None, i;
    }
    g := Filtered(fs[i], p);
    ScanShips(fs, p, from, i, sent, before, g.value);
    i := i + 1;
  }

  /** Pull one fragment into the chunk. */
  method Collect(fs: seq<Fragment>, p: Position, ghost from: nat, start: nat, ghost sent: seq<Fragment>,
        batch: seq<Fragment>, before: Position)
    returns (more: seq<Fragment>, i: nat, last: Position, found: bool)
    requires Anchored(fs, p, from) && FromPartition(fs, p, start) && Scanned(fs, p, from, start, sent + batch, before)
    ensures start <= i && FromPartition(fs, p, i) && Scanned(fs, p, from, i, sent + more, last)
    ensures if found then start < i && |more| == |batch| + 1 && Filtered(fs[i - 1], p).Some?
                          && last == Track(before, Filtered(fs[i - 1], p).value)
            else i == |fs| && more == batch
    ensures forall a :: start <= a < (if found then i - 1 else i) ==> Filtered(fs[a], p).None?
  {
    var g;
    g, i := NextShipped(fs, p, from, start, sent + batch, before);
    found := g.Some?;
    if found {
      SentMore(sent, batch, g.value);
      more, last := batch + [g.value], Track(before, g.value);
    } else {
      more, last := batch, before;
    }
  }

  /** Collect fragments until the chunk is full or the stream ends. */
  method FillChunk(fs: seq<Fragment>, p: Position, ghost from: nat, start: nat, ghost sent: seq<Fragment>,
                   before: Position, chunkSize: nat, rowCap: nat)
    returns (batch: seq<Fragment>, i: nat, last: Position, full: bool)
    requires Anchored(fs, p, from) && FromPartition(fs, p, start) && Scanned(fs, p, from, start, sent, before)
    ensures start <= i && FromPartition(fs, p, i) && Scanned(fs, p, from, i, sent + batch, last)
    ensures full ==> start < i && batch != [] && (|batch| >= chunkSize || RowCount(batch) >= rowCap)
    ensures !full ==> i == |fs|
    ensures Tiny(chunkSize, rowCap) ==> forall a :: start <= a < (if full then i - 1 else i) ==>
              Filtered(fs[a], p).None?
    ensures Tiny(chunkSize, rowCap) && full ==>
              Filtered(fs[i - 1], p).Some? && last == Track(before, Filtered(fs[i - 1], p).value)
  {
    batch, i, last := [], start, before;
    SentNothing(sent);
    while true
      invariant start <= i && FromPartition(fs, p, i) && Scanned(fs, p, from, i, sent + batch, last)
      invariant Tiny(chunkSize, rowCap) ==> i == start && last == before
      decreases |fs| - i
    {
      var more, next, after, found := Collect(fs, p, from, i, sent, batch, last);
      batch, i, last := more, next, after;
      if !found {
        return batch, i, last, false;
      }
      if |batch| >= chunkSize || RowCount(batch) >= rowCap {
        return batch, i, last, true;
      }
    }
  }

  lemma SentNothing(sent: seq<Fragment>)
    ensures sent + [] == sent
  {
  }

  lemma SentMore(sent: seq<Fragment>, batch: seq<Fragment>, g: Fragment)
    ensures sent + batch + [g] == sent + (batch + [g])
  {
  }

  /** What a window shipped and where it says to go on add up to what was asked for. */
  predicate Continues(fs: seq<Fragment>, p: Position, from: nat, chunks: seq<seq<Fragment>>, q: Position, upto: nat) {
    from < upto && Anchored(fs, q, upto) && RowsAfter(fs, p) == RowsAfter(Flat(chunks), Start) + RowsAfter(fs, q)
  }

  /** Serve one request: ship filtered fragments in chunks until the stream or the window
      ends, and report where to go on. What was shipped is the next part of the stream,
      and unless the window is too small to pass a header, what is left is exactly what
      follows the reported position. */
  method ServeWindow(fs: seq<Fragment>, p: Position, ghost from: nat, chunkSize: nat, rowCap: nat, maxChunks: nat)
    returns (chunks: seq<seq<Fragment>>, resume: Option<Position>, ghost upto: nat)
    requires Anchored(fs, p, from)
    ensures maxChunks > 0 ==> |chunks| <= maxChunks
    ensures resume.None? ==> RowsAfter(Flat(chunks), Start) == RowsAfter(fs, p)
    ensures resume.Some? && Roomy(chunkSize, rowCap, maxChunks) ==> Continues(fs, p, from, chunks, resume.value, upto)
    ensures !Roomy(chunkSize, rowCap, maxChunks) ==>
              if resume.None? then NothingBefore(fs, p, |fs|)
              else 0 < upto <= |fs| && NothingBefore(fs, p, upto - 1) && Filtered(fs[upto - 1], p).Some?
                   && resume.value == Track(Start, Filtered(fs[upto - 1], p).value)
  {
    chunks, upto := [], from;
    var last: Position := Start;
    var i := Seek(fs, p, from);
    while true
      invariant FromPartition(fs, p, i) && Scanned(fs, p, from, i, Flat(chunks), last)
      invariant (maxChunks > 0 ==> |chunks| < maxChunks) && Full(chunks)
      invariant maxChunks == 1 ==> last.Start? && NothingBefore(fs, p, i)
      decreases |fs| - i
    {
      var batch, next, after, full := FillChunk(fs, p, from, i, Flat(chunks), last, chunkSize, rowCap);
      FlatMore(chunks, batch);
      if !Roomy(chunkSize, rowCap, maxChunks) {
        NothingMore(fs, p, i, if full then next - 1 else next);
      }
      if !full {
        StreamEnds(fs, p, from, chunks, batch, after);
        return (if batch != [] then chunks + [batch] else chunks), None, from;
      }
      if maxChunks > 0 && |chunks| + 1 >= maxChunks {
        if Roomy(chunkSize, rowCap, maxChunks) {
          MoreThanHeader(chunks, batch, chunkSize, rowCap, maxChunks);
          WindowEnds(fs, p, from, next, chunks, batch, after);
        }
        return chunks + [batch], Some(after), next;
      }
      chunks, i, last := chunks + [batch], next, after;
    }
  }

  lemma StreamEnds(fs: seq<Fragment>, p: Position, from: nat, chunks: seq<seq<Fragment>>, batch: seq<Fragment>,
        last: Position)
    requires Scanned(fs, p, from, |fs|, Flat(chunks) + batch, last)
    ensures RowsAfter(Flat(if batch != [] then chunks + [batch] else chunks), Start) == RowsAfter(fs, p)
  {
    assert fs[..|fs|] == fs;
    FlatMore(chunks, batch);
    assert batch == [] ==> Flat(chunks) + batch == Flat(chunks);
  }

  predicate Full(chunks: seq<seq<Fragment>>) { forall i :: 0 <= i < |chunks| ==> chunks[i] != [] }

  function RowCount(batch: seq<Fragment>): nat {
    if batch == [] then 0 else RowCount(batch[..|batch| - 1]) + |batch[|batch| - 1].rows|
  }

  lemma {:induction false} FlatLong(chunks: seq<seq<Fragment>>)
    requires Full(chunks)
    ensures |Flat(chunks)| >= |chunks|
    decreases |chunks|
  {
    if chunks != [] {
      FlatLong(chunks[..|chunks| - 1]);
    }
  }

  /** A roomy window that is full holds more than one fragment without rows. */
  lemma MoreThanHeader(chunks: seq<seq<Fragment>>, batch: seq<Fragment>, chunkSize: nat, rowCap: nat, maxChunks: nat)
    requires Full(chunks) && batch != [] && (|batch| >= chunkSize || RowCount(batch) >= rowCap)
    requires 0 < maxChunks <= |chunks| + 1 && Roomy(chunkSize, rowCap, maxChunks)
    ensures var sent := Flat(chunks) + batch; !(|sent| == 1 && sent[0].rows == [])
  {
    FlatLong(chunks);
    if |batch| == 1 {
      assert batch[..0] == [];
    }
  }

  lemma FlatMore(chunks: seq<seq<Fragment>>, batch: seq<Fragment>)
    ensures Flat(chunks + [batch]) == Flat(chunks) + batch
  {
    assert (chunks + [batch])[..|chunks|] == chunks;
  }

  lemma WindowEnds(fs: seq<Fragment>, p: Position, from: nat, i: nat, chunks: seq<seq<Fragment>>,
        batch: seq<Fragment>, last: Position)
    requires Anchored(fs, p, from) && Scanned(fs, p, from, i, Flat(chunks) + batch, last) && batch != []
    requires var sent := Flat(chunks) + batch; !(|sent| == 1 && sent[0].rows == [])
    ensures Continues(fs, p, from, chunks + [batch], last, i)
  {
    SplitRows(fs, i, p, last);
    FlatMore(chunks, batch);
  }

  lemma NothingMore(fs: seq<Fragment>, p: Position, i: nat, j: nat)
    requires NothingBefore(fs, p, i) && i <= j <= |fs| && forall a :: i <= a < j ==> Filtered(fs[a], p).None?
    ensures NothingBefore(fs, p, j)
  {
  }

  // ---------------------------------------------------------------- all windows together

  /** Fire request after request, each from the position the last one reported. With roomy
      windows the rows delivered are the rows of the stream, all of them, in order, once. */
  method Forward(fs: seq<Fragment>, chunkSize: nat, rowCap: nat, maxChunks: nat) returns (delivered: seq<Row>)
    requires Ordered(fs) && Roomy(chunkSize, rowCap, maxChunks)
    ensures delivered == RowsAfter(fs, Start)
  {
    delivered := [];
    var p, more := Start, true;
    ghost var from := 0;
    while more
      invariant from <= |fs| && (more ==> Anchored(fs, p, from))
      invariant delivered + (if more then RowsAfter(fs, p) else []) == RowsAfter(fs, Start)
      decreases more, |fs| - from
    {
      var chunks, resume, upto := ServeWindow(fs, p, from, chunkSize, rowCap, maxChunks);
      var rows := RowsAfter(Flat(chunks), Start);
      RowsJoin(delivered, rows, if resume.Some? then RowsAfter(fs, resume.value) else []);
      delivered := delivered + rows;
      if resume.None? {
        more := false;
      } else {
        p, from := resume.value, upto;
      }
    }
  }

  lemma RowsJoin(a: seq<Row>, b: seq<Row>, c: seq<Row>)
    ensures a + (b + c) == a + b + c && b + [] == b && a + b + [] == a + b
  {
  }

  predicate RowBefore(a: Row, b: Row) { a.key < b.key || (a.key == b.key && a.ck < b.ck) }

  predicate Holds(fs: seq<Fragment>, r: Row) { exists a :: 0 <= a < |fs| && fs[a].key == r.key && r.ck in fs[a].rows }

  lemma {:induction false} RowsHeld(fs: seq<Fragment>, r: Row)
    requires r in RowsAfter(fs, Start) && forall i :: 0 <= i < |fs| ==> Rising(fs[i].rows)
    ensures Holds(fs, r)
    decreases |fs|
  {
    RowsInRise(fs[0].key, fs[0].rows);
    if r in RowsIn(fs[0].key, fs[0].rows, Start) {
      assert fs[0].key == r.key && r.ck in fs[0].rows;
    } else {
      RowsHeld(fs[1..], r);
      var a :| 0 <= a < |fs[1..]| && fs[1..][a].key == r.key && r.ck in fs[1..][a].rows;
      assert fs[a + 1].key == r.key && r.ck in fs[a + 1].rows;
    }
  }

  predicate AllRise(rows: seq<Row>) { forall i, j :: 0 <= i < j < |rows| ==> RowBefore(rows[i], rows[j]) }

  /** No row of the stream repeats. */
  lemma {:induction false} RowsRise(fs: seq<Fragment>)
    requires Ordered(fs)
    ensures AllRise(RowsAfter(fs, Start))
    decreases |fs|
  {
    if fs != [] {
      var f, rest := fs[0], fs[1..];
      forall i, j | 0 <= i < j < |rest| ensures Follows(rest[i], rest[j]) {
        assert Follows(fs[i + 1], fs[j + 1]);
      }
      RowsRise(rest);
      RowsInRise(f.key, f.rows);
      forall r, s | r in RowsIn(f.key, f.rows, Start) && s in RowsAfter(rest, Start) ensures RowBefore(r, s) {
        RowsHeld(rest, s);
        var n :| 0 <= n < |f.rows| && r == Row(f.key, f.rows[n]);
        assert r.ck in f.rows;
        var a :| 0 <= a < |rest| && rest[a].key == s.key && s.ck in rest[a].rows;
        assert Follows(fs[0], fs[a + 1]);
      }
      AppendRise(RowsIn(f.key, f.rows, Start), RowsAfter(rest, Start));
    }
  }

  lemma AppendRise(a: seq<Row>, b: seq<Row>)
    requires AllRise(a) && AllRise(b) && forall r, s :: r in a && s in b ==> RowBefore(r, s)
    ensures AllRise(a + b)
  {
  }

  lemma {:induction false} RowsInRise(key: int, cks: seq<Clustering>)
    requires Rising(cks)
    ensures var rows := RowsIn(key, cks, Start);
            |rows| == |cks| && (forall i :: 0 <= i < |cks| ==> rows[i] == Row(key, cks[i])) && AllRise(rows)
    decreases |cks|
  {
    if cks != [] {
      RowsInRise(key, cks[1..]);
    }
  }

  /** Every window that is not roomy fails in the same way. Of three windows from the start
      of a stream, each asked for at the position the last one reported, the first stops
      after the second row, the next falls back to the start of the partition, and the
      third stops after the second row again: the third row never comes. */
  method TinyWindowRewinds(chunkSize: nat, rowCap: nat, maxChunks: nat)
    returns (first: seq<seq<Fragment>>, second: seq<seq<Fragment>>, third: seq<seq<Fragment>>,
             resumes: seq<Option<Position>>)
    requires !Roomy(chunkSize, rowCap, maxChunks)
    ensures Ordered(TINY) && RowsAfter(TINY, Start) == [Row(1, 1), Row(1, 2), Row(1, 3)]
    ensures resumes == [Some(At(1, 2)), Some(At(1, 0)), Some(At(1, 2))]
  {
    TinyRows();
    var r1, r2, r3;
    first, r1 := TinyWindow(Start, 0, chunkSize, rowCap, maxChunks);
    second, r2 := TinyWindow(r1.value, 1, chunkSize, rowCap, maxChunks);
    third, r3 := TinyWindow(r2.value, 0, chunkSize, rowCap, maxChunks);
    resumes := [r1, r2, r3];
  }

  /** Such a window ends with the first fragment it ships. */
  method TinyWindow(p: Position, ghost from: nat, chunkSize: nat, rowCap: nat, maxChunks: nat)
    returns (chunks: seq<seq<Fragment>>, resume: Option<Position>)
    requires !Roomy(chunkSize, rowCap, maxChunks) && Anchored(TINY, p, from)
    requires (p.At? ==> p.key == 1) && Filtered(TINY[0], p).Some?
    ensures resume == Some(Track(Start, Filtered(TINY[0], p).value))
  {
    ghost var upto;
    chunks, resume, upto := ServeWindow(TINY, p, from, chunkSize, rowCap, maxChunks);
    assert TINY[0].key == 1;
    assert resume.Some? && upto == 1;
  }

  const TINY: seq<Fragment> := [Fragment(1, true, [1, 2]), Fragment(1, false, [3])]

  lemma TinyRows()
    ensures Anchored(TINY, Start, 0) && Anchored(TINY, At(1, 2), 1) && Anchored(TINY, At(1, 0), 0)
    ensures Filtered(TINY[0], At(1, 2)) == Some(Fragment(1, true, [])) && Filtered(TINY[0], At(1, 0)) == Some(TINY[0])
    ensures RowsAfter(TINY, Start) == [Row(1, 1), Row(1, 2), Row(1, 3)]
  {
    assert Follows(TINY[0], TINY[1]);
    assert Behind(TINY[0], At(1, 2)) && Ahead(TINY[1], At(1, 2));
    assert Ahead(TINY[0], At(1, 0)) && Ahead(TINY[1], At(1, 0));
    TinyNewer();
    TinyRowsAfter();
  }

  lemma TinyNewer()
    ensures Newer([1, 2], 2) == [] && Newer([1, 2], 0) == [1, 2]
  {
    assert [2][1..] == [] && [1, 2][1..] == [2];
    assert Newer([2], 2) == [] && Newer([2], 0) == [2];
  }

  lemma TinyRowsAfter()
    ensures RowsAfter(TINY, Start) == [Row(1, 1), Row(1, 2), Row(1, 3)]
  {
    var g := Fragment(1, false, [3]);
    assert TINY[1..] == [g] && [g][1..] == [];
    assert RowsAfter([g], Start) == RowsIn(1, [3], Start);
    assert [3][1..] == [] && [2][1..] == [] && [1, 2][1..] == [2];
    assert RowsIn(1, [2], Start) == [Row(1, 2)] && RowsIn(1, [3], Start) == [Row(1, 3)];
  }

  // ---------------------------------------------------------------- the route buffer

  datatype Frame = Chunk | Done | Heartbeat

  const ROUTE_BUFFER: nat := 32
  const WINDOW_CHUNKS: nat := 16

  /** The receiving side of one request: frames not yet drained, data frames sent so far,
      and whether the route is still open. */
  datatype Route = Route(buffer: seq<Frame>, sent: nat, live: bool)

  datatype RouteStep = SendData(frame: Frame) | SendHeartbeat | Drain

  function Beats(buffer: seq<Frame>): nat {
    if buffer == [] then 0 else (if buffer[0].Heartbeat? then 1 else 0) + Beats(buffer[1..])
  }

  /** The producer sends a window of chunks and then its Done; a full buffer closes the
      route on a data frame and swallows a heartbeat. */
  predicate RouteEnabled(r: Route, step: RouteStep) {
    match step
    case SendData(f) => r.live && !f.Heartbeat? &&
                        (if f.Chunk? then r.sent < WINDOW_CHUNKS else r.sent <= WINDOW_CHUNKS)
    case SendHeartbeat => r.live
    case Drain => r.buffer != []
  }

  function RouteNext(r: Route, step: RouteStep): Route
    requires RouteEnabled(r, step)
  {
    match step
    case SendData(f) =>
      if |r.buffer| >= ROUTE_BUFFER then r.(live := false) else Route(r.buffer + [f], r.sent + 1, true)
    case SendHeartbeat => if |r.buffer| >= ROUTE_BUFFER then r else r.(buffer := r.buffer + [Heartbeat])
    case Drain => r.(buffer := r.buffer[1..])
  }

  predicate RouteInv(r: Route) { |r.buffer| <= Beats(r.buffer) + r.sent && r.sent <= WINDOW_CHUNKS + 1 }

  lemma {:induction false} BeatsMore(buffer: seq<Frame>, f: Frame)
    ensures Beats(buffer + [f]) == Beats(buffer) + (if f.Heartbeat? then 1 else 0)
    decreases |buffer|
  {
    if buffer == [] {
      assert buffer + [f] == [f] && [f][1..] == [];
    } else {
      assert (buffer + [f])[1..] == buffer[1..] + [f];
      BeatsMore(buffer[1..], f);
    }
  }

  lemma RouteKeeps(r: Route, step: RouteStep)
    requires RouteInv(r) && RouteEnabled(r, step)
    ensures RouteInv(RouteNext(r, step))
  {
    if !step.Drain? {
      BeatsMore(r.buffer, if step.SendData? then step.frame else Heartbeat);
    }
  }

  ghost predicate RouteRun(r: Route, steps: seq<RouteStep>)
    decreases |steps|
  {
    steps == [] || (RouteEnabled(r, steps[0]) && RouteRun(RouteNext(r, steps[0]), steps[1..]))
  }

  ghost function RouteExec(r: Route, steps: seq<RouteStep>): Route
    requires RouteRun(r, steps)
    decreases |steps|
  {
    if steps == [] then r else RouteExec(RouteNext(r, steps[0]), steps[1..])
  }

  /** Fewer heartbeats wait than the window leaves room for. */
  ghost predicate Quiet(r: Route, steps: seq<RouteStep>)
    requires RouteRun(r, steps)
    decreases |steps|
  {
    Beats(r.buffer) < ROUTE_BUFFER - WINDOW_CHUNKS && (steps == [] || Quiet(RouteNext(r, steps[0]), steps[1..]))
  }

  /** In every run of a window, data frames waiting never exceed the window and its Done;
      and while fewer than sixteen heartbeats wait, no data frame is refused, however slow
      the consumer. */
  lemma {:induction false} WindowFits(r: Route, steps: seq<RouteStep>)
    requires RouteInv(r) && RouteRun(r, steps)
    ensures var end := RouteExec(r, steps); |end.buffer| - Beats(end.buffer) <= WINDOW_CHUNKS + 1
    ensures r.live && Quiet(r, steps) ==> RouteExec(r, steps).live
    decreases |steps|
  {
    if steps != [] {
      RouteKeeps(r, steps[0]);
      WindowFits(RouteNext(r, steps[0]), steps[1..]);
    }
  }

  /** Heartbeats and chunks nobody has drained yet. */
  function Piled(beats: nat, chunks: nat): Route {
    Route(seq(beats, i => Heartbeat) + seq(chunks, i => Chunk), chunks, true)
  }

  /** No more than `most` heartbeats ever wait. */
  ghost predicate BeatsAtMost(r: Route, steps: seq<RouteStep>, most: nat)
    requires RouteRun(r, steps)
    decreases |steps|
  {
    Beats(r.buffer) <= most && (steps == [] || BeatsAtMost(RouteNext(r, steps[0]), steps[1..], most))
  }

  ghost predicate NeverCloses(most: nat) {
    forall steps :: RouteRun(Piled(0, 0), steps) && BeatsAtMost(Piled(0, 0), steps, most) ==>
      RouteExec(Piled(0, 0), steps).live
  }

  lemma {:induction false} FewIsQuiet(r: Route, steps: seq<RouteStep>, most: nat)
    requires RouteRun(r, steps) && BeatsAtMost(r, steps, most) && most < ROUTE_BUFFER - WINDOW_CHUNKS
    ensures Quiet(r, steps)
    decreases |steps|
  {
    if steps != [] {
      FewIsQuiet(RouteNext(r, steps[0]), steps[1..], most);
    }
  }

  /** Heartbeats take slots too. From a route just opened, no data frame is refused in any
      run in which at most `most` heartbeats wait if and only if that is fewer than the
      window leaves room for. */
  lemma HeartbeatsExactly(most: nat)
    ensures NeverCloses(most) <==> most < ROUTE_BUFFER - WINDOW_CHUNKS
  {
    if most < ROUTE_BUFFER - WINDOW_CHUNKS {
      forall steps | RouteRun(Piled(0, 0), steps) && BeatsAtMost(Piled(0, 0), steps, most)
        ensures RouteExec(Piled(0, 0), steps).live
      {
        FewIsQuiet(Piled(0, 0), steps, most);
        WindowFits(Piled(0, 0), steps);
      }
    } else {
      var steps := CrowdedOut(0, 0, most);
    }
  }

  /** Sixteen heartbeats, a window of chunks, and the Done finds the buffer full. */
  lemma {:induction false} CrowdedOut(beats: nat, chunks: nat, most: nat) returns (steps: seq<RouteStep>)
    requires beats <= 16 <= most && chunks <= 16 && (chunks > 0 ==> beats == 16)
    ensures RouteRun(Piled(beats, chunks), steps) && BeatsAtMost(Piled(beats, chunks), steps, most)
    ensures !RouteExec(Piled(beats, chunks), steps).live
    decreases 32 - beats - chunks
  {
    var r := Piled(beats, chunks);
    AllBeats(beats, chunks);
    var rest, step;
    if beats < 16 {
      rest := CrowdedOut(beats + 1, chunks, most);
      step := SendHeartbeat;
      assert RouteNext(r, step) == Piled(beats + 1, chunks);
    } else if chunks < 16 {
      rest := CrowdedOut(beats, chunks + 1, most);
      step := SendData(Chunk);
      assert RouteNext(r, step) == Piled(beats, chunks + 1);
    } else {
      rest, step := [], SendData(Done);
      assert RouteNext(r, step) == r.(live := false);
    }
    steps := [step] + rest;
    assert steps[1..] == rest;
  }

  lemma {:induction false} AllBeats(n: nat, m: nat)
    ensures Beats(seq(n, i => Heartbeat) + seq(m, i => Chunk)) == n
    decreases n + m
  {
    var s: seq<Frame> := seq(n, i => Heartbeat) + seq(m, i => Chunk);
    if n > 0 {
      assert s[1..] == seq(n - 1, i => Heartbeat) + seq(m, i => Chunk);
      AllBeats(n - 1, m);
    } else if m > 0 {
      assert s[1..] == seq(0, i => Heartbeat) + seq(m - 1, i => Chunk);
      AllBeats(0, m - 1);
    }
  }
}
