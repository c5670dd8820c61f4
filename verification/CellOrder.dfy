/**
 The cell order behind every merge (`reconcile_cmp` in ferrosa-common/src/complex_cell.rs):
 timestamp first, then a tombstone beats a live cell, then the whole cell breaks the tie.
 Two candidates always share their cell path, so the path comparison at the end never
 decides and cells here carry none.
 */
module CellOrder {
  import opened Base

  type Bytes = seq<nat>

  /** The sentinel of "no timestamp", the least 64-bit value. */
  const NO_TS: int := -0x8000_0000_0000_0000

  type Ts = t: int | NO_TS <= t witness 0

  datatype Cell = Cell(ts: Ts, value: Option<Bytes>, ttl: int, ldt: int)

  predicate Tombstone(c: Cell) { c.value.None? }

  datatype Ordering = Less | Equal | Greater

  function Reverse(o: Ordering): Ordering {
    match o
    case Less => Greater
    case Equal => Equal
    case Greater => Less
  }

  function Then(a: Ordering, b: Ordering): Ordering { if a.Equal? then b else a }

  function CmpInt(a: int, b: int): Ordering { if a < b then Less else if a > b then Greater else Equal }

  function CmpBool(a: bool, b: bool): Ordering { if a == b then Equal else if a then Greater else Less }

  function CmpBytes(a: Bytes, b: Bytes): Ordering
    decreases |a|
  {
    if a == [] then if b == [] then Equal else Less
    else if b == [] then Greater
    else if a[0] != b[0] then CmpInt(a[0], b[0])
    else CmpBytes(a[1..], b[1..])
  }

  function CmpValue(a: Option<Bytes>, b: Option<Bytes>): Ordering {
    match (a, b)
    case (None, None) => Equal
    case (None, Some(_)) => Less
    case (Some(_), None) => Greater
    case (Some(x), Some(y)) => CmpBytes(x, y)
  }

  function Cmp(a: Cell, b: Cell): Ordering {
    Then(CmpInt(a.ts, b.ts),
    Then(CmpBool(Tombstone(a), Tombstone(b)),
    Then(CmpValue(a.value, b.value),
    Then(CmpInt(a.ttl, b.ttl), CmpInt(a.ldt, b.ldt)))))
  }

  /** The winner of two candidates for one cell. */
  function Reconcile(a: Cell, b: Cell): Cell { if Cmp(a, b).Greater? then a else b }

  // ---------------------------------------------------------------- a total order

  lemma {:induction false} CmpBytesLaws(a: Bytes, b: Bytes)
    ensures CmpBytes(b, a) == Reverse(CmpBytes(a, b))
    ensures CmpBytes(a, b).Equal? <==> a == b
    decreases |a|
  {
    if a != [] && b != [] {
      CmpBytesLaws(a[1..], b[1..]);
      assert a == [a[0]] + a[1..] && b == [b[0]] + b[1..];
    }
  }

  lemma {:induction false} CmpBytesTransitive(a: Bytes, b: Bytes, c: Bytes)
    requires !CmpBytes(a, b).Greater? && !CmpBytes(b, c).Greater?
    ensures !CmpBytes(a, c).Greater?
    decreases |a|
  {
    if a != [] && a[0] == b[0] && b[0] == c[0] {
      CmpBytesTransitive(a[1..], b[1..], c[1..]);
    }
  }

  lemma CmpLaws(a: Cell, b: Cell)
    ensures Cmp(b, a) == Reverse(Cmp(a, b))
    ensures Cmp(a, b).Equal? <==> a == b
  {
    if a.value.Some? && b.value.Some? {
      CmpBytesLaws(a.value.value, b.value.value);
    }
  }

  lemma CmpValueTransitive(a: Option<Bytes>, b: Option<Bytes>, c: Option<Bytes>)
    requires !CmpValue(a, b).Greater? && !CmpValue(b, c).Greater?
    ensures !CmpValue(a, c).Greater?
    ensures CmpValue(a, c).Equal? ==> CmpValue(a, b).Equal? && CmpValue(b, c).Equal?
  {
    if a.Some? && b.Some? && c.Some? {
      CmpBytesTransitive(a.value, b.value, c.value);
      CmpBytesLaws(a.value, b.value);
      CmpBytesLaws(b.value, c.value);
      CmpBytesLaws(a.value, c.value);
    }
  }

  lemma CmpTransitive(a: Cell, b: Cell, c: Cell)
    requires !Cmp(a, b).Greater? && !Cmp(b, c).Greater?
    ensures !Cmp(a, c).Greater?
  {
    if a.ts == b.ts == c.ts && Tombstone(a) == Tombstone(b) == Tombstone(c) {
      CmpValueTransitive(a.value, b.value, c.value);
    }
  }

  // ---------------------------------------------------------------- so reconciliation is a join

  lemma Commutative(a: Cell, b: Cell)
    ensures Reconcile(a, b) == Reconcile(b, a)
  {
    CmpLaws(a, b);
  }

  lemma Idempotent(a: Cell)
    ensures Reconcile(a, a) == a
  {
    CmpLaws(a, a);
  }

  lemma Associative(a: Cell, b: Cell, c: Cell)
    ensures Reconcile(Reconcile(a, b), c) == Reconcile(a, Reconcile(b, c))
  {
    CmpLaws(a, b);
    CmpLaws(b, c);
    CmpLaws(a, c);
    if !Cmp(a, b).Greater? && !Cmp(b, c).Greater? {
      CmpTransitive(a, b, c);
    } else if Cmp(a, b).Greater? && Cmp(b, c).Greater? {
      CmpTransitive(c, b, a);
    }
  }

  /** The winner is one of the two, is not older than either, and at equal timestamps is a
      tombstone when either is one. */
  lemma WinnerIsNewest(a: Cell, b: Cell)
    ensures var w := Reconcile(a, b);
            && (w == a || w == b) && w.ts == Max(a.ts, b.ts)
            && (a.ts == b.ts && (Tombstone(a) || Tombstone(b)) ==> Tombstone(w))
  {
  }
}
