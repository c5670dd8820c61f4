/** Small value types and facts shared by several modules. */
module Base {

  /** A value that may be absent (Rust `Option`, Python `None`). */
  datatype Option<+T> = None | Some(value: T)

  function Max(a: int, b: int): int { if a < b then b else a }

  function Min(a: int, b: int): int { if a < b then a else b }

  lemma SubsetSize<T>(a: set<T>, b: set<T>)
    requires a <= b
    ensures |a| <= |b|
  {
    assert b == a + (b - a);
  }

  lemma Scaled(a: nat, b: nat, factor: nat)
    requires a <= b
    ensures a * factor <= b * factor
  {
  }

  lemma OneLess(a: nat, factor: nat)
    requires a > 0
    ensures (a - 1) * factor == a * factor - factor
  {
  }
}
