/** Arithmetic of flattened two-level loops. With n inner iterations per outer
    iteration, inner iteration c of outer iteration r is appended at flat index
    Offset(r, n) + c, where Offset(r, n) = r * n counts what the first r outer
    iterations appended. Both the lattice (rows of columns) and the colour
    table (bands of rows) are laid out this way. */
module FlatIndexing {

  /** The number of entries appended by the first k outer iterations of n
      inner iterations each: the flat index where outer iteration k starts. */
  function Offset(k: nat, n: nat): nat {
    if k == 0 then 0 else Offset(k - 1, n) + n
  }

  lemma {:induction false} OffsetIsProduct(k: nat, n: nat)
    ensures Offset(k, n) == k * n
  {
    if k > 0 {
      OffsetIsProduct(k - 1, n);
    }
  }

  /** Inner iteration c of an outer iteration r before m lands before where
      outer iteration m starts. */
  lemma {:induction false} OffsetBound(r: nat, c: nat, m: nat, n: nat)
    requires r < m && c < n
    ensures Offset(r, n) + c < Offset(m, n)
  {
    if r < m - 1 {
      OffsetBound(r, c, m - 1, n);
    }
  }

  lemma MulAtLeast(k: int, n: int)
    requires k >= 1 && n >= 0
    ensures k * n >= n
  {
  }

  lemma MulDistrib(a: int, b: int, n: int)
    ensures a * n - b * n == (a - b) * n
  {
  }

  /** Outer iteration r, inner iteration c is recovered from its flat index by
      division and remainder. */
  lemma {:induction false} FlatIndex(r: nat, c: nat, n: nat)
    requires 0 <= c < n
    ensures (Offset(r, n) + c) / n == r
    ensures (Offset(r, n) + c) % n == c
  {
    OffsetIsProduct(r, n);
    var i := r * n + c;
    var q, m := i / n, i % n;
    assert i == q * n + m;
    MulDistrib(q, r, n);
    assert (q - r) * n == c - m;
    if q > r {
      MulAtLeast(q - r, n);
      assert false;
    } else if q < r {
      MulAtLeast(r - q, n);
      MulDistrib(r, q, n);
      assert false;
    }
  }

  lemma DivBelow(i: int, m: int, n: int)
    requires n >= 1 && 0 <= i < m * n
    ensures 0 <= i / n < m
  {
    var q := i / n;
    assert i == q * n + i % n;
    if q >= m {
      MulDistrib(q, m, n);
      assert false;
    }
  }

  /** Every flat index before Offset(m, n) comes from an outer iteration
      before m, and is that iteration's start plus the remainder. */
  lemma {:induction false} FlatIndexInRange(i: int, m: nat, n: nat)
    requires n >= 1 && 0 <= i < Offset(m, n)
    ensures 0 <= i / n < m
    ensures Offset(i / n, n) + i % n == i
  {
    OffsetIsProduct(m, n);
    DivBelow(i, m, n);
    OffsetIsProduct(i / n, n);
  }
}
