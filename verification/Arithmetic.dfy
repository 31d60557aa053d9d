/** Shared arithmetic: row offsets, powers of two, quotients, and sequences that differ in one range only. */
module Arithmetic {

  /** Offset of row r in a row-major layout of the given width. */
  function RowStart(r: nat, width: nat): nat
  {
    r * width
  }

  lemma RowBefore(q: nat, r: nat, width: nat)
    requires q < r
    ensures RowStart(q, width) + width <= RowStart(r, width)
  {
    assert (r - q - 1) * width >= 0;
    assert r * width == q * width + width + (r - q - 1) * width;
  }

  /** Quotient and remainder are unique. */
  lemma QuotientRemainder(w: int, m: int, q: int, r: int)
    requires w == q * m + r && 0 <= r < m
    ensures w / m == q && w % m == r
  {
    var d, e := w / m, w % m;
    assert w == d * m + e && 0 <= e < m;
    NotAbove(d, q, m, e, r);
    NotAbove(q, d, m, r, e);
  }

  lemma NotAbove(a: int, b: int, m: int, c: int, d: int)
    requires 0 <= c < m && 0 <= d < m && a * m + c == b * m + d
    ensures a <= b
  {
    if a > b { Grow(a - b, m); Distribute(a, b, m); }
  }

  lemma Distribute(a: int, b: int, m: int)
    ensures (a - b) * m == a * m - b * m
  {
  }

  lemma Grow(k: int, m: int)
    requires k >= 1 && m >= 0
    ensures k * m >= m
  {
  }

  function TwoTo(n: nat): (p: nat)
    ensures p >= 1
  {
    if n == 0 then 1 else 2 * TwoTo(n - 1)
  }

  /** Two sequences that differ at most in positions lo .. hi - 1. */
  predicate SameOutside<T(==)>(a: seq<T>, b: seq<T>, lo: nat, hi: nat)
  {
    |a| == |b| && forall i :: (0 <= i < |a| && !(lo <= i < hi) ==> a[i] == b[i])
  }

  /** The same with two ranges. */
  predicate SameOutsideTwo<T(==)>(a: seq<T>, b: seq<T>, lo: nat, hi: nat, lo2: nat, hi2: nat)
  {
    |a| == |b| && forall i :: (0 <= i < |a| && !(lo <= i < hi) && !(lo2 <= i < hi2) ==> a[i] == b[i])
  }
}
