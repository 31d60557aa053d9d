/** Block floating point over exact arithmetic: integer mantissas sharing a power-of-two unit a block. */
module Bfp {
  import opened Arithmetic

  /** 2^e for any integer e. */
  function Pow2(e: int): (p: real)
    ensures p > 0.0
    decreases if e < 0 then -e else e
  {
    if e == 0 then 1.0 else if e > 0 then 2.0 * Pow2(e - 1) else Pow2(e + 1) / 2.0
  }

  lemma {:induction false} Pow2Adds(a: int, b: int)
    ensures Pow2(a + b) == Pow2(a) * Pow2(b)
    decreases if a < 0 then -a else a
  {
    hide Pow2;
    if a > 0 {
      Pow2Adds(a - 1, b);
      Pow2Step(a - 1);
      Pow2Step(a + b - 1);
      MulAssociates(2.0, Pow2(a - 1), Pow2(b));
    } else if a < 0 {
      Pow2Adds(a + 1, b);
      Pow2Step(a + b);
      Pow2Step(a);
      MulAssociates(2.0, Pow2(a), Pow2(b));
    } else {
      Pow2Zero();
    }
  }

  lemma Pow2Zero()
    ensures Pow2(0) == 1.0
  {
  }

  lemma MulAssociates(a: real, b: real, c: real)
    ensures (a * b) * c == a * (b * c)
  {
  }

  /** Largest mantissa with the given number of fraction bits. */
  function MaxMantissa(fracBits: nat): int
  {
    TwoTo(fracBits) - 1
  }

  function Abs(x: real): real
  {
    if x < 0.0 then -x else x
  }

  lemma Pow2Step(e: int)
    ensures Pow2(e + 1) == 2.0 * Pow2(e)
  {
  }

  lemma {:induction false} Pow2Monotone(a: int, b: int)
    requires a <= b
    ensures Pow2(a) <= Pow2(b)
    decreases b - a
  {
    if a < b {
      Pow2Step(b - 1);
      Pow2Monotone(a, b - 1);
    }
  }

  /** ceil(log2(x)): the least exponent whose power of two reaches x. */
  function CeilLog2(x: real): (e: int)
    requires x > 0.0
    ensures x <= Pow2(e) && Pow2(e - 1) < x
    decreases if x > 1.0 then x.Floor else 0, if x <= 0.5 then (1.0 / x).Floor else 0
  {
    if x > 1.0 then
      Pow2Step(CeilLog2(x / 2.0));
      Pow2Step(CeilLog2(x / 2.0) - 1);
      CeilLog2(x / 2.0) + 1
    else if x > 0.5 then
      assert Pow2(-1) == 0.5;
      0
    else
      InverseHalves(x);
      Pow2Step(CeilLog2(2.0 * x) - 1);
      Pow2Step(CeilLog2(2.0 * x) - 2);
      CeilLog2(2.0 * x) - 1
  }

  lemma InverseHalves(x: real)
    requires 0.0 < x <= 0.5
    ensures 2.0 * x <= 0.5 ==> (1.0 / (2.0 * x)).Floor < (1.0 / x).Floor
    ensures 1.0 / x >= 2.0
  {
    var y, z := 1.0 / x, 1.0 / (2.0 * x);
    DivideMultiply(1.0, x);
    DivideMultiply(1.0, 2.0 * x);
    MulAssociates(z, 2.0, x);
    Scale(z * 2.0, y, x);
    Scale(2.0, y, x);
    Scale(2.0, z, 2.0 * x);
  }

  /** Positive factors and divisors keep order and equality. */
  lemma Scale(a: real, b: real, factor: real)
    requires factor > 0.0
    ensures a <= b <==> a * factor <= b * factor
    ensures a == b <==> a * factor == b * factor
  {
    if a < b { Positive(b - a, factor); }
    if b < a { Positive(a - b, factor); }
  }

  lemma Positive(d: real, factor: real)
    requires d > 0.0 && factor > 0.0
    ensures d * factor > 0.0
  {
  }

  lemma DivideMultiply(x: real, divisor: real)
    requires divisor > 0.0
    ensures (x / divisor) * divisor == x
  {
  }

  /** Minimality pins the exponent down. */
  lemma CeilLog2Unique(x: real, e: int)
    requires x > 0.0 && x <= Pow2(e) && Pow2(e - 1) < x
    ensures CeilLog2(x) == e
  {
    var d := CeilLog2(x);
    if d < e { Pow2Monotone(d, e - 1); }
    if e < d { Pow2Monotone(e, d - 1); }
  }

  // ---- One number ----

  /** C's (int)(x + 0.5) or (int)(x - 0.5): round half away from zero. */
  function Round(x: real): int
  {
    if x >= 0.0 then (x + 0.5).Floor else -((-x + 0.5).Floor)
  }

  function Clamp(m: int, bound: int): int
  {
    if m > bound then bound else if m < -bound then -bound else m
  }

  /** Exponent of a block with the given largest magnitude. */
  function ExponentFor(maxAbs: real, fracBits: nat): int
    requires fracBits >= 1
  {
    if maxAbs > 0.0 then CeilLog2(maxAbs / MaxMantissa(fracBits) as real) else 0
  }

  /** x measured in units of 2^e. */
  function Units(x: real, e: int): real
  {
    x / Pow2(e)
  }

  function Mantissa(x: real, e: int, fracBits: nat): int
  {
    Clamp(Round(Units(x, e)), MaxMantissa(fracBits))
  }

  function Decode(m: int, e: int): real
  {
    m as real * Pow2(e)
  }

  /** The largest number the mantissas span at an exponent. */
  function Reach(e: int, fracBits: nat): real
  {
    MaxMantissa(fracBits) as real * Pow2(e)
  }

  /** e is the least exponent at which a magnitude of maxAbs fits the mantissa; zero blocks take 0. */
  predicate Fits(maxAbs: real, e: int, fracBits: nat)
  {
    if maxAbs > 0.0 then
      maxAbs <= Reach(e, fracBits) && Reach(e, fracBits) < 2.0 * maxAbs
    else
      e == 0
  }

  /** Dividing by the bound first or multiplying by it afterwards selects the same unit. */
  lemma SameUnit(maxAbs: real, bound: real, unit: real)
    requires bound > 0.0
    ensures maxAbs / bound <= unit <==> maxAbs <= bound * unit
    ensures unit < 2.0 * (maxAbs / bound) <==> bound * unit < 2.0 * maxAbs
  {
    var x := maxAbs / bound;
    DivideMultiply(maxAbs, bound);
    Scale(x, unit, bound);
    Scale(2.0 * x, unit, bound);
    MulAssociates(2.0, x, bound);
  }

  lemma ExponentFits(maxAbs: real, fracBits: nat)
    requires fracBits >= 1 && maxAbs >= 0.0
    ensures Fits(maxAbs, ExponentFor(maxAbs, fracBits), fracBits)
  {
    hide Pow2, CeilLog2, MaxMantissa;
    if maxAbs > 0.0 {
      MaxMantissaOdd(fracBits);
      var bound := MaxMantissa(fracBits) as real;
      var e := ExponentFor(maxAbs, fracBits);
      Ratio(maxAbs, bound);
      Pow2Step(e - 1);
      SameUnit(maxAbs, bound, Pow2(e));
    }
  }

  lemma Ratio(a: real, b: real)
    requires a > 0.0 && b > 0.0
    ensures a / b > 0.0
  {
    DivideMultiply(a, b);
    Scale(0.0, a / b, b);
  }

  lemma FitsUnique(maxAbs: real, e: int, fracBits: nat)
    requires fracBits >= 1 && maxAbs >= 0.0 && Fits(maxAbs, e, fracBits)
    ensures ExponentFor(maxAbs, fracBits) == e
  {
    hide Pow2, CeilLog2, MaxMantissa;
    if maxAbs > 0.0 {
      MaxMantissaOdd(fracBits);
      var bound := MaxMantissa(fracBits) as real;
      Ratio(maxAbs, bound);
      Pow2Step(e - 1);
      SameUnit(maxAbs, bound, Pow2(e));
      CeilLog2Unique(maxAbs / bound, e);
    }
  }

  /** At a fitting exponent the clamp does nothing and the decoded number is within half a unit. */
  lemma MantissaIsClose(x: real, maxAbs: real, e: int, fracBits: nat)
    requires fracBits >= 1 && Abs(x) <= maxAbs && Fits(maxAbs, e, fracBits)
    ensures Mantissa(x, e, fracBits) == Round(Units(x, e))
    ensures -MaxMantissa(fracBits) <= Mantissa(x, e, fracBits) <= MaxMantissa(fracBits)
    ensures Abs(Decode(Mantissa(x, e, fracBits), e) - x) <= Pow2(e) / 2.0
  {
    hide Units, Reach, Pow2, MaxMantissa, Round, Decode;
    UnitsInRange(x, maxAbs, e, fracBits);
    RoundIsClose(Units(x, e), MaxMantissa(fracBits));
    DecodeError(x, Round(Units(x, e)), e);
  }

  lemma UnitsInRange(x: real, maxAbs: real, e: int, fracBits: nat)
    requires fracBits >= 1 && Abs(x) <= maxAbs && Fits(maxAbs, e, fracBits)
    ensures -(MaxMantissa(fracBits) as real) <= Units(x, e) <= MaxMantissa(fracBits) as real
  {
    hide Pow2, MaxMantissa;
    MaxMantissaOdd(fracBits);
    BoundedQuotient(x, Pow2(e), MaxMantissa(fracBits) as real);
  }

  lemma {:induction false} DecodeError(x: real, m: int, e: int)
    requires -0.5 <= m as real - Units(x, e) <= 0.5
    ensures Abs(Decode(m, e) - x) <= Pow2(e) / 2.0
  {
    hide Pow2;
    DivideMultiply(x, Pow2(e));
    ErrorScales(x, x / Pow2(e), m as real, Pow2(e));
  }

  lemma BoundedQuotient(x: real, unit: real, bound: real)
    requires unit > 0.0 && bound >= 0.0 && (Abs(x) <= bound * unit || x == 0.0)
    ensures -bound <= x / unit <= bound
    ensures (x / unit) * unit == x
  {
    DivideMultiply(x, unit);
    Scale(x / unit, bound, unit);
    Scale(-bound, x / unit, unit);
    Scale(0.0, bound, unit);
    NegateLeft(bound, unit);
  }

  lemma NegateLeft(a: real, b: real)
    ensures (-a) * b == -(a * b)
  {
  }

  /** Rounding moves a number by at most a half and never over a whole bound. */
  lemma RoundIsClose(t: real, bound: int)
    requires -(bound as real) <= t <= bound as real
    ensures -bound <= Round(t) <= bound
    ensures -0.5 <= Round(t) as real - t <= 0.5
  {
  }

  lemma ErrorScales(x: real, t: real, m: real, unit: real)
    requires unit > 0.0 && t * unit == x && -0.5 <= m - t <= 0.5
    ensures -(unit / 2.0) <= m * unit - x <= unit / 2.0
  {
    var d := m - t;
    DistributeReal(m, t, unit);
    Scale(d, 0.5, unit);
    Scale(-0.5, d, unit);
    assert d * unit == m * unit - x;
  }

  lemma DistributeReal(a: real, b: real, c: real)
    ensures (a - b) * c == a * c - b * c
  {
  }

  /** The largest mantissa is 2h - 1 for a whole h >= 1. */
  lemma {:induction false} MaxMantissaOdd(fracBits: nat)
    requires fracBits >= 1
    ensures MaxMantissa(fracBits) == 2 * TwoTo(fracBits - 1) - 1 && MaxMantissa(fracBits) >= 1
  {
  }

  /** The largest number of a block gets a mantissa of at least half the range. */
  lemma LargestFills(x: real, e: int, fracBits: nat)
    requires fracBits >= 1 && x != 0.0 && Fits(Abs(x), e, fracBits)
    ensures 2.0 * Abs(Decode(Mantissa(x, e, fracBits), e)) > Reach(e, fracBits)
  {
    hide Pow2, TwoTo, MaxMantissa, Round;
    MantissaIsClose(x, Abs(x), e, fracBits);
    MaxMantissaOdd(fracBits);
    OverHalfTheBound(x, Pow2(e), MaxMantissa(fracBits) as real);
    RoundOverHalf(Units(x, e), TwoTo(fracBits - 1));
    MoreThanHalf(Round(Units(x, e)), TwoTo(fracBits - 1), Pow2(e));
  }

  lemma OverHalfTheBound(x: real, unit: real, bound: real)
    requires unit > 0.0 && bound * unit < 2.0 * Abs(x)
    ensures 2.0 * (x / unit) > bound || -2.0 * (x / unit) > bound
  {
    var t := x / unit;
    DivideMultiply(x, unit);
    MulAssociates(2.0, t, unit);
    MulAssociates(-2.0, t, unit);
    Scale(2.0 * t, bound, unit);
    Scale(-2.0 * t, bound, unit);
  }

  lemma MoreThanHalf(m: int, half: int, unit: real)
    requires unit > 0.0 && half >= 1 && (m >= half || m <= -half)
    ensures 2.0 * Abs(m as real * unit) > (2 * half - 1) as real * unit
  {
    var r, bound := m as real, (2 * half - 1) as real;
    MulAssociates(2.0, r, unit);
    MulAssociates(-2.0, r, unit);
    Scale(2.0 * r, bound, unit);
    Scale(-2.0 * r, bound, unit);
    Scale(0.0, r, unit);
  }

  lemma RoundOverHalf(t: real, half: int)
    requires half >= 1
    ensures 2.0 * t > (2 * half - 1) as real ==> Round(t) >= half
    ensures -2.0 * t > (2 * half - 1) as real ==> Round(t) <= -half
  {
  }

  lemma DecodedMantissa(m: int, e: int, fracBits: nat)
    requires -MaxMantissa(fracBits) <= m <= MaxMantissa(fracBits)
    ensures Mantissa(Decode(m, e), e, fracBits) == m
  {
    hide Pow2, MaxMantissa;
    var t := Decode(m, e) / Pow2(e);
    DivideMultiply(Decode(m, e), Pow2(e));
    Scale(t, m as real, Pow2(e));
  }

  // ---- Blocks ----

  /** Largest magnitude in v[lo .. hi]. */
  function MaxAbs(v: seq<real>, lo: nat, hi: nat): (m: real)
    requires lo <= hi <= |v|
    ensures m >= 0.0 && forall i :: lo <= i < hi ==> Abs(v[i]) <= m
    ensures m == 0.0 || exists i :: lo <= i < hi && Abs(v[i]) == m
    decreases hi - lo
  {
    if lo == hi then 0.0
    else
      var m := MaxAbs(v, lo, hi - 1);
      if Abs(v[hi - 1]) > m then Abs(v[hi - 1]) else m
  }

  function BlockEnd(b: nat, k: nat, length: nat): nat
  {
    if RowStart(b, k) + k > length then length else RowStart(b, k) + k
  }

  function NumBlocks(length: nat, k: nat): nat
    requires k >= 1
  {
    (length + k - 1) / k
  }

  lemma MulMonotone(a: nat, b: nat, k: nat)
    requires a <= b
    ensures RowStart(a, k) <= RowStart(b, k)
    ensures a < b ==> RowStart(a, k) + k <= RowStart(b, k)
  {
    if a < b { RowBefore(a, b, k); }
  }

  lemma DivisionBounds(n: nat, k: nat)
    requires k >= 1
    ensures RowStart(n / k, k) <= n < RowStart(n / k, k) + k
  {
  }

  lemma BlockBounds(b: nat, k: nat, length: nat)
    requires k >= 1 && b < NumBlocks(length, k)
    ensures RowStart(b, k) < BlockEnd(b, k, length) <= length
    ensures b + 1 < NumBlocks(length, k) ==> BlockEnd(b, k, length) == RowStart(b + 1, k)
    ensures b + 1 == NumBlocks(length, k) ==> BlockEnd(b, k, length) == length
  {
    hide RowStart;
    var n := NumBlocks(length, k);
    DivisionBounds(length + k - 1, k);
    MulMonotone(b, n, k);
    NextStart(b, k);
    if b + 1 < n { MulMonotone(b + 1, n, k); }
  }

  lemma NextStart(b: nat, k: nat)
    ensures RowStart(b + 1, k) == RowStart(b, k) + k
  {
  }

  /** Index i falls into block i / k and no other. */
  lemma BlockOf(i: nat, k: nat, length: nat)
    requires k >= 1 && i < length
    ensures i / k < NumBlocks(length, k) && RowStart(i / k, k) <= i < BlockEnd(i / k, k, length)
    ensures forall b: nat :: RowStart(b, k) <= i < BlockEnd(b, k, length) ==> b == i / k
  {
    hide RowStart, NumBlocks;
    DivisionBounds(i, k);
    InSomeBlock(i, k, length);
    forall b: nat | RowStart(b, k) <= i < BlockEnd(b, k, length) ensures b == i / k { OnlyBlock(i, k, b, i / k); }
  }

  lemma InSomeBlock(i: nat, k: nat, length: nat)
    requires k >= 1 && i < length
    ensures i / k < NumBlocks(length, k)
  {
    hide RowStart;
    DivisionBounds(i, k);
    DivisionBounds(length + k - 1, k);
    if NumBlocks(length, k) <= i / k { MulMonotone(NumBlocks(length, k), i / k, k); }
  }

  lemma OnlyBlock(i: nat, k: nat, a: nat, b: nat)
    requires RowStart(a, k) <= i < RowStart(a, k) + k && RowStart(b, k) <= i < RowStart(b, k) + k
    ensures a == b
  {
    hide RowStart;
    if a < b { MulMonotone(a, b, k); } else if b < a { MulMonotone(b, a, k); }
  }

  /** Largest magnitude in block b. */
  function BlockMax(v: seq<real>, k: nat, b: nat): (m: real)
    requires k >= 1 && b < NumBlocks(|v|, k)
    ensures m >= 0.0
  {
    BlockBounds(b, k, |v|);
    MaxAbs(v, RowStart(b, k), BlockEnd(b, k, |v|))
  }

  /** Block b of v is stored as mantissas with the shared exponent e. */
  predicate BlockEncoded(v: seq<real>, k: nat, fracBits: nat, mants: seq<int>, b: nat, e: int)
    requires k >= 1 && fracBits >= 1 && b < NumBlocks(|v|, k) && |mants| == |v|
  {
    BlockBounds(b, k, |v|);
    e == ExponentFor(BlockMax(v, k, b), fracBits) &&
    forall i :: RowStart(b, k) <= i < BlockEnd(b, k, |v|) ==> mants[i] == Mantissa(v[i], e, fracBits)
  }

  /** exps and mants are the encoding of v in blocks of k. */
  predicate Encoded(v: seq<real>, k: nat, fracBits: nat, mants: seq<int>, exps: seq<int>)
    requires k >= 1 && fracBits >= 1
  {
    |mants| == |v| && |exps| == NumBlocks(|v|, k) &&
    forall b: nat :: b < |exps| ==> BlockEncoded(v, k, fracBits, mants, b, exps[b])
  }

  predicate BlockDecoded(mants: seq<int>, k: nat, e: int, b: nat, v: seq<real>)
    requires k >= 1 && b < NumBlocks(|v|, k) && |mants| == |v|
  {
    BlockBounds(b, k, |v|);
    forall i :: RowStart(b, k) <= i < BlockEnd(b, k, |v|) ==> v[i] == Decode(mants[i], e)
  }

  /** v is what mants and exps decode to. */
  predicate Decoded(mants: seq<int>, exps: seq<int>, k: nat, v: seq<real>)
    requires k >= 1
  {
    |v| == |mants| && |exps| == NumBlocks(|v|, k) &&
    forall b: nat :: b < |exps| ==> BlockDecoded(mants, k, exps[b], b, v)
  }

  // ---- Error bound and projection ----

  /** Every element decodes to within half a unit of its input and no clamp changed a mantissa. */
  lemma HalfUnitError(v: seq<real>, k: nat, fracBits: nat, mants: seq<int>, exps: seq<int>, w: seq<real>, i: nat)
    requires k >= 1 && fracBits >= 1 && i < |v|
    requires Encoded(v, k, fracBits, mants, exps) && Decoded(mants, exps, k, w)
    ensures i / k < |exps|
    ensures Abs(w[i] - v[i]) <= Pow2(exps[i / k]) / 2.0
    ensures mants[i] == Round(Units(v[i], exps[i / k]))
  {
    hide Pow2, Round, Mantissa, MaxAbs, RowStart, BlockEnd, NumBlocks, Fits, Decode, ExponentFor, Clamp, Abs, Units;
    var b := i / k;
    BlockOf(i, k, |v|);
    assert BlockEncoded(v, k, fracBits, mants, b, exps[b]) && BlockDecoded(mants, k, exps[b], b, w);
    ExponentFits(BlockMax(v, k, b), fracBits);
    BlockBounds(b, k, |v|);
    MantissaIsClose(v[i], BlockMax(v, k, b), exps[b], fracBits);
  }

  /** The exponent a block was given fits its decoded contents, and is found again. */
  lemma BlockProjects(v: seq<real>, k: nat, fracBits: nat, mants: seq<int>, w: seq<real>, b: nat, e: int)
    requires k >= 1 && fracBits >= 1 && b < NumBlocks(|v|, k) && |mants| == |v| == |w|
    requires BlockEncoded(v, k, fracBits, mants, b, e) && BlockDecoded(mants, k, e, b, w)
    ensures BlockEncoded(w, k, fracBits, mants, b, e)
  {
    hide Pow2, Round, Mantissa, RowStart, BlockEnd, NumBlocks, Decode, ExponentFor, Clamp, Abs, MaxMantissa, MaxAbs;
    BlockBounds(b, k, |v|);
    var lo, hi := RowStart(b, k), BlockEnd(b, k, |v|);
    var was, now := BlockMax(v, k, b), BlockMax(w, k, b);
    ExponentFits(was, fracBits);
    forall i | lo <= i < hi
      ensures Abs(v[i]) <= was && Abs(w[i]) <= now && mants[i] == Mantissa(w[i], e, fracBits)
      ensures Abs(w[i]) <= Reach(e, fracBits)
    {
      MantissaIsClose(v[i], was, e, fracBits);
      DecodedMantissa(mants[i], e, fracBits);
      DecodedBound(mants[i], e, fracBits);
    }
    FitsAgain(v, was, w, now, mants, lo, hi, fracBits, e);
    FitsUnique(now, e, fracBits);
  }

  lemma DecodedBound(m: int, e: int, fracBits: nat)
    requires -MaxMantissa(fracBits) <= m <= MaxMantissa(fracBits)
    ensures Abs(Decode(m, e)) <= Reach(e, fracBits)
  {
    hide Pow2, MaxMantissa;
    Scale(m as real, MaxMantissa(fracBits) as real, Pow2(e));
    Scale(-(MaxMantissa(fracBits) as real), m as real, Pow2(e));
    NegateLeft(MaxMantissa(fracBits) as real, Pow2(e));
  }

  lemma FitsAgain(v: seq<real>, was: real, w: seq<real>, now: real, mants: seq<int>, lo: nat, hi: nat, fracBits: nat,
                  e: int)
    requires fracBits >= 1 && lo <= hi <= |v| == |w| == |mants| && Fits(was, e, fracBits)
    requires was == MaxAbs(v, lo, hi) && now == MaxAbs(w, lo, hi)
    requires forall i :: lo <= i < hi ==> mants[i] == Mantissa(v[i], e, fracBits) && w[i] == Decode(mants[i], e)
    requires forall i :: lo <= i < hi ==> Abs(w[i]) <= Reach(e, fracBits)
    ensures Fits(now, e, fracBits)
  {
    hide Reach, Mantissa, Decode, MaxAbs, Abs;
    RangePositive(e, fracBits);
    MaxAbsBounded(w, lo, hi, Reach(e, fracBits));
    if was > 0.0 {
      var top :| lo <= top < hi && Abs(v[top]) == was;
      assert mants[top] == Mantissa(v[top], e, fracBits);
      TopFills(v[top], w[top], e, fracBits);
      assert Abs(w[top]) <= now;
    } else {
      forall i | lo <= i < hi ensures Abs(w[i]) <= 0.0 {
        assert mants[i] == Mantissa(v[i], e, fracBits);
        ZeroDecodes(v[i], w[i], e, fracBits);
      }
      MaxAbsBounded(w, lo, hi, 0.0);
    }
  }

  lemma {:induction false} MaxAbsBounded(w: seq<real>, lo: nat, hi: nat, bound: real)
    requires lo <= hi <= |w| && bound >= 0.0 && forall i :: lo <= i < hi ==> Abs(w[i]) <= bound
    ensures MaxAbs(w, lo, hi) <= bound
  {
    hide MaxAbs, Abs;
  }

  lemma TopFills(x: real, y: real, e: int, fracBits: nat)
    requires fracBits >= 1 && Abs(x) > 0.0 && Fits(Abs(x), e, fracBits) && y == Decode(Mantissa(x, e, fracBits), e)
    ensures Reach(e, fracBits) < 2.0 * Abs(y)
  {
    hide Pow2, Mantissa, Decode, MaxMantissa;
    LargestFills(x, e, fracBits);
  }

  lemma ZeroDecodes(x: real, y: real, e: int, fracBits: nat)
    requires fracBits >= 1 && Abs(x) <= 0.0 && y == Decode(Mantissa(x, e, fracBits), e)
    ensures Abs(y) == 0.0
  {
    hide Pow2, Mantissa, Decode, MaxMantissa;
    ZeroIsKept(e, fracBits);
  }

  lemma RangePositive(e: int, fracBits: nat)
    requires fracBits >= 1
    ensures Reach(e, fracBits) > 0.0
  {
    hide Pow2, MaxMantissa;
    MaxMantissaOdd(fracBits);
    Positive(MaxMantissa(fracBits) as real, Pow2(e));
  }

  lemma ZeroIsKept(e: int, fracBits: nat)
    requires fracBits >= 1
    ensures Decode(Mantissa(0.0, e, fracBits), e) == 0.0
  {
    MaxMantissaOdd(fracBits);
    DecodedMantissa(0, e, fracBits);
  }

  /** Encoding the decoded vector gives back the same mantissas and exponents. */
  lemma EncodingProjects(v: seq<real>, k: nat, fracBits: nat, mants: seq<int>, exps: seq<int>, w: seq<real>)
    requires k >= 1 && fracBits >= 1
    requires Encoded(v, k, fracBits, mants, exps) && Decoded(mants, exps, k, w)
    ensures Encoded(w, k, fracBits, mants, exps)
  {
    hide BlockEncoded, BlockDecoded, NumBlocks;
    forall b: nat | b < |exps| ensures BlockEncoded(w, k, fracBits, mants, b, exps[b]) {
      BlockProjects(v, k, fracBits, mants, w, b, exps[b]);
    }
  }

  function Negated(v: seq<real>): (w: seq<real>)
    ensures |w| == |v| && forall i :: 0 <= i < |v| ==> w[i] == -v[i]
  {
    seq(|v|, i requires 0 <= i < |v| => -v[i])
  }

  function Opposite(m: seq<int>): (w: seq<int>)
    ensures |w| == |m| && forall i :: 0 <= i < |m| ==> w[i] == -m[i]
  {
    seq(|m|, i requires 0 <= i < |m| => -m[i])
  }

  /** Rounding is odd and takes a tie away from zero. */
  lemma RoundIsOdd(x: real)
    ensures Round(-x) == -Round(x)
    ensures Round(x) as real - x == 0.5 ==> x > 0.0
    ensures x - Round(x) as real == 0.5 ==> x < 0.0
  {
  }

  lemma MantissaIsOdd(x: real, e: int, fracBits: nat)
    ensures Mantissa(-x, e, fracBits) == -Mantissa(x, e, fracBits)
  {
    RoundIsOdd(Units(x, e));
    assert Units(-x, e) == -Units(x, e) by { NegatedQuotient(x, Pow2(e)); }
  }

  lemma NegatedQuotient(x: real, p: real)
    requires p > 0.0
    ensures (-x) / p == -(x / p)
  {
    assert (x / p) * p == x;
    assert -(x / p) * p == -x;
  }

  lemma {:induction false} MaxAbsNegated(v: seq<real>, lo: nat, hi: nat)
    requires lo <= hi <= |v|
    ensures MaxAbs(Negated(v), lo, hi) == MaxAbs(v, lo, hi)
    decreases hi - lo
  {
    if lo < hi { MaxAbsNegated(v, lo, hi - 1); }
  }

  /** Negating a vector negates its mantissas and keeps its exponents. */
  lemma EncodingNegates(v: seq<real>, k: nat, fracBits: nat, mants: seq<int>, exps: seq<int>)
    requires k >= 1 && fracBits >= 1 && Encoded(v, k, fracBits, mants, exps)
    ensures Encoded(Negated(v), k, fracBits, Opposite(mants), exps)
  {
    hide NumBlocks, BlockEncoded;
    forall b: nat | b < |exps|
      ensures BlockEncoded(Negated(v), k, fracBits, Opposite(mants), b, exps[b])
    {
      assert BlockEncoded(v, k, fracBits, mants, b, exps[b]);
      BlockNegates(v, k, fracBits, mants, b, exps[b]);
    }
  }

  lemma BlockNegates(v: seq<real>, k: nat, fracBits: nat, mants: seq<int>, b: nat, e: int)
    requires k >= 1 && fracBits >= 1 && b < NumBlocks(|v|, k) && |mants| == |v|
    requires BlockEncoded(v, k, fracBits, mants, b, e)
    ensures BlockEncoded(Negated(v), k, fracBits, Opposite(mants), b, e)
  {
    hide NumBlocks, RowStart, BlockEnd, ExponentFor, Mantissa, MaxAbs;
    BlockBounds(b, k, |v|);
    MaxAbsNegated(v, RowStart(b, k), BlockEnd(b, k, |v|));
    forall i | RowStart(b, k) <= i < BlockEnd(b, k, |v|)
      ensures Opposite(mants)[i] == Mantissa(Negated(v)[i], e, fracBits)
    {
      MantissaIsOdd(v[i], e, fracBits);
    }
  }

  /** A vector has one encoding. */
  lemma EncodingUnique(v: seq<real>, k: nat, fracBits: nat, m1: seq<int>, e1: seq<int>, m2: seq<int>, e2: seq<int>)
    requires k >= 1 && fracBits >= 1 && Encoded(v, k, fracBits, m1, e1) && Encoded(v, k, fracBits, m2, e2)
    ensures m1 == m2 && e1 == e2
  {
    hide NumBlocks, RowStart, BlockEnd, ExponentFor, Mantissa, BlockMax;
    forall b: nat | b < |e1| ensures e1[b] == e2[b] {
      assert BlockEncoded(v, k, fracBits, m1, b, e1[b]) && BlockEncoded(v, k, fracBits, m2, b, e2[b]);
    }
    forall i: nat | i < |v| ensures m1[i] == m2[i] {
      BlockOf(i, k, |v|);
      var b := i / k;
      assert BlockEncoded(v, k, fracBits, m1, b, e1[b]) && BlockEncoded(v, k, fracBits, m2, b, e2[b]);
    }
  }

  // ---- Kernels ----

  method FloatToBfp(input: array<real>, output: array<int>, exponents: array<int>, length: nat, elemsPerExp: nat,
                    fracBits: nat)
    requires elemsPerExp >= 1 && fracBits >= 1 && output != exponents
    requires length <= input.Length && length <= output.Length && NumBlocks(length, elemsPerExp) <= exponents.Length
    modifies output, exponents
    ensures Encoded(input[..length], elemsPerExp, fracBits, output[..length],
                    exponents[..NumBlocks(length, elemsPerExp)])
    ensures output[length..] == old(output[length..])
  {
    hide RowStart, BlockEnd, NumBlocks, ExponentFor, Mantissa, MaxAbs, BlockMax, BlockEncoded, MaxMantissa;
    var numBlocks := NumBlocks(length, elemsPerExp);
    ghost var v := input[..length];
    var b := 0;
    ghost var done := 0;
    NoBlocks(length, elemsPerExp);
    assert RowStart(0, elemsPerExp) == 0 by { FirstStart(elemsPerExp); }
    while b < numBlocks
      invariant b <= numBlocks && done <= length
      invariant b < numBlocks ==> done == RowStart(b, elemsPerExp)
      invariant b == numBlocks ==> done == length
      invariant forall c: nat :: c < b ==> BlockEncoded(v, elemsPerExp, fracBits, output[..length], c, exponents[c])
      invariant output[length..] == old(output[length..])
    {
      BlockBounds(b, elemsPerExp, length);
      var start, end := RowStart(b, elemsPerExp), BlockEnd(b, elemsPerExp, length);
      ghost var before := output[..length];
      var exp := EncodeBlock(input, output, length, start, end, fracBits);
      exponents[b] := exp;
      forall c: nat | c < b ensures BlockEncoded(v, elemsPerExp, fracBits, output[..length], c, exponents[c]) {
        EarlierBlock(v, elemsPerExp, fracBits, before, output[..length], c, b, exponents[c]);
      }
      ThisBlock(v, elemsPerExp, fracBits, output[..length], b, exp);
      done := end;
      b := b + 1;
    }
  }

  lemma FirstStart(k: nat)
    ensures RowStart(0, k) == 0
  {
  }

  lemma NoBlocks(length: nat, k: nat)
    requires k >= 1
    ensures NumBlocks(length, k) == 0 ==> length == 0
  {
    hide RowStart;
    DivisionBounds(length + k - 1, k);
    FirstStart(k);
  }

  lemma EarlierBlock(v: seq<real>, k: nat, fracBits: nat, before: seq<int>, after: seq<int>, c: nat, b: nat, e: int)
    requires k >= 1 && fracBits >= 1 && c < b < NumBlocks(|v|, k) && |before| == |after| == |v|
    requires BlockEncoded(v, k, fracBits, before, c, e)
    requires forall i :: 0 <= i < RowStart(b, k) && i < |v| ==> after[i] == before[i]
    ensures BlockEncoded(v, k, fracBits, after, c, e)
  {
    hide RowStart, NumBlocks, Mantissa, ExponentFor, BlockMax;
    MulMonotone(c, b, k);
  }

  lemma ThisBlock(v: seq<real>, k: nat, fracBits: nat, mants: seq<int>, b: nat, e: int)
    requires k >= 1 && fracBits >= 1 && b < NumBlocks(|v|, k) && |mants| == |v|
    requires RowStart(b, k) <= BlockEnd(b, k, |v|) <= |v|
    requires e == ExponentFor(MaxAbs(v, RowStart(b, k), BlockEnd(b, k, |v|)), fracBits)
    requires forall i :: RowStart(b, k) <= i < BlockEnd(b, k, |v|) ==> mants[i] == Mantissa(v[i], e, fracBits)
    ensures BlockEncoded(v, k, fracBits, mants, b, e)
  {
  }

  /** The body of the block loop: find the largest magnitude, choose the exponent, quantize. */
  method EncodeBlock(input: array<real>, output: array<int>, ghost length: nat, start: nat, end: nat, fracBits: nat)
    returns (exp: int)
    requires fracBits >= 1 && start <= end <= length <= input.Length && length <= output.Length
    modifies output
    ensures exp == ExponentFor(MaxAbs(input[..length], start, end), fracBits)
    ensures forall i :: start <= i < end ==> output[i] == Mantissa(input[i], exp, fracBits)
    ensures forall i :: 0 <= i < output.Length && !(start <= i < end) ==> output[i] == old(output[i])
  {
    hide MaxAbs, ExponentFor, Mantissa;
    var maxAbs := LargestMagnitude(input, length, start, end);
    exp := ChooseExponent(maxAbs, fracBits);
    for i := start to end
      invariant forall j :: start <= j < i ==> output[j] == Mantissa(input[j], exp, fracBits)
      invariant forall j :: 0 <= j < output.Length && !(start <= j < i) ==> output[j] == old(output[j])
    {
      output[i] := Quantize(input[i], exp, fracBits);
    }
  }

  method LargestMagnitude(input: array<real>, ghost length: nat, start: nat, end: nat) returns (maxAbs: real)
    requires start <= end <= length <= input.Length
    ensures maxAbs == MaxAbs(input[..length], start, end)
  {
    maxAbs := 0.0;
    for i := start to end
      invariant maxAbs == MaxAbs(input[..length], start, i)
    {
      var absVal := Abs(input[i]);
      if absVal > maxAbs { maxAbs := absVal; }
    }
  }

  method ChooseExponent(maxAbs: real, fracBits: nat) returns (exp: int)
    requires fracBits >= 1
    ensures exp == ExponentFor(maxAbs, fracBits)
  {
    hide Pow2, CeilLog2, MaxMantissa;
    var maxMantissa := MaxMantissa(fracBits);
    MaxMantissaOdd(fracBits);
    exp := 0;
    if maxAbs > 0.0 {
      Ratio(maxAbs, maxMantissa as real);
      exp := CeilLog2(maxAbs / maxMantissa as real);
    }
  }

  method Quantize(x: real, exp: int, fracBits: nat) returns (mantissa: int)
    requires fracBits >= 1
    ensures mantissa == Mantissa(x, exp, fracBits)
  {
    hide Pow2, Round, MaxMantissa;
    var maxMantissa := MaxMantissa(fracBits);
    MaxMantissaOdd(fracBits);
    mantissa := Round(x / Pow2(exp));
    if mantissa > maxMantissa { mantissa := maxMantissa; }
    if mantissa < -maxMantissa { mantissa := -maxMantissa; }
  }

  method BfpToFloat(input: array<int>, exponents: array<int>, output: array<real>, length: nat, elemsPerExp: nat)
    requires elemsPerExp >= 1 && length <= input.Length && length <= output.Length
    requires NumBlocks(length, elemsPerExp) <= exponents.Length
    modifies output
    ensures Decoded(input[..length], exponents[..NumBlocks(length, elemsPerExp)], elemsPerExp, output[..length])
    ensures output[length..] == old(output[length..])
  {
    hide RowStart, BlockEnd, NumBlocks, Pow2;
    var numBlocks := NumBlocks(length, elemsPerExp);
    var b := 0;
    ghost var done := 0;
    NoBlocks(length, elemsPerExp);
    assert RowStart(0, elemsPerExp) == 0 by { FirstStart(elemsPerExp); }
    while b < numBlocks
      invariant b <= numBlocks && done <= length
      invariant b < numBlocks ==> done == RowStart(b, elemsPerExp)
      invariant b == numBlocks ==> done == length
      invariant forall c: nat :: c < b ==> BlockDecoded(input[..length], elemsPerExp, exponents[c], c, output[..length])
      invariant output[length..] == old(output[length..])
    {
      BlockBounds(b, elemsPerExp, length);
      var start, end := RowStart(b, elemsPerExp), BlockEnd(b, elemsPerExp, length);
      var unit := Pow2(exponents[b]);
      ghost var before := output[..length];
      for i := start to end
        invariant forall j :: start <= j < i ==> output[j] == Decode(input[j], exponents[b])
        invariant forall j :: 0 <= j < start ==> output[j] == before[j]
        invariant output[length..] == old(output[length..])
      {
        output[i] := input[i] as real * unit;
      }
      forall c: nat | c < b ensures BlockDecoded(input[..length], elemsPerExp, exponents[c], c, output[..length]) {
        EarlierDecoded(input[..length], elemsPerExp, exponents[c], before, output[..length], c, b);
      }
      done := end;
      b := b + 1;
    }
  }

  lemma EarlierDecoded(mants: seq<int>, k: nat, e: int, before: seq<real>, after: seq<real>, c: nat, b: nat)
    requires k >= 1 && c < b < NumBlocks(|mants|, k) && |before| == |after| == |mants|
    requires BlockDecoded(mants, k, e, c, before)
    requires forall i :: 0 <= i < RowStart(b, k) && i < |mants| ==> after[i] == before[i]
    ensures BlockDecoded(mants, k, e, c, after)
  {
    hide RowStart, NumBlocks, Decode;
    MulMonotone(c, b, k);
  }

  // ---- Matrix-vector product ----

  /** Exponent of column c: a null array stands for unscaled integers. */
  function ExpAt(exps: seq<int>, c: nat, k: nat): int
    requires k >= 1
  {
    if c / k < |exps| then exps[c / k] else 0
  }

  /** The exact product of the decoded row and the decoded vector over the first n columns. */
  function RowDot(row: seq<int>, rowExps: seq<int>, x: seq<int>, xExps: seq<int>, k: nat, n: nat): real
    requires k >= 1 && n <= |row| && n <= |x|
  {
    if n == 0 then 0.0
    else
      RowDot(row, rowExps, x, xExps, k, n - 1)
      + Decode(row[n - 1], ExpAt(rowExps, n - 1, k)) * Decode(x[n - 1], ExpAt(xExps, n - 1, k))
  }

  /** (y, e) is sum rounded to its own best exponent: in range, minimal, within half a unit. */
  predicate RoundedTo(sum: real, y: int, e: int, fracBits: nat)
  {
    -MaxMantissa(fracBits) <= y <= MaxMantissa(fracBits) &&
    Abs(Decode(y, e) - sum) <= Pow2(e) / 2.0 &&
    Fits(Abs(sum), e, fracBits) &&
    (sum == 0.0 ==> y == 0)
  }

  /** The unclamped quotient already lies in the mantissa range. */
  lemma QuotientRounds(sum: real, e: int, fracBits: nat)
    requires fracBits >= 1 && e == ExponentFor(Abs(sum), fracBits)
    ensures RoundedTo(sum, Round(Units(sum, e)), e, fracBits)
  {
    hide Pow2, Round, MaxMantissa, Clamp, ExponentFor, Fits, Decode;
    ExponentFits(Abs(sum), fracBits);
    MantissaIsClose(sum, Abs(sum), e, fracBits);
    ZeroQuotient(Pow2(e));
  }

  function Exponents(exps: array?<int>): seq<int>
    reads exps
  {
    if exps == null then [] else exps[..]
  }

  predicate HasRow(a: seq<int>, r: nat, cols: nat)
  {
    RowStart(r, cols) + cols <= |a|
  }

  lemma RowsInside(a: seq<int>, rows: nat, cols: nat, r: nat)
    requires RowStart(rows, cols) <= |a| && r < rows
    ensures HasRow(a, r, cols)
  {
    assert (rows - r - 1) * cols >= 0;
    assert rows * cols == r * cols + cols + (rows - r - 1) * cols;
  }

  function Row(a: seq<int>, r: nat, cols: nat): (row: seq<int>)
    requires HasRow(a, r, cols)
    ensures |row| == cols
  {
    a[RowStart(r, cols)..RowStart(r, cols) + cols]
  }

  /** Entry r of the result is row r of the matrix times the vector, rounded to its own exponent. */
  predicate RowRounded(a: seq<int>, aExps: seq<int>, x: seq<int>, xExps: seq<int>, k: nat, cols: nat, fracBits: nat,
                       r: nat, y: int, e: int)
    requires k >= 1
  {
    HasRow(a, r, cols) && cols <= |x| &&
    RoundedTo(RowDot(Row(a, r, cols), aExps, x, xExps, k, cols), y, e, fracBits)
  }

  lemma ZeroQuotient(unit: real)
    requires unit > 0.0
    ensures Round(0.0 / unit) == 0
  {
    DivideMultiply(0.0, unit);
    Scale(0.0 / unit, 0.0, unit);
  }

  method MvMulBfp(aBfp: array<int>, aExp: array?<int>, xBfp: array<int>, xExp: array?<int>, yBfp: array<int>,
                  yExp: array<int>,
                  rows: nat, cols: nat, elemsPerExp: nat, fracBits: nat)
    requires elemsPerExp >= 1 && fracBits >= 1
    requires yBfp != yExp && yBfp != aBfp && yBfp != xBfp && yExp != aBfp && yExp != xBfp
    requires yBfp != aExp && yBfp != xExp && yExp != aExp && yExp != xExp
    requires RowStart(rows, cols) <= aBfp.Length && cols <= xBfp.Length && rows <= yBfp.Length && rows <= yExp.Length
    requires aExp != null ==> NumBlocks(cols, elemsPerExp) <= aExp.Length
    requires xExp != null ==> NumBlocks(cols, elemsPerExp) <= xExp.Length
    modifies yBfp, yExp
    ensures forall r: nat :: (r < rows ==>
      RowRounded(aBfp[..], Exponents(aExp), xBfp[..], Exponents(xExp), elemsPerExp, cols, fracBits, r, yBfp[r],
                 yExp[r]))
  {
    hide RowStart, RoundedTo, RowDot, Pow2, CeilLog2, NumBlocks, Round, MaxMantissa, Fits, Decode, ExpAt, HasRow, Row,
      RowRounded;
    var maxMantissa := MaxMantissa(fracBits);
    MaxMantissaOdd(fracBits);
    for r := 0 to rows
      invariant forall q: nat :: (q < r ==>
        RowRounded(aBfp[..], Exponents(aExp), xBfp[..], Exponents(xExp), elemsPerExp, cols, fracBits, q, yBfp[q],
                   yExp[q]))
    {
      RowsInside(aBfp[..], rows, cols, r);
      var sum := DotRow(aBfp, aExp, xBfp, xExp, r, cols, elemsPerExp);
      if sum == 0.0 {
        yBfp[r] := 0;
        yExp[r] := 0;
        ZeroRounds(fracBits);
      } else {
        var exp := CeilLog2(Abs(sum) / maxMantissa as real);
        yExp[r] := exp;
        yBfp[r] := Round(Units(sum, exp));
        QuotientRounds(sum, exp, fracBits);
      }
      RowIs(aBfp[..], Exponents(aExp), xBfp[..], Exponents(xExp), elemsPerExp, cols, fracBits, r, yBfp[r], yExp[r],
            sum);
    }
  }

  lemma RowIs(a: seq<int>, aExps: seq<int>, x: seq<int>, xExps: seq<int>, k: nat, cols: nat, fracBits: nat, r: nat,
              y: int, e: int, sum: real)
    requires k >= 1 && HasRow(a, r, cols) && cols <= |x|
    requires sum == RowDot(Row(a, r, cols), aExps, x, xExps, k, cols) && RoundedTo(sum, y, e, fracBits)
    ensures RowRounded(a, aExps, x, xExps, k, cols, fracBits, r, y, e)
  {
  }

  lemma ZeroRounds(fracBits: nat)
    requires fracBits >= 1
    ensures RoundedTo(0.0, 0, 0, fracBits)
  {
    MaxMantissaOdd(fracBits);
  }

  /** The column loop: each product is scaled once by two to the sum of both exponents. */
  method DotRow(aBfp: array<int>, aExp: array?<int>, xBfp: array<int>, xExp: array?<int>, r: nat, cols: nat,
                elemsPerExp: nat)
    returns (sum: real)
    requires elemsPerExp >= 1 && HasRow(aBfp[..], r, cols) && cols <= xBfp.Length
    requires aExp != null ==> NumBlocks(cols, elemsPerExp) <= aExp.Length
    requires xExp != null ==> NumBlocks(cols, elemsPerExp) <= xExp.Length
    ensures sum == RowDot(Row(aBfp[..], r, cols), Exponents(aExp), xBfp[..], Exponents(xExp), elemsPerExp, cols)
  {
    hide RowStart, Pow2, NumBlocks, RowStart, BlockEnd, Row, DecodedProduct, HasRow, RowDot, ExpAt;
    StartFits(aBfp[..], r, cols);
    var start := RowStart(r, cols);
    sum := 0.0;
    NoColumns(Row(aBfp[..], r, cols), Exponents(aExp), xBfp[..], Exponents(xExp), elemsPerExp);
    for c := 0 to cols
      invariant sum == RowDot(Row(aBfp[..], r, cols), Exponents(aExp), xBfp[..], Exponents(xExp), elemsPerExp, c)
    {
      BlockOf(c, elemsPerExp, cols);
      var block := c / elemsPerExp;
      var aE, xE := 0, 0;
      if aExp != null { aE := aExp[block]; }
      if xExp != null { xE := xExp[block]; }
      var term := ScaledProduct(aBfp[start + c], aE, xBfp[c], xE);
      sum := sum + term;
      RowAt(aBfp[..], r, cols, c);
      ExpIs(Exponents(aExp), c, elemsPerExp, aE);
      ExpIs(Exponents(xExp), c, elemsPerExp, xE);
      DotStep(Row(aBfp[..], r, cols), Exponents(aExp), xBfp[..], Exponents(xExp), elemsPerExp, c);
    }
  }

  lemma NoColumns(row: seq<int>, rowExps: seq<int>, x: seq<int>, xExps: seq<int>, k: nat)
    requires k >= 1
    ensures RowDot(row, rowExps, x, xExps, k, 0) == 0.0
  {
  }

  lemma ExpIs(exps: seq<int>, c: nat, k: nat, e: int)
    requires k >= 1
    requires if exps == [] then e == 0 else c / k < |exps| && e == exps[c / k]
    ensures ExpAt(exps, c, k) == e
  {
  }

  lemma DotStep(row: seq<int>, rowExps: seq<int>, x: seq<int>, xExps: seq<int>, k: nat, n: nat)
    requires k >= 1 && n < |row| && n < |x|
    ensures RowDot(row, rowExps, x, xExps, k, n + 1)
         == RowDot(row, rowExps, x, xExps, k, n)
            + DecodedProduct(row[n], ExpAt(rowExps, n, k), x[n], ExpAt(xExps, n, k))
  {
    hide ExpAt, Decode;
  }

  function DecodedProduct(a: int, ae: int, x: int, xe: int): real
  {
    Decode(a, ae) * Decode(x, xe)
  }

  method ScaledProduct(a: int, ae: int, x: int, xe: int) returns (t: real)
    ensures t == DecodedProduct(a, ae, x, xe)
  {
    hide Pow2;
    var val := a as real * x as real;
    ProductOfDecoded(a, ae, x, xe);
    t := val * Pow2(ae + xe);
  }

  lemma StartFits(a: seq<int>, r: nat, cols: nat)
    requires HasRow(a, r, cols)
    ensures RowStart(r, cols) + cols <= |a|
  {
  }

  lemma RowAt(a: seq<int>, r: nat, cols: nat, c: nat)
    requires HasRow(a, r, cols) && c < cols
    ensures Row(a, r, cols)[c] == a[RowStart(r, cols) + c]
  {
  }

  lemma {:induction false} ProductOfDecoded(a: int, ae: int, x: int, xe: int)
    ensures (a as real * x as real) * Pow2(ae + xe) == Decode(a, ae) * Decode(x, xe)
  {
    hide Pow2;
    Pow2Adds(ae, xe);
    Regroup(a as real, x as real, Pow2(ae), Pow2(xe));
  }

  lemma Regroup(a: real, x: real, p: real, q: real)
    ensures (a * x) * (p * q) == (a * p) * (x * q)
  {
    MulAssociates(a, x, p * q);
    MulAssociates(x, p, q);
    MulAssociates(p, x, q);
    MulAssociates(a, p, x * q);
    assert x * p == p * x;
  }
}
