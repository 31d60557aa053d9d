/** Machine numbers with exact finite arithmetic: a real, an infinity, or not-a-number.
    Finite values never round here; where the device rounds to FP16 it applies an explicit
    rounding function.  The infinities and NaN follow the IEEE 754 rules for special values.
 */
module Numbers {
  import opened Arithmetic

  datatype Num = Fin(r: real) | PosInf | NegInf | NaN

  type Vec = seq<Num>

  const ZERO := Fin(0.0)

  function Add(a: Num, b: Num): Num
  {
    if a.Fin? && b.Fin? then Fin(a.r + b.r)
    else if a.Fin? then b
    else if b.Fin? || a == b then a
    else NaN
  }

  function Neg(a: Num): Num
  {
    match a
    case Fin(x) => Fin(-x)
    case PosInf => NegInf
    case NegInf => PosInf
    case NaN => NaN
  }

  function Sub(a: Num, b: Num): Num
  {
    Add(a, Neg(b))
  }

  function Sign(a: Num): int
  {
    match a
    case Fin(x) => if x > 0.0 then 1 else if x < 0.0 then -1 else 0
    case PosInf => 1
    case NegInf => -1
    case NaN => 0
  }

  function Mul(a: Num, b: Num): Num
  {
    if a.Fin? && b.Fin? then Fin(a.r * b.r)
    else if Sign(a) == 0 || Sign(b) == 0 then NaN
    else if Sign(a) == Sign(b) then PosInf
    else NegInf
  }

  /** The IEEE comparison a < b; false as soon as one side is NaN. */
  predicate Less(a: Num, b: Num)
  {
    match (a, b)
    case (Fin(x), Fin(y)) => x < y
    case (NegInf, Fin(_)) => true
    case (NegInf, PosInf) => true
    case (Fin(_), PosInf) => true
    case _ => false
  }

  /** Python's max(a, b): the first argument unless the second is larger. */
  function PyMax(a: Num, b: Num): Num
  {
    if Less(a, b) then b else a
  }

  /** NumPy's maximum of two: NaN wins, otherwise the larger. */
  function NpMax2(a: Num, b: Num): Num
  {
    if a.NaN? || b.NaN? then NaN else PyMax(a, b)
  }

  /** C's (a > b) ? a : b. */
  function CMax(a: Num, b: Num): Num
  {
    if Less(b, a) then a else b
  }

  function Abs(a: Num): Num
  {
    match a
    case Fin(x) => Fin(if x < 0.0 then -x else x)
    case NegInf => PosInf
    case _ => a
  }

  function Recip(a: Num): Num
  {
    match a
    case Fin(x) => if x == 0.0 then PosInf else Fin(1.0 / x)
    case NaN => NaN
    case _ => ZERO
  }

  function Relu(a: Num): Num
  {
    if Less(ZERO, a) then a else ZERO
  }

  /** exp on the extended line, given exp on the finite numbers. */
  function Exp(exp: real -> real, a: Num): Num
  {
    match a
    case Fin(x) => Fin(exp(x))
    case NegInf => ZERO
    case _ => a
  }

  /** Left-to-right sum of the first n elements. */
  function Sum(v: Vec, n: nat): Num
    requires n <= |v|
  {
    if n == 0 then ZERO else Add(Sum(v, n - 1), v[n - 1])
  }

  /** Maximum of the first n elements, n >= 1. */
  function NpMax(v: Vec, n: nat): Num
    requires 1 <= n <= |v|
  {
    if n == 1 then v[0] else NpMax2(NpMax(v, n - 1), v[n - 1])
  }

  /** Left-to-right inner product of the first n elements, as the mv_mul kernel accumulates it. */
  function Dot(a: Vec, x: Vec, n: nat): Num
    requires n <= |a| && n <= |x|
  {
    if n == 0 then ZERO else Add(Dot(a, x, n - 1), Mul(a[n - 1], x[n - 1]))
  }

  function Const(n: nat, x: Num): (v: Vec)
    ensures |v| == n && forall i :: 0 <= i < n ==> v[i] == x
  {
    seq(n, i => x)
  }

  function Map(f: Num -> Num, v: Vec): (w: Vec)
    ensures |w| == |v| && forall i :: 0 <= i < |v| ==> w[i] == f(v[i])
  {
    seq(|v|, i requires 0 <= i < |v| => f(v[i]))
  }

  /** v with the elements from addr on replaced by w. */
  function Overlay(v: Vec, addr: nat, w: Vec): (r: Vec)
    requires addr + |w| <= |v|
    ensures |r| == |v|
    ensures forall k :: 0 <= k < |v| ==> r[k] == if addr <= k < addr + |w| then w[k - addr] else v[k]
  {
    v[..addr] + w + v[addr + |w|..]
  }

  function Min(a: int, b: int): int
  {
    if a < b then a else b
  }

  /** Exact value of a 16-bit half-precision pattern (binary16 of IEEE 754). */
  function DecodeFp16(bits: nat): Num
  {
    var sign := if bits / 0x8000 % 2 == 1 then -1.0 else 1.0;
    var e := bits / 0x400 % 0x20;
    var f := bits % 0x400;
    if e == 0x1F then
      if f != 0 then NaN else if sign < 0.0 then NegInf else PosInf
    else if e == 0 then Fin(sign * f as real / 16777216.0)
    else Fin(sign * (0x400 + f) as real * TwoTo(e) as real / 33554432.0)
  }

  lemma FillPatterns()
    ensures DecodeFp16(0) == ZERO
    ensures DecodeFp16(0xFC00) == NegInf
  {
    hide TwoTo;
  }

  lemma Powers()
    ensures TwoTo(1) == 2 && TwoTo(15) == 0x8000 && TwoTo(16) == 0x10000 && TwoTo(30) == 0x4000_0000
  {
    assert TwoTo(5) == 32;
    assert TwoTo(10) == 1024;
    assert TwoTo(20) == 0x10_0000;
    assert TwoTo(25) == 0x200_0000;
  }

  /** Known half-precision patterns: one, minus two, the largest number, the least normal and the least of all. */
  lemma KnownHalves()
    ensures DecodeFp16(0x3C00) == Fin(1.0) && DecodeFp16(0xC000) == Fin(-2.0) && DecodeFp16(0x7BFF) == Fin(65504.0)
    ensures DecodeFp16(0x0400) == Fin(1.0 / 16384.0) && DecodeFp16(0x0001) == Fin(1.0 / 16777216.0)
    ensures DecodeFp16(0x7C00) == PosInf && DecodeFp16(0x7E00) == NaN
  {
    Powers();
    hide TwoTo;
  }

  /** The sign bit negates. */
  lemma SignBitNegates(bits: nat)
    requires bits < 0x8000
    ensures DecodeFp16(bits + 0x8000) == Neg(DecodeFp16(bits))
  {
    hide TwoTo;
    assert (bits + 0x8000) / 0x400 == bits / 0x400 + 0x20 && (bits + 0x8000) % 0x400 == bits % 0x400;
    assert bits / 0x8000 == 0 && (bits + 0x8000) / 0x8000 == 1;
  }

  /** A number times its reciprocal is one, the reciprocal of zero is infinite, and an absolute value is the larger of a
      number and its negation. */
  lemma ReciprocalAndSize(x: real)
    ensures x != 0.0 ==> Mul(Fin(x), Recip(Fin(x))) == Fin(1.0)
    ensures Recip(ZERO) == PosInf && Recip(PosInf) == ZERO && Recip(NegInf) == ZERO
    ensures Abs(Fin(x)) == PyMax(Fin(x), Neg(Fin(x))) && Abs(NegInf) == PosInf && Abs(PosInf) == PosInf
  {
  }

  lemma AddAssociative(a: Num, b: Num, c: Num)
    ensures Add(Add(a, b), c) == Add(a, Add(b, c))
  {
  }
}
