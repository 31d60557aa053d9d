/** The C vector kernels over exact arithmetic: array segments addressed by an offset, often updated in place. */
module VectorKernels {
  import opened Arithmetic

  type Vec = seq<real>

  /** The C library's transcendental functions. */
  datatype Math = Math(exp: real -> real, sqrt: real -> real, tanh: real -> real)

  ghost predicate MathLaws(m: Math)
  {
    (forall x :: m.exp(x) > 0.0) &&
    (forall a, b :: m.exp(a - b) * m.exp(b) == m.exp(a)) &&
    (forall v :: v > 0.0 ==> m.sqrt(v) > 0.0)
  }

  lemma ExpPositive(m: Math, x: real)
    requires MathLaws(m)
    ensures m.exp(x) > 0.0
  {
  }

  lemma ExpShift(m: Math, a: real, b: real)
    requires MathLaws(m)
    ensures m.exp(a - b) * m.exp(b) == m.exp(a)
  {
  }

  lemma SqrtPositive(m: Math, v: real)
    requires MathLaws(m) && v > 0.0
    ensures m.sqrt(v) > 0.0
  {
  }

  // ---- What the kernels compute ----

  /** f(0) + ... + f(n - 1). */
  function Total(n: nat, f: int -> real): real
  {
    if n == 0 then 0.0 else Total(n - 1, f) + f(n - 1)
  }

  lemma TotalNext(n: nat, f: int -> real)
    ensures Total(0, f) == 0.0 && Total(n + 1, f) == Total(n, f) + f(n)
  {
  }

  lemma {:induction false} TotalSame(n: nat, f: int -> real, g: int -> real)
    requires forall i :: 0 <= i < n ==> f(i) == g(i)
    ensures Total(n, f) == Total(n, g)
  {
    if n > 0 { TotalSame(n - 1, f, g); }
  }

  lemma {:induction false} TotalScaled(n: nat, f: int -> real, g: int -> real, factor: real)
    requires forall i :: 0 <= i < n ==> f(i) == g(i) * factor
    ensures Total(n, f) == Total(n, g) * factor
  {
    if n > 0 { TotalScaled(n - 1, f, g, factor); }
  }

  lemma {:induction false} TotalPositive(n: nat, f: int -> real)
    requires forall i :: 0 <= i < n ==> f(i) > 0.0
    ensures Total(n, f) >= 0.0 && (n > 0 ==> Total(n, f) > 0.0)
  {
    if n > 0 { TotalPositive(n - 1, f); }
  }

  /** Element i, and zero outside the vector. */
  function At(v: Vec, i: int): real
  {
    if 0 <= i < |v| then v[i] else 0.0
  }

  function Elements(v: Vec): int -> real
  {
    i => At(v, i)
  }

  function AddVec(a: Vec, b: Vec): (y: Vec)
    requires |a| == |b|
    ensures |y| == |a|
  {
    seq(|a|, i requires 0 <= i < |a| => a[i] + b[i])
  }

  function Product(w: Vec, x: Vec, start: nat): int -> real
  {
    c => At(w, start + c) * At(x, c)
  }

  function MatVec(w: Vec, x: Vec, rows: nat): (y: Vec)
    ensures |y| == rows
  {
    seq(rows, r requires 0 <= r < rows => Total(|x|, Product(w, x, RowStart(r, |x|))))
  }

  function Mean(x: Vec): real
    requires x != []
  {
    Total(|x|, Elements(x)) / |x| as real
  }

  function Deviation(x: Vec, mean: real): int -> real
  {
    i => (At(x, i) - mean) * (At(x, i) - mean)
  }

  function Variance(x: Vec): real
    requires x != []
  {
    Total(|x|, Deviation(x, Mean(x))) / |x| as real
  }

  /** The epsilon both layer normalizations of the encoder use. */
  const EPS: real := 0.000000000001

  function LayernormVec(m: Math, x: Vec, gamma: Vec, beta: Vec): (y: Vec)
    requires x != [] && |gamma| == |beta| == |x|
    requires m.sqrt(Variance(x) + EPS) != 0.0
    ensures |y| == |x|
  {
    Normalized(x, Mean(x), m.sqrt(Variance(x) + EPS), gamma, beta)
  }

  function Normalized(x: Vec, mean: real, std: real, gamma: Vec, beta: Vec): (y: Vec)
    requires std != 0.0 && |gamma| == |beta| == |x|
    ensures |y| == |x|
  {
    seq(|x|, i requires 0 <= i < |x| => (x[i] - mean) / std * gamma[i] + beta[i])
  }

  function GeluOf(m: Math, x: real): real
  {
    0.5 * x * (1.0 + m.tanh(0.7978845608028654 * (x + 0.044715 * (x * x * x))))
  }

  function GeluVec(m: Math, x: Vec): (y: Vec)
    ensures |y| == |x|
  {
    seq(|x|, i requires 0 <= i < |x| => GeluOf(m, x[i]))
  }

  function ExpOf(m: Math, x: Vec, shift: real): int -> real
  {
    i => m.exp(At(x, i) - shift)
  }

  /** The plain definition: no maximum is subtracted. */
  ghost function SoftmaxVec(m: Math, x: Vec): (y: Vec)
    requires MathLaws(m)
    ensures |y| == |x|
  {
    seq(|x|, i requires 0 <= i < |x| => SoftmaxAt(m, x, i))
  }

  ghost function SoftmaxAt(m: Math, x: Vec, i: nat): real
    requires MathLaws(m) && i < |x|
  {
    MassPositive(m, x, 0.0);
    m.exp(x[i]) / Total(|x|, ExpOf(m, x, 0.0))
  }

  lemma {:induction false} MassPositive(m: Math, x: Vec, shift: real)
    requires MathLaws(m)
    ensures x != [] ==> Total(|x|, ExpOf(m, x, shift)) > 0.0
  {
    hide MathLaws;
    forall i | 0 <= i < |x| ensures ExpOf(m, x, shift)(i) > 0.0 { ExpPositive(m, At(x, i) - shift); }
    TotalPositive(|x|, ExpOf(m, x, shift));
  }

  /** Subtracting any number before exponentiating leaves the weights as they are. */
  lemma ShiftedSoftmax(m: Math, x: Vec, shift: real, i: nat)
    requires MathLaws(m) && i < |x|
    ensures Total(|x|, ExpOf(m, x, shift)) > 0.0
    ensures m.exp(x[i] - shift) * (1.0 / Total(|x|, ExpOf(m, x, shift))) == SoftmaxAt(m, x, i)
  {
    hide MathLaws, Total;
    MassPositive(m, x, shift);
    var factor := m.exp(shift);
    ExpPositive(m, shift);
    ShiftedMass(m, x, shift);
    ExpShift(m, x[i], shift);
    CancelFactor(m.exp(x[i] - shift), Total(|x|, ExpOf(m, x, shift)), factor);
  }

  lemma {:induction false} ShiftedMass(m: Math, x: Vec, shift: real)
    requires MathLaws(m)
    ensures Total(|x|, ExpOf(m, x, 0.0)) == Total(|x|, ExpOf(m, x, shift)) * m.exp(shift)
  {
    hide MathLaws, Total;
    forall j | 0 <= j < |x| ensures ExpOf(m, x, 0.0)(j) == ExpOf(m, x, shift)(j) * m.exp(shift) {
      ExpShift(m, x[j], shift);
      assert x[j] - 0.0 == x[j];
    }
    TotalScaled(|x|, ExpOf(m, x, 0.0), ExpOf(m, x, shift), m.exp(shift));
  }

  lemma CancelFactor(a: real, b: real, factor: real)
    requires b > 0.0 && factor > 0.0
    ensures b * factor > 0.0
    ensures a * (1.0 / b) == (a * factor) / (b * factor)
  {
    var inv := 1.0 / b;
    assert inv * b == 1.0;
    assert b * factor > 0.0;
    Regroup(a, inv, b, factor);
    Quotient(a * inv, a * factor, b * factor);
  }

  lemma Regroup(a: real, inv: real, b: real, factor: real)
    requires inv * b == 1.0
    ensures (a * inv) * (b * factor) == a * factor
  {
    assert (a * inv) * (b * factor) == a * (inv * (b * factor));
    assert inv * (b * factor) == (inv * b) * factor;
  }

  lemma Quotient(q: real, a: real, b: real)
    requires b > 0.0 && q * b == a
    ensures q == a / b
  {
  }

  /** Softmax weights are positive and sum to one. */
  lemma {:induction false} SoftmaxIsDistribution(m: Math, x: Vec)
    requires MathLaws(m) && x != []
    ensures forall i :: 0 <= i < |x| ==> SoftmaxVec(m, x)[i] > 0.0
    ensures Total(|x|, Elements(SoftmaxVec(m, x))) == 1.0
  {
    hide MathLaws, Total;
    var sum := Total(|x|, ExpOf(m, x, 0.0));
    MassPositive(m, x, 0.0);
    forall i | 0 <= i < |x|
      ensures SoftmaxVec(m, x)[i] > 0.0 && At(SoftmaxVec(m, x), i) == ExpOf(m, x, 0.0)(i) * (1.0 / sum)
    {
      ExpPositive(m, x[i]);
      assert x[i] - 0.0 == x[i];
      RatioPositive(m.exp(x[i]), sum);
    }
    TotalScaled(|x|, Elements(SoftmaxVec(m, x)), ExpOf(m, x, 0.0), 1.0 / sum);
  }

  lemma RatioPositive(a: real, b: real)
    requires a > 0.0 && b > 0.0
    ensures a / b > 0.0 && a / b == a * (1.0 / b)
  {
  }

  // ---- The kernels ----

  /** A source segment is either exactly the target segment or shares no element with it. */
  predicate SameOrApart(same: bool, xi: nat, yi: nat, n: nat)
  {
    same ==> xi == yi || xi + n <= yi || yi + n <= xi
  }

  method VecAdd(a: array<real>, ai: nat, b: array<real>, bi: nat, y: array<real>, yi: nat, n: nat)
    requires ai + n <= a.Length && bi + n <= b.Length && yi + n <= y.Length
    requires SameOrApart(a == y, ai, yi, n) && SameOrApart(b == y, bi, yi, n)
    modifies y
    ensures y[yi..yi + n] == AddVec(old(a[ai..ai + n]), old(b[bi..bi + n]))
    ensures SameOutside(old(y[..]), y[..], yi, yi + n)
  {
    ghost var sum := AddVec(a[ai..ai + n], b[bi..bi + n]);
    for i := 0 to n
      invariant forall j :: yi <= j < yi + i ==> y[j] == sum[j - yi]
      invariant forall j :: 0 <= j < y.Length && !(yi <= j < yi + i) ==> y[j] == old(y[j])
    {
      assert a[ai + i] == old(a[ai + i]) && b[bi + i] == old(b[bi + i]);
      y[yi + i] := a[ai + i] + b[bi + i];
    }
  }

  method MvMul(w: array<real>, x: array<real>, xi: nat, y: array<real>, yi: nat, rows: nat, cols: nat)
    requires w != y && RowStart(rows, cols) <= w.Length && xi + cols <= x.Length && yi + rows <= y.Length
    requires x == y ==> xi + cols <= yi || yi + rows <= xi
    modifies y
    ensures y[yi..yi + rows] == MatVec(w[..], old(x[xi..xi + cols]), rows)
    ensures SameOutside(old(y[..]), y[..], yi, yi + rows)
  {
    hide RowStart, Total;
    ghost var xs := x[xi..xi + cols];
    for r := 0 to rows
      invariant x[xi..xi + cols] == xs
      invariant forall j :: yi <= j < yi + r ==> y[j] == MatVec(w[..], xs, rows)[j - yi]
      invariant forall j :: 0 <= j < y.Length && !(yi <= j < yi + r) ==> y[j] == old(y[j])
    {
      RowInside(r, rows, cols);
      var sum := DotRow(w, RowStart(r, cols), x, xi, cols);
      y[yi + r] := sum;
    }
  }

  /** One row of the matrix times the vector. */
  method DotRow(w: array<real>, start: nat, x: array<real>, xi: nat, cols: nat) returns (sum: real)
    requires start + cols <= w.Length && xi + cols <= x.Length
    ensures sum == Total(cols, Product(w[..], x[xi..xi + cols], start))
  {
    hide Total;
    ghost var f := Product(w[..], x[xi..xi + cols], start);
    sum := 0.0;
    TotalNext(0, f);
    for c := 0 to cols
      invariant sum == Total(c, f)
    {
      ProductAt(w[..], x[xi..xi + cols], start, c);
      TotalNext(c, f);
      sum := sum + w[start + c] * x[xi + c];
    }
  }

  lemma ProductAt(w: Vec, x: Vec, start: nat, c: nat)
    requires start + c < |w| && c < |x|
    ensures Product(w, x, start)(c) == w[start + c] * x[c]
  {
  }

  lemma RowInside(r: nat, rows: nat, cols: nat)
    requires r < rows
    ensures RowStart(r, cols) + cols <= RowStart(rows, cols)
    ensures forall q: nat :: q < r ==> RowStart(q, cols) + cols <= RowStart(r, cols)
  {
    RowBefore(r, rows, cols);
    forall q: nat | q < r ensures RowStart(q, cols) + cols <= RowStart(r, cols) { RowBefore(q, r, cols); }
  }

  method Layernorm(m: Math, x: array<real>, xi: nat, gamma: array<real>, beta: array<real>, y: array<real>, yi: nat,
                   n: nat)
    requires MathLaws(m) && n >= 1 && xi + n <= x.Length && yi + n <= y.Length && n == gamma.Length == beta.Length
    requires gamma != y && beta != y && SameOrApart(x == y, xi, yi, n)
    modifies y
    ensures m.sqrt(Variance(old(x[xi..xi + n])) + EPS) > 0.0
    ensures y[yi..yi + n] == LayernormVec(m, old(x[xi..xi + n]), gamma[..], beta[..])
    ensures SameOutside(old(y[..]), y[..], yi, yi + n)
  {
    hide MathLaws, Mean, Variance;
    ghost var xs := x[xi..xi + n];
    var mean, variance := Moments(x, xi, n);
    VarianceNotNegative(xs);
    SqrtPositive(m, variance + EPS);
    Normalize(m.sqrt(variance + EPS), mean, x, xi, gamma, beta, y, yi, n);
  }

  /** The first two loops of the layer normalization. */
  method Moments(x: array<real>, xi: nat, n: nat) returns (mean: real, variance: real)
    requires n >= 1 && xi + n <= x.Length
    ensures mean == Mean(x[xi..xi + n]) && variance == Variance(x[xi..xi + n])
  {
    hide Total;
    ghost var xs := x[xi..xi + n];
    var sum := 0.0;
    TotalNext(0, Elements(xs));
    for i := 0 to n
      invariant sum == Total(i, Elements(xs))
    {
      TotalNext(i, Elements(xs));
      sum := sum + x[xi + i];
    }
    mean := sum / n as real;
    var varSum := 0.0;
    TotalNext(0, Deviation(xs, mean));
    for i := 0 to n
      invariant varSum == Total(i, Deviation(xs, mean))
    {
      TotalNext(i, Deviation(xs, mean));
      var diff := x[xi + i] - mean;
      varSum := varSum + diff * diff;
    }
    variance := varSum / n as real;
  }

  /** The last loop of the layer normalization. */
  method Normalize(std: real, mean: real, x: array<real>, xi: nat, gamma: array<real>, beta: array<real>,
                   y: array<real>, yi: nat, n: nat)
    requires std > 0.0 && xi + n <= x.Length && yi + n <= y.Length && n == gamma.Length == beta.Length
    requires gamma != y && beta != y && SameOrApart(x == y, xi, yi, n)
    modifies y
    ensures y[yi..yi + n] == Normalized(old(x[xi..xi + n]), mean, std, gamma[..], beta[..])
    ensures SameOutside(old(y[..]), y[..], yi, yi + n)
  {
    ghost var xs := x[xi..xi + n];
    ghost var ys := Normalized(xs, mean, std, gamma[..], beta[..]);
    var invStd := 1.0 / std;
    for i := 0 to n
      invariant forall j :: yi <= j < yi + i ==> y[j] == ys[j - yi]
      invariant forall j :: 0 <= j < y.Length && !(yi <= j < yi + i) ==> y[j] == old(y[j])
    {
      assert x[xi + i] == xs[i];
      var normalized := (x[xi + i] - mean) * invStd;
      TimesInverse(xs[i] - mean, std);
      y[yi + i] := normalized * gamma[i] + beta[i];
    }
  }

  lemma TimesInverse(a: real, b: real)
    requires b > 0.0
    ensures a * (1.0 / b) == a / b
  {
  }

  lemma VarianceNotNegative(x: Vec)
    requires x != []
    ensures Variance(x) >= 0.0
  {
    SquaresNotNegative(|x|, x, Mean(x));
  }

  lemma {:induction false} SquaresNotNegative(n: nat, x: Vec, mean: real)
    ensures Total(n, Deviation(x, mean)) >= 0.0
  {
    if n > 0 {
      SquaresNotNegative(n - 1, x, mean);
      Square(At(x, n - 1) - mean);
    }
  }

  lemma Square(a: real)
    ensures a * a >= 0.0
  {
  }

  /** A row before gamma and beta: its mean taken off, times the inverse of the standard deviation. */
  function Centred(x: Vec, inv: real): (y: Vec)
    requires x != []
    ensures |y| == |x| && forall i :: 0 <= i < |x| ==> y[i] == (x[i] - Mean(x)) * inv
  {
    seq(|x|, i requires 0 <= i < |x| => (x[i] - Mean(x)) * inv)
  }

  function Squares(y: Vec): int -> real
  {
    i => At(y, i) * At(y, i)
  }

  function Offsets(x: Vec, mean: real): int -> real
  {
    i => At(x, i) - mean
  }

  lemma {:induction false} TotalOffset(n: nat, x: Vec, mean: real)
    ensures Total(n, Offsets(x, mean)) == Total(n, Elements(x)) - n as real * mean
  {
    if n > 0 {
      TotalOffset(n - 1, x, mean);
      OneMore(n - 1, mean);
    }
  }

  lemma OneMore(n: nat, mean: real)
    ensures (n + 1) as real * mean == n as real * mean + mean
  {
    assert (n + 1) as real == n as real + 1.0;
  }

  lemma SquareProduct(a: real, b: real)
    ensures (a * b) * (a * b) == (a * a) * (b * b)
  {
    assert (a * a) * (b * b) == a * (a * (b * b)) && a * (b * b) == (a * b) * b;
    assert (a * b) * (a * b) == a * (b * (a * b));
  }

  lemma {:induction false} MeanTimes(x: Vec)
    requires x != []
    ensures |x| as real * Mean(x) == Total(|x|, Elements(x))
  {
    hide Total, Elements;
  }

  lemma {:induction false} OffsetsCancel(x: Vec)
    requires x != []
    ensures Total(|x|, Offsets(x, Mean(x))) == 0.0
  {
    hide Total, Mean;
    TotalOffset(|x|, x, Mean(x));
    MeanTimes(x);
  }

  /** A normalised row sums to zero. */
  lemma {:induction false} NormalisedSum(x: Vec, inv: real)
    requires x != []
    ensures Total(|x|, Elements(Centred(x, inv))) == 0.0
  {
    hide Mean, Total;
    OffsetsCancel(x);
    TotalScaled(|x|, Elements(Centred(x, inv)), Offsets(x, Mean(x)), inv);
  }

  /** Its squares sum to the variance times the length over the squared divisor, so its variance is one but for EPS. */
  lemma {:induction false} NormalisedSquares(x: Vec, inv: real)
    requires x != []
    ensures Total(|x|, Squares(Centred(x, inv))) == Variance(x) * |x| as real * (inv * inv)
  {
    hide Total, Variance, Mean, Centred;
    VarianceTimes(x);
    SquaresScaled(x, inv, inv * inv);
  }

  lemma {:induction false} VarianceTimes(x: Vec)
    requires x != []
    ensures Variance(x) * |x| as real == Total(|x|, Deviation(x, Mean(x)))
  {
    hide Total, Deviation, Mean;
  }

  lemma {:induction false} SquaresScaled(x: Vec, inv: real, k: real)
    requires x != [] && k == inv * inv
    ensures Total(|x|, Squares(Centred(x, inv))) == Total(|x|, Deviation(x, Mean(x))) * k
  {
    hide Total, Mean;
    forall i | 0 <= i < |x| ensures Squares(Centred(x, inv))(i) == Deviation(x, Mean(x))(i) * k {
      SquareLane(x, inv, k, i);
    }
    TotalScaled(|x|, Squares(Centred(x, inv)), Deviation(x, Mean(x)), k);
  }

  lemma SquareLane(x: Vec, inv: real, k: real, i: nat)
    requires x != [] && k == inv * inv && i < |x|
    ensures Squares(Centred(x, inv))(i) == Deviation(x, Mean(x))(i) * k
  {
    hide Mean;
    SquareProduct(x[i] - Mean(x), inv);
    hide Centred;
    assert At(Centred(x, inv), i) == (x[i] - Mean(x)) * inv;
  }

  /** Layer normalisation scales such a row by gamma and adds beta. */
  lemma LayernormScalesRow(m: Math, x: Vec, gamma: Vec, beta: Vec, i: nat)
    requires x != [] && |gamma| == |beta| == |x| && m.sqrt(Variance(x) + EPS) > 0.0 && i < |x|
    ensures LayernormVec(m, x, gamma, beta)[i]
         == Centred(x, 1.0 / m.sqrt(Variance(x) + EPS))[i] * gamma[i] + beta[i]
  {
    TimesInverse(x[i] - Mean(x), m.sqrt(Variance(x) + EPS));
    hide Mean, Variance;
  }

  method Gelu(m: Math, x: array<real>, xi: nat, y: array<real>, yi: nat, n: nat)
    requires xi + n <= x.Length && yi + n <= y.Length && SameOrApart(x == y, xi, yi, n)
    modifies y
    ensures y[yi..yi + n] == GeluVec(m, old(x[xi..xi + n]))
    ensures SameOutside(old(y[..]), y[..], yi, yi + n)
  {
    hide GeluOf;
    ghost var ys := GeluVec(m, x[xi..xi + n]);
    for i := 0 to n
      invariant forall j :: yi <= j < yi + i ==> y[j] == ys[j - yi]
      invariant forall j :: 0 <= j < y.Length && !(yi <= j < yi + i) ==> y[j] == old(y[j])
    {
      assert x[xi + i] == old(x[xi + i]);
      y[yi + i] := GeluElement(m, x[xi + i]);
    }
  }

  method GeluElement(m: Math, v: real) returns (r: real)
    ensures r == GeluOf(m, v)
  {
    var x3 := v * v * v;
    var inner := 0.7978845608028654 * (v + 0.044715 * x3);
    r := 0.5 * v * (1.0 + m.tanh(inner));
  }

  method Softmax(m: Math, x: array<real>, y: array<real>, n: nat)
    requires MathLaws(m) && 1 <= n && n <= x.Length && n <= y.Length && x != y
    modifies y
    ensures y[..n] == SoftmaxVec(m, x[..n])
    ensures SameOutside(old(y[..]), y[..], 0, n)
  {
    hide MathLaws, Total;
    ghost var xs := x[..n];
    var maxVal := x[0];
    for i := 1 to n {
      if x[i] > maxVal { maxVal := x[i]; }
    }
    var sum := 0.0;
    assert sum == Total(0, ExpOf(m, xs, maxVal)) by { TotalNext(0, ExpOf(m, xs, maxVal)); }
    for i := 0 to n
      invariant x[..n] == xs && sum == Total(i, ExpOf(m, xs, maxVal))
      invariant forall j :: 0 <= j < i ==> y[j] == m.exp(xs[j] - maxVal)
      invariant forall j :: i <= j < y.Length ==> y[j] == old(y[j])
    {
      y[i] := m.exp(x[i] - maxVal);
      sum := sum + y[i];
      TotalNext(i, ExpOf(m, xs, maxVal));
    }
    ShiftedSoftmax(m, xs, maxVal, 0);
    var invSum := 1.0 / sum;
    for i := 0 to n
      invariant x[..n] == xs
      invariant forall j :: 0 <= j < i ==> y[j] == SoftmaxAt(m, xs, j)
      invariant forall j :: i <= j < n ==> y[j] == m.exp(xs[j] - maxVal)
      invariant forall j :: n <= j < y.Length ==> y[j] == old(y[j])
    {
      ShiftedSoftmax(m, xs, maxVal, i);
      y[i] := y[i] * invSum;
    }
  }
}
