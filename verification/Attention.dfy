/** Causal attention with an output projection and a residual, over the reals: the textbook
    form, and the form of the NumPy reference (masked scores, a max-shifted softmax over all
    positions, matrix products).
 */
module Attention {
  import opened Numbers

  const MODEL_DIM := 4
  const MAX_SEQ := 35

  type Row = r: seq<real> | |r| == MODEL_DIM witness [0.0, 0.0, 0.0, 0.0]

  /** One attention instance: X, Q, K, V a row a position, the transposed query weights, the
      score scale, and the exponential. */
  datatype Problem = Problem(x: seq<Row>, q: seq<Row>, k: seq<Row>, v: seq<Row>, wqT: seq<Row>, scale: real,
                             exp: real -> real)
  {
    function Len(): nat { |x| }

    ghost predicate Valid()
    {
      1 <= |x| <= MAX_SEQ && |q| == |x| && |k| == |x| && |v| == |x| && |wqT| == MODEL_DIM && ExpLaws(exp)
    }
  }

  predicate ExpAdds(exp: real -> real, a: real, b: real)
  {
    exp(a + b) == exp(a) * exp(b)
  }

  predicate ExpPositive(exp: real -> real, a: real)
  {
    exp(a) > 0.0
  }

  ghost predicate ExpLaws(exp: real -> real)
  {
    (forall a, b :: ExpAdds(exp, a, b)) && (forall a :: ExpPositive(exp, a))
  }

  function DotR(a: Row, b: Row, n: nat): real
    requires n <= MODEL_DIM
  {
    if n == 0 then 0.0 else DotR(a, b, n - 1) + a[n - 1] * b[n - 1]
  }

  // ---- Textbook form ----

  function Score(pr: Problem, i: nat, p: nat): real
    requires i < |pr.q| && p < |pr.k|
  {
    pr.scale * DotR(pr.k[p], pr.q[i], MODEL_DIM)
  }

  /** Sum of exp(score) over positions p < n. */
  function Mass(pr: Problem, i: nat, n: nat): real
    requires i < |pr.q| && n <= |pr.k|
  {
    if n == 0 then 0.0 else Mass(pr, i, n - 1) + pr.exp(Score(pr, i, n - 1))
  }

  /** Softmax weight of position p among the positions up to i. */
  function Weight(pr: Problem, i: nat, p: nat): real
    requires i < |pr.q| && i < |pr.k| && p < |pr.k|
  {
    if Mass(pr, i, i + 1) == 0.0 then 0.0 else pr.exp(Score(pr, i, p)) / Mass(pr, i, i + 1)
  }

  /** Weighted sum of the values of positions p < n. */
  function Mix(pr: Problem, i: nat, d: nat, n: nat): real
    requires i < |pr.q| && i < |pr.k| && n <= |pr.k| && n <= |pr.v| && d < MODEL_DIM
  {
    if n == 0 then 0.0 else Mix(pr, i, d, n - 1) + Weight(pr, i, n - 1) * pr.v[n - 1][d]
  }

  /** Attention context of position i: only positions up to i take part. */
  function Context(pr: Problem, i: nat): (r: Row)
    requires pr.Valid() && i < pr.Len()
    ensures forall d :: 0 <= d < MODEL_DIM ==> r[d] == Mix(pr, i, d, i + 1)
  {
    [Mix(pr, i, 0, i + 1), Mix(pr, i, 1, i + 1), Mix(pr, i, 2, i + 1), Mix(pr, i, 3, i + 1)]
  }

  /** Residual stream after attention. */
  function AttnResidual(pr: Problem, i: nat, d: nat): real
    requires pr.Valid() && i < pr.Len() && d < MODEL_DIM
  {
    pr.x[i][d] + DotR(pr.wqT[d], Context(pr, i), MODEL_DIM)
  }

  // ---- Shifted sums, over as many lanes as a tiling pads to ----

  /** exp(score - m) of a live lane; zero for every masked or padding lane. */
  function Shifted(pr: Problem, i: nat, m: real, p: nat): real
    requires i < |pr.q| && i < |pr.k|
  {
    if p <= i then pr.exp(Score(pr, i, p) - m) else 0.0
  }

  function ShiftedMass(pr: Problem, i: nat, m: real, n: nat): real
    requires i < |pr.q| && i < |pr.k|
  {
    if n == 0 then 0.0 else ShiftedMass(pr, i, m, n - 1) + Shifted(pr, i, m, n - 1)
  }

  function ValueOrZero(pr: Problem, p: nat, d: nat): real
    requires d < MODEL_DIM
  {
    if p < |pr.v| then pr.v[p][d] else 0.0
  }

  function MixTerm(pr: Problem, i: nat, m: real, r: real, d: nat, p: nat): real
    requires i < |pr.q| && i < |pr.k| && d < MODEL_DIM
  {
    Shifted(pr, i, m, p) * r * ValueOrZero(pr, p, d)
  }

  /** Sum over p < n of (exp(score - m) * r) * value. */
  function ShiftedMix(pr: Problem, i: nat, m: real, r: real, d: nat, n: nat): real
    requires i < |pr.q| && i < |pr.k| && d < MODEL_DIM
  {
    if n == 0 then 0.0 else ShiftedMix(pr, i, m, r, d, n - 1) + MixTerm(pr, i, m, r, d, n - 1)
  }

  function Cut(n: nat, i: nat): nat
  {
    if n <= i then n else i + 1
  }

  lemma ExpShift(pr: Problem, s: real, m: real)
    requires ExpLaws(pr.exp)
    ensures pr.exp(s - m) == pr.exp(s) * pr.exp(-m)
    ensures pr.exp(s - m) > 0.0 && pr.exp(s) > 0.0 && pr.exp(-m) > 0.0
  {
    assert ExpAdds(pr.exp, s, -m) && ExpPositive(pr.exp, s) && ExpPositive(pr.exp, -m);
    assert s - m == s + -m;
  }

  /** A shift scales every mass by the same factor, and masked lanes add nothing. */
  lemma {:induction false} ShiftScalesMass(pr: Problem, i: nat, m: real, n: nat)
    requires pr.Valid() && i < pr.Len()
    ensures ShiftedMass(pr, i, m, n) == pr.exp(-m) * Mass(pr, i, Cut(n, i))
  {
    if n > 0 {
      ShiftScalesMass(pr, i, m, n - 1);
      if n - 1 <= i { ExpShift(pr, Score(pr, i, n - 1), m); }
    }
  }

  lemma {:induction false} MassPositive(pr: Problem, i: nat, n: nat)
    requires pr.Valid() && i < pr.Len() && 1 <= n <= pr.Len()
    ensures Mass(pr, i, n) > 0.0
  {
    ExpShift(pr, Score(pr, i, n - 1), 0.0);
    if n > 1 { MassPositive(pr, i, n - 1); }
  }

  /** Normalising shifted exponentials by their own sum gives the textbook weights. */
  lemma ShiftedWeight(pr: Problem, i: nat, m: real, n: nat, p: nat)
    requires pr.Valid() && i < pr.Len() && i < n && p <= i
    ensures ShiftedMass(pr, i, m, n) > 0.0
    ensures Shifted(pr, i, m, p) * (1.0 / ShiftedMass(pr, i, m, n)) == Weight(pr, i, p)
  {
    ShiftScalesMass(pr, i, m, n);
    MassPositive(pr, i, i + 1);
    var s := Score(pr, i, p);
    ExpShift(pr, s, m);
    var a, f, t := pr.exp(s), pr.exp(-m), Mass(pr, i, i + 1);
    CancelFactor(a, f, t);
  }

  lemma CancelFactor(a: real, f: real, t: real)
    requires f > 0.0 && t > 0.0
    ensures f * t > 0.0 && (a * f) * (1.0 / (f * t)) == a / t
  {
    assert (a / t) * (f * t) == a * f by {
      assert (a / t) * t == a;
      assert (a / t) * (f * t) == ((a / t) * t) * f;
    }
    var u := 1.0 / (f * t);
    assert u * (f * t) == 1.0;
    assert (a * f) * u == (a / t) * ((f * t) * u);
  }

  /** The padded, max-shifted mixture is the textbook context, whatever the finite shift. */
  lemma {:induction false} ShiftedMixIsMix(pr: Problem, i: nat, m: real, r: real, d: nat, n: nat, lanes: nat)
    requires pr.Valid() && i < pr.Len() && d < MODEL_DIM && i < lanes
    requires ShiftedMass(pr, i, m, lanes) > 0.0 && r == 1.0 / ShiftedMass(pr, i, m, lanes)
    ensures ShiftedMix(pr, i, m, r, d, n) == Mix(pr, i, d, Cut(n, i))
  {
    if n > 0 {
      ShiftedMixIsMix(pr, i, m, r, d, n - 1, lanes);
      if n - 1 <= i { ShiftedWeight(pr, i, m, lanes, n - 1); }
    }
  }

  // ---- The NumPy reference: scores, causal mask, stable softmax, context, projection ----

  /** A live lane's score, minus infinity for a masked or padding lane. */
  function MaskedScore(pr: Problem, i: nat, p: nat): Num
    requires i < |pr.q| && i < |pr.k|
  {
    if p <= i then Fin(Score(pr, i, p)) else NegInf
  }

  /** Entry (i, p) of (q @ k.T) * scale. */
  function GoldenScore(pr: Problem, i: nat, p: nat): (s: real)
    requires i < |pr.q| && p < |pr.k|
    ensures s == Score(pr, i, p)
  {
    DotRCommutes(pr.q[i], pr.k[p], MODEL_DIM);
    DotR(pr.q[i], pr.k[p], MODEL_DIM) * pr.scale
  }

  /** Row i of (q @ k.T) * scale with everything above the diagonal masked. */
  function MaskedScores(pr: Problem, i: nat): (v: Vec)
    requires pr.Valid() && i < pr.Len()
    ensures |v| == pr.Len() && forall p :: 0 <= p < |v| ==> v[p] == MaskedScore(pr, i, p)
  {
    seq(pr.Len(), p requires 0 <= p < pr.Len() => if p > i then NegInf else Fin(GoldenScore(pr, i, p)))
  }

  function Exps(pr: Problem, s: Vec, m: Num): (v: Vec)
    ensures |v| == |s| && forall p :: 0 <= p < |s| ==> v[p] == Exp(pr.exp, Sub(s[p], m))
  {
    seq(|s|, p requires 0 <= p < |s| => Exp(pr.exp, Sub(s[p], m)))
  }

  function Div(a: Num, b: Num): Num
  {
    Mul(a, Recip(b))
  }

  /** exp(x - max) / sum(exp(x - max)) */
  function StableSoftmax(pr: Problem, s: Vec): (v: Vec)
    requires |s| >= 1
    ensures |v| == |s|
    ensures var e := Exps(pr, s, NpMax(s, |s|)); forall p :: 0 <= p < |s| ==> v[p] == Div(e[p], Sum(e, |e|))
  {
    var e := Exps(pr, s, NpMax(s, |s|));
    seq(|s|, p requires 0 <= p < |s| => Div(e[p], Sum(e, |e|)))
  }

  function ValueColumn(pr: Problem, d: nat): (v: Vec)
    requires d < MODEL_DIM
    ensures |v| == |pr.v| && forall p :: 0 <= p < |v| ==> v[p] == Fin(pr.v[p][d])
  {
    seq(|pr.v|, p requires 0 <= p < |pr.v| => Fin(pr.v[p][d]))
  }

  /** Row i of attn_w @ v. */
  function GoldenContext(pr: Problem, i: nat, d: nat): Num
    requires pr.Valid() && i < pr.Len() && d < MODEL_DIM
  {
    Dot(StableSoftmax(pr, MaskedScores(pr, i)), ValueColumn(pr, d), pr.Len())
  }

  function GoldenContextRow(pr: Problem, i: nat): (v: Vec)
    requires pr.Valid() && i < pr.Len()
    ensures |v| == MODEL_DIM && forall d :: 0 <= d < MODEL_DIM ==> v[d] == GoldenContext(pr, i, d)
  {
    seq(MODEL_DIM, d requires 0 <= d < MODEL_DIM => GoldenContext(pr, i, d))
  }

  function FinRow(r: Row): (v: Vec)
    ensures |v| == MODEL_DIM && forall j :: 0 <= j < MODEL_DIM ==> v[j] == Fin(r[j])
  {
    [Fin(r[0]), Fin(r[1]), Fin(r[2]), Fin(r[3])]
  }

  /** x + ctx @ W_q, element d of row i. */
  function GoldenResidual(pr: Problem, i: nat, d: nat): Num
    requires pr.Valid() && i < pr.Len() && d < MODEL_DIM
  {
    Add(Fin(pr.x[i][d]), Dot(GoldenContextRow(pr, i), FinRow(pr.wqT[d]), MODEL_DIM))
  }

  lemma {:induction false} MaxIsFinite(pr: Problem, i: nat, n: nat)
    requires pr.Valid() && i < pr.Len() && 1 <= n <= pr.Len()
    ensures NpMax(MaskedScores(pr, i), n).Fin?
  {
    if n > 1 { MaxIsFinite(pr, i, n - 1); }
  }

  lemma {:induction false} ExpsSum(pr: Problem, i: nat, m: real, n: nat)
    requires pr.Valid() && i < pr.Len() && n <= pr.Len()
    ensures Sum(Exps(pr, MaskedScores(pr, i), Fin(m)), n) == Fin(ShiftedMass(pr, i, m, n))
  {
    if n > 0 {
      ExpsSum(pr, i, m, n - 1);
      ExpsLane(pr, i, m, n - 1);
    }
  }

  lemma ExpsLane(pr: Problem, i: nat, m: real, p: nat)
    requires i < |pr.q| && i < |pr.k|
    ensures Exp(pr.exp, Sub(MaskedScore(pr, i, p), Fin(m))) == Fin(Shifted(pr, i, m, p))
  {
    if p <= i {
      var s := Score(pr, i, p);
      assert s + -m == s - m;
    }
  }

  lemma SoftmaxLane(pr: Problem, i: nat, m: real, r: real, p: nat)
    requires pr.Valid() && i < pr.Len() && p < pr.Len()
    requires NpMax(MaskedScores(pr, i), pr.Len()) == Fin(m)
    requires ShiftedMass(pr, i, m, pr.Len()) > 0.0 && r == 1.0 / ShiftedMass(pr, i, m, pr.Len())
    ensures StableSoftmax(pr, MaskedScores(pr, i))[p] == Fin(Shifted(pr, i, m, p) * r)
  {
    ExpsSum(pr, i, m, pr.Len());
    ExpsLane(pr, i, m, p);
  }

  lemma {:induction false} WeightedDot(pr: Problem, i: nat, m: real, r: real, d: nat, w: Vec, v: Vec, n: nat)
    requires pr.Valid() && i < pr.Len() && d < MODEL_DIM && n <= |w| && n <= |v|
    requires forall p :: 0 <= p < n ==> w[p] == Fin(Shifted(pr, i, m, p) * r) && v[p] == Fin(ValueOrZero(pr, p, d))
    ensures Dot(w, v, n) == Fin(ShiftedMix(pr, i, m, r, d, n))
  {
    if n > 0 { WeightedDot(pr, i, m, r, d, w, v, n - 1); }
  }

  lemma {:induction false} GoldenContextIs(pr: Problem, i: nat, d: nat)
    requires pr.Valid() && i < pr.Len() && d < MODEL_DIM
    ensures GoldenContext(pr, i, d) == Fin(Mix(pr, i, d, i + 1))
  {
    var n := pr.Len();
    MaxIsFinite(pr, i, n);
    var m := NpMax(MaskedScores(pr, i), n).r;
    ShiftedWeight(pr, i, m, n, i);
    var r := 1.0 / ShiftedMass(pr, i, m, n);
    var w := StableSoftmax(pr, MaskedScores(pr, i));
    forall p | 0 <= p < n ensures w[p] == Fin(Shifted(pr, i, m, p) * r) { SoftmaxLane(pr, i, m, r, p); }
    WeightedDot(pr, i, m, r, d, w, ValueColumn(pr, d), n);
    ShiftedMixIsMix(pr, i, m, r, d, n, n);
  }

  /** The reference's masked, max-shifted, full-length softmax is causal attention. */
  lemma GoldenIsCausalAttention(pr: Problem, i: nat, d: nat)
    requires pr.Valid() && i < pr.Len() && d < MODEL_DIM
    ensures GoldenResidual(pr, i, d) == Fin(AttnResidual(pr, i, d))
  {
    forall e | 0 <= e < MODEL_DIM
      ensures GoldenContextRow(pr, i)[e] == Fin(Context(pr, i)[e])
    {
      GoldenContextIs(pr, i, e);
    }
    DotOfReals(GoldenContextRow(pr, i), FinRow(pr.wqT[d]), Context(pr, i), pr.wqT[d], MODEL_DIM);
    DotRCommutes(Context(pr, i), pr.wqT[d], MODEL_DIM);
  }

  lemma {:induction false} DotOfReals(a: Vec, b: Vec, x: Row, y: Row, n: nat)
    requires |a| == |b| == MODEL_DIM && n <= MODEL_DIM
    requires forall j :: 0 <= j < MODEL_DIM ==> a[j] == Fin(x[j]) && b[j] == Fin(y[j])
    ensures Dot(a, b, n) == Fin(DotR(x, y, n))
  {
    if n > 0 { DotOfReals(a, b, x, y, n - 1); }
  }

  lemma {:induction false} DotRCommutes(a: Row, b: Row, n: nat)
    requires n <= MODEL_DIM
    ensures DotR(a, b, n) == DotR(b, a, n)
  {
    if n > 0 { DotRCommutes(a, b, n - 1); }
  }
}
