/** The encoder layer on a device that does not round and whose kernels compute what their C code computes: from the
    attention context on, every stage is the reference's formula over the reals. */
module BertReals {
  import opened Arithmetic
  import opened Numbers
  import opened D = Device
  import opened BertBanks
  import opened HeadAttention
  import opened BertAttention
  import opened BertLayer
  import opened AttentionReference
  import K = VectorKernels
  import L = LayernormTiles
  import T = TiledMvm

  predicate GeluMatches(c: Config, m: K.Math, x: real)
  {
    c.k.gelu(Fin(x)) == Fin(K.GeluOf(m, x))
  }

  ghost predicate NormMatches(c: Config, m: K.Math, x: Reals, gamma: Reals, beta: Reals)
    requires K.MathLaws(m) && x != [] && |gamma| == |beta| == |x|
  {
    StdPositive(m, x);
    forall i :: 0 <= i < |x| ==>
      c.k.layernorm(Lift(x), Lift(gamma), Lift(beta), i) == Fin(K.LayernormVec(m, x, gamma, beta)[i])
  }

  ghost predicate PlainKernels(c: Config, m: K.Math)
  {
    K.MathLaws(m) && (forall x :: Rnd(c, x) == x) && (forall x: real :: GeluMatches(c, m, x)) &&
    forall x: Reals, gamma: Reals, beta: Reals ::
      x != [] && |gamma| == |beta| == |x| ==> NormMatches(c, m, x, gamma, beta)
  }

  lemma StdPositive(m: K.Math, x: Reals)
    requires K.MathLaws(m) && x != []
    ensures m.sqrt(K.Variance(x) + K.EPS) > 0.0
  {
    K.VarianceNotNegative(x);
    K.SqrtPositive(m, K.Variance(x) + K.EPS);
  }

  // ---- The reference over the reals ----

  /** W x + b. */
  function Affine(w: seq<Reals>, b: Reals, x: Reals): (y: Reals)
    requires |w| == |b|
    ensures |y| == |w| && forall i :: 0 <= i < |y| ==> y[i] == Inner(w[i], x, |x|) + b[i]
  {
    seq(|w|, i requires 0 <= i < |w| => Inner(w[i], x, |x|) + b[i])
  }

  /** W_o gelu(W_i x + b_i) + b_o. */
  function FeedForwardOf(m: K.Math, wi: seq<Reals>, bi: Reals, wo: seq<Reals>, bo: Reals, x: Reals): (y: Reals)
    requires |wi| == |bi| && |wo| == |bo|
  {
    Affine(wo, bo, K.GeluVec(m, Affine(wi, bi, x)))
  }

  /** Where row tile t begins. */
  function First(t: nat, n: nat): nat
  {
    if t == 0 then 0 else n
  }

  /** Row tile t of a row. */
  function TileOf(x: Reals, t: nat, n: nat): (r: Reals)
    requires t <= 1 && First(t, n) + n <= |x|
    ensures |r| == n && forall i :: 0 <= i < n ==> r[i] == x[First(t, n) + i]
  {
    x[First(t, n)..First(t, n) + n]
  }

  ghost function NormOf(m: K.Math, x: Reals, gamma: Reals, beta: Reals): (y: Reals)
    requires K.MathLaws(m) && x != [] && |gamma| == |beta| == |x|
    ensures |y| == |x|
  {
    StdPositive(m, x);
    K.LayernormVec(m, x, gamma, beta)
  }

  // ---- Stage by stage ----

  lemma RowLane(c: Config, inp: Input, tiles: seq<Vec>, t: nat, i: nat)
    requires inp.Fits(c) && |tiles| == inp.nt && (forall k :: 0 <= k < inp.nt ==> |tiles[k]| == inp.n)
    requires t < inp.nt && i < inp.n
    ensures |Row(tiles)| == inp.Width() && First(t, inp.n) + i < inp.Width()
    ensures Row(tiles)[First(t, inp.n) + i] == tiles[t][i]
  {
  }

  /** Lane i of row tile t is where it belongs in the row y. */
  predicate LaneIs(inp: Input, tiles: seq<Vec>, y: Reals, t: nat, i: nat)
  {
    t < |tiles| && i < |tiles[t]| && First(t, inp.n) + i < |y| && tiles[t][i] == Fin(y[First(t, inp.n) + i])
  }

  lemma SameRow(c: Config, inp: Input, tiles: seq<Vec>, y: Reals)
    requires inp.Fits(c) && |tiles| == inp.nt && (forall k :: 0 <= k < inp.nt ==> |tiles[k]| == inp.n)
    requires |y| == inp.Width() && forall t, i :: 0 <= t < inp.nt && 0 <= i < inp.n ==> LaneIs(inp, tiles, y, t, i)
    ensures Row(tiles) == Lift(y)
  {
    assert inp.Width() == if inp.nt == 1 then inp.n else inp.n + inp.n;
    var row := Row(tiles);
    assert |row| == |y|;
    forall k | 0 <= k < |y| ensures row[k] == Fin(y[k]) {
      var t := if k < inp.n then 0 else 1;
      assert LaneIs(inp, tiles, y, t, k - First(t, inp.n));
    }
  }

  lemma ThroughReals(c: Config, inp: Input, pr: Projection, tiles: seq<Vec>, w: seq<Reals>, b: Reals, x: Reals)
    requires inp.Fits(c) && Exact(c) && GoodProjection(c, inp, pr) && |tiles| == inp.nt && Exacts(c, tiles)
    requires (forall x :: Rnd(c, x) == x) && pr.w == LiftAll(w) && pr.b == Lift(b) && Row(tiles) == Lift(x)
    ensures |w| == |b| && Row(Through(c, inp, pr, tiles)) == Lift(Affine(w, b, x))
  {
    RowExact(c, inp, tiles);
    var out, y := Through(c, inp, pr, tiles), Affine(w, b, x);
    forall t, i | 0 <= t < inp.nt && 0 <= i < inp.n ensures LaneIs(inp, out, y, t, i) {
      ThroughLane(c, inp, pr, tiles, w, b, x, t, i);
    }
    hide T.GoldenTile, Affine, Through, Row, Fixed, Rnd;
    SameRow(c, inp, out, y);
  }

  lemma ThroughLane(c: Config, inp: Input, pr: Projection, tiles: seq<Vec>, w: seq<Reals>, b: Reals, x: Reals, t: nat,
                    i: nat)
    requires inp.Fits(c) && Exact(c) && GoodProjection(c, inp, pr) && |tiles| == inp.nt && Exacts(c, tiles)
    requires (forall x :: Rnd(c, x) == x) && pr.w == LiftAll(w) && pr.b == Lift(b) && Row(tiles) == Lift(x)
    requires |w| == |b| && t < inp.nt && i < inp.n
    ensures LaneIs(inp, Through(c, inp, pr, tiles), Affine(w, b, x), t, i)
  {
    var p := T.Problem(pr.w, Row(tiles), pr.b, inp.nt, inp.n);
    assert p.At(t) == First(t, inp.n);
    ThroughTile(c, inp, pr, tiles, t);
    hide inp.Fits, Exact, GoodProjection, Exacts, T.GoldenTile, Row, Affine, Through, LiftAll, Lift, Rnd;
    ProductLane(c, p, w, b, x, t, i);
  }

  lemma ThroughTile(c: Config, inp: Input, pr: Projection, tiles: seq<Vec>, t: nat)
    requires inp.Fits(c) && Exact(c) && GoodProjection(c, inp, pr) && |tiles| == inp.nt && Exacts(c, tiles)
    requires t < inp.nt
    ensures |Row(tiles)| == inp.Width() && T.Problem(pr.w, Row(tiles), pr.b, inp.nt, inp.n).Valid(c)
    ensures Through(c, inp, pr, tiles)[t] == T.GoldenTile(c, T.Problem(pr.w, Row(tiles), pr.b, inp.nt, inp.n), t)
  {
    hide Fixed, RowStart, T.GoldenTile, Row, RoundingIdempotent;
    RowExact(c, inp, tiles);
  }

  lemma ProductLane(c: Config, p: T.Problem, w: seq<Reals>, b: Reals, x: Reals, t: nat, i: nat)
    requires p.Valid(c) && (forall x :: Rnd(c, x) == x) && t < p.nt && i < p.n
    requires p.w == LiftAll(w) && p.b == Lift(b) && p.x == Lift(x)
    ensures |w| == |b| == |x| && p.At(t) + i < |w|
    ensures T.GoldenTile(c, p, t)[i] == Fin(Affine(w, b, x)[p.At(t) + i])
  {
    var k := p.At(t) + i;
    assert p.Size() == if p.nt == 1 then p.n else p.n + p.n;
    hide Dot, T.GoldenTile, Inner, Rnd, Fixed, Affine;
    T.GoldenTileIsProduct(c, p, t, i);
    assert p.w[k] == Lift(w[k]) && |w[k]| == |x|;
    DotLift(p.w[k], p.x, w[k], x, |x|);
    AffineLane(w, b, x, k);
  }

  lemma {:induction false} AffineLane(w: seq<Reals>, b: Reals, x: Reals, k: nat)
    requires |w| == |b| && k < |w|
    ensures Affine(w, b, x)[k] == K.Total(|x|, K.Product(w[k], x, 0)) + b[k]
  {
  }

  /** A feed-forward lane is GELU of the lane, not any other activation. */
  lemma GelusReals(c: Config, m: K.Math, inp: Input, tiles: seq<Vec>, x: Reals)
    requires inp.Fits(c) && Exact(c) && |tiles| == inp.nt && Exacts(c, tiles) && PlainKernels(c, m)
    requires Row(tiles) == Lift(x)
    ensures Row(Gelus(c, tiles)) == Lift(K.GeluVec(m, x))
  {
    var out := Gelus(c, tiles);
    RowLane(c, inp, tiles, 0, 0);
    hide K.GeluOf, Fixed, RowStart, PlainKernels, K.GeluVec, Gelus, Row, inp.Fits;
    forall t, i | 0 <= t < inp.nt && 0 <= i < inp.n ensures LaneIs(inp, out, K.GeluVec(m, x), t, i) {
      GeluLane(c, m, inp, tiles, x, t, i);
    }
    GeluLength(m, x);
    SameRow(c, inp, out, K.GeluVec(m, x));
  }

  lemma GeluLength(m: K.Math, x: Reals)
    ensures |K.GeluVec(m, x)| == |x|
  {
  }

  lemma GeluLane(c: Config, m: K.Math, inp: Input, tiles: seq<Vec>, x: Reals, t: nat, i: nat)
    requires inp.Fits(c) && Exact(c) && |tiles| == inp.nt && Exacts(c, tiles) && PlainKernels(c, m)
    requires Row(tiles) == Lift(x) && t < inp.nt && i < inp.n
    ensures LaneIs(inp, Gelus(c, tiles), K.GeluVec(m, x), t, i)
  {
    hide K.GeluOf, Fixed, RowStart;
    RowLane(c, inp, tiles, t, i);
    assert GeluMatches(c, m, x[First(t, inp.n) + i]);
    hide Row, inp.Fits;
  }

  lemma ResidualReals(c: Config, inp: Input, a: seq<Vec>, b: seq<Vec>, x: Reals, y: Reals)
    requires inp.Fits(c) && Exact(c) && |a| == |b| == inp.nt && Exacts(c, a) && Exacts(c, b)
    requires (forall x :: Rnd(c, x) == x) && Row(a) == Lift(x) && Row(b) == Lift(y)
    ensures |x| == |y| && Row(Residual(c, a, b)) == Lift(K.AddVec(x, y))
  {
    hide Fixed;
    var out := Residual(c, a, b);
    RowLane(c, inp, a, 0, 0);
    RowLane(c, inp, b, 0, 0);
    hide Row, RowStart, Residual;
    forall t, i | 0 <= t < inp.nt && 0 <= i < inp.n ensures LaneIs(inp, out, K.AddVec(x, y), t, i) {
      ResidualLane(c, inp, a, b, x, y, t, i);
    }
    SameRow(c, inp, out, K.AddVec(x, y));
  }

  lemma ResidualLane(c: Config, inp: Input, a: seq<Vec>, b: seq<Vec>, x: Reals, y: Reals, t: nat, i: nat)
    requires inp.Fits(c) && Exact(c) && |a| == |b| == inp.nt && Exacts(c, a) && Exacts(c, b) && |x| == |y|
    requires (forall x :: Rnd(c, x) == x) && Row(a) == Lift(x) && Row(b) == Lift(y) && t < inp.nt && i < inp.n
    ensures LaneIs(inp, Residual(c, a, b), K.AddVec(x, y), t, i)
  {
    hide Fixed, RowStart;
    RowLane(c, inp, a, t, i);
    RowLane(c, inp, b, t, i);
    hide Row;
  }

  lemma TileIs(c: Config, inp: Input, tiles: seq<Vec>, x: Reals, t: nat)
    requires inp.Fits(c) && |tiles| == inp.nt && (forall k :: 0 <= k < inp.nt ==> |tiles[k]| == inp.n)
    requires Row(tiles) == Lift(x) && t < inp.nt
    ensures First(t, inp.n) + inp.n <= |x| && tiles[t] == Lift(TileOf(x, t, inp.n))
  {
    RowLane(c, inp, tiles, 0, 0);
    forall i | 0 <= i < inp.n ensures tiles[t][i] == Lift(TileOf(x, t, inp.n))[i] {
      RowLane(c, inp, tiles, t, i);
    }
  }

  lemma NormalisedReals(c: Config, m: K.Math, inp: Input, nrm: Norm, tiles: seq<Vec>, x: Reals, gamma: seq<Reals>,
                        beta: seq<Reals>, t: nat)
    requires inp.Fits(c) && Exact(c) && |tiles| == inp.nt && Exacts(c, tiles) && PlainKernels(c, m) && t < inp.nt
    requires GoodNorm(c, inp, nrm) && nrm.gamma == LiftAll(gamma) && nrm.beta == LiftAll(beta) && Row(tiles) == Lift(x)
    ensures |gamma| == |beta| == inp.nt && First(t, inp.n) + inp.n <= |x| && |gamma[t]| == |beta[t]| == inp.n
    ensures Normalised(c, nrm, tiles)[t] == Lift(NormOf(m, TileOf(x, t, inp.n), gamma[t], beta[t]))
  {
    hide Fixed;
    TileIs(c, inp, tiles, x, t);
    assert |nrm.gamma[t]| == |gamma[t]| && |nrm.beta[t]| == |beta[t]|;
    var v := TileOf(x, t, inp.n);
    assert NormMatches(c, m, v, gamma[t], beta[t]);
    var p := L.Problem(tiles, nrm.gamma, nrm.beta);
    hide K.LayernormVec, K.Variance;
    assert forall i :: 0 <= i < inp.n ==> L.Normed(c, p, t)[i] == Fin(NormOf(m, v, gamma[t], beta[t])[i]);
  }

  // ---- The layer ----

  /** The layer's parameters as real numbers. */
  datatype RealLayer = RealLayer(so: seq<Reals>, sob: Reals, wi: seq<Reals>, wib: Reals, wo: seq<Reals>, wob: Reals,
                                 gamma1: seq<Reals>, beta1: seq<Reals>, gamma2: seq<Reals>, beta2: seq<Reals>)

  ghost predicate Holding(l: Layer, r: RealLayer)
  {
    l.so.w == LiftAll(r.so) && l.so.b == Lift(r.sob) && l.wi.w == LiftAll(r.wi) && l.wi.b == Lift(r.wib) &&
    l.wo.w == LiftAll(r.wo) && l.wo.b == Lift(r.wob) && l.ln1.gamma == LiftAll(r.gamma1) &&
    l.ln1.beta == LiftAll(r.beta1) && l.ln2.gamma == LiftAll(r.gamma2) && l.ln2.beta == LiftAll(r.beta2)
  }

  /** From the attention context z and the input row x to the first normalised row. */
  lemma AttendedReals(c: Config, m: K.Math, inp: Input, l: Layer, r: RealLayer, pos: nat, headSize: nat, z: Reals,
                      x: Reals, t: nat)
    requires GoodLayer(c, inp, l) && pos < |inp.x| && PlainKernels(c, m) && Holding(l, r) && t < inp.nt
    requires Row(ContextTiles(c, inp, l.w, pos, headSize)) == Lift(z) && inp.x[pos] == Lift(x)
    ensures |r.so| == |r.sob| == |x| && |r.gamma1| == |r.beta1| == inp.nt && First(t, inp.n) + inp.n <= |x|
    ensures |r.gamma1[t]| == |r.beta1[t]| == inp.n
    ensures Attended(c, inp, l, pos, headSize)[t]
         == Lift(NormOf(m, TileOf(K.AddVec(Affine(r.so, r.sob, z), x), t, inp.n), r.gamma1[t], r.beta1[t]))
  {
    hide Fixed, K.LayernormVec, K.Variance, HeadTile, Sound;
    var ctx := ContextTiles(c, inp, l.w, pos, headSize);
    ThroughReals(c, inp, l.so, ctx, r.so, r.sob, z);
    var so, row := Through(c, inp, l.so, ctx), InputTiles(c, inp, pos);
    InputRow(c, inp, pos);
    ResidualReals(c, inp, so, row, Affine(r.so, r.sob, z), x);
    NormalisedReals(c, m, inp, l.ln1, Residual(c, so, row), K.AddVec(Affine(r.so, r.sob, z), x), r.gamma1, r.beta1, t);
  }

  lemma InputRow(c: Config, inp: Input, pos: nat)
    requires inp.Fits(c) && pos < |inp.x| && |inp.x[pos]| == inp.Width() && Fixed(c, inp.x[pos])
    ensures Row(InputTiles(c, inp, pos)) == inp.x[pos]
  {
    hide Fixed, RowStart, InputTiles;
    var tiles, x, n := InputTiles(c, inp, pos), inp.x[pos], inp.n;
    if inp.nt == 1 {
      assert x[..n] == x;
    } else {
      assert tiles[0] + tiles[1] == x[..n] + x[n..] == x;
    }
  }

  /** From the first normalised row a to the layer's output: feed-forward with GELU, residual, normalisation. */
  lemma LayerOutReals(c: Config, m: K.Math, inp: Input, l: Layer, r: RealLayer, pos: nat, headSize: nat, a: Reals,
                      x: Reals, t: nat)
    requires GoodLayer(c, inp, l) && pos < |inp.x| && PlainKernels(c, m) && Holding(l, r) && t < inp.nt
    requires Row(Attended(c, inp, l, pos, headSize)) == Lift(a) && inp.x[pos] == Lift(x)
    ensures |r.wi| == |r.wib| == |r.wo| == |r.wob| == |x| && |r.gamma2| == |r.beta2| == inp.nt
    ensures First(t, inp.n) + inp.n <= |x| && |r.gamma2[t]| == |r.beta2[t]| == inp.n
    ensures LayerOut(c, inp, l, pos, headSize)[t]
         == Lift(NormOf(m, TileOf(K.AddVec(FeedForwardOf(m, r.wi, r.wib, r.wo, r.wob, a), x), t, inp.n), r.gamma2[t],
                        r.beta2[t]))
  {
    hide Fixed, K.LayernormVec, K.Variance, Attended, Sound, K.GeluOf;
    var tiles := Attended(c, inp, l, pos, headSize);
    ThroughReals(c, inp, l.wi, tiles, r.wi, r.wib, a);
    var inner := Through(c, inp, l.wi, tiles);
    GelusReals(c, m, inp, inner, Affine(r.wi, r.wib, a));
    var act := Gelus(c, inner);
    var hidden := K.GeluVec(m, Affine(r.wi, r.wib, a));
    ThroughReals(c, inp, l.wo, act, r.wo, r.wob, hidden);
    var out, row := Through(c, inp, l.wo, act), InputTiles(c, inp, pos);
    InputRow(c, inp, pos);
    ResidualReals(c, inp, out, row, Affine(r.wo, r.wob, hidden), x);
    NormalisedReals(c, m, inp, l.ln2, Residual(c, out, row), K.AddVec(Affine(r.wo, r.wob, hidden), x), r.gamma2,
                    r.beta2, t);
  }
}
