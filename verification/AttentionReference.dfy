/** One head of the firmware against the NumPy reference, over exact reals.  The reference masks the padding behind
    the sequence before its softmax; the firmware's softmax also runs over the zero scores of the padding rows. */
module AttentionReference {
  import opened Arithmetic
  import opened Numbers
  import opened D = Device
  import opened Transpose
  import opened HeadAttention
  import K = VectorKernels

  type Reals = seq<real>

  function Lift(v: Reals): (w: Vec)
    ensures |w| == |v| && forall i :: 0 <= i < |v| ==> w[i] == Fin(v[i])
  {
    seq(|v|, i requires 0 <= i < |v| => Fin(v[i]))
  }

  function LiftAll(rows: seq<Reals>): (w: seq<Vec>)
    ensures |w| == |rows| && forall i :: 0 <= i < |rows| ==> w[i] == Lift(rows[i])
  {
    seq(|rows|, i requires 0 <= i < |rows| => Lift(rows[i]))
  }

  /** The device with the proved softmax kernel and no rounding. */
  ghost predicate ExactDevice(c: Config, m: K.Math)
  {
    K.MathLaws(m) && (forall x :: Rnd(c, x) == x) &&
    forall v: Reals, i: nat :: i < |v| ==> SoftmaxMatches(c, m, v, i)
  }

  ghost predicate SoftmaxMatches(c: Config, m: K.Math, v: Reals, i: nat)
    requires K.MathLaws(m) && i < |v|
  {
    c.k.softmax(Lift(v), i) == Fin(K.SoftmaxAt(m, v, i))
  }

  predicate Rows(rows: seq<Reals>, n: nat)
  {
    forall i :: 0 <= i < |rows| ==> |rows[i]| == n
  }

  // ---- The reference ----

  function Inner(a: Reals, b: Reals, n: nat): real
  {
    K.Total(n, K.Product(a, b, 0))
  }

  /** Scores of the keys that fit the tile. */
  function Scores(k: seq<Reals>, q: Reals, n: nat): (s: Reals)
    ensures |s| == Min(|k|, n)
  {
    seq(Min(|k|, n), p requires 0 <= p < Min(|k|, n) => Inner(k[p], q, n))
  }

  /** Softmax weight times value element j, position by position. */
  ghost function Weighted(m: K.Math, s: Reals, v: seq<Reals>, j: nat): int -> real
    requires K.MathLaws(m) && |s| <= |v|
  {
    p => if 0 <= p < |s| then K.At(v[p], j) * K.SoftmaxAt(m, s, p) else 0.0
  }

  /** Element j of a context: positions behind the sequence have weight zero. */
  ghost function TileContext(m: K.Math, k: seq<Reals>, v: seq<Reals>, q: Reals, n: nat, j: nat): real
    requires K.MathLaws(m) && |k| == |v|
  {
    K.Total(|Scores(k, q, n)|, Weighted(m, Scores(k, q, n), v, j))
  }

  /** Sum of the exponentials of the scores. */
  function Mass(m: K.Math, k: seq<Reals>, q: Reals, n: nat): real
  {
    K.Total(|Scores(k, q, n)|, K.ExpOf(m, Scores(k, q, n), 0.0))
  }

  /** Rows of zero scores behind the sequence. */
  function Padding(k: seq<Reals>, n: nat): nat
  {
    if |k| < n then n - |k| else 0
  }

  /** The share of the firmware's softmax mass that falls on the sequence. */
  function Share(m: K.Math, k: seq<Reals>, q: Reals, n: nat): real
  {
    var all := Mass(m, k, q, n) + Padding(k, n) as real;
    if all == 0.0 then 0.0 else Mass(m, k, q, n) / all
  }

  // ---- The firmware's numbers ----

  lemma {:induction false} DotLift(a: Vec, b: Vec, x: Reals, y: Reals, n: nat)
    requires n <= |x| && n <= |y| && n <= |a| && n <= |b|
    requires forall i :: 0 <= i < n ==> a[i] == Fin(x[i]) && b[i] == Fin(y[i])
    ensures Dot(a, b, n) == Fin(K.Total(n, K.Product(x, y, 0)))
  {
    if n > 0 { DotLift(a, b, x, y, n - 1); }
  }

  function ZeroReals(n: nat): (z: Reals)
    ensures |z| == n && forall i :: 0 <= i < n ==> z[i] == 0.0
  {
    seq(n, i => 0.0)
  }

  lemma {:induction false} TotalOfZeros(n: nat, f: int -> real)
    requires forall i :: 0 <= i < n ==> f(i) == 0.0
    ensures K.Total(n, f) == 0.0
  {
    if n > 0 { TotalOfZeros(n - 1, f); }
  }

  /** What the device's softmax sees: the scores, then a zero for every padding row. */
  function Padded(k: seq<Reals>, q: Reals, n: nat): (s: Reals)
    ensures |s| == n
  {
    Scores(k, q, n) + ZeroReals(n - |Scores(k, q, n)|)
  }

  lemma ScoresAre(c: Config, m: K.Math, k: seq<Reals>, q: Reals)
    requires ExactDevice(c, m) && Rows(k, c.dim) && |q| == c.dim
    ensures KeyScores(c, LiftAll(k), Lift(q)) == Lift(Padded(k, q, c.dim))
  {
    var n := c.dim;
    forall i | 0 <= i < n
      ensures KeyScores(c, LiftAll(k), Lift(q))[i] == Fin(Padded(k, q, n)[i])
    {
      if i < |k| {
        DotLift(Lift(k[i]), Lift(q), k[i], q, n);
      } else {
        DotLift(Zeros(n), Lift(q), ZeroReals(n), q, n);
        TotalOfZeros(n, K.Product(ZeroReals(n), q, 0));
      }
    }
  }

  lemma ProbabilitiesAre(c: Config, m: K.Math, k: seq<Reals>, q: Reals, p: nat)
    requires ExactDevice(c, m) && Rows(k, c.dim) && |q| == c.dim && p < c.dim
    ensures Probabilities(c, LiftAll(k), Lift(q))[p] == Fin(K.SoftmaxAt(m, Padded(k, q, c.dim), p))
  {
    ScoresAre(c, m, k, q);
    assert SoftmaxMatches(c, m, Padded(k, q, c.dim), p);
    hide KeyScores, Padded;
  }

  lemma ExpZero(m: K.Math)
    requires K.MathLaws(m)
    ensures m.exp(0.0) == 1.0
  {
    assert m.exp(0.0 - 0.0) * m.exp(0.0) == m.exp(0.0);
  }

  lemma {:induction false} MassWithZeros(m: K.Math, s: Reals, pad: nat)
    requires K.MathLaws(m)
    ensures K.Total(|s| + pad, K.ExpOf(m, s, 0.0)) == K.Total(|s|, K.ExpOf(m, s, 0.0)) + pad as real
  {
    hide K.MathLaws;
    if pad > 0 {
      MassWithZeros(m, s, pad - 1);
      ExpZero(m);
      assert K.ExpOf(m, s, 0.0)(|s| + pad - 1) == m.exp(0.0);
    }
  }

  lemma {:induction false} PaddedMass(m: K.Math, k: seq<Reals>, q: Reals, n: nat)
    requires K.MathLaws(m)
    ensures K.Total(n, K.ExpOf(m, Padded(k, q, n), 0.0)) == Mass(m, k, q, n) + Padding(k, n) as real
    ensures Mass(m, k, q, n) >= 0.0 && (n > 0 ==> Mass(m, k, q, n) + Padding(k, n) as real > 0.0)
    ensures |k| > 0 && n > 0 ==> Mass(m, k, q, n) > 0.0
  {
    hide K.MathLaws;
    var s := Scores(k, q, n);
    K.MassPositive(m, s, 0.0);
    forall i | 0 <= i < n ensures K.ExpOf(m, Padded(k, q, n), 0.0)(i) == K.ExpOf(m, s, 0.0)(i) {
      assert K.At(Padded(k, q, n), i) == K.At(s, i);
    }
    K.TotalSame(n, K.ExpOf(m, Padded(k, q, n), 0.0), K.ExpOf(m, s, 0.0));
    MassWithZeros(m, s, Padding(k, n));
    if s == [] { assert K.Total(0, K.ExpOf(m, s, 0.0)) == 0.0; }
  }

  /** Padding rows shrink every weight by one factor. */
  lemma WeightShrinks(m: K.Math, k: seq<Reals>, q: Reals, n: nat, p: nat)
    requires K.MathLaws(m) && p < |k| && p < n
    ensures K.SoftmaxAt(m, Padded(k, q, n), p) == K.SoftmaxAt(m, Scores(k, q, n), p) * Share(m, k, q, n)
  {
    hide K.MathLaws, K.Total, K.ExpOf, K.Product;
    PaddedMass(m, k, q, n);
    var s := Scores(k, q, n);
    assert Padded(k, q, n)[p] == s[p];
    Shrink(m.exp(s[p]), Mass(m, k, q, n), Mass(m, k, q, n) + Padding(k, n) as real);
  }

  lemma Shrink(e: real, mass: real, all: real)
    requires mass > 0.0 && all > 0.0
    ensures e / all == (e / mass) * (mass / all)
  {
    var x, y := e / mass, mass / all;
    assert x * mass == e && y * all == mass;
    assert (x * y) * all == x * (y * all);
    K.Quotient(x * y, e, all);
  }

  function RealRow(v: seq<Reals>, headSize: nat, n: nat, j: nat): (r: Reals)
    ensures |r| == n
  {
    seq(n, p requires 0 <= p < n => if j < headSize && p < |v| then K.At(v[p], j) else 0.0)
  }

  lemma ValueRowIs(c: Config, v: seq<Reals>, headSize: nat, j: nat)
    requires Rows(v, c.dim) && headSize <= c.dim && j < c.dim
    ensures ValueRow(c, LiftAll(v), headSize, j) == Lift(RealRow(v, headSize, c.dim, j))
  {
    forall p | 0 <= p < c.dim
      ensures ValueRow(c, LiftAll(v), headSize, j)[p] == Fin(RealRow(v, headSize, c.dim, j)[p])
    {
      if p < |v| { assert OthersFinite(Lift(v[p]), j); }
    }
  }

  ghost function DeviceWeights(m: K.Math, s: Reals): (w: Reals)
    requires K.MathLaws(m)
    ensures |w| == |s| && forall p :: 0 <= p < |s| ==> w[p] == K.SoftmaxAt(m, s, p)
  {
    seq(|s|, p requires 0 <= p < |s| => K.SoftmaxAt(m, s, p))
  }

  /** Element j of the device's context as a sum over the tile. */
  lemma ContextSum(c: Config, m: K.Math, k: seq<Reals>, v: seq<Reals>, q: Reals, headSize: nat, j: nat)
    requires ExactDevice(c, m) && Rows(k, c.dim) && Rows(v, c.dim) && |q| == c.dim && headSize <= c.dim && j < c.dim
    ensures HeadContext(c, LiftAll(k), LiftAll(v), Lift(q), headSize)[j]
         == Fin(K.Total(c.dim, K.Product(RealRow(v, headSize, c.dim, j), DeviceWeights(m, Padded(k, q, c.dim)), 0)))
  {
    var n := c.dim;
    ValueRowIs(c, v, headSize, j);
    var w := DeviceWeights(m, Padded(k, q, n));
    forall p | 0 <= p < n
      ensures Probabilities(c, LiftAll(k), Lift(q))[p] == Fin(w[p])
    {
      ProbabilitiesAre(c, m, k, q, p);
    }
    hide Probabilities, ValueRow, Padded, RealRow;
    DotLift(ValueRow(c, LiftAll(v), headSize, j), Probabilities(c, LiftAll(k), Lift(q)),
            RealRow(v, headSize, n, j), w, n);
  }

  /** Terms behind the last position vanish. */
  lemma {:induction false} TotalCut(n: nat, len: nat, f: int -> real)
    requires len <= n && forall i :: len <= i < n ==> f(i) == 0.0
    ensures K.Total(n, f) == K.Total(len, f)
    decreases n
  {
    if n > len { TotalCut(n - 1, len, f); }
  }

  lemma ExactLaws(c: Config, m: K.Math)
    requires ExactDevice(c, m)
    ensures K.MathLaws(m)
  {
  }

  /** The firmware's context is attention over the whole tile, shrunk by the softmax mass of the padding; lanes beyond
      the head are zero. */
  lemma TileIsDiluted(c: Config, m: K.Math, k: seq<Reals>, v: seq<Reals>, q: Reals, headSize: nat, j: nat)
    requires ExactDevice(c, m) && Rows(k, c.dim) && Rows(v, c.dim) && |k| == |v| && |q| == c.dim
    requires headSize <= c.dim && j < c.dim
    ensures HeadContext(c, LiftAll(k), LiftAll(v), Lift(q), headSize)[j]
         == Fin(if j < headSize then TileContext(m, k, v, q, c.dim, j) * Share(m, k, q, c.dim) else 0.0)
  {
    hide *;
    ExactLaws(c, m);
    ContextSum(c, m, k, v, q, headSize, j);
    if j < headSize {
      MixShrinks(m, k, v, q, headSize, c.dim, j);
    } else {
      NothingBeyond(m, v, DeviceWeights(m, Padded(k, q, c.dim)), headSize, c.dim, j);
    }
  }

  lemma NothingBeyond(m: K.Math, v: seq<Reals>, w: Reals, headSize: nat, n: nat, j: nat)
    requires headSize <= j < n
    ensures K.Total(n, K.Product(RealRow(v, headSize, n, j), w, 0)) == 0.0
  {
    TotalOfZeros(n, K.Product(RealRow(v, headSize, n, j), w, 0));
  }

  lemma MixShrinks(m: K.Math, k: seq<Reals>, v: seq<Reals>, q: Reals, headSize: nat, n: nat, j: nat)
    requires K.MathLaws(m) && |k| == |v| && j < headSize <= n
    ensures K.Total(n, K.Product(RealRow(v, headSize, n, j), DeviceWeights(m, Padded(k, q, n)), 0))
         == TileContext(m, k, v, q, n, j) * Share(m, k, q, n)
  {
    hide K.MathLaws, K.Total, Share, K.Product, Weighted, RealRow, DeviceWeights, Padded;
    var s, share := Scores(k, q, n), Share(m, k, q, n);
    var f, g := K.Product(RealRow(v, headSize, n, j), DeviceWeights(m, Padded(k, q, n)), 0), Weighted(m, s, v, j);
    forall p | 0 <= p < n ensures if p < |s| then f(p) == g(p) * share else f(p) == 0.0 {
      TermShrinks(m, k, v, q, headSize, n, j, p);
    }
    TotalCut(n, |s|, f);
    K.TotalScaled(|s|, f, g, share);
  }

  lemma TermShrinks(m: K.Math, k: seq<Reals>, v: seq<Reals>, q: Reals, headSize: nat, n: nat, j: nat, p: nat)
    requires K.MathLaws(m) && |k| == |v| && j < headSize <= n && p < n
    ensures var f := K.Product(RealRow(v, headSize, n, j), DeviceWeights(m, Padded(k, q, n)), 0);
            if p < |Scores(k, q, n)| then f(p) == Weighted(m, Scores(k, q, n), v, j)(p) * Share(m, k, q, n)
            else f(p) == 0.0
  {
    hide K.MathLaws, K.Total, Share, K.SoftmaxAt;
    var w := DeviceWeights(m, Padded(k, q, n));
    assert K.Product(RealRow(v, headSize, n, j), w, 0)(p) == K.At(RealRow(v, headSize, n, j), p) * w[p];
    if p < |Scores(k, q, n)| {
      WeightShrinks(m, k, q, n, p);
      Reassociate(K.At(v[p], j), K.SoftmaxAt(m, Scores(k, q, n), p), Share(m, k, q, n));
    }
  }

  lemma Reassociate(a: real, b: real, x: real)
    ensures a * (b * x) == a * b * x
  {
  }

  /** All mass falls on the sequence exactly when it leaves no padding. */
  lemma ShareIsOne(m: K.Math, k: seq<Reals>, q: Reals, n: nat)
    requires K.MathLaws(m) && n > 0
    ensures Share(m, k, q, n) == 1.0 <==> |k| >= n
  {
    PaddedMass(m, k, q, n);
    hide K.MathLaws, Mass;
    RatioIsOne(Mass(m, k, q, n), Padding(k, n) as real);
  }

  lemma RatioIsOne(mass: real, pad: real)
    requires mass >= 0.0 && pad >= 0.0 && mass + pad > 0.0
    ensures mass / (mass + pad) == 1.0 <==> pad == 0.0
  {
    var x := mass / (mass + pad);
    assert x * (mass + pad) == mass;
    if pad == 0.0 { K.Quotient(1.0, mass, mass + pad); }
  }

  lemma OnlyOne(g: real, x: real)
    ensures g * x == g <==> x == 1.0 || g == 0.0
  {
    if g * x == g && g != 0.0 { assert g * (x - 1.0) == 0.0; }
  }

  // ---- The reference's heads ----

  /** Bits in the reference's vector mask. */
  const MASK_BITS := 8

  /** The mask of head h selects lane i. */
  predicate InHead(i: nat, headSize: nat, h: nat)
  {
    RowStart(h, headSize) <= i % MASK_BITS < RowStart(h, headSize) + headSize
  }

  /** The lanes of one head; the others read as zero. */
  function HeadLanes(row: Reals, headSize: nat, h: nat): (r: Reals)
    ensures |r| == |row| && forall i :: 0 <= i < |r| ==> r[i] == if InHead(i, headSize, h) then row[i] else 0.0
  {
    seq(|row|, i requires 0 <= i < |row| => if InHead(i, headSize, h) then row[i] else 0.0)
  }

  function AllHeadLanes(rows: seq<Reals>, headSize: nat, h: nat): (r: seq<Reals>)
    ensures |r| == |rows| && forall p :: 0 <= p < |r| ==> r[p] == HeadLanes(rows[p], headSize, h)
  {
    seq(|rows|, p requires 0 <= p < |rows| => HeadLanes(rows[p], headSize, h))
  }

  /** Element j of the reference's context of head h: keys and query masked to the head's lanes. */
  ghost function GoldenHead(m: K.Math, k: seq<Reals>, v: seq<Reals>, q: Reals, n: nat, headSize: nat, h: nat,
                            j: nat): real
    requires K.MathLaws(m) && |k| == |v|
  {
    TileContext(m, AllHeadLanes(k, headSize, h), v, HeadLanes(q, headSize, h), n, j)
  }

  /** Element j of the reference's Z after the first heads of a tile: each adds its context on its own lanes. */
  ghost function GoldenZ(m: K.Math, k: seq<Reals>, v: seq<Reals>, q: Reals, n: nat, headSize: nat, heads: nat,
                         j: nat): real
    requires K.MathLaws(m) && |k| == |v|
  {
    if heads == 0 then 0.0
    else
      GoldenZ(m, k, v, q, n, headSize, heads - 1, j) +
      if InHead(j, headSize, heads - 1) then GoldenHead(m, k, v, q, n, headSize, heads - 1, j) else 0.0
  }

  lemma OneHead(j: nat, headSize: nat, g: nat, h: nat)
    requires InHead(j, headSize, g) && InHead(j, headSize, h)
    ensures g == h
  {
    if g < h { RowBefore(g, h, headSize); }
    if h < g { RowBefore(h, g, headSize); }
  }

  /** A lane gets the context of the one head that owns it. */
  lemma {:induction false} ZOfHead(m: K.Math, k: seq<Reals>, v: seq<Reals>, q: Reals, n: nat, headSize: nat, heads: nat,
                                   j: nat, h: nat)
    requires K.MathLaws(m) && |k| == |v| && InHead(j, headSize, h)
    ensures GoldenZ(m, k, v, q, n, headSize, heads, j)
         == if h < heads then GoldenHead(m, k, v, q, n, headSize, h, j) else 0.0
  {
    hide K.MathLaws, GoldenHead, InHead;
    if heads > 0 {
      ZOfHead(m, k, v, q, n, headSize, heads - 1, j, h);
      if InHead(j, headSize, heads - 1) { OneHead(j, headSize, h, heads - 1); }
    }
  }

  /** A head as wide as the tile masks nothing. */
  lemma WholeHead(m: K.Math, k: seq<Reals>, v: seq<Reals>, q: Reals, n: nat, j: nat)
    requires K.MathLaws(m) && |k| == |v| && Rows(k, n) && |q| == n && j < n
    ensures GoldenHead(m, k, v, q, n, n, 0, j) == TileContext(m, k, v, q, n, j)
    ensures GoldenZ(m, k, v, q, n, n, 1, j) == TileContext(m, k, v, q, n, j)
  {
    hide K.MathLaws, TileContext;
    assert RowStart(0, n) == 0;
    forall i | 0 <= i < n ensures InHead(i, n, 0) { assert i % MASK_BITS <= i; }
    assert HeadLanes(q, n, 0) == q;
    forall p | 0 <= p < |k| ensures HeadLanes(k[p], n, 0) == k[p] { }
    assert AllHeadLanes(k, n, 0) == k;
    ZOfHead(m, k, v, q, n, n, 1, j, 0);
  }

  // ---- Firmware and reference ----

  /** With one head a tile the firmware's context is the reference's, shrunk by the softmax mass of the padding.  With
      a narrower head its lanes hold the same numbers and the lanes beyond it zeros. */
  lemma ContextIsDiluted(c: Config, m: K.Math, k: seq<Reals>, v: seq<Reals>, q: Reals, headSize: nat, j: nat)
    requires ExactDevice(c, m) && Rows(k, c.dim) && Rows(v, c.dim) && |k| == |v| && |q| == c.dim
    requires headSize <= c.dim && j < c.dim
    ensures HeadContext(c, LiftAll(k), LiftAll(v), Lift(q), headSize)[j]
         == Fin(if j < headSize then GoldenZ(m, k, v, q, c.dim, c.dim, 1, j) * Share(m, k, q, c.dim) else 0.0)
  {
    hide *;
    ExactLaws(c, m);
    TileIsDiluted(c, m, k, v, q, headSize, j);
    WholeHead(m, k, v, q, c.dim, j);
  }

  /** With one head a tile an element is right if and only if the sequence fills the tile or the element is zero. */
  lemma ContextAgreesIff(c: Config, m: K.Math, k: seq<Reals>, v: seq<Reals>, q: Reals, j: nat)
    requires ExactDevice(c, m) && Rows(k, c.dim) && Rows(v, c.dim) && |k| == |v| && |q| == c.dim && j < c.dim
    ensures var r := HeadContext(c, LiftAll(k), LiftAll(v), Lift(q), c.dim)[j];
            r == Fin(GoldenZ(m, k, v, q, c.dim, c.dim, 1, j)) <==>
            |k| >= c.dim || GoldenZ(m, k, v, q, c.dim, c.dim, 1, j) == 0.0
  {
    hide *;
    ExactLaws(c, m);
    ContextIsDiluted(c, m, k, v, q, c.dim, j);
    ShareIsOne(m, k, q, c.dim);
    OnlyOne(GoldenZ(m, k, v, q, c.dim, c.dim, 1, j), Share(m, k, q, c.dim));
  }

  /** Inputs of one tile: len positions of n lanes. */
  predicate Shaped(k: seq<Reals>, v: seq<Reals>, q: Reals, len: nat, n: nat)
  {
    |k| == |v| == len && Rows(k, n) && Rows(v, n) && |q| == n
  }

  /** What the loop over the heads of a tile leaves in lane j: nothing if no head fits the tile. */
  function DeviceZ(c: Config, k: seq<Reals>, v: seq<Reals>, q: Reals, headSize: nat, j: nat): Num
    requires Rows(k, c.dim) && Rows(v, c.dim) && |q| == c.dim && j < c.dim
  {
    if headSize <= c.dim then HeadContext(c, LiftAll(k), LiftAll(v), Lift(q), headSize)[j] else ZERO
  }

  ghost predicate LaneAgrees(c: Config, m: K.Math, k: seq<Reals>, v: seq<Reals>, q: Reals, headSize: nat, j: nat)
    requires K.MathLaws(m) && Shaped(k, v, q, |k|, c.dim) && j < c.dim && headSize >= 1
  {
    DeviceZ(c, k, v, q, headSize, j) == Fin(GoldenZ(m, k, v, q, c.dim, headSize, c.dim / headSize, j))
  }

  /** Lane j is right for every keys, values and query of len positions. */
  ghost predicate LaneAlwaysAgrees(c: Config, m: K.Math, len: nat, headSize: nat, j: nat)
    requires K.MathLaws(m) && j < c.dim && headSize >= 1
  {
    forall k, v, q :: Shaped(k, v, q, len, c.dim) ==> LaneAgrees(c, m, k, v, q, headSize, j)
  }

  // ---- Inputs that tell them apart ----

  lemma Disagree(c: Config, m: K.Math, k: seq<Reals>, v: seq<Reals>, q: Reals, headSize: nat, j: nat)
    requires K.MathLaws(m) && Shaped(k, v, q, |k|, c.dim) && j < c.dim && headSize >= 1
    requires DeviceZ(c, k, v, q, headSize, j) != Fin(GoldenZ(m, k, v, q, c.dim, headSize, c.dim / headSize, j))
    ensures !LaneAlwaysAgrees(c, m, |k|, headSize, j)
  {
    hide K.MathLaws, DeviceZ, GoldenZ, Rows;
    assert !LaneAgrees(c, m, k, v, q, headSize, j);
  }

  function Ones(n: nat): (r: Reals)
    ensures |r| == n && forall i :: 0 <= i < n ==> r[i] == 1.0
  {
    seq(n, i => 1.0)
  }

  /** The first row is a, the others b. */
  function FirstThen(len: nat, a: Reals, b: Reals): (r: seq<Reals>)
    ensures |r| == len && forall p :: 0 <= p < len ==> r[p] == if p == 0 then a else b
  {
    seq(len, p => if p == 0 then a else b)
  }

  function UnitReals(n: nat, at: nat): (r: Reals)
    ensures |r| == n && forall i :: 0 <= i < n ==> r[i] == if i == at then 1.0 else 0.0
  {
    seq(n, i => if i == at then 1.0 else 0.0)
  }

  /** Where all values are one, so is every context. */
  lemma OnesStay(m: K.Math, k: seq<Reals>, v: seq<Reals>, q: Reals, n: nat, j: nat)
    requires K.MathLaws(m) && |k| == |v| > 0 && n > 0 && j < n && forall p :: 0 <= p < |v| ==> v[p] == Ones(n)
    ensures TileContext(m, k, v, q, n, j) == 1.0
  {
    hide K.MathLaws, K.Total;
    var s := Scores(k, q, n);
    K.SoftmaxIsDistribution(m, s);
    forall p | 0 <= p < |s| ensures Weighted(m, s, v, j)(p) == K.Elements(K.SoftmaxVec(m, s))(p) {
      assert K.At(v[p], j) == 1.0 && K.SoftmaxVec(m, s)[p] == K.SoftmaxAt(m, s, p);
    }
    K.TotalSame(|s|, Weighted(m, s, v, j), K.Elements(K.SoftmaxVec(m, s)));
  }

  /** Where only the first value is not zero, the context is its weight. */
  lemma FirstWeight(m: K.Math, k: seq<Reals>, v: seq<Reals>, q: Reals, n: nat, j: nat)
    requires K.MathLaws(m) && |k| == |v| > 0 && n > 0 && j < n && v == FirstThen(|v|, Ones(n), ZeroReals(n))
    ensures |Scores(k, q, n)| > 0 && TileContext(m, k, v, q, n, j) == K.SoftmaxAt(m, Scores(k, q, n), 0)
  {
    hide K.MathLaws, K.SoftmaxAt, Scores;
    var s := Scores(k, q, n);
    var f := Weighted(m, s, v, j);
    assert f(0) == K.SoftmaxAt(m, s, 0) by { assert K.At(v[0], j) == 1.0; }
    forall p | 1 <= p < |s| ensures f(p) == 0.0 { assert K.At(v[p], j) == 0.0; }
    TotalCut(|s|, 1, f);
    assert K.Total(1, f) == K.Total(0, f) + f(0);
  }

  lemma {:induction false} TotalOfUnit(n: nat, at: nat, f: int -> real)
    requires forall i :: 0 <= i < n ==> f(i) == if i == at then 1.0 else 0.0
    ensures K.Total(n, f) == if at < n then 1.0 else 0.0
  {
    if n > 0 { TotalOfUnit(n - 1, at, f); }
  }

  /** The softmax weight of a first score among zeros. */
  lemma PeakWeight(m: K.Math, s: Reals)
    requires K.MathLaws(m) && s != [] && forall i :: 1 <= i < |s| ==> s[i] == 0.0
    ensures m.exp(s[0]) > 0.0 && K.SoftmaxAt(m, s, 0) == m.exp(s[0]) / (m.exp(s[0]) + (|s| - 1) as real)
  {
    hide K.MathLaws;
    var first := [s[0]];
    K.ExpPositive(m, s[0]);
    forall i | 0 <= i < |s| ensures K.ExpOf(m, s, 0.0)(i) == K.ExpOf(m, first, 0.0)(i) {
      assert K.At(s, i) == K.At(first, i);
    }
    K.TotalSame(|s|, K.ExpOf(m, s, 0.0), K.ExpOf(m, first, 0.0));
    MassWithZeros(m, first, |s| - 1);
    assert s[0] - 0.0 == s[0];
    assert K.Total(1, K.ExpOf(m, first, 0.0)) == K.Total(0, K.ExpOf(m, first, 0.0)) + m.exp(s[0]);
  }

  /** One unit key among zero keys, asked for by the same unit vector: scores of one, then zeros. */
  lemma UnitScores(len: nat, n: nat, at: nat)
    requires len > 0 && at < n
    ensures var s := Scores(FirstThen(len, UnitReals(n, at), ZeroReals(n)), UnitReals(n, at), n);
            s != [] && s[0] == 1.0 && forall i :: 1 <= i < |s| ==> s[i] == 0.0
  {
    var k, q := FirstThen(len, UnitReals(n, at), ZeroReals(n)), UnitReals(n, at);
    TotalOfUnit(n, at, K.Product(k[0], q, 0));
    forall p | 1 <= p < len ensures Inner(k[p], q, n) == 0.0 { TotalOfZeros(n, K.Product(k[p], q, 0)); }
  }

  /** A query masked to zeros scores zero everywhere. */
  lemma ZeroScores(k: seq<Reals>, q: Reals, n: nat)
    requires forall i :: 0 <= i < |q| ==> q[i] == 0.0
    ensures forall i :: 0 <= i < |Scores(k, q, n)| ==> Scores(k, q, n)[i] == 0.0
  {
    forall p | 0 <= p < |k| ensures Inner(k[p], q, n) == 0.0 { TotalOfZeros(n, K.Product(k[p], q, 0)); }
  }

  /** A lane that no head of the firmware fills but a head of the reference does. */
  lemma LostLane(c: Config, m: K.Math, len: nat, headSize: nat, j: nat, h: nat)
    requires ExactDevice(c, m) && len > 0 && 1 <= headSize <= j < c.dim && InHead(j, headSize, h)
    requires h < c.dim / headSize
    ensures !LaneAlwaysAgrees(c, m, len, headSize, j)
  {
    var n := c.dim;
    var k, v, q := FirstThen(len, ZeroReals(n), ZeroReals(n)), FirstThen(len, Ones(n), Ones(n)), ZeroReals(n);
    hide K.MathLaws, TileContext, HeadContext, Share, InHead;
    assert Shaped(k, v, q, len, n);
    ExactLaws(c, m);
    TileIsDiluted(c, m, k, v, q, headSize, j);
    ZOfHead(m, k, v, q, n, headSize, n / headSize, j, h);
    OnesStay(m, AllHeadLanes(k, headSize, h), v, HeadLanes(q, headSize, h), n, j);
    assert !LaneAgrees(c, m, k, v, q, headSize, j);
  }

  /** A sequence shorter than the tile. */
  lemma PaddingShows(c: Config, m: K.Math, len: nat, headSize: nat, j: nat)
    requires ExactDevice(c, m) && 0 < len < c.dim && j < headSize <= c.dim && j < MASK_BITS
    ensures !LaneAlwaysAgrees(c, m, len, headSize, j)
  {
    var n := c.dim;
    var k, v, q := FirstThen(len, ZeroReals(n), ZeroReals(n)), FirstThen(len, Ones(n), Ones(n)), ZeroReals(n);
    assert InHead(j, headSize, 0) by { assert RowStart(0, headSize) == 0; }
    hide K.MathLaws, TileContext, HeadContext, Share, InHead;
    assert Shaped(k, v, q, len, n);
    ExactLaws(c, m);
    TileIsDiluted(c, m, k, v, q, headSize, j);
    ZOfHead(m, k, v, q, n, headSize, n / headSize, j, 0);
    AtLeastOne(n, headSize);
    OnesStay(m, k, v, q, n, j);
    OnesStay(m, AllHeadLanes(k, headSize, 0), v, HeadLanes(q, headSize, 0), n, j);
    ShareIsOne(m, k, q, n);
    assert !LaneAgrees(c, m, k, v, q, headSize, j);
  }

  lemma AtLeastOne(n: nat, d: nat)
    requires 1 <= d <= n
    ensures n / d >= 1 && (2 * d <= n ==> n / d >= 2)
  {
  }

  /** One key scores one, on a lane outside the first head. */
  function ForeignKeys(len: nat, n: nat, headSize: nat): (k: seq<Reals>)
    ensures |k| == len && Rows(k, n)
  {
    FirstThen(len, UnitReals(n, headSize), ZeroReals(n))
  }

  /** Values that show the weight of the first position. */
  function FirstValues(len: nat, n: nat): (v: seq<Reals>)
    ensures |v| == len && Rows(v, n)
  {
    FirstThen(len, Ones(n), ZeroReals(n))
  }

  /** Attention over the whole tile weighs the first position by its score. */
  lemma TileWeighs(m: K.Math, len: nat, n: nat, headSize: nat, j: nat)
    requires K.MathLaws(m) && len >= n && headSize < n && j < n
    ensures m.exp(1.0) > 0.0
    ensures TileContext(m, ForeignKeys(len, n, headSize), FirstValues(len, n), UnitReals(n, headSize), n, j)
         == m.exp(1.0) / (m.exp(1.0) + (n - 1) as real)
  {
    hide K.MathLaws, K.SoftmaxAt, K.Total, Scores, TileContext;
    var k, v, q := ForeignKeys(len, n, headSize), FirstValues(len, n), UnitReals(n, headSize);
    FirstWeight(m, k, v, q, n, j);
    UnitScores(len, n, headSize);
    PeakWeight(m, Scores(k, q, n));
    ScoreCount(k, q, n);
  }

  lemma FirmwareWeighs(c: Config, m: K.Math, len: nat, headSize: nat, j: nat)
    requires ExactDevice(c, m) && len >= c.dim && j < headSize < c.dim
    ensures m.exp(1.0) > 0.0
    ensures DeviceZ(c, ForeignKeys(len, c.dim, headSize), FirstValues(len, c.dim), UnitReals(c.dim, headSize),
                    headSize, j)
         == Fin(m.exp(1.0) / (m.exp(1.0) + (c.dim - 1) as real))
  {
    hide K.MathLaws, HeadContext, TileContext, ExactDevice;
    var k, v, q := ForeignKeys(len, c.dim, headSize), FirstValues(len, c.dim), UnitReals(c.dim, headSize);
    ExactLaws(c, m);
    TileIsDiluted(c, m, k, v, q, headSize, j);
    ShareIsOne(m, k, q, c.dim);
    TileWeighs(m, len, c.dim, headSize, j);
  }

  /** The first head masks the foreign lane of the query. */
  lemma MaskedUnit(n: nat, headSize: nat)
    requires headSize < n <= MASK_BITS
    ensures forall i :: 0 <= i < n ==> HeadLanes(UnitReals(n, headSize), headSize, 0)[i] == 0.0
  {
    assert RowStart(0, headSize) == 0;
  }

  lemma ReferenceWeighs(m: K.Math, len: nat, n: nat, headSize: nat, j: nat)
    requires K.MathLaws(m) && len >= n && j < headSize < n <= MASK_BITS
    ensures GoldenZ(m, ForeignKeys(len, n, headSize), FirstValues(len, n), UnitReals(n, headSize), n, headSize,
                    n / headSize, j)
         == 1.0 / n as real
  {
    var k, v, q := ForeignKeys(len, n, headSize), FirstValues(len, n), UnitReals(n, headSize);
    assert InHead(j, headSize, 0) by { assert RowStart(0, headSize) == 0; }
    hide K.MathLaws, K.SoftmaxAt, K.Total, InHead, TileContext, Scores, GoldenZ;
    AtLeastOne(n, headSize);
    ZOfHead(m, k, v, q, n, headSize, n / headSize, j, 0);
    MaskedUnit(n, headSize);
    AlikeWeights(m, AllHeadLanes(k, headSize, 0), HeadLanes(q, headSize, 0), len, n, j);
  }

  /** A query of zeros weighs all positions alike. */
  lemma AlikeWeights(m: K.Math, k: seq<Reals>, q: Reals, len: nat, n: nat, j: nat)
    requires K.MathLaws(m) && |k| == len >= n > j && forall i :: 0 <= i < |q| ==> q[i] == 0.0
    ensures TileContext(m, k, FirstValues(len, n), q, n, j) == 1.0 / n as real
  {
    hide K.MathLaws, K.SoftmaxAt, K.Total, TileContext, Scores;
    FirstWeight(m, k, FirstValues(len, n), q, n, j);
    ZeroScores(k, q, n);
    PeakWeight(m, Scores(k, q, n));
    ScoreCount(k, q, n);
    ExpZero(m);
  }

  lemma ScoreCount(k: seq<Reals>, q: Reals, n: nat)
    ensures |Scores(k, q, n)| == Min(|k|, n)
  {
  }

  lemma UnevenWeights(e: real, n: nat)
    requires n >= 2 && e > 0.0 && e != 1.0
    ensures e / (e + (n - 1) as real) != 1.0 / n as real
  {
    var x, r := e / (e + (n - 1) as real), (n - 1) as real;
    assert x * (e + r) == e && n as real == r + 1.0;
    if x == 1.0 / n as real {
      assert x * (r + 1.0) == 1.0;
      assert (e - 1.0) * r == 0.0 by { CrossMultiply(x, e, r); }
    }
  }

  lemma CrossMultiply(x: real, e: real, r: real)
    requires x * (e + r) == e && x * (r + 1.0) == 1.0 && r > 0.0
    ensures (e - 1.0) * r == 0.0
  {
    var y, z := x * (e + r), x * (r + 1.0);
    assert (r + 1.0) * y == z * (e + r);
    assert (r + 1.0) * e == e + r by { assert y == e && z == 1.0; }
    assert (r + 1.0) * e == r * e + e;
  }

  /** A score from a lane outside the first head, which only the firmware counts. */
  lemma ForeignScore(c: Config, m: K.Math, len: nat, headSize: nat, j: nat)
    requires ExactDevice(c, m) && m.exp(1.0) != m.exp(0.0) && len >= c.dim && j < headSize < c.dim <= MASK_BITS
    ensures !LaneAlwaysAgrees(c, m, len, headSize, j)
  {
    hide K.MathLaws, DeviceZ, GoldenZ, ExactDevice, LaneAlwaysAgrees;
    var k, v, q := ForeignKeys(len, c.dim, headSize), FirstValues(len, c.dim), UnitReals(c.dim, headSize);
    ExactLaws(c, m);
    ExpZero(m);
    FirmwareWeighs(c, m, len, headSize, j);
    ReferenceWeighs(m, len, c.dim, headSize, j);
    UnevenWeights(m.exp(1.0), c.dim);
    assert Shaped(k, v, q, len, c.dim);
    Disagree(c, m, k, v, q, headSize, j);
  }

  // ---- When the firmware computes the reference's attention ----

  /** Every lane of a tile is right for every input of len positions. */
  ghost predicate AlwaysAgrees(c: Config, m: K.Math, len: nat, headSize: nat)
    requires K.MathLaws(m) && headSize >= 1
  {
    forall j: nat :: j < c.dim ==> LaneAlwaysAgrees(c, m, len, headSize, j)
  }

  /** Without positions both sides are zero. */
  lemma {:induction false} NothingToWeigh(m: K.Math, q: Reals, n: nat, headSize: nat, heads: nat, j: nat)
    requires K.MathLaws(m)
    ensures GoldenZ(m, [], [], q, n, headSize, heads, j) == 0.0 && TileContext(m, [], [], q, n, j) == 0.0
  {
    hide K.MathLaws, InHead;
    if heads > 0 {
      NothingToWeigh(m, q, n, headSize, heads - 1, j);
      assert AllHeadLanes([], headSize, heads - 1) == [];
    }
  }

  lemma LaneAgreesIf(c: Config, m: K.Math, k: seq<Reals>, v: seq<Reals>, q: Reals, headSize: nat, j: nat)
    requires ExactDevice(c, m) && Shaped(k, v, q, |k|, c.dim) && j < c.dim && headSize >= 1
    requires |k| == 0 || headSize > c.dim || (headSize == c.dim && |k| >= c.dim)
    ensures LaneAgrees(c, m, k, v, q, headSize, j)
  {
    ExactLaws(c, m);
    hide K.MathLaws, HeadContext, TileContext;
    if headSize > c.dim {
      assert c.dim / headSize == 0;
    } else if |k| == 0 {
      assert k == [] && v == [];
      NothingToWeigh(m, q, c.dim, headSize, c.dim / headSize, j);
      TileIsDiluted(c, m, k, v, q, headSize, j);
    } else {
      assert c.dim / headSize == 1;
      ContextAgreesIff(c, m, k, v, q, j);
    }
  }

  /** A lane behind the first head and the head of the reference that fills it. */
  lemma LaneBehind(n: nat, headSize: nat) returns (j: nat, h: nat)
    requires 1 <= headSize < n && (n > MASK_BITS || 2 * headSize <= n)
    ensures headSize <= j < n && InHead(j, headSize, h) && h < n / headSize
  {
    AtLeastOne(n, headSize);
    assert RowStart(0, headSize) == 0 && RowStart(1, headSize) == headSize;
    if headSize >= MASK_BITS {
      j, h := headSize, 0;
    } else if n > MASK_BITS {
      j, h := MASK_BITS, 0;
    } else {
      j, h := headSize, 1;
    }
  }

  /** The firmware computes the reference's attention of a tile, whatever the input of len positions, if and only if
      one head fills the tile and the sequence fills it too, or there is nothing to compute. */
  lemma AttentionAgreesIff(c: Config, m: K.Math, len: nat, headSize: nat)
    requires ExactDevice(c, m) && m.exp(1.0) != m.exp(0.0) && headSize >= 1
    ensures AlwaysAgrees(c, m, len, headSize) <==>
            len == 0 || headSize > c.dim || (headSize == c.dim && len >= c.dim)
  {
    hide K.MathLaws, LaneAgrees, InHead;
    if len == 0 || headSize > c.dim || (headSize == c.dim && len >= c.dim) {
      forall k, v, q, j: nat | Shaped(k, v, q, len, c.dim) && j < c.dim ensures LaneAgrees(c, m, k, v, q, headSize, j) {
        LaneAgreesIf(c, m, k, v, q, headSize, j);
      }
    } else {
      hide LaneAlwaysAgrees;
      if len < c.dim {
        PaddingShows(c, m, len, headSize, 0);
        assert !LaneAlwaysAgrees(c, m, len, headSize, 0);
      } else if c.dim > MASK_BITS || 2 * headSize <= c.dim {
        var j, h := LaneBehind(c.dim, headSize);
        LostLane(c, m, len, headSize, j, h);
        assert !LaneAlwaysAgrees(c, m, len, headSize, j);
      } else {
        ForeignScore(c, m, len, headSize, 0);
        assert !LaneAlwaysAgrees(c, m, len, headSize, 0);
      }
    }
  }

  /** A lane behind the first head that a head of the reference fills is always right if and only if there is no
      position at all. */
  lemma LaterHeadsAgreeIff(c: Config, m: K.Math, len: nat, headSize: nat, h: nat, j: nat)
    requires ExactDevice(c, m) && 1 <= headSize <= j < c.dim && InHead(j, headSize, h) && h < c.dim / headSize
    ensures LaneAlwaysAgrees(c, m, len, headSize, j) <==> len == 0
  {
    hide K.MathLaws, LaneAgrees, InHead;
    if len == 0 {
      forall k, v, q | Shaped(k, v, q, len, c.dim) ensures LaneAgrees(c, m, k, v, q, headSize, j) {
        LaneAgreesIf(c, m, k, v, q, headSize, j);
      }
    } else {
      LostLane(c, m, len, headSize, j, h);
    }
  }

  /** A lane of the first of several heads is always right if and only if there is no position at all. */
  lemma FirstHeadAgreesIff(c: Config, m: K.Math, len: nat, headSize: nat, j: nat)
    requires ExactDevice(c, m) && m.exp(1.0) != m.exp(0.0) && j < headSize < c.dim <= MASK_BITS
    ensures LaneAlwaysAgrees(c, m, len, headSize, j) <==> len == 0
  {
    hide K.MathLaws, LaneAgrees, InHead;
    if len == 0 {
      forall k, v, q | Shaped(k, v, q, len, c.dim) ensures LaneAgrees(c, m, k, v, q, headSize, j) {
        LaneAgreesIf(c, m, k, v, q, headSize, j);
      }
    } else if len < c.dim {
      PaddingShows(c, m, len, headSize, j);
    } else {
      ForeignScore(c, m, len, headSize, j);
    }
  }

  // ---- Concrete inputs ----

  /** Two heads of one lane, a full tile: attention over the whole tile, as the firmware computes it, weighs the first
      position e / (e + 1) where the reference's first head weighs both alike; the second lane is lost. */
  lemma {:induction false} NarrowHeadDiffers(c: Config, m: K.Math)
    requires ExactDevice(c, m) && c.dim == 2 && m.exp(1.0) != m.exp(0.0)
    ensures var k, v, q := [[0.0, 1.0], [0.0, 0.0]], [[1.0, 1.0], [0.0, 0.0]], [0.0, 1.0];
            var share := m.exp(1.0) / (m.exp(1.0) + 1.0);
            m.exp(1.0) > 0.0 && DeviceZ(c, k, v, q, 1, 0) == Fin(share) && TileContext(m, k, v, q, 2, 0) == share &&
            GoldenZ(m, k, v, q, 2, 1, 2, 0) == 0.5 != share &&
            DeviceZ(c, k, v, q, 1, 1) == ZERO && GoldenZ(m, k, v, q, 2, 1, 2, 1) == share
  {
    hide K.MathLaws, HeadContext, TileContext, ExactDevice, GoldenZ;
    var k, v, q := ForeignKeys(2, 2, 1), FirstValues(2, 2), UnitReals(2, 1);
    assert k[0] == [0.0, 1.0] && k[1] == [0.0, 0.0] && v[0] == [1.0, 1.0] && v[1] == [0.0, 0.0];
    assert k == [[0.0, 1.0], [0.0, 0.0]] && v == [[1.0, 1.0], [0.0, 0.0]] && q == [0.0, 1.0];
    ExactLaws(c, m);
    ExpZero(m);
    FirmwareWeighs(c, m, 2, 1, 0);
    ReferenceWeighs(m, 2, 2, 1, 0);
    TileWeighs(m, 2, 2, 1, 0);
    TileWeighs(m, 2, 2, 1, 1);
    UnevenWeights(m.exp(1.0), 2);
    TileIsDiluted(c, m, k, v, q, 1, 1);
    assert RowStart(1, 1) == 1;
    ZOfHead(m, k, v, q, 2, 1, 2, 1, 1);
    assert HeadLanes(q, 1, 1) == q && HeadLanes(k[0], 1, 1) == k[0] && HeadLanes(k[1], 1, 1) == k[1];
    assert AllHeadLanes(k, 1, 1) == k;
  }

  /** One position in a tile of two: the firmware gives half of the reference's one. */
  lemma {:induction false} PaddingHalves(c: Config, m: K.Math)
    requires ExactDevice(c, m) && c.dim == 2
    ensures var k, v, q := [[0.0, 0.0]], [[1.0, 1.0]], [0.0, 0.0];
            DeviceZ(c, k, v, q, 2, 0) == Fin(0.5) && GoldenZ(m, k, v, q, 2, 2, 1, 0) == 1.0
  {
    hide K.MathLaws, HeadContext, TileContext, ExactDevice, GoldenZ, Mass;
    var k, v, q := [[0.0, 0.0]], [[1.0, 1.0]], [0.0, 0.0];
    ExactLaws(c, m);
    ContextIsDiluted(c, m, k, v, q, 2, 0);
    WholeHead(m, k, v, q, 2, 0);
    assert v[0] == Ones(2);
    OnesStay(m, k, v, q, 2, 0);
    ZeroScores(k, q, 2);
    OneZeroScore(m, k, q);
  }

  lemma OneZeroScore(m: K.Math, k: seq<Reals>, q: Reals)
    requires K.MathLaws(m) && |k| == 1 && Scores(k, q, 2)[0] == 0.0
    ensures Mass(m, k, q, 2) == 1.0 && Share(m, k, q, 2) == 0.5
  {
    hide K.MathLaws;
    ExpZero(m);
    var s := Scores(k, q, 2);
    assert K.ExpOf(m, s, 0.0)(0) == m.exp(0.0);
    assert K.Total(1, K.ExpOf(m, s, 0.0)) == K.Total(0, K.ExpOf(m, s, 0.0)) + m.exp(0.0);
  }
}
