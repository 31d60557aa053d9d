/** One encoder layer: eight stages over four reused segments of one buffer, against their pure composition. */
module Encoder {
  import opened Arithmetic
  import opened VectorKernels

  /** The sixteen weight vectors: as arrays for the kernel, as values for the specification. */
  datatype Weights<T> = Weights(
    wq: T, bq: T, wk: T, bk: T, wv: T, bv: T, wSelfOut: T, bSelfOut: T, wIntmFc: T, bIntmFc: T, wOutFc: T, bOutFc: T,
    ln1Gamma: T, ln1Beta: T, ln2Gamma: T, ln2Beta: T)

  // ---- The pure layer ----

  type Matrix = seq<Vec>

  predicate Shaped(x: Matrix, width: nat)
  {
    forall t :: 0 <= t < |x| ==> |x[t]| == width
  }

  function ProjectRow(w: Vec, b: Vec, x: Vec): (y: Vec)
    requires |b| == |x|
    ensures |y| == |x|
  {
    AddVec(MatVec(w, x, |x|), b)
  }

  function Project(w: Vec, b: Vec, x: Matrix): (y: Matrix)
    requires Shaped(x, |b|)
    ensures |y| == |x| && Shaped(y, |b|)
  {
    seq(|x|, t requires 0 <= t < |x| => ProjectRow(w, b, x[t]))
  }

  function Activate(m: Math, x: Matrix, width: nat): (y: Matrix)
    requires Shaped(x, width)
    ensures |y| == |x| && Shaped(y, width)
  {
    seq(|x|, t requires 0 <= t < |x| => GeluVec(m, x[t]))
  }

  ghost function NormRow(m: Math, a: Vec, b: Vec, gamma: Vec, beta: Vec): (y: Vec)
    requires MathLaws(m) && a != [] && |a| == |b| == |gamma| == |beta|
    ensures |y| == |a|
  {
    VarianceNotNegative(AddVec(a, b));
    SqrtPositive(m, Variance(AddVec(a, b)) + EPS);
    LayernormVec(m, AddVec(a, b), gamma, beta)
  }

  ghost function AddAndNorm(m: Math, a: Matrix, b: Matrix, gamma: Vec, beta: Vec): (y: Matrix)
    requires MathLaws(m) && gamma != [] && |beta| == |gamma| && |a| == |b| && Shaped(a, |gamma|) && Shaped(b, |gamma|)
    ensures |y| == |a| && Shaped(y, |gamma|)
  {
    seq(|a|, t requires 0 <= t < |a| => NormRow(m, a[t], b[t], gamma, beta))
  }

  function HeadProduct(q: Vec, k: Vec, head: nat): int -> real
  {
    d => At(q, head + d) * At(k, head + d)
  }

  function Scores(q: Vec, k: Matrix, head: nat, headSize: nat): (y: Vec)
    ensures |y| == |k|
  {
    seq(|k|, s requires 0 <= s < |k| => Total(headSize, HeadProduct(q, k[s], head)))
  }

  function Weighted(p: Vec, v: Matrix, column: nat): int -> real
  {
    s => At(p, s) * (if 0 <= s < |v| then At(v[s], column) else 0.0)
  }

  /** Attention of one query at one column: the softmax of its own head's scores over the values of that column. */
  ghost function Context(m: Math, q: Vec, k: Matrix, v: Matrix, headSize: nat, column: nat): real
    requires MathLaws(m) && headSize >= 1
  {
    var head := RowStart(column / headSize, headSize);
    Total(|v|, Weighted(SoftmaxVec(m, Scores(q, k, head, headSize)), v, column))
  }

  /** The first cols columns of a query's attention; columns beyond the last whole head are zero. */
  ghost function AttentionRow(m: Math, q: Vec, k: Matrix, v: Matrix, headSize: nat, cols: nat, width: nat): (y: Vec)
    requires MathLaws(m) && (cols == 0 || headSize >= 1)
    ensures |y| == width
  {
    seq(width, j requires 0 <= j < width => if j < cols then Context(m, q, k, v, headSize, j) else 0.0)
  }

  ghost function Attention(m: Math, q: Matrix, k: Matrix, v: Matrix, headSize: nat, cols: nat, width: nat): (y: Matrix)
    requires MathLaws(m) && (cols == 0 || headSize >= 1)
    ensures |y| == |q| && Shaped(y, width)
  {
    seq(|q|, t requires 0 <= t < |q| => AttentionRow(m, q[t], k, v, headSize, cols, width))
  }

  predicate WeightShapes(w: Weights<Vec>, width: nat)
  {
    |w.bq| == |w.bk| == |w.bv| == |w.bSelfOut| == |w.bIntmFc| == |w.bOutFc| == width &&
    |w.ln1Gamma| == |w.ln1Beta| == |w.ln2Gamma| == |w.ln2Beta| == width
  }

  /** The layer with every intermediate matrix a value of its own. */
  ghost function Layer(m: Math, w: Weights<Vec>, x: Matrix, width: nat, headSize: nat, cols: nat): (y: Matrix)
    requires MathLaws(m) && width >= 1 && WeightShapes(w, width) && Shaped(x, width) && (cols == 0 || headSize >= 1)
    ensures |y| == |x| && Shaped(y, width)
  {
    var q, k, v := Project(w.wq, w.bq, x), Project(w.wk, w.bk, x), Project(w.wv, w.bv, x);
    var context := Attention(m, q, k, v, headSize, cols, width);
    var selfOut := Project(w.wSelfOut, w.bSelfOut, context);
    var normed := AddAndNorm(m, selfOut, x, w.ln1Gamma, w.ln1Beta);
    var hidden := Activate(m, Project(w.wIntmFc, w.bIntmFc, normed), width);
    AddAndNorm(m, Project(w.wOutFc, w.bOutFc, hidden), x, w.ln2Gamma, w.ln2Beta)
  }

  // ---- Rows of a buffer ----

  /** Row r of a buffer of rows of the given width; empty past the end. */
  function Row(buf: Vec, r: nat, width: nat): Vec
  {
    if RowStart(r, width) + width <= |buf| then buf[RowStart(r, width)..RowStart(r, width) + width] else []
  }

  predicate Holds(buf: Vec, base: nat, x: Matrix, width: nat)
  {
    forall t :: 0 <= t < |x| ==> Row(buf, base + t, width) == x[t]
  }

  ghost predicate KeptRows(before: Vec, after: Vec, lo: nat, hi: nat, width: nat)
  {
    |after| == |before| && forall r: nat :: !(lo <= r < hi) ==> Row(after, r, width) == Row(before, r, width)
  }

  lemma RowKept(before: Vec, after: Vec, r: nat, width: nat)
    requires SameOutside(before, after, RowStart(r, width), RowStart(r, width) + width)
    ensures KeptRows(before, after, r, r + 1, width)
  {
    hide RowStart;
    forall q: nat | q != r ensures Row(after, q, width) == Row(before, q, width) {
      if q < r { RowBefore(q, r, width); } else { RowBefore(r, q, width); }
    }
  }

  lemma RowFits(r: nat, n: nat, width: nat, length: nat)
    requires r < n && RowStart(n, width) <= length
    ensures RowStart(r, width) + width <= length
  {
    hide RowStart;
    RowBefore(r, n, width);
  }

  lemma RowsApart(r: nat, q: nat, width: nat)
    ensures SameOrApart(true, RowStart(r, width), RowStart(q, width), width)
    ensures r != q ==>
              RowStart(r, width) + width <= RowStart(q, width) || RowStart(q, width) + width <= RowStart(r, width)
  {
    hide RowStart;
    if q < r { RowBefore(q, r, width); } else if r < q { RowBefore(r, q, width); }
  }

  lemma HoldsKept(before: Vec, after: Vec, lo: nat, hi: nat, base: nat, x: Matrix, width: nat)
    requires Holds(before, base, x, width) && KeptRows(before, after, lo, hi, width)
    requires base + |x| <= lo || hi <= base
    ensures Holds(after, base, x, width)
  {
    hide Row;
  }

  // ---- Stages ----

  method ProjectOne(w: array<real>, b: array<real>, src: array<real>, sr: nat, dst: array<real>, dr: nat, width: nat)
    requires w != dst && b != dst && RowStart(width, width) <= w.Length && b.Length == width
    requires RowStart(sr, width) + width <= src.Length && RowStart(dr, width) + width <= dst.Length
    requires src == dst ==> sr != dr
    modifies dst
    ensures Row(dst[..], dr, width) == ProjectRow(w[..], b[..], old(Row(src[..], sr, width)))
    ensures KeptRows(old(dst[..]), dst[..], dr, dr + 1, width)
  {
    hide RowStart, KeptRows, MatVec, AddVec;
    RowsApart(sr, dr, width);
    var x, y := RowStart(sr, width), RowStart(dr, width);
    MvMul(w, src, x, dst, y, width, width);
    VecAdd(dst, y, b, 0, dst, y, width);
    assert b[0..0 + width] == b[..];
    RowKept(old(dst[..]), dst[..], dr, width);
  }

  method ProjectRows(w: array<real>, b: array<real>, src: array<real>, srcBase: nat, dst: array<real>, dstBase: nat,
                     seqLen: nat, width: nat, ghost x: Matrix)
    requires w != dst && b != dst && RowStart(width, width) <= w.Length && b.Length == width
    requires RowStart(srcBase + seqLen, width) <= src.Length && RowStart(dstBase + seqLen, width) <= dst.Length
    requires src == dst ==> srcBase + seqLen <= dstBase || dstBase + seqLen <= srcBase
    requires |x| == seqLen && Shaped(x, width) && Holds(src[..], srcBase, x, width)
    modifies dst
    ensures Holds(dst[..], dstBase, Project(w[..], b[..], x), width)
    ensures KeptRows(old(dst[..]), dst[..], dstBase, dstBase + seqLen, width)
  {
    hide RowStart, Row, ProjectRow;
    ghost var y := Project(w[..], b[..], x);
    for t := 0 to seqLen
      invariant Holds(src[..], srcBase, x, width)
      invariant Holds(dst[..], dstBase, y[..t], width)
      invariant KeptRows(old(dst[..]), dst[..], dstBase, dstBase + t, width)
    {
      RowFits(srcBase + t, srcBase + seqLen, width, src.Length);
      RowFits(dstBase + t, dstBase + seqLen, width, dst.Length);
      assert Row(src[..], srcBase + t, width) == x[t];
      ProjectOne(w, b, src, srcBase + t, dst, dstBase + t, width);
    }
    assert y[..seqLen] == y;
  }

  method GeluOne(m: Math, dst: array<real>, r: nat, width: nat)
    requires RowStart(r, width) + width <= dst.Length
    modifies dst
    ensures Row(dst[..], r, width) == GeluVec(m, old(Row(dst[..], r, width)))
    ensures KeptRows(old(dst[..]), dst[..], r, r + 1, width)
  {
    hide RowStart, KeptRows, GeluVec;
    var y := RowStart(r, width);
    Gelu(m, dst, y, dst, y, width);
    RowKept(old(dst[..]), dst[..], r, width);
  }

  /** First feed-forward layer: project a row, then activate it in place. */
  method FeedForwardRows(m: Math, w: array<real>, b: array<real>, buf: array<real>, srcBase: nat, dstBase: nat,
                         seqLen: nat, width: nat, ghost x: Matrix)
    requires w != buf && b != buf && RowStart(width, width) <= w.Length && b.Length == width
    requires RowStart(srcBase + seqLen, width) <= buf.Length && RowStart(dstBase + seqLen, width) <= buf.Length
    requires srcBase + seqLen <= dstBase || dstBase + seqLen <= srcBase
    requires |x| == seqLen && Shaped(x, width) && Holds(buf[..], srcBase, x, width)
    modifies buf
    ensures Holds(buf[..], dstBase, Activate(m, Project(w[..], b[..], x), width), width)
    ensures KeptRows(old(buf[..]), buf[..], dstBase, dstBase + seqLen, width)
  {
    hide RowStart, Row, ProjectRow, GeluVec;
    ghost var y := Activate(m, Project(w[..], b[..], x), width);
    for t := 0 to seqLen
      invariant Holds(buf[..], srcBase, x, width)
      invariant Holds(buf[..], dstBase, y[..t], width)
      invariant KeptRows(old(buf[..]), buf[..], dstBase, dstBase + t, width)
    {
      RowFits(srcBase + t, srcBase + seqLen, width, buf.Length);
      RowFits(dstBase + t, dstBase + seqLen, width, buf.Length);
      assert Row(buf[..], srcBase + t, width) == x[t];
      ProjectOne(w, b, buf, srcBase + t, buf, dstBase + t, width);
      GeluOne(m, buf, dstBase + t, width);
    }
    assert y[..seqLen] == y;
  }

  method NormOne(m: Math, a: array<real>, ar: nat, b: array<real>, br: nat, gamma: array<real>, beta: array<real>,
                 dst: array<real>, dr: nat, width: nat)
    requires MathLaws(m) && width >= 1 && gamma != dst && beta != dst && gamma.Length == beta.Length == width
    requires RowStart(ar, width) + width <= a.Length && RowStart(br, width) + width <= b.Length
    requires RowStart(dr, width) + width <= dst.Length
    modifies dst
    ensures Row(dst[..], dr, width)
         == NormRow(m, old(Row(a[..], ar, width)), old(Row(b[..], br, width)), gamma[..], beta[..])
    ensures KeptRows(old(dst[..]), dst[..], dr, dr + 1, width)
  {
    hide RowStart, KeptRows, AddVec, LayernormVec, MathLaws, Variance;
    RowsApart(ar, dr, width);
    RowsApart(br, dr, width);
    var y := RowStart(dr, width);
    VecAdd(a, RowStart(ar, width), b, RowStart(br, width), dst, y, width);
    Layernorm(m, dst, y, gamma, beta, dst, y, width);
    RowKept(old(dst[..]), dst[..], dr, width);
  }

  /** Residual and layer normalization. The target may be the residual input itself, row on row. */
  method NormRows(m: Math, a: array<real>, aBase: nat, b: array<real>, gamma: array<real>, beta: array<real>,
                  dst: array<real>, dstBase: nat, seqLen: nat, width: nat, ghost x: Matrix, ghost residual: Matrix)
    requires MathLaws(m) && width >= 1 && gamma != dst && beta != dst && gamma.Length == beta.Length == width
    requires RowStart(aBase + seqLen, width) <= a.Length && RowStart(seqLen, width) <= b.Length
    requires RowStart(dstBase + seqLen, width) <= dst.Length
    requires a == dst ==> aBase + seqLen <= dstBase || dstBase + seqLen <= aBase
    requires b == dst ==> dstBase == 0 || seqLen <= dstBase
    requires |x| == |residual| == seqLen && Shaped(x, width) && Shaped(residual, width)
    requires Holds(a[..], aBase, x, width) && Holds(b[..], 0, residual, width)
    modifies dst
    ensures Holds(dst[..], dstBase, AddAndNorm(m, x, residual, gamma[..], beta[..]), width)
    ensures KeptRows(old(dst[..]), dst[..], dstBase, dstBase + seqLen, width)
  {
    hide RowStart, Row, NormRow, MathLaws;
    ghost var y := AddAndNorm(m, x, residual, gamma[..], beta[..]);
    for t := 0 to seqLen
      invariant Holds(a[..], aBase, x, width)
      invariant forall s :: t <= s < seqLen ==> Row(b[..], s, width) == residual[s]
      invariant Holds(dst[..], dstBase, y[..t], width)
      invariant KeptRows(old(dst[..]), dst[..], dstBase, dstBase + t, width)
    {
      RowFits(aBase + t, aBase + seqLen, width, a.Length);
      RowFits(t, seqLen, width, b.Length);
      RowFits(dstBase + t, dstBase + seqLen, width, dst.Length);
      assert Row(a[..], aBase + t, width) == x[t];
      NormOne(m, a, aBase + t, b, t, gamma, beta, dst, dstBase + t, width);
    }
    assert y[..seqLen] == y;
  }

  // ---- Attention ----

  lemma RowElement(buf: Vec, r: nat, width: nat, c: nat)
    requires RowStart(r, width) + width <= |buf| && c < width
    ensures |Row(buf, r, width)| == width && Row(buf, r, width)[c] == buf[RowStart(r, width) + c]
  {
  }

  lemma ElementSet(before: Vec, after: Vec, r: nat, width: nat, c: nat, value: real)
    requires RowStart(r, width) + width <= |before| && c < width
    requires after == before[RowStart(r, width) + c := value]
    ensures |Row(before, r, width)| == width && Row(after, r, width) == Row(before, r, width)[c := value]
    ensures KeptRows(before, after, r, r + 1, width)
  {
    hide RowStart, KeptRows;
    RowKept(before, after, r, width);
  }

  /** Scores of one query against all keys over one head's columns. */
  method HeadScores(buf: array<real>, qRow: nat, kBase: nat, seqLen: nat, head: nat, headSize: nat, width: nat,
                    score: array<real>, ghost q: Vec, ghost k: Matrix)
    requires buf != score && seqLen <= score.Length && head + headSize <= width
    requires RowStart(qRow, width) + width <= buf.Length && RowStart(kBase + seqLen, width) <= buf.Length
    requires Row(buf[..], qRow, width) == q && |k| == seqLen && Holds(buf[..], kBase, k, width)
    modifies score
    ensures score[..seqLen] == Scores(q, k, head, headSize)
  {
    hide RowStart, Row, Total;
    for s := 0 to seqLen
      invariant forall i :: 0 <= i < s ==> score[i] == Scores(q, k, head, headSize)[i]
    {
      RowFits(kBase + s, kBase + seqLen, width, buf.Length);
      assert Row(buf[..], kBase + s, width) == k[s];
      score[s] := HeadDot(buf, qRow, kBase + s, head, headSize, width, q, k[s]);
    }
  }

  lemma HeadProductAt(q: Vec, k: Vec, head: nat, d: nat)
    requires head + d < |q| && head + d < |k|
    ensures HeadProduct(q, k, head)(d) == q[head + d] * k[head + d]
  {
    assert At(q, head + d) == q[head + d] && At(k, head + d) == k[head + d];
    assert HeadProduct(q, k, head)(d) == At(q, head + d) * At(k, head + d);
  }

  method HeadDot(buf: array<real>, qRow: nat, kRow: nat, head: nat, headSize: nat, width: nat, ghost q: Vec,
                 ghost k: Vec)
    returns (sum: real)
    requires head + headSize <= width
    requires RowStart(qRow, width) + width <= buf.Length && RowStart(kRow, width) + width <= buf.Length
    requires Row(buf[..], qRow, width) == q && Row(buf[..], kRow, width) == k
    ensures sum == Total(headSize, HeadProduct(q, k, head))
  {
    hide RowStart, Row, Total;
    sum := 0.0;
    TotalNext(0, HeadProduct(q, k, head));
    for d := 0 to headSize
      invariant sum == Total(d, HeadProduct(q, k, head))
    {
      RowElement(buf[..], qRow, width, head + d);
      RowElement(buf[..], kRow, width, head + d);
      HeadProductAt(q, k, head, d);
      TotalNext(d, HeadProduct(q, k, head));
      sum := sum + buf[RowStart(qRow, width) + head + d] * buf[RowStart(kRow, width) + head + d];
    }
  }

  /** One column of the weighted sum of values. */
  method MixColumn(buf: array<real>, vBase: nat, seqLen: nat, column: nat, width: nat, prob: array<real>, ghost p: Vec,
                   ghost v: Matrix)
    returns (ctx: real)
    requires column < width && seqLen <= prob.Length && prob[..seqLen] == p
    requires RowStart(vBase + seqLen, width) <= buf.Length && |v| == seqLen && Holds(buf[..], vBase, v, width)
    ensures ctx == Total(seqLen, Weighted(p, v, column))
  {
    hide RowStart, Row, Total;
    ctx := 0.0;
    TotalNext(0, Weighted(p, v, column));
    for s := 0 to seqLen
      invariant ctx == Total(s, Weighted(p, v, column))
    {
      RowFits(vBase + s, vBase + seqLen, width, buf.Length);
      assert Row(buf[..], vBase + s, width) == v[s];
      RowElement(buf[..], vBase + s, width, column);
      TotalNext(s, Weighted(p, v, column));
      ctx := ctx + prob[s] * buf[RowStart(vBase + s, width) + column];
    }
  }

  lemma HeadColumn(h: nat, headSize: nat, d: nat)
    requires d < headSize
    ensures (RowStart(h, headSize) + d) / headSize == h
  {
    var j := RowStart(h, headSize) + d;
    QuotientUnique(j / headSize, h, headSize, j % headSize, d);
  }

  lemma QuotientUnique(a: nat, b: nat, k: nat, c: nat, d: nat)
    requires c < k && d < k && RowStart(a, k) + c == RowStart(b, k) + d
    ensures a == b
  {
    hide RowStart;
    if a < b { RowBefore(a, b, k); } else if b < a { RowBefore(b, a, k); }
  }

  /** Writes one head's columns of one query's attention row. */
  method MixHead(m: Math, buf: array<real>, vBase: nat, out: nat, seqLen: nat, h: nat, headSize: nat, width: nat,
                 prob: array<real>, ghost q: Vec, ghost k: Matrix, ghost v: Matrix)
    requires MathLaws(m) && buf != prob && RowStart(h, headSize) + headSize <= width && seqLen <= prob.Length
    requires |k| == |v| == seqLen && Holds(buf[..], vBase, v, width) && vBase + seqLen <= out
    requires prob[..seqLen] == SoftmaxVec(m, Scores(q, k, RowStart(h, headSize), headSize))
    requires RowStart(vBase + seqLen, width) <= buf.Length && RowStart(out, width) + width <= buf.Length
    requires RowStart(h, headSize) == 0 || headSize >= 1
    requires Row(buf[..], out, width) == AttentionRow(m, q, k, v, headSize, RowStart(h, headSize), width)
    modifies buf
    ensures RowStart(h, headSize) + headSize == 0 || headSize >= 1
    ensures Row(buf[..], out, width) == AttentionRow(m, q, k, v, headSize, RowStart(h, headSize) + headSize, width)
    ensures KeptRows(old(buf[..]), buf[..], out, out + 1, width)
  {
    hide RowStart, Row, Total, MathLaws, Scores;
    var head := RowStart(h, headSize);
    ghost var p := prob[..seqLen];
    for d := 0 to headSize
      invariant prob[..seqLen] == p && Holds(buf[..], vBase, v, width)
      invariant Row(buf[..], out, width) == AttentionRow(m, q, k, v, headSize, head + d, width)
      invariant KeptRows(old(buf[..]), buf[..], out, out + 1, width)
    {
      ghost var before := buf[..];
      var ctx := MixColumn(buf, vBase, seqLen, head + d, width, prob, p, v);
      HeadColumn(h, headSize, d);
      assert ctx == Context(m, q, k, v, headSize, head + d);
      buf[RowStart(out, width) + head + d] := ctx;
      ElementSet(before, buf[..], out, width, head + d, ctx);
      assert AttentionRow(m, q, k, v, headSize, head + d + 1, width)
          == AttentionRow(m, q, k, v, headSize, head + d, width)[head + d := ctx];
    }
  }

  lemma HeadFits(h: nat, heads: nat, headSize: nat)
    requires h < heads
    ensures RowStart(h, headSize) + headSize == RowStart(h + 1, headSize) <= RowStart(heads, headSize)
    ensures RowStart(h, headSize) == 0 || headSize >= 1
  {
    RowBefore(h, heads, headSize);
  }

  /** One head for one query. */
  method AttendOne(m: Math, buf: array<real>, seqLen: nat, t: nat, h: nat, headSize: nat, width: nat,
                   score: array<real>, prob: array<real>, ghost q: Matrix, ghost k: Matrix, ghost v: Matrix)
    requires MathLaws(m) && buf != score && buf != prob && score != prob && RowStart(h, headSize) + headSize <= width
    requires t < seqLen <= score.Length && seqLen <= prob.Length && RowStart(4 * seqLen, width) <= buf.Length
    requires |q| == |k| == |v| == seqLen && (RowStart(h, headSize) == 0 || headSize >= 1)
    requires Holds(buf[..], 0, q, width) && Holds(buf[..], seqLen, k, width) && Holds(buf[..], 2 * seqLen, v, width)
    requires Row(buf[..], 3 * seqLen + t, width) == AttentionRow(m, q[t], k, v, headSize, RowStart(h, headSize), width)
    modifies buf, score, prob
    ensures RowStart(h, headSize) + headSize == 0 || headSize >= 1
    ensures Row(buf[..], 3 * seqLen + t, width)
         == AttentionRow(m, q[t], k, v, headSize, RowStart(h, headSize) + headSize, width)
    ensures KeptRows(old(buf[..]), buf[..], 3 * seqLen + t, 3 * seqLen + t + 1, width)
  {
    hide RowStart, Row, MathLaws, Scores, SoftmaxVec, AttentionRow, KeptRows;
    var head := RowStart(h, headSize);
    RowFits(t, 4 * seqLen, width, buf.Length);
    RowFits(3 * seqLen + t, 4 * seqLen, width, buf.Length);
    Fewer(2 * seqLen, 4 * seqLen, width);
    Fewer(3 * seqLen, 4 * seqLen, width);
    assert Row(buf[..], 0 + t, width) == q[t];
    HeadScores(buf, t, seqLen, seqLen, head, headSize, width, score, q[t], k);
    Softmax(m, score, prob, seqLen);
    MixHead(m, buf, 2 * seqLen, 3 * seqLen + t, seqLen, h, headSize, width, prob, q[t], k, v);
  }

  lemma Fewer(a: nat, b: nat, width: nat)
    requires a <= b
    ensures RowStart(a, width) <= RowStart(b, width)
  {
    if a < b { RowBefore(a, b, width); }
  }

  /** One head for every query. */
  method AttendHead(m: Math, buf: array<real>, seqLen: nat, h: nat, headSize: nat, width: nat,
                    score: array<real>, prob: array<real>, ghost q: Matrix, ghost k: Matrix, ghost v: Matrix)
    requires MathLaws(m) && buf != score && buf != prob && score != prob && RowStart(h, headSize) + headSize <= width
    requires seqLen <= score.Length && seqLen <= prob.Length && RowStart(4 * seqLen, width) <= buf.Length
    requires |q| == |k| == |v| == seqLen && (RowStart(h, headSize) == 0 || headSize >= 1)
    requires Holds(buf[..], 0, q, width) && Holds(buf[..], seqLen, k, width) && Holds(buf[..], 2 * seqLen, v, width)
    requires Holds(buf[..], 3 * seqLen, Attention(m, q, k, v, headSize, RowStart(h, headSize), width), width)
    modifies buf, score, prob
    ensures RowStart(h, headSize) + headSize == 0 || headSize >= 1
    ensures Holds(buf[..], 3 * seqLen, Attention(m, q, k, v, headSize, RowStart(h, headSize) + headSize, width), width)
    ensures KeptRows(old(buf[..]), buf[..], 3 * seqLen, 4 * seqLen, width)
  {
    hide RowStart, Row, MathLaws, AttentionRow, Holds, Attention, KeptRows;
    var head := RowStart(h, headSize);
    ghost var was := Attention(m, q, k, v, headSize, head, width);
    ghost var next := Attention(m, q, k, v, headSize, head + headSize, width);
    assert was == next[..0] + was[0..];
    KeptAll(buf[..], 3 * seqLen, 4 * seqLen, width);
    for t := 0 to seqLen
      invariant Holds(buf[..], 3 * seqLen, next[..t] + was[t..], width)
      invariant KeptRows(old(buf[..]), buf[..], 3 * seqLen, 4 * seqLen, width)
    {
      ghost var before := buf[..];
      HoldsAt(before, 3 * seqLen, next[..t] + was[t..], t, width);
      HoldsKept(old(buf[..]), before, 3 * seqLen, 4 * seqLen, 0, q, width);
      HoldsKept(old(buf[..]), before, 3 * seqLen, 4 * seqLen, seqLen, k, width);
      HoldsKept(old(buf[..]), before, 3 * seqLen, 4 * seqLen, 2 * seqLen, v, width);
      AttentionAt(m, q, k, v, headSize, head, width, t);
      AttentionAt(m, q, k, v, headSize, head + headSize, width, t);
      AttendOne(m, buf, seqLen, t, h, headSize, width, score, prob, q, k, v);
      RowReplaced(before, buf[..], 3 * seqLen, t, was, next, width);
      KeptMore(old(buf[..]), before, buf[..], 3 * seqLen, 4 * seqLen, 3 * seqLen + t, width);
    }
    assert next == next[..seqLen] + was[seqLen..];
  }

  lemma AttentionAt(m: Math, q: Matrix, k: Matrix, v: Matrix, headSize: nat, cols: nat, width: nat, t: nat)
    requires MathLaws(m) && (cols == 0 || headSize >= 1) && t < |q|
    ensures Attention(m, q, k, v, headSize, cols, width)[t] == AttentionRow(m, q[t], k, v, headSize, cols, width)
  {
    hide MathLaws, AttentionRow;
  }

  lemma KeptAll(buf: Vec, lo: nat, hi: nat, width: nat)
    ensures KeptRows(buf, buf, lo, hi, width)
  {
  }

  lemma KeptMore(a: Vec, b: Vec, c: Vec, lo: nat, hi: nat, r: nat, width: nat)
    requires KeptRows(a, b, lo, hi, width) && KeptRows(b, c, r, r + 1, width) && lo <= r < hi
    ensures KeptRows(a, c, lo, hi, width)
  {
    hide Row;
  }

  lemma HoldsAt(buf: Vec, base: nat, x: Matrix, t: nat, width: nat)
    requires Holds(buf, base, x, width) && t < |x|
    ensures Row(buf, base + t, width) == x[t]
  {
  }

  lemma RowReplaced(before: Vec, after: Vec, base: nat, t: nat, was: Matrix, next: Matrix, width: nat)
    requires t < |was| == |next| && Holds(before, base, next[..t] + was[t..], width)
    requires Row(after, base + t, width) == next[t] && KeptRows(before, after, base + t, base + t + 1, width)
    ensures Holds(after, base, next[..t + 1] + was[t + 1..], width)
  {
    hide Row;
    var old_, new_ := next[..t] + was[t..], next[..t + 1] + was[t + 1..];
    forall s | 0 <= s < |new_| ensures Row(after, base + s, width) == new_[s] {
      if s != t { assert Row(before, base + s, width) == old_[s]; }
    }
  }

  /** The attention output rows: cleared, then filled head by head. */
  method AttendAll(m: Math, buf: array<real>, seqLen: nat, heads: nat, headSize: nat, width: nat,
                   score: array<real>, prob: array<real>, ghost q: Matrix, ghost k: Matrix, ghost v: Matrix)
    requires MathLaws(m) && buf != score && buf != prob && score != prob && RowStart(heads, headSize) <= width
    requires seqLen <= score.Length && seqLen <= prob.Length && RowStart(4 * seqLen, width) <= buf.Length
    requires |q| == |k| == |v| == seqLen
    requires Holds(buf[..], 0, q, width) && Holds(buf[..], seqLen, k, width) && Holds(buf[..], 2 * seqLen, v, width)
    modifies buf, score, prob
    ensures RowStart(heads, headSize) == 0 || headSize >= 1
    ensures Holds(buf[..], 3 * seqLen, Attention(m, q, k, v, headSize, RowStart(heads, headSize), width), width)
    ensures KeptRows(old(buf[..]), buf[..], 3 * seqLen, 4 * seqLen, width)
  {
    hide RowStart, Row, MathLaws, AttentionRow, Holds;
    NoRows(headSize);
    ClearRows(m, buf, 3 * seqLen, seqLen, width, q, k, v, headSize);
    for h := 0 to heads
      invariant RowStart(h, headSize) == 0 || headSize >= 1
      invariant Holds(buf[..], 3 * seqLen, Attention(m, q, k, v, headSize, RowStart(h, headSize), width), width)
      invariant KeptRows(old(buf[..]), buf[..], 3 * seqLen, 4 * seqLen, width)
    {
      HeadFits(h, heads, headSize);
      HoldsKept(old(buf[..]), buf[..], 3 * seqLen, 4 * seqLen, 0, q, width);
      HoldsKept(old(buf[..]), buf[..], 3 * seqLen, 4 * seqLen, seqLen, k, width);
      HoldsKept(old(buf[..]), buf[..], 3 * seqLen, 4 * seqLen, 2 * seqLen, v, width);
      AttendHead(m, buf, seqLen, h, headSize, width, score, prob, q, k, v);
    }
  }

  lemma NoRows(width: nat)
    ensures RowStart(0, width) == 0
  {
  }

  /** The memset before attention. */
  method ClearRows(m: Math, buf: array<real>, base: nat, seqLen: nat, width: nat,
                   ghost q: Matrix, ghost k: Matrix, ghost v: Matrix, ghost headSize: nat)
    requires MathLaws(m) && RowStart(base + seqLen, width) <= buf.Length && |q| == seqLen
    modifies buf
    ensures Holds(buf[..], base, Attention(m, q, k, v, headSize, 0, width), width)
    ensures KeptRows(old(buf[..]), buf[..], base, base + seqLen, width)
  {
    hide MathLaws, RowStart;
    Fewer(base, base + seqLen, width);
    var lo, hi := RowStart(base, width), RowStart(base + seqLen, width);
    for i := lo to hi
      invariant forall j :: lo <= j < i ==> buf[j] == 0.0
      invariant forall j :: 0 <= j < buf.Length && !(lo <= j < i) ==> buf[j] == old(buf[j])
    {
      buf[i] := 0.0;
    }
    Cleared(old(buf[..]), buf[..], base, seqLen, width);
    NothingAttended(m, seqLen, q, k, v, headSize, width);
  }

  function Zeros(width: nat): Vec
  {
    seq(width, i => 0.0)
  }

  lemma NothingAttended(m: Math, n: nat, q: Matrix, k: Matrix, v: Matrix, headSize: nat, width: nat)
    requires MathLaws(m) && |q| == n
    ensures Attention(m, q, k, v, headSize, 0, width) == seq(n, i => Zeros(width))
  {
    hide MathLaws;
    forall t | 0 <= t < n ensures AttentionRow(m, q[t], k, v, headSize, 0, width) == Zeros(width) { }
  }

  lemma Cleared(before: Vec, after: Vec, base: nat, n: nat, width: nat)
    requires RowStart(base, width) <= RowStart(base + n, width) <= |before| == |after|
    requires forall j :: RowStart(base, width) <= j < RowStart(base + n, width) ==> after[j] == 0.0
    requires forall j :: (0 <= j < |after| && !(RowStart(base, width) <= j < RowStart(base + n, width)) ==>
               after[j] == before[j])
    ensures Holds(after, base, seq(n, i => Zeros(width)), width)
    ensures KeptRows(before, after, base, base + n, width)
  {
    hide RowStart;
    ghost var zeros := seq(n, i => Zeros(width));
    forall t | 0 <= t < n ensures Row(after, base + t, width) == zeros[t] {
      RowBefore(base + t, base + n, width);
      Fewer(base, base + t, width);
    }
    forall r: nat | !(base <= r < base + n) ensures Row(after, r, width) == Row(before, r, width) {
      if r < base { RowBefore(r, base, width); } else { Fewer(base + n, r, width); }
    }
  }

  // ---- The whole layer ----

  predicate Apart(w: Weights<array<real>>, a: array<real>)
  {
    w.wq != a && w.bq != a && w.wk != a && w.bk != a && w.wv != a && w.bv != a && w.wSelfOut != a && w.bSelfOut != a &&
    w.wIntmFc != a && w.bIntmFc != a && w.wOutFc != a && w.bOutFc != a &&
    w.ln1Gamma != a && w.ln1Beta != a && w.ln2Gamma != a && w.ln2Beta != a
  }

  function Arrays(w: Weights<array<real>>): set<array<real>>
  {
    {w.wq, w.bq, w.wk, w.bk, w.wv, w.bv, w.wSelfOut, w.bSelfOut, w.wIntmFc, w.bIntmFc, w.wOutFc, w.bOutFc,
     w.ln1Gamma, w.ln1Beta, w.ln2Gamma, w.ln2Beta}
  }

  function Values(w: Weights<array<real>>): Weights<Vec>
    reads Arrays(w)
  {
    Weights(w.wq[..], w.bq[..], w.wk[..], w.bk[..], w.wv[..], w.bv[..], w.wSelfOut[..], w.bSelfOut[..],
            w.wIntmFc[..], w.bIntmFc[..], w.wOutFc[..], w.bOutFc[..],
            w.ln1Gamma[..], w.ln1Beta[..], w.ln2Gamma[..], w.ln2Beta[..])
  }

  predicate ArraysFit(w: Weights<array<real>>, width: nat)
  {
    w.bq.Length == w.bk.Length == w.bv.Length == w.bSelfOut.Length == w.bIntmFc.Length == w.bOutFc.Length == width &&
    w.ln1Gamma.Length == w.ln1Beta.Length == w.ln2Gamma.Length == w.ln2Beta.Length == width &&
    RowStart(width, width) <= w.wq.Length && RowStart(width, width) <= w.wk.Length &&
    RowStart(width, width) <= w.wv.Length &&
    RowStart(width, width) <= w.wSelfOut.Length && RowStart(width, width) <= w.wIntmFc.Length &&
    RowStart(width, width) <= w.wOutFc.Length
  }

  function Rows(buf: Vec, n: nat, width: nat): (x: Matrix)
    ensures |x| == n
  {
    seq(n, t requires 0 <= t < n => Row(buf, t, width))
  }

  lemma HeadsFit(width: nat, heads: nat)
    requires heads >= 1
    ensures RowStart(heads, width / heads) <= width
    ensures RowStart(heads, width / heads) == 0 || width / heads >= 1
  {
  }

  lemma RowsHold(buf: Vec, n: nat, width: nat)
    requires RowStart(n, width) <= |buf|
    ensures Holds(buf, 0, Rows(buf, n, width), width) && Shaped(Rows(buf, n, width), width)
  {
    hide RowStart;
    forall t | 0 <= t < n ensures |Row(buf, t, width)| == width { RowFits(t, n, width, |buf|); }
  }

  /** What the four segments hold once the queries, keys and values are in place and attention has been written. */
  ghost predicate Attended(m: Math, temp: Vec, x: Matrix, w: Weights<Vec>, seqLen: nat, width: nat, headSize: nat,
                           cols: nat)
    requires MathLaws(m) && WeightShapes(w, width) && Shaped(x, width) && (cols == 0 || headSize >= 1)
  {
    Holds(temp, 3 * seqLen,
      Attention(m, Project(w.wq, w.bq, x), Project(w.wk, w.bk, x), Project(w.wv, w.bv, x), headSize,
                cols, width), width)
  }

  /** The projections and the attention, up to the fourth segment. */
  method ProjectAndAttend(m: Math, input: array<real>, seqLen: nat, width: nat, heads: nat, w: Weights<array<real>>,
                          temp: array<real>, ghost x: Matrix)
    requires MathLaws(m) && heads >= 1 && ArraysFit(w, width) && Apart(w, temp) && input != temp
    requires RowStart(seqLen, width) <= input.Length && RowStart(4 * seqLen, width) <= temp.Length
    requires |x| == seqLen && Shaped(x, width) && Holds(input[..], 0, x, width)
    requires WeightShapes(Values(w), width)
    modifies temp
    ensures RowStart(heads, width / heads) == 0 || width / heads >= 1
    ensures Attended(m, temp[..], x, Values(w), seqLen, width, width / heads, RowStart(heads, width / heads))
  {
    hide RowStart, Row, MathLaws, Holds, KeptRows, Project, Attention;
    HeadsFit(width, heads);
    Fewer(seqLen, 4 * seqLen, width);
    Fewer(2 * seqLen, 4 * seqLen, width);
    Fewer(3 * seqLen, 4 * seqLen, width);
    ghost var q, k, v := Project(w.wq[..], w.bq[..], x), Project(w.wk[..], w.bk[..], x), Project(w.wv[..], w.bv[..], x);
    ProjectRows(w.wq, w.bq, input, 0, temp, 0, seqLen, width, x);
    ghost var t1 := temp[..];
    ProjectRows(w.wk, w.bk, input, 0, temp, seqLen, seqLen, width, x);
    ghost var t2 := temp[..];
    HoldsKept(t1, t2, seqLen, seqLen + seqLen, 0, q, width);
    ProjectRows(w.wv, w.bv, input, 0, temp, 2 * seqLen, seqLen, width, x);
    HoldsKept(t2, temp[..], 2 * seqLen, 2 * seqLen + seqLen, 0, q, width);
    HoldsKept(t2, temp[..], 2 * seqLen, 2 * seqLen + seqLen, seqLen, k, width);
    var score, prob := new real[seqLen], new real[seqLen];
    AttendAll(m, temp, seqLen, heads, width / heads, width, score, prob, q, k, v);
  }

  method BertEncoderLayer(m: Math, input: array<real>, seqLen: nat, hiddenSize: nat, numHead: nat,
                          w: Weights<array<real>>, output: array<real>)
    requires MathLaws(m) && hiddenSize >= 1 && numHead >= 1
    requires ArraysFit(w, hiddenSize) && Apart(w, output)
    requires RowStart(seqLen, hiddenSize) <= input.Length && RowStart(seqLen, hiddenSize) <= output.Length
    modifies output
    ensures WeightShapes(Values(w), hiddenSize) && Values(w) == old(Values(w))
    ensures input != output ==> input[..] == old(input[..])
    ensures Shaped(old(Rows(input[..], seqLen, hiddenSize)), hiddenSize)
    ensures RowStart(numHead, hiddenSize / numHead) == 0 || hiddenSize / numHead >= 1
    ensures Rows(output[..], seqLen, hiddenSize)
         == Layer(m, Values(w), old(Rows(input[..], seqLen, hiddenSize)), hiddenSize, hiddenSize / numHead,
                  RowStart(numHead, hiddenSize / numHead))
    ensures KeptRows(old(output[..]), output[..], 0, seqLen, hiddenSize)
  {
    hide RowStart, Row, MathLaws, Holds, KeptRows, Project, Attention, AddAndNorm, Activate;
    var width := hiddenSize;
    ghost var x := Rows(input[..], seqLen, width);
    RowsHold(input[..], seqLen, width);
    HeadsFit(width, numHead);
    var temp := new real[RowStart(4 * seqLen, width)];
    ProjectAndAttend(m, input, seqLen, width, numHead, w, temp, x);
    AfterAttention(m, input, seqLen, width, width / numHead, RowStart(numHead, width / numHead), w, temp, output, x);
    HoldsRows(output[..], Layer(m, Values(w), x, width, width / numHead, RowStart(numHead, width / numHead)), seqLen,
              width);
  }

  lemma HoldsRows(buf: Vec, x: Matrix, n: nat, width: nat)
    requires Holds(buf, 0, x, width) && |x| == n
    ensures Rows(buf, n, width) == x
  {
    hide Row;
    forall t | 0 <= t < n ensures Rows(buf, n, width)[t] == x[t] { assert Row(buf, 0 + t, width) == x[t]; }
  }

  /** Output projection, first residual, both feed-forward layers and the second residual. */
  method AfterAttention(m: Math, input: array<real>, seqLen: nat, width: nat, ghost headSize: nat, ghost cols: nat,
                        w: Weights<array<real>>, temp: array<real>, output: array<real>, ghost x: Matrix)
    requires MathLaws(m) && width >= 1 && ArraysFit(w, width) && Apart(w, temp) && Apart(w, output)
    requires input != temp && output != temp && WeightShapes(Values(w), width) && (cols == 0 || headSize >= 1)
    requires RowStart(seqLen, width) <= input.Length && RowStart(seqLen, width) <= output.Length
    requires RowStart(4 * seqLen, width) <= temp.Length
    requires |x| == seqLen && Shaped(x, width) && Holds(input[..], 0, x, width)
    requires Attended(m, temp[..], x, Values(w), seqLen, width, headSize, cols)
    modifies temp, output
    ensures Holds(output[..], 0, Layer(m, Values(w), x, width, headSize, cols), width)
    ensures KeptRows(old(output[..]), output[..], 0, seqLen, width)
  {
    hide RowStart, Row, MathLaws, Holds, KeptRows, Project, Attention, AddAndNorm, Activate;
    Fewer(seqLen, 4 * seqLen, width);
    Fewer(3 * seqLen, 4 * seqLen, width);
    ghost var context := Attention(m, Project(w.wq[..], w.bq[..], x), Project(w.wk[..], w.bk[..], x),
                                   Project(w.wv[..], w.bv[..], x), headSize, cols, width);
    var selfOut, ln1Out, ff1Out, ff2Out := 0, 2 * seqLen, 0, 2 * seqLen;
    ProjectRows(w.wSelfOut, w.bSelfOut, temp, 3 * seqLen, temp, selfOut, seqLen, width, context);
    ghost var projected := Project(w.wSelfOut[..], w.bSelfOut[..], context);
    NormRows(m, temp, selfOut, input, w.ln1Gamma, w.ln1Beta, temp, ln1Out, seqLen, width, projected, x);
    ghost var normed := AddAndNorm(m, projected, x, w.ln1Gamma[..], w.ln1Beta[..]);
    FeedForwardRows(m, w.wIntmFc, w.bIntmFc, temp, ln1Out, ff1Out, seqLen, width, normed);
    ghost var hidden := Activate(m, Project(w.wIntmFc[..], w.bIntmFc[..], normed), width);
    ProjectRows(w.wOutFc, w.bOutFc, temp, ff1Out, temp, ff2Out, seqLen, width, hidden);
    ghost var last := Project(w.wOutFc[..], w.bOutFc[..], hidden);
    NormRows(m, temp, ff2Out, input, w.ln2Gamma, w.ln2Beta, output, 0, seqLen, width, last, x);
  }
}
