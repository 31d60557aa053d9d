/** The addresses the end-to-end test compiles the layer with, and when they leave the firmware's fixed work area
    alone. */
module BertLayout {
  import opened Arithmetic
  import opened BertAttention
  import opened BertBanks
  import opened BertLayer
  import D = Device
  import N = Numbers
  import T = TiledMvm

  /** Input rows from address zero, six matrices each followed by its bias, then the normalisation parameters. */
  function Generated(hidden: nat, seqLen: nat, nt: nat): Layout
  {
    var base := RowStart(seqLen, hidden) + 4;
    var mat := hidden * hidden;
    var stride := mat + hidden;
    var ln := base + 6 * stride;
    Layout(base, base + mat, base + stride, base + stride + mat, base + 2 * stride, base + 2 * stride + mat,
           base + 3 * stride, base + 3 * stride + mat, base + 4 * stride, base + 4 * stride + mat,
           base + 5 * stride, base + 5 * stride + mat, ln, ln + nt * 8, ln + 2 * (nt * 8), ln + 3 * (nt * 8))
  }

  /** The last address behind the projections. */
  function ProjectionsEnd(hidden: nat, seqLen: nat): nat
  {
    RowStart(seqLen, hidden) + 4 + 6 * (hidden * hidden + hidden)
  }

  predicate Free(inp: Input, mat: nat, bias: nat)
  {
    TilesClear(inp, Projection([], [], mat, bias)) && Clear(bias, inp.Width())
  }

  predicate ProjectionsFree(inp: Input, at: Layout)
  {
    Free(inp, at.q, at.qb) && Free(inp, at.k, at.kb) && Free(inp, at.v, at.vb) &&
    Free(inp, at.so, at.sob) && Free(inp, at.wi, at.wib) && Free(inp, at.wo, at.wob)
  }

  predicate NormFree(inp: Input, at: nat)
  {
    forall t :: 0 <= t < inp.nt ==> Spared(inp.n, at + RowStart(t, STRIDE))
  }

  /** The projections stay out of the work area if and only if they end where the saved queries begin. */
  lemma ProjectionsFreeIff(c: D.Config, inp: Input)
    requires inp.Fits(c)
    ensures ProjectionsFree(inp, Generated(inp.Width(), |inp.x|, inp.nt)) <==>
            ProjectionsEnd(inp.Width(), |inp.x|) <= 0x200
  {
    var w, at := inp.Width(), Generated(inp.Width(), |inp.x|, inp.nt);
    InputsShort(c, inp);
    hide RowStart, TilesClear;
    if ProjectionsEnd(w, |inp.x|) <= 0x200 {
      FreeBelow(c, inp, at.q, at.qb);
      FreeBelow(c, inp, at.k, at.kb);
      FreeBelow(c, inp, at.v, at.vb);
      FreeBelow(c, inp, at.so, at.sob);
      FreeBelow(c, inp, at.wi, at.wib);
      FreeBelow(c, inp, at.wo, at.wob);
    }
  }

  lemma InputsShort(c: D.Config, inp: Input)
    requires inp.Fits(c)
    ensures 1 <= inp.Width() <= 16 && inp.Width() * inp.Width() <= 256 && RowStart(|inp.x|, inp.Width()) <= 0x100
  {
    WidthIs(c, inp);
    WiderRows(|inp.x|, inp.Width(), inp.nt * STRIDE);
    WiderRows(inp.Width(), inp.Width(), 16);
  }

  lemma FreeBelow(c: D.Config, inp: Input, mat: nat, bias: nat)
    requires inp.Fits(c) && bias == mat + inp.Width() * inp.Width() && bias + inp.Width() <= 0x200
    ensures Free(inp, mat, bias)
  {
    var n := inp.n;
    forall tr, tc | 0 <= tr < inp.nt && 0 <= tc < inp.nt
      ensures T.TileAt(mat, tr, tc, inp.nt, n) + n * n <= bias
    {
      if inp.nt == 2 { assert (n + n) * (n + n) == 4 * (n * n); }
    }
  }

  /** Input of a tested size; the numbers do not matter. */
  function Sized(n: nat, nt: nat, seqLen: nat): Input
  {
    Input(seq(seqLen, i => []), nt, n)
  }

  predicate AllFree(n: nat, nt: nat, hidden: nat, seqLen: nat)
  {
    var inp, at := Sized(n, nt, seqLen), Generated(hidden, seqLen, nt);
    RowStart(seqLen, nt * STRIDE) <= 0x100 && ProjectionsEnd(hidden, seqLen) <= 0x200 && NormFree(inp, at.gamma1) &&
    NormFree(inp, at.beta1) && NormFree(inp, at.gamma2) && NormFree(inp, at.beta2)
  }

  lemma Tested(n: nat, nt: nat, hidden: nat, seqLen: nat, ln: nat)
    requires 1 <= nt <= 2 && RowStart(seqLen, nt * STRIDE) <= 0x100 && ln == ProjectionsEnd(hidden, seqLen) <= 0x200
    requires forall k :: 0 <= k < 4 * nt ==> Spared(n, ln + RowStart(k, STRIDE))
    ensures AllFree(n, nt, hidden, seqLen)
  {
    var inp := Sized(n, nt, seqLen);
    hide Spared, RowStart, Generated;
    ParamsFollow(hidden, seqLen, nt);
    OneFree(inp, ln, 0);
    OneFree(inp, ln, nt);
    OneFree(inp, ln, 2 * nt);
    OneFree(inp, ln, 3 * nt);
  }

  lemma ParamsFollow(hidden: nat, seqLen: nat, nt: nat)
    ensures var at, ln := Generated(hidden, seqLen, nt), ProjectionsEnd(hidden, seqLen);
            at.gamma1 == ln && at.beta1 == ln + nt * 8 && at.gamma2 == ln + (2 * nt) * 8 &&
            at.beta2 == ln + (3 * nt) * 8
  {
    hide RowStart;
  }

  lemma OneFree(inp: Input, ln: nat, first: nat)
    requires forall k :: 0 <= k < 4 * inp.nt ==> Spared(inp.n, ln + RowStart(k, STRIDE))
    requires first <= 3 * inp.nt
    ensures NormFree(inp, ln + first * 8)
  {
    hide Spared;
    forall t | 0 <= t < inp.nt ensures Spared(inp.n, ln + first * 8 + RowStart(t, STRIDE)) {
      assert ln + first * 8 + RowStart(t, STRIDE) == ln + RowStart(first + t, STRIDE);
    }
  }

  lemma TestedPairs()
    ensures AllFree(2, 2, 4, 2) && AllFree(2, 2, 4, 6) && AllFree(4, 2, 8, 2) && AllFree(4, 2, 8, 6)
  {
    Tested(2, 2, 4, 2, 132);
    Tested(2, 2, 4, 6, 148);
    Tested(4, 2, 8, 2, 452);
    Tested(4, 2, 8, 6, 484);
    hide AllFree;
  }

  /** Every configuration of the end-to-end test stays clear of the work area.  The one with two tiles of four and six
      positions puts its second pair of normalisation parameters into the gaps between saved query tiles. */
  lemma TestedLayouts()
    ensures AllFree(2, 2, 4, 2) && AllFree(2, 2, 4, 6) && AllFree(4, 2, 8, 2) && AllFree(4, 2, 8, 6)
    ensures AllFree(4, 1, 4, 2) && AllFree(4, 1, 4, 6)
  {
    TestedPairs();
    Tested(4, 1, 4, 2, 132);
    Tested(4, 1, 4, 6, 148);
    hide AllFree;
  }

  /** With two tiles of eight no sequence fits: the saved keys lie inside the value weights. */
  lemma SixteenNeverFits(c: D.Config, inp: Input)
    requires inp.Fits(c) && inp.Width() == 16
    ensures !ProjectionsFree(inp, Generated(16, |inp.x|, inp.nt))
    ensures |inp.x| == 1 ==> Generated(16, 1, 2).v <= 0x300 && 0x300 + STRIDE <= Generated(16, 1, 2).vb
  {
    ProjectionsFreeIff(c, inp);
  }

  /** What that overlap does: once a first key tile is saved, the value weights are still stored only if the key
      equals the weights it fell on. */
  lemma KeysOverwriteValues(dram: N.Vec, p: T.Problem, key: N.Vec)
    requires p.nt == 2 && p.n == 8 && |p.w| == 16 && |key| == 8 && forall i :: 0 <= i < 16 ==> |p.w[i]| == 16
    requires StoredAt(dram, 0x300, key)
    requires T.TileStored(dram, T.TileAt(Generated(16, 1, 2).v, 1, 1, 2, 8), p, 1, 1)
    ensures key == p.w[9][12..16] + p.w[10][8..12]
  {
    ValueTile();
    hide T.TileAt, Generated, RowStart;
    RowOfTile(dram, 756, p, 1);
    RowOfTile(dram, 756, p, 2);
    hide T.TileStored;
    Between(dram, 764, p.w[9][8..16], p.w[10][8..16], key);
  }

  /** The last tile of the value weights, whose second and third row the first key tile meets. */
  lemma ValueTile()
    ensures T.TileAt(Generated(16, 1, 2).v, 1, 1, 2, 8) == 756 && RowStart(1, 8) == 8 && RowStart(2, 8) == 16
  {
    assert Generated(16, 1, 2).v == 564 by {
      assert RowStart(1, 16) == 16;
      hide RowStart;
    }
    hide Generated;
  }

  lemma RowOfTile(dram: N.Vec, at: nat, p: T.Problem, i: nat)
    requires p.nt == 2 && |p.w| == p.Size() && i < p.n && p.n == 8 && |p.w[8 + i]| == 16
    requires T.TileStored(dram, at, p, 1, 1)
    ensures StoredAt(dram, at + RowStart(i, 8), p.w[8 + i][8..16])
  {
    hide RowStart;
    assert p.At(1) == 8;
  }

  lemma Between(dram: N.Vec, at: nat, u: N.Vec, w: N.Vec, x: N.Vec)
    requires |u| == |w| == |x| == 8
    requires StoredAt(dram, at, u) && StoredAt(dram, at + 8, w) && StoredAt(dram, at + 4, x)
    ensures x == u[4..8] + w[0..4]
  {
    var a, b, c := dram[at..at + 8], dram[at + 8..at + 16], dram[at + 4..at + 12];
    assert forall i :: 0 <= i < 4 ==> c[i] == a[4 + i] && c[4 + i] == b[i];
  }
}
