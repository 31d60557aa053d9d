/** The baseline BERT encoder layer on the FP16 device: attention, self-output, residuals, layer normalisation and
    feed-forward of every position, against the stages of the NumPy reference. */
module BertLayer {
  import opened Arithmetic
  import opened Numbers
  import opened D = Device
  import opened NpuDevice
  import opened Firmware
  import opened BertBanks
  import opened Transpose
  import opened HeadAttention
  import opened BertAttention
  import L = LayernormTiles
  import T = TiledMvm

  const REG_PRECISION_MODE := 20
  const MEM_MVM_ACC_VRF := 13
  const SO_SCRATCH := 0x580
  const SCRATCH_Z := 0x600
  const SCRATCH_LN1 := 0x620
  const SCRATCH_GELU := 0x640
  const SAVE_RES_BASE := 0x700
  const SAVE_OUT_BASE := 0x800

  // ---- The reference, stage by stage ----

  /** Gamma and beta of every row tile, and where they are stored. */
  datatype Norm = Norm(gamma: seq<Vec>, beta: seq<Vec>, gammaAt: nat, betaAt: nat)

  datatype Layer = Layer(w: Weights, so: Projection, wi: Projection, wo: Projection, ln1: Norm, ln2: Norm)

  ghost predicate GoodNorm(c: Config, inp: Input, nrm: Norm)
  {
    |nrm.gamma| == |nrm.beta| == inp.nt && Exacts(c, nrm.gamma) && Exacts(c, nrm.beta)
  }

  ghost predicate GoodLayer(c: Config, inp: Input, l: Layer)
  {
    inp.Fits(c) && Exact(c) && Sound(c, inp, l.w.q) && Sound(c, inp, l.w.k) && Sound(c, inp, l.w.v) &&
    GoodProjection(c, inp, l.so) && GoodProjection(c, inp, l.wi) && GoodProjection(c, inp, l.wo) &&
    GoodNorm(c, inp, l.ln1) && GoodNorm(c, inp, l.ln2) &&
    forall p :: 0 <= p < |inp.x| ==> |inp.x[p]| == inp.Width() && Fixed(c, inp.x[p])
  }

  /** The tiles side by side. */
  ghost function Row(tiles: seq<Vec>): Vec
  {
    if |tiles| == 1 then tiles[0] else if |tiles| == 2 then tiles[0] + tiles[1] else []
  }

  lemma RowExact(c: Config, inp: Input, tiles: seq<Vec>)
    requires inp.Fits(c) && |tiles| == inp.nt && Exacts(c, tiles)
    ensures |Row(tiles)| == inp.Width() && Fixed(c, Row(tiles))
  {
    var r := Row(tiles);
    forall i | 0 <= i < |r| ensures Rnd(c, r[i]) == r[i] {
      var t := if i < inp.n then 0 else 1;
      assert r[i] == tiles[t][i - (if t == 0 then 0 else inp.n)];
      assert RndVec(c, tiles[t])[i - (if t == 0 then 0 else inp.n)] == tiles[t][i - (if t == 0 then 0 else inp.n)];
    }
  }

  /** round(_tiled_mvm(W, row) + b), by row tiles. */
  ghost function Through(c: Config, inp: Input, pr: Projection, tiles: seq<Vec>): (r: seq<Vec>)
    requires inp.Fits(c) && Exact(c) && GoodProjection(c, inp, pr) && |tiles| == inp.nt && Exacts(c, tiles)
    ensures |r| == inp.nt && Exacts(c, r)
  {
    RowExact(c, inp, tiles);
    ProjectedExact(c, T.Problem(pr.w, Row(tiles), pr.b, inp.nt, inp.n));
    ProjectTiles(c, T.Problem(pr.w, Row(tiles), pr.b, inp.nt, inp.n))
  }

  /** round(a + b), by row tiles. */
  ghost function Residual(c: Config, a: seq<Vec>, b: seq<Vec>): (r: seq<Vec>)
    requires Exact(c) && |a| == |b| && Exacts(c, a) && Exacts(c, b)
    ensures |r| == |a| && Exacts(c, r) && forall t :: 0 <= t < |a| ==> r[t] == Lanes(c, OP_VV_ADD, a[t], b[t])
  {
    LanesExact(c);
    seq(|a|, t requires 0 <= t < |a| => Lanes(c, OP_VV_ADD, a[t], b[t]))
  }

  lemma LanesExact(c: Config)
    requires RoundingIdempotent(c)
    ensures forall a, b :: Fixed(c, Lanes(c, OP_VV_ADD, a, b))
  {
    hide Lane;
    forall a: Vec, b: Vec | true ensures Fixed(c, Lanes(c, OP_VV_ADD, a, b)) {
      forall i | 0 <= i < |Lanes(c, OP_VV_ADD, a, b)|
        ensures Rnd(c, Lanes(c, OP_VV_ADD, a, b)[i]) == Lanes(c, OP_VV_ADD, a, b)[i]
      {
        assert RoundsOnce(c, Lane(OP_VV_ADD, a[i], b[i]));
      }
    }
  }

  /** Each row tile normalised on its own. */
  ghost function Normalised(c: Config, nrm: Norm, tiles: seq<Vec>): (r: seq<Vec>)
    requires Exact(c) && Exacts(c, tiles) && |nrm.gamma| == |nrm.beta| == |tiles|
    ensures |r| == |tiles| && Exacts(c, r)
    ensures forall t :: 0 <= t < |tiles| ==> r[t] == L.Normed(c, L.Problem(tiles, nrm.gamma, nrm.beta), t)
  {
    NormalisedFixed(c, nrm, tiles);
    seq(|tiles|, t requires 0 <= t < |tiles| => L.Normed(c, L.Problem(tiles, nrm.gamma, nrm.beta), t))
  }

  lemma NormalisedFixed(c: Config, nrm: Norm, tiles: seq<Vec>)
    requires Exact(c) && |nrm.gamma| == |nrm.beta| == |tiles|
    ensures forall t :: 0 <= t < |tiles| ==> Fixed(c, L.Normed(c, L.Problem(tiles, nrm.gamma, nrm.beta), t))
  {
    forall t | 0 <= t < |tiles| ensures Fixed(c, L.Normed(c, L.Problem(tiles, nrm.gamma, nrm.beta), t)) {
      RoundedIsFixed(c, LayernormVec(c, tiles[t], nrm.gamma[t], nrm.beta[t]));
    }
  }

  /** round(gelu(v)), lane by lane. */
  function GeluTile(c: Config, v: Vec): (w: Vec)
    ensures |w| == |v| && forall i :: 0 <= i < |v| ==> w[i] == Rnd(c, c.k.gelu(v[i]))
  {
    seq(|v|, i requires 0 <= i < |v| => Rnd(c, c.k.gelu(v[i])))
  }

  ghost function Gelus(c: Config, tiles: seq<Vec>): (r: seq<Vec>)
    requires Exact(c) && Exacts(c, tiles)
    ensures |r| == |tiles| && Exacts(c, r) && forall t :: 0 <= t < |tiles| ==> r[t] == GeluTile(c, tiles[t])
  {
    assert forall t :: 0 <= t < |tiles| ==> Fixed(c, GeluTile(c, tiles[t])) by {
      forall t | 0 <= t < |tiles| ensures Fixed(c, GeluTile(c, tiles[t])) { GeluFixed(c, tiles[t]); }
    }
    seq(|tiles|, t requires 0 <= t < |tiles| => GeluTile(c, tiles[t]))
  }

  lemma GeluFixed(c: Config, v: Vec)
    requires Exact(c)
    ensures Fixed(c, GeluTile(c, v))
  {
    forall i | 0 <= i < |v| ensures Rnd(c, GeluTile(c, v)[i]) == GeluTile(c, v)[i] {
      assert RoundsOnce(c, c.k.gelu(v[i]));
    }
  }

  /** Tile t of an input row. */
  ghost function InputTiles(c: Config, inp: Input, pos: nat): (r: seq<Vec>)
    requires inp.Fits(c) && pos < |inp.x| && |inp.x[pos]| == inp.Width() && Fixed(c, inp.x[pos])
    ensures |r| == inp.nt && Exacts(c, r)
    ensures r[0] == inp.x[pos][..inp.n] && (inp.nt == 2 ==> r[1] == inp.x[pos][inp.n..])
  {
    SliceFixed(c, inp.x[pos], 0, inp.n);
    SliceFixed(c, inp.x[pos], inp.n, inp.Width());
    if inp.nt == 1 then [inp.x[pos][..inp.n]] else [inp.x[pos][..inp.n], inp.x[pos][inp.n..]]
  }

  /** The attention context of a query, by row tiles. */
  ghost function ContextTiles(c: Config, inp: Input, w: Weights, pos: nat, headSize: nat): (r: seq<Vec>)
    requires inp.Fits(c) && Exact(c) && pos < |inp.x| && Sound(c, inp, w.q) && Sound(c, inp, w.k) && Sound(c, inp, w.v)
    ensures |r| == inp.nt && Exacts(c, r)
    ensures forall t :: 0 <= t < inp.nt ==> r[t] == HeadTile(c, inp, w, pos, t, headSize)
  {
    ContextsFixed(c, inp, w, pos, headSize);
    seq(inp.nt, t requires 0 <= t < inp.nt => HeadTile(c, inp, w, pos, t, headSize))
  }

  lemma ContextsFixed(c: Config, inp: Input, w: Weights, pos: nat, headSize: nat)
    requires inp.Fits(c) && Exact(c) && pos < |inp.x| && Sound(c, inp, w.q) && Sound(c, inp, w.k) && Sound(c, inp, w.v)
    ensures forall t :: 0 <= t < inp.nt ==> Fixed(c, HeadTile(c, inp, w, pos, t, headSize))
  {
    hide Fixed, T.GoldenTile;
    forall t | 0 <= t < inp.nt ensures Fixed(c, HeadTile(c, inp, w, pos, t, headSize)) {
      if headSize <= c.dim {
        HeadContextFixed(c, TileRows(c, inp, w.k, t), TileRows(c, inp, w.v, t), TileRows(c, inp, w.q, t)[pos],
                         headSize);
      }
    }
  }

  /** First half of the layer for one position: layer_norm_output of the reference. */
  ghost function Attended(c: Config, inp: Input, l: Layer, pos: nat, headSize: nat): (r: seq<Vec>)
    requires GoodLayer(c, inp, l) && pos < |inp.x|
    ensures |r| == inp.nt && Exacts(c, r)
  {
    Normalised(c, l.ln1,
               Residual(c, Through(c, inp, l.so, ContextTiles(c, inp, l.w, pos, headSize)), InputTiles(c, inp, pos)))
  }

  /** The layer's output for one position. */
  ghost function LayerOut(c: Config, inp: Input, l: Layer, pos: nat, headSize: nat): (r: seq<Vec>)
    requires GoodLayer(c, inp, l) && pos < |inp.x|
    ensures |r| == inp.nt && Exacts(c, r)
  {
    var hidden := Gelus(c, Through(c, inp, l.wi, Attended(c, inp, l, pos, headSize)));
    Normalised(c, l.ln2, Residual(c, Through(c, inp, l.wo, hidden), InputTiles(c, inp, pos)))
  }

  // ---- Memory ----

  /** A tile the layer never overwrites: outside the work area, or in a gap between saved row tiles. */
  predicate Spared(n: nat, at: nat)
  {
    Clear(at, n) || (SAVE_Q_BASE <= at && at + STRIDE <= SCRATCH_ADDR && n <= at % STRIDE <= STRIDE - n)
  }

  ghost predicate NormLoaded(c: Config, dram: Vec, inp: Input, nrm: Norm)
  {
    GoodNorm(c, inp, nrm) &&
    (forall t :: 0 <= t < inp.nt ==>
      Spared(inp.n, nrm.gammaAt + RowStart(t, STRIDE)) && Spared(inp.n, nrm.betaAt + RowStart(t, STRIDE))) &&
    TilesStored(dram, nrm.gammaAt, STRIDE, nrm.gamma) && TilesStored(dram, nrm.betaAt, STRIDE, nrm.beta)
  }

  /** What every position needs in DRAM; the work of a position leaves it in place. */
  ghost predicate LayerReady(c: Config, dram: Vec, inp: Input, l: Layer)
  {
    AttentionReady(c, dram, inp, l.w) && MatrixLoaded(c, dram, inp, l.so) && MatrixLoaded(c, dram, inp, l.wi) &&
    MatrixLoaded(c, dram, inp, l.wo) && NormLoaded(c, dram, inp, l.ln1) && NormLoaded(c, dram, inp, l.ln2)
  }

  lemma TilesKept(c: Config, a: Vec, b: Vec, lo: nat, hi: nat, base: nat, step: nat, tiles: seq<Vec>)
    requires SameOutside(a, b, lo, hi) && TilesStored(a, base, step, tiles) && Exacts(c, tiles) && c.dim <= step
    requires base + |tiles| * step <= lo || hi <= base
    ensures TilesStored(b, base, step, tiles)
  {
    hide Fixed;
    forall t | 0 <= t < |tiles| ensures StoredAt(b, base + RowStart(t, step), tiles[t]) {
      TileStep(|tiles|, t, step);
      StoredKept(a, b, lo, hi, base + RowStart(t, step), tiles[t]);
    }
  }

  lemma SparedKept(a: Vec, b: Vec, n: nat, at: nat, v: Vec)
    requires SameOutside(a, b, SAVE_Q_BASE, WORK_END) && GapsKept(a, b, n) && Spared(n, at) && |v| == n
    requires StoredAt(a, at, v)
    ensures StoredAt(b, at, v)
  {
    if !Clear(at, n) {
      forall i | at <= i < at + n ensures b[i] == a[i] {
        assert i % STRIDE == at % STRIDE + (i - at);
      }
    }
    assert b[at..at + n] == a[at..at + n];
  }

  lemma NormKept(c: Config, a: Vec, b: Vec, inp: Input, nrm: Norm)
    requires inp.Fits(c) && NormLoaded(c, a, inp, nrm)
    requires SameOutside(a, b, SAVE_Q_BASE, WORK_END) && GapsKept(a, b, c.dim)
    ensures NormLoaded(c, b, inp, nrm)
  {
    hide Fixed, StoredAt, Spared;
    forall t | 0 <= t < inp.nt
      ensures StoredAt(b, nrm.gammaAt + RowStart(t, STRIDE), nrm.gamma[t])
      ensures StoredAt(b, nrm.betaAt + RowStart(t, STRIDE), nrm.beta[t])
    {
      SparedKept(a, b, inp.n, nrm.gammaAt + RowStart(t, STRIDE), nrm.gamma[t]);
      SparedKept(a, b, inp.n, nrm.betaAt + RowStart(t, STRIDE), nrm.beta[t]);
    }
  }

  lemma LayerKept(c: Config, a: Vec, b: Vec, inp: Input, l: Layer, lo: nat, hi: nat)
    requires inp.Fits(c) && LayerReady(c, a, inp, l) && SameOutside(a, b, lo, hi)
    requires SCRATCH_ADDR <= lo && hi <= WORK_END
    ensures LayerReady(c, b, inp, l)
  {
    OutsideWidens(a, b, lo, hi, SAVE_Q_BASE, WORK_END);
    ScratchSparesGaps(a, b, lo, hi, c.dim);
    hide AttentionReady, MatrixLoaded, NormLoaded;
    ReadyKept(c, a, b, inp, l.w, lo, hi);
    MatrixKept(c, a, b, inp, l.so);
    MatrixKept(c, a, b, inp, l.wi);
    MatrixKept(c, a, b, inp, l.wo);
    NormKept(c, a, b, inp, l.ln1);
    NormKept(c, a, b, inp, l.ln2);
  }

  lemma RowStored(c: Config, dram: Vec, inp: Input, tiles: seq<Vec>, vec: nat)
    requires inp.Fits(c) && |tiles| == inp.nt && Exacts(c, tiles) && TilesStored(dram, vec, inp.n, tiles)
    ensures StoredAt(dram, vec, Row(tiles))
  {
    hide Fixed, StoredAt;
    var n := inp.n;
    assert RowStart(0, n) == 0 && RowStart(1, n) == n;
    assert StoredAt(dram, vec + RowStart(0, n), tiles[0]);
    if inp.nt == 2 {
      assert StoredAt(dram, vec + RowStart(1, n), tiles[1]);
      SideBySide(dram, vec, tiles[0], tiles[1]);
    }
  }

  lemma SideBySide(dram: Vec, at: nat, a: Vec, b: Vec)
    requires StoredAt(dram, at, a) && StoredAt(dram, at + |a|, b)
    ensures StoredAt(dram, at, a + b)
  {
    assert dram[at..at + |a| + |b|] == dram[at..at + |a|] + dram[at + |a|..at + |a| + |b|];
  }

  lemma InputStored(c: Config, dram: Vec, inp: Input, pos: nat)
    requires inp.Fits(c) && InputLoaded(c, dram, inp) && pos < |inp.x|
    ensures |inp.x[pos]| == inp.Width() && Fixed(c, inp.x[pos])
    ensures TilesStored(dram, RowStart(pos, inp.Width()), inp.n, InputTiles(c, inp, pos))
  {
    hide Fixed;
    var at, n, w := RowStart(pos, inp.Width()), inp.n, inp.Width();
    assert StoredAt(dram, at, inp.x[pos]);
    assert RowStart(0, n) == 0 && RowStart(1, n) == n;
    assert dram[at..at + n] == dram[at..at + w][..n];
    assert dram[at + n..at + w] == dram[at..at + w][n..];
  }

  // ---- The firmware ----

  /** A projection of a row stored tile behind tile. */
  method ProjectStored(npu: NpuDeviceMini, ghost inp: Input, ghost pr: Projection, ghost tiles: seq<Vec>,
                       mat: nat, vec: nat, nt: nat, bias: nat)
    modifies npu
    requires HeadReady(npu.c, npu.View()) && Exact(npu.c) && inp.Fits(npu.c) && nt == inp.nt == |tiles|
    requires MatrixLoaded(npu.c, npu.vrf[MEM_DRAM], inp, pr) && mat == pr.mat && bias == pr.bias
    requires Exacts(npu.c, tiles) && TilesStored(npu.vrf[MEM_DRAM], vec, inp.n, tiles)
    ensures HeadReady(npu.c, npu.View()) && npu.vrf[MEM_DRAM] == old(npu.vrf)[MEM_DRAM]
    ensures TilesHeld(npu.c, npu.View(), Through(npu.c, inp, pr, tiles))
  {
    RowExact(npu.c, inp, tiles);
    RowStored(npu.c, npu.vrf[MEM_DRAM], inp, tiles, vec);
    ProblemStored(npu.c, npu.vrf[MEM_DRAM], inp, pr, Row(tiles), vec);
    hide Fixed, FullMask, RoundingIdempotent, MatrixLoaded, TilesHeld, T.Stored;
    Project(npu, T.Problem(pr.w, Row(tiles), pr.b, inp.nt, inp.n), mat, vec, nt, bias);
  }

  /** V_WR to the bank of one tile row. */
  method StoreTile(npu: NpuDeviceMini, ghost tiles: seq<Vec>, tr: nat, ghost v: Vec)
    modifies npu
    requires HeadReady(npu.c, npu.View()) && TilesHeld(npu.c, npu.View(), tiles) && tr < |tiles|
    requires npu.pipeline == Some(v) && |v| == npu.c.dim && Fixed(npu.c, v)
    ensures HeadReady(npu.c, npu.View()) && npu.vrf[MEM_DRAM] == old(npu.vrf)[MEM_DRAM]
    ensures TilesHeld(npu.c, npu.View(), tiles[tr := v])
  {
    hide Fixed, FullMask;
    Store(npu, TileBank(tr), v);
  }

  /** One tile of a residual: load both operands in the given order, add, store to the tile's bank. */
  method AddTile(npu: NpuDeviceMini, ghost tiles: seq<Vec>, tr: nat, ghost v: Vec, at: nat, storedFirst: bool)
    modifies npu
    requires HeadReady(npu.c, npu.View()) && Exact(npu.c) && TilesHeld(npu.c, npu.View(), tiles) && tr < |tiles|
    requires StoredAt(npu.vrf[MEM_DRAM], at, v) && |v| == npu.c.dim && Fixed(npu.c, v)
    ensures HeadReady(npu.c, npu.View()) && npu.vrf[MEM_DRAM] == old(npu.vrf)[MEM_DRAM]
    ensures TilesHeld(npu.c, npu.View(), tiles[tr := if storedFirst then Lanes(npu.c, OP_VV_ADD, v, tiles[tr])
                                                     else Lanes(npu.c, OP_VV_ADD, tiles[tr], v)])
  {
    LanesExact(npu.c);
    hide FullMask, RoundingIdempotent, Fixed;
    if storedFirst {
      FetchDram(npu, at, v);
      Fetch(npu, TileBank(tr), tiles[tr]);
      SendVV(npu, OP_VV_ADD);
      StoreTile(npu, tiles, tr, Lanes(npu.c, OP_VV_ADD, v, tiles[tr]));
    } else {
      Fetch(npu, TileBank(tr), tiles[tr]);
      FetchDram(npu, at, v);
      SendVV(npu, OP_VV_ADD);
      StoreTile(npu, tiles, tr, Lanes(npu.c, OP_VV_ADD, tiles[tr], v));
    }
  }

  /** The first t tiles of a, then those of b. */
  ghost function Mixed(a: seq<Vec>, b: seq<Vec>, t: nat): (r: seq<Vec>)
    requires |a| == |b| && t <= |a|
    ensures |r| == |a|
  {
    a[..t] + b[t..]
  }

  lemma MixStep(a: seq<Vec>, b: seq<Vec>, t: nat)
    requires |a| == |b| && t < |a|
    ensures Mixed(a, b, t)[t] == b[t] && Mixed(a, b, t)[t := a[t]] == Mixed(a, b, t + 1)
  {
  }

  lemma MixEnds(a: seq<Vec>, b: seq<Vec>)
    requires |a| == |b|
    ensures Mixed(a, b, 0) == b && Mixed(a, b, |a|) == a
  {
  }

  lemma TileOf(c: Config, dram: Vec, at: nat, step: nat, tiles: seq<Vec>, t: nat)
    requires TilesStored(dram, at, step, tiles) && Exacts(c, tiles) && t < |tiles|
    ensures StoredAt(dram, at + RowStart(t, step), tiles[t]) && |tiles[t]| == c.dim && Fixed(c, tiles[t])
  {
  }

  /** The first residual: stored tiles plus held tiles, the stored one as first operand. */
  method AddToStored(npu: NpuDeviceMini, ghost a: seq<Vec>, ghost b: seq<Vec>, nt: nat, at: nat)
    modifies npu
    requires HeadReady(npu.c, npu.View()) && Exact(npu.c) && Exacts(npu.c, a) && |a| == |b| == nt
    requires TilesStored(npu.vrf[MEM_DRAM], at, npu.c.dim, a) && TilesHeld(npu.c, npu.View(), b)
    ensures HeadReady(npu.c, npu.View()) && npu.vrf[MEM_DRAM] == old(npu.vrf)[MEM_DRAM]
    ensures TilesHeld(npu.c, npu.View(), Residual(npu.c, a, b))
  {
    ghost var sum := Residual(npu.c, a, b);
    MixEnds(sum, b);
    hide Exacts, TilesStored, TilesHeld, StoredAt, Fixed, FullMask, RoundingIdempotent, Residual, Mixed, Lanes;
    ghost var dram := npu.vrf[MEM_DRAM];
    var tr := 0;
    while tr < nt
      invariant tr <= nt && HeadReady(npu.c, npu.View()) && npu.vrf[MEM_DRAM] == dram
      invariant TilesHeld(npu.c, npu.View(), Mixed(sum, b, tr))
    {
      MixStep(sum, b, tr);
      TileOf(npu.c, dram, at, npu.c.dim, a, tr);
      AddTile(npu, Mixed(sum, b, tr), tr, a[tr], at + RowStart(tr, npu.c.dim), true);
      tr := tr + 1;
    }
  }

  /** load_and_add_row_tiles: held tiles plus stored tiles. */
  method LoadAndAdd(npu: NpuDeviceMini, ghost a: seq<Vec>, ghost b: seq<Vec>, nt: nat, at: nat)
    modifies npu
    requires HeadReady(npu.c, npu.View()) && Exact(npu.c) && Exacts(npu.c, b) && |a| == |b| == nt && npu.c.dim <= STRIDE
    requires TilesHeld(npu.c, npu.View(), a) && TilesStored(npu.vrf[MEM_DRAM], at, STRIDE, b)
    ensures HeadReady(npu.c, npu.View()) && npu.vrf[MEM_DRAM] == old(npu.vrf)[MEM_DRAM]
    ensures TilesHeld(npu.c, npu.View(), Residual(npu.c, a, b))
  {
    ghost var sum := Residual(npu.c, a, b);
    MixEnds(sum, a);
    hide Exacts, TilesStored, TilesHeld, StoredAt, Fixed, FullMask, RoundingIdempotent, Residual, Mixed, Lanes,
      RowStart;
    ghost var dram := npu.vrf[MEM_DRAM];
    var tr := 0;
    while tr < nt
      invariant tr <= nt && HeadReady(npu.c, npu.View()) && npu.vrf[MEM_DRAM] == dram
      invariant TilesHeld(npu.c, npu.View(), Mixed(sum, a, tr))
    {
      LoadAndAddTile(npu, a, b, sum, tr, at);
      tr := tr + 1;
    }
  }

  /** One tile of it. */
  method LoadAndAddTile(npu: NpuDeviceMini, ghost a: seq<Vec>, ghost b: seq<Vec>, ghost sum: seq<Vec>, tr: nat, at: nat)
    modifies npu
    requires HeadReady(npu.c, npu.View()) && Exact(npu.c) && Exacts(npu.c, b) && tr < |a| == |b| == |sum|
    requires npu.c.dim <= STRIDE && TilesStored(npu.vrf[MEM_DRAM], at, STRIDE, b)
    requires forall t :: 0 <= t < |a| ==> sum[t] == Lanes(npu.c, OP_VV_ADD, a[t], b[t])
    requires TilesHeld(npu.c, npu.View(), Mixed(sum, a, tr))
    ensures HeadReady(npu.c, npu.View()) && npu.vrf[MEM_DRAM] == old(npu.vrf)[MEM_DRAM]
    ensures TilesHeld(npu.c, npu.View(), Mixed(sum, a, tr + 1))
  {
    hide TilesStored, TilesHeld, StoredAt, Fixed, FullMask, RoundingIdempotent, Mixed, Lanes;
    MixStep(sum, a, tr);
    TileOf(npu.c, npu.vrf[MEM_DRAM], at, STRIDE, b, tr);
    AddTile(npu, Mixed(sum, a, tr), tr, b[tr], at + RowStart(tr, STRIDE), false);
  }

  /** Load a stored row's tiles into the context banks. */
  method LoadRowTiles(npu: NpuDeviceMini, ghost tiles: seq<Vec>, nt: nat, at: nat)
    modifies npu
    requires HeadReady(npu.c, npu.View()) && Exact(npu.c) && Exacts(npu.c, tiles) && |tiles| == nt
    requires TilesStored(npu.vrf[MEM_DRAM], at, npu.c.dim, tiles)
    ensures HeadReady(npu.c, npu.View()) && npu.vrf[MEM_DRAM] == old(npu.vrf)[MEM_DRAM]
    ensures TilesHeld(npu.c, npu.View(), tiles)
  {
    hide Fixed, FullMask, RoundingIdempotent;
    ghost var dram := npu.vrf[MEM_DRAM];
    var tr := 0;
    while tr < nt
      invariant tr <= nt && HeadReady(npu.c, npu.View()) && npu.vrf[MEM_DRAM] == dram
      invariant forall t :: 0 <= t < tr ==> Holds(npu.View(), TileBank(t), tiles[t])
    {
      FetchDram(npu, at + RowStart(tr, npu.c.dim), tiles[tr]);
      Store(npu, TileBank(tr), tiles[tr]);
      tr := tr + 1;
    }
  }

  /** GELU of one bank, whatever it holds. */
  method GeluBank(npu: NpuDeviceMini, bank: nat)
    modifies npu
    requires HeadReady(npu.c, npu.View()) && Exact(npu.c) && (bank == MEM_ADDSUB_VRF_0 || bank == MEM_ADDSUB_VRF_1)
    ensures HeadReady(npu.c, npu.View())
    ensures BanksKept(old(npu.View()), npu.View(), {MEM_MVM_INITIAL_VRF, bank})
    ensures Holds(npu.View(), bank, GeluTile(npu.c, Window(npu.c, old(npu.vrf)[bank], 0)))
  {
    ghost var v := Window(npu.c, npu.vrf[bank], 0);
    GeluFixed(npu.c, v);
    assert RndVec(npu.c, ActivateVec(npu.c, OP_V_GELU, v)) == GeluTile(npu.c, v);
    hide Fixed, FullMask, RoundingIdempotent, GeluTile, Activate;
    SendVRd(npu, bank, 0);
    SendVGelu(npu);
    Store(npu, bank, GeluTile(npu.c, v));
  }

  lemma HeldWindow(c: Config, d: Device, bank: nat, v: Vec)
    requires Holds(d, bank, v) && |v| == c.dim && Fixed(c, v)
    ensures Window(c, d.vrf[bank], 0) == v
  {
    var b := d.vrf[bank];
    assert forall i :: 0 <= i < |v| ==> b[i] == b[..|v|][i];
    assert forall i :: 0 <= i < |v| ==> Rnd(c, v[i]) == RndVec(c, v)[i];
  }

  /** GELU of both banks, also when only the first holds a tile. */
  method GeluBanks(npu: NpuDeviceMini, ghost tiles: seq<Vec>)
    modifies npu
    requires HeadReady(npu.c, npu.View()) && Exact(npu.c) && TilesHeld(npu.c, npu.View(), tiles)
    ensures HeadReady(npu.c, npu.View()) && npu.vrf[MEM_DRAM] == old(npu.vrf)[MEM_DRAM]
    ensures TilesHeld(npu.c, npu.View(), Gelus(npu.c, tiles))
  {
    ghost var out := Gelus(npu.c, tiles);
    hide Fixed, FullMask, RoundingIdempotent, Holds, Gelus;
    ghost var d0 := npu.View();
    HeldWindow(npu.c, d0, MEM_ADDSUB_VRF_0, tiles[0]);
    GeluBank(npu, MEM_ADDSUB_VRF_0);
    ghost var d1 := npu.View();
    if |tiles| == 2 {
      HoldsKept(d0, d1, {MEM_MVM_INITIAL_VRF, MEM_ADDSUB_VRF_0}, MEM_ADDSUB_VRF_1, tiles[1]);
      HeldWindow(npu.c, d1, MEM_ADDSUB_VRF_1, tiles[1]);
    }
    GeluBank(npu, MEM_ADDSUB_VRF_1);
    HoldsKept(d1, npu.View(), {MEM_MVM_INITIAL_VRF, MEM_ADDSUB_VRF_1}, MEM_ADDSUB_VRF_0, out[0]);
  }

  /** apply_layernorm with the layer's scratch address. */
  method NormaliseTiles(npu: NpuDeviceMini, ghost inp: Input, ghost nrm: Norm, ghost tiles: seq<Vec>, nt: nat,
                        gammaAt: nat, betaAt: nat)
    modifies npu
    requires HeadReady(npu.c, npu.View()) && Exact(npu.c) && inp.Fits(npu.c) && nt == inp.nt == |tiles|
    requires NormLoaded(npu.c, npu.vrf[MEM_DRAM], inp, nrm) && gammaAt == nrm.gammaAt && betaAt == nrm.betaAt
    requires TilesHeld(npu.c, npu.View(), tiles)
    ensures HeadReady(npu.c, npu.View()) && TilesHeld(npu.c, npu.View(), Normalised(npu.c, nrm, tiles))
    ensures SameOutside(old(npu.vrf)[MEM_DRAM], npu.vrf[MEM_DRAM], SCRATCH_ADDR, SCRATCH_ADDR + nt * STRIDE + STRIDE)
  {
    ghost var p := L.Problem(tiles, nrm.gamma, nrm.beta);
    ParamsOf(npu.c, npu.vrf[MEM_DRAM], inp, nrm, p);
    ghost var out := Normalised(npu.c, nrm, tiles);
    hide Fixed, FullMask, RoundingIdempotent, Holds, L.Normed, L.ParamsStored, TilesStored, Normalised, MatVec;
    L.ApplyLayernorm(npu, p, nt, gammaAt, betaAt, SCRATCH_ADDR);
    TwoHeld(npu.c, npu.View(), out);
  }

  lemma TwoHeld(c: Config, d: Device, tiles: seq<Vec>)
    requires Exacts(c, tiles) && Holds(d, MEM_ADDSUB_VRF_0, tiles[0])
    requires |tiles| == 2 ==> Holds(d, MEM_ADDSUB_VRF_1, tiles[1])
    ensures TilesHeld(c, d, tiles)
  {
    hide Fixed, Holds;
  }

  lemma ParamsOf(c: Config, dram: Vec, inp: Input, nrm: Norm, p: L.Problem)
    requires inp.Fits(c) && Exact(c) && NormLoaded(c, dram, inp, nrm) && Exacts(c, p.x) && |p.x| == inp.nt
    requires p.gamma == nrm.gamma && p.beta == nrm.beta
    ensures p.Valid(c) && L.ParamsStored(dram, p, nrm.gammaAt, nrm.betaAt)
    ensures L.Apart(SCRATCH_ADDR, inp.nt * STRIDE + STRIDE, nrm.gammaAt, inp.nt * STRIDE)
    ensures L.Apart(SCRATCH_ADDR, inp.nt * STRIDE + STRIDE, nrm.betaAt, inp.nt * STRIDE)
  {
    hide Fixed, StoredAt, RoundingIdempotent;
    assert RowStart(0, STRIDE) == 0 && RowStart(1, STRIDE) == STRIDE;
    assert Spared(inp.n, nrm.gammaAt + RowStart(0, STRIDE)) &&
           Spared(inp.n, nrm.gammaAt + RowStart(inp.nt - 1, STRIDE));
    assert Spared(inp.n, nrm.betaAt + RowStart(0, STRIDE)) && Spared(inp.n, nrm.betaAt + RowStart(inp.nt - 1, STRIDE));
    forall t | 0 <= t < |p.x|
      ensures StoredAt(dram, nrm.gammaAt + t * STRIDE, p.gamma[t])
      ensures StoredAt(dram, nrm.betaAt + t * STRIDE, p.beta[t])
    {
      assert RowStart(t, STRIDE) == t * STRIDE;
    }
  }

  // ---- One position ----

  /** save_row_tiles into the work area. */
  method SaveWork(npu: NpuDeviceMini, ghost inp: Input, ghost l: Layer, ghost tiles: seq<Vec>, nt: nat, base: nat,
                  step: nat)
    modifies npu
    requires HeadReady(npu.c, npu.View()) && Exact(npu.c) && inp.Fits(npu.c) && nt == |tiles|
    requires npu.c.dim <= step && TilesHeld(npu.c, npu.View(), tiles)
    requires LayerReady(npu.c, npu.vrf[MEM_DRAM], inp, l)
    requires SCRATCH_ADDR <= base && base + nt * step <= WORK_END
    ensures HeadReady(npu.c, npu.View()) && TilesHeld(npu.c, npu.View(), tiles)
    ensures TilesStored(npu.vrf[MEM_DRAM], base, step, tiles) && LayerReady(npu.c, npu.vrf[MEM_DRAM], inp, l)
    ensures SameOutside(old(npu.vrf)[MEM_DRAM], npu.vrf[MEM_DRAM], base, base + nt * step)
  {
    hide Fixed, FullMask, RoundingIdempotent, TilesHeld, TilesStored, LayerReady;
    ghost var dram := npu.vrf[MEM_DRAM];
    SaveRowTiles(npu, tiles, nt, base, step);
    LayerKept(npu.c, dram, npu.vrf[MEM_DRAM], inp, l, base, base + nt * step);
  }

  /** Where a position's row is saved in the residual or output region. */
  function SavedRow(base: nat, pos: nat, nt: nat): nat
  {
    base + RowStart(pos, nt * STRIDE)
  }

  /** Saved rows lie behind each other. */
  lemma SavedRowsConsecutive(base: nat, pos: nat, nt: nat)
    ensures SavedRow(base, 0, nt) == base && SavedRow(base, pos + 1, nt) == SavedRow(base, pos, nt) + nt * STRIDE
  {
    assert (pos + 1) * (nt * STRIDE) == pos * (nt * STRIDE) + nt * STRIDE;
  }

  lemma SavedRowFits(c: Config, inp: Input, base: nat, pos: nat)
    requires inp.Fits(c) && pos < |inp.x|
    ensures base <= SavedRow(base, pos, inp.nt) && SavedRow(base, pos, inp.nt) + inp.nt * STRIDE <= base + 0x100
  {
    RowBefore(pos, |inp.x|, inp.nt * STRIDE);
  }

  /** Width of a row as the loops count it. */
  lemma WidthIs(c: Config, inp: Input)
    requires inp.Fits(c)
    ensures inp.nt * inp.n == inp.Width() <= 16
  {
    if inp.nt == 1 { assert 1 * inp.n == inp.n; } else { assert 2 * inp.n == inp.n + inp.n; }
  }

  /** Context to self-output, with the context saved tile behind tile. */
  method SelfOutput(npu: NpuDeviceMini, ghost inp: Input, ghost l: Layer, ghost z: seq<Vec>, nt: nat, mat: nat,
                    bias: nat)
    modifies npu
    requires GoodLayer(npu.c, inp, l) && HeadReady(npu.c, npu.View()) && nt == inp.nt == |z|
    requires LayerReady(npu.c, npu.vrf[MEM_DRAM], inp, l) && mat == l.so.mat && bias == l.so.bias
    requires TilesHeld(npu.c, npu.View(), z)
    ensures HeadReady(npu.c, npu.View()) && LayerReady(npu.c, npu.vrf[MEM_DRAM], inp, l)
    ensures TilesStored(npu.vrf[MEM_DRAM], SO_SCRATCH, inp.n, Through(npu.c, inp, l.so, z))
    ensures SameOutside(old(npu.vrf)[MEM_DRAM], npu.vrf[MEM_DRAM], SO_SCRATCH, SCRATCH_LN1)
  {
    hide Fixed, FullMask, RoundingIdempotent, TilesStored, Through, MatrixLoaded, AttentionReady, NormLoaded, Sound;
    ghost var d0 := npu.vrf[MEM_DRAM];
    WidthIs(npu.c, inp);
    HeldExact(npu.c, npu.View(), z);
    hide TilesHeld;
    SaveWork(npu, inp, l, z, nt, SCRATCH_Z, npu.c.dim);
    ghost var d1 := npu.vrf[MEM_DRAM];
    ProjectStored(npu, inp, l.so, z, mat, SCRATCH_Z, nt, bias);
    hide LayerReady;
    SaveWork(npu, inp, l, Through(npu.c, inp, l.so, z), nt, SO_SCRATCH, npu.c.dim);
    OutsideWidens(d0, d1, SCRATCH_Z, SCRATCH_Z + nt * npu.c.dim, SO_SCRATCH, SCRATCH_LN1);
    OutsideWidens(d1, npu.vrf[MEM_DRAM], SO_SCRATCH, SO_SCRATCH + nt * npu.c.dim, SO_SCRATCH, SCRATCH_LN1);
    OutsideJoins(d0, d1, npu.vrf[MEM_DRAM], SO_SCRATCH, SCRATCH_LN1);
  }

  lemma HeldExact(c: Config, d: Device, tiles: seq<Vec>)
    requires TilesHeld(c, d, tiles)
    ensures Exacts(c, tiles)
  {
  }

  /** Reload the input row, save it for the second residual, and add the stored self-output. */
  method AddInput(npu: NpuDeviceMini, ghost inp: Input, ghost l: Layer, ghost so: seq<Vec>, pos: nat, hidden: nat,
                  nt: nat)
    modifies npu
    requires GoodLayer(npu.c, inp, l) && HeadReady(npu.c, npu.View()) && nt == inp.nt == |so| && hidden == inp.Width()
    requires pos < |inp.x| && LayerReady(npu.c, npu.vrf[MEM_DRAM], inp, l) && Exacts(npu.c, so)
    requires TilesStored(npu.vrf[MEM_DRAM], SO_SCRATCH, inp.n, so)
    ensures HeadReady(npu.c, npu.View()) && LayerReady(npu.c, npu.vrf[MEM_DRAM], inp, l)
    ensures TilesHeld(npu.c, npu.View(), Residual(npu.c, so, InputTiles(npu.c, inp, pos)))
    ensures TilesStored(npu.vrf[MEM_DRAM], SavedRow(SAVE_RES_BASE, pos, nt), STRIDE, InputTiles(npu.c, inp, pos))
    ensures SameOutside(old(npu.vrf)[MEM_DRAM], npu.vrf[MEM_DRAM], SAVE_RES_BASE, SAVE_OUT_BASE)
  {
    hide Fixed, FullMask, RoundingIdempotent, TilesStored, TilesHeld, Residual, Sound, MatrixLoaded, NormLoaded;
    ghost var d0 := npu.vrf[MEM_DRAM];
    ghost var x := InputTiles(npu.c, inp, pos);
    InputStored(npu.c, d0, inp, pos);
    WidthIs(npu.c, inp);
    SavedRowFits(npu.c, inp, SAVE_RES_BASE, pos);
    hide LayerReady, InputTiles, SavedRow;
    LoadRowTiles(npu, x, nt, RowStart(pos, hidden));
    ghost var row := SavedRow(SAVE_RES_BASE, pos, nt);
    SaveWork(npu, inp, l, x, nt, SavedRow(SAVE_RES_BASE, pos, nt), STRIDE);
    OutsideWidens(d0, npu.vrf[MEM_DRAM], row, row + nt * STRIDE, SAVE_RES_BASE, SAVE_OUT_BASE);
    TilesKept(npu.c, d0, npu.vrf[MEM_DRAM], SAVE_RES_BASE, SAVE_OUT_BASE, SO_SCRATCH, inp.n, so);
    AddToStored(npu, so, x, nt, SO_SCRATCH);
  }

  /** Layer normalisation with the layer's data kept. */
  method NormaliseWork(npu: NpuDeviceMini, ghost inp: Input, ghost l: Layer, ghost nrm: Norm, ghost tiles: seq<Vec>,
                       nt: nat,
                       gammaAt: nat, betaAt: nat)
    modifies npu
    requires GoodLayer(npu.c, inp, l) && HeadReady(npu.c, npu.View()) && nt == inp.nt == |tiles|
    requires LayerReady(npu.c, npu.vrf[MEM_DRAM], inp, l) && (nrm == l.ln1 || nrm == l.ln2)
    requires gammaAt == nrm.gammaAt && betaAt == nrm.betaAt && TilesHeld(npu.c, npu.View(), tiles)
    ensures HeadReady(npu.c, npu.View()) && LayerReady(npu.c, npu.vrf[MEM_DRAM], inp, l)
    ensures TilesHeld(npu.c, npu.View(), Normalised(npu.c, nrm, tiles))
    ensures SameOutside(old(npu.vrf)[MEM_DRAM], npu.vrf[MEM_DRAM], SCRATCH_ADDR, SO_SCRATCH)
  {
    hide Fixed, FullMask, RoundingIdempotent, TilesHeld, Normalised, Sound, MatrixLoaded, NormLoaded, AttentionReady;
    ghost var d0 := npu.vrf[MEM_DRAM];
    HeldExact(npu.c, npu.View(), tiles);
    NormaliseTiles(npu, inp, nrm, tiles, nt, gammaAt, betaAt);
    hide LayerReady;
    OutsideWidens(d0, npu.vrf[MEM_DRAM], SCRATCH_ADDR, SCRATCH_ADDR + nt * STRIDE + STRIDE, SCRATCH_ADDR, SO_SCRATCH);
    LayerKept(npu.c, d0, npu.vrf[MEM_DRAM], inp, l, SCRATCH_ADDR, SO_SCRATCH);
  }

  /** From a held context to the normalised self-output, saved for the feed-forward part. */
  method AttentionOutput(npu: NpuDeviceMini, ghost inp: Input, ghost l: Layer, ghost z: seq<Vec>, pos: nat, hidden: nat,
                         nt: nat, mat: nat, bias: nat, gammaAt: nat, betaAt: nat)
    modifies npu
    requires GoodLayer(npu.c, inp, l) && HeadReady(npu.c, npu.View()) && nt == inp.nt == |z| && hidden == inp.Width()
    requires pos < |inp.x| && LayerReady(npu.c, npu.vrf[MEM_DRAM], inp, l) && Exacts(npu.c, z)
    requires mat == l.so.mat && bias == l.so.bias && gammaAt == l.ln1.gammaAt && betaAt == l.ln1.betaAt
    requires TilesHeld(npu.c, npu.View(), z)
    ensures HeadReady(npu.c, npu.View()) && LayerReady(npu.c, npu.vrf[MEM_DRAM], inp, l)
    ensures TilesStored(npu.vrf[MEM_DRAM], SCRATCH_LN1, inp.n,
                        Normalised(npu.c, l.ln1,
                                   Residual(npu.c, Through(npu.c, inp, l.so, z), InputTiles(npu.c, inp, pos))))
    ensures TilesStored(npu.vrf[MEM_DRAM], SavedRow(SAVE_RES_BASE, pos, nt), STRIDE, InputTiles(npu.c, inp, pos))
    ensures SameOutside(old(npu.vrf)[MEM_DRAM], npu.vrf[MEM_DRAM], SCRATCH_ADDR, SAVE_OUT_BASE)
  {
    ghost var so, x := Through(npu.c, inp, l.so, z), InputTiles(npu.c, inp, pos);
    ghost var sum := Residual(npu.c, so, x);
    ghost var out := Normalised(npu.c, l.ln1, sum);
    WidthIs(npu.c, inp);
    SavedRowFits(npu.c, inp, SAVE_RES_BASE, pos);
    ghost var row := SavedRow(SAVE_RES_BASE, pos, nt);
    hide Fixed, FullMask, RoundingIdempotent, TilesStored, TilesHeld, LayerReady, Residual, Normalised, Through,
      InputTiles,
      GoodLayer, SavedRow;
    ghost var d0 := npu.vrf[MEM_DRAM];
    SelfOutput(npu, inp, l, z, nt, mat, bias);
    ghost var d1 := npu.vrf[MEM_DRAM];
    AddInput(npu, inp, l, so, pos, hidden, nt);
    ghost var d2 := npu.vrf[MEM_DRAM];
    NormaliseWork(npu, inp, l, l.ln1, sum, nt, gammaAt, betaAt);
    ghost var d3 := npu.vrf[MEM_DRAM];
    SaveWork(npu, inp, l, out, nt, SCRATCH_LN1, npu.c.dim);
    ghost var d4 := npu.vrf[MEM_DRAM];
    OutsideWidens(d3, d4, SCRATCH_LN1, SCRATCH_LN1 + nt * npu.c.dim, SCRATCH_LN1, SCRATCH_GELU);
    TilesKept(npu.c, d2, d3, SCRATCH_ADDR, SO_SCRATCH, row, STRIDE, x);
    TilesKept(npu.c, d3, d4, SCRATCH_LN1, SCRATCH_GELU, row, STRIDE, x);
    FourSteps(d0, d1, d2, d3, d4);
  }

  lemma FourSteps(d0: Vec, d1: Vec, d2: Vec, d3: Vec, d4: Vec)
    requires SameOutside(d0, d1, SO_SCRATCH, SCRATCH_LN1) && SameOutside(d1, d2, SAVE_RES_BASE, SAVE_OUT_BASE)
    requires SameOutside(d2, d3, SCRATCH_ADDR, SO_SCRATCH) && SameOutside(d3, d4, SCRATCH_LN1, SCRATCH_GELU)
    ensures SameOutside(d0, d4, SCRATCH_ADDR, SAVE_OUT_BASE)
  {
  }

  /** The two feed-forward products with GELU between them. */
  method FeedForward(npu: NpuDeviceMini, ghost inp: Input, ghost l: Layer, ghost tiles: seq<Vec>, nt: nat,
                     wiMat: nat, wiBias: nat, woMat: nat, woBias: nat)
    modifies npu
    requires GoodLayer(npu.c, inp, l) && HeadReady(npu.c, npu.View()) && nt == inp.nt == |tiles| && Exacts(npu.c, tiles)
    requires LayerReady(npu.c, npu.vrf[MEM_DRAM], inp, l)
    requires wiMat == l.wi.mat && wiBias == l.wi.bias && woMat == l.wo.mat && woBias == l.wo.bias
    requires TilesStored(npu.vrf[MEM_DRAM], SCRATCH_LN1, inp.n, tiles)
    ensures HeadReady(npu.c, npu.View()) && LayerReady(npu.c, npu.vrf[MEM_DRAM], inp, l)
    ensures TilesHeld(npu.c, npu.View(), Through(npu.c, inp, l.wo, Gelus(npu.c, Through(npu.c, inp, l.wi, tiles))))
    ensures SameOutside(old(npu.vrf)[MEM_DRAM], npu.vrf[MEM_DRAM], SCRATCH_GELU, SAVE_RES_BASE)
  {
    ghost var inner := Through(npu.c, inp, l.wi, tiles);
    ghost var act := Gelus(npu.c, inner);
    WidthIs(npu.c, inp);
    hide Fixed, FullMask, RoundingIdempotent, TilesStored, TilesHeld, Through, Gelus, Sound, MatrixLoaded, NormLoaded,
      AttentionReady;
    ghost var d0 := npu.vrf[MEM_DRAM];
    ProjectStored(npu, inp, l.wi, tiles, wiMat, SCRATCH_LN1, nt, wiBias);
    GeluBanks(npu, inner);
    SaveWork(npu, inp, l, act, nt, SCRATCH_GELU, npu.c.dim);
    OutsideWidens(d0, npu.vrf[MEM_DRAM], SCRATCH_GELU, SCRATCH_GELU + nt * npu.c.dim, SCRATCH_GELU, SAVE_RES_BASE);
    ProjectStored(npu, inp, l.wo, act, woMat, SCRATCH_GELU, nt, woBias);
  }

  /** The second residual and normalisation, saved as the position's output. */
  method FinishRow(npu: NpuDeviceMini, ghost inp: Input, ghost l: Layer, ghost tiles: seq<Vec>, pos: nat, nt: nat,
                   gammaAt: nat, betaAt: nat)
    modifies npu
    requires GoodLayer(npu.c, inp, l) && HeadReady(npu.c, npu.View()) && nt == inp.nt == |tiles| && Exacts(npu.c, tiles)
    requires pos < |inp.x| && LayerReady(npu.c, npu.vrf[MEM_DRAM], inp, l)
    requires gammaAt == l.ln2.gammaAt && betaAt == l.ln2.betaAt && TilesHeld(npu.c, npu.View(), tiles)
    requires TilesStored(npu.vrf[MEM_DRAM], SavedRow(SAVE_RES_BASE, pos, nt), STRIDE, InputTiles(npu.c, inp, pos))
    ensures HeadReady(npu.c, npu.View()) && LayerReady(npu.c, npu.vrf[MEM_DRAM], inp, l)
    ensures TilesStored(npu.vrf[MEM_DRAM], SavedRow(SAVE_OUT_BASE, pos, nt), STRIDE,
                        Normalised(npu.c, l.ln2, Residual(npu.c, tiles, InputTiles(npu.c, inp, pos))))
    ensures SameOutsideTwo(old(npu.vrf)[MEM_DRAM], npu.vrf[MEM_DRAM], SCRATCH_ADDR, SO_SCRATCH,
                           SavedRow(SAVE_OUT_BASE, pos, nt), SavedRow(SAVE_OUT_BASE, pos, nt) + nt * STRIDE)
  {
    ghost var x := InputTiles(npu.c, inp, pos);
    ghost var sum := Residual(npu.c, tiles, x);
    SavedRowFits(npu.c, inp, SAVE_RES_BASE, pos);
    SavedRowFits(npu.c, inp, SAVE_OUT_BASE, pos);
    hide Fixed, FullMask, RoundingIdempotent, TilesStored, TilesHeld, LayerReady, Residual, Normalised, InputTiles,
      SavedRow,
      Sound, GoodNorm, GoodProjection;
    LoadAndAdd(npu, tiles, x, nt, SavedRow(SAVE_RES_BASE, pos, nt));
    NormaliseWork(npu, inp, l, l.ln2, sum, nt, gammaAt, betaAt);
    SaveWork(npu, inp, l, Normalised(npu.c, l.ln2, sum), nt, SavedRow(SAVE_OUT_BASE, pos, nt), STRIDE);
  }

  // ---- The layer ----

  /** The first `count` positions' outputs are in the output region. */
  ghost predicate OutputsStored(c: Config, dram: Vec, inp: Input, l: Layer, headSize: nat, count: nat)
    requires GoodLayer(c, inp, l)
  {
    count <= |inp.x| && forall p :: 0 <= p < count ==>
      TilesStored(dram, SavedRow(SAVE_OUT_BASE, p, inp.nt), STRIDE, LayerOut(c, inp, l, p, headSize))
  }

  /** Where a number of a finished position's output stands. */
  lemma OutputLane(c: Config, dram: Vec, inp: Input, l: Layer, headSize: nat, count: nat, p: nat, t: nat, i: nat)
    requires GoodLayer(c, inp, l) && OutputsStored(c, dram, inp, l, headSize, count)
    requires p < count && t < inp.nt && i < c.dim
    ensures p < |inp.x| && SavedRow(SAVE_OUT_BASE, p, inp.nt) + t * STRIDE + i < |dram|
    ensures dram[SavedRow(SAVE_OUT_BASE, p, inp.nt) + t * STRIDE + i] == LayerOut(c, inp, l, p, headSize)[t][i]
  {
    hide LayerOut, Fixed, Sound, SavedRow, GoodProjection, GoodNorm;
    var at, v := SavedRow(SAVE_OUT_BASE, p, inp.nt) + RowStart(t, STRIDE), LayerOut(c, inp, l, p, headSize)[t];
    assert StoredAt(dram, at, v);
    assert dram[at..at + |v|][i] == dram[at + i];
  }

  lemma OutputsKept(c: Config, a: Vec, b: Vec, inp: Input, l: Layer, headSize: nat, count: nat, lo: nat, hi: nat)
    requires GoodLayer(c, inp, l) && OutputsStored(c, a, inp, l, headSize, count) && SameOutside(a, b, lo, hi)
    requires hi <= SAVE_OUT_BASE || (count < |inp.x| && SavedRow(SAVE_OUT_BASE, count, inp.nt) <= lo)
    ensures OutputsStored(c, b, inp, l, headSize, count)
  {
    forall p | 0 <= p < count
      ensures TilesStored(b, SavedRow(SAVE_OUT_BASE, p, inp.nt), STRIDE, LayerOut(c, inp, l, p, headSize))
    {
      RowBefore(p, count, inp.nt * STRIDE);
      hide LayerOut, TilesStored, Sound, Fixed, RowStart, GoodProjection, GoodNorm;
      TilesKept(c, a, b, lo, hi, SavedRow(SAVE_OUT_BASE, p, inp.nt), STRIDE, LayerOut(c, inp, l, p, headSize));
    }
  }

  /** Addresses the firmware is compiled with: matrices and biases, then the normalisation parameters. */
  datatype Layout = Layout(q: nat, qb: nat, k: nat, kb: nat, v: nat, vb: nat, so: nat, sob: nat, wi: nat, wib: nat,
                           wo: nat, wob: nat, gamma1: nat, beta1: nat, gamma2: nat, beta2: nat)

  predicate PlacedAt(l: Layer, at: Layout)
  {
    at == Layout(l.w.q.mat, l.w.q.bias, l.w.k.mat, l.w.k.bias, l.w.v.mat, l.w.v.bias, l.so.mat, l.so.bias,
                 l.wi.mat, l.wi.bias, l.wo.mat, l.wo.bias, l.ln1.gammaAt, l.ln1.betaAt, l.ln2.gammaAt, l.ln2.betaAt)
  }

  /** The attention of one query with the layer's data kept. */
  method Attend(npu: NpuDeviceMini, ghost inp: Input, ghost l: Layer, pos: nat, seqLen: nat, hidden: nat, nt: nat,
                numHead: nat, at: Layout)
    modifies npu
    requires GoodLayer(npu.c, inp, l) && HeadReady(npu.c, npu.View()) && seqLen == |inp.x| && pos < seqLen
    requires hidden == inp.Width() && nt == inp.nt && 1 <= numHead <= hidden && PlacedAt(l, at)
    requires LayerReady(npu.c, npu.vrf[MEM_DRAM], inp, l)
    ensures HeadReady(npu.c, npu.View()) && LayerReady(npu.c, npu.vrf[MEM_DRAM], inp, l)
    ensures TilesHeld(npu.c, npu.View(), ContextTiles(npu.c, inp, l.w, pos, hidden / numHead))
    ensures SameOutside(old(npu.vrf)[MEM_DRAM], npu.vrf[MEM_DRAM], SAVE_Q_BASE, SO_SCRATCH)
  {
    hide Fixed, FullMask, RoundingIdempotent, MatrixLoaded, NormLoaded, AttentionReady, Sound, HeadTile, ContextTiles,
      GoodProjection, GoodNorm;
    ghost var d0 := npu.vrf[MEM_DRAM];
    DotProductAttention(npu, inp, l.w, pos, seqLen, hidden, nt, at.q, at.qb, numHead);
    TwoWindows(d0, npu.vrf[MEM_DRAM]);
    RestKept(npu.c, d0, npu.vrf[MEM_DRAM], inp, l);
    ContextsHeld(npu.c, npu.View(), inp, l.w, pos, hidden / numHead);
  }

  lemma TwoWindows(a: Vec, b: Vec)
    requires SameOutsideTwo(a, b, SAVE_Q_BASE, SAVE_K_BASE, SCRATCH_ADDR, SCRATCH_ADDR + STRIDE)
    ensures SameOutside(a, b, SAVE_Q_BASE, SO_SCRATCH) && SameOutside(a, b, SAVE_Q_BASE, WORK_END)
  {
  }

  lemma RestKept(c: Config, a: Vec, b: Vec, inp: Input, l: Layer)
    requires inp.Fits(c) && LayerReady(c, a, inp, l) && SameOutside(a, b, SAVE_Q_BASE, WORK_END)
    requires AttentionReady(c, b, inp, l.w) && GapsKept(a, b, c.dim)
    ensures LayerReady(c, b, inp, l)
  {
    hide AttentionReady, MatrixLoaded, NormLoaded;
    MatrixKept(c, a, b, inp, l.so);
    MatrixKept(c, a, b, inp, l.wi);
    MatrixKept(c, a, b, inp, l.wo);
    NormKept(c, a, b, inp, l.ln1);
    NormKept(c, a, b, inp, l.ln2);
  }

  lemma ContextsHeld(c: Config, d: Device, inp: Input, w: Weights, pos: nat, headSize: nat)
    requires inp.Fits(c) && Exact(c) && pos < |inp.x| && Sound(c, inp, w.q) && Sound(c, inp, w.k) && Sound(c, inp, w.v)
    requires forall t :: 0 <= t < inp.nt ==> Holds(d, TileBank(t), HeadTile(c, inp, w, pos, t, headSize))
    ensures TilesHeld(c, d, ContextTiles(c, inp, w, pos, headSize))
  {
    hide Fixed, Holds, HeadTile, Sound;
  }

  /** Two windows can be written one after the other. */
  lemma Halfway(a: Vec, b: Vec, lo: nat, hi: nat, lo2: nat, hi2: nat) returns (m: Vec)
    requires SameOutsideTwo(a, b, lo, hi, lo2, hi2) && hi <= lo2 && hi <= |a|
    ensures SameOutside(a, m, lo, hi) && SameOutside(m, b, lo2, hi2)
  {
    m := b[..hi] + a[hi..];
  }

  lemma OneMoreOutput(c: Config, d0: Vec, d1: Vec, d2: Vec, inp: Input, l: Layer, pos: nat, headSize: nat)
    requires GoodLayer(c, inp, l) && pos < |inp.x| && OutputsStored(c, d0, inp, l, headSize, pos) && |d1| == DRAM_LEN
    requires SameOutside(d0, d1, SCRATCH_GELU, SAVE_RES_BASE)
    requires var row := SavedRow(SAVE_OUT_BASE, pos, inp.nt);
             SameOutsideTwo(d1, d2, SCRATCH_ADDR, SO_SCRATCH, row, row + inp.nt * STRIDE) &&
             TilesStored(d2, row, STRIDE, LayerOut(c, inp, l, pos, headSize))
    ensures OutputsStored(c, d2, inp, l, headSize, pos + 1) && SameOutside(d0, d2, SCRATCH_ADDR, WORK_END)
  {
    SavedRowFits(c, inp, SAVE_OUT_BASE, pos);
    hide LayerOut, TilesStored, GoodLayer, SavedRow, SameOutside, SameOutsideTwo, OutputsStored;
    var row := SavedRow(SAVE_OUT_BASE, pos, inp.nt);
    var m := Halfway(d1, d2, SCRATCH_ADDR, SO_SCRATCH, row, row + inp.nt * STRIDE);
    OutsideWidens(d0, d1, SCRATCH_GELU, SAVE_RES_BASE, SCRATCH_ADDR, SAVE_OUT_BASE);
    OutsideWidens(d1, m, SCRATCH_ADDR, SO_SCRATCH, SCRATCH_ADDR, SAVE_OUT_BASE);
    OutsideJoins(d0, d1, m, SCRATCH_ADDR, SAVE_OUT_BASE);
    OutputsKept(c, d0, m, inp, l, headSize, pos, SCRATCH_ADDR, SAVE_OUT_BASE);
    OutputsKept(c, m, d2, inp, l, headSize, pos, row, row + inp.nt * STRIDE);
    OutputAdded(c, d2, inp, l, headSize, pos);
    OutsideWidens(d0, m, SCRATCH_ADDR, SAVE_OUT_BASE, SCRATCH_ADDR, WORK_END);
    OutsideWidens(m, d2, row, row + inp.nt * STRIDE, SCRATCH_ADDR, WORK_END);
    OutsideJoins(d0, m, d2, SCRATCH_ADDR, WORK_END);
  }

  lemma OutputAdded(c: Config, dram: Vec, inp: Input, l: Layer, headSize: nat, pos: nat)
    requires GoodLayer(c, inp, l) && pos < |inp.x| && OutputsStored(c, dram, inp, l, headSize, pos)
    requires TilesStored(dram, SavedRow(SAVE_OUT_BASE, pos, inp.nt), STRIDE, LayerOut(c, inp, l, pos, headSize))
    ensures OutputsStored(c, dram, inp, l, headSize, pos + 1)
  {
    hide LayerOut, TilesStored, GoodLayer, SavedRow;
  }

  /** From an input row to the stored first half of the layer. */
  method FirstHalf(npu: NpuDeviceMini, ghost inp: Input, ghost l: Layer, pos: nat, seqLen: nat, hidden: nat, nt: nat,
                   numHead: nat, at: Layout)
    modifies npu
    requires GoodLayer(npu.c, inp, l) && HeadReady(npu.c, npu.View()) && seqLen == |inp.x| && pos < seqLen
    requires hidden == inp.Width() && nt == inp.nt && 1 <= numHead <= hidden && PlacedAt(l, at)
    requires LayerReady(npu.c, npu.vrf[MEM_DRAM], inp, l)
    ensures HeadReady(npu.c, npu.View()) && LayerReady(npu.c, npu.vrf[MEM_DRAM], inp, l)
    ensures TilesStored(npu.vrf[MEM_DRAM], SCRATCH_LN1, inp.n, Attended(npu.c, inp, l, pos, hidden / numHead))
    ensures TilesStored(npu.vrf[MEM_DRAM], SavedRow(SAVE_RES_BASE, pos, nt), STRIDE, InputTiles(npu.c, inp, pos))
    ensures SameOutside(old(npu.vrf)[MEM_DRAM], npu.vrf[MEM_DRAM], SAVE_Q_BASE, SAVE_OUT_BASE)
  {
    ghost var z := ContextTiles(npu.c, inp, l.w, pos, hidden / numHead);
    hide Fixed, FullMask, RoundingIdempotent, TilesHeld, TilesStored, LayerReady, GoodLayer, Residual, Normalised,
      Through,
      ContextTiles, InputTiles, SavedRow, PlacedAt, HeadReady;
    ghost var d0 := npu.vrf[MEM_DRAM];
    Attend(npu, inp, l, pos, seqLen, hidden, nt, numHead, at);
    ghost var d1 := npu.vrf[MEM_DRAM];
    AttentionOutput(npu, inp, l, z, pos, hidden, nt, at.so, at.sob, at.gamma1, at.beta1);
    OutsideWidens(d0, d1, SAVE_Q_BASE, SO_SCRATCH, SAVE_Q_BASE, SAVE_OUT_BASE);
    OutsideWidens(d1, npu.vrf[MEM_DRAM], SCRATCH_ADDR, SAVE_OUT_BASE, SAVE_Q_BASE, SAVE_OUT_BASE);
    OutsideJoins(d0, d1, npu.vrf[MEM_DRAM], SAVE_Q_BASE, SAVE_OUT_BASE);
  }

  /** From the stored first half to the stored output row. */
  method SecondHalf(npu: NpuDeviceMini, ghost inp: Input, ghost l: Layer, pos: nat, nt: nat, ghost headSize: nat,
                    at: Layout)
    modifies npu
    requires GoodLayer(npu.c, inp, l) && HeadReady(npu.c, npu.View())
    requires pos < |inp.x| && nt == inp.nt && PlacedAt(l, at)
    requires LayerReady(npu.c, npu.vrf[MEM_DRAM], inp, l)
    requires TilesStored(npu.vrf[MEM_DRAM], SCRATCH_LN1, inp.n, Attended(npu.c, inp, l, pos, headSize))
    requires TilesStored(npu.vrf[MEM_DRAM], SavedRow(SAVE_RES_BASE, pos, nt), STRIDE, InputTiles(npu.c, inp, pos))
    requires OutputsStored(npu.c, npu.vrf[MEM_DRAM], inp, l, headSize, pos)
    ensures HeadReady(npu.c, npu.View()) && LayerReady(npu.c, npu.vrf[MEM_DRAM], inp, l)
    ensures OutputsStored(npu.c, npu.vrf[MEM_DRAM], inp, l, headSize, pos + 1)
    ensures SameOutside(old(npu.vrf)[MEM_DRAM], npu.vrf[MEM_DRAM], SCRATCH_ADDR, WORK_END)
  {
    ghost var a := Attended(npu.c, inp, l, pos, headSize);
    ghost var ff := Through(npu.c, inp, l.wo, Gelus(npu.c, Through(npu.c, inp, l.wi, a)));
    hide Fixed, FullMask, RoundingIdempotent, TilesHeld, TilesStored, LayerReady, GoodLayer, Residual, Normalised,
      Through,
      Gelus, InputTiles, SavedRow, OutputsStored, Attended;
    ghost var d0 := npu.vrf[MEM_DRAM];
    FeedForward(npu, inp, l, a, nt, at.wi, at.wib, at.wo, at.wob);
    ghost var d1 := npu.vrf[MEM_DRAM];
    SavedRowFits(npu.c, inp, SAVE_RES_BASE, pos);
    TilesKept(npu.c, d0, d1, SCRATCH_GELU, SAVE_RES_BASE, SavedRow(SAVE_RES_BASE, pos, nt), STRIDE,
              InputTiles(npu.c, inp, pos));
    FinishRow(npu, inp, l, ff, pos, nt, at.gamma2, at.beta2);
    OneMoreOutput(npu.c, d0, d1, npu.vrf[MEM_DRAM], inp, l, pos, headSize);
  }

  /** Everything the loop does for one position. */
  method Position(npu: NpuDeviceMini, ghost inp: Input, ghost l: Layer, pos: nat, seqLen: nat, hidden: nat, nt: nat,
                  numHead: nat, at: Layout)
    modifies npu
    requires GoodLayer(npu.c, inp, l) && HeadReady(npu.c, npu.View()) && seqLen == |inp.x| && pos < seqLen
    requires hidden == inp.Width() && nt == inp.nt && 1 <= numHead <= hidden && PlacedAt(l, at)
    requires LayerReady(npu.c, npu.vrf[MEM_DRAM], inp, l)
    requires OutputsStored(npu.c, npu.vrf[MEM_DRAM], inp, l, hidden / numHead, pos)
    ensures HeadReady(npu.c, npu.View()) && LayerReady(npu.c, npu.vrf[MEM_DRAM], inp, l)
    ensures OutputsStored(npu.c, npu.vrf[MEM_DRAM], inp, l, hidden / numHead, pos + 1)
    ensures SameOutside(old(npu.vrf)[MEM_DRAM], npu.vrf[MEM_DRAM], SAVE_Q_BASE, WORK_END)
  {
    hide Fixed, FullMask, RoundingIdempotent, TilesStored, LayerReady, GoodLayer, Attended, InputTiles, SavedRow,
      OutputsStored;
    ghost var d0 := npu.vrf[MEM_DRAM];
    FirstHalf(npu, inp, l, pos, seqLen, hidden, nt, numHead, at);
    ghost var d1 := npu.vrf[MEM_DRAM];
    OutputsKept(npu.c, d0, d1, inp, l, hidden / numHead, pos, SAVE_Q_BASE, SAVE_OUT_BASE);
    SecondHalf(npu, inp, l, pos, nt, hidden / numHead, at);
    OutsideWidens(d0, d1, SAVE_Q_BASE, SAVE_OUT_BASE, SAVE_Q_BASE, WORK_END);
    OutsideWidens(d1, npu.vrf[MEM_DRAM], SCRATCH_ADDR, WORK_END, SAVE_Q_BASE, WORK_END);
    OutsideJoins(d0, d1, npu.vrf[MEM_DRAM], SAVE_Q_BASE, WORK_END);
  }

  /** Everything the layer reads is in DRAM. */
  ghost predicate LayerLoaded(c: Config, dram: Vec, inp: Input, l: Layer)
  {
    MatrixLoaded(c, dram, inp, l.w.q) && MatrixLoaded(c, dram, inp, l.w.k) && MatrixLoaded(c, dram, inp, l.w.v) &&
    MatrixLoaded(c, dram, inp, l.so) && MatrixLoaded(c, dram, inp, l.wi) && MatrixLoaded(c, dram, inp, l.wo) &&
    NormLoaded(c, dram, inp, l.ln1) && NormLoaded(c, dram, inp, l.ln2) && InputLoaded(c, dram, inp) &&
    UnitsStored(c, dram)
  }

  lemma LoadedIsGood(c: Config, dram: Vec, inp: Input, l: Layer)
    requires Exact(c) && LayerLoaded(c, dram, inp, l)
    ensures GoodLayer(c, inp, l)
  {
    hide Fixed, RoundingIdempotent, TilesClear, StoredAt, T.TileStored, Sound, UnitsStored, TilesStored, Exacts;
    LoadedIsSound(c, dram, inp, l.w.q);
    LoadedIsSound(c, dram, inp, l.w.k);
    LoadedIsSound(c, dram, inp, l.w.v);
  }

  /** The configuration writes and the two clears before the first phase. */
  method Configure(npu: NpuDeviceMini, seqLen: nat, nt: nat)
    modifies npu
    requires Banks(npu.c, npu.View()) && npu.rowBuffer == [] && Exact(npu.c) && seqLen < 0x10000 && nt < 0x10000
    requires MEM_MVM_ACC_VRF in npu.vrf && npu.c.dim <= |npu.vrf[MEM_MVM_ACC_VRF]|
    ensures HeadReady(npu.c, npu.View()) && npu.vrf[MEM_DRAM] == old(npu.vrf)[MEM_DRAM]
  {
    FillPatterns();
    DefaultMaskIsFull();
    hide Fixed, FullMask, RoundingIdempotent, DecodeFp16;
    SendSWr(npu, REG_PRECISION_MODE, 1);
    SendSWr(npu, REG_TILE_ROWS, nt);
    SendSWr(npu, REG_TILE_COLS, nt);
    SendSWr(npu, REG_ITERATIONS, seqLen);
    SendSWr(npu, REG_READ_MATRIX_MASK, 0xFF);
    SendVRd(npu, MEM_FILL, 0);
    assert npu.pipeline.value == Zeros(npu.c.dim);
    StoreThenWindow(npu.c, npu.View(), MEM_MVM_ACC_VRF);
    SendVWr(npu, MEM_MVM_ACC_VRF, 0);
    Store(npu, MEM_MVM_INITIAL_VRF, Zeros(npu.c.dim));
  }

  /** Phase 1 with the whole layer's data kept. */
  method FirstPhase(npu: NpuDeviceMini, ghost inp: Input, ghost l: Layer, seqLen: nat, hidden: nat, nt: nat, at: Layout)
    modifies npu
    requires HeadReady(npu.c, npu.View()) && Exact(npu.c) && LayerLoaded(npu.c, npu.vrf[MEM_DRAM], inp, l)
    requires seqLen == |inp.x| && hidden == inp.Width() && nt == inp.nt && PlacedAt(l, at)
    ensures HeadReady(npu.c, npu.View()) && LayerReady(npu.c, npu.vrf[MEM_DRAM], inp, l)
    ensures SameOutside(old(npu.vrf)[MEM_DRAM], npu.vrf[MEM_DRAM], SAVE_Q_BASE, WORK_END)
  {
    hide Fixed, FullMask, RoundingIdempotent, NormLoaded, InputLoaded, UnitsStored, AllSaved, TilesClear, T.TileStored,
      StoredAt;
    ghost var d0 := npu.vrf[MEM_DRAM];
    KeysAndValues(npu, inp, l.w, seqLen, hidden, nt, at.k, at.kb, at.v, at.vb);
    OutsideWidens(d0, npu.vrf[MEM_DRAM], SAVE_K_BASE, SCRATCH_ADDR, SAVE_Q_BASE, WORK_END);
    hide AttentionReady;
    MatrixKept(npu.c, d0, npu.vrf[MEM_DRAM], inp, l.so);
    MatrixKept(npu.c, d0, npu.vrf[MEM_DRAM], inp, l.wi);
    MatrixKept(npu.c, d0, npu.vrf[MEM_DRAM], inp, l.wo);
    NormKept(npu.c, d0, npu.vrf[MEM_DRAM], inp, l.ln1);
    NormKept(npu.c, d0, npu.vrf[MEM_DRAM], inp, l.ln2);
  }

  lemma TilesInRow(c: Config, inp: Input)
    requires inp.Fits(c)
    ensures inp.Width() / c.dim == inp.nt && |inp.x| <= 0x100
  {
    WidthIs(c, inp);
    QuotientRemainder(inp.Width(), inp.n, inp.nt, 0);
    if inp.nt == 1 {
      assert RowStart(|inp.x|, 8) == |inp.x| * 8;
    } else {
      assert RowStart(|inp.x|, 16) == |inp.x| * 16;
    }
  }

  lemma NoOutputs(c: Config, dram: Vec, inp: Input, l: Layer, headSize: nat)
    requires GoodLayer(c, inp, l)
    ensures OutputsStored(c, dram, inp, l, headSize, 0)
  {
  }

  /** The loop over the positions. */
  method AllPositions(npu: NpuDeviceMini, ghost inp: Input, ghost l: Layer, seqLen: nat, hidden: nat, nt: nat,
                      numHead: nat,
                      at: Layout)
    modifies npu
    requires GoodLayer(npu.c, inp, l) && HeadReady(npu.c, npu.View()) && seqLen == |inp.x|
    requires hidden == inp.Width() && nt == inp.nt && 1 <= numHead <= hidden && PlacedAt(l, at)
    requires LayerReady(npu.c, npu.vrf[MEM_DRAM], inp, l)
    ensures HeadReady(npu.c, npu.View()) && LayerReady(npu.c, npu.vrf[MEM_DRAM], inp, l)
    ensures OutputsStored(npu.c, npu.vrf[MEM_DRAM], inp, l, hidden / numHead, seqLen)
    ensures SameOutside(old(npu.vrf)[MEM_DRAM], npu.vrf[MEM_DRAM], SAVE_Q_BASE, WORK_END)
  {
    hide Fixed, FullMask, RoundingIdempotent, GoodLayer, LayerReady, OutputsStored;
    ghost var d0 := npu.vrf[MEM_DRAM];
    NoOutputs(npu.c, d0, inp, l, hidden / numHead);
    var pos := 0;
    while pos < seqLen
      invariant pos <= seqLen && HeadReady(npu.c, npu.View()) && LayerReady(npu.c, npu.vrf[MEM_DRAM], inp, l)
      invariant OutputsStored(npu.c, npu.vrf[MEM_DRAM], inp, l, hidden / numHead, pos)
      invariant SameOutside(d0, npu.vrf[MEM_DRAM], SAVE_Q_BASE, WORK_END)
    {
      ghost var d1 := npu.vrf[MEM_DRAM];
      Position(npu, inp, l, pos, seqLen, hidden, nt, numHead, at);
      OutsideJoins(d0, d1, npu.vrf[MEM_DRAM], SAVE_Q_BASE, WORK_END);
      pos := pos + 1;
    }
  }

  /** bert_encoder_layer: the output region ends with every position's layer output, and only the work area changed. */
  method EncoderLayer(npu: NpuDeviceMini, ghost inp: Input, ghost l: Layer, seqLen: nat, hidden: nat, numHead: nat,
                      at: Layout)
    modifies npu
    requires Banks(npu.c, npu.View()) && npu.rowBuffer == [] && Exact(npu.c)
    requires MEM_MVM_ACC_VRF in npu.vrf && npu.c.dim <= |npu.vrf[MEM_MVM_ACC_VRF]|
    requires LayerLoaded(npu.c, npu.vrf[MEM_DRAM], inp, l) && PlacedAt(l, at)
    requires seqLen == |inp.x| && hidden == inp.Width() && 1 <= numHead <= hidden
    ensures GoodLayer(npu.c, inp, l) && MEM_DRAM in npu.vrf
    ensures OutputsStored(npu.c, npu.vrf[MEM_DRAM], inp, l, hidden / numHead, seqLen)
    ensures SameOutside(old(npu.vrf)[MEM_DRAM], npu.vrf[MEM_DRAM], SAVE_Q_BASE, WORK_END)
  {
    LoadedIsGood(npu.c, npu.vrf[MEM_DRAM], inp, l);
    TilesInRow(npu.c, inp);
    hide Fixed, FullMask, RoundingIdempotent, LayerLoaded, LayerReady, Sound, GoodProjection, GoodNorm, TilesStored;
    ghost var d0 := npu.vrf[MEM_DRAM];
    var nt := hidden / npu.c.dim;
    Configure(npu, seqLen, nt);
    FirstPhase(npu, inp, l, seqLen, hidden, nt, at);
    ghost var d1 := npu.vrf[MEM_DRAM];
    AllPositions(npu, inp, l, seqLen, hidden, nt, numHead, at);
    OutsideJoins(d0, d1, npu.vrf[MEM_DRAM], SAVE_Q_BASE, WORK_END);
    SendSWr(npu, REG_PRECISION_MODE, 0);
  }
}
