/** The attention phases of the baseline BERT firmware: keys and values of all positions, then each query's
    projection and heads, from input rows and tiled weights in DRAM. */
module BertAttention {
  import opened Arithmetic
  import opened Numbers
  import opened D = Device
  import opened NpuDevice
  import opened Firmware
  import opened BertBanks
  import opened Transpose
  import opened HeadAttention
  import T = TiledMvm

  /** First address behind the regions the layer writes. */
  const WORK_END := UNIT_VEC_BASE

  // ---- Inputs ----

  /** A projection: weights, bias, and where they are stored. */
  datatype Projection = Projection(w: Matrix, b: Vec, mat: nat, bias: nat)

  datatype Weights = Weights(q: Projection, k: Projection, v: Projection)

  /** Input rows, each cut into nt tiles of n numbers. */
  datatype Input = Input(x: seq<Vec>, nt: nat, n: nat)
  {
    function Of(pr: Projection, pos: nat): T.Problem
      requires pos < |x|
    {
      T.Problem(pr.w, x[pos], pr.b, nt, n)
    }

    function Width(): nat { if nt == 1 then n else nt * n }

    /** The saved rows of all positions fit one region. */
    predicate Fits(c: Config)
    {
      1 <= nt <= 2 && 1 <= n <= STRIDE && n == c.dim && RowStart(|x|, nt * STRIDE) <= 0x100
    }
  }

  /** Outside the regions the layer writes. */
  predicate Clear(at: nat, len: nat)
  {
    at + len <= SAVE_Q_BASE || WORK_END <= at
  }

  predicate TilesClear(inp: Input, pr: Projection)
  {
    forall tr, tc :: 0 <= tr < inp.nt && 0 <= tc < inp.nt ==>
      Clear(T.TileAt(pr.mat, tr, tc, inp.nt, inp.n), inp.n * inp.n)
  }

  ghost predicate GoodProjection(c: Config, inp: Input, pr: Projection)
  {
    |pr.w| == inp.Width() == |pr.b| && (forall i :: 0 <= i < |pr.w| ==> Fixed(c, pr.w[i])) && Fixed(c, pr.b)
  }

  /** Weights and bias are FP16-exact and stored where nothing overwrites them. */
  ghost predicate MatrixLoaded(c: Config, dram: Vec, inp: Input, pr: Projection)
  {
    inp.Fits(c) && GoodProjection(c, inp, pr) && Clear(pr.bias, inp.Width()) && TilesClear(inp, pr) &&
    StoredAt(dram, pr.bias, pr.b) && forall tr, tc :: 0 <= tr < inp.nt && 0 <= tc < inp.nt ==>
      T.TileStored(dram, T.TileAt(pr.mat, tr, tc, inp.nt, inp.n), T.Problem(pr.w, pr.b, pr.b, inp.nt, inp.n), tr, tc)
  }

  /** Input rows are FP16-exact and stored from address zero. */
  ghost predicate InputLoaded(c: Config, dram: Vec, inp: Input)
  {
    forall p :: 0 <= p < |inp.x| ==>
      |inp.x[p]| == inp.Width() && Fixed(c, inp.x[p]) && StoredAt(dram, RowStart(p, inp.Width()), inp.x[p])
  }

  /** Every position's product can be computed from DRAM. */
  ghost predicate Loaded(c: Config, dram: Vec, inp: Input, pr: Projection)
  {
    MatrixLoaded(c, dram, inp, pr) && InputLoaded(c, dram, inp)
  }

  /** A stored vector and a loaded matrix make a problem the tiled product can solve. */
  lemma ProblemStored(c: Config, dram: Vec, inp: Input, pr: Projection, x: Vec, vec: nat)
    requires MatrixLoaded(c, dram, inp, pr) && |x| == inp.Width() && Fixed(c, x) && StoredAt(dram, vec, x)
    ensures var p := T.Problem(pr.w, x, pr.b, inp.nt, inp.n); p.Valid(c) && T.Stored(dram, p, pr.mat, vec, pr.bias)
  {
    hide Fixed;
    var p, blank := T.Problem(pr.w, x, pr.b, inp.nt, inp.n), T.Problem(pr.w, pr.b, pr.b, inp.nt, inp.n);
    forall tr, tc | 0 <= tr < p.nt && 0 <= tc < p.nt
      ensures T.TileStored(dram, T.TileAt(pr.mat, tr, tc, p.nt, p.n), p, tr, tc)
    {
      assert T.TileStored(dram, T.TileAt(pr.mat, tr, tc, inp.nt, inp.n), blank, tr, tc);
    }
    hide T.TileStored;
  }

  // ---- Saved rows ----

  /** Where tile t of position p is saved. */
  function RowAddr(base: nat, p: nat, t: nat, nt: nat): nat
  {
    base + RowStart(p, nt * STRIDE) + RowStart(t, STRIDE)
  }

  /** Saved row tiles lie STRIDE apart, position by position. */
  lemma RowTilesConsecutive(base: nat, p: nat, t: nat, nt: nat)
    requires nt >= 1
    ensures RowAddr(base, 0, 0, nt) == base && RowAddr(base, p, t + 1, nt) == RowAddr(base, p, t, nt) + STRIDE
    ensures RowAddr(base, p + 1, 0, nt) == RowAddr(base, p, nt - 1, nt) + STRIDE
  {
    assert (p + 1) * (nt * STRIDE) == p * (nt * STRIDE) + nt * STRIDE;
  }

  ghost predicate Saved(c: Config, dram: Vec, inp: Input, pr: Projection, base: nat, p: nat, t: nat)
    requires p < |inp.x| && t < inp.nt
  {
    inp.Of(pr, p).Valid(c) && StoredAt(dram, RowAddr(base, p, t, inp.nt), T.GoldenTile(c, inp.Of(pr, p), t))
  }

  ghost predicate AllSaved(c: Config, dram: Vec, inp: Input, pr: Projection, base: nat, count: nat)
  {
    count <= |inp.x| && forall p, t :: 0 <= p < count && 0 <= t < inp.nt ==> Saved(c, dram, inp, pr, base, p, t)
  }

  lemma RowInside(inp: Input, c: Config, base: nat, p: nat, t: nat, count: nat)
    requires inp.Fits(c) && p < count <= |inp.x| && t < inp.nt
    ensures base <= RowAddr(base, p, t, inp.nt)
    ensures RowAddr(base, p, t, inp.nt) + STRIDE <= base + RowStart(count, inp.nt * STRIDE) <= base + 0x100
  {
    RowBefore(p, count, inp.nt * STRIDE);
    if count < |inp.x| { RowBefore(count, |inp.x|, inp.nt * STRIDE); }
  }

  lemma AllSavedKept(c: Config, a: Vec, b: Vec, inp: Input, pr: Projection, base: nat, count: nat, lo: nat, hi: nat)
    requires inp.Fits(c) && AllSaved(c, a, inp, pr, base, count) && SameOutside(a, b, lo, hi)
    requires base + RowStart(count, inp.nt * STRIDE) <= lo || hi <= base
    ensures AllSaved(c, b, inp, pr, base, count)
  {
    forall p, t | 0 <= p < count && 0 <= t < inp.nt
      ensures Saved(c, b, inp, pr, base, p, t)
    {
      assert Saved(c, a, inp, pr, base, p, t);
      RowInside(inp, c, base, p, t, count);
      hide T.GoldenTile, RowAddr;
      StoredKept(a, b, lo, hi, RowAddr(base, p, t, inp.nt), T.GoldenTile(c, inp.Of(pr, p), t));
    }
  }

  lemma SliceClear(a: Vec, b: Vec, at: nat, len: nat)
    requires SameOutside(a, b, SAVE_Q_BASE, WORK_END) && Clear(at, len) && at + len <= |a|
    ensures b[at..at + len] == a[at..at + len]
  {
  }

  lemma TileKept(c: Config, a: Vec, b: Vec, p: T.Problem, at: nat, tr: nat, tc: nat)
    requires p.Valid(c) && tr < p.nt && tc < p.nt && T.TileStored(a, at, p, tr, tc)
    requires SameOutside(a, b, SAVE_Q_BASE, WORK_END) && Clear(at, p.n * p.n)
    ensures T.TileStored(b, at, p, tr, tc)
  {
    hide Fixed;
    forall i | 0 <= i < p.n
      ensures b[at + RowStart(i, p.n)..at + RowStart(i, p.n) + p.n] == p.w[p.At(tr) + i][p.At(tc)..p.At(tc) + p.n]
    {
      RowBefore(i, p.n, p.n);
      SliceClear(a, b, at + RowStart(i, p.n), p.n);
    }
  }

  lemma MatrixKept(c: Config, a: Vec, b: Vec, inp: Input, pr: Projection)
    requires MatrixLoaded(c, a, inp, pr) && SameOutside(a, b, SAVE_Q_BASE, WORK_END)
    ensures MatrixLoaded(c, b, inp, pr)
  {
    var p := T.Problem(pr.w, pr.b, pr.b, inp.nt, inp.n);
    hide Fixed, T.TileStored, T.TileAt, Clear;
    SliceClear(a, b, pr.bias, inp.Width());
    forall tr, tc | 0 <= tr < p.nt && 0 <= tc < p.nt
      ensures T.TileStored(b, T.TileAt(pr.mat, tr, tc, p.nt, p.n), p, tr, tc)
    {
      TileKept(c, a, b, p, T.TileAt(pr.mat, tr, tc, p.nt, p.n), tr, tc);
    }
  }

  lemma InputClear(c: Config, inp: Input, pos: nat)
    requires inp.Fits(c) && pos < |inp.x|
    ensures Clear(RowStart(pos, inp.Width()), inp.Width())
  {
    RowBefore(pos, |inp.x|, inp.Width());
    assert inp.Width() <= inp.nt * STRIDE;
    WiderRows(|inp.x|, inp.Width(), inp.nt * STRIDE);
  }

  lemma WiderRows(r: nat, a: nat, b: nat)
    requires a <= b
    ensures RowStart(r, a) <= RowStart(r, b)
  {
    assert r * (b - a) >= 0;
    assert r * b == r * a + r * (b - a);
  }

  lemma InputKept(c: Config, a: Vec, b: Vec, inp: Input)
    requires inp.Fits(c) && InputLoaded(c, a, inp) && SameOutside(a, b, SAVE_Q_BASE, WORK_END)
    ensures InputLoaded(c, b, inp)
  {
    hide Fixed;
    forall p | 0 <= p < |inp.x| ensures StoredAt(b, RowStart(p, inp.Width()), inp.x[p]) {
      InputClear(c, inp, p);
      SliceClear(a, b, RowStart(p, inp.Width()), inp.Width());
    }
  }

  lemma LoadedKept(c: Config, a: Vec, b: Vec, inp: Input, pr: Projection)
    requires Loaded(c, a, inp, pr) && SameOutside(a, b, SAVE_Q_BASE, WORK_END)
    ensures Loaded(c, b, inp, pr)
  {
    MatrixKept(c, a, b, inp, pr);
    InputKept(c, a, b, inp);
  }

  /** Saved rows leave the addresses between their tiles alone. */
  predicate GapsKept(a: Vec, b: Vec, n: nat)
  {
    |a| == |b| && forall i :: SAVE_Q_BASE <= i < SCRATCH_ADDR && i < |a| && i % STRIDE >= n ==> a[i] == b[i]
  }

  /** A tile saved at a multiple of the stride touches no gap. */
  lemma TileSparesGaps(a: Vec, b: Vec, at: nat, n: nat)
    requires SameOutside(a, b, at, at + n) && at % STRIDE == 0 && n <= STRIDE
    ensures GapsKept(a, b, n)
  {
  }

  lemma ScratchSparesGaps(a: Vec, b: Vec, lo: nat, hi: nat, n: nat)
    requires SameOutside(a, b, lo, hi) && SCRATCH_ADDR <= lo
    ensures GapsKept(a, b, n)
  {
  }

  // ---- Projections of all positions ----

  /** Row tiles of the device dimension, FP16-exact. */
  ghost predicate Exacts(c: Config, tiles: seq<Vec>)
  {
    1 <= |tiles| <= 2 && forall t :: 0 <= t < |tiles| ==> |tiles[t]| == c.dim && Fixed(c, tiles[t])
  }

  ghost predicate TilesHeld(c: Config, d: Device, tiles: seq<Vec>)
  {
    Exacts(c, tiles) && forall t :: 0 <= t < |tiles| ==> Holds(d, TileBank(t), tiles[t])
  }

  ghost predicate TilesStored(dram: Vec, base: nat, step: nat, tiles: seq<Vec>)
  {
    forall t :: 0 <= t < |tiles| ==> StoredAt(dram, base + RowStart(t, step), tiles[t])
  }

  /** save_row_tiles, at the given distance between tiles. */
  method SaveRowTiles(npu: NpuDeviceMini, ghost tiles: seq<Vec>, nt: nat, base: nat, step: nat)
    modifies npu
    requires HeadReady(npu.c, npu.View()) && Exact(npu.c) && nt == |tiles| && npu.c.dim <= step
    requires TilesHeld(npu.c, npu.View(), tiles) && base + nt * step <= DRAM_LEN
    ensures HeadReady(npu.c, npu.View()) && TilesHeld(npu.c, npu.View(), tiles)
    ensures TilesStored(npu.vrf[MEM_DRAM], base, step, tiles)
    ensures SameOutside(old(npu.vrf)[MEM_DRAM], npu.vrf[MEM_DRAM], base, base + nt * step)
    ensures step == STRIDE && base % STRIDE == 0 ==> GapsKept(old(npu.vrf)[MEM_DRAM], npu.vrf[MEM_DRAM], npu.c.dim)
  {
    hide Fixed, FullMask, RoundingIdempotent, Holds, StoredAt;
    ghost var dram := npu.vrf[MEM_DRAM];
    var tr := 0;
    while tr < nt
      invariant tr <= nt && HeadReady(npu.c, npu.View()) && TilesHeld(npu.c, npu.View(), tiles)
      invariant TilesStored(npu.vrf[MEM_DRAM], base, step, tiles[..tr])
      invariant SameOutside(dram, npu.vrf[MEM_DRAM], base, base + nt * step)
      invariant step == STRIDE && base % STRIDE == 0 ==> GapsKept(dram, npu.vrf[MEM_DRAM], npu.c.dim)
    {
      SaveTile(npu, tiles, tr, base, step);
      tr := tr + 1;
    }
  }

  method SaveTile(npu: NpuDeviceMini, ghost tiles: seq<Vec>, tr: nat, base: nat, step: nat)
    modifies npu
    requires HeadReady(npu.c, npu.View()) && Exact(npu.c) && tr < |tiles| && npu.c.dim <= step
    requires TilesHeld(npu.c, npu.View(), tiles) && base + |tiles| * step <= DRAM_LEN
    requires TilesStored(npu.vrf[MEM_DRAM], base, step, tiles[..tr])
    ensures HeadReady(npu.c, npu.View()) && TilesHeld(npu.c, npu.View(), tiles)
    ensures TilesStored(npu.vrf[MEM_DRAM], base, step, tiles[..tr + 1])
    ensures SameOutside(old(npu.vrf)[MEM_DRAM], npu.vrf[MEM_DRAM], base, base + |tiles| * step)
    ensures step == STRIDE && base % STRIDE == 0 ==> GapsKept(old(npu.vrf)[MEM_DRAM], npu.vrf[MEM_DRAM], npu.c.dim)
  {
    hide Fixed, FullMask, RoundingIdempotent;
    ghost var dram := npu.vrf[MEM_DRAM];
    TileStep(|tiles|, tr, step);
    var at := base + RowStart(tr, step);
    Fetch(npu, TileBank(tr), tiles[tr]);
    StoreDram(npu, at, tiles[tr]);
    ghost var now := npu.vrf[MEM_DRAM];
    hide Holds, StoredAt, GapsKept, RowStart;
    if step == STRIDE && base % STRIDE == 0 { StrideTile(dram, now, base, tr, npu.c.dim); }
    EarlierTiles(npu.c, dram, now, base, step, tiles, tr);
  }

  lemma StrideTile(a: Vec, b: Vec, base: nat, t: nat, n: nat)
    requires SameOutside(a, b, base + RowStart(t, STRIDE), base + RowStart(t, STRIDE) + n)
    requires base % STRIDE == 0 && n <= STRIDE
    ensures GapsKept(a, b, n)
  {
    TileSparesGaps(a, b, base + RowStart(t, STRIDE), n);
  }

  lemma EarlierTiles(c: Config, a: Vec, b: Vec, base: nat, step: nat, tiles: seq<Vec>, tr: nat)
    requires tr < |tiles| && Exacts(c, tiles) && TilesStored(a, base, step, tiles[..tr]) && c.dim <= step
    requires SameOutside(a, b, base + RowStart(tr, step), base + RowStart(tr, step) + c.dim)
    requires StoredAt(b, base + RowStart(tr, step), tiles[tr])
    ensures TilesStored(b, base, step, tiles[..tr + 1])
  {
    hide Fixed;
    forall t | 0 <= t < tr ensures StoredAt(b, base + RowStart(t, step), tiles[t]) {
      RowBefore(t, tr, step);
      StoredKept(a, b, base + RowStart(tr, step), base + RowStart(tr, step) + c.dim, base + RowStart(t, step),
                 tiles[..tr][t]);
    }
  }

  lemma TileStep(count: nat, t: nat, step: nat)
    requires t < count
    ensures RowStart(t, step) + step <= count * step && RowStart(count, step) == count * step
  {
    RowBefore(t, count, step);
  }

  /** The reference's row tiles of a projection. */
  ghost function ProjectTiles(c: Config, p: T.Problem): (r: seq<Vec>)
    requires p.Valid(c)
    ensures |r| == p.nt && forall t :: 0 <= t < p.nt ==> |r[t]| == p.n && r[t] == T.GoldenTile(c, p, t)
  {
    seq(p.nt, t requires 0 <= t < p.nt => T.GoldenTile(c, p, t))
  }

  lemma ProjectedExact(c: Config, p: T.Problem)
    requires p.Valid(c) && RoundingIdempotent(c)
    ensures Exacts(c, ProjectTiles(c, p))
  {
    hide Fixed, T.GoldenTile;
    forall t | 0 <= t < p.nt ensures Fixed(c, T.GoldenTile(c, p, t)) { T.GoldenFixed(c, p, t); }
  }

  /** One tiled product: its row tiles end in the context banks. */
  method Project(npu: NpuDeviceMini, ghost p: T.Problem, mat: nat, vec: nat, nt: nat, bias: nat)
    modifies npu
    requires HeadReady(npu.c, npu.View()) && Exact(npu.c) && p.Valid(npu.c) && nt == p.nt && npu.c.dim <= STRIDE
    requires T.Stored(npu.vrf[MEM_DRAM], p, mat, vec, bias)
    ensures HeadReady(npu.c, npu.View()) && npu.vrf[MEM_DRAM] == old(npu.vrf)[MEM_DRAM]
    ensures TilesHeld(npu.c, npu.View(), ProjectTiles(npu.c, p))
  {
    ProjectedExact(npu.c, p);
    hide Fixed, FullMask, RoundingIdempotent, T.GoldenTile, T.Stored, Holds, TilesHeld, Exacts, Exact;
    T.MvmTiledQ(npu, p, mat, vec, nt, bias);
    ProjectedHeld(npu.c, npu.View(), p);
  }

  lemma ProjectedHeld(c: Config, d: Device, p: T.Problem)
    requires p.Valid(c) && Exacts(c, ProjectTiles(c, p)) && Holds(d, MEM_ADDSUB_VRF_0, T.GoldenTile(c, p, 0))
    requires p.nt == 2 ==> Holds(d, MEM_ADDSUB_VRF_1, T.GoldenTile(c, p, 1))
    ensures TilesHeld(c, d, ProjectTiles(c, p))
  {
    hide Fixed, T.GoldenTile, Holds;
  }

  /** One row's tiled product, saved. */
  method ProjectRow(npu: NpuDeviceMini, ghost p: T.Problem, mat: nat, vec: nat, nt: nat, bias: nat, base: nat)
    modifies npu
    requires HeadReady(npu.c, npu.View()) && Exact(npu.c) && p.Valid(npu.c) && nt == p.nt && npu.c.dim <= STRIDE
    requires T.Stored(npu.vrf[MEM_DRAM], p, mat, vec, bias) && base + nt * STRIDE <= DRAM_LEN && base % STRIDE == 0
    ensures HeadReady(npu.c, npu.View()) && TilesStored(npu.vrf[MEM_DRAM], base, STRIDE, ProjectTiles(npu.c, p))
    ensures GapsKept(old(npu.vrf)[MEM_DRAM], npu.vrf[MEM_DRAM], npu.c.dim)
    ensures SameOutside(old(npu.vrf)[MEM_DRAM], npu.vrf[MEM_DRAM], base, base + nt * STRIDE)
  {
    hide Fixed, FullMask, RoundingIdempotent, T.GoldenTile, T.Stored, Holds;
    Project(npu, p, mat, vec, nt, bias);
    SaveRowTiles(npu, ProjectTiles(npu.c, p), nt, base, STRIDE);
  }

  lemma OutsideWidens(a: Vec, b: Vec, lo: nat, hi: nat, lo2: nat, hi2: nat)
    requires SameOutside(a, b, lo, hi) && lo2 <= lo && hi <= hi2
    ensures SameOutside(a, b, lo2, hi2)
  {
  }

  lemma OutsideJoins(a: Vec, b: Vec, d: Vec, lo: nat, hi: nat)
    requires SameOutside(a, b, lo, hi) && SameOutside(b, d, lo, hi)
    ensures SameOutside(a, d, lo, hi)
  {
  }

  lemma NoneSaved(c: Config, dram: Vec, inp: Input, pr: Projection, base: nat)
    ensures AllSaved(c, dram, inp, pr, base, 0)
  {
  }

  lemma OneMoreSaved(c: Config, dram: Vec, inp: Input, pr: Projection, base: nat, pos: nat)
    requires pos < |inp.x| && inp.Of(pr, pos).Valid(c) && AllSaved(c, dram, inp, pr, base, pos)
    requires TilesStored(dram, base + RowStart(pos, inp.nt * STRIDE), STRIDE, ProjectTiles(c, inp.Of(pr, pos)))
    ensures AllSaved(c, dram, inp, pr, base, pos + 1)
  {
    hide T.GoldenTile, RowStart, StoredAt;
    forall t | 0 <= t < inp.nt ensures Saved(c, dram, inp, pr, base, pos, t) {
      assert RowAddr(base, pos, t, inp.nt) == base + RowStart(pos, inp.nt * STRIDE) + RowStart(t, STRIDE);
    }
  }

  method ComputePosition(npu: NpuDeviceMini, ghost inp: Input, ghost pr: Projection, pos: nat, hidden: nat, nt: nat,
                         mat: nat, bias: nat, base: nat)
    modifies npu
    requires HeadReady(npu.c, npu.View()) && Exact(npu.c) && inp.Fits(npu.c) && pos < |inp.x|
    requires hidden == inp.Width() && nt == inp.nt && mat == pr.mat && bias == pr.bias
    requires SAVE_Q_BASE <= base <= SAVE_V_BASE && base % STRIDE == 0 && Loaded(npu.c, npu.vrf[MEM_DRAM], inp, pr)
    requires AllSaved(npu.c, npu.vrf[MEM_DRAM], inp, pr, base, pos)
    ensures HeadReady(npu.c, npu.View()) && Loaded(npu.c, npu.vrf[MEM_DRAM], inp, pr)
    ensures AllSaved(npu.c, npu.vrf[MEM_DRAM], inp, pr, base, pos + 1)
    ensures GapsKept(old(npu.vrf)[MEM_DRAM], npu.vrf[MEM_DRAM], npu.c.dim)
    ensures SameOutside(old(npu.vrf)[MEM_DRAM], npu.vrf[MEM_DRAM], base, base + 0x100)
  {
    hide Fixed, FullMask, RoundingIdempotent, T.GoldenTile, AllSaved, RowStart, StoredAt;
    ghost var dram := npu.vrf[MEM_DRAM];
    ghost var row := base + RowStart(pos, nt * STRIDE);
    RowInside(inp, npu.c, base, pos, 0, pos + 1);
    ProblemStored(npu.c, dram, inp, pr, inp.x[pos], RowStart(pos, hidden));
    RowFits(inp, npu.c, base, pos);
    hide Loaded;
    ProjectRow(npu, inp.Of(pr, pos), mat, RowStart(pos, hidden), nt, bias, base + RowStart(pos, nt * STRIDE));
    OutsideWidens(dram, npu.vrf[MEM_DRAM], row, row + nt * STRIDE, base, base + 0x100);
    OutsideWidens(dram, npu.vrf[MEM_DRAM], row, row + nt * STRIDE, SAVE_Q_BASE, WORK_END);
    LoadedKept(npu.c, dram, npu.vrf[MEM_DRAM], inp, pr);
    AllSavedKept(npu.c, dram, npu.vrf[MEM_DRAM], inp, pr, base, pos, row, row + nt * STRIDE);
    OneMoreSaved(npu.c, npu.vrf[MEM_DRAM], inp, pr, base, pos);
  }

  lemma RowFits(inp: Input, c: Config, base: nat, pos: nat)
    requires inp.Fits(c) && pos < |inp.x|
    ensures RowStart(pos, inp.nt * STRIDE) % STRIDE == 0 && RowStart(pos, inp.nt * STRIDE) + inp.nt * STRIDE <= 0x100
  {
    RowBefore(pos, |inp.x|, inp.nt * STRIDE);
    assert pos * (inp.nt * STRIDE) == pos * inp.nt * STRIDE;
  }

  /** compute_k_all_positions and compute_v_all_positions: every position's row tiles of one projection. */
  method ComputePositions(npu: NpuDeviceMini, ghost inp: Input, ghost pr: Projection, seqLen: nat, hidden: nat, nt: nat,
                          mat: nat, bias: nat, base: nat)
    modifies npu
    requires HeadReady(npu.c, npu.View()) && Exact(npu.c) && inp.Fits(npu.c)
    requires seqLen == |inp.x| && hidden == inp.Width() && nt == inp.nt && mat == pr.mat && bias == pr.bias
    requires SAVE_Q_BASE <= base <= SAVE_V_BASE && base % STRIDE == 0 && Loaded(npu.c, npu.vrf[MEM_DRAM], inp, pr)
    ensures HeadReady(npu.c, npu.View()) && AllSaved(npu.c, npu.vrf[MEM_DRAM], inp, pr, base, |inp.x|)
    ensures GapsKept(old(npu.vrf)[MEM_DRAM], npu.vrf[MEM_DRAM], npu.c.dim)
    ensures SameOutside(old(npu.vrf)[MEM_DRAM], npu.vrf[MEM_DRAM], base, base + 0x100)
  {
    hide Fixed, FullMask, RoundingIdempotent, T.GoldenTile, Loaded, AllSaved;
    ghost var dram := npu.vrf[MEM_DRAM];
    NoneSaved(npu.c, dram, inp, pr, base);
    var pos := 0;
    while pos < seqLen
      invariant pos <= seqLen && HeadReady(npu.c, npu.View()) && Loaded(npu.c, npu.vrf[MEM_DRAM], inp, pr)
      invariant AllSaved(npu.c, npu.vrf[MEM_DRAM], inp, pr, base, pos)
      invariant SameOutside(dram, npu.vrf[MEM_DRAM], base, base + 0x100) && GapsKept(dram, npu.vrf[MEM_DRAM], npu.c.dim)
    {
      ComputePosition(npu, inp, pr, pos, hidden, nt, mat, bias, base);
      pos := pos + 1;
    }
  }

  // ---- The attention of one query ----

  /** What every query needs in DRAM; the attention of a query leaves it in place. */
  ghost predicate AttentionReady(c: Config, dram: Vec, inp: Input, w: Weights)
  {
    Loaded(c, dram, inp, w.q) && Loaded(c, dram, inp, w.k) && Loaded(c, dram, inp, w.v) && UnitsStored(c, dram) &&
    AllSaved(c, dram, inp, w.k, SAVE_K_BASE, |inp.x|) && AllSaved(c, dram, inp, w.v, SAVE_V_BASE, |inp.x|)
  }

  /** Every position's problem is well formed. */
  ghost predicate Sound(c: Config, inp: Input, pr: Projection)
  {
    forall p :: 0 <= p < |inp.x| ==> inp.Of(pr, p).Valid(c)
  }

  /** Tile t of every position, as the reference projects it. */
  ghost function TileRows(c: Config, inp: Input, pr: Projection, t: nat): (r: seq<Vec>)
    requires t < inp.nt && Sound(c, inp, pr)
    ensures |r| == |inp.x| && forall p :: 0 <= p < |r| ==> |r[p]| == inp.n && r[p] == T.GoldenTile(c, inp.Of(pr, p), t)
  {
    seq(|inp.x|, p requires 0 <= p < |inp.x| => T.GoldenTile(c, inp.Of(pr, p), t))
  }

  /** What the heads of tile row t leave for a query: one head's context if a head fits the tile, else zeros. */
  ghost function HeadTile(c: Config, inp: Input, w: Weights, pos: nat, t: nat, headSize: nat): (r: Vec)
    requires pos < |inp.x| && t < inp.nt && inp.n == c.dim
    requires Sound(c, inp, w.q) && Sound(c, inp, w.k) && Sound(c, inp, w.v)
    ensures |r| == c.dim
  {
    if headSize <= c.dim then
      HeadContext(c, TileRows(c, inp, w.k, t), TileRows(c, inp, w.v, t), TileRows(c, inp, w.q, t)[pos], headSize)
    else Zeros(c.dim)
  }

  lemma LoadedIsSound(c: Config, dram: Vec, inp: Input, pr: Projection)
    requires Loaded(c, dram, inp, pr)
    ensures Sound(c, inp, pr)
  {
    forall p | 0 <= p < |inp.x| ensures inp.Of(pr, p).Valid(c) {
      ProblemStored(c, dram, inp, pr, inp.x[p], RowStart(p, inp.Width()));
    }
  }

  lemma SavedRows(c: Config, dram: Vec, inp: Input, pr: Projection, base: nat, t: nat)
    requires inp.Fits(c) && RoundingIdempotent(c) && t < inp.nt && Sound(c, inp, pr)
    requires AllSaved(c, dram, inp, pr, base, |inp.x|)
    ensures RowsStored(c, dram, TileRows(c, inp, pr, t), base + t * STRIDE, inp.nt * STRIDE)
  {
    var rows := TileRows(c, inp, pr, t);
    forall p | 0 <= p < |rows|
      ensures Fixed(c, rows[p]) && StoredAt(dram, base + t * STRIDE + RowStart(p, inp.nt * STRIDE), rows[p])
    {
      T.GoldenFixed(c, inp.Of(pr, p), t);
      assert Saved(c, dram, inp, pr, base, p, t);
      assert RowAddr(base, p, t, inp.nt) == base + t * STRIDE + RowStart(p, inp.nt * STRIDE);
    }
    hide Fixed, T.GoldenTile, AllSaved;
  }

  function PlaceOf(pos: nat, t: nat, nt: nat): Place
  {
    Place(SAVE_K_BASE + t * STRIDE, SAVE_V_BASE + t * STRIDE, nt * STRIDE, RowAddr(SAVE_Q_BASE, pos, t, nt),
          SCRATCH_ADDR)
  }

  /** Where the heads of a tile row find their inputs once the query is saved. */
  lemma HeadsStored(c: Config, dram: Vec, inp: Input, w: Weights, pos: nat, t: nat)
    requires inp.Fits(c) && RoundingIdempotent(c) && pos < |inp.x| && t < inp.nt
    requires Sound(c, inp, w.q) && Sound(c, inp, w.k) && Sound(c, inp, w.v)
    requires AttentionReady(c, dram, inp, w) && Saved(c, dram, inp, w.q, SAVE_Q_BASE, pos, t)
    ensures HeadStored(c, dram, TileRows(c, inp, w.k, t), TileRows(c, inp, w.v, t), TileRows(c, inp, w.q, t)[pos],
                       PlaceOf(pos, t, inp.nt))
  {
    hide Loaded, Fixed, RowsStored, UnitsStored, RoundingIdempotent, AllSaved, T.GoldenTile;
    SavedRows(c, dram, inp, w.k, SAVE_K_BASE, t);
    SavedRows(c, dram, inp, w.v, SAVE_V_BASE, t);
    T.GoldenFixed(c, inp.Of(w.q, pos), t);
  }

  /** The scratch vector lies outside everything the heads read. */
  lemma ScratchIsFree(c: Config, inp: Input, k: seq<Vec>, v: seq<Vec>, pos: nat, t: nat)
    requires inp.Fits(c) && |k| == |v| == |inp.x| && pos < |inp.x| && t < inp.nt
    ensures Untouched(c, k, v, PlaceOf(pos, t, inp.nt), SCRATCH_ADDR)
  {
    RowInside(inp, c, SAVE_Q_BASE, pos, t, pos + 1);
    forall p | 0 <= p < |inp.x|
      ensures t * STRIDE + RowStart(p, inp.nt * STRIDE) + STRIDE <= 0x100
    {
      RowInside(inp, c, 0, p, t, p + 1);
    }
    hide RowStart;
  }

  lemma ReadyKept(c: Config, a: Vec, b: Vec, inp: Input, w: Weights, lo: nat, hi: nat)
    requires inp.Fits(c) && AttentionReady(c, a, inp, w) && SameOutside(a, b, lo, hi)
    requires SAVE_Q_BASE <= lo && (hi <= SAVE_K_BASE || SCRATCH_ADDR <= lo) && hi <= WORK_END
    ensures AttentionReady(c, b, inp, w)
  {
    RowInRegion(c, inp);
    OutsideWidens(a, b, lo, hi, SAVE_Q_BASE, WORK_END);
    UnitsOutside(c, a, b);
    hide Loaded, UnitsStored, AllSaved;
    LoadedKept(c, a, b, inp, w.q);
    LoadedKept(c, a, b, inp, w.k);
    LoadedKept(c, a, b, inp, w.v);
    AllSavedKept(c, a, b, inp, w.k, SAVE_K_BASE, |inp.x|, lo, hi);
    AllSavedKept(c, a, b, inp, w.v, SAVE_V_BASE, |inp.x|, lo, hi);
  }

  lemma RowInRegion(c: Config, inp: Input)
    requires inp.Fits(c)
    ensures RowStart(|inp.x|, inp.nt * STRIDE) <= 0x100
  {
  }

  lemma UnitsOutside(c: Config, a: Vec, b: Vec)
    requires UnitsStored(c, a) && SameOutside(a, b, SAVE_Q_BASE, WORK_END)
    ensures UnitsStored(c, b)
  {
    forall j | 0 <= j < c.dim
      ensures b[UNIT_VEC_BASE + RowStart(j, c.dim)..UNIT_VEC_BASE + RowStart(j, c.dim) + c.dim] == Unit(c.dim, j)
    {
      SliceClear(a, b, UNIT_VEC_BASE + RowStart(j, c.dim), c.dim);
    }
  }

  /** Zero the context bank of every tile row. */
  method ClearContexts(npu: NpuDeviceMini, nt: nat)
    modifies npu
    requires HeadReady(npu.c, npu.View()) && Exact(npu.c) && nt <= 2
    ensures HeadReady(npu.c, npu.View()) && npu.vrf[MEM_DRAM] == old(npu.vrf)[MEM_DRAM]
    ensures forall t :: 0 <= t < nt ==> Holds(npu.View(), TileBank(t), Zeros(npu.c.dim))
  {
    hide Fixed, FullMask, RoundingIdempotent;
    ghost var dram := npu.vrf[MEM_DRAM];
    FillPatterns();
    hide DecodeFp16;
    var tr := 0;
    while tr < nt
      invariant tr <= nt && HeadReady(npu.c, npu.View()) && npu.vrf[MEM_DRAM] == dram
      invariant forall t :: 0 <= t < tr ==> Holds(npu.View(), TileBank(t), Zeros(npu.c.dim))
    {
      SendVRd(npu, MEM_FILL, 0);
      assert npu.pipeline.value == Zeros(npu.c.dim);
      Store(npu, TileBank(tr), Zeros(npu.c.dim));
      tr := tr + 1;
    }
  }

  /** The loop over the heads of one tile row.  No head masks its lanes, so each leaves the same context. */
  method TileHeads(npu: NpuDeviceMini, ghost k: seq<Vec>, ghost v: seq<Vec>, ghost q: Vec, seqLen: nat, headSize: nat,
                   at: Place, acc: nat)
    modifies npu
    requires HeadReady(npu.c, npu.View()) && Exact(npu.c) && seqLen == |k| == |v| && headSize >= 1
    requires acc == MEM_ADDSUB_VRF_0 || acc == MEM_ADDSUB_VRF_1
    requires HeadStored(npu.c, npu.vrf[MEM_DRAM], k, v, q, at) && Untouched(npu.c, k, v, at, at.scratch)
    requires at.scratch + npu.c.dim <= DRAM_LEN && Holds(npu.View(), acc, Zeros(npu.c.dim))
    requires (forall i :: 0 <= i < |k| ==> |k[i]| == npu.c.dim) && forall i :: 0 <= i < |v| ==> |v[i]| == npu.c.dim
    ensures HeadReady(npu.c, npu.View())
    ensures BanksKept(old(npu.View()), npu.View(), {MEM_DRAM, MEM_MVM_INITIAL_VRF, acc})
    ensures SameOutside(old(npu.vrf)[MEM_DRAM], npu.vrf[MEM_DRAM], at.scratch, at.scratch + npu.c.dim)
    ensures Holds(npu.View(), acc,
                  if headSize <= npu.c.dim then HeadContext(npu.c, k, v, q, headSize) else Zeros(npu.c.dim))
  {
    hide Fixed, FullMask, RoundingIdempotent, HeadStored, Untouched, HeadContext;
    assert |q| == npu.c.dim by { QuerySize(npu.c, npu.vrf[MEM_DRAM], k, v, q, at); }
    ghost var d := npu.View();
    var heads := npu.c.dim / headSize;
    HeadsPerTile(npu.c.dim, headSize);
    var h := 0;
    while h < heads
      invariant h <= heads && HeadReady(npu.c, npu.View()) && HeadStored(npu.c, npu.vrf[MEM_DRAM], k, v, q, at)
      invariant BanksKept(d, npu.View(), {MEM_DRAM, MEM_MVM_INITIAL_VRF, acc})
      invariant SameOutside(d.vrf[MEM_DRAM], npu.vrf[MEM_DRAM], at.scratch, at.scratch + npu.c.dim)
      invariant h == 0 ==> Holds(npu.View(), acc, Zeros(npu.c.dim))
      invariant h > 0 ==> headSize <= npu.c.dim && Holds(npu.View(), acc, HeadContext(npu.c, k, v, q, headSize))
    {
      Head(npu, k, v, q, seqLen, headSize, at, acc);
      h := h + 1;
    }
  }

  lemma QuerySize(c: Config, dram: Vec, k: seq<Vec>, v: seq<Vec>, q: Vec, at: Place)
    requires HeadStored(c, dram, k, v, q, at)
    ensures |q| == c.dim
  {
  }

  lemma HeadsPerTile(n: nat, headSize: nat)
    requires headSize >= 1
    ensures n / headSize > 0 <==> headSize <= n && n > 0
  {
  }

  /** The context banks of tile rows below `done` hold their heads' result, the others zeros. */
  ghost predicate Contexts(c: Config, d: Device, inp: Input, w: Weights, pos: nat, headSize: nat, done: nat)
    requires pos < |inp.x| && inp.n == c.dim && Sound(c, inp, w.q) && Sound(c, inp, w.k) && Sound(c, inp, w.v)
  {
    forall t :: 0 <= t < inp.nt ==>
      Holds(d, TileBank(t), if t < done then HeadTile(c, inp, w, pos, t, headSize) else Zeros(c.dim))
  }

  /** One tile row of the outer loop. */
  method TileRow(npu: NpuDeviceMini, ghost inp: Input, ghost w: Weights, pos: nat, seqLen: nat, nt: nat, headSize: nat,
                 tr: nat)
    modifies npu
    requires HeadReady(npu.c, npu.View()) && Exact(npu.c) && inp.Fits(npu.c) && seqLen == |inp.x| && nt == inp.nt
    requires pos < seqLen && tr < nt && headSize >= 1
    requires Sound(npu.c, inp, w.q) && Sound(npu.c, inp, w.k) && Sound(npu.c, inp, w.v)
    requires AttentionReady(npu.c, npu.vrf[MEM_DRAM], inp, w)
    requires Saved(npu.c, npu.vrf[MEM_DRAM], inp, w.q, SAVE_Q_BASE, pos, tr)
    requires Contexts(npu.c, npu.View(), inp, w, pos, headSize, tr)
    ensures HeadReady(npu.c, npu.View())
    ensures SameOutside(old(npu.vrf)[MEM_DRAM], npu.vrf[MEM_DRAM], SCRATCH_ADDR, SCRATCH_ADDR + STRIDE)
    ensures Contexts(npu.c, npu.View(), inp, w, pos, headSize, tr + 1)
  {
    hide Fixed, FullMask, HeadStored, Untouched, HeadContext, AttentionReady, Saved, Sound, Holds, TileRows,
      T.GoldenTile;
    ghost var k, v, q := TileRows(npu.c, inp, w.k, tr), TileRows(npu.c, inp, w.v, tr),
                          TileRows(npu.c, inp, w.q, tr)[pos];
    HeadsStored(npu.c, npu.vrf[MEM_DRAM], inp, w, pos, tr);
    hide RoundingIdempotent;
    ScratchIsFree(npu.c, inp, k, v, pos, tr);
    ghost var d := npu.View();
    TileHeads(npu, k, v, q, seqLen, headSize, PlaceOf(pos, tr, nt), TileBank(tr));
    forall t | 0 <= t < inp.nt && t != tr
      ensures Holds(npu.View(), TileBank(t),
                    if t < tr + 1 then HeadTile(npu.c, inp, w, pos, t, headSize) else Zeros(npu.c.dim))
    {
      HoldsKept(d, npu.View(), {MEM_DRAM, MEM_MVM_INITIAL_VRF, TileBank(tr)}, TileBank(t),
                if t < tr then HeadTile(npu.c, inp, w, pos, t, headSize) else Zeros(npu.c.dim));
    }
  }

  /** The query's projection, saved; saved keys and values and everything loaded stay. */
  method SaveQuery(npu: NpuDeviceMini, ghost inp: Input, ghost w: Weights, pos: nat, hidden: nat, nt: nat,
                   qMat: nat, qBias: nat)
    modifies npu
    requires HeadReady(npu.c, npu.View()) && Exact(npu.c) && inp.Fits(npu.c) && pos < |inp.x|
    requires hidden == inp.Width() && nt == inp.nt && qMat == w.q.mat && qBias == w.q.bias
    requires AttentionReady(npu.c, npu.vrf[MEM_DRAM], inp, w)
    ensures HeadReady(npu.c, npu.View()) && AttentionReady(npu.c, npu.vrf[MEM_DRAM], inp, w)
    ensures forall t :: 0 <= t < nt ==> Saved(npu.c, npu.vrf[MEM_DRAM], inp, w.q, SAVE_Q_BASE, pos, t)
    ensures SameOutside(old(npu.vrf)[MEM_DRAM], npu.vrf[MEM_DRAM], SAVE_Q_BASE, SAVE_K_BASE)
    ensures GapsKept(old(npu.vrf)[MEM_DRAM], npu.vrf[MEM_DRAM], npu.c.dim)
  {
    hide Fixed, FullMask, RoundingIdempotent, T.GoldenTile, AllSaved, RowStart, StoredAt, T.Stored;
    ghost var dram := npu.vrf[MEM_DRAM];
    ghost var row := SAVE_Q_BASE + RowStart(pos, nt * STRIDE);
    ProblemStored(npu.c, dram, inp, w.q, inp.x[pos], RowStart(pos, hidden));
    RowFits(inp, npu.c, SAVE_Q_BASE, pos);
    hide Loaded, AttentionReady;
    ProjectRow(npu, inp.Of(w.q, pos), qMat, RowStart(pos, hidden), nt, qBias, SAVE_Q_BASE + RowStart(pos, nt * STRIDE));
    OutsideWidens(dram, npu.vrf[MEM_DRAM], row, row + nt * STRIDE, SAVE_Q_BASE, SAVE_K_BASE);
    ReadyKept(npu.c, dram, npu.vrf[MEM_DRAM], inp, w, SAVE_Q_BASE, SAVE_K_BASE);
    forall t | 0 <= t < nt ensures Saved(npu.c, npu.vrf[MEM_DRAM], inp, w.q, SAVE_Q_BASE, pos, t) {
      assert RowAddr(SAVE_Q_BASE, pos, t, nt) == row + RowStart(t, STRIDE);
    }
  }

  /** dot_product_attention: from input rows, weights and saved keys and values, the context banks end with what the
      heads of each tile row compute for this query, and the next query can be served. */
  method DotProductAttention(npu: NpuDeviceMini, ghost inp: Input, ghost w: Weights, pos: nat, seqLen: nat, hidden: nat,
                             nt: nat, qMat: nat, qBias: nat, numHead: nat)
    modifies npu
    requires HeadReady(npu.c, npu.View()) && Exact(npu.c) && inp.Fits(npu.c) && seqLen == |inp.x| && pos < seqLen
    requires hidden == inp.Width() && nt == inp.nt && qMat == w.q.mat && qBias == w.q.bias && 1 <= numHead <= hidden
    requires AttentionReady(npu.c, npu.vrf[MEM_DRAM], inp, w)
    ensures HeadReady(npu.c, npu.View()) && AttentionReady(npu.c, npu.vrf[MEM_DRAM], inp, w)
    ensures SameOutsideTwo(old(npu.vrf)[MEM_DRAM], npu.vrf[MEM_DRAM], SAVE_Q_BASE, SAVE_K_BASE,
                           SCRATCH_ADDR, SCRATCH_ADDR + STRIDE)
    ensures GapsKept(old(npu.vrf)[MEM_DRAM], npu.vrf[MEM_DRAM], npu.c.dim)
    ensures Sound(npu.c, inp, w.q) && Sound(npu.c, inp, w.k) && Sound(npu.c, inp, w.v)
    ensures forall t :: 0 <= t < nt ==>
              Holds(npu.View(), TileBank(t), HeadTile(npu.c, inp, w, pos, t, hidden / numHead))
  {
    var headSize := hidden / numHead;
    HeadsPerTile(hidden, numHead);
    ReadyIsSound(npu.c, npu.vrf[MEM_DRAM], inp, w);
    hide Fixed, FullMask, RoundingIdempotent, AttentionReady, Saved, Sound, Holds, HeadTile, Exact;
    SaveQuery(npu, inp, w, pos, hidden, nt, qMat, qBias);
    ghost var saved := npu.vrf[MEM_DRAM];
    HeadsOfQuery(npu, inp, w, pos, seqLen, nt, headSize);
    ScratchSparesGaps(saved, npu.vrf[MEM_DRAM], SCRATCH_ADDR, SCRATCH_ADDR + STRIDE, npu.c.dim);
  }

  /** The rest of dot_product_attention once the query is saved. */
  method HeadsOfQuery(npu: NpuDeviceMini, ghost inp: Input, ghost w: Weights, pos: nat, seqLen: nat, nt: nat,
                      headSize: nat)
    modifies npu
    requires HeadReady(npu.c, npu.View()) && Exact(npu.c) && inp.Fits(npu.c) && seqLen == |inp.x| && nt == inp.nt
    requires pos < seqLen && headSize >= 1
    requires Sound(npu.c, inp, w.q) && Sound(npu.c, inp, w.k) && Sound(npu.c, inp, w.v)
    requires AttentionReady(npu.c, npu.vrf[MEM_DRAM], inp, w)
    requires forall t :: 0 <= t < nt ==> Saved(npu.c, npu.vrf[MEM_DRAM], inp, w.q, SAVE_Q_BASE, pos, t)
    ensures HeadReady(npu.c, npu.View()) && AttentionReady(npu.c, npu.vrf[MEM_DRAM], inp, w)
    ensures SameOutside(old(npu.vrf)[MEM_DRAM], npu.vrf[MEM_DRAM], SCRATCH_ADDR, SCRATCH_ADDR + STRIDE)
    ensures Contexts(npu.c, npu.View(), inp, w, pos, headSize, nt)
  {
    hide Fixed, FullMask, RoundingIdempotent, AttentionReady, Saved, Sound, Holds, HeadTile, Exact;
    ghost var saved := npu.vrf[MEM_DRAM];
    ClearContexts(npu, nt);
    var tr := 0;
    while tr < nt
      invariant tr <= nt && HeadReady(npu.c, npu.View())
      invariant SameOutside(saved, npu.vrf[MEM_DRAM], SCRATCH_ADDR, SCRATCH_ADDR + STRIDE)
      invariant Contexts(npu.c, npu.View(), inp, w, pos, headSize, tr)
    {
      ReadyKept(npu.c, saved, npu.vrf[MEM_DRAM], inp, w, SCRATCH_ADDR, SCRATCH_ADDR + STRIDE);
      QueryKept(npu.c, saved, npu.vrf[MEM_DRAM], inp, w.q, pos, tr);
      ghost var before := npu.vrf[MEM_DRAM];
      TileRow(npu, inp, w, pos, seqLen, nt, headSize, tr);
      OutsideJoins(saved, before, npu.vrf[MEM_DRAM], SCRATCH_ADDR, SCRATCH_ADDR + STRIDE);
      tr := tr + 1;
    }
    ReadyKept(npu.c, saved, npu.vrf[MEM_DRAM], inp, w, SCRATCH_ADDR, SCRATCH_ADDR + STRIDE);
  }

  lemma ReadyIsSound(c: Config, dram: Vec, inp: Input, w: Weights)
    requires AttentionReady(c, dram, inp, w)
    ensures Sound(c, inp, w.q) && Sound(c, inp, w.k) && Sound(c, inp, w.v)
  {
    hide Loaded, Sound, AllSaved, UnitsStored;
    LoadedIsSound(c, dram, inp, w.q);
    LoadedIsSound(c, dram, inp, w.k);
    LoadedIsSound(c, dram, inp, w.v);
  }

  lemma QueryKept(c: Config, a: Vec, b: Vec, inp: Input, pr: Projection, pos: nat, t: nat)
    requires inp.Fits(c) && pos < |inp.x| && t < inp.nt && Saved(c, a, inp, pr, SAVE_Q_BASE, pos, t)
    requires SameOutside(a, b, SCRATCH_ADDR, SCRATCH_ADDR + STRIDE)
    ensures Saved(c, b, inp, pr, SAVE_Q_BASE, pos, t)
  {
    hide T.GoldenTile, RowAddr;
    RowInside(inp, c, SAVE_Q_BASE, pos, t, pos + 1);
    StoredKept(a, b, SCRATCH_ADDR, SCRATCH_ADDR + STRIDE, RowAddr(SAVE_Q_BASE, pos, t, inp.nt),
               T.GoldenTile(c, inp.Of(pr, pos), t));
  }

  /** Phase 1: keys and values of all positions, from loaded inputs and weights. */
  method KeysAndValues(npu: NpuDeviceMini, ghost inp: Input, ghost w: Weights, seqLen: nat, hidden: nat, nt: nat,
                       kMat: nat, kBias: nat, vMat: nat, vBias: nat)
    modifies npu
    requires HeadReady(npu.c, npu.View()) && Exact(npu.c) && inp.Fits(npu.c) && seqLen == |inp.x|
    requires hidden == inp.Width() && nt == inp.nt
    requires kMat == w.k.mat && kBias == w.k.bias && vMat == w.v.mat && vBias == w.v.bias
    requires Loaded(npu.c, npu.vrf[MEM_DRAM], inp, w.q) && Loaded(npu.c, npu.vrf[MEM_DRAM], inp, w.k)
    requires Loaded(npu.c, npu.vrf[MEM_DRAM], inp, w.v) && UnitsStored(npu.c, npu.vrf[MEM_DRAM])
    ensures HeadReady(npu.c, npu.View()) && AttentionReady(npu.c, npu.vrf[MEM_DRAM], inp, w)
    ensures SameOutside(old(npu.vrf)[MEM_DRAM], npu.vrf[MEM_DRAM], SAVE_K_BASE, SCRATCH_ADDR)
    ensures GapsKept(old(npu.vrf)[MEM_DRAM], npu.vrf[MEM_DRAM], npu.c.dim)
  {
    hide Fixed, FullMask, RoundingIdempotent, Loaded, UnitsStored, AllSaved;
    ghost var d0 := npu.vrf[MEM_DRAM];
    ComputePositions(npu, inp, w.k, seqLen, hidden, nt, kMat, kBias, SAVE_K_BASE);
    ghost var d1 := npu.vrf[MEM_DRAM];
    PhaseKept(npu.c, d0, d1, inp, w, SAVE_K_BASE);
    ComputePositions(npu, inp, w.v, seqLen, hidden, nt, vMat, vBias, SAVE_V_BASE);
    PhaseKept(npu.c, d1, npu.vrf[MEM_DRAM], inp, w, SAVE_V_BASE);
    RowInRegion(npu.c, inp);
    AllSavedKept(npu.c, d1, npu.vrf[MEM_DRAM], inp, w.k, SAVE_K_BASE, |inp.x|, SAVE_V_BASE, SAVE_V_BASE + 0x100);
  }

  lemma PhaseKept(c: Config, a: Vec, b: Vec, inp: Input, w: Weights, base: nat)
    requires inp.Fits(c) && SAVE_Q_BASE <= base <= SAVE_V_BASE && SameOutside(a, b, base, base + 0x100)
    requires Loaded(c, a, inp, w.q) && Loaded(c, a, inp, w.k) && Loaded(c, a, inp, w.v) && UnitsStored(c, a)
    ensures Loaded(c, b, inp, w.q) && Loaded(c, b, inp, w.k) && Loaded(c, b, inp, w.v) && UnitsStored(c, b)
  {
    OutsideWidens(a, b, base, base + 0x100, SAVE_Q_BASE, WORK_END);
    UnitsOutside(c, a, b);
    hide Loaded, UnitsStored;
    LoadedKept(c, a, b, inp, w.q);
    LoadedKept(c, a, b, inp, w.k);
    LoadedKept(c, a, b, inp, w.v);
  }
}
