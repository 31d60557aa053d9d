/** mvm_tiled_q of the baseline BERT firmware: a matrix-vector product with bias, tile by tile,
    on the rounding device (or the exact one), against the tiled NumPy reference. */
module TiledMvm {
  import opened Arithmetic
  import opened Numbers
  import opened D = Device
  import opened NpuDevice
  import opened Firmware
  import opened BertBanks

  // ---- The reference: _tiled_mvm, then the bias ----

  /** Inner product over columns off .. off + n - 1. */
  function DotFrom(row: Vec, x: Vec, off: nat, n: nat): Num
    requires off + n <= |row| && off + n <= |x|
  {
    if n == 0 then ZERO else Add(DotFrom(row, x, off, n - 1), Mul(row[off + n - 1], x[off + n - 1]))
  }

  /** One matrix-vector problem cut into nt by nt tiles of side n. */
  datatype Problem = Problem(w: Matrix, x: Vec, b: Vec, nt: nat, n: nat)
  {
    ghost predicate Valid(c: Config)
    {
      1 <= nt <= 2 && n >= 1 && c.dim == n && |w| == Size() && |x| == Size() && |b| == Size() &&
      (forall i :: 0 <= i < |w| ==> Fixed(c, w[i])) && Fixed(c, x) && Fixed(c, b)
    }

    function Size(): nat { if nt == 1 then n else nt * n }

    /** First index of tile t. */
    function At(t: nat): nat { if t == 0 then 0 else n }
  }

  /** Row i of tile row tr times the chunk of tile column tc, rounded as MV_MUL rounds. */
  function Partial(c: Config, p: Problem, tr: nat, tc: nat): (v: Vec)
    requires 1 <= p.nt <= 2 && |p.w| == p.Size() == |p.x| && tr < p.nt && tc < p.nt
    ensures |v| == p.n
    ensures forall i :: 0 <= i < p.n ==> v[i] == Rnd(c, DotFrom(p.w[p.At(tr) + i], p.x, p.At(tc), p.n))
  {
    seq(p.n, i requires 0 <= i < p.n => Rnd(c, DotFrom(p.w[p.At(tr) + i], p.x, p.At(tc), p.n)))
  }

  /** The accumulator of tile row tr after tc + 1 tile columns. */
  function Acc(c: Config, p: Problem, tr: nat, tc: nat): (v: Vec)
    requires 1 <= p.nt <= 2 && |p.w| == p.Size() == |p.x| && tr < p.nt && tc < p.nt
    ensures |v| == p.n
  {
    if tc == 0 then Partial(c, p, tr, 0)
    else Lanes(c, OP_VV_ADD, Acc(c, p, tr, tc - 1), Partial(c, p, tr, tc))
  }

  function BiasTile(p: Problem, tr: nat): (v: Vec)
    requires 1 <= p.nt <= 2 && |p.b| == p.Size() && tr < p.nt
    ensures |v| == p.n
  {
    p.b[p.At(tr)..p.At(tr) + p.n]
  }

  /** Row tile tr of round(_tiled_mvm(W, x) + b). */
  function GoldenTile(c: Config, p: Problem, tr: nat): (v: Vec)
    requires 1 <= p.nt <= 2 && |p.w| == p.Size() == |p.x| == |p.b| && tr < p.nt
    ensures |v| == p.n
  {
    Lanes(c, OP_VV_ADD, Acc(c, p, tr, p.nt - 1), BiasTile(p, tr))
  }

  lemma AddZero(a: Num)
    ensures Add(a, ZERO) == a
  {
  }

  lemma {:induction false} DotSplit(row: Vec, x: Vec, m: nat, n: nat)
    requires m + n <= |row| && m + n <= |x|
    ensures Dot(row, x, m + n) == Add(Dot(row, x, m), DotFrom(row, x, m, n))
  {
    hide Add, Mul;
    if n == 0 {
      AddZero(Dot(row, x, m));
    } else {
      DotSplit(row, x, m, n - 1);
      AddAssociative(Dot(row, x, m), DotFrom(row, x, m, n - 1), Mul(row[m + n - 1], x[m + n - 1]));
    }
  }

  lemma {:induction false} DotFromStart(row: Vec, x: Vec, n: nat)
    requires n <= |row| && n <= |x|
    ensures DotFrom(row, x, 0, n) == Dot(row, x, n)
  {
    if n > 0 { DotFromStart(row, x, n - 1); }
  }

  /** Without rounding the tiled reference is the plain product W x + b, element by element. */
  lemma GoldenTileIsProduct(c: Config, p: Problem, tr: nat, i: nat)
    requires p.Valid(c) && tr < p.nt && i < p.n
    requires forall x :: Rnd(c, x) == x
    ensures GoldenTile(c, p, tr)[i] == Add(Dot(p.w[p.At(tr) + i], p.x, p.Size()), p.b[p.At(tr) + i])
  {
    hide Add, Mul, Dot, DotFrom, Fixed, Rnd;
    var row := p.w[p.At(tr) + i];
    DotFromStart(row, p.x, p.n);
    PartialIs(c, p, tr, 0, i);
    PlainLane(c, Acc(c, p, tr, p.nt - 1), BiasTile(p, tr), i);
    assert Acc(c, p, tr, 0) == Partial(c, p, tr, 0);
    assert p.Size() == (if p.nt == 1 then p.n else p.n + p.n);
    if p.nt == 2 {
      DotSplit(row, p.x, p.n, p.n);
      PartialIs(c, p, tr, 1, i);
      PlainLane(c, Partial(c, p, tr, 0), Partial(c, p, tr, 1), i);
      assert Acc(c, p, tr, 1) == Lanes(c, OP_VV_ADD, Partial(c, p, tr, 0), Partial(c, p, tr, 1));
    }
  }

  lemma PlainLane(c: Config, a: Vec, b: Vec, i: nat)
    requires i < |a| && i < |b| && forall x :: Rnd(c, x) == x
    ensures Lanes(c, OP_VV_ADD, a, b)[i] == Add(a[i], b[i])
  {
    hide Add, Rnd;
  }

  lemma PartialIs(c: Config, p: Problem, tr: nat, tc: nat, i: nat)
    requires p.Valid(c) && tr < p.nt && tc < p.nt && i < p.n && forall x :: Rnd(c, x) == x
    ensures Partial(c, p, tr, tc)[i] == DotFrom(p.w[p.At(tr) + i], p.x, p.At(tc), p.n)
  {
    hide DotFrom, Rnd, Fixed;
  }

  // ---- DRAM layout ----

  function TileAt(base: nat, tr: nat, tc: nat, nt: nat, n: nat): nat
  {
    base + (tr * nt + tc) * (n * n)
  }

  /** Tiles lie behind each other, tile row by tile row, without a gap. */
  lemma TilesConsecutive(base: nat, tr: nat, tc: nat, nt: nat, n: nat)
    requires nt >= 1
    ensures TileAt(base, 0, 0, nt, n) == base
    ensures TileAt(base, tr, tc + 1, nt, n) == TileAt(base, tr, tc, nt, n) + n * n
    ensures TileAt(base, tr + 1, 0, nt, n) == TileAt(base, tr, nt - 1, nt, n) + n * n
  {
    assert (tr + 1) * nt == tr * nt + nt;
    var k := tr * nt;
    assert (k + tc + 1) * (n * n) == (k + tc) * (n * n) + n * n;
    assert (k + nt - 1 + 1) * (n * n) == (k + nt - 1) * (n * n) + n * n;
  }

  /** Tile (tr, tc) is stored row-major at its slot. */
  ghost predicate TileStored(dram: Vec, at: nat, p: Problem, tr: nat, tc: nat)
    requires 1 <= p.nt <= 2 && |p.w| == p.Size() && tr < p.nt && tc < p.nt
  {
    at + p.n * p.n <= |dram| &&
    forall i :: 0 <= i < p.n ==>
      at + RowStart(i, p.n) + p.n <= |dram| &&
      dram[at + RowStart(i, p.n)..at + RowStart(i, p.n) + p.n] == p.w[p.At(tr) + i][p.At(tc)..p.At(tc) + p.n]
  }

  ghost predicate Stored(dram: Vec, p: Problem, mat: nat, vec: nat, bias: nat)
    requires 1 <= p.nt <= 2 && |p.w| == p.Size() == |p.x| == |p.b|
  {
    vec + p.Size() <= |dram| && dram[vec..vec + p.Size()] == p.x &&
    bias + p.Size() <= |dram| && dram[bias..bias + p.Size()] == p.b &&
    forall tr, tc :: 0 <= tr < p.nt && 0 <= tc < p.nt ==> TileStored(dram, TileAt(mat, tr, tc, p.nt, p.n), p, tr, tc)
  }

  // ---- The firmware ----

  /** One tile a matrix load, no matrix row masked; two tile rows also use the 64-wide multiply bank. */
  ghost predicate Ready(c: Config, d: Device, nt: nat)
  {
    Banks(c, d) && (nt == 2 ==> c.dim <= 64) &&
    FullMask(Reg(d, REG_READ_MATRIX_MASK, 0xFF)) && Reg(d, REG_TILE_ROWS, 1) == 1
  }

  function AccBank(tr: nat): nat
  {
    if tr == 0 then MEM_ADDSUB_VRF_0 else FW_ADDSUB_VRF_2
  }

  /** MV_MUL of a stored tile with a vector is the reference's partial product. */
  lemma {:induction false} DotSlices(row: Vec, x: Vec, off: nat, m: nat, n: nat)
    requires off + m <= |row| && off + m <= |x| && n <= m
    ensures Dot(row[off..off + m], x[off..off + m], n) == DotFrom(row, x, off, n)
  {
    if n > 0 { DotSlices(row, x, off, m, n - 1); }
  }

  lemma TileRow(c: Config, p: Problem, dram: Vec, at: nat, tr: nat, tc: nat, i: nat)
    requires p.Valid(c) && tr < p.nt && tc < p.nt && i < p.n && TileStored(dram, at, p, tr, tc)
    ensures at + RowStart(i, p.n) + p.n <= |dram|
    ensures RowAt(c, dram, at + RowStart(i, p.n), p.n) == p.w[p.At(tr) + i][p.At(tc)..p.At(tc) + p.n]
  {
    var r := p.w[p.At(tr) + i];
    var s := r[p.At(tc)..p.At(tc) + p.n];
    forall j | 0 <= j < p.n
      ensures RowAt(c, dram, at + RowStart(i, p.n), p.n)[j] == s[j]
    {
      assert dram[at + RowStart(i, p.n)..at + RowStart(i, p.n) + p.n][j] == s[j];
      assert RndVec(c, r)[p.At(tc) + j] == r[p.At(tc) + j];
    }
  }

  lemma TileProduct(c: Config, d: Device, p: Problem, at: nat, tr: nat, tc: nat)
    requires p.Valid(c) && tr < p.nt && tc < p.nt && MEM_DRAM in d.vrf && TileStored(d.vrf[MEM_DRAM], at, p, tr, tc)
    requires d.mrf == MatrixAt(c, d.vrf[MEM_DRAM], at, p.n) && FullMask(Reg(d, REG_READ_MATRIX_MASK, 0xFF))
    requires d.pipe == Some(p.x[p.At(tc)..p.At(tc) + p.n])
    ensures MvMul(c, d) == d.(vpipeA := None, pipe := Some(Partial(c, p, tr, tc)))
  {
    NothingMasked(d.mrf, Reg(d, REG_READ_MATRIX_MASK, 0xFF));
    hide MaskedMatrix, TileStored, Fixed, DotFrom, Dot;
    var v := MatVec(c, d.mrf, d.pipe.value);
    forall i | 0 <= i < p.n ensures v[i] == Partial(c, p, tr, tc)[i] { TileLane(c, d, p, at, tr, tc, i); }
    assert v == Partial(c, p, tr, tc);
  }

  lemma TileLane(c: Config, d: Device, p: Problem, at: nat, tr: nat, tc: nat, i: nat)
    requires p.Valid(c) && tr < p.nt && tc < p.nt && i < p.n
    requires MEM_DRAM in d.vrf && TileStored(d.vrf[MEM_DRAM], at, p, tr, tc)
    requires d.mrf == MatrixAt(c, d.vrf[MEM_DRAM], at, p.n) && d.pipe == Some(p.x[p.At(tc)..p.At(tc) + p.n])
    ensures MatVec(c, d.mrf, d.pipe.value)[i] == Partial(c, p, tr, tc)[i]
  {
    hide MaskedMatrix, TileStored, Fixed, DotFrom, Dot, MatrixAt;
    TileRow(c, p, d.vrf[MEM_DRAM], at, tr, tc, i);
    DotSlices(p.w[p.At(tr) + i], p.x, p.At(tc), p.n, p.n);
  }

  lemma AccFixed(c: Config, p: Problem, tr: nat, tc: nat)
    requires p.Valid(c) && RoundingIdempotent(c) && tr < p.nt && tc < p.nt
    ensures Fixed(c, Acc(c, p, tr, tc)) && Fixed(c, Partial(c, p, tr, tc)) && Fixed(c, GoldenTile(c, p, tr))
  {
    LanesFixed(c, p, tr, tc);
    forall i | 0 <= i < p.n
      ensures Rnd(c, Partial(c, p, tr, tc)[i]) == Partial(c, p, tr, tc)[i]
      ensures Rnd(c, Partial(c, p, tr, 0)[i]) == Partial(c, p, tr, 0)[i]
    {
      assert RoundsOnce(c, DotFrom(p.w[p.At(tr) + i], p.x, p.At(tc), p.n));
      assert RoundsOnce(c, DotFrom(p.w[p.At(tr) + i], p.x, p.At(0), p.n));
    }
  }

  lemma LanesFixed(c: Config, p: Problem, tr: nat, tc: nat)
    requires p.Valid(c) && RoundingIdempotent(c) && tr < p.nt && tc < p.nt
    ensures Fixed(c, GoldenTile(c, p, tr)) && (tc > 0 ==> Fixed(c, Acc(c, p, tr, tc)))
  {
    forall a: Vec, b: Vec | true ensures Fixed(c, Lanes(c, OP_VV_ADD, a, b)) {
      forall i | 0 <= i < |Lanes(c, OP_VV_ADD, a, b)|
        ensures Rnd(c, Lanes(c, OP_VV_ADD, a, b)[i]) == Lanes(c, OP_VV_ADD, a, b)[i]
      {
        assert RoundsOnce(c, Lane(OP_VV_ADD, a[i], b[i]));
      }
    }
  }

  /** The chunk of x that tile column tc multiplies. */
  function Chunk(p: Problem, tc: nat): (v: Vec)
    requires 1 <= p.nt <= 2 && |p.x| == p.Size() && tc < p.nt
    ensures |v| == p.n
  {
    p.x[p.At(tc)..p.At(tc) + p.n]
  }

  method LoadTile(npu: NpuDeviceMini, ghost nt: nat, at: nat)
    modifies npu
    requires Ready(npu.c, npu.View(), nt) && at < DRAM_LEN && at + npu.c.dim * npu.c.dim <= DRAM_LEN
    ensures npu.View()
         == old(npu.View()).(mrf := MatrixAt(npu.c, old(npu.vrf)[MEM_DRAM], at, npu.c.dim), traffic := npu.traffic)
  {
    hide MatrixAt, FullMask;
    SendMRdDram(npu, at);
    SendMWr(npu);
  }

  /** Load a weight tile and multiply the cached chunk: the pipeline holds the partial product. */
  method MultiplyTile(npu: NpuDeviceMini, ghost p: Problem, at: nat, tr: nat, tc: nat)
    modifies npu
    requires p.Valid(npu.c) && Ready(npu.c, npu.View(), p.nt) && tr < p.nt && tc < p.nt
    requires TileStored(npu.vrf[MEM_DRAM], at, p, tr, tc) && Holds(npu.View(), MEM_ADDSUB_VRF_1, Chunk(p, tc))
    ensures Ready(npu.c, npu.View(), p.nt) && Kept(old(npu.View()), npu.View())
    ensures BanksKept(old(npu.View()), npu.View(), {MEM_MVM_INITIAL_VRF})
    ensures npu.pipeline == Some(Partial(npu.c, p, tr, tc))
  {
    SliceFixed(npu.c, p.x, p.At(tc), p.At(tc) + p.n);
    hide TileStored, Partial, Fixed, Holds, FullMask;
    ghost var dram := npu.vrf[MEM_DRAM];
    TileFits(npu.c, dram, at, p, tr, tc);
    LoadTile(npu, p.nt, at);
    Fetch(npu, MEM_ADDSUB_VRF_1, Chunk(p, tc));
    Store(npu, MEM_MVM_INITIAL_VRF, Chunk(p, tc));
    Fetch(npu, MEM_MVM_INITIAL_VRF, Chunk(p, tc));
    TileProduct(npu.c, npu.View(), p, at, tr, tc);
    SendMvMul(npu);
  }

  lemma TileFits(c: Config, dram: Vec, at: nat, p: Problem, tr: nat, tc: nat)
    requires p.Valid(c) && |dram| == DRAM_LEN && tr < p.nt && tc < p.nt && TileStored(dram, at, p, tr, tc)
    ensures at + p.n * p.n <= DRAM_LEN && at < DRAM_LEN
  {
  }

  /** Body of the inner loop: fold one tile into its row's accumulator. */
  method TileStep(npu: NpuDeviceMini, ghost p: Problem, at: nat, tr: nat, tc: nat)
    modifies npu
    requires p.Valid(npu.c) && RoundingIdempotent(npu.c) && Ready(npu.c, npu.View(), p.nt) && tr < p.nt && tc < p.nt
    requires TileStored(npu.vrf[MEM_DRAM], at, p, tr, tc) && Holds(npu.View(), MEM_ADDSUB_VRF_1, Chunk(p, tc))
    requires tc > 0 ==> Holds(npu.View(), AccBank(tr), Acc(npu.c, p, tr, tc - 1))
    ensures Ready(npu.c, npu.View(), p.nt) && Kept(old(npu.View()), npu.View())
    ensures BanksKept(old(npu.View()), npu.View(), {MEM_MVM_INITIAL_VRF, MEM_MULTIPLY_VRF, AccBank(tr)})
    ensures Holds(npu.View(), AccBank(tr), Acc(npu.c, p, tr, tc))
  {
    AccFixed(npu.c, p, tr, tc);
    if tc > 0 { AccFixed(npu.c, p, tr, tc - 1); }
    hide TileStored, Partial, Fixed, RoundingIdempotent, FullMask, Lane;
    MultiplyTile(npu, p, at, tr, tc);
    if tc == 0 {
      Store(npu, AccBank(tr), Partial(npu.c, p, tr, 0));
    } else {
      FoldTile(npu, p, tr, tc);
    }
  }

  /** Add a tile's product to the accumulator by way of the multiply bank. */
  method FoldTile(npu: NpuDeviceMini, ghost p: Problem, tr: nat, ghost tc: nat)
    modifies npu
    requires p.Valid(npu.c) && RoundingIdempotent(npu.c) && Ready(npu.c, npu.View(), p.nt) && tr < p.nt && 0 < tc < p.nt
    requires npu.pipeline == Some(Partial(npu.c, p, tr, tc))
    requires Holds(npu.View(), AccBank(tr), Acc(npu.c, p, tr, tc - 1))
    ensures Ready(npu.c, npu.View(), p.nt) && Kept(old(npu.View()), npu.View())
    ensures BanksKept(old(npu.View()), npu.View(), {MEM_MULTIPLY_VRF, AccBank(tr)})
    ensures Holds(npu.View(), AccBank(tr), Acc(npu.c, p, tr, tc))
  {
    AccFixed(npu.c, p, tr, tc);
    AccFixed(npu.c, p, tr, tc - 1);
    hide Partial, Fixed, RoundingIdempotent, FullMask, Lane;
    Store(npu, MEM_MULTIPLY_VRF, Partial(npu.c, p, tr, tc));
    Fetch(npu, AccBank(tr), Acc(npu.c, p, tr, tc - 1));
    Fetch(npu, MEM_MULTIPLY_VRF, Partial(npu.c, p, tr, tc));
    SendVV(npu, OP_VV_ADD);
    Store(npu, AccBank(tr), Acc(npu.c, p, tr, tc));
  }

  /** Load chunk tc once and cache it in ADDSUB_VRF_1. */
  method CacheChunk(npu: NpuDeviceMini, ghost p: Problem, adr: nat, tc: nat)
    modifies npu
    requires p.Valid(npu.c) && Ready(npu.c, npu.View(), p.nt) && tc < p.nt && adr + npu.c.dim <= DRAM_LEN
    requires npu.vrf[MEM_DRAM][adr..adr + npu.c.dim] == Chunk(p, tc)
    ensures Ready(npu.c, npu.View(), p.nt) && Kept(old(npu.View()), npu.View())
    ensures BanksKept(old(npu.View()), npu.View(), {MEM_MVM_INITIAL_VRF, MEM_ADDSUB_VRF_1})
    ensures Holds(npu.View(), MEM_ADDSUB_VRF_1, Chunk(p, tc))
  {
    SliceFixed(npu.c, p.x, p.At(tc), p.At(tc) + p.n);
    hide Fixed;
    FetchDram(npu, adr, Chunk(p, tc));
    Store(npu, MEM_MVM_INITIAL_VRF, Chunk(p, tc));
    Fetch(npu, MEM_MVM_INITIAL_VRF, Chunk(p, tc));
    Store(npu, MEM_ADDSUB_VRF_1, Chunk(p, tc));
  }

  /** Zero fill of an accumulator. */
  method ZeroBank(npu: NpuDeviceMini, ghost nt: nat, bank: nat)
    modifies npu
    requires Ready(npu.c, npu.View(), nt) && RoundingIdempotent(npu.c)
    requires (bank == MEM_ADDSUB_VRF_0 || bank == FW_ADDSUB_VRF_2)
    ensures Ready(npu.c, npu.View(), nt) && Kept(old(npu.View()), npu.View())
  {
    hide Bit, FullMask, DecodeFp16;
    SendVRd(npu, MEM_FILL, 0);
    SendVWr(npu, bank, 0);
  }

  /** Add the bias chunk to an accumulator. */
  method AddBias(npu: NpuDeviceMini, ghost p: Problem, adr: nat, tr: nat)
    modifies npu
    requires p.Valid(npu.c) && RoundingIdempotent(npu.c)
    requires Ready(npu.c, npu.View(), p.nt) && tr < p.nt && adr + npu.c.dim <= DRAM_LEN
    requires npu.vrf[MEM_DRAM][adr..adr + npu.c.dim] == BiasTile(p, tr)
    requires Holds(npu.View(), AccBank(tr), Acc(npu.c, p, tr, p.nt - 1))
    ensures Ready(npu.c, npu.View(), p.nt) && Kept(old(npu.View()), npu.View())
    ensures BanksKept(old(npu.View()), npu.View(), {AccBank(tr)})
    ensures Holds(npu.View(), AccBank(tr), GoldenTile(npu.c, p, tr))
  {
    SliceFixed(npu.c, p.b, p.At(tr), p.At(tr) + p.n);
    AccFixed(npu.c, p, tr, p.nt - 1);
    hide Fixed, Acc, RoundingIdempotent;
    Fetch(npu, AccBank(tr), Acc(npu.c, p, tr, p.nt - 1));
    FetchDram(npu, adr, BiasTile(p, tr));
    SendVV(npu, OP_VV_ADD);
    Store(npu, AccBank(tr), GoldenTile(npu.c, p, tr));
  }

  lemma SliceOfSlice(v: Vec, at: nat, size: nat, lo: nat, n: nat)
    requires at + size <= |v| && lo + n <= size
    ensures v[at + lo..at + lo + n] == v[at..at + size][lo..lo + n]
  {
    var a, b := v[at + lo..at + lo + n], v[at..at + size][lo..lo + n];
    assert forall i :: 0 <= i < n ==> a[i] == b[i];
  }

  lemma OffsetIs(p: Problem, t: nat)
    requires t < 2
    ensures t * p.n == p.At(t)
  {
    if t == 1 { assert 1 * p.n == p.n; }
  }

  lemma ChunkStored(c: Config, dram: Vec, p: Problem, mat: nat, vec: nat, bias: nat, t: nat)
    requires p.Valid(c) && Stored(dram, p, mat, vec, bias) && t < p.nt
    ensures vec + t * p.n + p.n <= |dram| && dram[vec + t * p.n..vec + t * p.n + p.n] == Chunk(p, t)
    ensures bias + t * p.n + p.n <= |dram| && dram[bias + t * p.n..bias + t * p.n + p.n] == BiasTile(p, t)
  {
    hide TileStored, Fixed, TileAt;
    OffsetIs(p, t);
    SliceOfSlice(dram, vec, p.Size(), p.At(t), p.n);
    SliceOfSlice(dram, bias, p.Size(), p.At(t), p.n);
  }

  /** Accumulators of the first `done` tile rows are at column tc, the others one column behind. */
  predicate Accumulated(c: Config, d: Device, p: Problem, done: nat, tc: nat)
    requires 1 <= p.nt <= 2 && |p.w| == p.Size() == |p.x| && tc < p.nt
  {
    forall tr :: 0 <= tr < p.nt ==>
      (tr < done ==> Holds(d, AccBank(tr), Acc(c, p, tr, tc))) &&
      (tr >= done && tc > 0 ==> Holds(d, AccBank(tr), Acc(c, p, tr, tc - 1)))
  }

  method Column(npu: NpuDeviceMini, ghost p: Problem, nt: nat, mat: nat, ghost vec: nat, ghost bias: nat, adr: nat,
                tc: nat)
    modifies npu
    requires p.Valid(npu.c) && RoundingIdempotent(npu.c) && Ready(npu.c, npu.View(), p.nt) && nt == p.nt && tc < nt
    requires Stored(npu.vrf[MEM_DRAM], p, mat, vec, bias) && adr == vec + tc * p.n
    requires tc > 0 ==> Accumulated(npu.c, npu.View(), p, nt, tc - 1)
    ensures Ready(npu.c, npu.View(), p.nt) && Kept(old(npu.View()), npu.View())
    ensures Accumulated(npu.c, npu.View(), p, nt, tc)
  {
    hide Fixed, Acc, RoundingIdempotent, TileStored, Holds;
    ghost var d0 := npu.View();
    ChunkStored(npu.c, npu.vrf[MEM_DRAM], p, mat, vec, bias, tc);
    CacheChunk(npu, p, adr, tc);
    var tr := 0;
    if tc > 0 {
      forall t | 0 <= t < nt ensures Holds(npu.View(), AccBank(t), Acc(npu.c, p, t, tc - 1)) {
        HoldsKept(d0, npu.View(), {MEM_MVM_INITIAL_VRF, MEM_ADDSUB_VRF_1}, AccBank(t), Acc(npu.c, p, t, tc - 1));
      }
    }
    while tr < nt
      invariant tr <= nt && Ready(npu.c, npu.View(), p.nt) && Kept(d0, npu.View())
      invariant Holds(npu.View(), MEM_ADDSUB_VRF_1, Chunk(p, tc))
      invariant Accumulated(npu.c, npu.View(), p, tr, tc)
    {
      ghost var d1 := npu.View();
      TileStep(npu, p, TileAt(mat, tr, tc, nt, npu.c.dim), tr, tc);
      ghost var touched := {MEM_MVM_INITIAL_VRF, MEM_MULTIPLY_VRF, AccBank(tr)};
      HoldsKept(d1, npu.View(), touched, MEM_ADDSUB_VRF_1, Chunk(p, tc));
      forall t | 0 <= t < nt && t != tr
        ensures t < tr ==> Holds(npu.View(), AccBank(t), Acc(npu.c, p, t, tc))
        ensures t >= tr && tc > 0 ==> Holds(npu.View(), AccBank(t), Acc(npu.c, p, t, tc - 1))
      {
        if t < tr { HoldsKept(d1, npu.View(), touched, AccBank(t), Acc(npu.c, p, t, tc)); }
        else if tc > 0 { HoldsKept(d1, npu.View(), touched, AccBank(t), Acc(npu.c, p, t, tc - 1)); }
      }
      tr := tr + 1;
    }
  }

  method AddBiases(npu: NpuDeviceMini, ghost p: Problem, ghost mat: nat, ghost vec: nat, nt: nat, bias: nat)
    modifies npu
    requires p.Valid(npu.c) && RoundingIdempotent(npu.c) && Ready(npu.c, npu.View(), nt) && nt == p.nt
    requires Stored(npu.vrf[MEM_DRAM], p, mat, vec, bias) && Accumulated(npu.c, npu.View(), p, nt, nt - 1)
    ensures Ready(npu.c, npu.View(), nt) && npu.vrf[MEM_DRAM] == old(npu.vrf)[MEM_DRAM]
    ensures npu.rowBuffer == old(npu.rowBuffer)
    ensures forall t :: 0 <= t < nt ==> Holds(npu.View(), AccBank(t), GoldenTile(npu.c, p, t))
  {
    hide Fixed, Acc, RoundingIdempotent, TileStored, Holds, GoldenTile;
    ghost var dram := npu.vrf[MEM_DRAM];
    var tr := 0;
    while tr < nt
      invariant tr <= nt && Ready(npu.c, npu.View(), nt) && npu.vrf[MEM_DRAM] == dram
      invariant npu.rowBuffer == old(npu.rowBuffer)
      invariant forall t :: 0 <= t < tr ==> Holds(npu.View(), AccBank(t), GoldenTile(npu.c, p, t))
      invariant forall t :: tr <= t < nt ==> Holds(npu.View(), AccBank(t), Acc(npu.c, p, t, nt - 1))
    {
      ghost var d1 := npu.View();
      ChunkStored(npu.c, dram, p, mat, vec, bias, tr);
      AddBias(npu, p, bias + tr * npu.c.dim, tr);
      forall t | 0 <= t < nt && t != tr
        ensures t < tr ==> Holds(npu.View(), AccBank(t), GoldenTile(npu.c, p, t))
        ensures t > tr ==> Holds(npu.View(), AccBank(t), Acc(npu.c, p, t, nt - 1))
      {
        if t < tr { HoldsKept(d1, npu.View(), {AccBank(tr)}, AccBank(t), GoldenTile(npu.c, p, t)); }
        else { HoldsKept(d1, npu.View(), {AccBank(tr)}, AccBank(t), Acc(npu.c, p, t, nt - 1)); }
      }
      tr := tr + 1;
    }
  }

  /** The initial state mvm_tiled_q needs; the tile registers are its own to set. */
  ghost predicate Callable(c: Config, d: Device, nt: nat)
  {
    Ready(c, d.(regs := d.regs[REG_TILE_ROWS := 1]), nt)
  }

  method Setup(npu: NpuDeviceMini, nt: nat)
    modifies npu
    requires Callable(npu.c, npu.View(), nt) && RoundingIdempotent(npu.c)
    ensures Ready(npu.c, npu.View(), nt) && npu.vrf[MEM_DRAM] == old(npu.vrf)[MEM_DRAM]
    ensures npu.rowBuffer == old(npu.rowBuffer)
  {
    hide FullMask, RoundingIdempotent;
    SendSWr(npu, REG_TILE_ROWS, 1);
    SendSWr(npu, REG_TILE_COLS, 1);
    SendSWr(npu, REG_ITERATIONS, 1);
    ZeroBank(npu, nt, MEM_ADDSUB_VRF_0);
    if nt > 1 { ZeroBank(npu, nt, FW_ADDSUB_VRF_2); }
  }

  /** The tiled product leaves round(_tiled_mvm(W, x) + b), row tile by row tile, in the two
      accumulator banks the callers read, and does not touch DRAM. */
  method MvmTiledQ(npu: NpuDeviceMini, ghost p: Problem, mat: nat, vec: nat, nt: nat, bias: nat)
    modifies npu
    requires p.Valid(npu.c) && RoundingIdempotent(npu.c) && Callable(npu.c, npu.View(), p.nt) && nt == p.nt
    requires Stored(npu.vrf[MEM_DRAM], p, mat, vec, bias)
    ensures Holds(npu.View(), MEM_ADDSUB_VRF_0, GoldenTile(npu.c, p, 0))
    ensures nt == 2 ==> Holds(npu.View(), MEM_ADDSUB_VRF_1, GoldenTile(npu.c, p, 1))
    ensures Ready(npu.c, npu.View(), nt) && npu.vrf[MEM_DRAM] == old(npu.vrf)[MEM_DRAM]
    ensures npu.rowBuffer == old(npu.rowBuffer)
  {
    hide Fixed, Acc, RoundingIdempotent, Stored, Holds, GoldenTile, FullMask;
    ghost var dram := npu.vrf[MEM_DRAM];
    Setup(npu, nt);
    var tc := 0;
    while tc < nt
      invariant tc <= nt && Ready(npu.c, npu.View(), nt) && npu.vrf[MEM_DRAM] == dram
      invariant npu.rowBuffer == old(npu.rowBuffer)
      invariant tc > 0 ==> Accumulated(npu.c, npu.View(), p, nt, tc - 1)
    {
      Column(npu, p, nt, mat, vec, bias, vec + tc * npu.c.dim, tc);
      tc := tc + 1;
    }
    AddBiases(npu, p, mat, vec, nt, bias);
    if nt > 1 {
      ghost var d2 := npu.View();
      GoldenFixed(npu.c, p, 1);
      Fetch(npu, FW_ADDSUB_VRF_2, GoldenTile(npu.c, p, 1));
      Store(npu, MEM_ADDSUB_VRF_1, GoldenTile(npu.c, p, 1));
      HoldsKept(d2, npu.View(), {MEM_ADDSUB_VRF_1}, MEM_ADDSUB_VRF_0, GoldenTile(npu.c, p, 0));
    }
  }

  lemma GoldenFixed(c: Config, p: Problem, tr: nat)
    requires p.Valid(c) && RoundingIdempotent(c) && tr < p.nt
    ensures Fixed(c, GoldenTile(c, p, tr))
  {
    AccFixed(c, p, tr, 0);
  }
}
