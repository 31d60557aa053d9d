/** Phase 1 of the 140-parameter adder firmware: tiled causal attention, output projection and
    residual, run on the exact (NpuFP32) device with vectors of four.
 */
module AdderFirmware {
  import opened Arithmetic
  import opened Numbers
  import opened D = Device
  import opened NpuDevice
  import opened Firmware
  import opened Attention
  import opened AdderMemory

  /** The banks this program touches exist at their sizes, nothing is pending in the row
      buffer, no matrix row is masked and matrices are one tile. */
  ghost predicate Ready(c: Config, d: Device)
  {
    c.dim == 4 && c.fp32 && !d.fault && |d.srf| == SRF_LEN && d.rowBuffer == [] &&
    MEM_DRAM in d.vrf && |d.vrf[MEM_DRAM]| == DRAM_LEN &&
    MEM_MULTIPLY_VRF in d.vrf && |d.vrf[MEM_MULTIPLY_VRF]| == 64 &&
    MEM_MVM_INITIAL_VRF in d.vrf && |d.vrf[MEM_MVM_INITIAL_VRF]| == 20480 &&
    FullMask(Reg(d, REG_READ_MATRIX_MASK, 0xFF)) && Reg(d, REG_TILE_ROWS, 1) == 1
  }

  function Dram(d: Device): Vec
    requires MEM_DRAM in d.vrf
  {
    d.vrf[MEM_DRAM]
  }

  /** Only pipeline, operand register, banks, matrix register and scalars moved. */
  predicate Kept(d0: Device, d1: Device)
  {
    d1 == d0.(pipe := d1.pipe, vpipeA := d1.vpipeA, vrf := d1.vrf, mrf := d1.mrf, srf := d1.srf)
  }

  lemma LoadQuad(c: Config, d: Device, a: nat)
    requires Ready(c, d) && a + 4 <= DRAM_LEN
    ensures VRdDram(c, d, a) == Load(d, Quad(Dram(d), a))
  {
    assert MaskedWindow(c, Dram(d), a, Reg(d, REG_READ_VECTOR_MASK, 0xFF)) == Quad(Dram(d), a);
  }

  lemma StoreQuad(c: Config, d: Device, a: nat)
    requires Ready(c, d) && a + 4 <= DRAM_LEN && d.pipe.Some? && |d.pipe.value| == 4
    ensures VWrDram(c, d, a) == d.(vrf := d.vrf[MEM_DRAM := Overlay(Dram(d), a, d.pipe.value)])
    ensures Ready(c, VWrDram(c, d, a))
  {
    assert d.pipe.value[..4] == d.pipe.value;
    RndVecExact(c, d.pipe.value);
  }

  /** Matrix-vector product of the exact device with every row active. */
  function MatVec4(m: Matrix, p: Vec): (r: Vec)
    requires |m| == 4 && |p| == 4
    ensures |r| == 4 && forall i :: 0 <= i < 4 ==> r[i] == Dot(m[i], p, 4)
  {
    [Dot(m[0], p, 4), Dot(m[1], p, 4), Dot(m[2], p, 4), Dot(m[3], p, 4)]
  }

  lemma MvMul4(c: Config, d: Device)
    requires Ready(c, d) && |d.mrf| == 4 && d.pipe.Some? && |d.pipe.value| == 4
    ensures MvMul(c, d) == d.(vpipeA := None, pipe := Some(MatVec4(d.mrf, d.pipe.value)))
  {
    NothingMasked(d.mrf, Reg(d, REG_READ_MATRIX_MASK, 0xFF));
    hide Dot, KernelDot, FullMask, MaskedMatrix;
    assert MatVec(c, d.mrf, d.pipe.value) == MatVec4(d.mrf, d.pipe.value);
  }

  // ---- Pass 1: scores ----

  /** Rows of K for the live lanes of a tile, zero rows for its padding. */
  predicate KeyTile(m: Matrix, dram: Vec, base: nat, vld: nat)
    requires |dram| == DRAM_LEN && base + vld <= MAX_SEQ && vld <= 4
  {
    |m| == 4 && forall p :: 0 <= p < 4 ==>
      m[p] == if p < vld then Quad(dram, S_K + (base + p) * MODEL_DIM) else Zeros(4)
  }

  method LoadKeyTile(npu: NpuDeviceMini, base: nat, vld: nat)
    modifies npu
    requires Ready(npu.c, npu.View()) && base + vld <= MAX_SEQ && vld <= 4
    ensures Ready(npu.c, npu.View()) && Kept(old(npu.View()), npu.View())
    ensures npu.vrf == old(npu.vrf) && npu.spuSrf == old(npu.spuSrf)
    ensures KeyTile(npu.mrf, Dram(npu.View()), base, vld)
  {
    ghost var d0 := npu.View();
    ghost var rows: seq<Vec> := [];
    var p := 0;
    while p < 4
      invariant p <= 4 && |rows| == p
      invariant npu.View() == d0.(pipe := npu.pipeline, vpipeA := npu.vpipeA, rowBuffer := rows)
      invariant forall j :: 0 <= j < p ==>
        rows[j] == if j < vld then Quad(Dram(d0), S_K + (base + j) * MODEL_DIM) else Zeros(4)
    {
      ghost var d := npu.View();
      if p < vld {
        LoadQuad(npu.c, d.(rowBuffer := []), S_K + (base + p) * MODEL_DIM);
        SendVRdDram(npu, S_K + (base + p) * MODEL_DIM);
        assert npu.pipeline == Some(Quad(Dram(d0), S_K + (base + p) * MODEL_DIM));
      } else {
        FillPatterns();
        SendVRd(npu, MEM_FILL, 0);
      }
      SendVWr(npu, MEM_VEC_TO_MAT_ROW, 0);
      rows := rows + [npu.pipeline.value];
      p := p + 1;
    }
    SendMRdRows(npu);
    forall j | 0 <= j < 4 ensures PadRow(rows[j], 4) == rows[j] { }
  }

  /** Four lanes of mask + scale * (row . q). */
  function ScoreLanes(m: Matrix, q: Vec, scale: Num, mask: Vec): (v: Vec)
    requires |m| == 4 && |q| == 4 && |mask| == 4
    ensures |v| == 4 && forall i :: 0 <= i < 4 ==> v[i] == Add(mask[i], Mul(scale, Dot(m[i], q, 4)))
  {
    seq(4, i requires 0 <= i < 4 => Add(mask[i], Mul(scale, Dot(m[i], q, 4))))
  }

  /** Dot the query with the key tile: the product is left in the multiply bank. */
  method QueryTile(npu: NpuDeviceMini, q: nat)
    modifies npu
    requires Ready(npu.c, npu.View()) && q < MAX_SEQ && |npu.mrf| == 4
    ensures Ready(npu.c, npu.View()) && Kept(old(npu.View()), npu.View())
    ensures npu.spuSrf == old(npu.spuSrf) && Dram(npu.View()) == old(Dram(npu.View())) && npu.mrf == old(npu.mrf)
    ensures npu.pipeline.Some? && |npu.pipeline.value| == 4
    ensures Window(npu.c, npu.vrf[MEM_MULTIPLY_VRF], 0) == MatVec4(npu.mrf, Quad(Dram(npu.View()), S_Q + q * MODEL_DIM))
  {
    LoadQuad(npu.c, npu.View(), S_Q + q * MODEL_DIM);
    SendVRdDram(npu, S_Q + q * MODEL_DIM);
    StoreThenWindowExact(npu.c, npu.View(), MEM_MVM_INITIAL_VRF);
    SendVWr(npu, MEM_MVM_INITIAL_VRF, 0);
    SendVRd(npu, MEM_MVM_INITIAL_VRF, 0);
    MvMul4(npu.c, npu.View());
    SendMvMul(npu);
    StoreThenWindowExact(npu.c, npu.View(), MEM_MULTIPLY_VRF);
    SendVWr(npu, MEM_MULTIPLY_VRF, 0);
  }

  /** V_RD broadcast, V_RD multiply bank, VV_*: one scalar against the four stored lanes. */
  method BroadcastOp(npu: NpuDeviceMini, idx: nat, op: nat)
    modifies npu
    requires Ready(npu.c, npu.View()) && idx < SRF_LEN && op < 20 && IsVV(op)
    ensures Ready(npu.c, npu.View())
    ensures npu.View() == old(npu.View()).(vpipeA := None, pipe := npu.pipeline)
    ensures npu.pipeline.Some? && |npu.pipeline.value| == 4
    ensures forall i :: 0 <= i < 4 ==>
      npu.pipeline.value[i] == Lane(op, npu.spuSrf[idx], Window(npu.c, npu.vrf[MEM_MULTIPLY_VRF], 0)[i])
  {
    SendVRd(npu, MEM_SPU_BROADCAST, idx);
    SendVRd(npu, MEM_MULTIPLY_VRF, 0);
    SendVV(npu, op);
  }

  /** Multiply the product by the scale and add the mask row. */
  method ScaleAndMask(npu: NpuDeviceMini, mask: nat)
    modifies npu
    requires Ready(npu.c, npu.View()) && mask + 4 <= DRAM_LEN
    ensures Ready(npu.c, npu.View()) && Kept(old(npu.View()), npu.View())
    ensures npu.spuSrf == old(npu.spuSrf) && Dram(npu.View()) == old(Dram(npu.View()))
    ensures npu.pipeline.Some? && |npu.pipeline.value| == 4
    ensures var w := Window(npu.c, old(npu.vrf)[MEM_MULTIPLY_VRF], 0);
            forall i :: 0 <= i < 4 ==>
              npu.pipeline.value[i] == Add(Dram(npu.View())[mask + i], Mul(npu.spuSrf[6], w[i]))
  {
    BroadcastOp(npu, 6, OP_VV_MUL);
    StoreThenWindowExact(npu.c, npu.View(), MEM_MULTIPLY_VRF);
    SendVWr(npu, MEM_MULTIPLY_VRF, 0);
    LoadQuad(npu.c, npu.View(), mask);
    SendVRdDram(npu, mask);
    SendVRd(npu, MEM_MULTIPLY_VRF, 0);
    SendVV(npu, OP_VV_ADD);
  }

  /** Store the lanes and fold their maximum into scalar 0. */
  method StoreScores(npu: NpuDeviceMini, at: nat)
    modifies npu
    requires Ready(npu.c, npu.View()) && at + 4 <= DRAM_LEN && npu.pipeline.Some? && |npu.pipeline.value| == 4
    ensures Ready(npu.c, npu.View()) && Kept(old(npu.View()), npu.View())
    ensures Dram(npu.View()) == Overlay(old(Dram(npu.View())), at, old(npu.pipeline).value)
    ensures npu.spuSrf == old(npu.spuSrf)[0 := PyMax(NpMax(old(npu.pipeline).value, 4), old(npu.spuSrf)[0])]
  {
    StoreQuad(npu.c, npu.View(), at);
    SendVWrDram(npu, at);
    SendVWr(npu, MEM_SPU_MAX_REDUCE, 0);
  }

  method ScoreTile(npu: NpuDeviceMini, q: nat, tc: nat, nt: nat)
    modifies npu
    requires Ready(npu.c, npu.View()) && q < MAX_SEQ && tc < nt <= 9 && |npu.mrf| == 4
    ensures Ready(npu.c, npu.View()) && Kept(old(npu.View()), npu.View())
    ensures var dram := old(Dram(npu.View()));
            var lanes := ScoreLanes(old(npu.mrf), Quad(dram, S_Q + q * MODEL_DIM), old(npu.spuSrf)[6],
                                    Quad(dram, MaskAt(q, tc, nt)));
            Dram(npu.View()) == Overlay(dram, S_SCORE + tc * 4, lanes) &&
            npu.spuSrf == old(npu.spuSrf)[0 := PyMax(NpMax(lanes, 4), old(npu.spuSrf)[0])]
  {
    ghost var dram := Dram(npu.View());
    ghost var m := npu.mrf;
    QueryTile(npu, q);
    ScaleAndMask(npu, MaskAt(q, tc, nt));
    assert npu.pipeline.value == ScoreLanes(m, Quad(dram, S_Q + q * MODEL_DIM), npu.spuSrf[6],
                                            Quad(dram, MaskAt(q, tc, nt)));
    StoreScores(npu, S_SCORE + tc * 4);
  }

  lemma {:induction false} DotZeros(x: Vec, n: nat)
    requires n <= |x| && n <= 4 && forall j :: 0 <= j < |x| ==> x[j].Fin?
    ensures Dot(Zeros(4), x, n) == ZERO
  {
    if n > 0 { DotZeros(x, n - 1); }
  }

  lemma ScoreLane(pr: Problem, dram: Vec, m: Matrix, q: nat, tc: nat, i: nat)
    requires pr.Valid() && |dram| == DRAM_LEN && Prefilled(dram, pr) && q < pr.Len() && tc < Tiles(pr.Len()) && i < 4
    requires KeyTile(m, dram, tc * 4, Min(4, pr.Len() - tc * 4))
    ensures ScoreLanes(m, Quad(dram, S_Q + q * MODEL_DIM), Fin(pr.scale), Quad(dram, MaskAt(q, tc, Tiles(pr.Len()))))[i]
            == MaskedScore(pr, q, tc * 4 + i)
  {
    hide Prefilled, Quad, MaskAt, ScoreLanes, FinRow, Dot, Add, Mul, KeyTile, Zeros, MaskedScore;
    QueryAndMask(pr, dram, q, tc);
    KeyLane(pr, dram, m, tc, i);
    LaneScore(pr, m[i], q, tc * 4 + i);
  }

  /** A live lane scores its key, a masked or padded lane nothing. */
  lemma LaneScore(pr: Problem, row: Vec, q: nat, k: nat)
    requires pr.Valid() && q < pr.Len() && |row| == 4 && row == if k < pr.Len() then FinRow(pr.k[k]) else Zeros(4)
    ensures Add(if k <= q then ZERO else NegInf, Mul(Fin(pr.scale), Dot(row, FinRow(pr.q[q]), 4)))
         == MaskedScore(pr, q, k)
  {
    hide FinRow, Dot, DotR, Add, Mul, Zeros;
    if k < pr.Len() {
      DotOfReals(row, FinRow(pr.q[q]), pr.k[k], pr.q[q], 4);
      LaneValue(if k <= q then ZERO else NegInf, pr.scale, DotR(pr.k[k], pr.q[q], 4));
    } else {
      DotZeros(FinRow(pr.q[q]), 4);
      LaneValue(NegInf, pr.scale, 0.0);
    }
  }

  lemma LaneValue(mask: Num, scale: real, dot: real)
    requires mask == ZERO || mask == NegInf
    ensures Add(mask, Mul(Fin(scale), Fin(dot))) == if mask == ZERO then Fin(scale * dot) else NegInf
  {
  }

  lemma QueryAndMask(pr: Problem, dram: Vec, q: nat, tc: nat)
    requires pr.Valid() && |dram| == DRAM_LEN && Prefilled(dram, pr) && q < pr.Len() && tc < Tiles(pr.Len())
    ensures Quad(dram, S_Q + q * MODEL_DIM) == FinRow(pr.q[q])
    ensures Quad(dram, MaskAt(q, tc, Tiles(pr.Len()))) == MaskRow(q, tc)
  {
    hide ValuesFilled, Quad, FinRow, MaskRow, MaskAt;
  }

  lemma KeyLane(pr: Problem, dram: Vec, m: Matrix, tc: nat, i: nat)
    requires pr.Valid() && |dram| == DRAM_LEN && Prefilled(dram, pr) && tc < Tiles(pr.Len()) && i < 4
    requires KeyTile(m, dram, tc * 4, Min(4, pr.Len() - tc * 4))
    ensures |m| == 4 && m[i] == if tc * 4 + i < pr.Len() then FinRow(pr.k[tc * 4 + i]) else Zeros(4)
  {
    hide MasksFilled, ValuesFilled, Quad, FinRow, Zeros;
    if tc * 4 + i < pr.Len() { assert m[i] == Quad(dram, S_K + (tc * 4 + i) * MODEL_DIM); }
  }

  /** Largest live score among the first n lanes. */
  function TopScore(pr: Problem, i: nat, n: nat): real
    requires i < |pr.q| && i < |pr.k| && n >= 1
  {
    if n == 1 then Score(pr, i, 0)
    else
      var t := TopScore(pr, i, n - 1);
      if n - 1 <= i && Score(pr, i, n - 1) > t then Score(pr, i, n - 1) else t
  }

  function TopOrNone(pr: Problem, i: nat, n: nat): Num
    requires i < |pr.q| && i < |pr.k|
  {
    if n == 0 then NegInf else Fin(TopScore(pr, i, n))
  }

  lemma TileMaximum(pr: Problem, q: nat, tc: nat, lanes: Vec)
    requires pr.Valid() && q < pr.Len() && |lanes| == 4
    requires forall i :: 0 <= i < 4 ==> lanes[i] == MaskedScore(pr, q, tc * 4 + i)
    ensures PyMax(NpMax(lanes, 4), TopOrNone(pr, q, tc * 4)) == TopOrNone(pr, q, tc * 4 + 4)
    ensures Comparable(NpMax(lanes, 4))
  {
    hide TopOrNone, MaskedScore, NpMax, NpMax2, PyMax;
    var b := tc * 4;
    var top := TopOrNone(pr, q, b);
    FourMaxima(lanes);
    forall i | 0 <= i < 4
      ensures lanes[i] == MaskedScore(pr, q, b + i) && Comparable(lanes[i])
    {
      ScoreComparable(pr, q, b + i);
    }
    TopStep(pr, q, b);
    TopStep(pr, q, b + 1);
    TopStep(pr, q, b + 2);
    TopStep(pr, q, b + 3);
    MaximumFolds(lanes[0], lanes[1], lanes[2], lanes[3], top);
  }

  /** Finite or minus infinity. */
  predicate Comparable(a: Num)
  {
    a.Fin? || a.NegInf?
  }

  lemma {:induction false} FourMaxima(lanes: Vec)
    requires |lanes| == 4
    ensures NpMax(lanes, 4) == NpMax2(NpMax2(NpMax2(lanes[0], lanes[1]), lanes[2]), lanes[3])
  {
    hide NpMax2;
    assert NpMax(lanes, 2) == NpMax2(lanes[0], lanes[1]);
  }

  lemma ScoreComparable(pr: Problem, q: nat, k: nat)
    requires q < |pr.q| && q < |pr.k|
    ensures Comparable(MaskedScore(pr, q, k)) && Comparable(TopOrNone(pr, q, k))
  {
  }

  lemma TopStep(pr: Problem, q: nat, k: nat)
    requires q < |pr.q| && q < |pr.k|
    ensures TopOrNone(pr, q, k + 1) == PyMax(MaskedScore(pr, q, k), TopOrNone(pr, q, k))
    ensures Comparable(TopOrNone(pr, q, k))
  {
  }

  lemma MaximumFolds(a: Num, b: Num, c: Num, d: Num, top: Num)
    requires Comparable(a) && Comparable(b) && Comparable(c) && Comparable(d) && Comparable(top)
    ensures PyMax(NpMax2(NpMax2(NpMax2(a, b), c), d), top) == PyMax(d, PyMax(c, PyMax(b, PyMax(a, top))))
    ensures Comparable(NpMax2(NpMax2(NpMax2(a, b), c), d))
  {
  }

  /** One tile of the masked score row. */
  function MaskedLanes(pr: Problem, q: nat, tc: nat): (v: Vec)
    requires q < |pr.q| && q < |pr.k|
    ensures |v| == 4 && forall i :: 0 <= i < 4 ==> v[i] == MaskedScore(pr, q, tc * 4 + i)
  {
    seq(4, i requires 0 <= i < 4 => MaskedScore(pr, q, tc * 4 + i))
  }

  lemma ScoreTileLanes(pr: Problem, dram: Vec, m: Matrix, q: nat, tc: nat)
    requires pr.Valid() && |dram| == DRAM_LEN && Prefilled(dram, pr) && q < pr.Len() && tc < Tiles(pr.Len())
    requires KeyTile(m, dram, tc * 4, Min(4, pr.Len() - tc * 4))
    ensures ScoreLanes(m, Quad(dram, S_Q + q * MODEL_DIM), Fin(pr.scale), Quad(dram, MaskAt(q, tc, Tiles(pr.Len()))))
            == MaskedLanes(pr, q, tc)
  {
    forall i | 0 <= i < 4
      ensures ScoreLanes(m, Quad(dram, S_Q + q * MODEL_DIM), Fin(pr.scale),
                         Quad(dram, MaskAt(q, tc, Tiles(pr.Len()))))[i]
              == MaskedLanes(pr, q, tc)[i]
    {
      ScoreLane(pr, dram, m, q, tc, i);
    }
  }

  /** Scalar 0 before tile tc: the largest live score so far; before the first tile NaN will do as well as none. */
  predicate TopSoFar(pr: Problem, q: nat, tc: nat, top: Num)
    requires q < |pr.q| && q < |pr.k|
  {
    top == TopOrNone(pr, q, tc * 4) || (tc == 0 && top == NaN)
  }

  /** Python's max keeps its first argument against NaN, so a tile's maximum replaces it. */
  lemma {:induction false} NaNRepaired(lanes: Vec)
    requires |lanes| == 4 && Comparable(NpMax(lanes, 4))
    ensures PyMax(NpMax(lanes, 4), NaN) == PyMax(NpMax(lanes, 4), NegInf)
  {
  }

  /** Iteration tc of pass 1: load the keys, score, store, fold the maximum. */
  method ScoreStep(npu: NpuDeviceMini, ghost pr: Problem, sl: nat, nt: nat, q: nat, tc: nat)
    modifies npu
    requires Ready(npu.c, npu.View()) && pr.Valid() && sl == pr.Len() && nt == Tiles(sl) && q < sl && tc < nt
    requires Prefilled(Dram(npu.View()), pr) && npu.spuSrf[6] == Fin(pr.scale)
    requires TopSoFar(pr, q, tc, npu.spuSrf[0])
    ensures Ready(npu.c, npu.View()) && Kept(old(npu.View()), npu.View())
    ensures npu.spuSrf == old(npu.spuSrf)[0 := TopOrNone(pr, q, tc * 4 + 4)]
    ensures Dram(npu.View()) == Overlay(old(Dram(npu.View())), S_SCORE + tc * 4, MaskedLanes(pr, q, tc))
  {
    LoadKeyTile(npu, tc * 4, Min(4, sl - tc * 4));
    ScoreTileLanes(pr, Dram(npu.View()), npu.mrf, q, tc);
    TileMaximum(pr, q, tc, MaskedLanes(pr, q, tc));
    NaNRepaired(MaskedLanes(pr, q, tc));
    ScoreTile(npu, q, tc, nt);
  }

  /** The score buffer holds lanes 0 .. n - 1. */
  ghost predicate Scored(pr: Problem, dram: Vec, q: nat, n: nat)
    requires q < |pr.q| && q < |pr.k|
  {
    S_SCORE + n <= |dram| && forall k :: 0 <= k < n ==> dram[S_SCORE + k] == MaskedScore(pr, q, k)
  }

  lemma ScoredTile(pr: Problem, a: Vec, b: Vec, c: Vec, q: nat, tc: nat)
    requires q < |pr.q| && q < |pr.k| && S_SCORE + tc * 4 + 4 <= |b|
    requires Scored(pr, b, q, tc * 4) && SameOutside(a, b, S_SCORE, S_SCORE + tc * 4)
    requires c == Overlay(b, S_SCORE + tc * 4, MaskedLanes(pr, q, tc))
    ensures Scored(pr, c, q, tc * 4 + 4) && SameOutside(a, c, S_SCORE, S_SCORE + tc * 4 + 4)
  {
  }

  /** One iteration of the pass: what it keeps of the state before the pass. */
  method ScoreNext(npu: NpuDeviceMini, ghost pr: Problem, sl: nat, nt: nat, q: nat, tc: nat, ghost d0: Device)
    modifies npu
    requires Ready(npu.c, npu.View()) && pr.Valid() && sl == pr.Len() && nt == Tiles(sl) && q < sl && tc < nt
    requires Ready(npu.c, d0) && Kept(d0, npu.View()) && Prefilled(Dram(d0), pr) && d0.srf[6] == Fin(pr.scale)
    requires npu.spuSrf == d0.srf[0 := npu.spuSrf[0]] && TopSoFar(pr, q, tc, npu.spuSrf[0])
    requires SameOutside(Dram(d0), Dram(npu.View()), S_SCORE, S_SCORE + tc * 4)
    requires Scored(pr, Dram(npu.View()), q, tc * 4)
    ensures Ready(npu.c, npu.View()) && Kept(d0, npu.View())
    ensures npu.spuSrf == d0.srf[0 := TopOrNone(pr, q, tc * 4 + 4)]
    ensures SameOutside(Dram(d0), Dram(npu.View()), S_SCORE, S_SCORE + tc * 4 + 4)
    ensures Scored(pr, Dram(npu.View()), q, tc * 4 + 4)
  {
    hide Scored, TopScore, TopOrNone, TopSoFar, Prefilled, MaskedLanes, Overlay;
    ghost var before := Dram(npu.View());
    PrefilledKept(Dram(d0), before, pr);
    ScoreStep(npu, pr, sl, nt, q, tc);
    ScoredTile(pr, Dram(d0), before, Dram(npu.View()), q, tc);
  }

  lemma ScoreStart(pr: Problem, dram: Vec, q: nat, top: Num)
    requires q < |pr.q| && q < |pr.k| && S_SCORE <= |dram| && (top == NegInf || top == NaN)
    ensures Scored(pr, dram, q, 0) && TopSoFar(pr, q, 0, top)
  {
  }

  lemma {:induction false} TopAtEnd(pr: Problem, q: nat, nt: nat)
    requires q < |pr.q| && q < |pr.k| && nt > 0
    ensures TopOrNone(pr, q, nt * 4) == Fin(TopScore(pr, q, nt * 4))
  {
  }

  method ScorePass(npu: NpuDeviceMini, ghost pr: Problem, sl: nat, nt: nat, q: nat)
    modifies npu
    requires Ready(npu.c, npu.View()) && pr.Valid() && sl == pr.Len() && nt == Tiles(sl) && q < sl
    requires Prefilled(Dram(npu.View()), pr) && npu.spuSrf[6] == Fin(pr.scale)
    requires npu.spuSrf[0] == NegInf || npu.spuSrf[0] == NaN
    ensures Ready(npu.c, npu.View()) && Kept(old(npu.View()), npu.View())
    ensures npu.spuSrf == old(npu.spuSrf)[0 := Fin(TopScore(pr, q, nt * 4))]
    ensures SameOutside(old(Dram(npu.View())), Dram(npu.View()), S_SCORE, S_SCORE + nt * 4)
    ensures Scored(pr, Dram(npu.View()), q, nt * 4)
  {
    ghost var d0 := npu.View();
    ScoreStart(pr, Dram(d0), q, npu.spuSrf[0]);
    hide TopScore, TopOrNone, Scored, Prefilled, MaskedScore;
    var tc := 0;
    while tc < nt
      invariant tc <= nt && Ready(npu.c, npu.View()) && Kept(d0, npu.View())
      invariant npu.spuSrf == d0.srf[0 := npu.spuSrf[0]] && TopSoFar(pr, q, tc, npu.spuSrf[0])
      invariant SameOutside(Dram(d0), Dram(npu.View()), S_SCORE, S_SCORE + tc * 4)
      invariant Scored(pr, Dram(npu.View()), q, tc * 4)
    {
      ScoreNext(npu, pr, sl, nt, q, tc, d0);
      tc := tc + 1;
    }
    TopAtEnd(pr, q, nt);
  }

  // ---- Pass 2: the sum of exponentials ----

  /** Load four stored lanes and take exp(lane - scalar 0). */
  method ExpLanes(npu: NpuDeviceMini, at: nat)
    modifies npu
    requires Ready(npu.c, npu.View()) && at + 4 <= DRAM_LEN
    ensures Ready(npu.c, npu.View()) && Kept(old(npu.View()), npu.View())
    ensures npu.spuSrf == old(npu.spuSrf) && Dram(npu.View()) == old(Dram(npu.View()))
    ensures npu.pipeline.Some? && |npu.pipeline.value| == 4
    ensures forall i :: 0 <= i < 4 ==>
      npu.pipeline.value[i] == Exp(npu.c.k.exp, Sub(Dram(npu.View())[at + i], npu.spuSrf[0]))
  {
    LoadQuad(npu.c, npu.View(), at);
    SendVRdDram(npu, at);
    StoreThenWindowExact(npu.c, npu.View(), MEM_MULTIPLY_VRF);
    SendVWr(npu, MEM_MULTIPLY_VRF, 0);
    BroadcastOp(npu, 0, OP_VV_B_SUB_A);
    SendVExp(npu);
  }

  lemma MassTile(pr: Problem, q: nat, m: real, tc: nat, e: Vec)
    requires pr.Valid() && q < pr.Len() && |e| == 4
    requires forall i :: 0 <= i < 4 ==> e[i] == Fin(Shifted(pr, q, m, tc * 4 + i))
    ensures Add(Sum(e, 4), Fin(ShiftedMass(pr, q, m, tc * 4))) == Fin(ShiftedMass(pr, q, m, tc * 4 + 4))
  {
    hide Score, Shifted;
    var b := tc * 4;
    Sum4(e);
    assert ShiftedMass(pr, q, m, b + 1) == ShiftedMass(pr, q, m, b) + e[0].r;
    assert ShiftedMass(pr, q, m, b + 2) == ShiftedMass(pr, q, m, b + 1) + e[1].r;
    assert ShiftedMass(pr, q, m, b + 3) == ShiftedMass(pr, q, m, b + 2) + e[2].r;
  }

  method SumPass(npu: NpuDeviceMini, ghost pr: Problem, nt: nat, q: nat, ghost m: real)
    modifies npu
    requires Ready(npu.c, npu.View()) && pr.Valid() && nt == Tiles(pr.Len()) && q < pr.Len() && npu.c.k.exp == pr.exp
    requires Scored(pr, Dram(npu.View()), q, nt * 4) && npu.spuSrf[0] == Fin(m) && npu.spuSrf[1] == ZERO
    ensures Ready(npu.c, npu.View()) && Kept(old(npu.View()), npu.View())
    ensures npu.spuSrf == old(npu.spuSrf)[1 := Fin(ShiftedMass(pr, q, m, nt * 4))]
    ensures Dram(npu.View()) == old(Dram(npu.View()))
  {
    ghost var d0 := npu.View();
    var tc := 0;
    while tc < nt
      invariant tc <= nt && Ready(npu.c, npu.View()) && Kept(d0, npu.View())
      invariant npu.spuSrf == d0.srf[1 := Fin(ShiftedMass(pr, q, m, tc * 4))]
      invariant Dram(npu.View()) == Dram(d0)
    {
      ExpLanes(npu, S_SCORE + tc * 4);
      forall i | 0 <= i < 4
        ensures npu.pipeline.value[i] == Fin(Shifted(pr, q, m, tc * 4 + i))
      {
        ExpsLane(pr, q, m, tc * 4 + i);
      }
      MassTile(pr, q, m, tc, npu.pipeline.value);
      SendVWr(npu, MEM_SPU_ADD_REDUCE, 1);
      tc := tc + 1;
    }
  }

  // ---- Pass 3: probabilities times values ----

  /** Finite lanes that are normalised exponentials wherever the position exists.  Padding lanes
      may hold anything finite: with nine tiles the last score lane aliases the first probability. */
  ghost predicate ProbLanes(pr: Problem, q: nat, m: real, r: real, tc: nat, v: Vec)
    requires q < |pr.q| && q < |pr.k|
  {
    |v| == 4 &&
    (forall i :: 0 <= i < 4 ==> v[i].Fin?) &&
    (forall i :: 0 <= i < 4 && tc * 4 + i < pr.Len() ==> v[i] == Fin(Shifted(pr, q, m, tc * 4 + i) * r))
  }

  /** Normalise one tile of exponentials and store it. */
  method ProbTile(npu: NpuDeviceMini, at: nat, to: nat)
    modifies npu
    requires Ready(npu.c, npu.View()) && at + 4 <= DRAM_LEN && to + 4 <= DRAM_LEN
    ensures Ready(npu.c, npu.View()) && Kept(old(npu.View()), npu.View()) && npu.spuSrf == old(npu.spuSrf)
    ensures npu.pipeline.Some? && |npu.pipeline.value| == 4
    ensures forall i :: 0 <= i < 4 ==>
      npu.pipeline.value[i] == Mul(npu.spuSrf[2], Exp(npu.c.k.exp, Sub(old(Dram(npu.View()))[at + i], npu.spuSrf[0])))
    ensures Dram(npu.View()) == Overlay(old(Dram(npu.View())), to, npu.pipeline.value)
  {
    ExpLanes(npu, at);
    StoreThenWindowExact(npu.c, npu.View(), MEM_MULTIPLY_VRF);
    SendVWr(npu, MEM_MULTIPLY_VRF, 0);
    BroadcastOp(npu, 2, OP_VV_MUL);
    StoreQuad(npu.c, npu.View(), to);
    SendVWrDram(npu, to);
  }

  method LoadValueTile(npu: NpuDeviceMini, tc: nat, nt: nat)
    modifies npu
    requires Ready(npu.c, npu.View()) && tc < nt <= 9
    ensures Ready(npu.c, npu.View()) && Kept(old(npu.View()), npu.View())
    ensures npu.vrf == old(npu.vrf) && npu.spuSrf == old(npu.spuSrf)
    ensures |npu.mrf| == 4 && forall d :: 0 <= d < 4 ==> npu.mrf[d] == Quad(Dram(npu.View()), VtAt(tc, d, nt))
  {
    ghost var d0 := npu.View();
    ghost var rows: seq<Vec> := [];
    var d := 0;
    while d < 4
      invariant d <= 4 && |rows| == d
      invariant npu.View() == d0.(pipe := npu.pipeline, vpipeA := npu.vpipeA, rowBuffer := rows)
      invariant forall j :: 0 <= j < d ==> rows[j] == Quad(Dram(d0), VtAt(tc, j, nt))
    {
      LoadQuad(npu.c, npu.View().(rowBuffer := []), VtAt(tc, d, nt));
      SendVRdDram(npu, VtAt(tc, d, nt));
      assert npu.pipeline == Some(Quad(Dram(d0), VtAt(tc, d, nt)));
      SendVWr(npu, MEM_VEC_TO_MAT_ROW, 0);
      rows := rows + [npu.pipeline.value];
      d := d + 1;
    }
    SendMRdRows(npu);
    forall j | 0 <= j < 4 ensures PadRow(rows[j], 4) == rows[j] { }
  }

  /** ctx += matrix register times the stored probabilities. */
  method Accumulate(npu: NpuDeviceMini, prob: nat, ctx: nat)
    modifies npu
    requires Ready(npu.c, npu.View()) && prob + 4 <= DRAM_LEN && ctx + 4 <= DRAM_LEN && |npu.mrf| == 4
    ensures Ready(npu.c, npu.View()) && Kept(old(npu.View()), npu.View()) && npu.spuSrf == old(npu.spuSrf)
    ensures npu.pipeline.Some? && |npu.pipeline.value| == 4
    ensures var dram := old(Dram(npu.View()));
            (forall i :: 0 <= i < 4 ==>
              npu.pipeline.value[i] == Add(dram[ctx + i], Dot(old(npu.mrf)[i], Quad(dram, prob), 4))) &&
            Dram(npu.View()) == Overlay(dram, ctx, npu.pipeline.value)
  {
    LoadQuad(npu.c, npu.View(), prob);
    SendVRdDram(npu, prob);
    StoreThenWindowExact(npu.c, npu.View(), MEM_MVM_INITIAL_VRF);
    SendVWr(npu, MEM_MVM_INITIAL_VRF, 0);
    SendVRd(npu, MEM_MVM_INITIAL_VRF, 0);
    MvMul4(npu.c, npu.View());
    SendMvMul(npu);
    AddToStored(npu, ctx);
  }

  /** V_WR multiply bank, load the stored vector, reload, VV_ADD, store back. */
  method AddToStored(npu: NpuDeviceMini, at: nat)
    modifies npu
    requires Ready(npu.c, npu.View()) && at + 4 <= DRAM_LEN && npu.pipeline.Some? && |npu.pipeline.value| == 4
    ensures Ready(npu.c, npu.View()) && Kept(old(npu.View()), npu.View())
    ensures npu.spuSrf == old(npu.spuSrf) && npu.mrf == old(npu.mrf)
    ensures npu.pipeline.Some? && |npu.pipeline.value| == 4
    ensures var dram := old(Dram(npu.View()));
            (forall i :: 0 <= i < 4 ==> npu.pipeline.value[i] == Add(dram[at + i], old(npu.pipeline).value[i])) &&
            Dram(npu.View()) == Overlay(dram, at, npu.pipeline.value)
  {
    StoreThenWindowExact(npu.c, npu.View(), MEM_MULTIPLY_VRF);
    SendVWr(npu, MEM_MULTIPLY_VRF, 0);
    LoadQuad(npu.c, npu.View(), at);
    SendVRdDram(npu, at);
    SendVRd(npu, MEM_MULTIPLY_VRF, 0);
    SendVV(npu, OP_VV_ADD);
    StoreQuad(npu.c, npu.View(), at);
    SendVWrDram(npu, at);
  }

  /** A zero value column silences its lane, so the tile adds exactly the live terms. */
  lemma MixTile(pr: Problem, q: nat, m: real, r: real, tc: nat, d: nat, p: Vec)
    requires pr.Valid() && q < pr.Len() && d < MODEL_DIM && ProbLanes(pr, q, m, r, tc, p)
    ensures Add(Fin(ShiftedMix(pr, q, m, r, d, tc * 4)), Dot(VtRow(pr, tc, d), p, 4))
            == Fin(ShiftedMix(pr, q, m, r, d, tc * 4 + 4))
  {
    hide MixTerm, Score, Mul, Dot;
    var v := VtRow(pr, tc, d);
    forall i | 0 <= i < 4
      ensures Mul(v[i], p[i]) == Fin(MixTerm(pr, q, m, r, d, tc * 4 + i))
    {
      ProbTerm(pr, q, m, r, tc, d, p, i);
    }
    Dot4(v, p);
    var b := tc * 4;
    assert ShiftedMix(pr, q, m, r, d, b + 1) == ShiftedMix(pr, q, m, r, d, b) + MixTerm(pr, q, m, r, d, b);
    assert ShiftedMix(pr, q, m, r, d, b + 2) == ShiftedMix(pr, q, m, r, d, b + 1) + MixTerm(pr, q, m, r, d, b + 1);
    assert ShiftedMix(pr, q, m, r, d, b + 3) == ShiftedMix(pr, q, m, r, d, b + 2) + MixTerm(pr, q, m, r, d, b + 2);
  }

  lemma ProbTerm(pr: Problem, q: nat, m: real, r: real, tc: nat, d: nat, p: Vec, i: nat)
    requires pr.Valid() && q < pr.Len() && d < MODEL_DIM && ProbLanes(pr, q, m, r, tc, p) && i < 4
    ensures Mul(VtRow(pr, tc, d)[i], p[i]) == Fin(MixTerm(pr, q, m, r, d, tc * 4 + i))
  {
    var k := tc * 4 + i;
    ProductOrder(p[i].r, Shifted(pr, q, m, k), r, ValueOrZero(pr, k, d), k < pr.Len());
  }

  lemma ProductOrder(p: real, s: real, r: real, v: real, live: bool)
    requires if live then p == s * r else v == 0.0
    ensures v * p == s * r * v
  {
  }

  lemma {:induction false} Dot4(v: Vec, p: Vec)
    requires |v| == 4 && |p| == 4
    ensures Dot(v, p, 4) ==
      Add(Add(Add(Add(ZERO, Mul(v[0], p[0])), Mul(v[1], p[1])), Mul(v[2], p[2])), Mul(v[3], p[3]))
  {
    assert Dot(v, p, 1) == Add(Dot(v, p, 0), Mul(v[0], p[0]));
    assert Dot(v, p, 2) == Add(Dot(v, p, 1), Mul(v[1], p[1]));
    assert Dot(v, p, 3) == Add(Dot(v, p, 2), Mul(v[2], p[2]));
  }

  lemma {:induction false} Sum4(v: Vec)
    requires |v| == 4
    ensures Sum(v, 4) == Add(Add(Add(Add(ZERO, v[0]), v[1]), v[2]), v[3])
  {
    assert Sum(v, 1) == Add(Sum(v, 0), v[0]);
    assert Sum(v, 2) == Add(Sum(v, 1), v[1]);
    assert Sum(v, 3) == Add(Sum(v, 2), v[2]);
  }

  /** Memories that agree outside context row q and the score and probability buffers. */
  ghost predicate SameButRow(a: Vec, b: Vec, q: nat)
  {
    |a| == |b| &&
    forall i :: 0 <= i < |a| && !(S_CTX + q * MODEL_DIM <= i < S_CTX + q * MODEL_DIM + 4) &&
      !(S_SCORE <= i < S_MASK_TABLE)
      ==> a[i] == b[i]
  }

  /** Context row q holds the mixture of the first n lanes. */
  ghost predicate Mixed(pr: Problem, dram: Vec, q: nat, m: real, r: real, n: nat)
    requires q < |pr.q| && q < |pr.k|
  {
    q < MAX_SEQ && |dram| == DRAM_LEN &&
    forall d :: 0 <= d < MODEL_DIM ==> dram[S_CTX + q * MODEL_DIM + d] == Fin(ShiftedMix(pr, q, m, r, d, n))
  }

  /** What pass 3 keeps: scores still readable up to the alias, and the alias finite once written. */
  ghost predicate Readable(pr: Problem, dram: Vec, q: nat, nt: nat, tc: nat)
    requires q < |pr.q| && q < |pr.k|
  {
    Scored(pr, dram, q, Min(nt * 4, MAX_SEQ)) && S_PROB < |dram| && (tc > 0 ==> dram[S_PROB].Fin?)
  }

  lemma ProbTileLanes(pr: Problem, dram: Vec, q: nat, m: real, r: real, nt: nat, tc: nat, p: Vec)
    requires pr.Valid() && q < pr.Len() && nt == Tiles(pr.Len()) && tc < nt && |dram| == DRAM_LEN && |p| == 4
    requires Readable(pr, dram, q, nt, tc)
    requires forall i :: 0 <= i < 4 ==> p[i] == Mul(Fin(r), Exp(pr.exp, Sub(dram[S_SCORE + tc * 4 + i], Fin(m))))
    ensures ProbLanes(pr, q, m, r, tc, p)
  {
    hide Score, Exp, Mul, Sub, MaskedScore, Shifted;
    forall i | 0 <= i < 4
      ensures p[i].Fin? && (tc * 4 + i < pr.Len() ==> p[i] == Fin(Shifted(pr, q, m, tc * 4 + i) * r))
    {
      ProbLane(pr, dram, q, m, r, nt, tc, i);
    }
  }

  lemma ProbLane(pr: Problem, dram: Vec, q: nat, m: real, r: real, nt: nat, tc: nat, i: nat)
    requires pr.Valid() && q < pr.Len() && nt == Tiles(pr.Len()) && tc < nt && |dram| == DRAM_LEN && i < 4
    requires Readable(pr, dram, q, nt, tc)
    ensures var x := Mul(Fin(r), Exp(pr.exp, Sub(dram[S_SCORE + tc * 4 + i], Fin(m))));
            x.Fin? && (tc * 4 + i < pr.Len() ==> x == Fin(Shifted(pr, q, m, tc * 4 + i) * r))
  {
    hide Score;
    if tc * 4 + i < MAX_SEQ {
      ExpsLane(pr, q, m, tc * 4 + i);
    } else {
      assert S_SCORE + tc * 4 + i == S_PROB;
    }
  }

  lemma ContextMemory(pr: Problem, d0: Vec, d1: Vec, d2: Vec, q: nat, m: real, r: real, nt: nat, tc: nat, p: Vec,
                      ctx: Vec)
    requires pr.Valid() && q < pr.Len() && nt == Tiles(pr.Len()) && tc < nt && |d0| == DRAM_LEN && |ctx| == 4
    requires Readable(pr, d0, q, nt, tc) && ProbLanes(pr, q, m, r, tc, p)
    requires d1 == Overlay(d0, S_PROB + tc * 4, p) && d2 == Overlay(d1, S_CTX + q * MODEL_DIM, ctx)
    requires forall d :: 0 <= d < MODEL_DIM ==> ctx[d] == Fin(ShiftedMix(pr, q, m, r, d, tc * 4 + 4))
    ensures Readable(pr, d2, q, nt, tc + 1) && Mixed(pr, d2, q, m, r, tc * 4 + 4) && SameButRow(d0, d2, q)
  {
    hide ShiftedMix, MaskedScore, Shifted;
  }

  lemma ContextLanes(pr: Problem, d0: Vec, d1: Vec, q: nat, m: real, r: real, nt: nat, tc: nat, p: Vec, d: nat)
    requires pr.Valid() && q < pr.Len() && nt == Tiles(pr.Len()) && tc < nt && |d0| == DRAM_LEN && d < MODEL_DIM
    requires ValuesFilled(d0, pr) && ProbLanes(pr, q, m, r, tc, p) && d1 == Overlay(d0, S_PROB + tc * 4, p)
    requires Mixed(pr, d0, q, m, r, tc * 4)
    ensures Add(d1[S_CTX + q * MODEL_DIM + d], Dot(Quad(d1, VtAt(tc, d, nt)), Quad(d1, S_PROB + tc * 4), 4))
            == Fin(ShiftedMix(pr, q, m, r, d, tc * 4 + 4))
  {
    hide ShiftedMix, Shifted, Dot, Score;
    QuadKept(d0, d1, S_PROB + tc * 4, S_PROB + tc * 4 + 4, VtAt(tc, d, nt));
    assert Quad(d1, S_PROB + tc * 4) == p;
    MixTile(pr, q, m, r, tc, d, p);
  }

  lemma ContextRow(pr: Problem, d0: Vec, d1: Vec, q: nat, m: real, r: real, nt: nat, tc: nat, p: Vec, tile: Matrix,
                   ctx: Vec)
    requires pr.Valid() && q < pr.Len() && nt == Tiles(pr.Len()) && tc < nt && |d0| == DRAM_LEN && |ctx| == 4
    requires ValuesFilled(d0, pr) && ProbLanes(pr, q, m, r, tc, p) && d1 == Overlay(d0, S_PROB + tc * 4, p)
    requires Mixed(pr, d0, q, m, r, tc * 4)
    requires |tile| == 4 && forall d :: 0 <= d < 4 ==> tile[d] == Quad(d1, VtAt(tc, d, nt))
    requires forall d :: 0 <= d < 4 ==>
               ctx[d] == Add(d1[S_CTX + q * MODEL_DIM + d], Dot(tile[d], Quad(d1, S_PROB + tc * 4), 4))
    ensures forall d :: 0 <= d < MODEL_DIM ==> ctx[d] == Fin(ShiftedMix(pr, q, m, r, d, tc * 4 + 4))
  {
    hide ShiftedMix, ProbLanes, Mixed, ValuesFilled, Dot, Add, Quad, Overlay;
    forall d | 0 <= d < MODEL_DIM
      ensures ctx[d] == Fin(ShiftedMix(pr, q, m, r, d, tc * 4 + 4))
    {
      ContextLanes(pr, d0, d1, q, m, r, nt, tc, p, d);
    }
  }

  /** First half of a tile: its probabilities, kept in memory, and its values as matrix. */
  method ProbStep(npu: NpuDeviceMini, ghost pr: Problem, nt: nat, ghost q: nat, tc: nat, ghost m: real, ghost r: real)
    returns (ghost p: Vec)
    modifies npu
    requires Ready(npu.c, npu.View()) && pr.Valid() && nt == Tiles(pr.Len())
    requires q < pr.Len() && tc < nt && npu.c.k.exp == pr.exp
    requires npu.spuSrf[0] == Fin(m) && npu.spuSrf[2] == Fin(r) && Readable(pr, Dram(npu.View()), q, nt, tc)
    ensures Ready(npu.c, npu.View()) && Kept(old(npu.View()), npu.View()) && npu.spuSrf == old(npu.spuSrf)
    ensures |p| == 4 && ProbLanes(pr, q, m, r, tc, p)
    ensures Dram(npu.View()) == Overlay(old(Dram(npu.View())), S_PROB + tc * 4, p)
    ensures |npu.mrf| == 4 && forall d :: 0 <= d < 4 ==> npu.mrf[d] == Quad(Dram(npu.View()), VtAt(tc, d, nt))
  {
    hide ProbLanes, Readable, Dot, Exp, Mul, Sub, Add;
    ghost var d0 := Dram(npu.View());
    ProbTile(npu, S_SCORE + tc * 4, S_PROB + tc * 4);
    p := npu.pipeline.value;
    ProbTileLanes(pr, d0, q, m, r, nt, tc, p);
    LoadValueTile(npu, tc, nt);
  }

  method ContextStep(npu: NpuDeviceMini, ghost pr: Problem, nt: nat, q: nat, tc: nat, ghost m: real, ghost r: real)
    modifies npu
    requires Ready(npu.c, npu.View()) && pr.Valid() && nt == Tiles(pr.Len())
    requires q < pr.Len() && tc < nt && npu.c.k.exp == pr.exp
    requires ValuesFilled(Dram(npu.View()), pr) && npu.spuSrf[0] == Fin(m) && npu.spuSrf[2] == Fin(r)
    requires Readable(pr, Dram(npu.View()), q, nt, tc) && Mixed(pr, Dram(npu.View()), q, m, r, tc * 4)
    ensures Ready(npu.c, npu.View()) && Kept(old(npu.View()), npu.View()) && npu.spuSrf == old(npu.spuSrf)
    ensures Readable(pr, Dram(npu.View()), q, nt, tc + 1) && Mixed(pr, Dram(npu.View()), q, m, r, tc * 4 + 4)
    ensures SameButRow(old(Dram(npu.View())), Dram(npu.View()), q)
  {
    hide ShiftedMix, ProbLanes, Readable, Mixed, SameButRow, ValuesFilled, Dot, Exp, Mul, Sub, Add, Quad, Overlay;
    ghost var d0 := Dram(npu.View());
    ghost var p := ProbStep(npu, pr, nt, q, tc, m, r);
    ghost var d1, tile := Dram(npu.View()), npu.mrf;
    Accumulate(npu, S_PROB + tc * 4, S_CTX + q * MODEL_DIM);
    ghost var ctx := npu.pipeline.value;
    ContextRow(pr, d0, d1, q, m, r, nt, tc, p, tile, ctx);
    ContextMemory(pr, d0, d1, Dram(npu.View()), q, m, r, nt, tc, p, ctx);
  }

  lemma SameButRowTrans(a: Vec, b: Vec, c: Vec, q: nat)
    requires SameButRow(a, b, q) && SameButRow(b, c, q)
    ensures SameButRow(a, c, q)
  {
  }

  lemma ValuesKept(a: Vec, b: Vec, pr: Problem, q: nat)
    requires pr.Valid() && |a| == DRAM_LEN && ValuesFilled(a, pr) && SameButRow(a, b, q) && q < MAX_SEQ
    ensures ValuesFilled(b, pr)
  {
    var nt := Tiles(pr.Len());
    forall tc, d | 0 <= tc < nt && 0 <= d < MODEL_DIM
      ensures Quad(b, VtAt(tc, d, nt)) == VtRow(pr, tc, d)
    {
      assert Quad(b, VtAt(tc, d, nt)) == Quad(a, VtAt(tc, d, nt));
    }
  }

  ghost predicate RowZero(dram: Vec, i: nat)
  {
    i < MAX_SEQ && |dram| == DRAM_LEN && Quad(dram, S_CTX + i * MODEL_DIM) == Zeros(4)
  }

  lemma NothingMixed(pr: Problem, dram: Vec, q: nat, m: real, r: real)
    requires q < |pr.q| && q < |pr.k| && RowZero(dram, q)
    ensures Mixed(pr, dram, q, m, r, 0)
  {
    forall d | 0 <= d < MODEL_DIM
      ensures dram[S_CTX + q * MODEL_DIM + d] == Fin(ShiftedMix(pr, q, m, r, d, 0))
    {
      assert dram[S_CTX + q * MODEL_DIM + d] == Quad(dram, S_CTX + q * MODEL_DIM)[d];
    }
  }

  method ContextPass(npu: NpuDeviceMini, ghost pr: Problem, nt: nat, q: nat, ghost m: real, ghost r: real)
    modifies npu
    requires Ready(npu.c, npu.View()) && pr.Valid() && nt == Tiles(pr.Len()) && q < pr.Len() && npu.c.k.exp == pr.exp
    requires ValuesFilled(Dram(npu.View()), pr) && npu.spuSrf[0] == Fin(m) && npu.spuSrf[2] == Fin(r)
    requires Scored(pr, Dram(npu.View()), q, nt * 4)
    requires RowZero(Dram(npu.View()), q)
    ensures Ready(npu.c, npu.View()) && Kept(old(npu.View()), npu.View()) && npu.spuSrf == old(npu.spuSrf)
    ensures Mixed(pr, Dram(npu.View()), q, m, r, nt * 4)
    ensures SameButRow(old(Dram(npu.View())), Dram(npu.View()), q)
  {
    ghost var d0 := npu.View();
    var tc := 0;
    NothingMixed(pr, Dram(d0), q, m, r);
    assert Readable(pr, Dram(d0), q, nt, 0);
    hide Readable, Mixed, SameButRow, ValuesFilled, ShiftedMix, Scored;
    assert SameButRow(Dram(d0), Dram(d0), q) by { SameButRowRefl(Dram(d0), q); }
    while tc < nt
      invariant tc <= nt && Ready(npu.c, npu.View()) && Kept(d0, npu.View()) && npu.spuSrf == d0.srf
      invariant Readable(pr, Dram(npu.View()), q, nt, tc) && Mixed(pr, Dram(npu.View()), q, m, r, tc * 4)
      invariant SameButRow(Dram(d0), Dram(npu.View()), q)
    {
      ghost var before := Dram(npu.View());
      ValuesKept(Dram(d0), before, pr, q);
      ContextStep(npu, pr, nt, q, tc, m, r);
      SameButRowTrans(Dram(d0), before, Dram(npu.View()), q);
      tc := tc + 1;
    }
  }

  lemma SameButRowRefl(a: Vec, q: nat)
    ensures SameButRow(a, a, q)
  {
  }

  // ---- One query ----

  /** SPU_ADD_REDUCE of a -inf fill forces a scalar to -inf, or to NaN when it was +inf or NaN. */
  method ResetMaximum(npu: NpuDeviceMini)
    modifies npu
    requires Ready(npu.c, npu.View())
    ensures Ready(npu.c, npu.View()) && Kept(old(npu.View()), npu.View())
    ensures npu.vrf == old(npu.vrf) && npu.spuSrf == old(npu.spuSrf)[0 := npu.spuSrf[0]]
    ensures npu.spuSrf[0] == if old(npu.spuSrf)[0].PosInf? || old(npu.spuSrf)[0].NaN? then NaN else NegInf
  {
    FillPatterns();
    SendVRd(npu, MEM_FILL, 0xFC00);
    Sum4(npu.pipeline.value);
    SendVWr(npu, MEM_SPU_ADD_REDUCE, 0);
  }

  lemma SameAsRow(a: Vec, b: Vec, q: nat, nt: nat)
    requires SameOutside(a, b, S_SCORE, S_SCORE + nt * 4) && nt <= 9 && RowZero(a, q)
    ensures SameButRow(a, b, q) && RowZero(b, q)
  {
    QuadKept(a, b, S_SCORE, S_SCORE + nt * 4, S_CTX + q * MODEL_DIM);
  }

  /** The mixture over all tiles is the textbook context row. */
  lemma MixedIsContext(pr: Problem, dram: Vec, q: nat, m: real, r: real, nt: nat)
    requires pr.Valid() && q < pr.Len() && nt == Tiles(pr.Len()) && Mixed(pr, dram, q, m, r, nt * 4)
    requires ShiftedMass(pr, q, m, nt * 4) > 0.0 && r == 1.0 / ShiftedMass(pr, q, m, nt * 4)
    ensures ContextDone(pr, dram, q)
  {
    hide Score, MixTerm;
    forall d | 0 <= d < MODEL_DIM
      ensures dram[S_CTX + q * MODEL_DIM + d] == Fin(Context(pr, q)[d])
    {
      ShiftedMixIsMix(pr, q, m, r, d, nt * 4, nt * 4);
    }
    assert Quad(dram, S_CTX + q * MODEL_DIM) == FinRow(Context(pr, q));
  }

  ghost predicate ContextDone(pr: Problem, dram: Vec, i: nat)
    requires pr.Valid() && i < pr.Len()
  {
    |dram| == DRAM_LEN && Quad(dram, S_CTX + i * MODEL_DIM) == FinRow(Context(pr, i))
  }

  method Query(npu: NpuDeviceMini, ghost pr: Problem, sl: nat, nt: nat, q: nat)
    modifies npu
    requires Ready(npu.c, npu.View()) && pr.Valid() && sl == pr.Len()
    requires nt == Tiles(sl) && q < sl && npu.c.k.exp == pr.exp
    requires Prefilled(Dram(npu.View()), pr) && npu.spuSrf[6] == Fin(pr.scale)
    requires RowZero(Dram(npu.View()), q)
    ensures Ready(npu.c, npu.View()) && Kept(old(npu.View()), npu.View())
    ensures npu.spuSrf[6] == Fin(pr.scale) && npu.spuSrf[0] == Fin(TopScore(pr, q, nt * 4))
    ensures ContextDone(pr, Dram(npu.View()), q)
    ensures SameButRow(old(Dram(npu.View())), Dram(npu.View()), q)
  {
    hide TopScore, ShiftedMass, ShiftedMix, Scored, Mixed, RowsFilled, MasksFilled, ValuesFilled, ContextDone,
      SameButRow;
    ghost var d0 := Dram(npu.View());
    ResetMaximum(npu);
    ScorePass(npu, pr, sl, nt, q);
    ghost var d1 := Dram(npu.View());
    SameAsRow(d0, d1, q, nt);
    ghost var m := TopScore(pr, q, nt * 4);
    npu.StoreSrf(1, ZERO);
    SumPass(npu, pr, nt, q, m);
    ShiftedWeight(pr, q, m, nt * 4, q);
    SendSRecip(npu, 2, 1);
    ghost var r := 1.0 / ShiftedMass(pr, q, m, nt * 4);
    ValuesKept(d0, d1, pr, q);
    ContextPass(npu, pr, nt, q, m, r);
    MixedIsContext(pr, Dram(npu.View()), q, m, r, nt);
    SameButRowTrans(d0, d1, Dram(npu.View()), q);
  }
}
