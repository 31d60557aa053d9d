/** Phase 2 of the adder firmware: SiLU gating, the down projection, the second residual, and the last row handed to
    the host, against the feed-forward block of the NumPy reference. */
module AdderPhase2 {
  import opened Arithmetic
  import opened Numbers
  import opened D = Device
  import opened NpuDevice
  import opened Firmware
  import opened Attention
  import opened AdderMemory
  import opened AdderFirmware
  import opened AdderPhase1

  const ADDR_W_DOWN := 0xA00
  const S_H2 := 0x3000
  const S_GATE := S_H2 + MAX_SEQ * MODEL_DIM
  const S_UP := S_GATE + MAX_SEQ * MODEL_DIM
  const S_FFN_RES := S_UP + MAX_SEQ * MODEL_DIM
  const S_LAST_H := S_FFN_RES + MAX_SEQ * MODEL_DIM
  const S_TEMP2 := S_LAST_H + MAX_SEQ * MODEL_DIM
  const S_END2 := S_TEMP2 + MAX_SEQ * MODEL_DIM
  const FW_LAST_H := 0x4000

  // ---- The feed-forward block ----

  /** Residual rows of the attention part, gate and up projections a row a position, the down weights. */
  datatype Block = Block(res: seq<Row>, gate: seq<Row>, up: seq<Row>, down: seq<Row>, exp: real -> real)
  {
    function Len(): nat { |res| }

    ghost predicate Valid()
    {
      1 <= |res| <= MAX_SEQ && |gate| == |res| && |up| == |res| && |down| == MODEL_DIM && ExpLaws(exp)
    }
  }

  ghost function Sigmoid(exp: real -> real, x: real): real
    requires ExpLaws(exp)
  {
    assert ExpPositive(exp, -x);
    1.0 / (1.0 + exp(-x))
  }

  /** gate * sigmoid(gate) * up */
  ghost function Gated(b: Block, i: nat): (r: Row)
    requires b.Valid() && i < b.Len()
    ensures forall d :: 0 <= d < MODEL_DIM ==> r[d] == b.gate[i][d] * Sigmoid(b.exp, b.gate[i][d]) * b.up[i][d]
  {
    seq(MODEL_DIM, d requires 0 <= d < MODEL_DIM =>
      b.gate[i][d] * Sigmoid(b.exp, b.gate[i][d]) * b.up[i][d])
  }

  ghost function Down(b: Block, i: nat): (r: Row)
    requires b.Valid() && i < b.Len()
    ensures forall d :: 0 <= d < MODEL_DIM ==> r[d] == DotR(b.down[d], Gated(b, i), MODEL_DIM)
  {
    seq(MODEL_DIM, d requires 0 <= d < MODEL_DIM => DotR(b.down[d], Gated(b, i), MODEL_DIM))
  }

  /** The residual stream after the block. */
  ghost function Hidden(b: Block, i: nat): (r: Row)
    requires b.Valid() && i < b.Len()
    ensures forall d :: 0 <= d < MODEL_DIM ==> r[d] == b.res[i][d] + Down(b, i)[d]
  {
    seq(MODEL_DIM, d requires 0 <= d < MODEL_DIM => b.res[i][d] + Down(b, i)[d])
  }

  /** The sigmoid kernel as its C code computes it. */
  ghost predicate SigmoidKernel(c: Config, exp: real -> real)
  {
    ExpLaws(exp) && forall x: real :: SigmoidMatches(c, exp, x)
  }

  ghost predicate SigmoidMatches(c: Config, exp: real -> real, x: real)
    requires ExpLaws(exp)
  {
    c.k.sigmoid(Fin(x)) == Fin(Sigmoid(exp, x))
  }

  // ---- Memory ----

  /** Residuals, gates, ups and down weights where the firmware looks for them. */
  ghost predicate Staged(dram: Vec, b: Block)
    requires b.Valid() && |dram| == DRAM_LEN
  {
    (forall i :: 0 <= i < b.Len() ==> Quad(dram, S_ATTN_RES + i * MODEL_DIM) == FinRow(b.res[i])) &&
    (forall i :: 0 <= i < b.Len() ==> Quad(dram, S_GATE + i * MODEL_DIM) == FinRow(b.gate[i])) &&
    (forall i :: 0 <= i < b.Len() ==> Quad(dram, S_UP + i * MODEL_DIM) == FinRow(b.up[i])) &&
    (forall d :: 0 <= d < MODEL_DIM ==> Quad(dram, ADDR_W_DOWN + d * MODEL_DIM) == FinRow(b.down[d]))
  }

  lemma StagedKept(x: Vec, y: Vec, b: Block)
    requires b.Valid() && |x| == DRAM_LEN && Staged(x, b) && SameOutside(x, y, S_FFN_RES, S_END2)
    ensures Staged(y, b)
  {
    forall i | 0 <= i < b.Len()
      ensures Quad(y, S_ATTN_RES + i * MODEL_DIM) == FinRow(b.res[i])
      ensures Quad(y, S_GATE + i * MODEL_DIM) == FinRow(b.gate[i])
      ensures Quad(y, S_UP + i * MODEL_DIM) == FinRow(b.up[i])
    {
      QuadKept(x, y, S_FFN_RES, S_END2, S_ATTN_RES + i * MODEL_DIM);
      QuadKept(x, y, S_FFN_RES, S_END2, S_GATE + i * MODEL_DIM);
      QuadKept(x, y, S_FFN_RES, S_END2, S_UP + i * MODEL_DIM);
    }
    forall d | 0 <= d < MODEL_DIM
      ensures Quad(y, ADDR_W_DOWN + d * MODEL_DIM) == FinRow(b.down[d])
    {
      QuadKept(x, y, S_FFN_RES, S_END2, ADDR_W_DOWN + d * MODEL_DIM);
    }
  }

  /** Position i is finished: its gated row and its row of the residual stream are in place. */
  ghost predicate BlockDone(b: Block, dram: Vec, i: nat)
    requires b.Valid() && i < b.Len()
  {
    |dram| == DRAM_LEN && Quad(dram, S_TEMP2 + i * MODEL_DIM) == FinRow(Gated(b, i)) &&
    Quad(dram, S_LAST_H + i * MODEL_DIM) == FinRow(Hidden(b, i))
  }

  /** Writing four lanes inside the scratch range keeps every row elsewhere. */
  lemma RowWritten(x: Vec, y: Vec, at: nat, v: Vec)
    requires |x| == DRAM_LEN && |v| == 4 && S_FFN_RES <= at && at + 4 <= S_END2 && y == Overlay(x, at, v)
    ensures Quad(y, at) == v && SameOutside(x, y, S_FFN_RES, S_END2)
    ensures forall k :: 0 <= k <= DRAM_LEN - 4 && (k + 4 <= at || at + 4 <= k) ==> Quad(y, k) == Quad(x, k)
  {
    StoredRow(x, y, at, v);
  }

  // ---- The firmware ----

  /** Keep the pipeline in the multiply bank, load four lanes from DRAM, multiply. */
  method MultiplyBy(npu: NpuDeviceMini, at: nat)
    modifies npu
    requires Ready(npu.c, npu.View()) && at + 4 <= DRAM_LEN && npu.pipeline.Some? && |npu.pipeline.value| == 4
    ensures Ready(npu.c, npu.View()) && Kept(old(npu.View()), npu.View())
    ensures Dram(npu.View()) == old(Dram(npu.View()))
    ensures npu.pipeline.Some? && |npu.pipeline.value| == 4
    ensures forall i :: 0 <= i < 4 ==>
      npu.pipeline.value[i] == Mul(Quad(Dram(npu.View()), at)[i], old(npu.pipeline).value[i])
  {
    hide Mul;
    StoreThenWindowExact(npu.c, npu.View(), MEM_MULTIPLY_VRF);
    SendVWr(npu, MEM_MULTIPLY_VRF, 0);
    LoadQuad(npu.c, npu.View(), at);
    SendVRdDram(npu, at);
    SendVRd(npu, MEM_MULTIPLY_VRF, 0);
    SendVV(npu, OP_VV_MUL);
  }

  /** Sigmoid of a gate row. */
  method SigmoidRow(npu: NpuDeviceMini, at: nat)
    modifies npu
    requires Ready(npu.c, npu.View()) && at + 4 <= DRAM_LEN
    ensures Ready(npu.c, npu.View()) && Kept(old(npu.View()), npu.View())
    ensures Dram(npu.View()) == old(Dram(npu.View()))
    ensures npu.pipeline.Some? && |npu.pipeline.value| == 4
    ensures forall i :: 0 <= i < 4 ==> npu.pipeline.value[i] == npu.c.k.sigmoid(Quad(Dram(npu.View()), at)[i])
  {
    LoadQuad(npu.c, npu.View(), at);
    SendVRdDram(npu, at);
    SendVSigm(npu);
  }

  /** up * (gate * sigmoid(gate)), stored. */
  method GateRow(npu: NpuDeviceMini, ghost b: Block, i: nat)
    modifies npu
    requires Ready(npu.c, npu.View()) && b.Valid() && i < b.Len() && Staged(Dram(npu.View()), b)
    requires SigmoidKernel(npu.c, b.exp)
    ensures Ready(npu.c, npu.View()) && Kept(old(npu.View()), npu.View())
    ensures Dram(npu.View()) == Overlay(old(Dram(npu.View())), S_TEMP2 + i * MODEL_DIM, FinRow(Gated(b, i)))
  {
    hide Quad, Sigmoid, Staged, Gated, FullMask, SigmoidKernel;
    ghost var dram := Dram(npu.View());
    SigmoidRow(npu, S_GATE + i * MODEL_DIM);
    ghost var s := npu.pipeline.value;
    MultiplyBy(npu, S_GATE + i * MODEL_DIM);
    ghost var g := npu.pipeline.value;
    MultiplyBy(npu, S_UP + i * MODEL_DIM);
    GatedLanes(npu.c, b, i, dram, s, g, npu.pipeline.value);
    Emit(npu, S_TEMP2 + i * MODEL_DIM);
  }

  lemma GatedLanes(c: Config, b: Block, i: nat, dram: Vec, s: Vec, g: Vec, p: Vec)
    requires b.Valid() && i < b.Len() && |dram| == DRAM_LEN && Staged(dram, b) && SigmoidKernel(c, b.exp)
    requires |s| == |g| == |p| == 4
    requires forall d :: 0 <= d < 4 ==> s[d] == c.k.sigmoid(Quad(dram, S_GATE + i * MODEL_DIM)[d])
    requires forall d :: 0 <= d < 4 ==> g[d] == Mul(Quad(dram, S_GATE + i * MODEL_DIM)[d], s[d])
    requires forall d :: 0 <= d < 4 ==> p[d] == Mul(Quad(dram, S_UP + i * MODEL_DIM)[d], g[d])
    ensures p == FinRow(Gated(b, i))
  {
    hide Quad, Sigmoid, Mul, SigmoidKernel, ExpLaws;
    forall d | 0 <= d < MODEL_DIM ensures p[d] == Fin(Gated(b, i)[d]) {
      GatedLane(c, b.exp, b.gate[i][d], b.up[i][d]);
    }
  }

  lemma GatedLane(c: Config, exp: real -> real, x: real, u: real)
    requires SigmoidKernel(c, exp)
    ensures Mul(Fin(u), Mul(Fin(x), c.k.sigmoid(Fin(x)))) == Fin(x * Sigmoid(exp, x) * u)
  {
    hide Sigmoid;
    assert SigmoidMatches(c, exp, x);
    Reorder(u, x, Sigmoid(exp, x));
  }

  lemma Reorder(a: real, b: real, c: real)
    ensures a * (b * c) == b * c * a
  {
  }

  /** Store the pipeline to DRAM. */
  method Emit(npu: NpuDeviceMini, at: nat)
    modifies npu
    requires Ready(npu.c, npu.View()) && at + 4 <= DRAM_LEN && npu.pipeline.Some? && |npu.pipeline.value| == 4
    ensures Ready(npu.c, npu.View()) && Kept(old(npu.View()), npu.View()) && npu.pipeline == old(npu.pipeline)
    ensures Dram(npu.View()) == Overlay(old(Dram(npu.View())), at, npu.pipeline.value)
  {
    StoreQuad(npu.c, npu.View(), at);
    SendVWrDram(npu, at);
  }

  /** The down projection of a gated row, stored. */
  method DownRow(npu: NpuDeviceMini, ghost b: Block, i: nat)
    modifies npu
    requires Ready(npu.c, npu.View()) && b.Valid() && i < b.Len() && Staged(Dram(npu.View()), b)
    requires Quad(Dram(npu.View()), S_TEMP2 + i * MODEL_DIM) == FinRow(Gated(b, i))
    ensures Ready(npu.c, npu.View()) && Kept(old(npu.View()), npu.View())
    ensures Dram(npu.View()) == Overlay(old(Dram(npu.View())), S_FFN_RES + i * MODEL_DIM, FinRow(Down(b, i)))
  {
    hide Quad, FullMask, Staged, Gated, Down, Dot;
    ghost var dram := Dram(npu.View());
    Mvm(npu, ADDR_W_DOWN, S_TEMP2 + i * MODEL_DIM);
    DownLanes(b, i, dram, npu.pipeline.value);
    Emit(npu, S_FFN_RES + i * MODEL_DIM);
  }

  lemma DownLanes(b: Block, i: nat, dram: Vec, p: Vec)
    requires b.Valid() && i < b.Len() && |dram| == DRAM_LEN && Staged(dram, b) && |p| == 4
    requires Quad(dram, S_TEMP2 + i * MODEL_DIM) == FinRow(Gated(b, i))
    requires forall d :: 0 <= d < 4 ==>
      p[d] == Dot(Quad(dram, ADDR_W_DOWN + d * 4), Quad(dram, S_TEMP2 + i * MODEL_DIM), 4)
    ensures p == FinRow(Down(b, i))
  {
    hide Dot, DotR, Gated, Quad;
    forall d | 0 <= d < MODEL_DIM ensures p[d] == Fin(Down(b, i)[d]) {
      DotOfReals(Quad(dram, ADDR_W_DOWN + d * 4), Quad(dram, S_TEMP2 + i * MODEL_DIM), b.down[d], Gated(b, i), 4);
    }
  }

  /** The second residual of a row, stored. */
  method HiddenRow(npu: NpuDeviceMini, ghost b: Block, i: nat)
    modifies npu
    requires Ready(npu.c, npu.View()) && b.Valid() && i < b.Len() && Staged(Dram(npu.View()), b)
    requires Quad(Dram(npu.View()), S_FFN_RES + i * MODEL_DIM) == FinRow(Down(b, i))
    ensures Ready(npu.c, npu.View()) && Kept(old(npu.View()), npu.View())
    ensures Dram(npu.View()) == Overlay(old(Dram(npu.View())), S_LAST_H + i * MODEL_DIM, FinRow(Hidden(b, i)))
  {
    hide Down, Hidden, FullMask, Quad, FinRow;
    AddRows(npu, S_ATTN_RES + i * MODEL_DIM, S_FFN_RES + i * MODEL_DIM);
    HiddenLanes(b, i, npu.pipeline.value);
    Emit(npu, S_LAST_H + i * MODEL_DIM);
  }

  /** The sum of two rows in DRAM, left in the pipeline. */
  method AddRows(npu: NpuDeviceMini, first: nat, second: nat)
    modifies npu
    requires Ready(npu.c, npu.View()) && first + 4 <= DRAM_LEN && second + 4 <= DRAM_LEN
    ensures Ready(npu.c, npu.View()) && Kept(old(npu.View()), npu.View())
    ensures Dram(npu.View()) == old(Dram(npu.View())) && npu.pipeline.Some? && |npu.pipeline.value| == 4
    ensures forall d :: 0 <= d < 4 ==>
      npu.pipeline.value[d] == Add(Quad(Dram(npu.View()), first)[d], Quad(Dram(npu.View()), second)[d])
  {
    hide Add, Quad;
    LoadQuad(npu.c, npu.View(), first);
    SendVRdDram(npu, first);
    LoadQuad(npu.c, npu.View(), second);
    SendVRdDram(npu, second);
    SendVV(npu, OP_VV_ADD);
  }

  lemma HiddenLanes(b: Block, i: nat, p: Vec)
    requires b.Valid() && i < b.Len() && |p| == 4
    requires forall d :: 0 <= d < 4 ==> p[d] == Add(FinRow(b.res[i])[d], FinRow(Down(b, i))[d])
    ensures p == FinRow(Hidden(b, i))
  {
    hide Down;
  }

  /** One position: its rows end in place and no earlier position is touched. */
  method BlockRow(npu: NpuDeviceMini, ghost b: Block, i: nat)
    modifies npu
    requires Ready(npu.c, npu.View()) && b.Valid() && i < b.Len() && Staged(Dram(npu.View()), b)
    requires SigmoidKernel(npu.c, b.exp)
    ensures Ready(npu.c, npu.View()) && Kept(old(npu.View()), npu.View()) && BlockDone(b, Dram(npu.View()), i)
    ensures forall j :: 0 <= j < i && BlockDone(b, old(Dram(npu.View())), j) ==> BlockDone(b, Dram(npu.View()), j)
    ensures SameOutside(old(Dram(npu.View())), Dram(npu.View()), S_FFN_RES, S_END2)
  {
    hide Gated, Down, Hidden, Staged, Quad;
    ghost var d0 := Dram(npu.View());
    GateRow(npu, b, i);
    ghost var d1 := Dram(npu.View());
    RowWritten(d0, d1, S_TEMP2 + i * MODEL_DIM, FinRow(Gated(b, i)));
    StagedKept(d0, d1, b);
    DownRow(npu, b, i);
    ghost var d2 := Dram(npu.View());
    RowWritten(d1, d2, S_FFN_RES + i * MODEL_DIM, FinRow(Down(b, i)));
    StagedKept(d1, d2, b);
    HiddenRow(npu, b, i);
    ghost var d3 := Dram(npu.View());
    RowWritten(d2, d3, S_LAST_H + i * MODEL_DIM, FinRow(Hidden(b, i)));
    RowsSettle(b, i, d0, d1, d2, d3);
  }

  lemma RowsSettle(b: Block, i: nat, d0: Vec, d1: Vec, d2: Vec, d3: Vec)
    requires b.Valid() && i < b.Len() && |d0| == DRAM_LEN
    requires d1 == Overlay(d0, S_TEMP2 + i * MODEL_DIM, FinRow(Gated(b, i)))
    requires d2 == Overlay(d1, S_FFN_RES + i * MODEL_DIM, FinRow(Down(b, i)))
    requires d3 == Overlay(d2, S_LAST_H + i * MODEL_DIM, FinRow(Hidden(b, i)))
    ensures BlockDone(b, d3, i) && SameOutside(d0, d3, S_FFN_RES, S_END2)
    ensures forall j :: 0 <= j < i && BlockDone(b, d0, j) ==> BlockDone(b, d3, j)
  {
    hide Gated, Down, Hidden, Quad, FinRow, SameOutside;
    RowWritten(d0, d1, S_TEMP2 + i * MODEL_DIM, FinRow(Gated(b, i)));
    RowWritten(d1, d2, S_FFN_RES + i * MODEL_DIM, FinRow(Down(b, i)));
    RowWritten(d2, d3, S_LAST_H + i * MODEL_DIM, FinRow(Hidden(b, i)));
    SameOutsideTrans(d0, d1, d2, S_FFN_RES, S_END2);
    SameOutsideTrans(d0, d2, d3, S_FFN_RES, S_END2);
  }

  /** Phase 2 leaves at every position asked for the residual stream after the feed-forward block, a copy of the last
      row for the host, and everything else in DRAM as it was. */
  method Phase2(npu: NpuDeviceMini, ghost b: Block)
    modifies npu
    requires Ready(npu.c, npu.View()) && b.Valid() && Served(npu.seqLen, b.Len()) && SigmoidKernel(npu.c, b.exp)
    requires Staged(Dram(npu.View()), b)
    ensures !npu.fault && MEM_DRAM in npu.vrf && npu.seqLen == old(npu.seqLen)
    ensures forall i :: 0 <= i < MAX_SEQ && (i < npu.seqLen || i == 0) ==>
      i < b.Len() && BlockDone(b, Dram(npu.View()), i)
    ensures |Dram(npu.View())| == DRAM_LEN && Quad(Dram(npu.View()), FW_LAST_H) == FinRow(Hidden(b, b.Len() - 1))
    ensures SameOutsideTwo(old(Dram(npu.View())), Dram(npu.View()), S_FFN_RES, S_END2, FW_LAST_H, FW_LAST_H + 4)
  {
    hide BlockDone, Staged, Served, Hidden;
    ghost var d0 := npu.View();
    var sl := ServedLength(npu.seqLen);
    var i := 0;
    while i < sl
      invariant i <= sl && Ready(npu.c, npu.View()) && Kept(d0, npu.View()) && Staged(Dram(npu.View()), b)
      invariant forall j :: 0 <= j < i ==> BlockDone(b, Dram(npu.View()), j)
      invariant SameOutside(Dram(d0), Dram(npu.View()), S_FFN_RES, S_END2)
    {
      ghost var before := Dram(npu.View());
      BlockRow(npu, b, i);
      StagedKept(before, Dram(npu.View()), b);
      SameOutsideTrans(Dram(d0), before, Dram(npu.View()), S_FFN_RES, S_END2);
      i := i + 1;
    }
    var last := S_LAST_H + (sl - 1) * MODEL_DIM;
    HandOver(npu, b, last, sl);
  }

  /** Copy the last row to where the host reads it. */
  method HandOver(npu: NpuDeviceMini, ghost b: Block, last: nat, sl: nat)
    modifies npu
    requires Ready(npu.c, npu.View()) && b.Valid() && sl == b.Len() && last == S_LAST_H + (sl - 1) * MODEL_DIM
    requires forall j :: 0 <= j < sl ==> BlockDone(b, Dram(npu.View()), j)
    ensures Ready(npu.c, npu.View()) && Kept(old(npu.View()), npu.View())
    ensures forall j :: 0 <= j < sl ==> BlockDone(b, Dram(npu.View()), j)
    ensures Quad(Dram(npu.View()), FW_LAST_H) == FinRow(Hidden(b, sl - 1))
    ensures SameOutside(old(Dram(npu.View())), Dram(npu.View()), FW_LAST_H, FW_LAST_H + 4)
  {
    hide Gated, Hidden, Quad, FullMask, BlockDone;
    ghost var before := Dram(npu.View());
    LoadQuad(npu.c, npu.View(), last);
    SendVRdDram(npu, last);
    Emit(npu, FW_LAST_H);
    AfterHandOver(b, before, Dram(npu.View()), npu.pipeline.value);
  }

  lemma AfterHandOver(b: Block, x: Vec, y: Vec, v: Vec)
    requires b.Valid() && |x| == DRAM_LEN && forall j :: 0 <= j < b.Len() ==> BlockDone(b, x, j)
    requires v == Quad(x, S_LAST_H + (b.Len() - 1) * MODEL_DIM) && y == Overlay(x, FW_LAST_H, v)
    ensures forall j :: 0 <= j < b.Len() ==> BlockDone(b, y, j)
    ensures Quad(y, FW_LAST_H) == FinRow(Hidden(b, b.Len() - 1)) && SameOutside(x, y, FW_LAST_H, FW_LAST_H + 4)
  {
    hide Gated, Hidden;
    hide Quad;
    StoredRow(x, y, FW_LAST_H, v);
    assert BlockDone(b, x, b.Len() - 1);
    forall j | 0 <= j < b.Len() ensures BlockDone(b, y, j) { assert BlockDone(b, x, j); }
  }

  // ---- Against the reference ----

  /** The reference's sigmoid takes two forms by the sign of its argument. */
  ghost function GoldenSigmoid(exp: real -> real, x: real): real
    requires ExpLaws(exp)
  {
    assert ExpPositive(exp, -x) && ExpPositive(exp, x);
    if x >= 0.0 then 1.0 / (1.0 + exp(-x)) else exp(x) / (1.0 + exp(x))
  }

  lemma SigmoidsAgree(exp: real -> real, x: real)
    requires ExpLaws(exp)
    ensures GoldenSigmoid(exp, x) == Sigmoid(exp, x)
  {
    var a, b := exp(x), exp(-x);
    assert ExpPositive(exp, -x) && ExpPositive(exp, x) && ExpPositive(exp, 0.0);
    assert ExpAdds(exp, x, -x) && ExpAdds(exp, 0.0, 0.0);
    assert x + -x == 0.0 && a * b == exp(0.0) && exp(0.0) == exp(0.0) * exp(0.0);
    OneOnly(exp(0.0));
    CrossDivide(a, b);
  }

  lemma OneOnly(e: real)
    requires e > 0.0 && e == e * e
    ensures e == 1.0
  {
    assert e / e == 1.0 && (e * e) / e == e;
  }

  lemma CrossDivide(a: real, b: real)
    requires a > 0.0 && b > 0.0 && a * b == 1.0
    ensures a / (1.0 + a) == 1.0 / (1.0 + b)
  {
    var q := 1.0 / (1.0 + b);
    assert q * (1.0 + b) == 1.0;
    assert a * (1.0 + b) == 1.0 + a;
    assert q * (1.0 + a) == q * (a * (1.0 + b)) == a * (q * (1.0 + b)) == a;
    assert a / (1.0 + a) == (q * (1.0 + a)) / (1.0 + a) == q;
  }

  ghost function GoldenGated(b: Block, i: nat): (r: Row)
    requires b.Valid() && i < b.Len()
    ensures forall d :: 0 <= d < MODEL_DIM ==> r[d] == b.gate[i][d] * GoldenSigmoid(b.exp, b.gate[i][d]) * b.up[i][d]
  {
    seq(MODEL_DIM, d requires 0 <= d < MODEL_DIM =>
      b.gate[i][d] * GoldenSigmoid(b.exp, b.gate[i][d]) * b.up[i][d])
  }

  /** x + (silu(gate) * up) @ W_down.T, element d of row i. */
  ghost function GoldenHidden(b: Block, i: nat, d: nat): real
    requires b.Valid() && i < b.Len() && d < MODEL_DIM
  {
    b.res[i][d] + DotR(GoldenGated(b, i), b.down[d], MODEL_DIM)
  }

  lemma GatedIsGolden(b: Block, i: nat)
    requires b.Valid() && i < b.Len()
    ensures GoldenGated(b, i) == Gated(b, i)
  {
    hide Sigmoid, GoldenSigmoid, ExpLaws;
    forall k | 0 <= k < MODEL_DIM ensures GoldenGated(b, i)[k] == Gated(b, i)[k] {
      SigmoidsAgree(b.exp, b.gate[i][k]);
    }
  }

  /** The rows phase 2 leaves are those of the reference. */
  lemma HiddenIsGolden(b: Block, dram: Vec, i: nat, d: nat)
    requires b.Valid() && i < b.Len() && d < MODEL_DIM && BlockDone(b, dram, i)
    ensures dram[S_LAST_H + i * MODEL_DIM + d] == Fin(GoldenHidden(b, i, d))
  {
    hide Gated, GoldenGated, DotR, Down, Hidden, ExpLaws;
    GatedIsGolden(b, i);
    DotRCommutes(Gated(b, i), b.down[d], MODEL_DIM);
    assert Quad(dram, S_LAST_H + i * MODEL_DIM)[d] == dram[S_LAST_H + i * MODEL_DIM + d];
  }

  /** Phase 1 leaves the residual rows where phase 2 expects them. */
  lemma PhasesMeet(pr: Problem, b: Block, dram: Vec)
    requires pr.Valid() && b.Valid() && pr.Len() == b.Len()
    requires forall i :: 0 <= i < pr.Len() ==> ResidualDone(pr, dram, i)
    requires forall i, d :: 0 <= i < pr.Len() && 0 <= d < MODEL_DIM ==> b.res[i][d] == AttnResidual(pr, i, d)
    ensures |dram| == DRAM_LEN
    ensures forall i :: 0 <= i < b.Len() ==> Quad(dram, S_ATTN_RES + i * MODEL_DIM) == FinRow(b.res[i])
  {
    hide AttnResidual;
    assert ResidualDone(pr, dram, 0);
    forall i | 0 <= i < b.Len()
      ensures Quad(dram, S_ATTN_RES + i * MODEL_DIM) == FinRow(b.res[i])
    {
      assert ResidualDone(pr, dram, i);
    }
  }
}
