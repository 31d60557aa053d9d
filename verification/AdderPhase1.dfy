/** The whole of phase 1: clear the contexts, attend, project, add the residual. */
module AdderPhase1 {
  import opened Arithmetic
  import opened Numbers
  import opened D = Device
  import opened NpuDevice
  import opened Firmware
  import opened Attention
  import opened AdderMemory
  import opened AdderFirmware

  lemma SameOutsideTrans(a: Vec, b: Vec, c: Vec, lo: nat, hi: nat)
    requires SameOutside(a, b, lo, hi) && SameOutside(b, c, lo, hi)
    ensures SameOutside(a, c, lo, hi)
  {
  }

  /** Writing four lanes inside the scratch range keeps every row elsewhere. */
  lemma StoredRow(a: Vec, b: Vec, at: nat, v: Vec)
    requires |a| == DRAM_LEN && |v| == 4 && at + 4 <= DRAM_LEN && b == Overlay(a, at, v)
    ensures Quad(b, at) == v
    ensures forall k :: 0 <= k <= DRAM_LEN - 4 && (k + 4 <= at || at + 4 <= k) ==> Quad(b, k) == Quad(a, k)
    ensures S_CTX <= at && at + 4 <= S_MASK_TABLE ==> SameOutside(a, b, S_CTX, S_MASK_TABLE)
  {
    forall k | 0 <= k <= DRAM_LEN - 4 && (k + 4 <= at || at + 4 <= k)
      ensures Quad(b, k) == Quad(a, k)
    {
      QuadKept(a, b, at, at + 4, k);
    }
  }

  lemma AfterClear(a: Vec, b: Vec, sl: nat, i: nat)
    requires |a| == DRAM_LEN && i < sl <= MAX_SEQ && b == Overlay(a, S_CTX + i * MODEL_DIM, Zeros(4))
    ensures RowZero(b, i) && forall j :: 0 <= j < i && RowZero(a, j) ==> RowZero(b, j)
    ensures SameOutside(a, b, S_CTX, S_MASK_TABLE)
  {
    StoredRow(a, b, S_CTX + i * MODEL_DIM, Zeros(4));
  }

  method ClearContexts(npu: NpuDeviceMini, sl: nat)
    modifies npu
    requires Ready(npu.c, npu.View()) && sl <= MAX_SEQ
    ensures Ready(npu.c, npu.View()) && Kept(old(npu.View()), npu.View()) && npu.spuSrf == old(npu.spuSrf)
    ensures forall i :: 0 <= i < sl ==> RowZero(Dram(npu.View()), i)
    ensures SameOutside(old(Dram(npu.View())), Dram(npu.View()), S_CTX, S_MASK_TABLE)
  {
    hide RowZero;
    ghost var d0 := npu.View();
    var i := 0;
    while i < sl
      invariant i <= sl && Ready(npu.c, npu.View()) && Kept(d0, npu.View()) && npu.spuSrf == d0.srf
      invariant forall j :: 0 <= j < i ==> RowZero(Dram(npu.View()), j)
      invariant SameOutside(Dram(d0), Dram(npu.View()), S_CTX, S_MASK_TABLE)
    {
      ghost var before := Dram(npu.View());
      FillPatterns();
      SendVRd(npu, MEM_FILL, 0);
      assert npu.pipeline.value == Zeros(4);
      StoreQuad(npu.c, npu.View(), S_CTX + i * MODEL_DIM);
      SendVWrDram(npu, S_CTX + i * MODEL_DIM);
      AfterClear(before, Dram(npu.View()), sl, i);
      SameOutsideTrans(Dram(d0), before, Dram(npu.View()), S_CTX, S_MASK_TABLE);
      i := i + 1;
    }
  }

  lemma RowsAfterQuery(a: Vec, b: Vec, pr: Problem, q: nat)
    requires pr.Valid() && q < pr.Len() && |a| == DRAM_LEN && SameButRow(a, b, q)
    ensures forall i :: 0 <= i < pr.Len() && i != q && ContextDone(pr, a, i) ==> ContextDone(pr, b, i)
    ensures forall i :: 0 <= i < pr.Len() && i != q && RowZero(a, i) ==> RowZero(b, i)
    ensures SameOutside(a, b, S_CTX, S_MASK_TABLE)
  {
    forall i | 0 <= i < pr.Len() && i != q
      ensures Quad(b, S_CTX + i * MODEL_DIM) == Quad(a, S_CTX + i * MODEL_DIM)
    {
    }
  }

  method Attend(npu: NpuDeviceMini, ghost pr: Problem, sl: nat, nt: nat)
    modifies npu
    requires Ready(npu.c, npu.View()) && pr.Valid() && sl == pr.Len() && nt == Tiles(sl) && npu.c.k.exp == pr.exp
    requires Prefilled(Dram(npu.View()), pr) && npu.spuSrf[6] == Fin(pr.scale)
    requires forall i :: 0 <= i < sl ==> RowZero(Dram(npu.View()), i)
    ensures Ready(npu.c, npu.View()) && Kept(old(npu.View()), npu.View())
    ensures forall i :: 0 <= i < sl ==> ContextDone(pr, Dram(npu.View()), i)
    ensures SameOutside(old(Dram(npu.View())), Dram(npu.View()), S_CTX, S_MASK_TABLE)
  {
    hide RowZero, ContextDone, SameButRow, RowsFilled, MasksFilled, ValuesFilled, TopScore;
    ghost var d0 := npu.View();
    var q := 0;
    while q < sl
      invariant q <= sl && Ready(npu.c, npu.View()) && Kept(d0, npu.View())
      invariant npu.spuSrf[6] == Fin(pr.scale)
      invariant forall i :: 0 <= i < q ==> ContextDone(pr, Dram(npu.View()), i)
      invariant forall i :: q <= i < sl ==> RowZero(Dram(npu.View()), i)
      invariant Prefilled(Dram(npu.View()), pr)
      invariant SameOutside(Dram(d0), Dram(npu.View()), S_CTX, S_MASK_TABLE)
    {
      ghost var before := Dram(npu.View());
      Query(npu, pr, sl, nt, q);
      RowsAfterQuery(before, Dram(npu.View()), pr, q);
      PrefilledKept(before, Dram(npu.View()), pr);
      q := q + 1;
    }
  }

  /** The firmware's mvm: a 4 by 4 matrix and a vector from DRAM, the product left in the pipeline
      and the multiply bank. */
  method Mvm(npu: NpuDeviceMini, mat: nat, vec: nat)
    modifies npu
    requires Ready(npu.c, npu.View()) && mat + 16 <= DRAM_LEN && vec + 4 <= DRAM_LEN
    ensures Ready(npu.c, npu.View()) && Kept(old(npu.View()), npu.View())
    ensures npu.spuSrf == old(npu.spuSrf) && Dram(npu.View()) == old(Dram(npu.View()))
    ensures npu.pipeline.Some? && |npu.pipeline.value| == 4
    ensures forall i :: 0 <= i < 4 ==>
      npu.pipeline.value[i] == Dot(Quad(Dram(npu.View()), mat + i * 4), Quad(Dram(npu.View()), vec), 4)
  {
    hide MatVec4, MvMul, VWr, VRd, VRdDram, MRd;
    LoadTile(npu, mat);
    MultiplyStored(npu, vec);
    Products(npu.mrf, Dram(npu.View()), mat, vec, npu.pipeline.value);
  }

  lemma Products(m: Matrix, dram: Vec, mat: nat, vec: nat, y: Vec)
    requires mat + 16 <= |dram| && vec + 4 <= |dram| && |m| == 4 && y == MatVec4(m, Quad(dram, vec))
    requires forall i :: 0 <= i < 4 ==> m[i] == Quad(dram, mat + i * 4)
    ensures forall i :: 0 <= i < 4 ==> y[i] == Dot(Quad(dram, mat + i * 4), Quad(dram, vec), 4)
  {
    hide Dot, Quad;
  }

  /** M_RD_DRAM of a four by four matrix. */
  method LoadTile(npu: NpuDeviceMini, mat: nat)
    modifies npu
    requires Ready(npu.c, npu.View()) && mat + 16 <= DRAM_LEN
    ensures Ready(npu.c, npu.View()) && Kept(old(npu.View()), npu.View())
    ensures npu.spuSrf == old(npu.spuSrf) && Dram(npu.View()) == old(Dram(npu.View()))
    ensures |npu.mrf| == 4 && forall i :: 0 <= i < 4 ==> npu.mrf[i] == Quad(Dram(npu.View()), mat + i * 4)
  {
    SendMRdDram(npu, mat);
    forall i | 0 <= i < 4
      ensures |npu.mrf| == 4 && npu.mrf[i] == Quad(Dram(npu.View()), mat + i * 4)
    {
      assert RowStart(i, 4) == i * 4;
    }
    SendMWr(npu);
  }

  /** Load a vector, multiply it with the matrix register and keep the product in the multiply bank. */
  method MultiplyStored(npu: NpuDeviceMini, vec: nat)
    modifies npu
    requires Ready(npu.c, npu.View()) && vec + 4 <= DRAM_LEN && |npu.mrf| == 4
    ensures Ready(npu.c, npu.View()) && Kept(old(npu.View()), npu.View()) && npu.mrf == old(npu.mrf)
    ensures npu.spuSrf == old(npu.spuSrf) && Dram(npu.View()) == old(Dram(npu.View()))
    ensures npu.pipeline == Some(MatVec4(npu.mrf, Quad(Dram(npu.View()), vec)))
  {
    hide MatVec4, Quad;
    LoadQuad(npu.c, npu.View(), vec);
    SendVRdDram(npu, vec);
    StoreThenWindowExact(npu.c, npu.View(), MEM_MVM_INITIAL_VRF);
    SendVWr(npu, MEM_MVM_INITIAL_VRF, 0);
    SendVRd(npu, MEM_MVM_INITIAL_VRF, 0);
    MvMul4(npu.c, npu.View());
    SendMvMul(npu);
    StoreThenWindowExact(npu.c, npu.View(), MEM_MULTIPLY_VRF);
    SendVWr(npu, MEM_MULTIPLY_VRF, 0);
  }

  function Projected(pr: Problem, i: nat): (r: Row)
    requires pr.Valid() && i < pr.Len()
    ensures forall d :: 0 <= d < MODEL_DIM ==> r[d] == DotR(pr.wqT[d], Context(pr, i), MODEL_DIM)
  {
    seq(MODEL_DIM, d requires 0 <= d < MODEL_DIM => DotR(pr.wqT[d], Context(pr, i), MODEL_DIM))
  }

  ghost predicate ProjectionDone(pr: Problem, dram: Vec, i: nat)
    requires pr.Valid() && i < pr.Len()
  {
    |dram| == DRAM_LEN && Quad(dram, S_ATTN_OUT + i * MODEL_DIM) == FinRow(Projected(pr, i))
  }

  lemma ProjectedLanes(pr: Problem, dram: Vec, i: nat, p: Vec)
    requires pr.Valid() && i < pr.Len() && |dram| == DRAM_LEN
    requires RowsFilled(dram, pr) && ContextDone(pr, dram, i) && |p| == 4
    requires forall d :: 0 <= d < 4 ==>
               p[d] == Dot(Quad(dram, ADDR_W_Q_T + d * 4), Quad(dram, S_CTX + i * MODEL_DIM), 4)
    ensures p == FinRow(Projected(pr, i))
  {
    hide Dot, DotR, Context, Quad;
    forall d | 0 <= d < MODEL_DIM ensures p[d] == Fin(Projected(pr, i)[d]) {
      DotOfReals(Quad(dram, ADDR_W_Q_T + d * 4), Quad(dram, S_CTX + i * MODEL_DIM), pr.wqT[d], Context(pr, i), 4);
    }
  }

  method ProjectRow(npu: NpuDeviceMini, ghost pr: Problem, i: nat)
    modifies npu
    requires Ready(npu.c, npu.View()) && pr.Valid() && i < pr.Len()
    requires RowsFilled(Dram(npu.View()), pr) && ContextDone(pr, Dram(npu.View()), i)
    ensures Ready(npu.c, npu.View()) && Kept(old(npu.View()), npu.View())
    ensures Dram(npu.View()) == Overlay(old(Dram(npu.View())), S_ATTN_OUT + i * MODEL_DIM, FinRow(Projected(pr, i)))
  {
    hide Projected, ContextDone, RowsFilled, Dot, Quad, FinRow;
    ghost var dram := Dram(npu.View());
    Mvm(npu, ADDR_W_Q_T, S_CTX + i * MODEL_DIM);
    ProjectedLanes(pr, dram, i, npu.pipeline.value);
    StoreQuad(npu.c, npu.View(), S_ATTN_OUT + i * MODEL_DIM);
    SendVWrDram(npu, S_ATTN_OUT + i * MODEL_DIM);
    SendVRd(npu, MEM_FILL, 0);
  }

  lemma AfterProjection(a: Vec, b: Vec, pr: Problem, i: nat)
    requires pr.Valid() && i < pr.Len() && |a| == DRAM_LEN
    requires b == Overlay(a, S_ATTN_OUT + i * MODEL_DIM, FinRow(Projected(pr, i)))
    ensures ProjectionDone(pr, b, i) && SameOutside(a, b, S_CTX, S_MASK_TABLE)
    ensures forall j :: 0 <= j < pr.Len() && ContextDone(pr, a, j) ==> ContextDone(pr, b, j)
    ensures forall j :: 0 <= j < i && ProjectionDone(pr, a, j) ==> ProjectionDone(pr, b, j)
  {
    hide Projected, Context;
    StoredRow(a, b, S_ATTN_OUT + i * MODEL_DIM, FinRow(Projected(pr, i)));
  }

  method ProjectAll(npu: NpuDeviceMini, ghost pr: Problem, sl: nat)
    modifies npu
    requires Ready(npu.c, npu.View()) && pr.Valid() && sl == pr.Len() && RowsFilled(Dram(npu.View()), pr)
    requires forall i :: 0 <= i < sl ==> ContextDone(pr, Dram(npu.View()), i)
    ensures Ready(npu.c, npu.View()) && Kept(old(npu.View()), npu.View())
    ensures forall i :: 0 <= i < sl ==> ProjectionDone(pr, Dram(npu.View()), i)
    ensures SameOutside(old(Dram(npu.View())), Dram(npu.View()), S_CTX, S_MASK_TABLE)
  {
    hide Projected, RowsFilled, ContextDone, ProjectionDone;
    ghost var d0 := npu.View();
    var i := 0;
    while i < sl
      invariant i <= sl && Ready(npu.c, npu.View()) && Kept(d0, npu.View())
      invariant forall j :: 0 <= j < sl ==> ContextDone(pr, Dram(npu.View()), j)
      invariant forall j :: 0 <= j < i ==> ProjectionDone(pr, Dram(npu.View()), j)
      invariant RowsFilled(Dram(npu.View()), pr)
      invariant SameOutside(Dram(d0), Dram(npu.View()), S_CTX, S_MASK_TABLE)
    {
      ghost var before := Dram(npu.View());
      ProjectRow(npu, pr, i);
      AfterProjection(before, Dram(npu.View()), pr, i);
      SameOutsideTrans(Dram(d0), before, Dram(npu.View()), S_CTX, S_MASK_TABLE);
      RowsKept(before, Dram(npu.View()), pr);
      i := i + 1;
    }
  }

  /** Residual row i is in place. */
  ghost predicate ResidualDone(pr: Problem, dram: Vec, i: nat)
    requires pr.Valid() && i < pr.Len()
  {
    |dram| == DRAM_LEN &&
    forall d :: 0 <= d < MODEL_DIM ==> Quad(dram, S_ATTN_RES + i * MODEL_DIM)[d] == Fin(AttnResidual(pr, i, d))
  }

  method ResidualRow(npu: NpuDeviceMini, ghost pr: Problem, i: nat)
    modifies npu
    requires Ready(npu.c, npu.View()) && pr.Valid() && i < pr.Len()
    requires RowsFilled(Dram(npu.View()), pr) && ProjectionDone(pr, Dram(npu.View()), i)
    ensures Ready(npu.c, npu.View()) && Kept(old(npu.View()), npu.View())
    ensures ResidualDone(pr, Dram(npu.View()), i)
    ensures npu.pipeline.Some? && |npu.pipeline.value| == 4
    ensures Dram(npu.View()) == Overlay(old(Dram(npu.View())), S_ATTN_RES + i * MODEL_DIM, npu.pipeline.value)
  {
    hide Context, DotR;
    ghost var dram := Dram(npu.View());
    LoadQuad(npu.c, npu.View(), S_X + i * MODEL_DIM);
    SendVRdDram(npu, S_X + i * MODEL_DIM);
    LoadQuad(npu.c, npu.View(), S_ATTN_OUT + i * MODEL_DIM);
    SendVRdDram(npu, S_ATTN_OUT + i * MODEL_DIM);
    SendVV(npu, OP_VV_ADD);
    assert forall d :: 0 <= d < MODEL_DIM ==> npu.pipeline.value[d] == Fin(AttnResidual(pr, i, d));
    StoreQuad(npu.c, npu.View(), S_ATTN_RES + i * MODEL_DIM);
    SendVWrDram(npu, S_ATTN_RES + i * MODEL_DIM);
    StoredRow(dram, Dram(npu.View()), S_ATTN_RES + i * MODEL_DIM, npu.pipeline.value);
  }

  lemma AfterResidual(a: Vec, b: Vec, pr: Problem, i: nat, v: Vec)
    requires pr.Valid() && i < pr.Len() && |a| == DRAM_LEN && |v| == 4 && b == Overlay(a, S_ATTN_RES + i * MODEL_DIM, v)
    ensures SameOutside(a, b, S_CTX, S_MASK_TABLE)
    ensures forall j :: 0 <= j < pr.Len() && ProjectionDone(pr, a, j) ==> ProjectionDone(pr, b, j)
    ensures forall j :: 0 <= j < i && ResidualDone(pr, a, j) ==> ResidualDone(pr, b, j)
  {
    hide Projected, AttnResidual;
    StoredRow(a, b, S_ATTN_RES + i * MODEL_DIM, v);
  }

  method AddResiduals(npu: NpuDeviceMini, ghost pr: Problem, sl: nat)
    modifies npu
    requires Ready(npu.c, npu.View()) && pr.Valid() && sl == pr.Len() && RowsFilled(Dram(npu.View()), pr)
    requires forall i :: 0 <= i < sl ==> ProjectionDone(pr, Dram(npu.View()), i)
    ensures Ready(npu.c, npu.View()) && Kept(old(npu.View()), npu.View())
    ensures forall i :: 0 <= i < sl ==> ResidualDone(pr, Dram(npu.View()), i)
    ensures SameOutside(old(Dram(npu.View())), Dram(npu.View()), S_CTX, S_MASK_TABLE)
  {
    hide RowsFilled, ProjectionDone, ResidualDone;
    ghost var d0 := npu.View();
    var i := 0;
    while i < sl
      invariant i <= sl && Ready(npu.c, npu.View()) && Kept(d0, npu.View())
      invariant forall j :: 0 <= j < sl ==> ProjectionDone(pr, Dram(npu.View()), j)
      invariant forall j :: 0 <= j < i ==> ResidualDone(pr, Dram(npu.View()), j)
      invariant RowsFilled(Dram(npu.View()), pr)
      invariant SameOutside(Dram(d0), Dram(npu.View()), S_CTX, S_MASK_TABLE)
    {
      ghost var before := Dram(npu.View());
      ResidualRow(npu, pr, i);
      AfterResidual(before, Dram(npu.View()), pr, i, npu.pipeline.value);
      SameOutsideTrans(Dram(d0), before, Dram(npu.View()), S_CTX, S_MASK_TABLE);
      RowsKept(before, Dram(npu.View()), pr);
      i := i + 1;
    }
  }

  /** What the device must look like before phase 1; the tile registers are the firmware's to set. */
  ghost predicate Bootable(c: Config, d: Device)
  {
    Ready(c, d.(regs := d.regs[REG_TILE_ROWS := 1]))
  }

  function Distance(a: int, b: int): int
  {
    if a < b then b - a else a - b
  }

  /** len positions fit the memory layout, and no number of positions that does is nearer to the one asked for. */
  ghost predicate Served(seqLen: nat, len: nat)
  {
    1 <= len <= MAX_SEQ && forall n :: 1 <= n <= MAX_SEQ ==> Distance(seqLen, len) <= Distance(seqLen, n)
  }

  /** The firmware's two corrections of the sequence length. */
  method ServedLength(seqLen: nat) returns (sl: nat)
    ensures forall len: nat :: Served(seqLen, len) ==> sl == len
    ensures 1 <= sl <= MAX_SEQ && (1 <= seqLen <= MAX_SEQ ==> sl == seqLen)
    ensures (seqLen == 0 ==> sl == 1) && (seqLen > MAX_SEQ ==> sl == MAX_SEQ)
  {
    sl := seqLen;
    if sl == 0 { sl := 1; }
    if sl > MAX_SEQ { sl := MAX_SEQ; }
    assert Distance(seqLen, sl) <= Distance(seqLen, 1);
  }

  /** Phase 1 leaves, at the residual row of every position asked for, exactly X + W_q^T (causal attention), and
      changes DRAM only between the context rows and the mask table. */
  method Phase1(npu: NpuDeviceMini, ghost pr: Problem)
    modifies npu
    requires Bootable(npu.c, npu.View()) && pr.Valid() && Served(npu.seqLen, pr.Len()) && npu.c.k.exp == pr.exp
    requires Prefilled(Dram(npu.View()), pr) && npu.spuSrf[6] == Fin(pr.scale)
    ensures !npu.fault && MEM_DRAM in npu.vrf && npu.seqLen == old(npu.seqLen)
    ensures forall i :: 0 <= i < MAX_SEQ && (i < npu.seqLen || i == 0) ==>
      i < pr.Len() && ResidualDone(pr, Dram(npu.View()), i)
    ensures SameOutside(old(Dram(npu.View())), Dram(npu.View()), S_CTX, S_MASK_TABLE)
  {
    hide RowZero, ContextDone, ProjectionDone, ResidualDone, RowsFilled, MasksFilled, ValuesFilled, Served;
    ghost var d0 := Dram(npu.View());
    var sl := ServedLength(npu.seqLen);
    var nt := Tiles(sl);
    SendSWr(npu, REG_TILE_ROWS, 1);
    SendSWr(npu, REG_TILE_COLS, 1);
    SendSWr(npu, REG_ITERATIONS, 1);
    ClearContexts(npu, sl);
    PrefilledKept(d0, Dram(npu.View()), pr);
    Attend(npu, pr, sl, nt);
    RowsKept(d0, Dram(npu.View()), pr);
    ProjectAll(npu, pr, sl);
    RowsKept(d0, Dram(npu.View()), pr);
    AddResiduals(npu, pr, sl);
  }

  /** The residual rows are those of the NumPy reference as well. */
  lemma ResidualIsGolden(pr: Problem, dram: Vec, i: nat, d: nat)
    requires pr.Valid() && i < pr.Len() && d < MODEL_DIM && ResidualDone(pr, dram, i)
    ensures dram[S_ATTN_RES + i * MODEL_DIM + d] == GoldenResidual(pr, i, d)
  {
    GoldenIsCausalAttention(pr, i, d);
    assert Quad(dram, S_ATTN_RES + i * MODEL_DIM)[d] == dram[S_ATTN_RES + i * MODEL_DIM + d];
  }
}
