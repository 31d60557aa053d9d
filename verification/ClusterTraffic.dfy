/** The byte counts of a cluster against the counters of the FP16 device. */
module ClusterTraffic {
  import opened D = Device
  import opened Numbers
  import opened EventTrace
  import opened MicroOps
  import opened DagDevice
  import C = Clusters

  /** Two bytes an element. */
  const BYTES := 2

  lemma OnlyAddress(a: nat)
    ensures DramOnly([DRAM(a)]) == [DRAM(a)] && C.DramCount([DRAM(a)]) == 1
  {
    assert [DRAM(a)][1..] == [];
  }

  lemma {:induction false} KnownOne(a: nat, s: C.Shape)
    requires C.ShapeOk(s)
    ensures C.KnownCount([DRAM(a)], s) == if C.Classify(a, s.numTiles, s.dim).0 == C.UNKNOWN_REGION then 0 else 1
  {
    hide C.Classify;
    assert [DRAM(a)][1..] == [];
  }

  lemma {:induction false} OneRegion(a: nat, s: C.Shape)
    requires C.ShapeOk(s)
    ensures var r := C.Classify(a, s.numTiles, s.dim).0;
            C.Regions([DRAM(a)], s) == if r == C.UNKNOWN_REGION then {} else {r}
  {
    hide C.Classify;
    assert [DRAM(a)][1..] == [];
  }

  lemma StepIs(c: Config, d: Device, x: Call)
    ensures x.op == OP_V_RD_DRAM ==> StepCall(c, d, x) == VRdDram(c, d, x.full)
    ensures x.op == OP_M_RD_DRAM ==> StepCall(c, d, x) == MRd(c, d, x.opd0, x.full)
    ensures x.op == OP_V_WR_DRAM ==> StepCall(c, d, x) == VWrDram(c, d, x.full)
  {
    hide SWr, VRd, VRdDram, MRd, VWr, VWrDram, MWrDram, MvMul, VV, VActivation, VFunc, SpuFunc;
  }

  /** A vector load that lies inside DRAM counts the bytes the device moves. */
  lemma LoadBytes(c: Config, d: Device, x: Call, m: MicroOp, s: C.Shape)
    requires !c.fp32 && c.dim >= 1 && C.ShapeOk(s) && s.dim == c.dim && x.op == OP_V_RD_DRAM
    requires MEM_DRAM in d.vrf && x.full + c.dim <= |d.vrf[MEM_DRAM]|
    requires m.kind.DRAM_LOAD? && m.uses == DramOnly(Uses(x))
    ensures C.StatsOf(m, s).load
         == BYTES * (StepCall(c, d, x).traffic.vecRdElements - d.traffic.vecRdElements)
    ensures var r := C.Classify(x.full, s.numTiles, s.dim).0;
            C.StatsOf(m, s).consumed == if r == C.UNKNOWN_REGION then {} else {r}
  {
    OnlyAddress(x.full);
    OneRegion(x.full, s);
    StepIs(c, d, x);
    hide StepCall, MaskedWindow, C.Classify;
  }

  /** A weight tile of one by one tiles counts the bytes the device moves. */
  lemma TileBytes(c: Config, d: Device, x: Call, m: MicroOp, s: C.Shape)
    requires !c.fp32 && c.dim >= 1 && C.ShapeOk(s) && s.dim == c.dim && x.op == OP_M_RD_DRAM
    requires x.opd0 != MEM_VEC_TO_MAT_ROW && Reg(d, REG_TILE_ROWS, 1) == 1
    requires MEM_DRAM in d.vrf && x.full + c.dim * c.dim <= |d.vrf[MEM_DRAM]| && x.full < |d.vrf[MEM_DRAM]|
    requires m.kind.MAT_LOAD? && m.uses == DramOnly(Uses(x))
    ensures C.StatsOf(m, s).load
         == BYTES * (StepCall(c, d, x).traffic.matRdElements - d.traffic.matRdElements)
    ensures C.StatsOf(m, s).consumed == {C.WEIGHT}
  {
    OnlyAddress(x.full);
    StepIs(c, d, x);
    hide StepCall, MatrixAt, C.Classify;
  }

  /** A vector store to a known tensor counts the bytes the device moves; to any other address it counts none. */
  lemma StoreBytes(c: Config, d: Device, x: Call, m: MicroOp, s: C.Shape)
    requires !c.fp32 && c.dim >= 1 && C.ShapeOk(s) && s.dim == c.dim && x.op == OP_V_WR_DRAM
    requires MEM_DRAM in d.vrf && x.full + c.dim <= |d.vrf[MEM_DRAM]|
    requires d.pipe.Some? && |d.pipe.value| >= c.dim
    requires m.kind.DRAM_STORE? && m.defs == DramOnly(Defs(x))
    ensures C.StatsOf(m, s).store ==
      if C.Classify(x.full, s.numTiles, s.dim).0 == C.UNKNOWN_REGION then 0
      else BYTES * (StepCall(c, d, x).traffic.vecWrElements - d.traffic.vecWrElements)
  {
    OnlyAddress(x.full);
    KnownOne(x.full, s);
    StepIs(c, d, x);
    hide StepCall, RndVec, Overlay, C.Classify;
  }

  /** A product counts a multiplication and an addition for every element of the matrix. */
  lemma ProductFlops(c: Config, d: Device, m: MicroOp, s: C.Shape)
    requires C.ShapeOk(s) && |d.mrf| == s.dim && m.kind.K_MV_MUL?
    ensures C.StatsOf(m, s).flops == 2 * |Flatten(c, d.mrf, |d.mrf|)|
  {
    hide C.Classify;
    assert 2 * s.dim * s.dim == 2 * (s.dim * s.dim);
  }

  /** The other counts are so many a lane of the result: two, five, four and one. */
  lemma LaneFlops(c: Config, a: Vec, b: Vec, op: nat, m: MicroOp, s: C.Shape)
    requires C.ShapeOk(s) && |a| == |b| == s.dim
    ensures m.kind.VV_BINOP? ==> C.StatsOf(m, s).flops == 2 * |Lanes(c, op, a, b)|
    ensures m.kind.SOFTMAX? ==> C.StatsOf(m, s).flops == 5 * |SoftmaxVec(c, a)|
    ensures m.kind.LAYERNORM? ==> C.StatsOf(m, s).flops == 4 * |LayernormVec(c, a, b, b)|
    ensures m.kind.V_UNARY? ==> C.StatsOf(m, s).flops == |ActivateVec(c, op, a)|
    ensures m.kind.DRAM_LOAD? || m.kind.DRAM_STORE? || m.kind.MAT_LOAD? || m.kind.VREG_MOVE? ==>
      C.StatsOf(m, s).flops == 0
  {
    hide C.Classify;
  }
}
