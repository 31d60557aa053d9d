/** The firmware's instruction sends, one method an opcode, and the two effects that recur in
    every program: storing the pipeline to a bank and reloading it, and loading DRAM rows.
 */
module Firmware {
  import opened Numbers
  import opened D = Device
  import opened NpuDevice

  method SendVRdDram(npu: NpuDeviceMini, adr: nat)
    modifies npu
    requires !npu.fault && adr < 0x1000000
    ensures npu.View() == VRdDram(npu.c, old(npu.View()), adr)
  {
    npu.SendLO(OP_V_RD_DRAM, adr);
  }

  method SendVWrDram(npu: NpuDeviceMini, adr: nat)
    modifies npu
    requires !npu.fault && adr < 0x1000000
    ensures npu.View() == VWrDram(npu.c, old(npu.View()), adr)
  {
    npu.SendLO(OP_V_WR_DRAM, adr);
  }

  method SendMRdDram(npu: NpuDeviceMini, adr: nat)
    modifies npu
    requires !npu.fault && adr < 0x1000000
    ensures npu.View() == MRd(npu.c, old(npu.View()), adr / 0x10000, adr)
  {
    npu.SendLO(OP_M_RD_DRAM, adr);
  }

  method SendVRd(npu: NpuDeviceMini, bank: nat, addr: nat)
    modifies npu
    requires !npu.fault && bank < 0x100 && addr < 0x10000
    ensures npu.View() == VRd(npu.c, old(npu.View()), bank, addr)
  {
    npu.SendSI(OP_V_RD, bank, addr);
  }

  method SendVWr(npu: NpuDeviceMini, bank: nat, addr: nat)
    modifies npu
    requires !npu.fault && bank < 0x100 && addr < 0x10000
    ensures npu.View() == VWr(npu.c, old(npu.View()), bank, addr)
  {
    npu.SendSI(OP_V_WR, bank, addr);
  }

  method SendMRdRows(npu: NpuDeviceMini)
    modifies npu
    requires !npu.fault
    ensures npu.View() == MRd(npu.c, old(npu.View()), MEM_VEC_TO_MAT_ROW, 0)
  {
    npu.SendSI(OP_M_RD, MEM_VEC_TO_MAT_ROW, 0);
  }

  method SendMWr(npu: NpuDeviceMini)
    modifies npu
    requires !npu.fault
    ensures npu.View() == old(npu.View())
  {
    npu.SendSI(OP_M_WR, MEM_MATRIX_RF, 0);
  }

  method SendMvMul(npu: NpuDeviceMini)
    modifies npu
    requires !npu.fault
    ensures npu.View() == MvMul(npu.c, old(npu.View()))
  {
    npu.SendSI(OP_MV_MUL, 0, 0);
  }

  method SendVV(npu: NpuDeviceMini, op: nat)
    modifies npu
    requires !npu.fault && op < 20 && IsVV(op)
    ensures npu.View() == VV(npu.c, old(npu.View()), op)
  {
    npu.SendSI(op, 0, 0);
  }

  method SendVExp(npu: NpuDeviceMini)
    modifies npu
    requires !npu.fault
    ensures npu.View() == VActivation(npu.c, old(npu.View()), OP_V_EXP)
  {
    npu.SendSI(OP_V_EXP, 0, 0);
  }

  method SendVGelu(npu: NpuDeviceMini)
    modifies npu
    requires !npu.fault
    ensures npu.View() == VActivation(npu.c, old(npu.View()), OP_V_GELU)
  {
    npu.SendSI(OP_V_GELU, 0, 0);
  }

  method SendVSigm(npu: NpuDeviceMini)
    modifies npu
    requires !npu.fault
    ensures npu.View() == VActivation(npu.c, old(npu.View()), OP_V_SIGM)
  {
    npu.SendSI(OP_V_SIGM, 0, 0);
  }

  method SendSoftmax(npu: NpuDeviceMini)
    modifies npu
    requires !npu.fault
    ensures npu.View() == VFunc(npu.c, old(npu.View()), SUB_SOFTMAX)
  {
    npu.SendSI(OP_V_FUNC, SUB_SOFTMAX, 0);
  }

  method SendLayernorm(npu: NpuDeviceMini)
    modifies npu
    requires !npu.fault
    ensures npu.View() == VFunc(npu.c, old(npu.View()), SUB_LAYERNORM)
  {
    npu.SendSI(OP_V_FUNC, SUB_LAYERNORM, 0);
  }

  method SendSRecip(npu: NpuDeviceMini, dst: nat, src: nat)
    modifies npu
    requires !npu.fault && dst < 0x100 && src < 0x10000
    ensures npu.View() == SpuFunc(npu.c, old(npu.View()), OP_S_RECIP, dst, src)
  {
    npu.SendSI(OP_S_RECIP, dst, src);
  }

  method SendSWr(npu: NpuDeviceMini, reg: nat, value: nat)
    modifies npu
    requires !npu.fault && reg < 0x100 && value < 0x10000
    ensures npu.View() == SWr(old(npu.View()), reg, value)
  {
    npu.SendSI(OP_S_WR, reg, value);
  }

  /** A vector mask that selects every lane. */
  ghost predicate FullMask(mask: nat)
  {
    forall i :: 0 <= i < 8 ==> Bit(mask, i)
  }

  lemma FullMaskSelects(mask: nat, i: nat)
    requires FullMask(mask)
    ensures Bit(mask, i)
  {
    assert Bit(mask, i % 8);
  }

  lemma DefaultMaskIsFull()
    ensures FullMask(0xFF)
  {
  }

  /** Banks that V_WR and V_RD treat as plain storage. */
  predicate PlainBank(bank: nat)
  {
    bank != MEM_FILL && bank != MEM_SPU_BROADCAST && bank != MEM_VEC_TO_MAT_ROW && bank != MEM_SPU_ADD_REDUCE &&
    bank != MEM_SPU_MAX_REDUCE && bank != MEM_SPU_ABSMAX_REDUCE
  }

  lemma RndVecExact(c: Config, v: Vec)
    requires c.fp32
    ensures RndVec(c, v) == v
  {
  }

  /** What a full-width store at offset 0 leaves for the next load of the same bank. */
  lemma StoreThenWindow(c: Config, d: Device, bank: nat)
    requires PlainBank(bank) && d.pipe.Some? && |d.pipe.value| >= c.dim
    requires bank in d.vrf && c.dim <= |d.vrf[bank]|
    requires c.fp32 || FullMask(Reg(d, REG_WRITE_VECTOR_MASK, 0xFF))
    ensures var d1 := VWr(c, d, bank, 0);
            d1 == d.(vrf := d.vrf[bank := d1.vrf[bank]]) && |d1.vrf[bank]| == |d.vrf[bank]| &&
            Window(c, d1.vrf[bank], 0) == RndVec(c, RndVec(c, d.pipe.value[..c.dim])) &&
            d1.vrf[bank][..c.dim] == RndVec(c, d.pipe.value[..c.dim])
  {
    var mask := Reg(d, REG_WRITE_VECTOR_MASK, 0xFF);
    var w := VWr(c, d, bank, 0).vrf[bank];
    forall i | 0 <= i < c.dim
      ensures w[i] == Rnd(c, d.pipe.value[i])
    {
      if !c.fp32 { FullMaskSelects(mask, i); }
    }
  }

  /** The same on the exact device: the load returns what was stored. */
  lemma StoreThenWindowExact(c: Config, d: Device, bank: nat)
    requires PlainBank(bank) && d.pipe.Some? && |d.pipe.value| == c.dim && c.fp32
    requires bank in d.vrf && c.dim <= |d.vrf[bank]|
    ensures var d1 := VWr(c, d, bank, 0);
            d1 == d.(vrf := d.vrf[bank := d1.vrf[bank]]) && |d1.vrf[bank]| == |d.vrf[bank]| &&
            Window(c, d1.vrf[bank], 0) == d.pipe.value
  {
    StoreThenWindow(c, d, bank);
    RndVecExact(c, d.pipe.value);
    assert d.pipe.value[..c.dim] == d.pipe.value;
  }

  lemma NothingMasked(m: Matrix, mask: nat)
    requires FullMask(mask)
    ensures MaskedMatrix(m, mask) == m
  {
    var n := |m|;
    forall i | 0 <= i < n ensures !RowMasked(mask, i, n) {
      FullMaskSelects(mask, i / (if n / 8 > 1 then n / 8 else 1));
    }
  }
}
