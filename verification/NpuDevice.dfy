/** The device object: handlers that update its fields in place, each proved against the
    function of the same name on the device value.
 */
module NpuDevice {
  import opened Arithmetic
  import opened Numbers
  import opened D = Device

  class NpuDeviceMini {
    const c: Config
    var pipeline: Option<Vec>
    var vpipeA: Option<Vec>
    var vrf: map<nat, Vec>
    var mrf: Matrix
    var rowBuffer: seq<Vec>
    var spuSrf: Vec
    var regs: map<nat, nat>
    var dramAddr: nat
    var traffic: Traffic
    var seqLen: nat
    var fault: bool

    /** The device value this object holds. */
    function View(): Device
      reads this
    {
      Device(pipeline, vpipeA, vrf, mrf, rowBuffer, spuSrf, regs, dramAddr, traffic, seqLen, fault)
    }

    constructor (config: Config)
      ensures c == config && View() == Initial(config)
    {
      c := config;
      pipeline, vpipeA := None, None;
      vrf := map b | b in BankSizes() :: Zeros(BankSizes()[b]);
      mrf := Initial(config).mrf;
      rowBuffer, spuSrf, regs, dramAddr := [], Zeros(SRF_LEN), map[], 0;
      traffic, seqLen, fault := Traffic(0, 0, 0, 0, 0, 0, 0, 0), 1, false;
    }

    method LoadPipeline(v: Vec)
      modifies this
      ensures View() == Load(old(View()), v)
    {
      if pipeline.Some? { vpipeA := pipeline; }
      pipeline := Some(v);
    }

    method VRd(bank: nat, addr: nat)
      modifies this
      ensures View() == D.VRd(c, old(View()), bank, addr)
    {
      if bank == MEM_FILL {
        LoadPipeline(Const(c.dim, DecodeFp16(addr)));
      } else if bank == MEM_SPU_BROADCAST {
        LoadPipeline(Const(c.dim, if addr < |spuSrf| then spuSrf[addr] else ZERO));
      } else if bank in vrf {
        LoadPipeline(Window(c, vrf[bank], addr));
      }
    }

    method VRdDram(addr: nat)
      modifies this
      ensures View() == D.VRdDram(c, old(View()), addr)
    {
      if MEM_DRAM !in vrf { return; }
      var dram := vrf[MEM_DRAM];
      var n := Fit(c, dram, addr);
      var rmask := Reg(View(), REG_READ_VECTOR_MASK, 0xFF);
      if !c.fp32 && n > 0 {
        traffic := traffic.(vecRdElements := traffic.vecRdElements + n, vecRdOps := traffic.vecRdOps + 1);
      }
      var p := Zeros(c.dim);
      for i := 0 to n
        invariant |p| == c.dim
        invariant forall j :: 0 <= j < c.dim ==>
          p[j] == if j < i && (c.fp32 || Bit(rmask, j)) then Rnd(c, dram[addr + j]) else ZERO
      {
        if c.fp32 || Bit(rmask, i) { p := p[i := Rnd(c, dram[addr + i])]; }
      }
      assert p == MaskedWindow(c, dram, addr, rmask);
      LoadPipeline(p);
    }

    method VWr(bank: nat, addr: nat)
      modifies this
      ensures View() == D.VWr(c, old(View()), bank, addr)
    {
      if pipeline.None? { return; }
      var p := pipeline.value;
      if bank == MEM_VEC_TO_MAT_ROW {
        rowBuffer := rowBuffer + [p];
      } else if bank == MEM_SPU_ADD_REDUCE {
        if addr < |spuSrf| { spuSrf := spuSrf[addr := Add(Sum(p, |p|), spuSrf[addr])]; }
      } else if bank == MEM_SPU_MAX_REDUCE || bank == MEM_SPU_ABSMAX_REDUCE {
        if addr < |spuSrf| {
          if |p| == 0 {
            fault := true;
          } else {
            var data := if bank == MEM_SPU_MAX_REDUCE then p else Map(Abs, p);
            spuSrf := spuSrf[addr := PyMax(NpMax(data, |data|), spuSrf[addr])];
          }
        }
      } else {
        VWrBank(bank, addr);
      }
    }

    method VWrBank(bank: nat, addr: nat)
      requires pipeline.Some?
      modifies this
      ensures View() == D.VWrBank(c, old(View()), bank, addr)
    {
      var p := pipeline.value;
      if bank !in vrf { vrf := vrf[bank := Zeros(c.dim * 8)]; }
      var before := vrf[bank];
      var wmask := Reg(View(), REG_WRITE_VECTOR_MASK, 0xFF);
      var v, raised := StoreInto(before, addr, p, wmask);
      vrf := vrf[bank := v];
      if raised { fault := true; }
    }

    /** The lanes of a store: on the FP16 device a selected lane the pipeline does not have raises. */
    method StoreInto(before: Vec, addr: nat, pipe: Vec, wmask: nat) returns (v: Vec, raised: bool)
      ensures (v, raised) == StoreLanes(c, before, addr, pipe, wmask)
    {
      var n, p := Fit(c, before, addr), pipe;
      if c.fp32 && n > |p| {
        if |p| != 1 { return before, true; }
        p := Const(n, p[0]);
      }
      v, raised := before, false;
      for i := 0 to n
        invariant |v| == |before| && i <= n
        invariant i > |p| ==> !LaneSelected(wmask, |p|, i)
        invariant forall k :: 0 <= k < |v| ==>
          v[k] == if addr <= k < addr + i && k - addr < |p| && (c.fp32 || Bit(wmask, k - addr)) then Rnd(c, p[k - addr])
                  else before[k]
      {
        if c.fp32 || Bit(wmask, i) {
          if i >= |p| {
            raised := true;
            assert v == MaskedStore(c, before, addr, p, |p|, wmask);
            return;
          }
          v := v[addr + i := Rnd(c, p[i])];
        }
      }
      assert v == MaskedStore(c, before, addr, p, if n <= |p| then n else |p|, wmask);
    }

    method VWrDram(addr: nat)
      modifies this
      ensures View() == D.VWrDram(c, old(View()), addr)
    {
      if MEM_DRAM !in vrf || pipeline.None? { return; }
      var dram := vrf[MEM_DRAM];
      var n := Min(Fit(c, dram, addr), |pipeline.value|);
      if n > 0 {
        if !c.fp32 {
          traffic := traffic.(vecWrElements := traffic.vecWrElements + n, vecWrOps := traffic.vecWrOps + 1);
        }
        vrf := vrf[MEM_DRAM := Overlay(dram, addr, RndVec(c, pipeline.value[..n]))];
      }
    }

    method MRd(opd0: nat, full: nat)
      modifies this
      ensures View() == D.MRd(c, old(View()), opd0, full)
    {
      if opd0 == MEM_VEC_TO_MAT_ROW {
        var n := c.dim;
        var mat: seq<Vec> := seq(n, i => Zeros(n));
        var cut := Min(n, |rowBuffer|);
        for i := 0 to cut
          invariant |mat| == n
          invariant forall j :: 0 <= j < n ==> mat[j] == if j < i then PadRow(rowBuffer[j], n) else Zeros(n)
        {
          mat := mat[i := PadRow(rowBuffer[i], n)];
        }
        assert mat == RowsToMatrix(rowBuffer, n);
        mrf, rowBuffer := mat, [];
      } else if MEM_DRAM in vrf && full < |vrf[MEM_DRAM]| {
        var n := Reg(View(), REG_TILE_ROWS, 1) * c.dim;
        if full + n * n <= |vrf[MEM_DRAM]| {
          if !c.fp32 {
            traffic := traffic.(matRdElements := traffic.matRdElements + n * n, matRdOps := traffic.matRdOps + 1);
          }
          mrf := MatrixAt(c, vrf[MEM_DRAM], full, n);
        }
      }
    }

    method MWrDram(full: nat)
      modifies this
      ensures View() == D.MWrDram(c, old(View()), full)
    {
      var flat := Flatten(c, mrf, |mrf|);
      if MEM_DRAM in vrf && full + |flat| <= |vrf[MEM_DRAM]| {
        traffic := traffic.(matWrElements := traffic.matWrElements + |flat|, matWrOps := traffic.matWrOps + 1);
        vrf := vrf[MEM_DRAM := Overlay(vrf[MEM_DRAM], full, flat)];
      }
    }

    /** The mv_mul kernel without accumulation: one running sum a row. */
    method MvMulKernel(m: Matrix, x: Vec, cols: nat) returns (y: Vec)
      requires cols <= |m| && cols <= |x|
      ensures |y| == |m| && forall i :: 0 <= i < |m| ==> y[i] == KernelDot(m, x, i, cols, cols)
    {
      hide FlatAt, Add, Mul;
      y := Zeros(|m|);
      for r := 0 to |m|
        invariant |y| == |m|
        invariant forall i :: 0 <= i < r ==> y[i] == KernelDot(m, x, i, cols, cols)
      {
        var sum := ZERO;
        for j := 0 to cols
          invariant sum == KernelDot(m, x, r, cols, j)
        {
          sum := Add(sum, Mul(FlatAt(m, r, cols, j), x[j]));
        }
        y := y[r := sum];
      }
    }

    method MvMul()
      modifies this
      ensures View() == D.MvMul(c, old(View()))
    {
      vpipeA := None;
      if pipeline.Some? {
        var masked := MaskedMatrix(mrf, Reg(View(), REG_READ_MATRIX_MASK, 0xFF));
        var y := MvMulKernel(masked, pipeline.value, Min(|pipeline.value|, |masked|));
        assert RndVec(c, y) == MatVec(c, masked, pipeline.value);
        pipeline := Some(RndVec(c, y));
      }
    }

    method VV(op: nat)
      modifies this
      ensures View() == D.VV(c, old(View()), op)
    {
      if vpipeA.Some? && pipeline.Some? {
        pipeline := Some(Lanes(c, op, vpipeA.value, pipeline.value));
      }
      vpipeA := None;
    }

    method FinishActivation(r: Vec)
      modifies this
      ensures View() == D.FinishActivation(c, old(View()), r)
    {
      vpipeA := None;
      pipeline := Some(RndVec(c, r));
      if !c.fp32 && MEM_MVM_INITIAL_VRF in vrf {
        var ivrf := vrf[MEM_MVM_INITIAL_VRF];
        vrf := vrf[MEM_MVM_INITIAL_VRF := Overlay(ivrf, 0, pipeline.value[..Min(|ivrf|, |pipeline.value|)])];
      }
    }

    method VActivation(op: nat)
      modifies this
      ensures View() == D.VActivation(c, old(View()), op)
    {
      vpipeA := None;
      if pipeline.Some? { FinishActivation(ActivateVec(c, op, pipeline.value)); }
    }

    method VFunc(sub: nat)
      modifies this
      ensures View() == D.VFunc(c, old(View()), sub)
    {
      if sub != SUB_SOFTMAX && sub != SUB_LAYERNORM { return; }
      vpipeA := None;
      if pipeline.None? { return; }
      var p := pipeline.value;
      if sub == SUB_SOFTMAX {
        FinishActivation(SoftmaxVec(c, p));
      } else {
        var gamma := Prefix(View(), MEM_MVM_INITIAL_VRF, Fin(1.0), |p|);
        var beta := Prefix(View(), MEM_ADDSUB_VRF_0, ZERO, |p|);
        FinishActivation(LayernormVec(c, p, gamma, beta));
      }
    }

    method SpuFunc(op: nat, opd0: nat, opd1: nat)
      modifies this
      ensures View() == D.SpuFunc(c, old(View()), op, opd0, opd1)
    {
      var src, dst := opd1 % 64, opd0 % 64;
      var val := if src < |spuSrf| then spuSrf[src] else ZERO;
      var result;
      if op == OP_S_RECIP {
        result := Recip(val);
      } else if op == OP_S_SQRT {
        result := if Less(val, ZERO) then NaN else c.k.sqrt(val);
      } else {
        result := Mul(if dst < |spuSrf| then spuSrf[dst] else ZERO, val);
      }
      if dst < |spuSrf| { spuSrf := spuSrf[dst := result]; }
    }

    method ExecuteBase(op: nat, opd0: nat, opd1: nat, full: nat)
      modifies this
      ensures View() == D.ExecuteBase(c, old(View()), op, opd0, opd1, full)
    {
      if op == OP_S_WR { regs := regs[opd0 := opd1]; }
      else if op == OP_V_RD { VRd(opd0, opd1); }
      else if op == OP_V_RD_DRAM { VRdDram(full); }
      else if op == OP_M_RD || op == OP_M_RD_DRAM { MRd(opd0, full); }
      else if op == OP_V_WR { VWr(opd0, opd1); }
      else if op == OP_V_WR_DRAM { VWrDram(full); }
      else if op == OP_M_WR_DRAM { MWrDram(full); }
      else if op == OP_MV_MUL { MvMul(); }
      else if IsVV(op) { VV(op); }
      else if IsActivation(op) { VActivation(op); }
      else if op == OP_V_FUNC { VFunc(opd0); }
      else if IsSpuFunc(op) { SpuFunc(op, opd0, opd1); }
    }

    method Execute(op: nat, opd0: nat, opd1: nat, full: nat)
      modifies this
      requires !fault
      ensures View() == D.Execute(c, old(View()), op, opd0, opd1, full)
    {
      hide D.ExecuteBase;
      match IncBase(op)
      case None => ExecuteBase(op, opd0, opd1, full);
      case Some(base) =>
        var count, start := IncCount(View()), dramAddr;
        ghost var all := ExecuteInc(c, View(), base, opd0, start, opd1, count);
        var v := 0;
        var addr: nat := start;
        while v < count && !fault
          invariant v <= count
          invariant all == ExecuteInc(c, View(), base, opd0, addr, opd1, count - v)
        {
          ExecuteBase(base, opd0, 0, addr);
          v, addr := v + 1, addr + opd1;
        }
        if !fault { dramAddr := start + count * opd1; }
    }

    method PushInstruction(inst: nat)
      modifies this
      requires !fault
      ensures View() == Push(c, old(View()), inst)
    {
      var op := inst / 0x1000000 % 0x100;
      Execute(op, inst / 0x10000 % 0x100, inst % 0x10000, if op >= 20 then inst % 0x1000000 else 0);
    }

    /** CPU store of a non-zero value to the reset register. */
    method ResetDevice()
      modifies this
      ensures View() == Reset(old(View()))
    {
      hide BankSizes;
      var d := View();
      regs := map[];
      vrf := map b | b in d.vrf.Keys + BankSizes().Keys :: ResetBank(d, b);
      mrf := ZeroMatrix(|mrf|);
      pipeline, vpipeA, rowBuffer := None, None, [];
    }

    /** CPU store of one float through the SRF window of the MMIO map. */
    method StoreSrf(idx: nat, x: Num)
      modifies this
      ensures View() == old(View()).(srf := if idx < |old(spuSrf)| then old(spuSrf)[idx := x] else old(spuSrf))
    {
      if idx < |spuSrf| { spuSrf := spuSrf[idx := x]; }
    }

    // The firmware's two send macros.

    method SendSI(op: nat, opd0: nat, opd1: nat)
      modifies this
      requires !fault && op < 0x100 && opd0 < 0x100 && opd1 < 0x10000
      ensures View() == D.Execute(c, old(View()), op, opd0, opd1, if op >= 20 then opd0 * 0x10000 + opd1 else 0)
    {
      DecodeSI(c, View(), op, opd0, opd1);
      PushInstruction(SI(op, opd0, opd1));
    }

    method SendLO(op: nat, adr: nat)
      modifies this
      requires !fault && 20 <= op < 0x100 && adr < 0x1000000
      ensures View() == D.Execute(c, old(View()), op, adr / 0x10000, adr % 0x10000, adr)
    {
      DecodeLO(c, View(), op, adr);
      PushInstruction(LO(op, adr));
    }
  }
}
