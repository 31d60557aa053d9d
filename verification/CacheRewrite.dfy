/** Keeping a vector in a bank instead of DRAM scratch: V_WR_DRAM ... V_RD_DRAM against V_WR bank ... V_RD bank. */
module CacheRewrite {
  import opened D = Device
  import opened Arithmetic
  import opened Numbers
  import opened Firmware
  import opened RunInvariant

  /** The DRAM vector that is given up, and the bank that replaces it. */
  datatype Slot = Slot(addr: nat, bank: nat, off: nat)

  /** A bank of plain storage that no instruction reads or writes unless it names it. */
  predicate CacheBank(bank: nat)
  {
    PlainBank(bank) && bank != MEM_DRAM && bank != MEM_MVM_INITIAL_VRF && bank != MEM_ADDSUB_VRF_0
  }

  // ---- The simulation relation ----

  predicate InSlot(c: Config, s: Slot, k: int)
  {
    s.addr <= k < s.addr + c.dim
  }

  ghost predicate SameDram(c: Config, s: Slot, v1: Vec, v2: Vec)
  {
    |v1| == |v2| && forall k :: (0 <= k < |v1| && !InSlot(c, s, k) ==> v1[k] == v2[k])
  }

  ghost predicate SameBanks(c: Config, s: Slot, m1: map<nat, Vec>, m2: map<nat, Vec>)
  {
    MEM_DRAM in m1 && MEM_DRAM in m2 && SameDram(c, s, m1[MEM_DRAM], m2[MEM_DRAM]) &&
    forall b: nat :: b != MEM_DRAM && b != s.bank ==> (b in m1 <==> b in m2) && (b in m1 ==> m1[b] == m2[b])
  }

  function Plus(a: Traffic, b: Traffic): Traffic
  {
    Traffic(a.vecRdElements + b.vecRdElements, a.vecWrElements + b.vecWrElements,
            a.matRdElements + b.matRdElements, a.matWrElements + b.matWrElements,
            a.vecRdOps + b.vecRdOps, a.vecWrOps + b.vecWrOps, a.matRdOps + b.matRdOps, a.matWrOps + b.matWrOps)
  }

  /** d1 and d2 agree but for the scratch vector, the cache bank and extra traffic counted by d1. */
  ghost predicate Agree(c: Config, s: Slot, extra: Traffic, d1: Device, d2: Device)
  {
    d1.pipe == d2.pipe && d1.vpipeA == d2.vpipeA && d1.mrf == d2.mrf && d1.rowBuffer == d2.rowBuffer &&
    d1.srf == d2.srf && d1.regs == d2.regs && d1.dramAddr == d2.dramAddr && d1.seqLen == d2.seqLen &&
    d1.fault == d2.fault && d1.traffic == Plus(d2.traffic, extra) && SameBanks(c, s, d1.vrf, d2.vrf)
  }

  /** The two copies hold the same numbers. */
  ghost predicate Cached(c: Config, s: Slot, d1: Device, d2: Device)
  {
    MEM_DRAM in d1.vrf && s.addr + c.dim <= |d1.vrf[MEM_DRAM]| &&
    s.bank in d2.vrf && s.off + c.dim <= |d2.vrf[s.bank]| &&
    d1.vrf[MEM_DRAM][s.addr..s.addr + c.dim] == d2.vrf[s.bank][s.off..s.off + c.dim]
  }

  // ---- Instructions that leave the slot alone ----

  predicate Clear(c: Config, s: Slot, addr: nat, n: nat)
  {
    addr + n <= s.addr || s.addr + c.dim <= addr
  }

  /** The instruction names neither the cache bank nor a DRAM range that meets the scratch vector. */
  predicate LeavesBase(c: Config, s: Slot, d: Device, op: nat, opd0: nat, opd1: nat, full: nat)
  {
    if op == OP_V_RD || op == OP_V_WR then opd0 != s.bank && (opd0 == MEM_DRAM ==> Clear(c, s, opd1, c.dim))
    else if op == OP_V_RD_DRAM || op == OP_V_WR_DRAM then Clear(c, s, full, c.dim)
    else if op == OP_M_RD || op == OP_M_RD_DRAM then
      opd0 != MEM_VEC_TO_MAT_ROW ==> Clear(c, s, full, MatrixSize(Reg(d, REG_TILE_ROWS, 1) * c.dim))
    else if op == OP_M_WR_DRAM then Clear(c, s, full, MatrixSize(|d.mrf|))
    else true
  }

  function MatrixSize(n: nat): nat
  {
    n * n
  }

  ghost predicate LeavesInc(c: Config, s: Slot, d: Device, base: nat, opd0: nat, addr: nat, inc: nat, count: nat)
    decreases count
  {
    count == 0 || d.fault ||
    (LeavesBase(c, s, d, base, opd0, 0, addr) &&
     LeavesInc(c, s, ExecuteBase(c, d, base, opd0, 0, addr), base, opd0, addr + inc, inc, count - 1))
  }

  ghost predicate LeavesAlone(c: Config, s: Slot, d: Device, e: PortEvent)
  {
    match e
    case Instruction(w) =>
      var op, opd0, opd1 := w / 0x1000000 % 0x100, w / 0x10000 % 0x100, w % 0x10000;
      (match IncBase(op)
       case None => LeavesBase(c, s, d, op, opd0, opd1, if op >= 20 then w % 0x1000000 else 0)
       case Some(base) => LeavesInc(c, s, d, base, opd0, d.dramAddr, opd1, IncCount(d)))
    case StoreDram(offset, _) => !InSlot(c, s, offset)
    case StoreSrf(_, _) => true
    case ResetStore(value) => value == 0
    case ShortStore => true
  }

  /** Every event of the run, in the state it meets, leaves the slot alone. */
  ghost predicate RunLeavesAlone(c: Config, s: Slot, d: Device, events: seq<PortEvent>)
    decreases |events|
  {
    events == [] || d.fault ||
    (LeavesAlone(c, s, d, events[0]) && RunLeavesAlone(c, s, Step(c, d, events[0]), events[1..]))
  }

  // ---- One instruction ----

  lemma VRdSim(c: Config, s: Slot, extra: Traffic, d1: Device, d2: Device, bank: nat, addr: nat)
    requires CacheBank(s.bank) && Agree(c, s, extra, d1, d2) && LeavesBase(c, s, d1, OP_V_RD, bank, addr, 0)
    ensures Agree(c, s, extra, VRd(c, d1, bank, addr), VRd(c, d2, bank, addr))
  {
    hide DecodeFp16;
    if bank == MEM_DRAM { assert Window(c, d1.vrf[bank], addr) == Window(c, d2.vrf[bank], addr); }
  }

  lemma VRdDramSim(c: Config, s: Slot, extra: Traffic, d1: Device, d2: Device, addr: nat)
    requires Agree(c, s, extra, d1, d2) && Clear(c, s, addr, c.dim)
    ensures Agree(c, s, extra, VRdDram(c, d1, addr), VRdDram(c, d2, addr))
  {
    hide SameBanks, MaskedWindow;
    DramOf(c, s, d1, d2);
    WindowSim(c, s, d1.vrf[MEM_DRAM], d2.vrf[MEM_DRAM], addr, Reg(d1, REG_READ_VECTOR_MASK, 0xFF));
  }

  lemma WindowSim(c: Config, s: Slot, v1: Vec, v2: Vec, addr: nat, mask: nat)
    requires SameDram(c, s, v1, v2) && Clear(c, s, addr, c.dim)
    ensures MaskedWindow(c, v1, addr, mask) == MaskedWindow(c, v2, addr, mask)
  {
  }

  lemma VWrSim(c: Config, s: Slot, extra: Traffic, d1: Device, d2: Device, bank: nat, addr: nat)
    requires CacheBank(s.bank) && Agree(c, s, extra, d1, d2) && LeavesBase(c, s, d1, OP_V_WR, bank, addr, 0)
    ensures Agree(c, s, extra, VWr(c, d1, bank, addr), VWr(c, d2, bank, addr))
  {
    hide Sum, NpMax, Map, VWrBank, SameBanks;
    if d1.pipe.Some? && bank != MEM_VEC_TO_MAT_ROW && bank != MEM_SPU_ADD_REDUCE && bank != MEM_SPU_MAX_REDUCE &&
       bank != MEM_SPU_ABSMAX_REDUCE {
      VWrBankSim(c, s, extra, d1, d2, bank, addr);
    }
  }

  lemma VWrBankSim(c: Config, s: Slot, extra: Traffic, d1: Device, d2: Device, bank: nat, addr: nat)
    requires CacheBank(s.bank) && Agree(c, s, extra, d1, d2) && bank != s.bank && d1.pipe.Some?
    ensures Agree(c, s, extra, VWrBank(c, d1, bank, addr), VWrBank(c, d2, bank, addr))
  {
    hide StoreLanes;
    if bank == MEM_DRAM {
      LanesSim(c, s, d1.vrf[bank], d2.vrf[bank], addr, d1.pipe.value, Reg(d1, REG_WRITE_VECTOR_MASK, 0xFF));
    }
  }

  lemma LanesSim(c: Config, s: Slot, v1: Vec, v2: Vec, addr: nat, p: Vec, mask: nat)
    requires SameDram(c, s, v1, v2)
    ensures var r1, r2 := StoreLanes(c, v1, addr, p, mask), StoreLanes(c, v2, addr, p, mask);
            SameDram(c, s, r1.0, r2.0) && r1.1 == r2.1
  {
    hide MaskedStore, LaneSelected;
    var n := Fit(c, v1, addr);
    if n <= |p| { StoreSim(c, s, v1, v2, addr, p, n, mask); }
    else if !c.fp32 { StoreSim(c, s, v1, v2, addr, p, |p|, mask); }
    else if |p| == 1 { StoreSim(c, s, v1, v2, addr, Const(n, p[0]), n, mask); }
  }

  lemma StoreSim(c: Config, s: Slot, v1: Vec, v2: Vec, addr: nat, p: Vec, n: nat, mask: nat)
    requires SameDram(c, s, v1, v2) && n <= |p| && (n > 0 ==> addr + n <= |v1|)
    ensures SameDram(c, s, MaskedStore(c, v1, addr, p, n, mask), MaskedStore(c, v2, addr, p, n, mask))
  {
  }

  lemma OverlaySim(c: Config, s: Slot, v1: Vec, v2: Vec, addr: nat, w: Vec)
    requires SameDram(c, s, v1, v2) && addr + |w| <= |v1|
    ensures SameDram(c, s, Overlay(v1, addr, w), Overlay(v2, addr, w))
  {
  }

  lemma VWrDramSim(c: Config, s: Slot, extra: Traffic, d1: Device, d2: Device, addr: nat)
    requires s.bank != MEM_DRAM && Agree(c, s, extra, d1, d2)
    ensures Agree(c, s, extra, VWrDram(c, d1, addr), VWrDram(c, d2, addr))
  {
    if d1.pipe.Some? {
      var n := Min(Fit(c, d1.vrf[MEM_DRAM], addr), |d1.pipe.value|);
      if n > 0 { OverlaySim(c, s, d1.vrf[MEM_DRAM], d2.vrf[MEM_DRAM], addr, RndVec(c, d1.pipe.value[..n])); }
    }
  }

  lemma MatrixSim(c: Config, s: Slot, v1: Vec, v2: Vec, addr: nat, n: nat)
    requires SameDram(c, s, v1, v2) && addr + n * n <= |v1| && Clear(c, s, addr, MatrixSize(n))
    ensures MatrixAt(c, v1, addr, n) == MatrixAt(c, v2, addr, n)
  {
    hide RowStart;
    var m1, m2 := MatrixAt(c, v1, addr, n), MatrixAt(c, v2, addr, n);
    forall i | 0 <= i < n ensures m1[i] == m2[i] {
      RowInside(i, n);
      assert m1[i] == RowAt(c, v1, addr + RowStart(i, n), n);
      RowSim(c, s, v1, v2, addr + RowStart(i, n), n);
    }
  }

  lemma RowSim(c: Config, s: Slot, v1: Vec, v2: Vec, addr: nat, n: nat)
    requires SameDram(c, s, v1, v2) && addr + n <= |v1| && Clear(c, s, addr, n)
    ensures RowAt(c, v1, addr, n) == RowAt(c, v2, addr, n)
  {
  }

  lemma MRdSim(c: Config, s: Slot, extra: Traffic, d1: Device, d2: Device, opd0: nat, full: nat)
    requires Agree(c, s, extra, d1, d2) && LeavesBase(c, s, d1, OP_M_RD, opd0, 0, full)
    ensures Agree(c, s, extra, MRd(c, d1, opd0, full), MRd(c, d2, opd0, full))
  {
    hide RowsToMatrix, MatrixAt, SameBanks;
    assert MEM_DRAM in d1.vrf && MEM_DRAM in d2.vrf && SameDram(c, s, d1.vrf[MEM_DRAM], d2.vrf[MEM_DRAM]) by {
      DramOf(c, s, d1, d2);
    }
    var n := Reg(d1, REG_TILE_ROWS, 1) * c.dim;
    if opd0 != MEM_VEC_TO_MAT_ROW && full + n * n <= |d1.vrf[MEM_DRAM]| {
      MatrixSim(c, s, d1.vrf[MEM_DRAM], d2.vrf[MEM_DRAM], full, n);
    }
  }

  lemma DramOf(c: Config, s: Slot, d1: Device, d2: Device)
    requires SameBanks(c, s, d1.vrf, d2.vrf)
    ensures MEM_DRAM in d1.vrf && MEM_DRAM in d2.vrf && SameDram(c, s, d1.vrf[MEM_DRAM], d2.vrf[MEM_DRAM])
  {
  }

  lemma MWrDramSim(c: Config, s: Slot, extra: Traffic, d1: Device, d2: Device, full: nat)
    requires s.bank != MEM_DRAM && Agree(c, s, extra, d1, d2)
    ensures Agree(c, s, extra, MWrDram(c, d1, full), MWrDram(c, d2, full))
  {
    hide D.Flatten;
    var flat := D.Flatten(c, d1.mrf, |d1.mrf|);
    if full + |flat| <= |d1.vrf[MEM_DRAM]| {
      OverlaySim(c, s, d1.vrf[MEM_DRAM], d2.vrf[MEM_DRAM], full, flat);
    }
  }

  lemma FinishSim(c: Config, s: Slot, extra: Traffic, d1: Device, d2: Device, r: Vec)
    requires CacheBank(s.bank) && Agree(c, s, extra, d1, d2)
    ensures Agree(c, s, extra, FinishActivation(c, d1, r), FinishActivation(c, d2, r))
  {
  }

  lemma VFuncSim(c: Config, s: Slot, extra: Traffic, d1: Device, d2: Device, sub: nat)
    requires CacheBank(s.bank) && Agree(c, s, extra, d1, d2)
    ensures Agree(c, s, extra, VFunc(c, d1, sub), VFunc(c, d2, sub))
  {
    hide FinishActivation, SoftmaxVec, LayernormVec;
    if d1.pipe.Some? {
      var p := d1.pipe.value;
      FinishSim(c, s, extra, d1, d2, SoftmaxVec(c, p));
      FinishSim(c, s, extra, d1, d2,
        LayernormVec(c, p, Prefix(d1, MEM_MVM_INITIAL_VRF, Fin(1.0), |p|), Prefix(d1, MEM_ADDSUB_VRF_0, ZERO, |p|)));
    }
  }

  lemma ComputeSim(c: Config, s: Slot, extra: Traffic, d1: Device, d2: Device, op: nat, opd0: nat, opd1: nat)
    requires CacheBank(s.bank) && Agree(c, s, extra, d1, d2)
    ensures Agree(c, s, extra, SWr(d1, opd0, opd1), SWr(d2, opd0, opd1))
    ensures Agree(c, s, extra, MvMul(c, d1), MvMul(c, d2))
    ensures Agree(c, s, extra, VV(c, d1, op), VV(c, d2, op))
    ensures Agree(c, s, extra, SpuFunc(c, d1, op, opd0, opd1), SpuFunc(c, d2, op, opd0, opd1))
    ensures Agree(c, s, extra, VActivation(c, d1, op), VActivation(c, d2, op))
  {
    hide SameBanks, MatVec, MaskedMatrix, Lanes, FinishActivation, ActivateVec;
    if d1.pipe.Some? { FinishSim(c, s, extra, d1, d2, ActivateVec(c, op, d1.pipe.value)); }
    VActivationSim(c, s, extra, d1, d2, op);
  }

  lemma VActivationSim(c: Config, s: Slot, extra: Traffic, d1: Device, d2: Device, op: nat)
    requires CacheBank(s.bank) && Agree(c, s, extra, d1, d2)
    ensures Agree(c, s, extra, VActivation(c, d1, op), VActivation(c, d2, op))
  {
    hide SameBanks, FinishActivation, ActivateVec;
    if d1.pipe.Some? { FinishSim(c, s, extra, d1, d2, ActivateVec(c, op, d1.pipe.value)); }
  }

  lemma BaseSim(c: Config, s: Slot, extra: Traffic, d1: Device, d2: Device, op: nat, opd0: nat, opd1: nat, full: nat)
    requires CacheBank(s.bank) && Agree(c, s, extra, d1, d2) && LeavesBase(c, s, d1, op, opd0, opd1, full)
    ensures Agree(c, s, extra, ExecuteBase(c, d1, op, opd0, opd1, full), ExecuteBase(c, d2, op, opd0, opd1, full))
  {
    hide Agree, CacheBank, SWr, VRd, VRdDram, MRd, VWr, VWrDram, MWrDram, MvMul, VV, VActivation, VFunc, SpuFunc,
      Clear, MatrixSize;
    if op == OP_V_RD { VRdSim(c, s, extra, d1, d2, opd0, opd1); }
    else if op == OP_V_RD_DRAM { VRdDramSim(c, s, extra, d1, d2, full); }
    else if op == OP_M_RD || op == OP_M_RD_DRAM { MRdSim(c, s, extra, d1, d2, opd0, full); }
    else if op == OP_V_WR { VWrSim(c, s, extra, d1, d2, opd0, opd1); }
    else if op == OP_V_WR_DRAM { NotDram(s); VWrDramSim(c, s, extra, d1, d2, full); }
    else if op == OP_M_WR_DRAM { NotDram(s); MWrDramSim(c, s, extra, d1, d2, full); }
    else if op == OP_V_FUNC { VFuncSim(c, s, extra, d1, d2, opd0); }
    else { ComputeSim(c, s, extra, d1, d2, op, opd0, opd1); }
  }

  lemma NotDram(s: Slot)
    requires CacheBank(s.bank)
    ensures s.bank != MEM_DRAM
  {
  }

  // ---- Both copies survive ----

  /** The scratch vector in DRAM and the whole cache bank are as before. */
  ghost predicate SlotKept(c: Config, s: Slot, m: map<nat, Vec>, m': map<nat, Vec>)
  {
    MEM_DRAM in m && MEM_DRAM in m' && |m'[MEM_DRAM]| == |m[MEM_DRAM]| &&
    (forall k :: (0 <= k < |m[MEM_DRAM]| && InSlot(c, s, k) ==> m'[MEM_DRAM][k] == m[MEM_DRAM][k])) &&
    (s.bank in m' <==> s.bank in m) && (s.bank in m ==> m'[s.bank] == m[s.bank])
  }

  lemma BaseKeepsSlot(c: Config, s: Slot, d: Device, op: nat, opd0: nat, opd1: nat, full: nat)
    requires CacheBank(s.bank) && MEM_DRAM in d.vrf && LeavesBase(c, s, d, op, opd0, opd1, full)
    ensures SlotKept(c, s, d.vrf, ExecuteBase(c, d, op, opd0, opd1, full).vrf)
  {
    hide VWr, VWrDram, MWrDram, DecodeFp16, MatVec, MaskedMatrix, Lanes, ActivateVec, SoftmaxVec, LayernormVec,
      RowsToMatrix, MatrixAt;
    if op == OP_V_WR { VWrKeepsSlot(c, s, d, opd0, opd1); }
    if op == OP_V_WR_DRAM || op == OP_M_WR_DRAM { DramStoreKeepsSlot(c, s, d, full); }
  }

  lemma VWrKeepsSlot(c: Config, s: Slot, d: Device, bank: nat, addr: nat)
    requires CacheBank(s.bank) && MEM_DRAM in d.vrf && LeavesBase(c, s, d, OP_V_WR, bank, addr, 0)
    ensures SlotKept(c, s, d.vrf, VWr(c, d, bank, addr).vrf)
  {
    hide Sum, NpMax, Map;
  }

  lemma DramStoreKeepsSlot(c: Config, s: Slot, d: Device, addr: nat)
    requires CacheBank(s.bank) && MEM_DRAM in d.vrf
    ensures Clear(c, s, addr, c.dim) ==> SlotKept(c, s, d.vrf, VWrDram(c, d, addr).vrf)
    ensures Clear(c, s, addr, MatrixSize(|d.mrf|)) ==> SlotKept(c, s, d.vrf, MWrDram(c, d, addr).vrf)
  {
    hide D.Flatten;
    assert |D.Flatten(c, d.mrf, |d.mrf|)| == MatrixSize(|d.mrf|);
  }

  // ---- Runs ----

  lemma {:induction false} IncSim(c: Config, s: Slot, extra: Traffic, d1: Device, d2: Device, base: nat, opd0: nat,
                                  addr: nat, inc: nat, count: nat)
    requires CacheBank(s.bank) && Agree(c, s, extra, d1, d2) && MEM_DRAM in d1.vrf && MEM_DRAM in d2.vrf
    requires LeavesInc(c, s, d1, base, opd0, addr, inc, count)
    ensures var e1 := ExecuteInc(c, d1, base, opd0, addr, inc, count);
            var e2 := ExecuteInc(c, d2, base, opd0, addr, inc, count);
            Agree(c, s, extra, e1, e2) && SlotKept(c, s, d1.vrf, e1.vrf) && SlotKept(c, s, d2.vrf, e2.vrf)
    decreases count
  {
    hide ExecuteBase, LeavesBase, SameBanks, CacheBank, SlotKept;
    KeptRefl(c, s, d1.vrf);
    KeptRefl(c, s, d2.vrf);
    if count > 0 && !d1.fault {
      var e1, e2 := ExecuteBase(c, d1, base, opd0, 0, addr), ExecuteBase(c, d2, base, opd0, 0, addr);
      BaseBoth(c, s, extra, d1, d2, base, opd0, 0, addr);
      IncSim(c, s, extra, e1, e2, base, opd0, addr + inc, inc, count - 1);
      KeptTrans(c, s, d1.vrf, e1.vrf, ExecuteInc(c, e1, base, opd0, addr + inc, inc, count - 1).vrf);
      KeptTrans(c, s, d2.vrf, e2.vrf, ExecuteInc(c, e2, base, opd0, addr + inc, inc, count - 1).vrf);
    }
  }

  /** One base opcode keeps the relation and both copies. */
  lemma BaseBoth(c: Config, s: Slot, extra: Traffic, d1: Device, d2: Device, op: nat, opd0: nat, opd1: nat, full: nat)
    requires CacheBank(s.bank) && Agree(c, s, extra, d1, d2) && LeavesBase(c, s, d1, op, opd0, opd1, full)
    ensures var e1, e2 := ExecuteBase(c, d1, op, opd0, opd1, full), ExecuteBase(c, d2, op, opd0, opd1, full);
            Agree(c, s, extra, e1, e2) && SlotKept(c, s, d1.vrf, e1.vrf) && SlotKept(c, s, d2.vrf, e2.vrf)
            && MEM_DRAM in e1.vrf && MEM_DRAM in e2.vrf
  {
    hide ExecuteBase, CacheBank;
    BaseSim(c, s, extra, d1, d2, op, opd0, opd1, full);
    BaseKeepsSlot(c, s, d1, op, opd0, opd1, full);
    BaseKeepsSlot(c, s, d2, op, opd0, opd1, full);
  }

  lemma KeptRefl(c: Config, s: Slot, m: map<nat, Vec>)
    requires MEM_DRAM in m
    ensures SlotKept(c, s, m, m)
  {
  }

  lemma KeptTrans(c: Config, s: Slot, a: map<nat, Vec>, b: map<nat, Vec>, d: map<nat, Vec>)
    requires SlotKept(c, s, a, b) && SlotKept(c, s, b, d)
    ensures SlotKept(c, s, a, d)
  {
  }

  /** One port event keeps the relation and both copies. */
  lemma StepSim(c: Config, s: Slot, extra: Traffic, d1: Device, d2: Device, e: PortEvent)
    requires CacheBank(s.bank) && Agree(c, s, extra, d1, d2)
    requires LeavesAlone(c, s, d1, e) && MEM_DRAM in d1.vrf && MEM_DRAM in d2.vrf
    ensures var e1, e2 := Step(c, d1, e), Step(c, d2, e);
            Agree(c, s, extra, e1, e2) && SlotKept(c, s, d1.vrf, e1.vrf) && SlotKept(c, s, d2.vrf, e2.vrf)
  {
    hide Execute, LeavesBase, LeavesInc, SameBanks, SlotKept, CacheBank, Reset;
    KeptRefl(c, s, d1.vrf);
    KeptRefl(c, s, d2.vrf);
    match e
    case Instruction(w) =>
      var op, opd0, opd1 := w / 0x1000000 % 0x100, w / 0x10000 % 0x100, w % 0x10000;
      InstructionSim(c, s, extra, d1, d2, op, opd0, opd1, if op >= 20 then w % 0x1000000 else 0);
    case StoreDram(offset, x) => NotDram(s); StoreDramSim(c, s, d1, d2, offset, x);
    case StoreSrf(index, y) =>
    case ResetStore(value) =>
    case ShortStore =>
  }

  lemma StoreDramSim(c: Config, s: Slot, d1: Device, d2: Device, offset: nat, x: Num)
    requires SameBanks(c, s, d1.vrf, d2.vrf) && s.bank != MEM_DRAM && !InSlot(c, s, offset)
    ensures |d1.vrf[MEM_DRAM]| == |d2.vrf[MEM_DRAM]|
    ensures offset < |d1.vrf[MEM_DRAM]| ==>
      (var m1, m2 := d1.vrf[MEM_DRAM := d1.vrf[MEM_DRAM][offset := x]],
       d2.vrf[MEM_DRAM := d2.vrf[MEM_DRAM][offset := x]];
       SameBanks(c, s, m1, m2) && SlotKept(c, s, d1.vrf, m1) && SlotKept(c, s, d2.vrf, m2))
  {
  }

  lemma InstructionSim(c: Config, s: Slot, extra: Traffic, d1: Device, d2: Device, op: nat, opd0: nat, opd1: nat,
                       full: nat)
    requires CacheBank(s.bank) && Agree(c, s, extra, d1, d2) && MEM_DRAM in d1.vrf && MEM_DRAM in d2.vrf
    requires match IncBase(op)
             case None => LeavesBase(c, s, d1, op, opd0, opd1, full)
             case Some(base) => LeavesInc(c, s, d1, base, opd0, d1.dramAddr, opd1, IncCount(d1))
    ensures var e1, e2 := Execute(c, d1, op, opd0, opd1, full), Execute(c, d2, op, opd0, opd1, full);
            Agree(c, s, extra, e1, e2) && SlotKept(c, s, d1.vrf, e1.vrf) && SlotKept(c, s, d2.vrf, e2.vrf)
  {
    hide ExecuteBase, ExecuteInc, LeavesBase, LeavesInc, SameBanks, SlotKept, IncBase, CacheBank;
    match IncBase(op)
    case None => BaseBoth(c, s, extra, d1, d2, op, opd0, opd1, full);
    case Some(base) => IncSim(c, s, extra, d1, d2, base, opd0, d1.dramAddr, opd1, IncCount(d1));
  }

  /** Any run that leaves the slot alone keeps two agreeing devices in agreement, and both copies intact. */
  lemma {:induction false} RunSim(c: Config, s: Slot, extra: Traffic, d1: Device, d2: Device, events: seq<PortEvent>)
    requires CacheBank(s.bank) && Agree(c, s, extra, d1, d2) && RunLeavesAlone(c, s, d1, events)
    requires MEM_DRAM in d1.vrf && MEM_DRAM in d2.vrf
    ensures var e1, e2 := Run(c, d1, events), Run(c, d2, events);
            Agree(c, s, extra, e1, e2) && SlotKept(c, s, d1.vrf, e1.vrf) && SlotKept(c, s, d2.vrf, e2.vrf)
    decreases |events|
  {
    hide Step, LeavesAlone, SameBanks, CacheBank, SlotKept;
    KeptRefl(c, s, d1.vrf);
    KeptRefl(c, s, d2.vrf);
    if events != [] && !d1.fault {
      var e1, e2 := Step(c, d1, events[0]), Step(c, d2, events[0]);
      StepSim(c, s, extra, d1, d2, events[0]);
      KeptHasDram(c, s, d1.vrf, e1.vrf);
      KeptHasDram(c, s, d2.vrf, e2.vrf);
      RunSim(c, s, extra, e1, e2, events[1..]);
      KeptTrans(c, s, d1.vrf, e1.vrf, Run(c, e1, events[1..]).vrf);
      KeptTrans(c, s, d2.vrf, e2.vrf, Run(c, e2, events[1..]).vrf);
    }
  }

  lemma KeptHasDram(c: Config, s: Slot, m: map<nat, Vec>, m': map<nat, Vec>)
    requires SlotKept(c, s, m, m')
    ensures MEM_DRAM in m'
  {
  }

  // ---- The rewrite ----

  /** Where the rewrite applies: room for both copies and a whole vector to store, every lane selected. */
  ghost predicate CanCache(c: Config, s: Slot, d: Device)
  {
    CacheBank(s.bank) && s.bank < 0x100 && s.off < 0x10000 && s.addr < 0x1000000 && c.dim >= 1 && !d.fault &&
    MEM_DRAM in d.vrf && s.addr + c.dim <= |d.vrf[MEM_DRAM]| && s.off + c.dim <= |BankOrNew(c, d, s.bank)| &&
    d.pipe.Some? && |d.pipe.value| >= c.dim && (c.fp32 || FullMask(Reg(d, REG_WRITE_VECTOR_MASK, 0xFF)))
  }

  function StoreTraffic(c: Config): Traffic
  {
    if c.fp32 then Traffic(0, 0, 0, 0, 0, 0, 0, 0) else Traffic(0, c.dim, 0, 0, 0, 1, 0, 0)
  }

  function RoundTripTraffic(c: Config): Traffic
  {
    if c.fp32 then Traffic(0, 0, 0, 0, 0, 0, 0, 0) else Traffic(c.dim, c.dim, 0, 0, 1, 1, 0, 0)
  }

  lemma StoresAgree(c: Config, s: Slot, d: Device)
    requires CanCache(c, s, d)
    ensures Agree(c, s, StoreTraffic(c), VWrDram(c, d, s.addr), VWr(c, d, s.bank, s.off))
  {
  }

  lemma StoresCached(c: Config, s: Slot, d: Device)
    requires CanCache(c, s, d)
    ensures Cached(c, s, VWrDram(c, d, s.addr), VWr(c, d, s.bank, s.off))
  {
    var d1, d2 := VWrDram(c, d, s.addr), VWr(c, d, s.bank, s.off);
    var a, b := d1.vrf[MEM_DRAM][s.addr..s.addr + c.dim], d2.vrf[s.bank][s.off..s.off + c.dim];
    forall i | 0 <= i < c.dim ensures a[i] == Rnd(c, d.pipe.value[i]) && b[i] == Rnd(c, d.pipe.value[i]) {
      if !c.fp32 { FullMaskSelects(Reg(d, REG_WRITE_VECTOR_MASK, 0xFF), i); }
    }
  }

  lemma LoadsSame(c: Config, v: Vec, addr: nat, mask: nat, w: Vec, off: nat)
    requires addr + c.dim <= |v| && off + c.dim <= |w| && v[addr..addr + c.dim] == w[off..off + c.dim]
    requires c.fp32 || FullMask(mask)
    ensures MaskedWindow(c, v, addr, mask) == Window(c, w, off)
  {
    var a, b := MaskedWindow(c, v, addr, mask), Window(c, w, off);
    forall i | 0 <= i < c.dim ensures a[i] == b[i] {
      if !c.fp32 { FullMaskSelects(mask, i); }
      assert v[addr..addr + c.dim][i] == v[addr + i] && w[off..off + c.dim][i] == w[off + i];
    }
  }

  /** Without the full read mask the loads agree exactly when every blanked lane holds a number that rounds to zero. */
  lemma LoadsSameIff(c: Config, v: Vec, addr: nat, mask: nat, w: Vec, off: nat)
    requires addr + c.dim <= |v| && off + c.dim <= |w| && v[addr..addr + c.dim] == w[off..off + c.dim] && !c.fp32
    ensures MaskedWindow(c, v, addr, mask) == Window(c, w, off)
       <==> forall i :: 0 <= i < c.dim ==> Bit(mask, i) || Rnd(c, v[addr + i]) == ZERO
  {
    hide Bit;
    var a, b := MaskedWindow(c, v, addr, mask), Window(c, w, off);
    forall i | 0 <= i < c.dim ensures b[i] == Rnd(c, v[addr + i]) && a[i] == if Bit(mask, i) then b[i] else ZERO {
      assert v[addr..addr + c.dim][i] == v[addr + i] && w[off..off + c.dim][i] == w[off + i];
    }
    if forall i :: 0 <= i < c.dim ==> Bit(mask, i) || Rnd(c, v[addr + i]) == ZERO {
      forall i | 0 <= i < c.dim ensures a[i] == b[i] { }
    } else {
      var i :| 0 <= i < c.dim && !(Bit(mask, i) || Rnd(c, v[addr + i]) == ZERO);
      assert a[i] != b[i];
    }
  }

  lemma LoadsAgree(c: Config, s: Slot, extra: Traffic, d1: Device, d2: Device)
    requires CacheBank(s.bank) && c.dim >= 1 && Agree(c, s, extra, d1, d2) && Cached(c, s, d1, d2)
    requires c.fp32 || FullMask(Reg(d1, REG_READ_VECTOR_MASK, 0xFF))
    ensures Agree(c, s, if c.fp32 then extra else Plus(extra, Traffic(c.dim, 0, 0, 0, 1, 0, 0, 0)),
                  VRdDram(c, d1, s.addr), VRd(c, d2, s.bank, s.off))
  {
    hide MaskedWindow, Window, DecodeFp16;
    LoadsSame(c, d1.vrf[MEM_DRAM], s.addr, Reg(d1, REG_READ_VECTOR_MASK, 0xFF), d2.vrf[s.bank], s.off);
  }

  lemma CachedKept(c: Config, s: Slot, d1: Device, d2: Device, e1: Device, e2: Device)
    requires Cached(c, s, d1, d2) && SlotKept(c, s, d1.vrf, e1.vrf) && SlotKept(c, s, d2.vrf, e2.vrf)
    ensures Cached(c, s, e1, e2)
  {
  }

  function ViaDram(s: Slot, middle: seq<PortEvent>): seq<PortEvent>
  {
    [Instruction(LO(OP_V_WR_DRAM, s.addr))] + middle + [Instruction(LO(OP_V_RD_DRAM, s.addr))]
  }

  function ViaBank(s: Slot, middle: seq<PortEvent>): seq<PortEvent>
  {
    [Instruction(SI(OP_V_WR, s.bank, s.off))] + middle + [Instruction(SI(OP_V_RD, s.bank, s.off))]
  }

  lemma FirstStores(c: Config, s: Slot, d: Device)
    requires CanCache(c, s, d)
    ensures Push(c, d, LO(OP_V_WR_DRAM, s.addr)) == VWrDram(c, d, s.addr)
    ensures Push(c, d, SI(OP_V_WR, s.bank, s.off)) == VWr(c, d, s.bank, s.off)
  {
    hide VWrDram, VWr, Push, SI, LO;
    DecodeLO(c, d, OP_V_WR_DRAM, s.addr);
    DecodeSI(c, d, OP_V_WR, s.bank, s.off);
  }

  lemma LastLoads(c: Config, s: Slot, d1: Device, d2: Device)
    requires s.bank < 0x100 && s.off < 0x10000 && s.addr < 0x1000000
    ensures Push(c, d1, LO(OP_V_RD_DRAM, s.addr)) == VRdDram(c, d1, s.addr)
    ensures Push(c, d2, SI(OP_V_RD, s.bank, s.off)) == VRd(c, d2, s.bank, s.off)
  {
    hide VRdDram, VRd, Push, SI, LO;
    DecodeLO(c, d1, OP_V_RD_DRAM, s.addr);
    DecodeSI(c, d2, OP_V_RD, s.bank, s.off);
  }

  /** A run through a store, a middle and a load. */
  lemma RunSandwich(c: Config, d: Device, first: nat, middle: seq<PortEvent>, last: nat)
    requires !d.fault
    ensures var e := Run(c, Push(c, d, first), middle);
            Run(c, d, [Instruction(first)] + middle + [Instruction(last)]) == if e.fault then e else Push(c, e, last)
  {
    hide Push, Run;
    RunConcat(c, d, [Instruction(first)] + middle, [Instruction(last)]);
    RunConcat(c, d, [Instruction(first)], middle);
    RunOne(c, d, Instruction(first));
    RunOne(c, Run(c, Push(c, d, first), middle), Instruction(last));
  }

  /** The rewrite is correct: both runs end in states equal in everything but the scratch vector, the cache bank
      and the DRAM traffic, which shrinks by exactly one vector store and one vector load. */
  lemma CacheReplacesScratch(c: Config, s: Slot, d: Device, middle: seq<PortEvent>)
    requires CanCache(c, s, d)
    requires RunLeavesAlone(c, s, VWrDram(c, d, s.addr), middle)
    requires var e := Run(c, VWrDram(c, d, s.addr), middle);
             c.fp32 || e.fault || FullMask(Reg(e, REG_READ_VECTOR_MASK, 0xFF))
    ensures var e1, e2 := Run(c, d, ViaDram(s, middle)), Run(c, d, ViaBank(s, middle));
            Agree(c, s, if e2.fault then StoreTraffic(c) else RoundTripTraffic(c), e1, e2)
  {
    hide Run, Push, VWrDram, VWr, VRdDram, VRd, SI, LO, SameBanks, Cached, SlotKept, RunLeavesAlone, FullMask;
    StoresAgree(c, s, d);
    StoresCached(c, s, d);
    FirstStores(c, s, d);
    var d1, d2 := VWrDram(c, d, s.addr), VWr(c, d, s.bank, s.off);
    HasDram(c, s, d1, d2);
    RunSim(c, s, StoreTraffic(c), d1, d2, middle);
    var m1, m2 := Run(c, d1, middle), Run(c, d2, middle);
    CachedKept(c, s, d1, d2, m1, m2);
    RunSandwich(c, d, LO(OP_V_WR_DRAM, s.addr), middle, LO(OP_V_RD_DRAM, s.addr));
    RunSandwich(c, d, SI(OP_V_WR, s.bank, s.off), middle, SI(OP_V_RD, s.bank, s.off));
    LastLoads(c, s, m1, m2);
    if !m1.fault {
      LoadsAgree(c, s, StoreTraffic(c), m1, m2);
      LoadFaults(c, m2, s.bank, s.off);
    }
  }

  lemma LoadFaults(c: Config, d: Device, bank: nat, addr: nat)
    ensures VRd(c, d, bank, addr).fault == d.fault
  {
  }

  lemma HasDram(c: Config, s: Slot, d1: Device, d2: Device)
    requires SameBanks(c, s, d1.vrf, d2.vrf)
    ensures MEM_DRAM in d1.vrf && MEM_DRAM in d2.vrf
  {
  }
}
