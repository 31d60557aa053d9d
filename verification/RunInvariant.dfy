/** What every run of the device keeps, whatever the instruction words and CPU stores:
    vector banks hold FP16-exact numbers, banks never change length, and no handler raises.
 */
module RunInvariant {
  import opened Arithmetic
  import opened Numbers
  import opened D = Device
  import opened NpuDevice
  import opened Firmware

  /** One event on the device's MMIO port.  A store of fewer than four bytes to the DRAM or scalar window raises,
      since no number can be read from it. */
  datatype PortEvent =
    | Instruction(word: nat)
    | StoreDram(offset: nat, x: Num)
    | StoreSrf(index: nat, y: Num)
    | ResetStore(value: nat)
    | ShortStore

  /** Rounding is a projection that keeps zero. */
  ghost predicate RoundingLaws(c: Config)
  {
    Rnd(c, ZERO) == ZERO && RoundingIdempotent(c)
  }

  predicate IsExact(k: Kernels, x: Num)
  {
    k.round(x) == x
  }

  ghost predicate ExactVec(k: Kernels, v: Vec)
  {
    forall i :: 0 <= i < |v| ==> IsExact(k, v[i])
  }

  /** Every bank but DRAM is FP16-exact (on the rounding device). */
  ghost predicate ExactBanks(c: Config, d: Device)
  {
    !c.fp32 ==> forall b :: b in d.vrf && b != MEM_DRAM ==> ExactVec(c.k, d.vrf[b])
  }

  predicate WideEnough(c: Config, v: Option<Vec>)
  {
    v.Some? ==> |v.value| >= c.dim
  }

  ghost predicate Inv(c: Config, d: Device)
  {
    !d.fault && ExactBanks(c, d) && WideEnough(c, d.pipe) && WideEnough(c, d.vpipeA) && |d.mrf| >= c.dim &&
    Reg(d, REG_TILE_ROWS, 1) >= 1
  }

  /** Banks only appear; those present keep their length. */
  predicate SameShape(d0: Device, d1: Device)
  {
    forall b :: b in d0.vrf ==> b in d1.vrf && |d1.vrf[b]| == |d0.vrf[b]|
  }

  ghost predicate Configured(c: Config)
  {
    c.dim >= 1 && RoundingLaws(c)
  }

  lemma RoundedIsExact(c: Config, x: Num)
    requires RoundingLaws(c) && !c.fp32
    ensures IsExact(c.k, c.k.round(x)) && IsExact(c.k, ZERO)
  {
    assert RoundsOnce(c, x);
  }

  lemma UpdateBank(c: Config, d: Device, bank: nat, v: Vec)
    requires ExactBanks(c, d) && (!c.fp32 && bank != MEM_DRAM ==> ExactVec(c.k, v))
    requires bank in d.vrf ==> |v| == |d.vrf[bank]|
    ensures ExactBanks(c, d.(vrf := d.vrf[bank := v])) && SameShape(d, d.(vrf := d.vrf[bank := v]))
  {
  }

  lemma ExactBanksFrame(c: Config, d0: Device, d1: Device)
    requires ExactBanks(c, d0) && d1.vrf == d0.vrf
    ensures ExactBanks(c, d1)
  {
  }

  lemma StoreKeeps(c: Config, d: Device, bank: nat, addr: nat)
    requires Configured(c) && Inv(c, d)
    ensures Inv(c, VWr(c, d, bank, addr)) && SameShape(d, VWr(c, d, bank, addr))
  {
    if d.pipe.Some? && bank != MEM_VEC_TO_MAT_ROW && bank != MEM_SPU_ADD_REDUCE && bank != MEM_SPU_MAX_REDUCE &&
       bank != MEM_SPU_ABSMAX_REDUCE {
      var v := BankOrNew(c, d, bank);
      var w := MaskedStore(c, v, addr, d.pipe.value, Fit(c, v, addr), Reg(d, REG_WRITE_VECTOR_MASK, 0xFF));
      if !c.fp32 && bank != MEM_DRAM {
        forall k | 0 <= k < |w| ensures IsExact(c.k, w[k]) {
          if addr <= k && k - addr < |d.pipe.value| { RoundedIsExact(c, d.pipe.value[k - addr]); }
          RoundedIsExact(c, ZERO);
        }
      }
      UpdateBank(c, d, bank, w);
    }
  }

  lemma ActivationKeeps(c: Config, d: Device, r: Vec)
    requires Configured(c) && Inv(c, d) && |r| >= c.dim
    ensures Inv(c, FinishActivation(c, d, r)) && SameShape(d, FinishActivation(c, d, r))
  {
    if !c.fp32 && MEM_MVM_INITIAL_VRF in d.vrf {
      var ivrf := d.vrf[MEM_MVM_INITIAL_VRF];
      var p := RndVec(c, r);
      var w := Overlay(ivrf, 0, p[..Min(|ivrf|, |p|)]);
      forall k | 0 <= k < |w| ensures IsExact(c.k, w[k]) {
        if k < |r| { RoundedIsExact(c, r[k]); }
      }
      UpdateBank(c, d, MEM_MVM_INITIAL_VRF, w);
    }
  }

  lemma TileSide(rows: nat, dim: nat)
    requires rows >= 1
    ensures rows * dim >= dim
  {
  }

  lemma MatrixKeeps(c: Config, d: Device, opd0: nat, full: nat)
    requires Configured(c) && Inv(c, d)
    ensures Inv(c, MRd(c, d, opd0, full)) && SameShape(d, MRd(c, d, opd0, full))
  {
    TileSide(Reg(d, REG_TILE_ROWS, 1), c.dim);
  }

  /** The one instruction the source leaves to the firmware's care: a zero tile-row count. */
  predicate KeepsTileRows(op: nat, opd0: nat, opd1: nat)
  {
    op == OP_S_WR && opd0 == REG_TILE_ROWS ==> opd1 >= 1
  }

  lemma LoadKeeps(c: Config, d: Device, v: Vec)
    requires Inv(c, d) && |v| == c.dim
    ensures Inv(c, Load(d, v)) && SameShape(d, Load(d, v))
  {
  }

  lemma LoadsKeep(c: Config, d: Device, bank: nat, addr: nat)
    requires Inv(c, d)
    ensures Inv(c, VRd(c, d, bank, addr)) && SameShape(d, VRd(c, d, bank, addr))
    ensures Inv(c, VRdDram(c, d, addr)) && SameShape(d, VRdDram(c, d, addr))
  {
    hide ExactBanks, DecodeFp16;
    forall v: Vec | |v| == c.dim ensures Inv(c, Load(d, v)) { LoadKeeps(c, d, v); }
    ExactBanksFrame(c, d, VRdDram(c, d, addr));
  }

  lemma DramStoresKeep(c: Config, d: Device, full: nat)
    requires Inv(c, d)
    ensures Inv(c, VWrDram(c, d, full)) && SameShape(d, VWrDram(c, d, full))
    ensures Inv(c, MWrDram(c, d, full)) && SameShape(d, MWrDram(c, d, full))
  {
    if MEM_DRAM in d.vrf {
      if d.pipe.Some? { UpdateBank(c, d, MEM_DRAM, VWrDram(c, d, full).vrf[MEM_DRAM]); }
      UpdateBank(c, d, MEM_DRAM, MWrDram(c, d, full).vrf[MEM_DRAM]);
    }
  }

  lemma ComputeKeeps(c: Config, d: Device, op: nat)
    requires Inv(c, d)
    ensures Inv(c, MvMul(c, d)) && SameShape(d, MvMul(c, d))
    ensures Inv(c, VV(c, d, op)) && SameShape(d, VV(c, d, op))
  {
    hide ExactBanks;
    ExactBanksFrame(c, d, MvMul(c, d));
    ExactBanksFrame(c, d, VV(c, d, op));
  }

  lemma ScalarsKeep(c: Config, d: Device, op: nat, opd0: nat, opd1: nat)
    requires Inv(c, d)
    ensures Inv(c, SpuFunc(c, d, op, opd0, opd1)) && SameShape(d, SpuFunc(c, d, op, opd0, opd1))
    ensures (opd0 == REG_TILE_ROWS ==> opd1 >= 1) ==> Inv(c, SWr(d, opd0, opd1)) && SameShape(d, SWr(d, opd0, opd1))
  {
  }

  lemma ActivationsKeep(c: Config, d: Device, op: nat)
    requires Configured(c) && Inv(c, d)
    ensures Inv(c, VActivation(c, d, op)) && SameShape(d, VActivation(c, d, op))
  {
    if d.pipe.Some? { ActivationKeeps(c, d, ActivateVec(c, op, d.pipe.value)); }
  }

  lemma FunctionsKeep(c: Config, d: Device, sub: nat)
    requires Configured(c) && Inv(c, d)
    ensures Inv(c, VFunc(c, d, sub)) && SameShape(d, VFunc(c, d, sub))
  {
    hide RoundingLaws, ExactBanks;
    if d.pipe.Some? {
      var p := d.pipe.value;
      ActivationKeeps(c, d, SoftmaxVec(c, p));
      ActivationKeeps(c, d,
        LayernormVec(c, p, Prefix(d, MEM_MVM_INITIAL_VRF, Fin(1.0), |p|), Prefix(d, MEM_ADDSUB_VRF_0, ZERO, |p|)));
    } else {
      ExactBanksFrame(c, d, VFunc(c, d, sub));
    }
  }

  lemma BaseKeeps(c: Config, d: Device, op: nat, opd0: nat, opd1: nat, full: nat)
    requires Configured(c) && Inv(c, d) && KeepsTileRows(op, opd0, opd1)
    ensures Inv(c, ExecuteBase(c, d, op, opd0, opd1, full)) && SameShape(d, ExecuteBase(c, d, op, opd0, opd1, full))
  {
    hide Inv, SameShape, SWr, VRd, VRdDram, MRd, VWr, VWrDram, MWrDram, MvMul, VV, VActivation, VFunc, SpuFunc;
    if op == OP_S_WR || IsSpuFunc(op) { ScalarsKeep(c, d, op, opd0, opd1); }
    else if op == OP_V_RD { LoadsKeep(c, d, opd0, opd1); }
    else if op == OP_V_RD_DRAM { LoadsKeep(c, d, opd0, full); }
    else if op == OP_M_RD || op == OP_M_RD_DRAM { MatrixKeeps(c, d, opd0, full); }
    else if op == OP_V_WR { StoreKeeps(c, d, opd0, opd1); }
    else if op == OP_V_WR_DRAM || op == OP_M_WR_DRAM { DramStoresKeep(c, d, full); }
    else if op == OP_MV_MUL || IsVV(op) { ComputeKeeps(c, d, op); }
    else if IsActivation(op) { ActivationsKeep(c, d, op); }
    else if op == OP_V_FUNC { FunctionsKeep(c, d, opd0); }
    else { ShapeRefl(d); }
  }

  lemma ShapeRefl(d: Device)
    ensures SameShape(d, d)
  {
  }

  lemma ShapeTrans(d0: Device, d1: Device, d2: Device)
    requires SameShape(d0, d1) && SameShape(d1, d2)
    ensures SameShape(d0, d2)
  {
  }

  lemma {:induction false} IncKeeps(c: Config, d: Device, base: nat, opd0: nat, addr: nat, inc: nat, count: nat)
    requires Configured(c) && Inv(c, d) && base != OP_S_WR
    ensures var d1 := ExecuteInc(c, d, base, opd0, addr, inc, count); Inv(c, d1) && SameShape(d, d1)
    decreases count
  {
    if count > 0 {
      var d1 := ExecuteBase(c, d, base, opd0, 0, addr);
      BaseKeeps(c, d, base, opd0, 0, addr);
      IncKeeps(c, d1, base, opd0, addr + inc, inc, count - 1);
      ShapeTrans(d, d1, ExecuteInc(c, d, base, opd0, addr, inc, count));
    }
  }

  /** Every instruction, increment variants included, keeps the invariant. */
  lemma ExecuteKeeps(c: Config, d: Device, op: nat, opd0: nat, opd1: nat, full: nat)
    requires Configured(c) && Inv(c, d) && KeepsTileRows(op, opd0, opd1)
    ensures Inv(c, Execute(c, d, op, opd0, opd1, full)) && SameShape(d, Execute(c, d, op, opd0, opd1, full))
  {
    hide RoundingLaws, ExactBanks, ExecuteBase;
    match IncBase(op)
    case None => BaseKeeps(c, d, op, opd0, opd1, full);
    case Some(base) =>
      IncKeeps(c, d, base, opd0, d.dramAddr, opd1, IncCount(d));
      ExactBanksFrame(c, ExecuteInc(c, d, base, opd0, d.dramAddr, opd1, IncCount(d)),
                      Execute(c, d, op, opd0, opd1, full));
  }

  function Step(c: Config, d: Device, e: PortEvent): Device
  {
    match e
    case Instruction(w) => Push(c, d, w)
    case StoreDram(offset, x) =>
      if MEM_DRAM in d.vrf && offset < |d.vrf[MEM_DRAM]|
      then d.(vrf := d.vrf[MEM_DRAM := d.vrf[MEM_DRAM][offset := x]]) else d
    case StoreSrf(index, y) => if index < |d.srf| then d.(srf := d.srf[index := y]) else d
    case ResetStore(value) => if value != 0 then Reset(d) else d
    case ShortStore => d.(fault := true)
  }

  /** A run; an exception ends it. */
  function Run(c: Config, d: Device, events: seq<PortEvent>): Device
    decreases |events|
  {
    if events == [] || d.fault then d else Run(c, Step(c, d, events[0]), events[1..])
  }

  /** The device object served one event after another does what the run says, up to the first exception. */
  method Serve(npu: NpuDeviceMini, events: seq<PortEvent>)
    modifies npu
    ensures npu.View() == Run(npu.c, old(npu.View()), events)
  {
    hide Step;
    ghost var d := npu.View();
    var i := 0;
    while i < |events| && !npu.fault
      invariant i <= |events| && Run(npu.c, npu.View(), events[i..]) == Run(npu.c, d, events)
    {
      assert events[i..][1..] == events[i + 1..];
      ServeOne(npu, events[i]);
      i := i + 1;
    }
  }

  method ServeOne(npu: NpuDeviceMini, e: PortEvent)
    modifies npu
    requires !npu.fault
    ensures npu.View() == Step(npu.c, old(npu.View()), e)
  {
    match e
    case Instruction(w) => npu.PushInstruction(w);
    case StoreDram(offset, x) =>
      if MEM_DRAM in npu.vrf && offset < |npu.vrf[MEM_DRAM]| {
        npu.vrf := npu.vrf[MEM_DRAM := npu.vrf[MEM_DRAM][offset := x]];
      }
    case StoreSrf(index, y) => npu.StoreSrf(index, y);
    case ResetStore(value) => if value != 0 { npu.ResetDevice(); }
    case ShortStore => npu.fault := true;
  }

  /** Neither a short store nor a zero tile-row count. */
  predicate Admissible(e: PortEvent)
  {
    !e.ShortStore? &&
    (e.Instruction? ==> KeepsTileRows(e.word / 0x1000000 % 0x100, e.word / 0x10000 % 0x100, e.word % 0x10000))
  }

  lemma StepKeeps(c: Config, d: Device, e: PortEvent)
    requires Configured(c) && Inv(c, d) && SameShape(Initial(c), d) && Admissible(e)
    ensures Inv(c, Step(c, d, e)) && SameShape(d, Step(c, d, e))
  {
    match e
    case Instruction(w) =>
      var op := w / 0x1000000 % 0x100;
      ExecuteKeeps(c, d, op, w / 0x10000 % 0x100, w % 0x10000, if op >= 20 then w % 0x1000000 else 0);
    case StoreDram(offset, x) =>
      if MEM_DRAM in d.vrf && offset < |d.vrf[MEM_DRAM]| { UpdateBank(c, d, MEM_DRAM, d.vrf[MEM_DRAM][offset := x]); }
    case StoreSrf(_, _) =>
    case ResetStore(_) => ResetKeeps(c, d);
    case ShortStore =>
  }

  /** A reset empties every bank that exists from the start: DRAM and the two queues keep their length, the others get
      their first length back; a bank a store created is kept. */
  lemma ResetClears(d: Device, b: nat)
    requires b in d.vrf || b in BankSizes()
    ensures b in Reset(d).vrf
    ensures var v := Reset(d).vrf[b];
            (b in BankSizes() ==> v == Zeros(|v|)) && (b !in BankSizes() ==> v == d.vrf[b]) &&
            (b in d.vrf && (b == 0 || b == 2 || b == 3) ==> |v| == |d.vrf[b]|) &&
            (b !in d.vrf || (b in BankSizes() && b != 0 && b != 2 && b != 3) ==> |v| == BankSizes()[b])
  {
  }

  lemma ResetKeeps(c: Config, d: Device)
    requires Configured(c) && Inv(c, d) && SameShape(Initial(c), d)
    ensures Inv(c, Reset(d)) && SameShape(d, Reset(d))
  {
    hide RoundingLaws;
    if !c.fp32 {
      ZeroExact(c);
      forall b | b in Reset(d).vrf && b != MEM_DRAM ensures ExactVec(c.k, Reset(d).vrf[b]) {
        assert Reset(d).vrf[b] == ResetBank(d, b);
      }
    }
    forall b | b in d.vrf ensures |ResetBank(d, b)| == |d.vrf[b]| {
      if b in BankSizes() { assert b in Initial(c).vrf; }
    }
  }

  lemma ZeroExact(c: Config)
    requires RoundingLaws(c) && !c.fp32
    ensures IsExact(c.k, ZERO)
  {
  }

  lemma InitialInv(c: Config)
    requires Configured(c)
    ensures Inv(c, Initial(c)) && SameShape(Initial(c), Initial(c))
  {
  }

  lemma {:induction false} RunKeepsFrom(c: Config, d: Device, events: seq<PortEvent>)
    requires Configured(c) && Inv(c, d) && SameShape(Initial(c), d)
    requires forall i :: 0 <= i < |events| ==> Admissible(events[i])
    ensures Inv(c, Run(c, d, events)) && SameShape(d, Run(c, d, events))
    decreases |events|
  {
    hide Inv, Step, Initial, Admissible, Configured;
    if events == [] {
      ShapeRefl(d);
    } else if d.fault {
      ShapeRefl(d);
    } else {
      StepKeeps(c, d, events[0]);
      ShapeTrans(Initial(c), d, Step(c, d, events[0]));
      RunKeepsFrom(c, Step(c, d, events[0]), events[1..]);
      ShapeTrans(d, Step(c, d, events[0]), Run(c, d, events));
    }
  }

  /** No run that never sets the tile-row count to zero faults, leaves a non-exact number in a
      bank, changes a bank's length or lets the pipeline become narrower than a vector. */
  lemma {:induction false} EveryRunKeeps(c: Config, events: seq<PortEvent>)
    requires Configured(c) && forall i :: 0 <= i < |events| ==> Admissible(events[i])
    ensures var d := Run(c, Initial(c), events);
            !d.fault && WideEnough(c, d.pipe) && SameShape(Initial(c), d) &&
            (!c.fp32 ==> forall b :: b in d.vrf && b != MEM_DRAM ==> ExactVec(c.k, d.vrf[b]))
  {
    InitialInv(c);
    RunKeepsFrom(c, Initial(c), events);
  }

  // ---- When a run can fault ----

  ghost predicate AllAdmissible(events: seq<PortEvent>)
  {
    forall i :: 0 <= i < |events| ==> Admissible(events[i])
  }

  lemma {:induction false} RunConcat(c: Config, d: Device, a: seq<PortEvent>, b: seq<PortEvent>)
    ensures Run(c, d, a + b) == Run(c, Run(c, d, a), b)
    decreases |a|
  {
    hide Step;
    if a == [] {
      assert a + b == b;
    } else if !d.fault {
      assert (a + b)[1..] == a[1..] + b;
      RunConcat(c, Step(c, d, a[0]), a[1..], b);
    }
  }

  lemma RunOne(c: Config, d: Device, e: PortEvent)
    ensures Run(c, d, [e]) == if d.fault then d else Step(c, d, e)
  {
    hide Step;
    if !d.fault { assert Run(c, Step(c, d, e), []) == Step(c, d, e); }
  }

  lemma RunNext(c: Config, d: Device, e: PortEvent, rest: seq<PortEvent>)
    requires !d.fault
    ensures Run(c, d, [e] + rest) == Run(c, Step(c, d, e), rest)
  {
    hide Step;
    RunConcat(c, d, [e], rest);
    RunOne(c, d, e);
  }

  /** Load a matrix, fill, multiply, store: with a zero tile-row count the product is empty. */
  function EmptyProduct(): seq<PortEvent>
  {
    [Instruction(LO(OP_M_RD_DRAM, 0))] + ([Instruction(SI(OP_V_RD, MEM_FILL, 0))] +
    ([Instruction(SI(OP_MV_MUL, 0, 0))] + [Instruction(SI(OP_V_WR, MEM_MULTIPLY_VRF, 0))]))
  }

  lemma {:induction false} EmptyProductFaults(c: Config, d: Device)
    requires c.dim >= 1 && !d.fault && SameShape(Initial(c), d) && Reg(d, REG_TILE_ROWS, 1) == 0
    requires Bit(Reg(d, REG_WRITE_VECTOR_MASK, 0xFF), 0)
    ensures Run(c, d, EmptyProduct()).fault
  {
    hide Run, Step, Initial, Reg, SameShape, Bit, MRd, VRd, MvMul, VWr;
    var d1 := MRd(c, d, 0, 0);
    var d2 := VRd(c, d1, MEM_FILL, 0);
    var d3 := MvMul(c, d2);
    var load, fill := Instruction(LO(OP_M_RD_DRAM, 0)), Instruction(SI(OP_V_RD, MEM_FILL, 0));
    var product := Instruction(SI(OP_MV_MUL, 0, 0));
    var store := Instruction(SI(OP_V_WR, MEM_MULTIPLY_VRF, 0));
    ProductWords(c, d, d1, d2, d3);
    MatrixIsEmpty(c, d);
    StoreRaises(c, d1);
    RunNext(c, d, load, [fill] + ([product] + [store]));
    RunNext(c, d1, fill, [product] + [store]);
    RunNext(c, d2, product, [store]);
    RunOne(c, d3, store);
  }

  lemma ProductWords(c: Config, d: Device, d1: Device, d2: Device, d3: Device)
    ensures Step(c, d, Instruction(LO(OP_M_RD_DRAM, 0))) == MRd(c, d, 0, 0)
    ensures Step(c, d1, Instruction(SI(OP_V_RD, MEM_FILL, 0))) == VRd(c, d1, MEM_FILL, 0)
    ensures Step(c, d2, Instruction(SI(OP_MV_MUL, 0, 0))) == MvMul(c, d2)
    ensures Step(c, d3, Instruction(SI(OP_V_WR, MEM_MULTIPLY_VRF, 0))) == VWr(c, d3, MEM_MULTIPLY_VRF, 0)
  {
    hide MRd, VRd, MvMul, VWr, Push;
    DecodeLO(c, d, OP_M_RD_DRAM, 0);
    DecodeSI(c, d1, OP_V_RD, MEM_FILL, 0);
    DecodeSI(c, d2, OP_MV_MUL, 0, 0);
    DecodeSI(c, d3, OP_V_WR, MEM_MULTIPLY_VRF, 0);
  }

  lemma MatrixIsEmpty(c: Config, d: Device)
    requires !d.fault && SameShape(Initial(c), d) && Reg(d, REG_TILE_ROWS, 1) == 0
    ensures var d1 := MRd(c, d, 0, 0);
            !d1.fault && |d1.mrf| == 0 && d1.vrf == d.vrf &&
            Reg(d1, REG_WRITE_VECTOR_MASK, 0xFF) == Reg(d, REG_WRITE_VECTOR_MASK, 0xFF) && MEM_MULTIPLY_VRF in d.vrf &&
            |d.vrf[MEM_MULTIPLY_VRF]| == 64
  {
    assert MEM_DRAM in Initial(c).vrf && MEM_MULTIPLY_VRF in Initial(c).vrf;
  }

  lemma StoreRaises(c: Config, d: Device)
    requires c.dim >= 1 && !d.fault && |d.mrf| == 0 && MEM_MULTIPLY_VRF in d.vrf && |d.vrf[MEM_MULTIPLY_VRF]| == 64
    requires Bit(Reg(d, REG_WRITE_VECTOR_MASK, 0xFF), 0)
    ensures var filled := VRd(c, d, MEM_FILL, 0);
            !filled.fault && !MvMul(c, filled).fault && VWr(c, MvMul(c, filled), MEM_MULTIPLY_VRF, 0).fault
  {
    hide DecodeFp16, Dot, KernelDot, MaskedStore, Bit;
    var d3 := MvMul(c, VRd(c, d, MEM_FILL, 0));
    assert d3.pipe.Some? && |d3.pipe.value| == 0;
    var n := Fit(c, d3.vrf[MEM_MULTIPLY_VRF], 0);
    assert n >= 1 && LaneSelected(Reg(d3, REG_WRITE_VECTOR_MASK, 0xFF), 0, n);
  }

  /** The exclusion is needed: with a zero tile-row count five instructions make V_WR raise, at every dimension. */
  lemma {:induction false} ZeroTileRowsFaults(c: Config)
    requires c.dim >= 1
    ensures Run(c, Initial(c), [Instruction(SI(OP_S_WR, REG_TILE_ROWS, 0))] + EmptyProduct()).fault
  {
    hide Run, Push;
    var d := SWr(Initial(c), REG_TILE_ROWS, 0);
    DecodeSI(c, Initial(c), OP_S_WR, REG_TILE_ROWS, 0);
    RunNext(c, Initial(c), Instruction(SI(OP_S_WR, REG_TILE_ROWS, 0)), EmptyProduct());
    EmptyProductFaults(c, d);
  }

  /** Any admissible run, one more event, and a continuation. */
  function After(c: Config, before: seq<PortEvent>, e: PortEvent, rest: seq<PortEvent>): Device
  {
    Run(c, Initial(c), before + [e] + rest)
  }

  /** An event makes no admissible continuation fault if and only if it is admissible, after every admissible run. */
  lemma SafeExactlyWhenAdmissible(c: Config, before: seq<PortEvent>, e: PortEvent)
    requires Configured(c) && AllAdmissible(before)
    ensures (forall rest :: AllAdmissible(rest) ==> !After(c, before, e, rest).fault) <==> Admissible(e)
  {
    hide Run, Initial, Configured;
    if Admissible(e) {
      forall rest | AllAdmissible(rest)
        ensures !After(c, before, e, rest).fault
      {
        EveryRunKeeps(c, before + [e] + rest);
      }
    } else {
      var rest := Culprit();
      CulpritFaults(c, before, e);
      CulpritAdmissible();
      assert After(c, before, e, rest).fault;
    }
  }

  /** Open the first store lane, then run the empty product. */
  function Culprit(): seq<PortEvent>
  {
    [Instruction(SI(OP_S_WR, REG_WRITE_VECTOR_MASK, 0xFF))] + EmptyProduct()
  }

  lemma CulpritAdmissible()
    ensures AllAdmissible(Culprit())
  {
    FieldsOfWord(OP_S_WR, REG_WRITE_VECTOR_MASK, 0xFF);
    FieldsOfWord(OP_M_RD_DRAM, 0, 0);
    FieldsOfWord(OP_V_RD, MEM_FILL, 0);
    FieldsOfWord(OP_MV_MUL, 0, 0);
    FieldsOfWord(OP_V_WR, MEM_MULTIPLY_VRF, 0);
  }

  lemma CulpritFaults(c: Config, before: seq<PortEvent>, e: PortEvent)
    requires Configured(c) && AllAdmissible(before) && !Admissible(e)
    ensures After(c, before, e, Culprit()).fault
  {
    hide Run, Initial, EmptyProduct, Inv;
    InitialInv(c);
    RunKeepsFrom(c, Initial(c), before);
    var d := Run(c, Initial(c), before);
    InvMeansNoFault(c, d);
    RunConcat(c, Initial(c), before + [e], Culprit());
    RunConcat(c, Initial(c), before, [e]);
    RunOne(c, d, e);
    var d1 := Step(c, d, e);
    if d1.fault {
      FaultStays(c, d1, Culprit());
    } else {
      OnlyTileRows(c, d, e);
      ShapeTrans(Initial(c), d, d1);
      MaskThenProduct(c, d1);
    }
  }

  lemma InvMeansNoFault(c: Config, d: Device)
    requires Inv(c, d)
    ensures !d.fault
  {
  }

  lemma FaultStays(c: Config, d: Device, events: seq<PortEvent>)
    requires d.fault
    ensures Run(c, d, events) == d
  {
  }

  /** What is not admissible and does not raise at once clears the tile-row count. */
  lemma OnlyTileRows(c: Config, d: Device, e: PortEvent)
    requires !Admissible(e) && !d.fault
    ensures Step(c, d, e).fault || (Step(c, d, e) == SWr(d, REG_TILE_ROWS, 0) && SameShape(d, Step(c, d, e)))
  {
  }

  lemma {:induction false} MaskThenProduct(c: Config, d: Device)
    requires c.dim >= 1 && !d.fault && SameShape(Initial(c), d) && Reg(d, REG_TILE_ROWS, 1) == 0
    ensures Run(c, d, Culprit()).fault
  {
    hide Run, Initial, EmptyProduct, SameShape, Push;
    DecodeSI(c, d, OP_S_WR, REG_WRITE_VECTOR_MASK, 0xFF);
    RunNext(c, d, Instruction(SI(OP_S_WR, REG_WRITE_VECTOR_MASK, 0xFF)), EmptyProduct());
    var d1 := SWr(d, REG_WRITE_VECTOR_MASK, 0xFF);
    assert SameShape(Initial(c), d1) by { ShapeOfBanks(Initial(c), d, d1); }
    EmptyProductFaults(c, d1);
  }

  lemma ShapeOfBanks(d0: Device, d1: Device, d2: Device)
    requires SameShape(d0, d1) && d2.vrf == d1.vrf
    ensures SameShape(d0, d2)
  {
  }

  /** Writing v to the tile-row register is safe for every admissible program if and only if v is at least one. */
  lemma TileRowsSafeIff(c: Config, v: nat)
    requires Configured(c) && v < 0x10000
    ensures (forall rest :: AllAdmissible(rest) ==>
               !After(c, [], Instruction(SI(OP_S_WR, REG_TILE_ROWS, v)), rest).fault) <==> v >= 1
  {
    hide Configured, After;
    FieldsOfWord(OP_S_WR, REG_TILE_ROWS, v);
    SafeExactlyWhenAdmissible(c, [], Instruction(SI(OP_S_WR, REG_TILE_ROWS, v)));
  }

  // ---- A pipeline narrower than the matrix ----

  /** A two by two matrix loaded by a device of dimension one: two tile rows, one lane of pipeline. */
  function NarrowProgram(): seq<PortEvent>
  {
    [StoreDram(0, Fin(1.0))] + ([StoreDram(1, Fin(2.0))] + ([StoreDram(2, Fin(3.0))] + ([StoreDram(3, Fin(4.0))] +
    ([Instruction(SI(OP_S_WR, REG_TILE_ROWS, 2))] + ([Instruction(LO(OP_M_RD_DRAM, 0))] +
    ([Instruction(SI(OP_V_RD, MEM_FILL, 0x3C00))] + [Instruction(SI(OP_MV_MUL, 0, 0))]))))))
  }

  /** The program leaves [1, 2] where the rows' own products with [1] are [1, 3]. */
  lemma {:induction false} NarrowProductReadsAcross(c: Config)
    requires c.fp32 && c.dim == 1
    ensures Run(c, Initial(c), NarrowProgram()).pipe == Some([Fin(1.0), Fin(2.0)])
  {
    hide Run, Push, MRd, VRd, MvMul, Initial;
    var d0 := Initial(c);
    InitialDram(c);
    var dram := d0.vrf[MEM_DRAM][0 := Fin(1.0)][1 := Fin(2.0)][2 := Fin(3.0)][3 := Fin(4.0)];
    var d1 := d0.(vrf := d0.vrf[MEM_DRAM := d0.vrf[MEM_DRAM][0 := Fin(1.0)]]);
    var d2 := d1.(vrf := d1.vrf[MEM_DRAM := d1.vrf[MEM_DRAM][1 := Fin(2.0)]]);
    var d3 := d2.(vrf := d2.vrf[MEM_DRAM := d2.vrf[MEM_DRAM][2 := Fin(3.0)]]);
    var d4 := d3.(vrf := d3.vrf[MEM_DRAM := d3.vrf[MEM_DRAM][3 := Fin(4.0)]]);
    var p7 := [Instruction(SI(OP_MV_MUL, 0, 0))];
    var p6 := [Instruction(SI(OP_V_RD, MEM_FILL, 0x3C00))] + p7;
    var p5 := [Instruction(LO(OP_M_RD_DRAM, 0))] + p6;
    var p4 := [Instruction(SI(OP_S_WR, REG_TILE_ROWS, 2))] + p5;
    var p3 := [StoreDram(3, Fin(4.0))] + p4;
    var p2 := [StoreDram(2, Fin(3.0))] + p3;
    var p1 := [StoreDram(1, Fin(2.0))] + p2;
    RunNext(c, d0, StoreDram(0, Fin(1.0)), p1);
    RunNext(c, d1, StoreDram(1, Fin(2.0)), p2);
    RunNext(c, d2, StoreDram(2, Fin(3.0)), p3);
    RunNext(c, d3, StoreDram(3, Fin(4.0)), p4);
    assert d4.vrf[MEM_DRAM] == dram;
    NarrowTail(c, d4);
  }

  lemma InitialDram(c: Config)
    ensures var d := Initial(c); !d.fault && MEM_DRAM in d.vrf && |d.vrf[MEM_DRAM]| == DRAM_LEN && d.regs == map[]
  {
  }

  /** Set two tile rows, load the matrix, fill the pipeline with ones, multiply. */
  lemma {:induction false} NarrowTail(c: Config, d: Device)
    requires c.fp32 && c.dim == 1 && !d.fault && d.regs == map[] && MEM_DRAM in d.vrf && |d.vrf[MEM_DRAM]| == DRAM_LEN
    requires d.vrf[MEM_DRAM][0] == Fin(1.0) && d.vrf[MEM_DRAM][1] == Fin(2.0)
    requires d.vrf[MEM_DRAM][2] == Fin(3.0) && d.vrf[MEM_DRAM][3] == Fin(4.0)
    ensures Run(c, d, [Instruction(SI(OP_S_WR, REG_TILE_ROWS, 2))] + ([Instruction(LO(OP_M_RD_DRAM, 0))] +
              ([Instruction(SI(OP_V_RD, MEM_FILL, 0x3C00))] + [Instruction(SI(OP_MV_MUL, 0, 0))]))).pipe
            == Some([Fin(1.0), Fin(2.0)])
  {
    hide Run, Push, MRd, VRd, MvMul;
    var d1 := SWr(d, REG_TILE_ROWS, 2);
    var d2 := MRd(c, d1, 0, 0);
    var d3 := VRd(c, d2, MEM_FILL, 0x3C00);
    var p7 := [Instruction(SI(OP_MV_MUL, 0, 0))];
    var p6 := [Instruction(SI(OP_V_RD, MEM_FILL, 0x3C00))] + p7;
    NarrowProduct(c, d);
    DecodeSI(c, d, OP_S_WR, REG_TILE_ROWS, 2);
    DecodeLO(c, d1, OP_M_RD_DRAM, 0);
    DecodeSI(c, d2, OP_V_RD, MEM_FILL, 0x3C00);
    DecodeSI(c, d3, OP_MV_MUL, 0, 0);
    RunNext(c, d, Instruction(SI(OP_S_WR, REG_TILE_ROWS, 2)), [Instruction(LO(OP_M_RD_DRAM, 0))] + p6);
    RunNext(c, d1, Instruction(LO(OP_M_RD_DRAM, 0)), p6);
    RunNext(c, d2, Instruction(SI(OP_V_RD, MEM_FILL, 0x3C00)), p7);
    RunOne(c, d3, Instruction(SI(OP_MV_MUL, 0, 0)));
  }

  lemma NarrowProduct(c: Config, d: Device)
    requires c.fp32 && c.dim == 1 && !d.fault && d.regs == map[] && MEM_DRAM in d.vrf && |d.vrf[MEM_DRAM]| == DRAM_LEN
    requires d.vrf[MEM_DRAM][0] == Fin(1.0) && d.vrf[MEM_DRAM][1] == Fin(2.0)
    requires d.vrf[MEM_DRAM][2] == Fin(3.0) && d.vrf[MEM_DRAM][3] == Fin(4.0)
    ensures var d2 := MRd(c, SWr(d, REG_TILE_ROWS, 2), 0, 0);
            var d3 := VRd(c, d2, MEM_FILL, 0x3C00);
            !d2.fault && !d3.fault && MvMul(c, d3).pipe == Some([Fin(1.0), Fin(2.0)])
  {
    hide DecodeFp16, KernelDot, MaskedMatrix, MatVec, MatrixAt, FullMask;
    var d1 := SWr(d, REG_TILE_ROWS, 2);
    var d2 := MRd(c, d1, 0, 0);
    var d3 := VRd(c, d2, MEM_FILL, 0x3C00);
    OneInFp16();
    var m := [[Fin(1.0), Fin(2.0)], [Fin(3.0), Fin(4.0)]];
    assert d2.mrf == m by { TwoByTwo(c, d.vrf[MEM_DRAM]); }
    DefaultMaskIsFull();
    NothingMasked(d3.mrf, Reg(d3, REG_READ_MATRIX_MASK, 0xFF));
    NarrowMatVec(c, d3.mrf, d3.pipe.value);
  }

  lemma OneInFp16()
    ensures DecodeFp16(0x3C00) == Fin(1.0)
  {
    assert TwoTo(5) == 32;
    assert TwoTo(10) == 1024;
    assert TwoTo(15) == 32768;
  }

  lemma TwoByTwo(c: Config, v: Vec)
    requires c.fp32 && |v| >= 4 && v[..4] == [Fin(1.0), Fin(2.0), Fin(3.0), Fin(4.0)]
    ensures MatrixAt(c, v, 0, 2) == [[Fin(1.0), Fin(2.0)], [Fin(3.0), Fin(4.0)]]
  {
    assert RowStart(0, 2) == 0 && RowStart(1, 2) == 2;
    assert RowAt(c, v, 0, 2) == [v[..4][0], v[..4][1]];
    assert RowAt(c, v, 2, 2) == [v[..4][2], v[..4][3]];
    assert MatrixAt(c, v, 0, 2)[0] == RowAt(c, v, 0 + RowStart(0, 2), 2);
    assert MatrixAt(c, v, 0, 2)[1] == RowAt(c, v, 0 + RowStart(1, 2), 2);
  }

  lemma NarrowMatVec(c: Config, m: Matrix, x: Vec)
    requires c.fp32 && m == [[Fin(1.0), Fin(2.0)], [Fin(3.0), Fin(4.0)]] && x == [Fin(1.0)]
    ensures MatVec(c, m, x) == [Fin(1.0), Fin(2.0)]
  {
    NarrowPipelineReadsAcross(m, x);
    assert RowStart(0, 1) == 0;
    assert KernelDot(m, x, 0, 1, 0) == ZERO && FlatAt(m, 0, 1, 0) == m[0][0];
    assert KernelDot(m, x, 0, 1, 1) == Fin(1.0);
  }
}
