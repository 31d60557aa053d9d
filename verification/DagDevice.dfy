/** The def-use DAG of a trace is true of the exact device: every vector load delivers what the
    store at the source of its edge stored, or the initial contents when it has no edge. */
module DagDevice {
  import opened D = Device
  import opened Numbers
  import opened EventTrace
  import opened Dag
  import opened RunInvariant

  /** Device state before call n; an increment variant's own call is only a marker. */
  function State(c: Config, d0: Device, xs: seq<Call>, n: nat): Device
    requires n <= |xs|
  {
    if n == 0 then d0 else StepCall(c, State(c, d0, xs, n - 1), xs[n - 1])
  }

  function StepCall(c: Config, d: Device, x: Call): Device
  {
    if IncBase(x.op).Some? then d else ExecuteBase(c, d, x.op, x.opd0, x.opd1, x.full)
  }

  /** The vector memories the tracer distinguishes: DRAM is bank 0. */
  function ResourceOf(bank: nat, off: nat): Resource
  {
    if bank == MEM_DRAM then DRAM(off) else VRF(bank, off)
  }

  /** A vector load of a bank, at an offset. */
  predicate Loads(x: Call, bank: nat, off: nat)
  {
    if bank == MEM_DRAM then x.op == OP_V_RD_DRAM && x.full == off
    else x.op == OP_V_RD && x.opd0 == bank && x.opd1 == off && bank != MEM_FILL && bank != MEM_SPU_BROADCAST
  }

  /** A vector store to a bank, at an offset. */
  predicate Stores(x: Call, bank: nat, off: nat)
  {
    if bank == MEM_DRAM then x.op == OP_V_WR_DRAM && x.full == off
    else x.op == OP_V_WR && x.opd0 == bank && x.opd1 == off && bank != MEM_VEC_TO_MAT_ROW && !IsReduce(bank)
  }

  predicate Touches(x: Call, bank: nat, off: nat)
  {
    Loads(x, bank, off) || Stores(x, bank, off)
  }

  /** Accesses to one bank start at equal offsets or at least a vector apart. */
  ghost predicate Spaced(c: Config, xs: seq<Call>)
  {
    forall i, j, bank: nat, a: nat, b: nat ::
      0 <= i < |xs| && 0 <= j < |xs| && Touches(xs[i], bank, a) && Touches(xs[j], bank, b) ==>
      a == b || a + c.dim <= b || b + c.dim <= a
  }

  /** No matrix store to DRAM, no V_RD or V_WR naming DRAM as a bank, no zero tile-row count. */
  predicate Plain(x: Call)
  {
    x.op != OP_M_WR_DRAM && !((x.op == OP_V_RD || x.op == OP_V_WR) && x.opd0 == MEM_DRAM) &&
    KeepsTileRows(x.op, x.opd0, x.opd1)
  }

  /** Every store finds a pipeline to store. */
  ghost predicate PipeReady(c: Config, d0: Device, xs: seq<Call>)
  {
    forall i :: 0 <= i < |xs| && (xs[i].op == OP_V_WR || xs[i].op == OP_V_WR_DRAM) ==> State(c, d0, xs, i).pipe.Some?
  }

  ghost predicate GoodRun(c: Config, d0: Device, xs: seq<Call>)
  {
    c.fp32 && Configured(c) && Inv(c, d0) && MEM_DRAM in d0.vrf && Spaced(c, xs) && PipeReady(c, d0, xs) &&
    forall i :: 0 <= i < |xs| ==> Plain(xs[i])
  }

  /** The pipeline as a bank of that length hands it back: cut at the end of the bank. */
  function Delivered(c: Config, p: Vec, len: nat, off: nat): (v: Vec)
    requires |p| >= c.dim
    ensures |v| == c.dim && forall i :: 0 <= i < c.dim ==> v[i] == if off + i < len then p[i] else ZERO
  {
    seq(c.dim, i requires 0 <= i < c.dim => if off + i < len then p[i] else ZERO)
  }

  lemma {:induction false} StateInv(c: Config, d0: Device, xs: seq<Call>, n: nat)
    requires GoodRun(c, d0, xs) && n <= |xs|
    ensures Inv(c, State(c, d0, xs, n)) && SameShape(d0, State(c, d0, xs, n))
  {
    hide Inv, SameShape, ExecuteBase, Spaced, PipeReady;
    if n == 0 {
      ShapeRefl(d0);
    } else {
      StateInv(c, d0, xs, n - 1);
      var d, x := State(c, d0, xs, n - 1), xs[n - 1];
      ShapeRefl(d);
      BaseKeeps(c, d, x.op, x.opd0, x.opd1, x.full);
      ShapeTrans(d0, d, State(c, d0, xs, n));
    }
  }

  /** The only offset a call can store to. */
  function StoreOff(x: Call): nat
  {
    if x.op == OP_V_WR_DRAM then x.full else x.opd1
  }

  lemma BankUnstored(c: Config, d: Device, x: Call, bank: nat)
    requires c.fp32 && Inv(c, d) && Plain(x) && !Stores(x, bank, StoreOff(x))
    ensures BankOrNew(c, StepCall(c, d, x), bank) == BankOrNew(c, d, bank)
  {
    hide ExactBanks, DecodeFp16, Dot, Sum, NpMax;
  }

  lemma BankStored(c: Config, d: Device, x: Call, bank: nat, off: nat)
    requires c.fp32 && Inv(c, d) && Plain(x) && Stores(x, bank, off) && d.pipe.Some? && MEM_DRAM in d.vrf
    ensures var b0, b1 := BankOrNew(c, d, bank), BankOrNew(c, StepCall(c, d, x), bank);
            |b1| == |b0| &&
            forall k :: 0 <= k < |b0| ==> b1[k] == if off <= k < off + c.dim then d.pipe.value[k - off] else b0[k]
  {
    hide ExactBanks;
  }

  /** A store to the same offset replaces the window; any other leaves it alone. */
  lemma WindowStep(c: Config, d: Device, x: Call, bank: nat, off: nat)
    requires c.fp32 && Inv(c, d) && Plain(x) && MEM_DRAM in d.vrf
    requires x.op == OP_V_WR || x.op == OP_V_WR_DRAM ==> d.pipe.Some?
    requires forall a: nat :: Stores(x, bank, a) ==> a == off || a + c.dim <= off || off + c.dim <= a
    ensures var b0, b1 := BankOrNew(c, d, bank), BankOrNew(c, StepCall(c, d, x), bank);
            |b1| == |b0| &&
            Window(c, b1, off) == if Stores(x, bank, off) then Delivered(c, d.pipe.value, |b0|, off)
                                  else Window(c, b0, off)
  {
    hide StepCall, BankOrNew, Inv;
    var a := StoreOff(x);
    if Stores(x, bank, a) {
      PipeWide(c, d);
      BankStored(c, d, x, bank, a);
      var b0, b1 := BankOrNew(c, d, bank), BankOrNew(c, StepCall(c, d, x), bank);
      if a == off {
        assert Window(c, b1, off) == Delivered(c, d.pipe.value, |b0|, off);
      } else {
        assert Window(c, b1, off) == Window(c, b0, off);
      }
    } else {
      BankUnstored(c, d, x, bank);
    }
  }

  lemma PipeWide(c: Config, d: Device)
    requires Inv(c, d)
    ensures d.pipe.Some? ==> |d.pipe.value| >= c.dim
  {
  }

  /** Call i is the last before n to store to this bank at this offset. */
  ghost predicate LastStore(xs: seq<Call>, i: nat, n: nat, bank: nat, off: nat)
    requires n <= |xs|
  {
    i < n && Stores(xs[i], bank, off) && forall k :: i < k < n ==> !Stores(xs[k], bank, off)
  }

  ghost predicate NeverStored(xs: seq<Call>, n: nat, bank: nat, off: nat)
    requires n <= |xs|
  {
    forall k :: 0 <= k < n ==> !Stores(xs[k], bank, off)
  }

  lemma SpacedStores(c: Config, d0: Device, xs: seq<Call>, k: nat, j: nat, bank: nat, off: nat)
    requires GoodRun(c, d0, xs) && k < |xs| && j < |xs| && Touches(xs[j], bank, off)
    ensures forall a: nat :: Stores(xs[k], bank, a) ==> a == off || a + c.dim <= off || off + c.dim <= a
    ensures xs[k].op == OP_V_WR || xs[k].op == OP_V_WR_DRAM ==> State(c, d0, xs, k).pipe.Some?
    ensures Plain(xs[k])
  {
    forall a: nat | Stores(xs[k], bank, a)
      ensures a == off || a + c.dim <= off || off + c.dim <= a
    {
      assert Touches(xs[k], bank, a);
    }
  }

  /** One call of a good run, seen at an offset the run accesses. */
  lemma WindowStepInRun(c: Config, d0: Device, xs: seq<Call>, k: nat, j: nat, bank: nat, off: nat)
    requires GoodRun(c, d0, xs) && k < |xs| && j < |xs| && Touches(xs[j], bank, off)
    ensures var d := State(c, d0, xs, k);
            var b0, b1 := BankOrNew(c, d, bank), BankOrNew(c, State(c, d0, xs, k + 1), bank);
            |b1| == |b0| &&
            (!Stores(xs[k], bank, off) ==> Window(c, b1, off) == Window(c, b0, off)) &&
            (Stores(xs[k], bank, off) ==>
              d.pipe.Some? && |d.pipe.value| >= c.dim && Window(c, b1, off) == Delivered(c, d.pipe.value, |b0|, off))
  {
    StateInv(c, d0, xs, k);
    PipeWide(c, State(c, d0, xs, k));
    SpacedStores(c, d0, xs, k, j, bank, off);
    hide Inv, StepCall, Touches, Spaced, BankOrNew, PipeReady;
    WindowStep(c, State(c, d0, xs, k), xs[k], bank, off);
  }

  /** The window an accessed offset sees is what its last store stored, or the initial contents. */
  lemma {:induction false} WindowHistory(c: Config, d0: Device, xs: seq<Call>, j: nat, bank: nat, off: nat, n: nat)
    requires GoodRun(c, d0, xs) && n <= j < |xs| && Touches(xs[j], bank, off)
    ensures |BankOrNew(c, State(c, d0, xs, n), bank)| == |BankOrNew(c, d0, bank)|
    ensures NeverStored(xs, n, bank, off) ==>
      Window(c, BankOrNew(c, State(c, d0, xs, n), bank), off) == Window(c, BankOrNew(c, d0, bank), off)
    ensures forall i: nat :: LastStore(xs, i, n, bank, off) ==>
      State(c, d0, xs, i).pipe.Some? && |State(c, d0, xs, i).pipe.value| >= c.dim &&
      Window(c, BankOrNew(c, State(c, d0, xs, n), bank), off)
        == Delivered(c, State(c, d0, xs, i).pipe.value, |BankOrNew(c, d0, bank)|, off)
  {
    hide Inv, StepCall, Stores, Touches, GoodRun, BankOrNew;
    if n > 0 {
      WindowHistory(c, d0, xs, j, bank, off, n - 1);
      WindowStepInRun(c, d0, xs, n - 1, j, bank, off);
      forall i: nat | LastStore(xs, i, n, bank, off)
        ensures State(c, d0, xs, i).pipe.Some? && |State(c, d0, xs, i).pipe.value| >= c.dim
        ensures Window(c, BankOrNew(c, State(c, d0, xs, n), bank), off)
          == Delivered(c, State(c, d0, xs, i).pipe.value, |BankOrNew(c, d0, bank)|, off)
      {
        if i < n - 1 { assert LastStore(xs, i, n - 1, bank, off); }
      }
    }
  }

  /** Stores are exactly what the tracer's definitions say, and loads what its uses say. */
  lemma DefsAreStores(x: Call, bank: nat, off: nat)
    requires Plain(x) && bank != MEM_VEC_TO_MAT_ROW && !IsReduce(bank)
    ensures ResourceOf(bank, off) in Defs(x) <==> Stores(x, bank, off)
    ensures Loads(x, bank, off) ==> ResourceOf(bank, off) in Uses(x)
  {
  }

  /** What a load leaves in the pipeline. */
  lemma LoadDelivers(c: Config, d: Device, x: Call, bank: nat, off: nat)
    requires c.fp32 && Loads(x, bank, off) && bank in d.vrf
    ensures StepCall(c, d, x).pipe == Some(Window(c, BankOrNew(c, d, bank), off))
  {
    if bank == MEM_DRAM {
      assert MaskedWindow(c, d.vrf[bank], off, Reg(d, REG_READ_VECTOR_MASK, 0xFF)) == Window(c, d.vrf[bank], off);
    }
  }

  /** The events are those of the calls, whatever instruction words caused them. */
  ghost predicate Describes(events: seq<Event>, xs: seq<Call>)
  {
    |events| == |xs| && forall i :: 0 <= i < |xs| ==> events[i].defs == Defs(xs[i]) && events[i].uses == Uses(xs[i])
  }

  /** Load j leaves in the pipeline what the store at the source of its edge stored, cut at the end of the bank, or
      the initial contents when no edge enters it. */
  ghost predicate FollowsEdges(c: Config, d0: Device, xs: seq<Call>, edges: seq<Edge>, j: nat, bank: nat, off: nat)
    requires j < |xs|
  {
    (forall i: nat :: Edge(i, j, ResourceOf(bank, off)) in edges ==>
      i < j && Stores(xs[i], bank, off) && State(c, d0, xs, i).pipe.Some? &&
      |State(c, d0, xs, i).pipe.value| >= c.dim &&
      State(c, d0, xs, j + 1).pipe
        == Some(Delivered(c, State(c, d0, xs, i).pipe.value, |BankOrNew(c, d0, bank)|, off))) &&
    ((forall i: nat :: Edge(i, j, ResourceOf(bank, off)) !in edges) ==>
      State(c, d0, xs, j + 1).pipe == Some(Window(c, BankOrNew(c, d0, bank), off)))
  }

  /** The edges of the DAG tell where every vector load gets its data. */
  lemma LoadsFollowEdges(c: Config, d0: Device, xs: seq<Call>, events: seq<Event>, edges: seq<Edge>, j: nat, bank: nat,
                         off: nat)
    requires GoodRun(c, d0, xs) && j < |xs| && Loads(xs[j], bank, off) && bank in State(c, d0, xs, j).vrf
    requires bank != MEM_VEC_TO_MAT_ROW && !IsReduce(bank)
    requires Describes(events, xs) && forall e :: e in edges <==> IsEdge(events, e)
    ensures FollowsEdges(c, d0, xs, edges, j, bank, off)
  {
    hide GoodRun, Describes, State, Loads, Delivered, Window;
    EdgesDeliver(c, d0, xs, events, edges, j, bank, off);
  }

  lemma EdgesDeliver(c: Config, d0: Device, xs: seq<Call>, events: seq<Event>, edges: seq<Edge>, j: nat, bank: nat,
                     off: nat)
    requires GoodRun(c, d0, xs) && j < |xs| && Loads(xs[j], bank, off) && bank in State(c, d0, xs, j).vrf
    requires bank != MEM_VEC_TO_MAT_ROW && !IsReduce(bank)
    requires Describes(events, xs) && forall e :: e in edges <==> IsEdge(events, e)
    ensures forall i: nat :: Edge(i, j, ResourceOf(bank, off)) in edges ==>
      i < j && Stores(xs[i], bank, off) && State(c, d0, xs, i).pipe.Some? &&
      |State(c, d0, xs, i).pipe.value| >= c.dim &&
      State(c, d0, xs, j + 1).pipe
        == Some(Delivered(c, State(c, d0, xs, i).pipe.value, |BankOrNew(c, d0, bank)|, off))
    ensures (forall i: nat :: Edge(i, j, ResourceOf(bank, off)) !in edges) ==>
      State(c, d0, xs, j + 1).pipe == Some(Window(c, BankOrNew(c, d0, bank), off))
  {
    var r := ResourceOf(bank, off);
    WindowHistory(c, d0, xs, j, bank, off, j);
    LoadDelivers(c, State(c, d0, xs, j), xs[j], bank, off);
    DefsAreStores(xs[j], bank, off);
    hide StepCall, GoodRun, ResourceOf, Stores, Touches, Defs, Uses, OpcodeName;
    forall k | 0 <= k < j ensures r in events[k].defs <==> Stores(xs[k], bank, off) {
      PlainAt(c, d0, xs, k);
      DefsAreStores(xs[k], bank, off);
    }
    forall i: nat | Edge(i, j, r) in edges
      ensures LastStore(xs, i, j, bank, off)
    {
      assert Reaches(events, i, j, r);
    }
    if !NeverStored(xs, j, bank, off) {
      var i := SomeReaches(events, j, r);
      assert Edge(i, j, r) in edges;
    }
  }

  lemma PlainAt(c: Config, d0: Device, xs: seq<Call>, k: nat)
    requires GoodRun(c, d0, xs) && k < |xs|
    ensures Plain(xs[k])
  {
  }

  // ---- Instructions and the calls the tracer sees ----

  lemma {:induction false} StateAppend(c: Config, d: Device, xs: seq<Call>, ys: seq<Call>, n: nat)
    requires n <= |ys|
    ensures State(c, d, xs + ys, |xs| + n) == State(c, State(c, d, xs, |xs|), ys, n)
  {
    hide StepCall;
    if n == 0 {
      StatePrefix(c, d, xs, ys, |xs|);
    } else {
      StateAppend(c, d, xs, ys, n - 1);
      assert (xs + ys)[|xs| + n - 1] == ys[n - 1];
    }
  }

  lemma {:induction false} StatePrefix(c: Config, d: Device, xs: seq<Call>, ys: seq<Call>, n: nat)
    requires n <= |xs|
    ensures State(c, d, xs + ys, n) == State(c, d, xs, n)
  {
    if n > 0 { StatePrefix(c, d, xs, ys, n - 1); }
  }

  lemma {:induction false} IncReplays(c: Config, d: Device, base: nat, opd0: nat, addr: nat, inc: nat, count: nat)
    requires IncBase(base).None?
    ensures var xs := IncCalls(c, d, base, opd0, addr, inc, count);
            State(c, d, xs, |xs|) == ExecuteInc(c, d, base, opd0, addr, inc, count)
    decreases count
  {
    hide ExecuteBase;
    if count > 0 && !d.fault {
      var d1 := D.ExecuteBase(c, d, base, opd0, 0, addr);
      IncReplays(c, d1, base, opd0, addr + inc, inc, count - 1);
      var rest := IncCalls(c, d1, base, opd0, addr + inc, inc, count - 1);
      var x := Call(base, opd0, 0, addr);
      assert State(c, d, [x], 1) == StepCall(c, State(c, d, [x], 0), x);
      StateAppend(c, d, [x], rest, |rest|);
    }
  }

  /** Replaying the calls an instruction causes gives the state the instruction gives, except for
      the auto-increment address, which no traced resource depends on. */
  lemma CallsReplay(c: Config, d: Device, x: Call)
    ensures var xs := CallsOf(c, d, x);
            State(c, d, xs, |xs|) == Execute(c, d, x.op, x.opd0, x.opd1, x.full).(dramAddr := d.dramAddr)
  {
    hide ExecuteBase;
    match IncBase(x.op)
    case None =>
      assert State(c, d, [x], 1) == StepCall(c, State(c, d, [x], 0), x);
      BaseKeepsDramAddr(c, d, x.op, x.opd0, x.opd1, x.full);
    case Some(base) =>
      var rest := IncCalls(c, d, base, x.opd0, d.dramAddr, x.opd1, IncCount(d));
      IncReplays(c, d, base, x.opd0, d.dramAddr, x.opd1, IncCount(d));
      assert State(c, d, [x], 1) == StepCall(c, State(c, d, [x], 0), x);
      StateAppend(c, d, [x], rest, |rest|);
      IncKeepsDramAddr(c, d, base, x.opd0, d.dramAddr, x.opd1, IncCount(d));
  }

  lemma {:induction false} IncKeepsDramAddr(c: Config, d: Device, base: nat, opd0: nat, addr: nat, inc: nat, count: nat)
    ensures ExecuteInc(c, d, base, opd0, addr, inc, count).dramAddr == d.dramAddr
    decreases count
  {
    if count > 0 && !d.fault {
      BaseKeepsDramAddr(c, d, base, opd0, 0, addr);
      IncKeepsDramAddr(c, D.ExecuteBase(c, d, base, opd0, 0, addr), base, opd0, addr + inc, inc, count - 1);
    }
  }

  // ---- Whole programs ----

  lemma VRdIgnoresDramAddr(c: Config, d: Device, a: nat, b: nat, z: nat)
    ensures VRd(c, d.(dramAddr := z), a, b) == VRd(c, d, a, b).(dramAddr := z)
  {
    hide DecodeFp16, Window;
  }

  lemma VRdDramIgnoresDramAddr(c: Config, d: Device, a: nat, z: nat)
    ensures VRdDram(c, d.(dramAddr := z), a) == VRdDram(c, d, a).(dramAddr := z)
  {
    hide MaskedWindow, Fit;
  }

  lemma MRdIgnoresDramAddr(c: Config, d: Device, a: nat, b: nat, z: nat)
    ensures MRd(c, d.(dramAddr := z), a, b) == MRd(c, d, a, b).(dramAddr := z)
  {
    hide MatrixAt, RowsToMatrix;
  }

  lemma VWrDramIgnoresDramAddr(c: Config, d: Device, a: nat, z: nat)
    ensures VWrDram(c, d.(dramAddr := z), a) == VWrDram(c, d, a).(dramAddr := z)
  {
    hide RndVec, Overlay, Fit;
  }

  lemma MWrDramIgnoresDramAddr(c: Config, d: Device, a: nat, z: nat)
    ensures MWrDram(c, d.(dramAddr := z), a) == MWrDram(c, d, a).(dramAddr := z)
  {
    hide D.Flatten, Overlay;
  }

  lemma SWrIgnoresDramAddr(d: Device, a: nat, b: nat, z: nat)
    ensures SWr(d.(dramAddr := z), a, b) == SWr(d, a, b).(dramAddr := z)
  {
  }

  lemma MvMulIgnoresDramAddr(c: Config, d: Device, z: nat)
    ensures MvMul(c, d.(dramAddr := z)) == MvMul(c, d).(dramAddr := z)
  {
    hide MatVec, MaskedMatrix;
  }

  lemma VVIgnoresDramAddr(c: Config, d: Device, op: nat, z: nat)
    ensures VV(c, d.(dramAddr := z), op) == VV(c, d, op).(dramAddr := z)
  {
    hide Lanes;
  }

  lemma FinishActivationIgnoresDramAddr(c: Config, d: Device, r: Vec, z: nat)
    ensures FinishActivation(c, d.(dramAddr := z), r) == FinishActivation(c, d, r).(dramAddr := z)
  {
    hide RndVec, Overlay;
  }

  lemma SpuFuncIgnoresDramAddr(c: Config, d: Device, op: nat, a: nat, b: nat, z: nat)
    ensures SpuFunc(c, d.(dramAddr := z), op, a, b) == SpuFunc(c, d, op, a, b).(dramAddr := z)
  {
    hide Recip, Mul;
  }

  lemma VWrIgnoresDramAddr(c: Config, d: Device, a: nat, b: nat, z: nat)
    ensures VWr(c, d.(dramAddr := z), a, b) == VWr(c, d, a, b).(dramAddr := z)
  {
    hide Sum, NpMax, Map, VWrBank;
    if d.pipe.Some? { VWrBankIgnoresDramAddr(c, d, a, b, z); }
  }

  lemma VWrBankIgnoresDramAddr(c: Config, d: Device, a: nat, b: nat, z: nat)
    requires d.pipe.Some?
    ensures VWrBank(c, d.(dramAddr := z), a, b) == VWrBank(c, d, a, b).(dramAddr := z)
  {
    hide StoreLanes;
  }

  lemma VActivationIgnoresDramAddr(c: Config, d: Device, op: nat, z: nat)
    ensures VActivation(c, d.(dramAddr := z), op) == VActivation(c, d, op).(dramAddr := z)
  {
    hide FinishActivation, ActivateVec;
    if d.pipe.Some? { FinishActivationIgnoresDramAddr(c, d, ActivateVec(c, op, d.pipe.value), z); }
  }

  lemma VFuncIgnoresDramAddr(c: Config, d: Device, sub: nat, z: nat)
    ensures VFunc(c, d.(dramAddr := z), sub) == VFunc(c, d, sub).(dramAddr := z)
  {
    hide FinishActivation, SoftmaxVec, LayernormVec;
    if d.pipe.Some? {
      var p := d.pipe.value;
      FinishActivationIgnoresDramAddr(c, d, SoftmaxVec(c, p), z);
      FinishActivationIgnoresDramAddr(c, d,
        LayernormVec(c, p, Prefix(d, MEM_MVM_INITIAL_VRF, Fin(1.0), |p|), Prefix(d, MEM_ADDSUB_VRF_0, ZERO, |p|)), z);
    }
  }

  /** No handler looks at the auto-increment address. */
  lemma StepIgnoresDramAddr(c: Config, d: Device, x: Call, z: nat)
    ensures StepCall(c, d.(dramAddr := z), x) == StepCall(c, d, x).(dramAddr := z)
  {
    hide SWr, VRd, VRdDram, MRd, VWr, VWrDram, MWrDram, MvMul, VV, VActivation, VFunc, SpuFunc;
    if x.op == OP_S_WR { SWrIgnoresDramAddr(d, x.opd0, x.opd1, z); }
    else if x.op == OP_V_RD { VRdIgnoresDramAddr(c, d, x.opd0, x.opd1, z); }
    else if x.op == OP_V_RD_DRAM { VRdDramIgnoresDramAddr(c, d, x.full, z); }
    else if x.op == OP_M_RD || x.op == OP_M_RD_DRAM { MRdIgnoresDramAddr(c, d, x.opd0, x.full, z); }
    else if x.op == OP_V_WR { VWrIgnoresDramAddr(c, d, x.opd0, x.opd1, z); }
    else if x.op == OP_V_WR_DRAM { VWrDramIgnoresDramAddr(c, d, x.full, z); }
    else if x.op == OP_M_WR_DRAM { MWrDramIgnoresDramAddr(c, d, x.full, z); }
    else if x.op == OP_MV_MUL { MvMulIgnoresDramAddr(c, d, z); }
    else if IsVV(x.op) { VVIgnoresDramAddr(c, d, x.op, z); }
    else if IsActivation(x.op) { VActivationIgnoresDramAddr(c, d, x.op, z); }
    else if x.op == OP_V_FUNC { VFuncIgnoresDramAddr(c, d, x.opd0, z); }
    else if IsSpuFunc(x.op) { SpuFuncIgnoresDramAddr(c, d, x.op, x.opd0, x.opd1, z); }
  }

  lemma {:induction false} StateIgnoresDramAddr(c: Config, d: Device, xs: seq<Call>, n: nat, z: nat)
    requires n <= |xs|
    ensures State(c, d.(dramAddr := z), xs, n) == State(c, d, xs, n).(dramAddr := z)
  {
    hide StepCall;
    if n > 0 {
      StateIgnoresDramAddr(c, d, xs, n - 1, z);
      StepIgnoresDramAddr(c, State(c, d, xs, n - 1), xs[n - 1], z);
    }
  }

  /** Replaying all calls of a program gives the state the program leaves, but for the auto-increment address. */
  lemma {:induction false} ProgramReplays(c: Config, d: Device, words: seq<nat>)
    ensures var xs := CallsOfRun(c, d, words);
            State(c, d, xs, |xs|) == PushAll(c, d, words).(dramAddr := d.dramAddr)
    decreases |words|
  {
    hide StepCall, CallsOf, D.Execute, State;
    if words == [] {
      NothingReplayed(c, d);
    } else {
      var x, d1 := CallOf(words[0]), Push(c, d, words[0]);
      var ys, rest := CallsOf(c, d, x), CallsOfRun(c, d1, words[1..]);
      CallsReplay(c, d, x);
      StateAppend(c, d, ys, rest, |rest|);
      StateIgnoresDramAddr(c, d1, rest, |rest|, d.dramAddr);
      ProgramReplays(c, d1, words[1..]);
    }
  }

  lemma {:induction false} NothingReplayed(c: Config, d: Device)
    ensures State(c, d, [], 0) == d
  {
  }

  /** The tracer's list for a program describes the calls the program makes. */
  lemma {:induction false} ProgramDescribed(c: Config, d: Device, idx: nat, words: seq<nat>)
    ensures Describes(EventsOfRun(c, d, idx, words), CallsOfRun(c, d, words))
    decreases |words|
  {
    hide Push, CallsOf, Defs, Uses, OpcodeName;
    if words != [] {
      var xs := CallsOf(c, d, CallOf(words[0]));
      ProgramDescribed(c, Push(c, d, words[0]), idx + |xs|, words[1..]);
    }
  }

  /** For every program: build the DAG of the events it traces, and every vector load it makes follows its edges. */
  lemma ProgramLoadsFollowEdges(c: Config, d0: Device, words: seq<nat>, edges: seq<Edge>, j: nat, bank: nat, off: nat)
    requires var xs := CallsOfRun(c, d0, words);
             GoodRun(c, d0, xs) && j < |xs| && Loads(xs[j], bank, off) && bank in State(c, d0, xs, j).vrf
    requires bank != MEM_VEC_TO_MAT_ROW && !IsReduce(bank)
    requires forall e :: e in edges <==> IsEdge(EventsOfRun(c, d0, 0, words), e)
    ensures FollowsEdges(c, d0, CallsOfRun(c, d0, words), edges, j, bank, off)
  {
    hide GoodRun, FollowsEdges, CallsOfRun, EventsOfRun, State;
    ProgramDescribed(c, d0, 0, words);
    LoadsFollowEdges(c, d0, CallsOfRun(c, d0, words), EventsOfRun(c, d0, 0, words), edges, j, bank, off);
  }
}
