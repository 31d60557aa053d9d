/** The tracer's def-use table against the device: what an instruction leaves in the resources the table lists as
    defined depends only on those it lists as used and on those named in Omitted, and no resource changes but those
    listed as defined, those named in Undeclared, and windows the write runs across. */
module TraceTable {
  import opened Arithmetic
  import opened Numbers
  import opened D = Device
  import opened Firmware
  import opened EventTrace
  import opened Dag
  import opened DagDevice

  /** What a resource holds: the bank windows are the raw elements, and the row buffer counts as bank 18. */
  datatype Content =
    | Register(v: Option<nat>)
    | Scalar(x: Num)
    | Words(w: Vec, rows: seq<Vec>)
    | Operand(p: Option<Vec>)
    | Square(m: Matrix)
    | Unseen

  /** n elements of v from a on, zero past the end. */
  function Cells(n: nat, v: Vec, a: nat): (w: Vec)
    ensures |w| == n && forall i :: 0 <= i < n ==> w[i] == if a + i < |v| then v[a + i] else ZERO
  {
    seq(n, i requires 0 <= i < n => if a + i < |v| then v[a + i] else ZERO)
  }

  function Held(c: Config, d: Device, r: Resource): Content
  {
    match r
    case REG(i) => Register(if i in d.regs then Some(d.regs[i]) else None)
    case SRF(i) => Scalar(if i < |d.srf| then d.srf[i] else ZERO)
    case VRF(b, a) =>
      Words(Cells(c.dim, BankOrNew(c, d, b), a), if b == MEM_VEC_TO_MAT_ROW && a == 0 then d.rowBuffer else [])
    case DRAM(a) => Words(Cells(c.dim, BankOrNew(c, d, MEM_DRAM), a), [])
    case Pipe => Operand(d.pipe)
    case VpipeA => Operand(d.vpipeA)
    case MRF => Square(d.mrf)
    case MRFRow(_) => Unseen
  }

  ghost predicate Agree(c: Config, d1: Device, d2: Device, rs: seq<Resource>)
  {
    forall r :: r in rs ==> Held(c, d1, r) == Held(c, d2, r)
  }

  /** The same banks of the same lengths, and as many scalars. */
  predicate SameLayout(d1: Device, d2: Device)
  {
    d1.vrf.Keys == d2.vrf.Keys && (forall b :: b in d1.vrf ==> |d1.vrf[b]| == |d2.vrf[b]|) && |d1.srf| == |d2.srf|
  }

  // ---- What the table leaves out ----

  predicate Wide(c: Config, d: Device)
  {
    d.pipe.Some? && |d.pipe.value| >= c.dim
  }

  /** Side of the tile M_RD_DRAM loads. */
  function Side(c: Config, d: Device): nat
  {
    Reg(d, REG_TILE_ROWS, 1) * c.dim
  }

  predicate LoadsTile(c: Config, d: Device, full: nat)
  {
    MEM_DRAM in d.vrf && full < |d.vrf[MEM_DRAM]| && full + Side(c, d) * Side(c, d) <= |d.vrf[MEM_DRAM]|
  }

  /** Elements lo .. hi - 1 behind an address of DRAM, or of a bank. */
  function DramCells(a: nat, lo: nat, hi: nat): (rs: seq<Resource>)
    requires lo <= hi
    ensures forall r :: r in rs <==> r.DRAM? && a + lo <= r.addr < a + hi
  {
    if lo == hi then [] else DramCells(a, lo, hi - 1) + [DRAM(a + hi - 1)]
  }

  function BankCells(b: nat, lo: nat, hi: nat): (rs: seq<Resource>)
    requires lo <= hi
    ensures forall r :: r in rs <==> r.VRF? && r.bank == b && lo <= r.off < hi
  {
    if lo == hi then [] else BankCells(b, lo, hi - 1) + [VRF(b, hi - 1)]
  }

  /** Resources the result depends on that the table does not list as used: the pipeline and operand a load moves or
      keeps, the row buffer and the scalar that are added to, the mask and tile-size registers, a tile beyond its first
      vector, parameters beyond the first vector, and whatever a store that stores nothing leaves in place. */
  function Omitted(c: Config, d: Device, x: Call): seq<Resource>
  {
    if x.op == OP_V_RD then [Pipe, VpipeA]
    else if x.op == OP_V_RD_DRAM then [Pipe, VpipeA] + if c.fp32 then [] else [REG(REG_READ_VECTOR_MASK)]
    else if x.op == OP_M_RD then if x.opd0 == MEM_VEC_TO_MAT_ROW then [VRF(MEM_VEC_TO_MAT_ROW, 0)] else [Pipe, VpipeA]
    else if x.op == OP_M_RD_DRAM then
      if x.opd0 == MEM_VEC_TO_MAT_ROW then [VRF(MEM_VEC_TO_MAT_ROW, 0)]
      else [REG(REG_TILE_ROWS)] +
           if !LoadsTile(c, d, x.full) then [MRF]
           else if Side(c, d) * Side(c, d) <= c.dim then []
           else DramCells(x.full, c.dim, Side(c, d) * Side(c, d))
    else if x.op == OP_V_WR then
      if x.opd0 == MEM_VEC_TO_MAT_ROW then [VRF(MEM_VEC_TO_MAT_ROW, 0)]
      else if IsReduce(x.opd0) then [SRF(x.opd1)]
      else if c.fp32 && Wide(c, d) then []
      else [VRF(x.opd0, x.opd1)] + if c.fp32 then [] else [REG(REG_WRITE_VECTOR_MASK)]
    else if x.op == OP_V_WR_DRAM then if Wide(c, d) then [] else [DRAM(x.full)]
    else if x.op == OP_M_WR_DRAM then
      if MEM_DRAM in d.vrf && x.full + |d.mrf| * |d.mrf| <= |d.vrf[MEM_DRAM]| && |d.mrf| * |d.mrf| >= c.dim then []
      else [DRAM(x.full)]
    else if x.op == OP_MV_MUL then [REG(REG_READ_MATRIX_MASK)]
    else if x.op == OP_V_FUNC && x.opd0 == SUB_LAYERNORM && d.pipe.Some? && |d.pipe.value| > c.dim then
      BankCells(MEM_MVM_INITIAL_VRF, c.dim, |d.pipe.value|) + BankCells(MEM_ADDSUB_VRF_0, c.dim, |d.pipe.value|)
    else if x.op == OP_SS_ADD then [SRF(x.opd1)]
    else if IsSpuFunc(x.op) then [SRF(x.opd1), SRF(x.opd1 % 64), SRF(x.opd0 % 64)]
    else []
  }

  /** Resources an instruction can change although the table does not list them as defined. */
  function Undeclared(x: Call): seq<Resource>
  {
    if x.op == OP_MV_MUL || IsVV(x.op) || IsActivation(x.op) then [VpipeA]
    else if x.op == OP_V_FUNC then if x.opd0 == SUB_SOFTMAX || x.opd0 == SUB_LAYERNORM then [VpipeA] else []
    else if x.op == OP_M_RD then if x.opd0 == MEM_VEC_TO_MAT_ROW then [VRF(MEM_VEC_TO_MAT_ROW, 0)] else [MRF]
    else if x.op == OP_M_RD_DRAM then if x.opd0 == MEM_VEC_TO_MAT_ROW then [VRF(MEM_VEC_TO_MAT_ROW, 0)] else []
    else if IsSpuFunc(x.op) then [SRF(x.opd0 % 64)]
    else []
  }

  /** But for the scalar functions, nothing named as omitted is among the table's uses, and nothing named as undeclared
      among its definitions. */
  lemma NothingListedTwice(c: Config, d: Device, x: Call)
    requires c.dim >= 1 && !IsSpuFunc(x.op) && x.op != OP_SS_ADD
    ensures forall r :: r in Omitted(c, d, x) ==> r !in Uses(x)
    ensures forall r :: r in Undeclared(x) ==> r !in Defs(x)
  {
    hide LoadsTile, Side, Wide;
  }

  /** A stretch of a memory. */
  datatype Stretch = Stretch(bank: nat, lo: nat, hi: nat)

  /** Where a call can write in the vector memories; the FP16 device copies activations to the IVRF. */
  function Written(c: Config, d: Device, x: Call): Stretch
  {
    if x.op == OP_V_WR && x.opd0 != MEM_VEC_TO_MAT_ROW && !IsReduce(x.opd0) then Stretch(x.opd0, x.opd1, x.opd1 + c.dim)
    else if x.op == OP_V_WR_DRAM then Stretch(MEM_DRAM, x.full, x.full + c.dim)
    else if x.op == OP_M_WR_DRAM then Stretch(MEM_DRAM, x.full, x.full + |d.mrf| * |d.mrf|)
    else if !c.fp32 && d.pipe.Some? && (IsActivation(x.op) || x.op == OP_V_FUNC) then
      Stretch(MEM_MVM_INITIAL_VRF, 0, |d.pipe.value|)
    else Stretch(MEM_DRAM, 0, 0)
  }

  predicate InMemory(r: Resource, bank: nat)
  {
    match r
    case VRF(b, _) => b == bank
    case DRAM(_) => bank == MEM_DRAM
    case _ => false
  }

  function Start(r: Resource): nat
  {
    match r
    case VRF(_, a) => a
    case DRAM(a) => a
    case _ => 0
  }

  /** r is a window the call's write runs across. */
  predicate Crossed(c: Config, d: Device, x: Call, r: Resource)
  {
    var w := Written(c, d, x);
    InMemory(r, w.bank) && Start(r) < w.hi && w.lo < Start(r) + c.dim
  }

  // ---- Used and omitted resources decide the defined ones ----

  /** Two states alike in everything the table lists as used and everything it omits. */
  ghost predicate AlikeFor(c: Config, d1: Device, d2: Device, x: Call)
  {
    SameLayout(d1, d2) && Agree(c, d1, d2, Uses(x)) && Agree(c, d1, d2, Omitted(c, d1, x))
  }

  lemma HeldPipe(c: Config, d: Device)
    ensures Held(c, d, Pipe) == Operand(d.pipe) && Held(c, d, VpipeA) == Operand(d.vpipeA)
    ensures Held(c, d, MRF) == Square(d.mrf)
  {
  }

  lemma RegSame(c: Config, d1: Device, d2: Device, r: nat, default: nat)
    requires Held(c, d1, REG(r)) == Held(c, d2, REG(r))
    ensures Reg(d1, r, default) == Reg(d2, r, default)
  {
  }

  /** Equal cells of equally long banks are equal elements. */
  lemma CellsTell(n: nat, v: Vec, w: Vec, a: nat)
    requires |v| == |w| && Cells(n, v, a) == Cells(n, w, a)
    ensures forall k :: a <= k < a + n && k < |v| ==> v[k] == w[k]
  {
    forall k | a <= k < a + n && k < |v| ensures v[k] == w[k] {
      assert Cells(n, v, a)[k - a] == Cells(n, w, a)[k - a];
    }
  }

  lemma WindowSame(c: Config, v: Vec, w: Vec, a: nat)
    requires |v| == |w| && Cells(c.dim, v, a) == Cells(c.dim, w, a)
    ensures Window(c, v, a) == Window(c, w, a)
    ensures forall mask :: MaskedWindow(c, v, a, mask) == MaskedWindow(c, w, a, mask)
  {
    CellsTell(c.dim, v, w, a);
  }

  lemma BankSame(c: Config, d1: Device, d2: Device, b: nat, a: nat)
    requires SameLayout(d1, d2) && Held(c, d1, VRF(b, a)) == Held(c, d2, VRF(b, a))
    ensures b in d1.vrf ==> b in d2.vrf && Window(c, d1.vrf[b], a) == Window(c, d2.vrf[b], a)
  {
    if b in d1.vrf { WindowSame(c, d1.vrf[b], d2.vrf[b], a); }
  }

  lemma VRdSame(c: Config, d1: Device, d2: Device, x: Call)
    requires x.op == OP_V_RD && AlikeFor(c, d1, d2, x)
    ensures Agree(c, VRd(c, d1, x.opd0, x.opd1), VRd(c, d2, x.opd0, x.opd1), Defs(x))
  {
    hide DecodeFp16, Window, Cells;
    HeldPipe(c, d1);
    HeldPipe(c, d2);
    if x.opd0 != MEM_FILL && x.opd0 != MEM_SPU_BROADCAST {
      BankSame(c, d1, d2, x.opd0, x.opd1);
    } else if x.opd0 == MEM_SPU_BROADCAST {
      assert Held(c, d1, SRF(x.opd1)) == Held(c, d2, SRF(x.opd1));
    }
    assert VRd(c, d1, x.opd0, x.opd1).pipe == VRd(c, d2, x.opd0, x.opd1).pipe;
    assert VRd(c, d1, x.opd0, x.opd1).vpipeA == VRd(c, d2, x.opd0, x.opd1).vpipeA;
  }

  lemma AnyMask(c: Config, v: Vec, a: nat, m1: nat, m2: nat)
    requires c.fp32
    ensures MaskedWindow(c, v, a, m1) == MaskedWindow(c, v, a, m2)
  {
  }

  lemma DramLoadSame(c: Config, d1: Device, d2: Device, a: nat)
    requires SameLayout(d1, d2) && Held(c, d1, DRAM(a)) == Held(c, d2, DRAM(a))
    requires d1.pipe == d2.pipe && d1.vpipeA == d2.vpipeA
    requires !c.fp32 ==> Reg(d1, REG_READ_VECTOR_MASK, 0xFF) == Reg(d2, REG_READ_VECTOR_MASK, 0xFF)
    ensures VRdDram(c, d1, a).pipe == VRdDram(c, d2, a).pipe && VRdDram(c, d1, a).vpipeA == VRdDram(c, d2, a).vpipeA
  {
    hide MaskedWindow, Cells, Fit, Reg;
    if MEM_DRAM in d1.vrf {
      var v, w := d1.vrf[MEM_DRAM], d2.vrf[MEM_DRAM];
      WindowSame(c, v, w, a);
      var m1, m2 := Reg(d1, REG_READ_VECTOR_MASK, 0xFF), Reg(d2, REG_READ_VECTOR_MASK, 0xFF);
      if c.fp32 { AnyMask(c, v, a, m1, m2); }
      assert MaskedWindow(c, v, a, m1) == MaskedWindow(c, w, a, m2);
    }
  }

  lemma VRdDramSame(c: Config, d1: Device, d2: Device, x: Call)
    requires x.op == OP_V_RD_DRAM && AlikeFor(c, d1, d2, x)
    ensures Agree(c, VRdDram(c, d1, x.full), VRdDram(c, d2, x.full), Defs(x))
  {
    hide VRdDram, Cells;
    assert Held(c, d1, DRAM(x.full)) == Held(c, d2, DRAM(x.full));
    assert Held(c, d1, Pipe) == Held(c, d2, Pipe) && Held(c, d1, VpipeA) == Held(c, d2, VpipeA);
    if !c.fp32 {
      assert REG(REG_READ_VECTOR_MASK) in Omitted(c, d1, x);
      RegSame(c, d1, d2, REG_READ_VECTOR_MASK, 0xFF);
    }
    DramLoadSame(c, d1, d2, x.full);
  }

  lemma TileSame(c: Config, d1: Device, d2: Device, full: nat)
    requires SameLayout(d1, d2) && LoadsTile(c, d1, full) && Side(c, d1) == Side(c, d2)
    requires Held(c, d1, DRAM(full)) == Held(c, d2, DRAM(full))
    requires var n := Side(c, d1); c.dim < n * n ==> Agree(c, d1, d2, DramCells(full, c.dim, n * n))
    requires c.dim >= 1
    ensures var n := Side(c, d1); MatrixAt(c, d1.vrf[MEM_DRAM], full, n) == MatrixAt(c, d2.vrf[MEM_DRAM], full, n)
  {
    var n, v, w := Side(c, d1), d1.vrf[MEM_DRAM], d2.vrf[MEM_DRAM];
    CellsTell(c.dim, v, w, full);
    forall k | full <= k < full + n * n ensures v[k] == w[k] {
      if k >= full + c.dim {
        assert DRAM(k) in DramCells(full, c.dim, n * n);
        assert Held(c, d1, DRAM(k)) == Held(c, d2, DRAM(k));
        CellsTell(c.dim, v, w, k);
      }
    }
    MatrixSame(c, v, w, full, n);
  }

  lemma MatrixSame(c: Config, v: Vec, w: Vec, a: nat, n: nat)
    requires |v| == |w| && a + n * n <= |v| && forall k :: a <= k < a + n * n ==> v[k] == w[k]
    ensures MatrixAt(c, v, a, n) == MatrixAt(c, w, a, n)
  {
    forall i | 0 <= i < n ensures MatrixAt(c, v, a, n)[i] == MatrixAt(c, w, a, n)[i] {
      RowInside(i, n);
    }
  }

  lemma MRdRows(c: Config, d1: Device, d2: Device, full: nat)
    requires d1.rowBuffer == d2.rowBuffer
    ensures MRd(c, d1, MEM_VEC_TO_MAT_ROW, full).mrf == MRd(c, d2, MEM_VEC_TO_MAT_ROW, full).mrf
  {
  }

  lemma MRdKeepsPipes(c: Config, d: Device, opd0: nat, full: nat)
    ensures MRd(c, d, opd0, full).pipe == d.pipe && MRd(c, d, opd0, full).vpipeA == d.vpipeA
  {
    hide MatrixAt, RowsToMatrix;
  }

  lemma MRdTile(c: Config, d1: Device, d2: Device, opd0: nat, full: nat)
    requires opd0 != MEM_VEC_TO_MAT_ROW && SameLayout(d1, d2) && Side(c, d1) == Side(c, d2)
    requires !LoadsTile(c, d1, full) ==> d1.mrf == d2.mrf
    requires LoadsTile(c, d1, full) ==>
      var n := Side(c, d1); MatrixAt(c, d1.vrf[MEM_DRAM], full, n) == MatrixAt(c, d2.vrf[MEM_DRAM], full, n)
    ensures MRd(c, d1, opd0, full).mrf == MRd(c, d2, opd0, full).mrf
  {
    hide MatrixAt;
  }

  lemma MRdSame(c: Config, d1: Device, d2: Device, x: Call)
    requires (x.op == OP_M_RD || x.op == OP_M_RD_DRAM) && AlikeFor(c, d1, d2, x) && c.dim >= 1
    ensures Agree(c, MRd(c, d1, x.opd0, x.full), MRd(c, d2, x.opd0, x.full), Defs(x))
  {
    hide MRd, MatrixAt, Cells, LoadsTile, Reg;
    if x.opd0 == MEM_VEC_TO_MAT_ROW {
      assert Held(c, d1, VRF(MEM_VEC_TO_MAT_ROW, 0)) == Held(c, d2, VRF(MEM_VEC_TO_MAT_ROW, 0));
      MRdRows(c, d1, d2, x.full);
    } else if x.op == OP_M_RD_DRAM {
      assert REG(REG_TILE_ROWS) in Omitted(c, d1, x);
      RegSame(c, d1, d2, REG_TILE_ROWS, 1);
      if LoadsTile(c, d1, x.full) { TileSame(c, d1, d2, x.full); } else { assert MRF in Omitted(c, d1, x); }
      MRdTile(c, d1, d2, x.opd0, x.full);
    } else {
      MRdKeepsPipes(c, d1, x.opd0, x.full);
      MRdKeepsPipes(c, d2, x.opd0, x.full);
      assert Held(c, d1, Pipe) == Held(c, d2, Pipe) && Held(c, d1, VpipeA) == Held(c, d2, VpipeA);
    }
  }

  lemma VWrSame(c: Config, d1: Device, d2: Device, x: Call)
    requires x.op == OP_V_WR && AlikeFor(c, d1, d2, x)
    ensures Agree(c, VWr(c, d1, x.opd0, x.opd1), VWr(c, d2, x.opd0, x.opd1), Defs(x))
  {
    hide Sum, NpMax, Map, StoreLanes, Cells;
    HeldPipe(c, d1);
    HeldPipe(c, d2);
    if x.opd0 == MEM_VEC_TO_MAT_ROW {
      assert Held(c, d1, VRF(MEM_VEC_TO_MAT_ROW, 0)) == Held(c, d2, VRF(MEM_VEC_TO_MAT_ROW, 0));
    } else if IsReduce(x.opd0) {
      assert Held(c, d1, SRF(x.opd1)) == Held(c, d2, SRF(x.opd1));
    } else if d1.pipe.Some? {
      StoredSame(c, d1, d2, x);
    }
  }

  lemma StoredSame(c: Config, d1: Device, d2: Device, x: Call)
    requires x.op == OP_V_WR && x.opd0 != MEM_VEC_TO_MAT_ROW && !IsReduce(x.opd0)
    requires AlikeFor(c, d1, d2, x) && d1.pipe.Some? && d1.pipe == d2.pipe
    ensures var b := x.opd0;
      Cells(c.dim, VWrBank(c, d1, b, x.opd1).vrf[b], x.opd1) == Cells(c.dim, VWrBank(c, d2, b, x.opd1).vrf[b], x.opd1)
  {
    var b, a := x.opd0, x.opd1;
    var v, w := BankOrNew(c, d1, b), BankOrNew(c, d2, b);
    var m1, m2 := Reg(d1, REG_WRITE_VECTOR_MASK, 0xFF), Reg(d2, REG_WRITE_VECTOR_MASK, 0xFF);
    if c.fp32 && Wide(c, d1) {
      StoredWhole(c, v, w, a, d1.pipe.value, m1, m2);
    } else {
      assert VRF(b, a) in Omitted(c, d1, x);
      if !c.fp32 {
        assert REG(REG_WRITE_VECTOR_MASK) in Omitted(c, d1, x);
        RegSame(c, d1, d2, REG_WRITE_VECTOR_MASK, 0xFF);
      }
      assert Held(c, d1, VRF(b, a)) == Held(c, d2, VRF(b, a));
      StoredOver(c, v, w, a, d1.pipe.value, m1, m2);
    }
  }

  lemma StoredWhole(c: Config, v: Vec, w: Vec, a: nat, p: Vec, m1: nat, m2: nat)
    requires c.fp32 && |v| == |w| && |p| >= c.dim
    ensures Cells(c.dim, StoreLanes(c, v, a, p, m1).0, a) == Cells(c.dim, StoreLanes(c, w, a, p, m2).0, a)
  {
  }

  lemma StoredOver(c: Config, v: Vec, w: Vec, a: nat, p: Vec, m1: nat, m2: nat)
    requires |v| == |w| && (c.fp32 || m1 == m2) && Cells(c.dim, v, a) == Cells(c.dim, w, a)
    ensures Cells(c.dim, StoreLanes(c, v, a, p, m1).0, a) == Cells(c.dim, StoreLanes(c, w, a, p, m2).0, a)
  {
    hide Bit;
    CellsTell(c.dim, v, w, a);
  }

  lemma DramStoredSame(c: Config, d1: Device, d2: Device, a: nat)
    requires SameLayout(d1, d2) && d1.pipe == d2.pipe
    requires !Wide(c, d1) ==> Held(c, d1, DRAM(a)) == Held(c, d2, DRAM(a))
    ensures Held(c, VWrDram(c, d1, a), DRAM(a)) == Held(c, VWrDram(c, d2, a), DRAM(a))
  {
    var v, w := BankOrNew(c, d1, MEM_DRAM), BankOrNew(c, d2, MEM_DRAM);
    if !Wide(c, d1) { CellsTell(c.dim, v, w, a); }
    if MEM_DRAM in d1.vrf && d1.pipe.Some? {
      DramLanes(c, d1, a);
      DramLanes(c, d2, a);
      hide VWrDram;
      var v1, w1 := BankOrNew(c, VWrDram(c, d1, a), MEM_DRAM), BankOrNew(c, VWrDram(c, d2, a), MEM_DRAM);
      assert Cells(c.dim, v1, a) == Cells(c.dim, w1, a);
    }
  }

  /** DRAM after a vector store, element by element. */
  lemma DramLanes(c: Config, d: Device, a: nat)
    requires MEM_DRAM in d.vrf && d.pipe.Some?
    ensures var v, p, w := d.vrf[MEM_DRAM], d.pipe.value, BankOrNew(c, VWrDram(c, d, a), MEM_DRAM);
            |w| == |v| && forall k :: 0 <= k < |v| ==>
              w[k] == if a <= k < a + c.dim && k - a < |p| then Rnd(c, p[k - a]) else v[k]
  {
    hide Rnd;
  }

  lemma VWrDramSame(c: Config, d1: Device, d2: Device, x: Call)
    requires x.op == OP_V_WR_DRAM && AlikeFor(c, d1, d2, x)
    ensures Agree(c, VWrDram(c, d1, x.full), VWrDram(c, d2, x.full), Defs(x))
  {
    hide VWrDram, Cells, Wide;
    assert Held(c, d1, Pipe) == Held(c, d2, Pipe);
    DramStoredSame(c, d1, d2, x.full);
  }

  lemma TileStoredSame(c: Config, d1: Device, d2: Device, a: nat)
    requires SameLayout(d1, d2) && d1.mrf == d2.mrf
    requires !(MEM_DRAM in d1.vrf && a + |d1.mrf| * |d1.mrf| <= |d1.vrf[MEM_DRAM]| && |d1.mrf| * |d1.mrf| >= c.dim) ==>
               Held(c, d1, DRAM(a)) == Held(c, d2, DRAM(a))
    ensures Held(c, MWrDram(c, d1, a), DRAM(a)) == Held(c, MWrDram(c, d2, a), DRAM(a))
  {
    hide D.Flatten;
    var v, w := BankOrNew(c, d1, MEM_DRAM), BankOrNew(c, d2, MEM_DRAM);
    var flat := D.Flatten(c, d1.mrf, |d1.mrf|);
    if Held(c, d1, DRAM(a)) == Held(c, d2, DRAM(a)) { CellsTell(c.dim, v, w, a); }
    var v1, w1 := BankOrNew(c, MWrDram(c, d1, a), MEM_DRAM), BankOrNew(c, MWrDram(c, d2, a), MEM_DRAM);
    assert Cells(c.dim, v1, a) == Cells(c.dim, w1, a);
  }

  lemma MWrDramSame(c: Config, d1: Device, d2: Device, x: Call)
    requires x.op == OP_M_WR_DRAM && AlikeFor(c, d1, d2, x)
    ensures Agree(c, MWrDram(c, d1, x.full), MWrDram(c, d2, x.full), Defs(x))
  {
    hide MWrDram, Cells, BankOrNew;
    assert Held(c, d1, MRF) == Held(c, d2, MRF);
    if DRAM(x.full) in Omitted(c, d1, x) { assert Held(c, d1, DRAM(x.full)) == Held(c, d2, DRAM(x.full)); }
    TileStoredSame(c, d1, d2, x.full);
  }

  lemma MvMulSame(c: Config, d1: Device, d2: Device)
    requires d1.pipe == d2.pipe && d1.mrf == d2.mrf
    requires Reg(d1, REG_READ_MATRIX_MASK, 0xFF) == Reg(d2, REG_READ_MATRIX_MASK, 0xFF)
    ensures MvMul(c, d1).pipe == MvMul(c, d2).pipe
  {
    hide MatVec, MaskedMatrix, Reg;
  }

  lemma VVSame(c: Config, d1: Device, d2: Device, op: nat)
    requires d1.pipe == d2.pipe && d1.vpipeA == d2.vpipeA
    ensures VV(c, d1, op).pipe == VV(c, d2, op).pipe
  {
    hide Lanes;
  }

  lemma ActivationSame(c: Config, d1: Device, d2: Device, op: nat)
    requires d1.pipe == d2.pipe
    ensures VActivation(c, d1, op).pipe == VActivation(c, d2, op).pipe
  {
    hide ActivateVec, RndVec, Overlay;
  }

  lemma ComputeSame(c: Config, d1: Device, d2: Device, x: Call)
    requires (x.op == OP_MV_MUL || IsVV(x.op) || IsActivation(x.op)) && AlikeFor(c, d1, d2, x)
    ensures Agree(c, StepCall(c, d1, x), StepCall(c, d2, x), Defs(x))
  {
    hide MvMul, VV, VActivation, SWr, VRd, VRdDram, MRd, VWr, VWrDram, MWrDram, VFunc, SpuFunc;
    HeldPipe(c, d1);
    HeldPipe(c, d2);
    assert d1.pipe == d2.pipe;
    if x.op == OP_MV_MUL {
      RegSame(c, d1, d2, REG_READ_MATRIX_MASK, 0xFF);
      MvMulSame(c, d1, d2);
    } else if IsVV(x.op) {
      VVSame(c, d1, d2, x.op);
    } else {
      ActivationSame(c, d1, d2, x.op);
    }
  }

  lemma PrefixSame(c: Config, d1: Device, d2: Device, b: nat, default: Num, n: nat)
    requires SameLayout(d1, d2) && Held(c, d1, VRF(b, 0)) == Held(c, d2, VRF(b, 0))
    requires n > c.dim ==> Agree(c, d1, d2, BankCells(b, c.dim, n))
    requires c.dim >= 1
    ensures Prefix(d1, b, default, n) == Prefix(d2, b, default, n)
  {
    if b in d1.vrf {
      var v, w := d1.vrf[b], d2.vrf[b];
      CellsTell(c.dim, v, w, 0);
      forall k | 0 <= k < Min(n, |v|) ensures v[k] == w[k] {
        if k >= c.dim {
          assert VRF(b, k) in BankCells(b, c.dim, n);
          assert Held(c, d1, VRF(b, k)) == Held(c, d2, VRF(b, k));
          CellsTell(c.dim, v, w, k);
        }
      }
      assert v[..Min(n, |v|)] == w[..Min(n, |v|)];
    }
  }

  lemma FinishPipe(c: Config, d: Device, r: Vec)
    ensures FinishActivation(c, d, r).pipe == Some(RndVec(c, r))
  {
    hide RndVec, Overlay;
  }

  lemma FunctionPipe(c: Config, d1: Device, d2: Device, sub: nat)
    requires d1.pipe == d2.pipe && (sub == SUB_SOFTMAX || sub == SUB_LAYERNORM)
    requires sub == SUB_LAYERNORM && d1.pipe.Some? ==>
      var n := |d1.pipe.value|;
      Prefix(d1, MEM_MVM_INITIAL_VRF, Fin(1.0), n) == Prefix(d2, MEM_MVM_INITIAL_VRF, Fin(1.0), n) &&
      Prefix(d1, MEM_ADDSUB_VRF_0, ZERO, n) == Prefix(d2, MEM_ADDSUB_VRF_0, ZERO, n)
    ensures VFunc(c, d1, sub).pipe == VFunc(c, d2, sub).pipe
  {
    hide SoftmaxVec, LayernormVec, RndVec, FinishActivation, Prefix;
    if d1.pipe.Some? {
      var p := d1.pipe.value;
      if sub == SUB_SOFTMAX {
        FinishPipe(c, d1, SoftmaxVec(c, p));
        FinishPipe(c, d2, SoftmaxVec(c, p));
      } else {
        var g, b := Prefix(d1, MEM_MVM_INITIAL_VRF, Fin(1.0), |p|), Prefix(d1, MEM_ADDSUB_VRF_0, ZERO, |p|);
        FinishPipe(c, d1, LayernormVec(c, p, g, b));
        FinishPipe(c, d2, LayernormVec(c, p, g, b));
      }
    }
  }

  lemma FunctionSame(c: Config, d1: Device, d2: Device, x: Call)
    requires x.op == OP_V_FUNC && AlikeFor(c, d1, d2, x) && c.dim >= 1
    ensures Agree(c, VFunc(c, d1, x.opd0), VFunc(c, d2, x.opd0), Defs(x))
  {
    hide VFunc, Prefix, Cells;
    if x.opd0 == SUB_SOFTMAX || x.opd0 == SUB_LAYERNORM {
      assert Held(c, d1, Pipe) == Held(c, d2, Pipe);
      if x.opd0 == SUB_LAYERNORM && d1.pipe.Some? { ParametersSame(c, d1, d2, x); }
      FunctionPipe(c, d1, d2, x.opd0);
    }
  }

  lemma AgreeParts(c: Config, d1: Device, d2: Device, a: seq<Resource>, b: seq<Resource>)
    requires Agree(c, d1, d2, a + b)
    ensures Agree(c, d1, d2, a) && Agree(c, d1, d2, b)
  {
    hide Held;
    forall r | r in a || r in b ensures Held(c, d1, r) == Held(c, d2, r) { assert r in a + b; }
  }

  lemma ParametersSame(c: Config, d1: Device, d2: Device, x: Call)
    requires x.op == OP_V_FUNC && x.opd0 == SUB_LAYERNORM && AlikeFor(c, d1, d2, x) && c.dim >= 1 && d1.pipe.Some?
    ensures var n := |d1.pipe.value|;
      Prefix(d1, MEM_MVM_INITIAL_VRF, Fin(1.0), n) == Prefix(d2, MEM_MVM_INITIAL_VRF, Fin(1.0), n) &&
      Prefix(d1, MEM_ADDSUB_VRF_0, ZERO, n) == Prefix(d2, MEM_ADDSUB_VRF_0, ZERO, n)
  {
    var n := |d1.pipe.value|;
    hide Prefix, Held, BankCells, SameLayout;
    assert VRF(MEM_MVM_INITIAL_VRF, 0) in Uses(x) && VRF(MEM_ADDSUB_VRF_0, 0) in Uses(x);
    if n > c.dim {
      AgreeParts(c, d1, d2, BankCells(MEM_MVM_INITIAL_VRF, c.dim, n), BankCells(MEM_ADDSUB_VRF_0, c.dim, n));
    }
    hide Agree, Omitted;
    PrefixSame(c, d1, d2, MEM_MVM_INITIAL_VRF, Fin(1.0), n);
    PrefixSame(c, d1, d2, MEM_ADDSUB_VRF_0, ZERO, n);
  }

  lemma ScalarSame(c: Config, d1: Device, d2: Device, x: Call)
    requires IsSpuFunc(x.op) && AlikeFor(c, d1, d2, x)
    ensures Agree(c, SpuFunc(c, d1, x.op, x.opd0, x.opd1), SpuFunc(c, d2, x.op, x.opd0, x.opd1), Defs(x))
  {
    hide Recip, Mul, Less;
    assert Held(c, d1, SRF(x.opd1)) == Held(c, d2, SRF(x.opd1));
    assert Held(c, d1, SRF(x.opd1 % 64)) == Held(c, d2, SRF(x.opd1 % 64));
    assert Held(c, d1, SRF(x.opd0 % 64)) == Held(c, d2, SRF(x.opd0 % 64));
  }

  /** The table's uses, with the omitted ones, decide everything it lists as defined, on either device. */
  lemma UsesSuffice(c: Config, d1: Device, d2: Device, x: Call)
    requires c.dim >= 1 && AlikeFor(c, d1, d2, x)
    ensures Agree(c, StepCall(c, d1, x), StepCall(c, d2, x), Defs(x))
  {
    hide AlikeFor, Held, SWr, VRd, VRdDram, MRd, VWr, VWrDram, MWrDram, MvMul, VV, VActivation, VFunc, SpuFunc;
    if x.op == OP_V_RD { VRdSame(c, d1, d2, x); }
    else if x.op == OP_V_RD_DRAM { VRdDramSame(c, d1, d2, x); }
    else if x.op == OP_M_RD || x.op == OP_M_RD_DRAM { MRdSame(c, d1, d2, x); }
    else if x.op == OP_V_WR { VWrSame(c, d1, d2, x); }
    else if x.op == OP_V_WR_DRAM { VWrDramSame(c, d1, d2, x); }
    else if x.op == OP_M_WR_DRAM { MWrDramSame(c, d1, d2, x); }
    else if x.op == OP_MV_MUL || IsVV(x.op) || IsActivation(x.op) { ComputeSame(c, d1, d2, x); }
    else if x.op == OP_V_FUNC { FunctionSame(c, d1, d2, x); }
    else if IsSpuFunc(x.op) { ScalarSame(c, d1, d2, x); }
    else { IdleSame(c, d1, d2, x); }
  }

  /** A register write, and what the device does not dispatch. */
  lemma IdleSame(c: Config, d1: Device, d2: Device, x: Call)
    requires x.op != OP_V_RD && x.op != OP_V_RD_DRAM && x.op != OP_M_RD && x.op != OP_M_RD_DRAM && x.op != OP_V_WR
    requires x.op != OP_V_WR_DRAM && x.op != OP_M_WR_DRAM && x.op != OP_MV_MUL && x.op != OP_V_FUNC
    requires !IsVV(x.op) && !IsActivation(x.op) && !IsSpuFunc(x.op) && AlikeFor(c, d1, d2, x)
    ensures Agree(c, StepCall(c, d1, x), StepCall(c, d2, x), Defs(x))
  {
    if x.op == OP_SS_ADD { assert SRF(x.opd1) in Omitted(c, d1, x); }
  }

  // ---- Nothing else changes ----

  predicate IsWindow(r: Resource)
  {
    r.VRF? || r.DRAM?
  }

  /** One bank rewritten inside a stretch: windows that do not cross it are as before. */
  lemma RewrittenBank(c: Config, d: Device, b: nat, v: Vec, lo: nat, hi: nat, r: Resource)
    requires SameOutside(BankOrNew(c, d, b), v, lo, hi)
    requires !(InMemory(r, b) && Start(r) < hi && lo < Start(r) + c.dim)
    ensures Held(c, d.(vrf := d.vrf[b := v]), r) == Held(c, d, r)
  {
    var d2 := d.(vrf := d.vrf[b := v]);
    if IsWindow(r) && InMemory(r, b) {
      assert Cells(c.dim, v, Start(r)) == Cells(c.dim, BankOrNew(c, d, b), Start(r));
    }
  }

  /** Held looks only at the part of the state the resource names. */
  lemma HeldLocal(c: Config, d1: Device, d2: Device, r: Resource)
    requires r.REG? ==> d1.regs == d2.regs
    requires r.SRF? ==> d1.srf == d2.srf
    requires IsWindow(r) ==> d1.vrf == d2.vrf && (r == VRF(MEM_VEC_TO_MAT_ROW, 0) ==> d1.rowBuffer == d2.rowBuffer)
    requires (r.Pipe? ==> d1.pipe == d2.pipe) && (r.VpipeA? ==> d1.vpipeA == d2.vpipeA) && (r.MRF? ==> d1.mrf == d2.mrf)
    ensures Held(c, d1, r) == Held(c, d2, r)
  {
  }

  lemma LoadChanges(c: Config, d: Device, bank: nat, addr: nat, r: Resource)
    requires !r.Pipe? && !r.VpipeA?
    ensures Held(c, VRd(c, d, bank, addr), r) == Held(c, d, r) && Held(c, VRdDram(c, d, addr), r) == Held(c, d, r)
  {
    hide DecodeFp16, Window, MaskedWindow, Fit, Held;
    HeldLocal(c, VRd(c, d, bank, addr), d, r);
    HeldLocal(c, VRdDram(c, d, addr), d, r);
  }

  lemma MRdChanges(c: Config, d: Device, opd0: nat, full: nat, r: Resource)
    requires !r.MRF? && !(opd0 == MEM_VEC_TO_MAT_ROW && r == VRF(MEM_VEC_TO_MAT_ROW, 0))
    ensures Held(c, MRd(c, d, opd0, full), r) == Held(c, d, r)
  {
    hide MatrixAt, RowsToMatrix, Held;
    HeldLocal(c, MRd(c, d, opd0, full), d, r);
  }

  lemma StoredRange(c: Config, v: Vec, a: nat, p: Vec, mask: nat)
    ensures SameOutside(v, StoreLanes(c, v, a, p, mask).0, a, a + c.dim)
  {
    hide Bit, LaneSelected;
  }

  lemma VWrChanges(c: Config, d: Device, x: Call, r: Resource)
    requires x.op == OP_V_WR && r !in Defs(x) && !Crossed(c, d, x, r)
    ensures Held(c, VWr(c, d, x.opd0, x.opd1), r) == Held(c, d, r)
  {
    hide Sum, NpMax, Map, StoreLanes, Held;
    if d.pipe.Some? {
      var b, a := x.opd0, x.opd1;
      if b == MEM_VEC_TO_MAT_ROW {
        HeldLocal(c, VWr(c, d, b, a), d, r);
      } else if IsReduce(b) {
        ReduceChanges(c, d, b, a, r);
      } else {
        var mask := Reg(d, REG_WRITE_VECTOR_MASK, 0xFF);
        StoredRange(c, BankOrNew(c, d, b), a, d.pipe.value, mask);
        var v := StoreLanes(c, BankOrNew(c, d, b), a, d.pipe.value, mask).0;
        RewrittenBank(c, d, b, v, a, a + c.dim, r);
        HeldLocal(c, VWr(c, d, b, a), d.(vrf := d.vrf[b := v]), r);
      }
    }
  }

  lemma ReduceChanges(c: Config, d: Device, b: nat, a: nat, r: Resource)
    requires IsReduce(b) && r != SRF(a)
    ensures Held(c, VWr(c, d, b, a), r) == Held(c, d, r)
  {
    hide Sum, NpMax, Map;
  }

  lemma VWrDramChanges(c: Config, d: Device, x: Call, r: Resource)
    requires x.op == OP_V_WR_DRAM && r !in Defs(x) && !Crossed(c, d, x, r)
    ensures Held(c, VWrDram(c, d, x.full), r) == Held(c, d, r)
  {
    hide Held, RndVec;
    var d2 := VWrDram(c, d, x.full);
    if MEM_DRAM in d.vrf {
      RewrittenBank(c, d, MEM_DRAM, d2.vrf[MEM_DRAM], x.full, x.full + c.dim, r);
      HeldLocal(c, d2, d.(vrf := d.vrf[MEM_DRAM := d2.vrf[MEM_DRAM]]), r);
    }
  }

  lemma MWrDramChanges(c: Config, d: Device, x: Call, r: Resource)
    requires x.op == OP_M_WR_DRAM && r !in Defs(x) && !Crossed(c, d, x, r)
    ensures Held(c, MWrDram(c, d, x.full), r) == Held(c, d, r)
  {
    hide Held, D.Flatten;
    var d2 := MWrDram(c, d, x.full);
    if MEM_DRAM in d.vrf {
      RewrittenBank(c, d, MEM_DRAM, d2.vrf[MEM_DRAM], x.full, x.full + |d.mrf| * |d.mrf|, r);
      HeldLocal(c, d2, d.(vrf := d.vrf[MEM_DRAM := d2.vrf[MEM_DRAM]]), r);
    }
  }

  lemma ProductChanges(c: Config, d: Device, op: nat, r: Resource)
    requires !r.Pipe? && !r.VpipeA?
    ensures Held(c, MvMul(c, d), r) == Held(c, d, r) && Held(c, VV(c, d, op), r) == Held(c, d, r)
  {
    hide MatVec, MaskedMatrix, Lanes, Held;
    HeldLocal(c, MvMul(c, d), d, r);
    HeldLocal(c, VV(c, d, op), d, r);
  }

  lemma FinishChanges(c: Config, d: Device, w: Vec, r: Resource)
    requires !r.Pipe? && !r.VpipeA? && (!c.fp32 ==> !InMemory(r, MEM_MVM_INITIAL_VRF) || Start(r) >= |w|)
    ensures Held(c, FinishActivation(c, d, w), r) == Held(c, d, r)
  {
    hide Held, RndVec;
    var d2 := FinishActivation(c, d, w);
    if !c.fp32 && MEM_MVM_INITIAL_VRF in d.vrf {
      RewrittenBank(c, d, MEM_MVM_INITIAL_VRF, d2.vrf[MEM_MVM_INITIAL_VRF], 0, |w|, r);
      HeldLocal(c, d2, d.(vrf := d.vrf[MEM_MVM_INITIAL_VRF := d2.vrf[MEM_MVM_INITIAL_VRF]]), r);
    } else {
      HeldLocal(c, d2, d, r);
    }
  }

  lemma ActivationChanges(c: Config, d: Device, x: Call, r: Resource)
    requires c.dim >= 1 && (IsActivation(x.op) || x.op == OP_V_FUNC) && !Crossed(c, d, x, r)
    requires r !in Defs(x) && r !in Undeclared(x)
    ensures IsActivation(x.op) ==> Held(c, VActivation(c, d, x.op), r) == Held(c, d, r)
    ensures x.op == OP_V_FUNC ==> Held(c, VFunc(c, d, x.opd0), r) == Held(c, d, r)
  {
    hide Held, FinishActivation, ActivateVec, SoftmaxVec, LayernormVec, Prefix;
    if IsActivation(x.op) || x.opd0 == SUB_SOFTMAX || x.opd0 == SUB_LAYERNORM {
      assert !r.Pipe? && !r.VpipeA?;
      if d.pipe.Some? {
        FinishedHolds(c, d, x, r);
      } else {
        HeldLocal(c, d.(vpipeA := None), d, r);
      }
    }
  }

  lemma FinishedHolds(c: Config, d: Device, x: Call, r: Resource)
    requires c.dim >= 1 && (IsActivation(x.op) || x.op == OP_V_FUNC) && !Crossed(c, d, x, r) && d.pipe.Some?
    requires !r.Pipe? && !r.VpipeA?
    ensures forall w: Vec :: |w| == |d.pipe.value| ==> Held(c, FinishActivation(c, d, w), r) == Held(c, d, r)
  {
    hide Held, FinishActivation;
    forall w: Vec | |w| == |d.pipe.value|
      ensures Held(c, FinishActivation(c, d, w), r) == Held(c, d, r)
    {
      FinishChanges(c, d, w, r);
    }
  }

  lemma ScalarChanges(c: Config, d: Device, x: Call, r: Resource)
    requires IsSpuFunc(x.op) && r !in Undeclared(x)
    ensures Held(c, SpuFunc(c, d, x.op, x.opd0, x.opd1), r) == Held(c, d, r)
  {
    hide Recip, Mul, Less;
  }

  /** The table's definitions, with the undeclared ones and the windows a write crosses, are all that changes. */
  lemma DefsCover(c: Config, d: Device, x: Call, r: Resource)
    requires c.dim >= 1 && r !in Defs(x) && r !in Undeclared(x) && !Crossed(c, d, x, r)
    ensures Held(c, StepCall(c, d, x), r) == Held(c, d, r)
  {
    hide Held, VRd, VRdDram, MRd, VWr, VWrDram, MWrDram, MvMul, VV, VActivation, VFunc, SpuFunc, Crossed;
    if x.op == OP_S_WR { RegisterChanges(c, d, x, r); }
    else if x.op == OP_V_RD || x.op == OP_V_RD_DRAM {
      LoadChanges(c, d, x.opd0, x.opd1, r);
      LoadChanges(c, d, x.opd0, x.full, r);
    }
    else if x.op == OP_M_RD || x.op == OP_M_RD_DRAM { MRdChanges(c, d, x.opd0, x.full, r); }
    else if x.op == OP_V_WR { VWrChanges(c, d, x, r); }
    else if x.op == OP_V_WR_DRAM { VWrDramChanges(c, d, x, r); }
    else if x.op == OP_M_WR_DRAM { MWrDramChanges(c, d, x, r); }
    else if x.op == OP_MV_MUL || IsVV(x.op) { ProductChanges(c, d, x.op, r); }
    else if IsActivation(x.op) || x.op == OP_V_FUNC { ActivationChanges(c, d, x, r); }
    else if IsSpuFunc(x.op) { ScalarChanges(c, d, x, r); }
  }

  lemma RegisterChanges(c: Config, d: Device, x: Call, r: Resource)
    requires x.op == OP_S_WR && r !in Defs(x)
    ensures Held(c, SWr(d, x.opd0, x.opd1), r) == Held(c, d, r)
  {
  }

  // ---- The edges carry the values ----

  /** Before call n nothing changes r without the table listing it as defined. */
  ghost predicate Undisturbed(c: Config, d0: Device, xs: seq<Call>, n: nat, r: Resource)
    requires n <= |xs|
  {
    forall k :: 0 <= k < n ==> Openly(c, State(c, d0, xs, k), xs[k], r)
  }

  predicate Openly(c: Config, d: Device, x: Call, r: Resource)
  {
    r in Defs(x) || (r !in Undeclared(x) && !Crossed(c, d, x, r))
  }

  lemma {:induction false} ValueStays(c: Config, d0: Device, xs: seq<Call>, i: nat, n: nat, r: Resource)
    requires c.dim >= 1 && i <= n <= |xs| && Undisturbed(c, d0, xs, n, r)
    requires forall k :: i <= k < n ==> r !in Defs(xs[k])
    ensures Held(c, State(c, d0, xs, n), r) == Held(c, State(c, d0, xs, i), r)
    decreases n - i
  {
    hide Held, Openly, Defs, StepCall;
    if i < n {
      ValueStays(c, d0, xs, i, n - 1, r);
      assert Openly(c, State(c, d0, xs, n - 1), xs[n - 1], r);
      NotDefined(c, State(c, d0, xs, n - 1), xs[n - 1], r);
      assert State(c, d0, xs, n) == StepCall(c, State(c, d0, xs, n - 1), xs[n - 1]);
    }
  }

  lemma NotDefined(c: Config, d: Device, x: Call, r: Resource)
    requires c.dim >= 1 && Openly(c, d, x, r) && r !in Defs(x)
    ensures Held(c, StepCall(c, d, x), r) == Held(c, d, r)
  {
    hide Held, Defs, Undeclared, Crossed, StepCall;
    DefsCover(c, d, x, r);
  }

  /** Value of r at call j: what the source of its edge left in it, or the initial value when it has none. */
  ghost predicate FromEdge(c: Config, d0: Device, xs: seq<Call>, edges: seq<Edge>, j: nat, r: Resource)
    requires j < |xs|
  {
    (forall i: nat :: Edge(i, j, r) in edges ==>
      i < j && r in Defs(xs[i]) && Held(c, State(c, d0, xs, j), r) == Held(c, State(c, d0, xs, i + 1), r)) &&
    ((forall i: nat :: Edge(i, j, r) !in edges) ==> Held(c, State(c, d0, xs, j), r) == Held(c, d0, r))
  }

  lemma SourceValue(c: Config, d0: Device, xs: seq<Call>, events: seq<Event>, i: nat, j: nat, r: Resource)
    requires c.dim >= 1 && j < |xs| && Describes(events, xs) && Reaches(events, i, j, r) && Undisturbed(c, d0, xs, j, r)
    ensures r in Defs(xs[i]) && Held(c, State(c, d0, xs, j), r) == Held(c, State(c, d0, xs, i + 1), r)
  {
    hide Held, State, Defs, Uses, Undisturbed;
    forall k | i < k < j ensures r !in Defs(xs[k]) { assert r !in events[k].defs; }
    ValueStays(c, d0, xs, i + 1, j, r);
  }

  lemma NoSource(c: Config, d0: Device, xs: seq<Call>, events: seq<Event>, j: nat, r: Resource)
    requires c.dim >= 1 && j < |xs| && Describes(events, xs) && Undisturbed(c, d0, xs, j, r)
    requires forall k :: 0 <= k < j ==> r !in events[k].defs
    ensures Held(c, State(c, d0, xs, j), r) == Held(c, d0, r)
  {
    hide Held, Defs, Uses, Undisturbed, StepCall;
    forall k | 0 <= k < j ensures r !in Defs(xs[k]) { assert r !in events[k].defs; }
    ValueStays(c, d0, xs, 0, j, r);
    assert State(c, d0, xs, 0) == d0;
  }

  /** Whatever an instruction uses, registers, scalars, pipeline, matrix and windows alike, comes along its edge. */
  lemma EdgesCarryValues(c: Config, d0: Device, xs: seq<Call>, events: seq<Event>, edges: seq<Edge>, j: nat,
                         r: Resource)
    requires c.dim >= 1 && j < |xs| && Describes(events, xs) && forall e :: e in edges <==> IsEdge(events, e)
    requires r in Uses(xs[j]) && Undisturbed(c, d0, xs, j, r)
    ensures FromEdge(c, d0, xs, edges, j, r)
  {
    hide Held, State, Defs, Uses, Undisturbed;
    forall i: nat | Edge(i, j, r) in edges
      ensures i < j && r in Defs(xs[i]) && Held(c, State(c, d0, xs, j), r) == Held(c, State(c, d0, xs, i + 1), r)
    {
      assert IsEdge(events, Edge(i, j, r));
      SourceValue(c, d0, xs, events, i, j, r);
    }
    if exists k :: 0 <= k < j && r in events[k].defs {
      var i := SomeReaches(events, j, r);
      assert IsEdge(events, Edge(i, j, r));
    } else {
      NoSource(c, d0, xs, events, j, r);
    }
  }

  // ---- Layer normalisation ----

  /** The whole of a vector is stored: a pipeline of a vector or more and every lane selected. */
  ghost predicate StoresWhole(c: Config, d: Device)
  {
    Wide(c, d) && (c.fp32 || FullMask(Reg(d, REG_WRITE_VECTOR_MASK, 0xFF)))
  }

  lemma WholeStored(c: Config, d: Device, x: Call)
    requires x.op == OP_V_WR && x.opd0 != MEM_VEC_TO_MAT_ROW && !IsReduce(x.opd0) && StoresWhole(c, d)
    requires x.opd1 + c.dim <= |BankOrNew(c, d, x.opd0)|
    ensures var w := Cells(c.dim, BankOrNew(c, StepCall(c, d, x), x.opd0), x.opd1);
            forall k :: 0 <= k < c.dim ==> w[k] == Rnd(c, d.pipe.value[k])
  {
    var mask := Reg(d, REG_WRITE_VECTOR_MASK, 0xFF);
    if !c.fp32 {
      forall k | 0 <= k < c.dim ensures Bit(mask, k) { FullMaskSelects(mask, k); }
    }
    hide Bit, FullMask;
  }

  /** w is what the store at the source of the edge for a bank's first vector stored, or its initial contents. */
  ghost predicate Supplied(c: Config, d0: Device, xs: seq<Call>, edges: seq<Edge>, j: nat, bank: nat, w: Vec)
    requires j < |xs|
  {
    |w| == c.dim &&
    (forall i: nat :: Edge(i, j, VRF(bank, 0)) in edges ==>
      i < j && xs[i].op == OP_V_WR && xs[i].opd0 == bank && xs[i].opd1 == 0 &&
      (StoresWhole(c, State(c, d0, xs, i)) ==>
        forall k :: 0 <= k < c.dim ==> w[k] == Rnd(c, State(c, d0, xs, i).pipe.value[k]))) &&
    ((forall i: nat :: Edge(i, j, VRF(bank, 0)) !in edges) ==> w == Cells(c.dim, BankOrNew(c, d0, bank), 0))
  }

  lemma {:induction false} BankLength(c: Config, d0: Device, xs: seq<Call>, n: nat, bank: nat)
    requires n <= |xs|
    ensures |BankOrNew(c, State(c, d0, xs, n), bank)| == |BankOrNew(c, d0, bank)|
  {
    hide StepCall;
    if n > 0 {
      BankLength(c, d0, xs, n - 1, bank);
      StepKeepsLength(c, State(c, d0, xs, n - 1), xs[n - 1], bank);
    }
  }

  lemma StepKeepsLength(c: Config, d: Device, x: Call, bank: nat)
    ensures |BankOrNew(c, StepCall(c, d, x), bank)| == |BankOrNew(c, d, bank)|
  {
    hide DecodeFp16, Window, MaskedWindow, MatrixAt, RowsToMatrix, Sum, NpMax, Map, StoreLanes, D.Flatten, MatVec,
      Lanes, ActivateVec, SoftmaxVec, LayernormVec, Recip, Mul;
  }

  /** The first vector of a bank that a call uses was stored by the source of its edge. */
  lemma ParameterSupplied(c: Config, d0: Device, xs: seq<Call>, events: seq<Event>, edges: seq<Edge>, j: nat, bank: nat)
    requires c.dim >= 1 && j < |xs| && Describes(events, xs) && forall e :: e in edges <==> IsEdge(events, e)
    requires VRF(bank, 0) in Uses(xs[j]) && Undisturbed(c, d0, xs, j, VRF(bank, 0))
    requires bank != MEM_VEC_TO_MAT_ROW && !IsReduce(bank) && c.dim <= |BankOrNew(c, d0, bank)|
    ensures Supplied(c, d0, xs, edges, j, bank, Cells(c.dim, BankOrNew(c, State(c, d0, xs, j), bank), 0))
  {
    hide StepCall, Uses, Openly, FullMask, Cells, State;
    var r := VRF(bank, 0);
    EdgesCarryValues(c, d0, xs, events, edges, j, r);
    forall i: nat | Edge(i, j, r) in edges
      ensures i < j && xs[i].op == OP_V_WR && xs[i].opd0 == bank && xs[i].opd1 == 0
      ensures StoresWhole(c, State(c, d0, xs, i)) ==>
        forall k :: 0 <= k < c.dim ==>
          Cells(c.dim, BankOrNew(c, State(c, d0, xs, j), bank), 0)[k] == Rnd(c, State(c, d0, xs, i).pipe.value[k])
    {
      OnlyStores(xs[i], bank);
      BankLength(c, d0, xs, i, bank);
      StateNext(c, d0, xs, i);
      if StoresWhole(c, State(c, d0, xs, i)) { WholeStored(c, State(c, d0, xs, i), xs[i]); }
    }
  }

  lemma StateNext(c: Config, d0: Device, xs: seq<Call>, i: nat)
    requires i < |xs|
    ensures State(c, d0, xs, i + 1) == StepCall(c, State(c, d0, xs, i), xs[i])
  {
    hide StepCall;
  }

  lemma OnlyStores(x: Call, bank: nat)
    requires VRF(bank, 0) in Defs(x) && bank != MEM_VEC_TO_MAT_ROW
    ensures x.op == OP_V_WR && x.opd0 == bank && x.opd1 == 0
  {
  }

  /** Every layer normalisation of a vector takes its gamma and its beta from the stores at the sources of its two
      edges, and normalises what the source of its third edge left in the pipeline. */
  lemma LayernormFollowsEdges(c: Config, d0: Device, xs: seq<Call>, events: seq<Event>, edges: seq<Edge>, j: nat)
    returns (gamma: Vec, beta: Vec)
    requires c.dim >= 1 && j < |xs| && Describes(events, xs) && forall e :: e in edges <==> IsEdge(events, e)
    requires xs[j].op == OP_V_FUNC && xs[j].opd0 == SUB_LAYERNORM
    requires var p := State(c, d0, xs, j).pipe; p.Some? && |p.value| == c.dim
    requires Undisturbed(c, d0, xs, j, VRF(MEM_MVM_INITIAL_VRF, 0)) && Undisturbed(c, d0, xs, j, Pipe)
    requires Undisturbed(c, d0, xs, j, VRF(MEM_ADDSUB_VRF_0, 0))
    requires forall b :: b == MEM_MVM_INITIAL_VRF || b == MEM_ADDSUB_VRF_0 ==>
      b in State(c, d0, xs, j).vrf && c.dim <= |BankOrNew(c, d0, b)|
    ensures Supplied(c, d0, xs, edges, j, MEM_MVM_INITIAL_VRF, gamma)
    ensures Supplied(c, d0, xs, edges, j, MEM_ADDSUB_VRF_0, beta)
    ensures FromEdge(c, d0, xs, edges, j, Pipe)
    ensures var p, q := State(c, d0, xs, j).pipe, State(c, d0, xs, j + 1).pipe;
            q.Some? && |q.value| == c.dim &&
            forall i :: 0 <= i < c.dim ==> q.value[i] == Rnd(c, c.k.layernorm(p.value, gamma, beta, i))
  {
    hide State, Supplied, Undisturbed, StepCall, FromEdge, Describes;
    var d := State(c, d0, xs, j);
    gamma := Cells(c.dim, BankOrNew(c, d, MEM_MVM_INITIAL_VRF), 0);
    beta := Cells(c.dim, BankOrNew(c, d, MEM_ADDSUB_VRF_0), 0);
    ParameterSupplied(c, d0, xs, events, edges, j, MEM_MVM_INITIAL_VRF);
    ParameterSupplied(c, d0, xs, events, edges, j, MEM_ADDSUB_VRF_0);
    EdgesCarryValues(c, d0, xs, events, edges, j, Pipe);
    BankLength(c, d0, xs, j, MEM_MVM_INITIAL_VRF);
    BankLength(c, d0, xs, j, MEM_ADDSUB_VRF_0);
    StateNext(c, d0, xs, j);
    Normalises(c, d, xs[j], gamma, beta);
  }

  lemma Normalises(c: Config, d: Device, x: Call, gamma: Vec, beta: Vec)
    requires x.op == OP_V_FUNC && x.opd0 == SUB_LAYERNORM && d.pipe.Some? && |d.pipe.value| == c.dim
    requires MEM_MVM_INITIAL_VRF in d.vrf && c.dim <= |d.vrf[MEM_MVM_INITIAL_VRF]|
    requires MEM_ADDSUB_VRF_0 in d.vrf && c.dim <= |d.vrf[MEM_ADDSUB_VRF_0]|
    requires gamma == Cells(c.dim, d.vrf[MEM_MVM_INITIAL_VRF], 0) && beta == Cells(c.dim, d.vrf[MEM_ADDSUB_VRF_0], 0)
    ensures var q := StepCall(c, d, x).pipe;
            q.Some? && |q.value| == c.dim &&
            forall i :: 0 <= i < c.dim ==> q.value[i] == Rnd(c, c.k.layernorm(d.pipe.value, gamma, beta, i))
  {
    hide Overlay;
    assert gamma == Prefix(d, MEM_MVM_INITIAL_VRF, Fin(1.0), c.dim);
    assert beta == Prefix(d, MEM_ADDSUB_VRF_0, ZERO, c.dim);
  }

  /** The calls of apply_layernorm for one tile: gamma, beta and the tile are loaded from DRAM, then normalised. */
  function NormaliseCalls(gammaAt: nat, betaAt: nat, tileAt: nat): seq<Call>
  {
    [Call(OP_V_RD_DRAM, 0, 0, gammaAt), Call(OP_V_WR, MEM_MVM_INITIAL_VRF, 0, 0),
     Call(OP_V_RD_DRAM, 0, 0, betaAt), Call(OP_V_WR, MEM_ADDSUB_VRF_0, 0, 0),
     Call(OP_V_RD_DRAM, 0, 0, tileAt), Call(OP_V_FUNC, SUB_LAYERNORM, 0, 0)]
  }

  /** The normalisation of that stream has an edge from each of the two parameter stores and from the tile's load. */
  lemma NormaliseEdges(events: seq<Event>, gammaAt: nat, betaAt: nat, tileAt: nat)
    requires Describes(events, NormaliseCalls(gammaAt, betaAt, tileAt))
    ensures IsEdge(events, Edge(1, 5, VRF(MEM_MVM_INITIAL_VRF, 0)))
    ensures IsEdge(events, Edge(3, 5, VRF(MEM_ADDSUB_VRF_0, 0)))
    ensures IsEdge(events, Edge(4, 5, Pipe))
  {
    hide Defs, Uses;
    NormaliseTable(gammaAt, betaAt, tileAt);
    var xs := NormaliseCalls(gammaAt, betaAt, tileAt);
    assert events[5].uses == Uses(xs[5]) && events[1].defs == Defs(xs[1]);
    assert events[2].defs == Defs(xs[2]) && events[3].defs == Defs(xs[3]) && events[4].defs == Defs(xs[4]);
  }

  lemma NormaliseTable(gammaAt: nat, betaAt: nat, tileAt: nat)
    ensures var xs := NormaliseCalls(gammaAt, betaAt, tileAt);
            var g, b := VRF(MEM_MVM_INITIAL_VRF, 0), VRF(MEM_ADDSUB_VRF_0, 0);
            g in Defs(xs[1]) && g !in Defs(xs[2]) && g !in Defs(xs[3]) && g !in Defs(xs[4]) &&
            b in Defs(xs[3]) && b !in Defs(xs[4]) && Pipe in Defs(xs[4]) &&
            g in Uses(xs[5]) && b in Uses(xs[5]) && Pipe in Uses(xs[5])
  {
  }

  // ---- What is left out matters ----

  /** The table's own uses decide what the call defines. */
  ghost predicate TableDecides(c: Config, d1: Device, d2: Device, x: Call)
  {
    SameLayout(d1, d2) && Agree(c, d1, d2, Uses(x)) ==> Agree(c, StepCall(c, d1, x), StepCall(c, d2, x), Defs(x))
  }

  lemma StepLoadsMatrix(c: Config, d: Device, x: Call)
    requires x.op == OP_M_RD || x.op == OP_M_RD_DRAM
    ensures StepCall(c, d, x) == MRd(c, d, x.opd0, x.full)
  {
    hide SWr, VRd, VRdDram, MRd, VWr, VWrDram, MWrDram, MvMul, VV, VActivation, VFunc, SpuFunc;
  }

  /** A load moves the old pipeline to the saved operand, although the table lists no use of it. */
  lemma LoadMovesPipe(c: Config, d: Device, p: Vec, q: Vec)
    requires p != q
    ensures !TableDecides(c, d.(pipe := Some(p)), d.(pipe := Some(q)), Call(OP_V_RD, MEM_FILL, 0, 0))
  {
    hide DecodeFp16;
    var x := Call(OP_V_RD, MEM_FILL, 0, 0);
    var e1, e2 := StepCall(c, d.(pipe := Some(p)), x), StepCall(c, d.(pipe := Some(q)), x);
    assert VpipeA in Defs(x) && Held(c, e1, VpipeA) != Held(c, e2, VpipeA);
  }

  /** A row stored to the row buffer is added to those already there. */
  lemma RowsAccumulate(c: Config, d: Device, rows: seq<Vec>, more: seq<Vec>)
    requires d.pipe.Some? && |rows| != |more|
    ensures !TableDecides(c, d.(rowBuffer := rows), d.(rowBuffer := more), Call(OP_V_WR, MEM_VEC_TO_MAT_ROW, 0, 0))
  {
    var x, r := Call(OP_V_WR, MEM_VEC_TO_MAT_ROW, 0, 0), VRF(MEM_VEC_TO_MAT_ROW, 0);
    var e1, e2 := StepCall(c, d.(rowBuffer := rows), x), StepCall(c, d.(rowBuffer := more), x);
    assert |e1.rowBuffer| != |e2.rowBuffer|;
    assert r in Defs(x) && Held(c, e1, r) != Held(c, e2, r);
  }

  /** M_RD builds its matrix from the row buffer, although the table lists no use of it. */
  lemma MatrixTakesRows(c: Config, d: Device, row: Vec)
    requires c.dim >= 1 && row == Const(c.dim, Fin(1.0))
    ensures !TableDecides(c, d.(rowBuffer := [row]), d.(rowBuffer := []), Call(OP_M_RD, MEM_VEC_TO_MAT_ROW, 0, 0))
  {
    hide StepCall, MRd, RowsToMatrix;
    var x := Call(OP_M_RD, MEM_VEC_TO_MAT_ROW, 0, 0);
    var e1, e2 := StepCall(c, d.(rowBuffer := [row]), x), StepCall(c, d.(rowBuffer := []), x);
    StepLoadsMatrix(c, d.(rowBuffer := [row]), x);
    StepLoadsMatrix(c, d.(rowBuffer := []), x);
    RowsDiffer(c, d, row);
    assert MRF in Defs(x) && Held(c, e1, MRF) != Held(c, e2, MRF);
  }

  lemma RowsDiffer(c: Config, d: Device, row: Vec)
    requires c.dim >= 1 && row == Const(c.dim, Fin(1.0))
    ensures MRd(c, d.(rowBuffer := [row]), MEM_VEC_TO_MAT_ROW, 0).mrf
         != MRd(c, d.(rowBuffer := []), MEM_VEC_TO_MAT_ROW, 0).mrf
  {
    assert RowsToMatrix([row], c.dim)[0][0] == Fin(1.0) && RowsToMatrix([], c.dim)[0][0] == ZERO;
  }

  /** A tile load needs more of DRAM than its first vector. */
  lemma TileTakesMore(c: Config, d: Device, v: Vec, w: Vec)
    requires c.dim == 2 && c.fp32 && Reg(d, REG_TILE_ROWS, 1) == 1
    requires v == [ZERO, ZERO, ZERO, ZERO] && w == [ZERO, ZERO, ZERO, Fin(1.0)]
    ensures !TableDecides(c, d.(vrf := map[MEM_DRAM := v]), d.(vrf := map[MEM_DRAM := w]), Call(OP_M_RD_DRAM, 0, 0, 0))
  {
    hide StepCall, MRd, Reg;
    var x, d1, d2 := Call(OP_M_RD_DRAM, 0, 0, 0), d.(vrf := map[MEM_DRAM := v]), d.(vrf := map[MEM_DRAM := w]);
    SameRegisters(d, d1, d2);
    assert Cells(2, v, 0) == Cells(2, w, 0);
    StepLoadsMatrix(c, d1, x);
    StepLoadsMatrix(c, d2, x);
    TilesDiffer(c, d1, d2, v, w);
    assert MRF in Defs(x) && Held(c, StepCall(c, d1, x), MRF) != Held(c, StepCall(c, d2, x), MRF);
  }

  lemma SameRegisters(d: Device, d1: Device, d2: Device)
    requires d.regs == d1.regs == d2.regs
    ensures Reg(d1, REG_TILE_ROWS, 1) == Reg(d2, REG_TILE_ROWS, 1) == Reg(d, REG_TILE_ROWS, 1)
  {
  }

  lemma TilesDiffer(c: Config, d1: Device, d2: Device, v: Vec, w: Vec)
    requires c.dim == 2 && c.fp32 && Reg(d1, REG_TILE_ROWS, 1) == Reg(d2, REG_TILE_ROWS, 1) == 1
    requires v == [ZERO, ZERO, ZERO, ZERO] && w == [ZERO, ZERO, ZERO, Fin(1.0)]
    requires d1.vrf == map[MEM_DRAM := v] && d2.vrf == map[MEM_DRAM := w]
    ensures MRd(c, d1, 0, 0).mrf != MRd(c, d2, 0, 0).mrf
  {
    hide MatrixAt;
    CornersDiffer(c, v, w);
  }

  lemma CornersDiffer(c: Config, v: Vec, w: Vec)
    requires c.fp32 && v == [ZERO, ZERO, ZERO, ZERO] && w == [ZERO, ZERO, ZERO, Fin(1.0)]
    ensures MatrixAt(c, v, 0, 2) != MatrixAt(c, w, 0, 2)
  {
    assert RowStart(1, 2) == 2;
    assert MatrixAt(c, v, 0, 2)[1][1] == ZERO && MatrixAt(c, w, 0, 2)[1][1] == Fin(1.0);
  }

  /** The table has source and target of a scalar function exchanged: S_RECIP to scalar 1 from scalar 0 changes scalar
      1, which it lists as used, and leaves scalar 0, which it lists as defined. */
  lemma ScalarTargetExchanged(c: Config, d: Device)
    requires |d.srf| == SRF_LEN && d.srf[0] == Fin(2.0) && d.srf[1] == ZERO
    ensures var x := Call(OP_S_RECIP, 1, 0, 0);
            Defs(x) == [SRF(0)] && Uses(x) == [SRF(1)] &&
            Held(c, StepCall(c, d, x), SRF(0)) == Held(c, d, SRF(0)) &&
            Held(c, StepCall(c, d, x), SRF(1)) == Scalar(Fin(0.5)) != Held(c, d, SRF(1))
  {
    assert Recip(Fin(2.0)) == Fin(0.5);
  }

  /** A product uses up the saved operand, which the table does not list. */
  lemma ProductClearsOperand(c: Config, d: Device, p: Vec)
    requires d.vpipeA == Some(p)
    ensures var x := Call(OP_MV_MUL, 0, 0, 0);
            VpipeA !in Defs(x) && Held(c, StepCall(c, d, x), VpipeA) != Held(c, d, VpipeA)
  {
    hide MatVec, MaskedMatrix;
  }
}
