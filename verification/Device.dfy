/** The NPU device: its state as a value, and one function per instruction handler.
    NpuDeviceMini rounds through FP16 and honours the vector masks; its subclass NpuFP32
    does neither.  Config.fp32 selects between the two.
 */
module Device {
  import opened Arithmetic
  import opened Numbers

  // Opcodes
  const OP_S_WR := 0
  const OP_V_RD := 2
  const OP_M_RD := 3
  const OP_V_WR := 5
  const OP_M_WR := 6
  const OP_MV_MUL := 7
  const OP_VV_ADD := 8
  const OP_VV_A_SUB_B := 9
  const OP_VV_B_SUB_A := 10
  const OP_VV_MUL := 11
  const OP_V_SIGM := 12
  const OP_V_TANH := 13
  const OP_V_RELU := 14
  const OP_VV_MAX := 15
  const OP_V_RD_INC := 16
  const OP_V_WR_INC := 17
  const OP_VV_ADD_INC := 18
  const OP_VV_MAX_INC := 19
  const OP_V_RD_DRAM := 20
  const OP_V_WR_DRAM := 21
  const OP_V_RD_DRAM_INC := 22
  const OP_V_WR_DRAM_INC := 23
  const OP_M_RD_DRAM := 24
  const OP_M_WR_DRAM := 25
  const OP_MV_MUL_INC := 27
  const OP_VV_MIN := 30
  const OP_VV_MUL_INC := 31
  const OP_VV_A_SUB_B_INC := 32
  const OP_VV_B_SUB_A_INC := 33
  const OP_S_RECIP := 35
  const OP_V_EXP := 37
  const OP_S_SQRT := 38
  const OP_SS_MUL := 40
  const OP_V_GELU := 42
  const OP_V_FUNC := 43

  const SUB_SOFTMAX := 0
  const SUB_LAYERNORM := 1

  // Memory targets
  const MEM_DRAM := 0
  const MEM_MULTIPLY_VRF := 1
  const MEM_NET_OUTPUT_Q := 2
  const MEM_NET_INPUT_Q := 3
  const MEM_MATRIX_RF := 4
  const MEM_MVM_INITIAL_VRF := 5
  const MEM_ADDSUB_VRF_0 := 7
  const MEM_ADDSUB_VRF_1 := 8
  const MEM_FILL := 12
  const MEM_SPU_ADD_REDUCE := 14
  const MEM_SPU_MAX_REDUCE := 15
  const MEM_SPU_ABSMAX_REDUCE := 16
  const MEM_SPU_BROADCAST := 17
  const MEM_VEC_TO_MAT_ROW := 18

  const DRAM_LEN := 524288
  const SRF_LEN := 64

  // Internal registers
  const REG_TILE_ROWS := 1
  const REG_TILE_COLS := 2
  const REG_ITERATIONS := 3
  const REG_READ_VECTOR_MASK := 15
  const REG_WRITE_VECTOR_MASK := 16
  const REG_READ_MATRIX_MASK := 17

  datatype Option<+T> = None | Some(value: T)

  /** A square matrix, row by row. */
  type Matrix = m: seq<Vec> | forall i :: 0 <= i < |m| ==> |m[i]| == |m|

  /** What the C kernels and the host's number format compute: FP16 rounding, exp on finite
      numbers, elementwise activations, and element i of softmax and layer normalisation. */
  datatype Kernels = Kernels(
    round: Num -> Num,
    exp: real -> real,
    gelu: Num -> Num,
    sigmoid: Num -> Num,
    tanh: Num -> Num,
    sqrt: Num -> Num,
    softmax: (Vec, int) -> Num,
    layernorm: (Vec, Vec, Vec, int) -> Num)

  datatype Config = Config(dim: nat, fp32: bool, k: Kernels)

  /** DRAM traffic counters; the FP32 device keeps only those of M_WR_DRAM. */
  datatype Traffic = Traffic(
    vecRdElements: nat, vecWrElements: nat, matRdElements: nat, matWrElements: nat,
    vecRdOps: nat, vecWrOps: nat, matRdOps: nat, matWrOps: nat)

  /** fault records that a handler raised (an index past the end of the pipeline). */
  datatype Device = Device(
    pipe: Option<Vec>,
    vpipeA: Option<Vec>,
    vrf: map<nat, Vec>,
    mrf: Matrix,
    rowBuffer: seq<Vec>,
    srf: Vec,
    regs: map<nat, nat>,
    dramAddr: nat,
    traffic: Traffic,
    seqLen: nat,
    fault: bool)

  function Rnd(c: Config, x: Num): Num
  {
    if c.fp32 then x else c.k.round(x)
  }

  function RndVec(c: Config, v: Vec): (w: Vec)
    ensures |w| == |v| && forall i :: 0 <= i < |v| ==> w[i] == Rnd(c, v[i])
  {
    seq(|v|, i requires 0 <= i < |v| => Rnd(c, v[i]))
  }

  function Reg(d: Device, r: nat, default: nat): nat
  {
    if r in d.regs then d.regs[r] else default
  }

  predicate RoundsOnce(c: Config, x: Num)
  {
    Rnd(c, Rnd(c, x)) == Rnd(c, x)
  }

  /** Rounding twice is rounding once. */
  ghost predicate RoundingIdempotent(c: Config)
  {
    forall x :: RoundsOnce(c, x)
  }

  /** Bit i % 8 of a vector mask. */
  predicate Bit(mask: nat, i: nat)
  {
    match i % 8
    case 0 => mask % 2 == 1
    case 1 => mask / 2 % 2 == 1
    case 2 => mask / 4 % 2 == 1
    case 3 => mask / 8 % 2 == 1
    case 4 => mask / 16 % 2 == 1
    case 5 => mask / 32 % 2 == 1
    case 6 => mask / 64 % 2 == 1
    case _ => mask / 128 % 2 == 1
  }

  /** Lane i looks at the mask bit of weight 2^(i % 8). */
  lemma {:induction false} MaskBits(mask: nat, i: nat)
    ensures Bit(mask, i) <==> mask / TwoTo(i % 8) % 2 == 1
  {
    assert TwoTo(2) == 4;
    assert TwoTo(4) == 16;
    assert TwoTo(6) == 64;
    assert TwoTo(7) == 128;
  }

  function Zeros(n: nat): (v: Vec)
    ensures |v| == n && forall i :: 0 <= i < n ==> v[i] == ZERO
  {
    Const(n, ZERO)
  }

  /** How many of dim elements fit between addr and the end of a bank. */
  function Fit(c: Config, v: Vec, addr: nat): (n: nat)
    ensures n <= c.dim && (n > 0 ==> addr + n <= |v|)
  {
    if addr < |v| then Min(c.dim, |v| - addr) else 0
  }

  /** Every load first hands the old pipeline to the second operand register. */
  function Load(d: Device, v: Vec): Device
  {
    d.(vpipeA := if d.pipe.Some? then d.pipe else d.vpipeA, pipe := Some(v))
  }

  function SWr(d: Device, opd0: nat, opd1: nat): Device
  {
    d.(regs := d.regs[opd0 := opd1])
  }

  /** dim elements of v from addr, rounded, zero past the end. */
  function Window(c: Config, v: Vec, addr: nat): (w: Vec)
    ensures |w| == c.dim
    ensures forall i :: 0 <= i < c.dim ==> w[i] == if addr + i < |v| then Rnd(c, v[addr + i]) else ZERO
  {
    seq(c.dim, i requires 0 <= i < c.dim => if addr + i < |v| then Rnd(c, v[addr + i]) else ZERO)
  }

  function VRd(c: Config, d: Device, bank: nat, addr: nat): Device
  {
    if bank == MEM_FILL then Load(d, Const(c.dim, DecodeFp16(addr)))
    else if bank == MEM_SPU_BROADCAST then
      Load(d, Const(c.dim, if addr < |d.srf| then d.srf[addr] else ZERO))
    else if bank in d.vrf then Load(d, Window(c, d.vrf[bank], addr))
    else d
  }

  /** The DRAM window as V_RD_DRAM sees it: the read mask blanks lanes on the FP16 device. */
  function MaskedWindow(c: Config, v: Vec, addr: nat, mask: nat): (w: Vec)
    ensures |w| == c.dim
    ensures forall i :: 0 <= i < c.dim ==>
      w[i] == if addr + i < |v| && (c.fp32 || Bit(mask, i)) then Rnd(c, v[addr + i]) else ZERO
  {
    seq(c.dim, i requires 0 <= i < c.dim =>
      if addr + i < |v| && (c.fp32 || Bit(mask, i)) then Rnd(c, v[addr + i]) else ZERO)
  }

  function VRdDram(c: Config, d: Device, addr: nat): Device
  {
    if MEM_DRAM in d.vrf then
      var n := Fit(c, d.vrf[MEM_DRAM], addr);
      var d1 := Load(d, MaskedWindow(c, d.vrf[MEM_DRAM], addr, Reg(d, REG_READ_VECTOR_MASK, 0xFF)));
      if c.fp32 || n == 0 then d1
      else d1.(traffic := d.traffic.(vecRdElements := d.traffic.vecRdElements + n, vecRdOps := d.traffic.vecRdOps + 1))
    else d
  }

  /** Bank v after storing the first n pipeline elements at addr under a mask. */
  function MaskedStore(c: Config, v: Vec, addr: nat, p: Vec, n: nat, mask: nat): (w: Vec)
    requires n <= |p| && (n > 0 ==> addr + n <= |v|)
    ensures |w| == |v|
    ensures forall k :: 0 <= k < |v| ==>
      w[k] == if addr <= k < addr + n && (c.fp32 || Bit(mask, k - addr)) then Rnd(c, p[k - addr]) else v[k]
  {
    seq(|v|, k requires 0 <= k < |v| =>
      if addr <= k < addr + n && (c.fp32 || Bit(mask, k - addr)) then Rnd(c, p[k - addr]) else v[k])
  }

  /** The bank a general V_WR stores to: created on first use, eight vectors long. */
  function BankOrNew(c: Config, d: Device, bank: nat): Vec
  {
    if bank in d.vrf then d.vrf[bank] else Zeros(c.dim * 8)
  }

  /** Some lane from lo up to hi is selected. */
  predicate LaneSelected(mask: nat, lo: nat, hi: nat)
  {
    exists i :: lo <= i < hi && Bit(mask, i)
  }

  /** The bank after a store and whether it raised.  A pipeline narrower than the store: the FP16 device stores what
      there is and raises at the first selected lane beyond it; the exact device repeats a single element and
      otherwise raises before storing. */
  function StoreLanes(c: Config, v: Vec, addr: nat, p: Vec, mask: nat): (r: (Vec, bool))
    ensures |r.0| == |v|
  {
    var n := Fit(c, v, addr);
    if n <= |p| then (MaskedStore(c, v, addr, p, n, mask), false)
    else if !c.fp32 then (MaskedStore(c, v, addr, p, |p|, mask), LaneSelected(mask, |p|, n))
    else if |p| == 1 then (MaskedStore(c, v, addr, Const(n, p[0]), n, mask), false)
    else (v, true)
  }

  function VWrBank(c: Config, d: Device, bank: nat, addr: nat): Device
    requires d.pipe.Some?
  {
    var r := StoreLanes(c, BankOrNew(c, d, bank), addr, d.pipe.value, Reg(d, REG_WRITE_VECTOR_MASK, 0xFF));
    d.(vrf := d.vrf[bank := r.0], fault := d.fault || r.1)
  }

  function VWr(c: Config, d: Device, bank: nat, addr: nat): Device
  {
    if d.pipe.None? then d
    else
      var p := d.pipe.value;
      if bank == MEM_VEC_TO_MAT_ROW then d.(rowBuffer := d.rowBuffer + [p])
      else if bank == MEM_SPU_ADD_REDUCE then
        if addr < |d.srf| then d.(srf := d.srf[addr := Add(Sum(p, |p|), d.srf[addr])]) else d
      else if bank == MEM_SPU_MAX_REDUCE || bank == MEM_SPU_ABSMAX_REDUCE then
        if addr >= |d.srf| then d
        else if |p| == 0 then d.(fault := true)
        else
          var data := if bank == MEM_SPU_MAX_REDUCE then p else Map(Abs, p);
          d.(srf := d.srf[addr := PyMax(NpMax(data, |data|), d.srf[addr])])
      else VWrBank(c, d, bank, addr)
  }

  function VWrDram(c: Config, d: Device, addr: nat): Device
  {
    if MEM_DRAM !in d.vrf || d.pipe.None? then d
    else
      var n := Min(Fit(c, d.vrf[MEM_DRAM], addr), |d.pipe.value|);
      if n == 0 then d
      else
        var d1 := d.(vrf := d.vrf[MEM_DRAM := Overlay(d.vrf[MEM_DRAM], addr, RndVec(c, d.pipe.value[..n]))]);
        if c.fp32 then d1
        else d1.(traffic := d.traffic.(vecWrElements := d.traffic.vecWrElements + n,
                                       vecWrOps := d.traffic.vecWrOps + 1))
  }

  /** Row i of a matrix built from the row buffer: the row cut or zero-extended to n. */
  function PadRow(row: Vec, n: nat): (r: Vec)
    ensures |r| == n && forall j :: 0 <= j < n ==> r[j] == if j < |row| then row[j] else ZERO
  {
    seq(n, j requires 0 <= j < n => if j < |row| then row[j] else ZERO)
  }

  function RowsToMatrix(rows: seq<Vec>, n: nat): (m: Matrix)
    ensures |m| == n
    ensures forall i :: 0 <= i < n ==> m[i] == if i < |rows| then PadRow(rows[i], n) else Zeros(n)
  {
    var m: seq<Vec> := seq(n, i requires 0 <= i < n => if i < |rows| then PadRow(rows[i], n) else Zeros(n));
    m
  }

  lemma RowInside(i: nat, n: nat)
    requires i < n
    ensures RowStart(i, n) + n <= n * n
  {
    RowBefore(i, n, n);
  }

  function RowAt(c: Config, v: Vec, addr: nat, n: nat): (r: Vec)
    requires addr + n <= |v|
    ensures |r| == n && forall j :: 0 <= j < n ==> r[j] == Rnd(c, v[addr + j])
  {
    seq(n, j requires 0 <= j < n => Rnd(c, v[addr + j]))
  }

  /** An n by n matrix stored row-major from addr. */
  function MatrixAt(c: Config, v: Vec, addr: nat, n: nat): (m: Matrix)
    requires addr + n * n <= |v|
    ensures |m| == n
    ensures forall i :: 0 <= i < n ==>
      addr + RowStart(i, n) + n <= |v| && m[i] == RowAt(c, v, addr + RowStart(i, n), n)
  {
    assert forall i :: 0 <= i < n ==> RowStart(i, n) + n <= n * n by {
      forall i | 0 <= i < n ensures RowStart(i, n) + n <= n * n { RowInside(i, n); }
    }
    var m: seq<Vec> := seq(n,
                           i requires 0 <= i < n && RowStart(i, n) + n <= n * n =>
                             RowAt(c, v, addr + RowStart(i, n), n));
    m
  }

  function MRd(c: Config, d: Device, opd0: nat, full: nat): Device
  {
    if opd0 == MEM_VEC_TO_MAT_ROW then
      d.(mrf := RowsToMatrix(d.rowBuffer, c.dim), rowBuffer := [])
    else if MEM_DRAM in d.vrf && full < |d.vrf[MEM_DRAM]| then
      var n := Reg(d, REG_TILE_ROWS, 1) * c.dim;
      if full + n * n <= |d.vrf[MEM_DRAM]| then
        var d1 := d.(mrf := MatrixAt(c, d.vrf[MEM_DRAM], full, n));
        if c.fp32 then d1
        else d1.(traffic := d.traffic.(matRdElements := d.traffic.matRdElements + n * n,
                                       matRdOps := d.traffic.matRdOps + 1))
      else d
    else d
  }

  /** Row-major flattening, rounded to FP16 on either device (NpuFP32 does not override it). */
  function Flatten(c: Config, m: Matrix, rows: nat): (v: Vec)
    requires rows <= |m|
    ensures |v| == rows * |m|
  {
    if rows == 0 then [] else
      Flatten(c, m, rows - 1) + Map(c.k.round, m[rows - 1])
  }

  function MWrDram(c: Config, d: Device, full: nat): Device
  {
    var flat := Flatten(c, d.mrf, |d.mrf|);
    if MEM_DRAM in d.vrf && full + |flat| <= |d.vrf[MEM_DRAM]| then
      d.(vrf := d.vrf[MEM_DRAM := Overlay(d.vrf[MEM_DRAM], full, flat)],
         traffic := d.traffic.(matWrElements := d.traffic.matWrElements + |flat|, matWrOps := d.traffic.matWrOps + 1))
    else d
  }

  /** A row is blanked when one of the eight mask bits that cover n rows is clear for it. */
  predicate RowMasked(mask: nat, i: nat, n: nat)
  {
    var rowsPerBit := if n / 8 > 1 then n / 8 else 1;
    i / rowsPerBit < 8 && !Bit(mask, i / rowsPerBit)
  }

  /** With eight rows a bit stands for one row, with sixteen for two. */
  lemma MaskBitsOfRows(mask: nat, i: nat)
    ensures i < 8 ==> (RowMasked(mask, i, 8) <==> !Bit(mask, i))
    ensures i < 16 ==> (RowMasked(mask, i, 16) <==> !Bit(mask, i / 2))
    ensures i < 4 ==> (RowMasked(mask, i, 4) <==> !Bit(mask, i))
  {
  }

  function MaskedMatrix(m: Matrix, mask: nat): (r: Matrix)
    ensures |r| == |m|
    ensures forall i :: 0 <= i < |m| ==> r[i] == if RowMasked(mask, i, |m|) then Zeros(|m|) else m[i]
  {
    seq(|m|, i requires 0 <= i < |m| => if RowMasked(mask, i, |m|) then Zeros(|m|) else m[i])
  }

  lemma KernelInside(n: nat, r: nat, cols: nat, j: nat)
    requires r < n && j < cols <= n
    ensures n > 0 && (RowStart(r, cols) + j) / n < n
  {
    var k := RowStart(r, cols) + j;
    RowBefore(r, n, cols);
    NarrowerRows(n, cols);
    assert k < RowStart(n, n);
    if k / n >= n { RowAfter(n, k / n, n); }
  }

  lemma NarrowerRows(n: nat, cols: nat)
    requires cols <= n
    ensures RowStart(n, cols) <= RowStart(n, n)
  {
    assert n * (n - cols) >= 0;
  }

  lemma RowAfter(a: nat, b: nat, width: nat)
    requires a <= b
    ensures RowStart(a, width) <= RowStart(b, width)
  {
    if a < b { RowBefore(a, b, width); }
  }

  /** The kernel's sum for row r over its first j columns.  It is handed the number of columns to multiply and takes
      that as the distance between rows too, so a pipeline narrower than the matrix reads across row ends. */
  function KernelDot(m: Matrix, x: Vec, r: nat, cols: nat, j: nat): Num
    requires r < |m| && j <= cols <= |m| && cols <= |x|
  {
    if j == 0 then ZERO else
      Add(KernelDot(m, x, r, cols, j - 1), Mul(FlatAt(m, r, cols, j - 1), x[j - 1]))
  }

  /** Element j of what the kernel takes for row r: rows start cols apart in the flat matrix. */
  function FlatAt(m: Matrix, r: nat, cols: nat, j: nat): Num
    requires r < |m| && j < cols <= |m|
  {
    KernelInside(|m|, r, cols, j);
    var k := RowStart(r, cols) + j;
    m[k / |m|][k % |m|]
  }

  /** With a pipeline as wide as the matrix the kernel computes the inner product of each row. */
  lemma {:induction false} KernelDotIsDot(m: Matrix, x: Vec, r: nat, j: nat)
    requires r < |m| && j <= |m| <= |x|
    ensures KernelDot(m, x, r, |m|, j) == Dot(m[r], x, j)
  {
    if j > 0 {
      KernelDotIsDot(m, x, r, j - 1);
      QuotientRemainder(RowStart(r, |m|) + j - 1, |m|, r, j - 1);
    }
  }

  /** The kernel multiplies every matrix of side n by rows if and only if it is told all n columns (or none). */
  lemma KernelStrideIff(n: nat, cols: nat)
    requires cols <= n
    ensures (forall m: Matrix, x: Vec, r: nat :: (|m| == n && |x| >= cols && r < n ==>
              KernelDot(m, x, r, cols, cols) == Dot(m[r], x, cols)))
       <==> cols == n || cols == 0
  {
    if cols == n || cols == 0 {
      forall m: Matrix, x: Vec, r: nat | |m| == n && |x| >= cols && r < n
        ensures KernelDot(m, x, r, cols, cols) == Dot(m[r], x, cols)
      {
        if cols == n { KernelDotIsDot(m, x, r, n); }
      }
    } else {
      var m, x := OneAt(n, cols), FirstUnit(cols);
      RowOneReadsRowZero(n, cols, cols);
      RowOneIsZero(n, cols, cols);
      assert KernelDot(m, x, 1, cols, cols) != Dot(m[1], x, cols);
    }
  }

  /** A single one, in row 0 behind the first cols columns. */
  function OneAt(n: nat, cols: nat): (m: Matrix)
    requires 0 < cols < n
    ensures |m| == n
    ensures forall i, j :: 0 <= i < n && 0 <= j < n ==> m[i][j] == if i == 0 && j == cols then Fin(1.0) else ZERO
  {
    var m: seq<Vec> := seq(n, i => seq(n, j => if i == 0 && j == cols then Fin(1.0) else ZERO));
    m
  }

  function FirstUnit(n: nat): (x: Vec)
    ensures |x| == n && forall j :: 0 <= j < n ==> x[j] == if j == 0 then Fin(1.0) else ZERO
  {
    seq(n, j => if j == 0 then Fin(1.0) else ZERO)
  }

  lemma {:induction false} RowOneReadsRowZero(n: nat, cols: nat, j: nat)
    requires 0 < cols < n && j <= cols
    ensures KernelDot(OneAt(n, cols), FirstUnit(cols), 1, cols, j) == if j == 0 then ZERO else Fin(1.0)
  {
    hide OneAt, FlatAt;
    if j > 0 {
      RowOneReadsRowZero(n, cols, j - 1);
      WhatRowOneReads(n, cols, j - 1);
    }
  }

  lemma WhatRowOneReads(n: nat, cols: nat, j: nat)
    requires 0 < cols < n && j < cols
    ensures var v := FlatAt(OneAt(n, cols), 1, cols, j); v.Fin? && (j == 0 ==> v == Fin(1.0))
  {
    KernelInside(n, 1, cols, j);
    assert RowStart(1, cols) == cols;
    if j == 0 { QuotientRemainder(cols, n, 0, cols); }
  }

  lemma {:induction false} RowOneIsZero(n: nat, cols: nat, j: nat)
    requires 0 < cols < n && j <= cols
    ensures Dot(OneAt(n, cols)[1], FirstUnit(cols), j) == ZERO
  {
    if j > 0 { RowOneIsZero(n, cols, j - 1); }
  }

  /** [[1, 2], [3, 4]] by [1]: row 1 gives 2, the second element of row 0, where its own product is 3. */
  lemma {:induction false} NarrowPipelineReadsAcross(m: Matrix, x: Vec)
    requires m == [[Fin(1.0), Fin(2.0)], [Fin(3.0), Fin(4.0)]] && x == [Fin(1.0)]
    ensures KernelDot(m, x, 1, 1, 1) == Fin(2.0) && Dot(m[1], x, 1) == Fin(3.0)
  {
    assert RowStart(1, 1) == 1;
    assert KernelDot(m, x, 1, 1, 0) == ZERO && FlatAt(m, 1, 1, 0) == m[0][1];
    assert Dot(m[1], x, 0) == ZERO;
  }

  function MatVec(c: Config, m: Matrix, p: Vec): (r: Vec)
    ensures |r| == |m|
    ensures |p| >= |m| ==> forall i :: 0 <= i < |m| ==> r[i] == Rnd(c, Dot(m[i], p, |m|))
  {
    var n := Min(|p|, |m|);
    assert |p| >= |m| ==> forall i :: 0 <= i < |m| ==> KernelDot(m, p, i, n, n) == Dot(m[i], p, |m|) by {
      if |p| >= |m| {
        forall i | 0 <= i < |m| ensures KernelDot(m, p, i, n, n) == Dot(m[i], p, |m|) { KernelDotIsDot(m, p, i, |m|); }
      }
    }
    seq(|m|, i requires 0 <= i < |m| => Rnd(c, KernelDot(m, p, i, n, n)))
  }

  function MvMul(c: Config, d: Device): Device
  {
    var d1 := d.(vpipeA := None);
    if d.pipe.Some? then
      d1.(pipe := Some(MatVec(c, MaskedMatrix(d.mrf, Reg(d, REG_READ_MATRIX_MASK, 0xFF)), d.pipe.value)))
    else d1
  }

  /** Lane operation of the vector-vector opcodes; VV_MIN falls back to addition. */
  function Lane(op: nat, a: Num, b: Num): Num
  {
    if op == OP_VV_MUL then Mul(a, b)
    else if op == OP_VV_A_SUB_B then Sub(a, b)
    else if op == OP_VV_B_SUB_A then Sub(b, a)
    else if op == OP_VV_MAX then CMax(a, b)
    else Add(a, b)
  }

  function Lanes(c: Config, op: nat, a: Vec, b: Vec): (r: Vec)
    ensures |r| == Min(|a|, |b|)
    ensures forall i :: 0 <= i < |r| ==> r[i] == Rnd(c, Lane(op, a[i], b[i]))
  {
    seq(Min(|a|, |b|), i requires 0 <= i < Min(|a|, |b|) => Rnd(c, Lane(op, a[i], b[i])))
  }

  function VV(c: Config, d: Device, op: nat): Device
  {
    var d1 := d.(vpipeA := None);
    if d.vpipeA.Some? && d.pipe.Some? then
      d1.(pipe := Some(Lanes(c, op, d.vpipeA.value, d.pipe.value)))
    else d1
  }

  /** After an activation the FP16 device rounds the pipeline and copies it into IVRF. */
  function FinishActivation(c: Config, d: Device, r: Vec): Device
  {
    var p := RndVec(c, r);
    var d1 := d.(pipe := Some(p), vpipeA := None);
    if !c.fp32 && MEM_MVM_INITIAL_VRF in d.vrf then
      var ivrf := d.vrf[MEM_MVM_INITIAL_VRF];
      d1.(vrf := d.vrf[MEM_MVM_INITIAL_VRF := Overlay(ivrf, 0, p[..Min(|ivrf|, |p|)])])
    else d1
  }

  function Activate(c: Config, op: nat, x: Num): Num
  {
    if op == OP_V_GELU then c.k.gelu(x)
    else if op == OP_V_RELU then Relu(x)
    else if op == OP_V_SIGM then c.k.sigmoid(x)
    else if op == OP_V_TANH then c.k.tanh(x)
    else Exp(c.k.exp, x)
  }

  /** Subtraction undoes addition, the two subtractions mirror each other, VV_MAX is the least bound of both lanes,
      VV_MIN adds, and RELU is the maximum with zero. */
  lemma LaneLaws(c: Config, x: real, y: real)
    ensures var a, b := Fin(x), Fin(y);
            Lane(OP_VV_ADD, Lane(OP_VV_A_SUB_B, a, b), b) == a && Lane(OP_VV_ADD, a, b) == Fin(x + y) &&
            Lane(OP_VV_B_SUB_A, a, b) == Lane(OP_VV_A_SUB_B, b, a) && Lane(OP_VV_MIN, a, b) == Lane(OP_VV_ADD, a, b) &&
            (forall z: real :: Less(Fin(z), Lane(OP_VV_MAX, a, b)) <==> z < x || z < y) &&
            Activate(c, OP_V_RELU, a) == Lane(OP_VV_MAX, a, ZERO)
  {
  }

  function ActivateVec(c: Config, op: nat, v: Vec): (w: Vec)
    ensures |w| == |v| && forall i :: 0 <= i < |v| ==> w[i] == Activate(c, op, v[i])
  {
    seq(|v|, i requires 0 <= i < |v| => Activate(c, op, v[i]))
  }

  function VActivation(c: Config, d: Device, op: nat): Device
  {
    if d.pipe.Some? then FinishActivation(c, d, ActivateVec(c, op, d.pipe.value))
    else d.(vpipeA := None)
  }

  function SoftmaxVec(c: Config, v: Vec): (w: Vec)
    ensures |w| == |v| && forall i :: 0 <= i < |v| ==> w[i] == c.k.softmax(v, i)
  {
    seq(|v|, i => c.k.softmax(v, i))
  }

  function LayernormVec(c: Config, v: Vec, gamma: Vec, beta: Vec): (w: Vec)
    ensures |w| == |v| && forall i :: 0 <= i < |v| ==> w[i] == c.k.layernorm(v, gamma, beta, i)
  {
    seq(|v|, i => c.k.layernorm(v, gamma, beta, i))
  }

  /** The first n elements of a bank, or n copies of a default when the bank is absent. */
  function Prefix(d: Device, bank: nat, default: Num, n: nat): Vec
  {
    if bank in d.vrf then d.vrf[bank][..Min(n, |d.vrf[bank]|)] else Const(n, default)
  }

  function VFunc(c: Config, d: Device, sub: nat): Device
  {
    if sub != SUB_SOFTMAX && sub != SUB_LAYERNORM then d
    else if d.pipe.None? then d.(vpipeA := None)
    else
      var p := d.pipe.value;
      if sub == SUB_SOFTMAX then FinishActivation(c, d, SoftmaxVec(c, p))
      else FinishActivation(c, d,
        LayernormVec(c, p, Prefix(d, MEM_MVM_INITIAL_VRF, Fin(1.0), |p|), Prefix(d, MEM_ADDSUB_VRF_0, ZERO, |p|)))
  }

  function SpuFunc(c: Config, d: Device, op: nat, opd0: nat, opd1: nat): Device
  {
    var src, dst := opd1 % 64, opd0 % 64;
    var val := if src < |d.srf| then d.srf[src] else ZERO;
    var old_dst := if dst < |d.srf| then d.srf[dst] else ZERO;
    var result :=
      if op == OP_S_RECIP then Recip(val)
      else if op == OP_S_SQRT then (if Less(val, ZERO) then NaN else c.k.sqrt(val))
      else Mul(old_dst, val);
    if dst < |d.srf| then d.(srf := d.srf[dst := result]) else d
  }

  /** The opcode an increment variant expands to, if it is one. */
  function IncBase(op: nat): Option<nat>
  {
    if op == OP_V_RD_INC then Some(OP_V_RD)
    else if op == OP_V_WR_INC then Some(OP_V_WR)
    else if op == OP_V_RD_DRAM_INC then Some(OP_V_RD_DRAM)
    else if op == OP_V_WR_DRAM_INC then Some(OP_V_WR_DRAM)
    else if op == OP_MV_MUL_INC then Some(OP_MV_MUL)
    else if op == OP_VV_ADD_INC then Some(OP_VV_ADD)
    else if op == OP_VV_MAX_INC then Some(OP_VV_MAX)
    else if op == OP_VV_MUL_INC then Some(OP_VV_MUL)
    else if op == OP_VV_A_SUB_B_INC then Some(OP_VV_A_SUB_B)
    else if op == OP_VV_B_SUB_A_INC then Some(OP_VV_B_SUB_A)
    else None
  }

  predicate IsVV(op: nat)
  {
    op == OP_VV_ADD || op == OP_VV_A_SUB_B || op == OP_VV_B_SUB_A || op == OP_VV_MUL || op == OP_VV_MIN ||
    op == OP_VV_MAX
  }

  predicate IsActivation(op: nat)
  {
    op == OP_V_SIGM || op == OP_V_TANH || op == OP_V_RELU || op == OP_V_GELU || op == OP_V_EXP
  }

  predicate IsSpuFunc(op: nat)
  {
    op == OP_S_RECIP || op == OP_S_SQRT || op == OP_SS_MUL
  }

  /** Dispatch of an opcode that is not an increment variant. */
  function ExecuteBase(c: Config, d: Device, op: nat, opd0: nat, opd1: nat, full: nat): Device
  {
    if op == OP_S_WR then SWr(d, opd0, opd1)
    else if op == OP_V_RD then VRd(c, d, opd0, opd1)
    else if op == OP_V_RD_DRAM then VRdDram(c, d, full)
    else if op == OP_M_RD || op == OP_M_RD_DRAM then MRd(c, d, opd0, full)
    else if op == OP_V_WR then VWr(c, d, opd0, opd1)
    else if op == OP_V_WR_DRAM then VWrDram(c, d, full)
    else if op == OP_M_WR_DRAM then MWrDram(c, d, full)
    else if op == OP_MV_MUL then MvMul(c, d)
    else if IsVV(op) then VV(c, d, op)
    else if IsActivation(op) then VActivation(c, d, op)
    else if op == OP_V_FUNC then VFunc(c, d, opd0)
    else if IsSpuFunc(op) then SpuFunc(c, d, op, opd0, opd1)
    else d
  }

  /** count executions of a base opcode at addresses addr, addr + inc, ... */
  function ExecuteInc(c: Config, d: Device, base: nat, opd0: nat, addr: nat, inc: nat, count: nat): Device
    decreases count
  {
    if count == 0 || d.fault then d
    else ExecuteInc(c, ExecuteBase(c, d, base, opd0, 0, addr), base, opd0, addr + inc, inc, count - 1)
  }

  function IncCount(d: Device): nat
  {
    Reg(d, REG_ITERATIONS, 1) * Reg(d, REG_TILE_COLS, 1)
  }

  /** An increment variant runs once for every iteration and tile column set before it. */
  lemma CountIsSet(d: Device, iterations: nat, columns: nat)
    ensures IncCount(SWr(SWr(d, REG_ITERATIONS, iterations), REG_TILE_COLS, columns)) == iterations * columns
    ensures REG_ITERATIONS !in d.regs && REG_TILE_COLS !in d.regs ==> IncCount(d) == 1
  {
  }

  function Execute(c: Config, d: Device, op: nat, opd0: nat, opd1: nat, full: nat): Device
  {
    match IncBase(op)
    case None => ExecuteBase(c, d, op, opd0, opd1, full)
    case Some(base) =>
      var d1 := ExecuteInc(c, d, base, opd0, d.dramAddr, opd1, IncCount(d));
      if d1.fault then d1 else d1.(dramAddr := d.dramAddr + IncCount(d) * opd1)
  }

  // Instruction words: opcode in bits 31..24, then either 8 + 16 bits or one 24-bit address.

  function SI(op: nat, opd0: nat, opd1: nat): nat
  {
    op * 0x1000000 + opd0 * 0x10000 + opd1
  }

  function LO(op: nat, adr: nat): nat
  {
    op * 0x1000000 + adr
  }

  /** What pushing one instruction word does, decode included. */
  function Push(c: Config, d: Device, inst: nat): Device
  {
    var op := inst / 0x1000000 % 0x100;
    Execute(c, d, op, inst / 0x10000 % 0x100, inst % 0x10000, if op >= 20 then inst % 0x1000000 else 0)
  }

  lemma FieldsOfWord(op: nat, opd0: nat, opd1: nat)
    requires op < 0x100 && opd0 < 0x100 && opd1 < 0x10000
    ensures var w := SI(op, opd0, opd1);
            w / 0x1000000 % 0x100 == op && w / 0x10000 % 0x100 == opd0 && w % 0x10000 == opd1 &&
            w % 0x1000000 == opd0 * 0x10000 + opd1
  {
    var w := SI(op, opd0, opd1);
    assert w / 0x1000000 == op;
    assert w / 0x10000 == op * 0x100 + opd0;
  }

  /** A word built by the SI macro is dispatched with the operands it was built from. */
  lemma DecodeSI(c: Config, d: Device, op: nat, opd0: nat, opd1: nat)
    requires op < 0x100 && opd0 < 0x100 && opd1 < 0x10000
    ensures Push(c, d, SI(op, opd0, opd1)) ==
            Execute(c, d, op, opd0, opd1, if op >= 20 then opd0 * 0x10000 + opd1 else 0)
  {
    FieldsOfWord(op, opd0, opd1);
  }

  /** A word built by the LO macro is dispatched with its 24-bit address. */
  lemma DecodeLO(c: Config, d: Device, op: nat, adr: nat)
    requires 20 <= op < 0x100 && adr < 0x1000000
    ensures Push(c, d, LO(op, adr)) == Execute(c, d, op, adr / 0x10000, adr % 0x10000, adr)
  {
    assert LO(op, adr) == SI(op, adr / 0x10000, adr % 0x10000);
    DecodeSI(c, d, op, adr / 0x10000, adr % 0x10000);
  }

  // Initial state

  function BankSizes(): map<nat, nat>
  {
    map[5 := 20480, 6 := 4096, 7 := 1024, 8 := 4096, 19 := 64, 1 := 64, 13 := 256, 12 := 1,
        0 := DRAM_LEN, 2 := 1024, 3 := 1024]
  }

  /** A bank after a reset: banks of a fixed size are made anew, DRAM and the two queues keep their length,
      banks created by stores stay. */
  function ResetBank(d: Device, b: nat): Vec
    requires b in d.vrf || b in BankSizes()
  {
    if b in d.vrf && (b == MEM_DRAM || b == MEM_NET_OUTPUT_Q || b == MEM_NET_INPUT_Q) then Zeros(|d.vrf[b]|)
    else if b in BankSizes() then Zeros(BankSizes()[b])
    else d.vrf[b]
  }

  function ZeroMatrix(n: nat): (m: Matrix)
    ensures |m| == n && forall i :: 0 <= i < n ==> m[i] == Zeros(n)
  {
    var m: seq<Vec> := seq(n, i => Zeros(n));
    m
  }

  /** A CPU store of a non-zero value to the reset register. */
  function Reset(d: Device): Device
  {
    d.(regs := map[], vrf := map b | b in d.vrf.Keys + BankSizes().Keys :: ResetBank(d, b),
       mrf := ZeroMatrix(|d.mrf|), pipe := None, vpipeA := None, rowBuffer := [])
  }

  function Initial(c: Config): Device
  {
    Device(None, None, map b | b in BankSizes() :: Zeros(BankSizes()[b]),
           seq(c.dim, i => Zeros(c.dim)), [], Zeros(SRF_LEN), map[], 0, Traffic(0, 0, 0, 0, 0, 0, 0, 0), 1, false)
  }
}
