/** Rebuilding V^T in the matrix register by multiplying V with unit vectors, as
    dot_product_attention does for each head. */
module Transpose {
  import opened Arithmetic
  import opened Numbers
  import opened D = Device
  import opened NpuDevice
  import opened Firmware
  import opened BertBanks

  const UNIT_VEC_BASE := 0x900

  /** Element j is one, the rest zero. */
  function Unit(n: nat, j: nat): (v: Vec)
    ensures |v| == n && forall i :: 0 <= i < n ==> v[i] == if i == j then Fin(1.0) else ZERO
  {
    seq(n, i => if i == j then Fin(1.0) else ZERO)
  }

  /** No element but j is infinite or NaN. */
  predicate OthersFinite(row: Vec, j: nat)
  {
    forall k :: 0 <= k < |row| && k != j ==> row[k].Fin?
  }

  /** The same among the first m elements. */
  predicate OthersFiniteUpTo(row: Vec, j: nat, m: nat)
    requires m <= |row|
  {
    forall k :: 0 <= k < m && k != j ==> row[k].Fin?
  }

  /** A unit vector picks one element exactly when no other is infinite or NaN; otherwise the product is NaN. */
  lemma {:induction false} UnitPicks(row: Vec, j: nat, m: nat)
    requires j < |row| && m <= |row|
    ensures Dot(row, Unit(|row|, j), m)
         == if !OthersFiniteUpTo(row, j, m) then NaN else if j < m then row[j] else ZERO
  {
    if m > 0 {
      UnitPicks(row, j, m - 1);
      assert OthersFiniteUpTo(row, j, m) <==> OthersFiniteUpTo(row, j, m - 1) && (m - 1 == j || row[m - 1].Fin?);
    }
  }

  /** What the device gets for element j of an FP16-exact row. */
  function Picked(c: Config, row: Vec, j: nat): Num
    requires j < |row|
  {
    if OthersFinite(row, j) then row[j] else Rnd(c, NaN)
  }

  /** Column j of a matrix of n rows, as the device extracts it. */
  function Column(c: Config, v: seq<Vec>, n: nat, j: nat): (w: Vec)
    requires |v| == n && forall i :: 0 <= i < n ==> |v[i]| == n
    requires j < n
    ensures |w| == n && forall i :: 0 <= i < n ==> w[i] == Picked(c, v[i], j)
  {
    seq(n, i requires 0 <= i < n => Picked(c, v[i], j))
  }

  /** The pos-major value tile: stored rows, then zero rows up to n. */
  function PosMajor(v: seq<Vec>, n: nat): (m: seq<Vec>)
    requires forall i :: 0 <= i < |v| ==> |v[i]| == n
    ensures |m| == n && forall i :: 0 <= i < n ==> m[i] == if i < |v| then v[i] else Zeros(n)
  {
    seq(n, i requires 0 <= i < n => if i < |v| then v[i] else Zeros(n))
  }

  /** A full square of FP16-exact numbers. */
  ghost predicate GoodMatrix(c: Config, m: seq<Vec>)
  {
    |m| == c.dim && forall i :: 0 <= i < c.dim ==> |m[i]| == c.dim && Fixed(c, m[i])
  }

  lemma PosMajorGood(c: Config, dram: Vec, v: seq<Vec>, base: nat, stride: nat)
    requires RowsStored(c, dram, v, base, stride) && Fixed(c, Zeros(c.dim))
    ensures GoodMatrix(c, PosMajor(v, c.dim))
  {
  }

  /** Everything but pipeline, operand register, row buffer, IVRF and traffic stays. */
  predicate Moved(d0: Device, d1: Device)
  {
    d1 == d0.(pipe := d1.pipe, vpipeA := d1.vpipeA, rowBuffer := d1.rowBuffer, vrf := d1.vrf, traffic := d1.traffic) &&
    MEM_DRAM in d0.vrf && MEM_DRAM in d1.vrf && d1.vrf[MEM_DRAM] == d0.vrf[MEM_DRAM]
  }

  ghost predicate RowsStored(c: Config, dram: Vec, v: seq<Vec>, base: nat, stride: nat)
  {
    forall p :: 0 <= p < |v| ==>
      |v[p]| == c.dim && Fixed(c, v[p]) &&
      base + RowStart(p, stride) + c.dim <= |dram| &&
      dram[base + RowStart(p, stride)..base + RowStart(p, stride) + c.dim] == v[p]
  }

  ghost predicate UnitsStored(c: Config, dram: Vec)
  {
    forall j :: 0 <= j < c.dim ==>
      UNIT_VEC_BASE + RowStart(j, c.dim) + c.dim <= |dram| &&
      dram[UNIT_VEC_BASE + RowStart(j, c.dim)..UNIT_VEC_BASE + RowStart(j, c.dim) + c.dim] == Unit(c.dim, j)
  }

  /** Load a stored row or a zero row into the row buffer. */
  method PushStored(npu: NpuDeviceMini, adr: nat, ghost v: Vec)
    modifies npu
    requires Banks(npu.c, npu.View()) && adr + npu.c.dim <= DRAM_LEN
    requires npu.vrf[MEM_DRAM][adr..adr + npu.c.dim] == v && Fixed(npu.c, v)
    ensures Banks(npu.c, npu.View()) && Moved(old(npu.View()), npu.View())
    ensures npu.vrf == old(npu.vrf) && npu.rowBuffer == old(npu.rowBuffer) + [v]
  {
    hide FullMask, Fixed;
    FetchDram(npu, adr, v);
    SendVWr(npu, MEM_VEC_TO_MAT_ROW, 0);
  }

  method PushZeros(npu: NpuDeviceMini, count: nat)
    modifies npu
    requires Banks(npu.c, npu.View())
    ensures Banks(npu.c, npu.View()) && Moved(old(npu.View()), npu.View()) && npu.vrf == old(npu.vrf)
    ensures npu.rowBuffer == old(npu.rowBuffer) + seq(count, i => Zeros(npu.c.dim))
  {
    hide FullMask;
    FillPatterns();
    ghost var d0 := npu.View();
    var i := 0;
    while i < count
      invariant i <= count && Banks(npu.c, npu.View()) && Moved(d0, npu.View()) && npu.vrf == d0.vrf
      invariant npu.rowBuffer == d0.rowBuffer + seq(i, j => Zeros(npu.c.dim))
    {
      SendVRd(npu, MEM_FILL, 0);
      assert npu.pipeline.value == Zeros(npu.c.dim);
      SendVWr(npu, MEM_VEC_TO_MAT_ROW, 0);
      i := i + 1;
    }
  }

  /** Load the stored rows, with every lane readable, and zero rows up to the dimension. */
  method PushPositions(npu: NpuDeviceMini, ghost v: seq<Vec>, seqLen: nat, base: nat, stride: nat)
    modifies npu
    requires Banks(npu.c, npu.View()) && npu.rowBuffer == [] && seqLen == |v|
    requires RowsStored(npu.c, npu.vrf[MEM_DRAM], v, base, stride)
    ensures Banks(npu.c, npu.View()) && npu.vrf == old(npu.vrf)
    ensures Reg(npu.View(), REG_READ_MATRIX_MASK, 0xFF) == old(Reg(npu.View(), REG_READ_MATRIX_MASK, 0xFF))
    ensures npu.rowBuffer == v + seq(if |v| < npu.c.dim then npu.c.dim - |v| else 0, i => Zeros(npu.c.dim))
  {
    hide Fixed;
    ghost var vrf0 := npu.vrf;
    ghost var mask0 := Reg(npu.View(), REG_READ_MATRIX_MASK, 0xFF);
    var p := 0;
    while p < seqLen
      invariant p <= seqLen && Banks(npu.c, npu.View()) && npu.vrf == vrf0 && npu.rowBuffer == v[..p]
      invariant Reg(npu.View(), REG_READ_MATRIX_MASK, 0xFF) == mask0
    {
      DefaultMaskIsFull();
      SendSWr(npu, REG_READ_VECTOR_MASK, 0xFF);
      PushStored(npu, base + RowStart(p, stride), v[p]);
      assert v[..p] + [v[p]] == v[..p + 1];
      p := p + 1;
    }
    assert v[..p] == v;
    PushZeros(npu, if seqLen < npu.c.dim then npu.c.dim - seqLen else 0);
  }

  /** Step 1: V position-major into the matrix register. */
  method LoadPositions(npu: NpuDeviceMini, ghost v: seq<Vec>, seqLen: nat, base: nat, stride: nat)
    modifies npu
    requires Banks(npu.c, npu.View()) && npu.rowBuffer == [] && seqLen == |v|
    requires RowsStored(npu.c, npu.vrf[MEM_DRAM], v, base, stride)
    ensures Banks(npu.c, npu.View()) && npu.rowBuffer == [] && npu.vrf == old(npu.vrf)
    ensures Reg(npu.View(), REG_READ_MATRIX_MASK, 0xFF) == old(Reg(npu.View(), REG_READ_MATRIX_MASK, 0xFF))
    ensures npu.mrf == PosMajor(v, npu.c.dim)
  {
    hide Fixed;
    PushPositions(npu, v, seqLen, base, stride);
    DefaultMaskIsFull();
    SendSWr(npu, REG_READ_VECTOR_MASK, 0xFF);
    SendMRdRows(npu);
    PosMajorRows(npu.c, v, npu.mrf);
  }

  lemma PosMajorRows(c: Config, v: seq<Vec>, m: Matrix)
    requires forall i :: 0 <= i < |v| ==> |v[i]| == c.dim
    requires m == RowsToMatrix(v + seq(if |v| < c.dim then c.dim - |v| else 0, i => Zeros(c.dim)), c.dim)
    ensures m == PosMajor(v, c.dim)
  {
    var rows := v + seq(if |v| < c.dim then c.dim - |v| else 0, i => Zeros(c.dim));
    forall i | 0 <= i < c.dim ensures m[i] == PosMajor(v, c.dim)[i] {
      assert PadRow(rows[i], c.dim) == rows[i];
    }
  }

  /** Step 2, one column: multiply by a unit vector and push the product as a row. */
  method PushColumn(npu: NpuDeviceMini, ghost m: seq<Vec>, j: nat)
    modifies npu
    requires Banks(npu.c, npu.View()) && j < npu.c.dim && npu.mrf == m
    requires FullMask(Reg(npu.View(), REG_READ_MATRIX_MASK, 0xFF))
    requires GoodMatrix(npu.c, m) && UnitsStored(npu.c, npu.vrf[MEM_DRAM])
    requires Fixed(npu.c, Unit(npu.c.dim, j))
    ensures Banks(npu.c, npu.View()) && Moved(old(npu.View()), npu.View())
    ensures npu.rowBuffer == old(npu.rowBuffer) + [Column(npu.c, m, npu.c.dim, j)]
    ensures BanksKept(old(npu.View()), npu.View(), {MEM_MVM_INITIAL_VRF})
  {
    FetchDram(npu, UNIT_VEC_BASE + RowStart(j, npu.c.dim), Unit(npu.c.dim, j));
    Store(npu, MEM_MVM_INITIAL_VRF, Unit(npu.c.dim, j));
    Fetch(npu, MEM_MVM_INITIAL_VRF, Unit(npu.c.dim, j));
    hide Fixed, Dot, Picked;
    ColumnProduct(npu.c, npu.View(), m, j);
    SendMvMul(npu);
    SendVWr(npu, MEM_VEC_TO_MAT_ROW, 0);
  }

  lemma ColumnProduct(c: Config, d: Device, m: seq<Vec>, j: nat)
    requires j < c.dim && |m| == c.dim && d.mrf == m && d.pipe == Some(Unit(c.dim, j))
    requires FullMask(Reg(d, REG_READ_MATRIX_MASK, 0xFF))
    requires GoodMatrix(c, m)
    ensures MvMul(c, d) == d.(vpipeA := None, pipe := Some(Column(c, m, c.dim, j)))
  {
    NothingMasked(d.mrf, Reg(d, REG_READ_MATRIX_MASK, 0xFF));
    var y := MatVec(c, d.mrf, d.pipe.value);
    forall i | 0 <= i < c.dim ensures y[i] == Picked(c, m[i], j) {
      UnitPicks(m[i], j, c.dim);
      assert OthersFinite(m[i], j) <==> OthersFiniteUpTo(m[i], j, c.dim);
      assert RndVec(c, m[i])[j] == m[i][j];
    }
    assert y == Column(c, m, c.dim, j);
  }

  /** Transposed value tile: rows below headSize are V's columns, the rest zero. */
  predicate IsTransposed(m: Matrix, v: seq<Vec>, n: nat, headSize: nat)
    requires forall i :: 0 <= i < |v| ==> |v[i]| == n
  {
    |m| == n && forall j, p :: 0 <= j < n && 0 <= p < n ==> m[j][p] == if j < headSize && p < |v| then v[p][j] else ZERO
  }

  /** Rows below headSize hold what the device picks of V's columns, the rest is zero. */
  predicate IsExtracted(c: Config, m: Matrix, v: seq<Vec>, headSize: nat)
    requires headSize <= c.dim && forall i :: 0 <= i < |v| ==> |v[i]| == c.dim
  {
    |m| == c.dim && forall j, p :: 0 <= j < c.dim && 0 <= p < c.dim ==> m[j][p] == ExtractedAt(c, v, headSize, j, p)
  }

  function ExtractedAt(c: Config, v: seq<Vec>, headSize: nat, j: nat, p: nat): Num
    requires headSize <= c.dim && j < c.dim && p < c.dim && forall i :: 0 <= i < |v| ==> |v[i]| == c.dim
  {
    if j < headSize && p < |v| then Picked(c, v[p], j) else ZERO
  }

  /** Every value of the head can be picked: its row holds no infinity or NaN beside it, or it is itself what
      rounding makes of NaN. */
  predicate Pickable(c: Config, v: seq<Vec>, headSize: nat)
    requires headSize <= c.dim && forall i :: 0 <= i < |v| ==> |v[i]| == c.dim
  {
    forall j, p :: 0 <= j < headSize && 0 <= p < |v| && p < c.dim ==>
      OthersFinite(v[p], j) || v[p][j] == Rnd(c, NaN)
  }

  /** The extracted matrix is the transpose if and only if every value can be picked. */
  lemma TransposedIff(c: Config, m: Matrix, v: seq<Vec>, headSize: nat)
    requires headSize <= c.dim && (forall i :: 0 <= i < |v| ==> |v[i]| == c.dim) && IsExtracted(c, m, v, headSize)
    ensures IsTransposed(m, v, c.dim, headSize) <==> Pickable(c, v, headSize)
  {
    hide OthersFinite;
    if IsTransposed(m, v, c.dim, headSize) {
      forall j, p | 0 <= j < headSize && 0 <= p < |v| && p < c.dim
        ensures OthersFinite(v[p], j) || v[p][j] == Rnd(c, NaN)
      {
        assert m[j][p] == Picked(c, v[p], j);
      }
    }
    if Pickable(c, v, headSize) {
      forall j, p | 0 <= j < c.dim && 0 <= p < c.dim
        ensures m[j][p] == if j < headSize && p < |v| then v[p][j] else ZERO
      {
        if j < headSize && p < |v| {
          assert OthersFinite(v[p], j) || v[p][j] == Rnd(c, NaN);
          assert m[j][p] == Picked(c, v[p], j);
        } else {
          assert m[j][p] == ZERO;
        }
      }
    }
  }

  /** From an empty row buffer the V.T build leaves the head's values extracted, zero-padded, and an empty row
      buffer; it is exactly the transpose if and only if every value can be picked. */
  method BuildVT(npu: NpuDeviceMini, ghost v: seq<Vec>, seqLen: nat, headSize: nat, base: nat, stride: nat)
    modifies npu
    requires Banks(npu.c, npu.View()) && npu.rowBuffer == [] && seqLen == |v| && headSize <= npu.c.dim
    requires RowsStored(npu.c, npu.vrf[MEM_DRAM], v, base, stride) && UnitsStored(npu.c, npu.vrf[MEM_DRAM])
    requires FullMask(Reg(npu.View(), REG_READ_MATRIX_MASK, 0xFF))
    requires Fixed(npu.c, Zeros(npu.c.dim)) && forall j :: 0 <= j < npu.c.dim ==> Fixed(npu.c, Unit(npu.c.dim, j))
    ensures Banks(npu.c, npu.View()) && npu.rowBuffer == [] && npu.vrf[MEM_DRAM] == old(npu.vrf)[MEM_DRAM]
    ensures BanksKept(old(npu.View()), npu.View(), {MEM_MVM_INITIAL_VRF})
    ensures Reg(npu.View(), REG_READ_MATRIX_MASK, 0xFF) == old(Reg(npu.View(), REG_READ_MATRIX_MASK, 0xFF))
    ensures forall i :: 0 <= i < |v| ==> |v[i]| == npu.c.dim
    ensures IsExtracted(npu.c, npu.mrf, v, headSize)
    ensures IsTransposed(npu.mrf, v, npu.c.dim, headSize) <==> Pickable(npu.c, v, headSize)
  {
    LoadPositions(npu, v, seqLen, base, stride);
    ghost var m := PosMajor(v, npu.c.dim);
    PosMajorGood(npu.c, npu.vrf[MEM_DRAM], v, base, stride);
    ghost var d0 := npu.View();
    hide Fixed, FullMask, RowsStored, Picked, IsExtracted, IsTransposed, Pickable, ExtractedAt, PosMajor;
    ghost var cols: seq<Vec> := [];
    var j := 0;
    while j < headSize
      invariant j <= headSize && Banks(npu.c, npu.View()) && Moved(d0, npu.View()) && npu.mrf == m
      invariant |cols| == j && npu.rowBuffer == cols && BanksKept(d0, npu.View(), {MEM_MVM_INITIAL_VRF})
      invariant forall k :: 0 <= k < j ==> cols[k] == Column(npu.c, m, npu.c.dim, k)
    {
      PushColumn(npu, m, j);
      cols := cols + [Column(npu.c, m, npu.c.dim, j)];
      j := j + 1;
    }
    PushZeros(npu, npu.c.dim - headSize);
    SendMRdRows(npu);
    ExtractedRows(npu.c, v, m, cols, npu.mrf, headSize);
    TransposedIff(npu.c, npu.mrf, v, headSize);
  }

  lemma ExtractedRows(c: Config, v: seq<Vec>, m: seq<Vec>, cols: seq<Vec>, t: Matrix, headSize: nat)
    requires headSize <= c.dim && |cols| == headSize && forall i :: 0 <= i < |v| ==> |v[i]| == c.dim
    requires m == PosMajor(v, c.dim) && forall k :: 0 <= k < headSize ==> cols[k] == Column(c, m, c.dim, k)
    requires t == RowsToMatrix(cols + seq(c.dim - headSize, i => Zeros(c.dim)), c.dim)
    ensures IsExtracted(c, t, v, headSize)
  {
    var rows := cols + seq(c.dim - headSize, i => Zeros(c.dim));
    forall j, p | 0 <= j < c.dim && 0 <= p < c.dim
      ensures t[j][p] == ExtractedAt(c, v, headSize, j, p)
    {
      assert t[j] == PadRow(rows[j], c.dim);
    }
  }
}
