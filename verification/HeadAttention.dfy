/** One query's dot-product attention in the baseline BERT firmware: the tiled query projection, the scores against
    the stored keys, softmax, the rebuilt V^T and the context, on the rounding device. */
module HeadAttention {
  import opened Arithmetic
  import opened Numbers
  import opened D = Device
  import opened NpuDevice
  import opened Firmware
  import opened BertBanks
  import opened Transpose
  import T = TiledMvm

  const SAVE_Q_BASE := 0x200
  const SAVE_K_BASE := 0x300
  const SAVE_V_BASE := 0x400
  const SCRATCH_ADDR := 0x500

  // ---- What one head computes ----

  /** Rounded products of the query with every key, and with the zero rows behind them. */
  function KeyScores(c: Config, k: seq<Vec>, q: Vec): (s: Vec)
    requires |q| == c.dim && forall i :: 0 <= i < |k| ==> |k[i]| == c.dim
    ensures |s| == c.dim
  {
    seq(c.dim, i requires 0 <= i < c.dim => Rnd(c, Dot(PosMajor(k, c.dim)[i], q, c.dim)))
  }

  function Probabilities(c: Config, k: seq<Vec>, q: Vec): (p: Vec)
    requires |q| == c.dim && forall i :: 0 <= i < |k| ==> |k[i]| == c.dim
    ensures |p| == c.dim && forall i :: 0 <= i < c.dim ==> p[i] == Rnd(c, c.k.softmax(KeyScores(c, k, q), i))
  {
    RndVec(c, SoftmaxVec(c, KeyScores(c, k, q)))
  }

  /** Row j of V^T as the device rebuilds it. */
  function ValueRow(c: Config, v: seq<Vec>, headSize: nat, j: nat): (r: Vec)
    requires headSize <= c.dim && j < c.dim && forall i :: 0 <= i < |v| ==> |v[i]| == c.dim
    ensures |r| == c.dim && forall p :: 0 <= p < c.dim ==> r[p] == ExtractedAt(c, v, headSize, j, p)
  {
    seq(c.dim, p requires 0 <= p < c.dim => ExtractedAt(c, v, headSize, j, p))
  }

  function HeadContext(c: Config, k: seq<Vec>, v: seq<Vec>, q: Vec, headSize: nat): (r: Vec)
    requires headSize <= c.dim && |q| == c.dim
    requires (forall i :: 0 <= i < |k| ==> |k[i]| == c.dim) && forall i :: 0 <= i < |v| ==> |v[i]| == c.dim
    ensures |r| == c.dim
  {
    seq(c.dim, j requires 0 <= j < c.dim =>
      Rnd(c, Dot(ValueRow(c, v, headSize, j), Probabilities(c, k, q), c.dim)))
  }

  // ---- Memory ----

  /** Where a head finds its keys, values and query, and its scratch vector. */
  datatype Place = Place(k: nat, v: nat, stride: nat, q: nat, scratch: nat)

  /** Numbers the firmware relies on to be FP16-exact. */
  ghost predicate Exact(c: Config)
  {
    c.dim >= 1 && RoundingIdempotent(c) && Fixed(c, Zeros(c.dim)) &&
    forall j :: 0 <= j < c.dim ==> Fixed(c, Unit(c.dim, j))
  }

  ghost predicate HeadStored(c: Config, dram: Vec, k: seq<Vec>, v: seq<Vec>, q: Vec, at: Place)
  {
    RowsStored(c, dram, k, at.k, at.stride) && RowsStored(c, dram, v, at.v, at.stride) && UnitsStored(c, dram) &&
    StoredAt(dram, at.q, q) && |q| == c.dim && Fixed(c, q)
  }

  predicate Disjoint(a: nat, b: nat, n: nat)
  {
    a + n <= b || b + n <= a
  }

  /** A vector written at `to` touches none of the head's inputs. */
  ghost predicate Untouched(c: Config, k: seq<Vec>, v: seq<Vec>, at: Place, to: nat)
  {
    (forall p :: 0 <= p < |k| ==> Disjoint(to, at.k + RowStart(p, at.stride), c.dim)) &&
    (forall p :: 0 <= p < |v| ==> Disjoint(to, at.v + RowStart(p, at.stride), c.dim)) &&
    (forall j :: 0 <= j < c.dim ==> Disjoint(to, UNIT_VEC_BASE + RowStart(j, c.dim), c.dim)) &&
    Disjoint(to, at.q, c.dim)
  }

  lemma SliceKept(a: Vec, b: Vec, to: nat, n: nat, at: nat)
    requires SameOutside(a, b, to, to + n) && at + n <= |a| && Disjoint(to, at, n)
    ensures b[at..at + n] == a[at..at + n]
  {
  }

  lemma RowsKept(c: Config, a: Vec, b: Vec, rows: seq<Vec>, base: nat, stride: nat, to: nat)
    requires RowsStored(c, a, rows, base, stride) && SameOutside(a, b, to, to + c.dim)
    requires forall p :: 0 <= p < |rows| ==> Disjoint(to, base + RowStart(p, stride), c.dim)
    ensures RowsStored(c, b, rows, base, stride)
  {
    hide Fixed;
    forall p | 0 <= p < |rows|
      ensures b[base + RowStart(p, stride)..base + RowStart(p, stride) + c.dim] == rows[p]
    {
      SliceKept(a, b, to, c.dim, base + RowStart(p, stride));
    }
  }

  lemma UnitsKept(c: Config, a: Vec, b: Vec, to: nat)
    requires UnitsStored(c, a) && SameOutside(a, b, to, to + c.dim)
    requires forall j :: 0 <= j < c.dim ==> Disjoint(to, UNIT_VEC_BASE + RowStart(j, c.dim), c.dim)
    ensures UnitsStored(c, b)
  {
    forall j | 0 <= j < c.dim
      ensures b[UNIT_VEC_BASE + RowStart(j, c.dim)..UNIT_VEC_BASE + RowStart(j, c.dim) + c.dim] == Unit(c.dim, j)
    {
      SliceKept(a, b, to, c.dim, UNIT_VEC_BASE + RowStart(j, c.dim));
    }
  }

  lemma HeadKept(c: Config, a: Vec, b: Vec, k: seq<Vec>, v: seq<Vec>, q: Vec, at: Place, to: nat)
    requires HeadStored(c, a, k, v, q, at) && SameOutside(a, b, to, to + c.dim) && Untouched(c, k, v, at, to)
    ensures HeadStored(c, b, k, v, q, at)
  {
    hide Fixed, RowsStored, UnitsStored;
    RowsKept(c, a, b, k, at.k, at.stride, to);
    RowsKept(c, a, b, v, at.v, at.stride, to);
    UnitsKept(c, a, b, to);
    SliceKept(a, b, to, c.dim, at.q);
  }

  // ---- The firmware ----

  ghost predicate HeadReady(c: Config, d: Device)
  {
    Banks(c, d) && d.rowBuffer == [] && FullMask(Reg(d, REG_READ_MATRIX_MASK, 0xFF))
  }

  /** Build the key tile and multiply it with the stored query. */
  method ScoreKeys(npu: NpuDeviceMini, ghost k: seq<Vec>, ghost v: seq<Vec>, ghost q: Vec, seqLen: nat, at: Place)
    modifies npu
    requires HeadReady(npu.c, npu.View()) && Exact(npu.c) && seqLen == |k|
    requires HeadStored(npu.c, npu.vrf[MEM_DRAM], k, v, q, at)
    ensures HeadReady(npu.c, npu.View()) && npu.vrf[MEM_DRAM] == old(npu.vrf)[MEM_DRAM]
    ensures BanksKept(old(npu.View()), npu.View(), {MEM_MVM_INITIAL_VRF})
    ensures forall i :: 0 <= i < |k| ==> |k[i]| == npu.c.dim
    ensures npu.pipeline == Some(KeyScores(npu.c, k, q))
  {
    hide Fixed, FullMask;
    PushPositions(npu, k, seqLen, at.k, at.stride);
    SendMRdRows(npu);
    PosMajorRows(npu.c, k, npu.mrf);
    DefaultMaskIsFull();
    SendSWr(npu, REG_READ_VECTOR_MASK, 0xFF);
    MultiplyWith(npu, q, at.q);
    SendSWr(npu, REG_READ_VECTOR_MASK, 0xFF);
    ScoresOf(npu.c, k, q);
  }

  lemma ScoresOf(c: Config, k: seq<Vec>, q: Vec)
    requires |q| == c.dim && forall i :: 0 <= i < |k| ==> |k[i]| == c.dim
    ensures Products(c, PosMajor(k, c.dim), q) == KeyScores(c, k, q)
  {
  }

  /** The rounded product of each row with a vector. */
  function Products(c: Config, m: seq<Vec>, x: Vec): (y: Vec)
    requires |m| == c.dim == |x| && forall i :: 0 <= i < c.dim ==> |m[i]| == c.dim
    ensures |y| == c.dim && forall i :: 0 <= i < c.dim ==> y[i] == Rnd(c, Dot(m[i], x, c.dim))
  {
    seq(c.dim, i requires 0 <= i < c.dim => Rnd(c, Dot(m[i], x, c.dim)))
  }

  /** V_RD_DRAM, V_WR and V_RD of the initial bank, MV_MUL: the matrix register times a stored vector. */
  method MultiplyWith(npu: NpuDeviceMini, ghost x: Vec, at: nat)
    modifies npu
    requires HeadReady(npu.c, npu.View()) && Exact(npu.c) && |npu.mrf| == npu.c.dim
    requires StoredAt(npu.vrf[MEM_DRAM], at, x) && |x| == npu.c.dim && Fixed(npu.c, x)
    ensures HeadReady(npu.c, npu.View()) && npu.vrf[MEM_DRAM] == old(npu.vrf)[MEM_DRAM] && npu.mrf == old(npu.mrf)
    ensures BanksKept(old(npu.View()), npu.View(), {MEM_MVM_INITIAL_VRF})
    ensures npu.pipeline == Some(Products(npu.c, npu.mrf, x))
  {
    hide Fixed, FullMask, Dot;
    FetchDram(npu, at, x);
    Store(npu, MEM_MVM_INITIAL_VRF, x);
    Fetch(npu, MEM_MVM_INITIAL_VRF, x);
    FullProduct(npu.c, npu.View(), x);
    SendMvMul(npu);
  }

  lemma FullProduct(c: Config, d: Device, x: Vec)
    requires FullMask(Reg(d, REG_READ_MATRIX_MASK, 0xFF)) && |d.mrf| == c.dim == |x| && d.pipe == Some(x)
    ensures MvMul(c, d) == d.(vpipeA := None, pipe := Some(Products(c, d.mrf, x)))
  {
    hide FullMask, Dot, KernelDot;
    NothingMasked(d.mrf, Reg(d, REG_READ_MATRIX_MASK, 0xFF));
    assert MatVec(c, d.mrf, x) == Products(c, d.mrf, x);
  }

  /** Softmax over the scores, kept in DRAM scratch because the V^T build needs pipeline and initial bank. */
  method SaveProbabilities(npu: NpuDeviceMini, ghost k: seq<Vec>, ghost q: Vec, scratch: nat)
    modifies npu
    requires HeadReady(npu.c, npu.View()) && Exact(npu.c) && scratch + npu.c.dim <= DRAM_LEN
    requires |q| == npu.c.dim && forall i :: 0 <= i < |k| ==> |k[i]| == npu.c.dim
    requires npu.pipeline == Some(KeyScores(npu.c, k, q))
    ensures HeadReady(npu.c, npu.View())
    ensures BanksKept(old(npu.View()), npu.View(), {MEM_DRAM, MEM_MVM_INITIAL_VRF})
    ensures StoredAt(npu.vrf[MEM_DRAM], scratch, Probabilities(npu.c, k, q)) && Fixed(npu.c, Probabilities(npu.c, k, q))
    ensures SameOutside(old(npu.vrf)[MEM_DRAM], npu.vrf[MEM_DRAM], scratch, scratch + npu.c.dim)
  {
    RoundedIsFixed(npu.c, SoftmaxVec(npu.c, KeyScores(npu.c, k, q)));
    hide Fixed, FullMask, RoundingIdempotent, KeyScores;
    SendSoftmax(npu);
    StoreDram(npu, scratch, Probabilities(npu.c, k, q));
  }

  /** The probabilities of one head, left in scratch memory. */
  method Weigh(npu: NpuDeviceMini, ghost k: seq<Vec>, ghost v: seq<Vec>, ghost q: Vec, seqLen: nat, at: Place)
    modifies npu
    requires HeadReady(npu.c, npu.View()) && Exact(npu.c) && seqLen == |k|
    requires HeadStored(npu.c, npu.vrf[MEM_DRAM], k, v, q, at) && Untouched(npu.c, k, v, at, at.scratch)
    requires at.scratch + npu.c.dim <= DRAM_LEN
    ensures HeadReady(npu.c, npu.View()) && HeadStored(npu.c, npu.vrf[MEM_DRAM], k, v, q, at)
    ensures BanksKept(old(npu.View()), npu.View(), {MEM_DRAM, MEM_MVM_INITIAL_VRF})
    ensures SameOutside(old(npu.vrf)[MEM_DRAM], npu.vrf[MEM_DRAM], at.scratch, at.scratch + npu.c.dim)
    ensures forall i :: 0 <= i < |k| ==> |k[i]| == npu.c.dim
    ensures StoredAt(npu.vrf[MEM_DRAM], at.scratch, Probabilities(npu.c, k, q))
    ensures Fixed(npu.c, Probabilities(npu.c, k, q))
  {
    hide Fixed, FullMask, RoundingIdempotent, RowsStored, UnitsStored, StoredAt, Untouched, KeyScores, Probabilities;
    ghost var dram := npu.vrf[MEM_DRAM];
    ScoreKeys(npu, k, v, q, seqLen, at);
    SaveProbabilities(npu, k, q, at.scratch);
    HeadKept(npu.c, dram, npu.vrf[MEM_DRAM], k, v, q, at, at.scratch);
  }

  /** The stored probabilities times the rebuilt V^T, kept in an accumulator. */
  method Mix(npu: NpuDeviceMini, ghost k: seq<Vec>, ghost v: seq<Vec>, ghost q: Vec, seqLen: nat, headSize: nat,
             at: Place, acc: nat)
    modifies npu
    requires HeadReady(npu.c, npu.View()) && Exact(npu.c) && seqLen == |v| && headSize <= npu.c.dim
    requires acc == MEM_ADDSUB_VRF_0 || acc == MEM_ADDSUB_VRF_1
    requires RowsStored(npu.c, npu.vrf[MEM_DRAM], v, at.v, at.stride) && UnitsStored(npu.c, npu.vrf[MEM_DRAM])
    requires |q| == npu.c.dim && forall i :: 0 <= i < |k| ==> |k[i]| == npu.c.dim
    requires StoredAt(npu.vrf[MEM_DRAM], at.scratch, Probabilities(npu.c, k, q))
    requires Fixed(npu.c, Probabilities(npu.c, k, q))
    ensures HeadReady(npu.c, npu.View()) && npu.vrf[MEM_DRAM] == old(npu.vrf)[MEM_DRAM]
    ensures BanksKept(old(npu.View()), npu.View(), {MEM_MVM_INITIAL_VRF, acc})
    ensures forall i :: 0 <= i < |v| ==> |v[i]| == npu.c.dim
    ensures Holds(npu.View(), acc, HeadContext(npu.c, k, v, q, headSize))
  {
    hide Fixed, FullMask, RoundingIdempotent, RowsStored, UnitsStored, StoredAt, KeyScores, Probabilities, IsExtracted,
      IsTransposed, Pickable, HeadContext;
    BuildVT(npu, v, seqLen, headSize, at.v, at.stride);
    ghost var m := npu.mrf;
    RowsOf(npu.c, m, v, headSize);
    MultiplyWith(npu, Probabilities(npu.c, k, q), at.scratch);
    ContextOf(npu.c, m, k, v, q, headSize);
    DefaultMaskIsFull();
    SendSWr(npu, REG_WRITE_VECTOR_MASK, 0xFF);
    Store(npu, acc, HeadContext(npu.c, k, v, q, headSize));
  }

  lemma RowsOf(c: Config, m: Matrix, v: seq<Vec>, headSize: nat)
    requires headSize <= c.dim && (forall i :: 0 <= i < |v| ==> |v[i]| == c.dim) && IsExtracted(c, m, v, headSize)
    ensures |m| == c.dim
  {
  }

  /** One head: the body of the innermost loop. */
  method Head(npu: NpuDeviceMini, ghost k: seq<Vec>, ghost v: seq<Vec>, ghost q: Vec, seqLen: nat, headSize: nat,
              at: Place, acc: nat)
    modifies npu
    requires HeadReady(npu.c, npu.View()) && Exact(npu.c) && seqLen == |k| == |v| && headSize <= npu.c.dim
    requires acc == MEM_ADDSUB_VRF_0 || acc == MEM_ADDSUB_VRF_1
    requires HeadStored(npu.c, npu.vrf[MEM_DRAM], k, v, q, at) && Untouched(npu.c, k, v, at, at.scratch)
    requires at.scratch + npu.c.dim <= DRAM_LEN
    ensures HeadReady(npu.c, npu.View()) && HeadStored(npu.c, npu.vrf[MEM_DRAM], k, v, q, at)
    ensures BanksKept(old(npu.View()), npu.View(), {MEM_DRAM, MEM_MVM_INITIAL_VRF, acc})
    ensures SameOutside(old(npu.vrf)[MEM_DRAM], npu.vrf[MEM_DRAM], at.scratch, at.scratch + npu.c.dim)
    ensures (forall i :: 0 <= i < |k| ==> |k[i]| == npu.c.dim) && forall i :: 0 <= i < |v| ==> |v[i]| == npu.c.dim
    ensures Holds(npu.View(), acc, HeadContext(npu.c, k, v, q, headSize))
  {
    hide Fixed, FullMask, RoundingIdempotent, RowsStored, UnitsStored, StoredAt, Untouched, Probabilities, HeadContext;
    Weigh(npu, k, v, q, seqLen, at);
    Mix(npu, k, v, q, seqLen, headSize, at, acc);
  }

  lemma ContextOf(c: Config, m: Matrix, k: seq<Vec>, v: seq<Vec>, q: Vec, headSize: nat)
    requires headSize <= c.dim && |q| == c.dim && RoundingIdempotent(c)
    requires (forall i :: 0 <= i < |k| ==> |k[i]| == c.dim) && forall i :: 0 <= i < |v| ==> |v[i]| == c.dim
    requires IsExtracted(c, m, v, headSize)
    ensures Products(c, m, Probabilities(c, k, q)) == HeadContext(c, k, v, q, headSize)
    ensures Fixed(c, HeadContext(c, k, v, q, headSize))
  {
    hide Probabilities, Dot, ExtractedAt, Fixed;
    forall j | 0 <= j < c.dim ensures m[j] == ValueRow(c, v, headSize, j) { }
    HeadContextFixed(c, k, v, q, headSize);
  }

  lemma HeadContextFixed(c: Config, k: seq<Vec>, v: seq<Vec>, q: Vec, headSize: nat)
    requires headSize <= c.dim && |q| == c.dim && RoundingIdempotent(c)
    requires (forall i :: 0 <= i < |k| ==> |k[i]| == c.dim) && forall i :: 0 <= i < |v| ==> |v[i]| == c.dim
    ensures Fixed(c, HeadContext(c, k, v, q, headSize))
  {
    hide Probabilities, Dot, ValueRow;
    var raw := seq(c.dim, j requires 0 <= j < c.dim => Dot(ValueRow(c, v, headSize, j), Probabilities(c, k, q), c.dim));
    assert RndVec(c, raw) == HeadContext(c, k, v, q, headSize);
    RoundedIsFixed(c, raw);
  }
}
