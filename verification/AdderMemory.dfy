/** DRAM layout of the 140-parameter adder firmware and what the host puts there before it runs. */
module AdderMemory {
  import opened Arithmetic
  import opened Numbers
  import opened D = Device
  import opened Attention

  const ADDR_W_Q_T := 0xD00
  const S_X := 0x2000
  const S_Q := S_X + MAX_SEQ * MODEL_DIM
  const S_K := S_Q + MAX_SEQ * MODEL_DIM
  const S_V := S_K + MAX_SEQ * MODEL_DIM
  const S_CTX := S_V + MAX_SEQ * MODEL_DIM
  const S_ATTN_OUT := S_CTX + MAX_SEQ * MODEL_DIM
  const S_ATTN_RES := S_ATTN_OUT + MAX_SEQ * MODEL_DIM
  const S_SCORE := S_ATTN_RES + MAX_SEQ * MODEL_DIM
  const S_PROB := S_SCORE + MAX_SEQ
  const S_TEMP := S_PROB + MAX_SEQ
  const S_MASK_TABLE := S_TEMP + MAX_SEQ

  /** Tiles of four that hold sl positions, and no more than needed. */
  function Tiles(sl: nat): (nt: nat)
    ensures 4 * nt >= sl && 4 * nt < sl + 4
  {
    (sl + 3) / 4
  }

  function VttBase(nt: nat): nat
  {
    S_MASK_TABLE + MAX_SEQ * nt * MODEL_DIM
  }

  /** The four elements at an address. */
  function Quad(dram: Vec, a: nat): (v: Vec)
    requires a + 4 <= |dram|
    ensures |v| == 4 && forall j :: 0 <= j < 4 ==> v[j] == dram[a + j]
  {
    dram[a..a + 4]
  }

  function MaskAt(q: nat, tc: nat, nt: nat): (a: nat)
    ensures a >= S_MASK_TABLE
    ensures q < MAX_SEQ && tc < nt <= 9 ==> a + 4 <= DRAM_LEN && a < 0x1000000
  {
    S_MASK_TABLE + (q * nt + tc) * MODEL_DIM
  }

  // ---- What the host fills in beforehand ----

  function MaskRow(q: nat, tc: nat): (v: Vec)
    ensures |v| == 4 && forall i :: 0 <= i < 4 ==> v[i] == if tc * 4 + i <= q then ZERO else NegInf
  {
    seq(4, i requires 0 <= i < 4 => if tc * 4 + i <= q then ZERO else NegInf)
  }

  function VtAt(tc: nat, d: nat, nt: nat): (a: nat)
    ensures tc < nt <= 9 && d < MODEL_DIM ==> a + 4 <= DRAM_LEN && a < 0x1000000 && a >= S_MASK_TABLE
  {
    VttBase(nt) + tc * MODEL_DIM * MODEL_DIM + d * MODEL_DIM
  }

  /** Mask rows lie behind each other, query by query, and the value tiles behind the whole mask table. */
  lemma TablesConsecutive(q: nat, tc: nat, d: nat, nt: nat)
    requires nt >= 1
    ensures MaskAt(0, 0, nt) == S_MASK_TABLE && MaskAt(q, tc + 1, nt) == MaskAt(q, tc, nt) + MODEL_DIM
    ensures MaskAt(q + 1, 0, nt) == MaskAt(q, nt - 1, nt) + MODEL_DIM
    ensures VtAt(0, 0, nt) == MaskAt(MAX_SEQ - 1, nt - 1, nt) + MODEL_DIM
    ensures VtAt(tc, d + 1, nt) == VtAt(tc, d, nt) + MODEL_DIM
    ensures VtAt(tc + 1, 0, nt) == VtAt(tc, MODEL_DIM - 1, nt) + MODEL_DIM
  {
    assert (q + 1) * nt == q * nt + nt;
  }

  /** Row d of transposed value tile tc; padding columns are zero. */
  function VtRow(pr: Problem, tc: nat, d: nat): (v: Vec)
    requires d < MODEL_DIM
    ensures |v| == 4 && forall p :: 0 <= p < 4 ==> v[p] == Fin(ValueOrZero(pr, tc * 4 + p, d))
  {
    seq(4, p requires 0 <= p < 4 => Fin(ValueOrZero(pr, tc * 4 + p, d)))
  }

  ghost predicate RowsFilled(dram: Vec, pr: Problem)
    requires pr.Valid() && |dram| == DRAM_LEN
  {
    (forall i :: 0 <= i < pr.Len() ==> Quad(dram, S_X + i * MODEL_DIM) == FinRow(pr.x[i])) &&
    (forall i :: 0 <= i < pr.Len() ==> Quad(dram, S_Q + i * MODEL_DIM) == FinRow(pr.q[i])) &&
    (forall i :: 0 <= i < pr.Len() ==> Quad(dram, S_K + i * MODEL_DIM) == FinRow(pr.k[i])) &&
    (forall d :: 0 <= d < MODEL_DIM ==> Quad(dram, ADDR_W_Q_T + d * MODEL_DIM) == FinRow(pr.wqT[d]))
  }

  ghost predicate MasksFilled(dram: Vec, pr: Problem)
    requires pr.Valid() && |dram| == DRAM_LEN
  {
    var nt := Tiles(pr.Len());
    forall q, tc :: 0 <= q < pr.Len() && 0 <= tc < nt ==> Quad(dram, MaskAt(q, tc, nt)) == MaskRow(q, tc)
  }

  ghost predicate ValuesFilled(dram: Vec, pr: Problem)
    requires pr.Valid() && |dram| == DRAM_LEN
  {
    var nt := Tiles(pr.Len());
    forall tc, d :: 0 <= tc < nt && 0 <= d < MODEL_DIM ==> Quad(dram, VtAt(tc, d, nt)) == VtRow(pr, tc, d)
  }

  /** X, Q, K, the transposed query weights, the mask table and the transposed value tiles. */
  ghost predicate Prefilled(dram: Vec, pr: Problem)
    requires pr.Valid() && |dram| == DRAM_LEN
  {
    RowsFilled(dram, pr) && MasksFilled(dram, pr) && ValuesFilled(dram, pr)
  }

  lemma QuadKept(a: Vec, b: Vec, lo: nat, hi: nat, at: nat)
    requires SameOutside(a, b, lo, hi) && at + 4 <= |a| && (at + 4 <= lo || hi <= at)
    ensures Quad(a, at) == Quad(b, at)
  {
  }

  lemma RowsKept(a: Vec, b: Vec, pr: Problem)
    requires pr.Valid() && |a| == DRAM_LEN && RowsFilled(a, pr) && SameOutside(a, b, S_CTX, S_MASK_TABLE)
    ensures RowsFilled(b, pr)
  {
    forall i | 0 <= i < pr.Len()
      ensures Quad(b, S_X + i * MODEL_DIM) == FinRow(pr.x[i])
      ensures Quad(b, S_Q + i * MODEL_DIM) == FinRow(pr.q[i])
      ensures Quad(b, S_K + i * MODEL_DIM) == FinRow(pr.k[i])
    {
      QuadKept(a, b, S_CTX, S_MASK_TABLE, S_X + i * MODEL_DIM);
      QuadKept(a, b, S_CTX, S_MASK_TABLE, S_Q + i * MODEL_DIM);
      QuadKept(a, b, S_CTX, S_MASK_TABLE, S_K + i * MODEL_DIM);
    }
    forall d | 0 <= d < MODEL_DIM
      ensures Quad(b, ADDR_W_Q_T + d * MODEL_DIM) == FinRow(pr.wqT[d])
    {
      QuadKept(a, b, S_CTX, S_MASK_TABLE, ADDR_W_Q_T + d * MODEL_DIM);
    }
  }

  /** Everything the firmware writes lies between the context rows and the mask table. */
  lemma PrefilledKept(a: Vec, b: Vec, pr: Problem)
    requires pr.Valid() && |a| == DRAM_LEN && Prefilled(a, pr) && SameOutside(a, b, S_CTX, S_MASK_TABLE)
    ensures Prefilled(b, pr)
  {
    RowsKept(a, b, pr);
    var nt := Tiles(pr.Len());
    forall q, tc | 0 <= q < pr.Len() && 0 <= tc < nt
      ensures Quad(b, MaskAt(q, tc, nt)) == MaskRow(q, tc)
    {
      QuadKept(a, b, S_CTX, S_MASK_TABLE, MaskAt(q, tc, nt));
    }
    forall tc, d | 0 <= tc < nt && 0 <= d < MODEL_DIM
      ensures Quad(b, VtAt(tc, d, nt)) == VtRow(pr, tc, d)
    {
      QuadKept(a, b, S_CTX, S_MASK_TABLE, VtAt(tc, d, nt));
    }
  }
}
