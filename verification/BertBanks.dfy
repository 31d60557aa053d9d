/** The banks the baseline BERT firmware works in: lengths, masks, and full-width stores and loads. */
module BertBanks {
  import opened Arithmetic
  import opened Numbers
  import opened D = Device
  import opened NpuDevice
  import opened Firmware

  /** The firmware header's bank number for the second accumulator.  The device has no bank of
      that number, so the first store creates it. */
  const FW_ADDSUB_VRF_2 := 9

  /** Addresses a saved row tile takes, whatever the device dimension. */
  const STRIDE := 8

  /** The bank that holds row tile t between the routines. */
  function TileBank(t: nat): nat
  {
    if t == 0 then MEM_ADDSUB_VRF_0 else MEM_ADDSUB_VRF_1
  }

  /** Rounding leaves the vector alone. */
  predicate Fixed(c: Config, v: Vec)
  {
    RndVec(c, v) == v
  }

  lemma RoundedIsFixed(c: Config, v: Vec)
    requires RoundingIdempotent(c)
    ensures Fixed(c, RndVec(c, v))
  {
    forall i | 0 <= i < |v| ensures Rnd(c, Rnd(c, v[i])) == Rnd(c, v[i]) { assert RoundsOnce(c, v[i]); }
  }

  /** Bank lengths as the device allocates them, wide enough for one vector, vector masks full. */
  ghost predicate Banks(c: Config, d: Device)
  {
    !d.fault && MEM_DRAM in d.vrf && |d.vrf[MEM_DRAM]| == DRAM_LEN &&
    MEM_MVM_INITIAL_VRF in d.vrf && |d.vrf[MEM_MVM_INITIAL_VRF]| == 20480 &&
    MEM_ADDSUB_VRF_0 in d.vrf && |d.vrf[MEM_ADDSUB_VRF_0]| == 1024 &&
    MEM_ADDSUB_VRF_1 in d.vrf && |d.vrf[MEM_ADDSUB_VRF_1]| == 4096 &&
    MEM_MULTIPLY_VRF in d.vrf && |d.vrf[MEM_MULTIPLY_VRF]| == 64 &&
    (FW_ADDSUB_VRF_2 in d.vrf ==> c.dim <= |d.vrf[FW_ADDSUB_VRF_2]|) && c.dim <= 1024 &&
    FullMask(Reg(d, REG_READ_VECTOR_MASK, 0xFF)) && FullMask(Reg(d, REG_WRITE_VECTOR_MASK, 0xFF))
  }

  /** Pipeline, operand register, banks, matrix and traffic counters may differ; DRAM may not. */
  predicate Kept(d0: Device, d1: Device)
  {
    d1 == d0.(pipe := d1.pipe, vpipeA := d1.vpipeA, vrf := d1.vrf, mrf := d1.mrf, traffic := d1.traffic) &&
    MEM_DRAM in d0.vrf && MEM_DRAM in d1.vrf && d1.vrf[MEM_DRAM] == d0.vrf[MEM_DRAM]
  }

  /** The bank starts with vector v. */
  predicate Holds(d: Device, bank: nat, v: Vec)
  {
    bank in d.vrf && |v| <= |d.vrf[bank]| && d.vrf[bank][..|v|] == v
  }

  predicate WorkBank(bank: nat)
  {
    bank == MEM_MVM_INITIAL_VRF || bank == MEM_ADDSUB_VRF_0 || bank == MEM_ADDSUB_VRF_1 || bank == MEM_MULTIPLY_VRF ||
    bank == FW_ADDSUB_VRF_2
  }

  method Store(npu: NpuDeviceMini, bank: nat, ghost v: Vec)
    modifies npu
    requires Banks(npu.c, npu.View()) && WorkBank(bank) && (bank == MEM_MULTIPLY_VRF ==> npu.c.dim <= 64)
    requires npu.pipeline == Some(v) && |v| == npu.c.dim && Fixed(npu.c, v)
    ensures Banks(npu.c, npu.View()) && Holds(npu.View(), bank, v)
    ensures bank in npu.vrf && npu.View() == old(npu.View()).(vrf := old(npu.vrf)[bank := npu.vrf[bank]])
  {
    hide Bit;
    ghost var d := npu.View();
    ghost var e := d.(vrf := d.vrf[bank := BankOrNew(npu.c, d, bank)]);
    StoreThenWindow(npu.c, e, bank);
    assert v[..npu.c.dim] == v;
    assert VWr(npu.c, d, bank, 0) == VWr(npu.c, e, bank, 0);
    SendVWr(npu, bank, 0);
  }

  method Fetch(npu: NpuDeviceMini, bank: nat, ghost v: Vec)
    modifies npu
    requires Banks(npu.c, npu.View()) && WorkBank(bank)
    requires Holds(npu.View(), bank, v) && |v| == npu.c.dim && Fixed(npu.c, v)
    ensures npu.View() == Load(old(npu.View()), v)
  {
    ghost var b := npu.vrf[bank];
    assert forall i :: 0 <= i < |v| ==> b[i] == b[..|v|][i];
    assert forall i :: 0 <= i < |v| ==> Rnd(npu.c, v[i]) == RndVec(npu.c, v)[i];
    assert Window(npu.c, b, 0) == v;
    SendVRd(npu, bank, 0);
  }

  method FetchDram(npu: NpuDeviceMini, adr: nat, ghost v: Vec)
    modifies npu
    requires Banks(npu.c, npu.View()) && adr + npu.c.dim <= DRAM_LEN
    requires npu.vrf[MEM_DRAM][adr..adr + npu.c.dim] == v && Fixed(npu.c, v)
    ensures npu.View() == Load(old(npu.View()), v).(traffic := npu.traffic)
  {
    ghost var dram := npu.vrf[MEM_DRAM];
    ghost var mask := Reg(npu.View(), REG_READ_VECTOR_MASK, 0xFF);
    forall i | 0 <= i < npu.c.dim
      ensures MaskedWindow(npu.c, dram, adr, mask)[i] == v[i]
    {
      FullMaskSelects(mask, i);
      assert dram[adr + i] == v[i] && RndVec(npu.c, v)[i] == v[i];
    }
    assert MaskedWindow(npu.c, dram, adr, mask) == v;
    SendVRdDram(npu, adr);
  }

  lemma SliceFixed(c: Config, v: Vec, lo: nat, hi: nat)
    requires Fixed(c, v) && lo <= hi <= |v|
    ensures Fixed(c, v[lo..hi])
  {
    forall i | 0 <= i < hi - lo ensures Rnd(c, v[lo..hi][i]) == v[lo..hi][i] {
      assert RndVec(c, v)[lo + i] == v[lo + i];
    }
  }

  predicate BanksKept(d0: Device, d1: Device, touched: set<nat>)
  {
    forall b :: b in d0.vrf && b !in touched ==> b in d1.vrf && d1.vrf[b] == d0.vrf[b]
  }

  lemma HoldsKept(d0: Device, d1: Device, touched: set<nat>, bank: nat, v: Vec)
    requires BanksKept(d0, d1, touched) && bank !in touched && Holds(d0, bank, v)
    ensures Holds(d1, bank, v)
  {
  }

  ghost predicate StoredAt(dram: Vec, at: nat, v: Vec)
  {
    at + |v| <= |dram| && dram[at..at + |v|] == v
  }

  lemma StoredKept(a: Vec, b: Vec, lo: nat, hi: nat, at: nat, v: Vec)
    requires SameOutside(a, b, lo, hi) && StoredAt(a, at, v) && (at + |v| <= lo || hi <= at)
    ensures StoredAt(b, at, v)
  {
    var u, w := a[at..at + |v|], b[at..at + |v|];
    assert forall i :: 0 <= i < |v| ==> w[i] == u[i];
  }

  /** V_WR_DRAM of an exact full-width pipeline. */
  method StoreDram(npu: NpuDeviceMini, at: nat, ghost v: Vec)
    modifies npu
    requires Banks(npu.c, npu.View()) && at + npu.c.dim <= DRAM_LEN && npu.c.dim >= 1
    requires npu.pipeline == Some(v) && |v| == npu.c.dim && Fixed(npu.c, v)
    ensures Banks(npu.c, npu.View())
    ensures npu.View() == old(npu.View()).(vrf := old(npu.vrf)[MEM_DRAM := npu.vrf[MEM_DRAM]], traffic := npu.traffic)
    ensures StoredAt(npu.vrf[MEM_DRAM], at, v) && SameOutside(old(npu.vrf)[MEM_DRAM], npu.vrf[MEM_DRAM], at, at + |v|)
  {
    hide FullMask;
    assert v[..npu.c.dim] == v;
    SendVWrDram(npu, at);
  }
}
