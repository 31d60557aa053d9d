/** apply_layernorm of the baseline BERT firmware: each row tile is normalised with its own gamma
    and beta although loading beta overwrites the first tile and V_FUNC overwrites the gamma bank. */
module LayernormTiles {
  import opened Arithmetic
  import opened Numbers
  import opened D = Device
  import opened NpuDevice
  import opened Firmware
  import opened BertBanks

  /** Row tiles with their gammas and betas, all FP16-exact, at most two of width at most eight. */
  datatype Problem = Problem(x: seq<Vec>, gamma: seq<Vec>, beta: seq<Vec>)
  {
    ghost predicate Valid(c: Config)
    {
      1 <= |x| <= 2 && |gamma| == |beta| == |x| && 1 <= c.dim <= STRIDE &&
      forall t :: 0 <= t < |x| ==>
        |x[t]| == |gamma[t]| == |beta[t]| == c.dim && Fixed(c, x[t]) && Fixed(c, gamma[t]) && Fixed(c, beta[t])
    }
  }

  /** Rounded layer normalisation of tile t with its own parameters. */
  function Normed(c: Config, p: Problem, t: nat): (v: Vec)
    requires t < |p.x| == |p.gamma| == |p.beta|
    ensures |v| == |p.x[t]|
    ensures forall i :: 0 <= i < |v| ==> v[i] == Rnd(c, c.k.layernorm(p.x[t], p.gamma[t], p.beta[t], i))
  {
    RndVec(c, LayernormVec(c, p.x[t], p.gamma[t], p.beta[t]))
  }

  /** Parameters of every tile sit at stride eight. */
  ghost predicate ParamsStored(dram: Vec, p: Problem, gammaAt: nat, betaAt: nat)
    requires |p.gamma| == |p.beta| == |p.x|
  {
    forall t :: 0 <= t < |p.x| ==>
      StoredAt(dram, gammaAt + t * STRIDE, p.gamma[t]) && StoredAt(dram, betaAt + t * STRIDE, p.beta[t])
  }

  predicate Apart(a: nat, aLen: nat, b: nat, bLen: nat)
  {
    a + aLen <= b || b + bLen <= a
  }

  /** State between tiles: which tiles are still raw, which are normalised, where copies sit. */
  ghost predicate TileState(c: Config, d: Device, p: Problem, tr: nat, lnScratch: nat)
    requires p.Valid(c)
  {
    MEM_DRAM in d.vrf &&
    (tr == 0 ==> Holds(d, MEM_ADDSUB_VRF_0, p.x[0])) &&
    (tr <= 1 && |p.x| == 2 ==> Holds(d, MEM_ADDSUB_VRF_1, p.x[1])) &&
    (tr >= 1 ==> StoredAt(d.vrf[MEM_DRAM], lnScratch, Normed(c, p, 0))) &&
    (tr == 2 && |p.x| == 2 ==> Holds(d, MEM_ADDSUB_VRF_1, Normed(c, p, 1)))
  }

  lemma NormedFixed(c: Config, p: Problem, t: nat)
    requires p.Valid(c) && RoundingIdempotent(c) && t < |p.x|
    ensures Fixed(c, Normed(c, p, t))
  {
    RoundedIsFixed(c, LayernormVec(c, p.x[t], p.gamma[t], p.beta[t]));
  }

  /** Load gamma and beta into the banks V_FUNC reads; beta lands on the first tile's bank. */
  method LoadParams(npu: NpuDeviceMini, ghost p: Problem, gammaAt: nat, betaAt: nat, ghost t: nat)
    modifies npu
    requires p.Valid(npu.c) && Banks(npu.c, npu.View()) && t < |p.x|
    requires StoredAt(npu.vrf[MEM_DRAM], gammaAt, p.gamma[t]) && StoredAt(npu.vrf[MEM_DRAM], betaAt, p.beta[t])
    ensures Banks(npu.c, npu.View()) && Kept(old(npu.View()), npu.View())
    ensures BanksKept(old(npu.View()), npu.View(), {MEM_MVM_INITIAL_VRF, MEM_ADDSUB_VRF_0})
    ensures Holds(npu.View(), MEM_MVM_INITIAL_VRF, p.gamma[t]) && Holds(npu.View(), MEM_ADDSUB_VRF_0, p.beta[t])
  {
    hide Fixed, FullMask;
    FetchDram(npu, gammaAt, p.gamma[t]);
    Store(npu, MEM_MVM_INITIAL_VRF, p.gamma[t]);
    FetchDram(npu, betaAt, p.beta[t]);
    Store(npu, MEM_ADDSUB_VRF_0, p.beta[t]);
  }

  /** V_FUNC layer normalisation with the parameters in place. */
  method Normalise(npu: NpuDeviceMini, ghost p: Problem, ghost t: nat)
    modifies npu
    requires p.Valid(npu.c) && Banks(npu.c, npu.View()) && t < |p.x| && npu.pipeline == Some(p.x[t])
    requires Holds(npu.View(), MEM_MVM_INITIAL_VRF, p.gamma[t]) && Holds(npu.View(), MEM_ADDSUB_VRF_0, p.beta[t])
    ensures Banks(npu.c, npu.View()) && Kept(old(npu.View()), npu.View())
    ensures BanksKept(old(npu.View()), npu.View(), {MEM_MVM_INITIAL_VRF})
    ensures npu.pipeline == Some(Normed(npu.c, p, t))
  {
    hide FullMask, Fixed;
    SendLayernorm(npu);
  }

  /** First half of an iteration: copy the tile to scratch, load its parameters, reload the tile. */
  method StageTile(npu: NpuDeviceMini, ghost p: Problem, tr: nat, gammaAt: nat, betaAt: nat, at: nat)
    modifies npu
    requires p.Valid(npu.c) && Banks(npu.c, npu.View()) && tr < |p.x| && at + npu.c.dim <= DRAM_LEN
    requires Holds(npu.View(), TileBank(tr), p.x[tr])
    requires StoredAt(npu.vrf[MEM_DRAM], gammaAt, p.gamma[tr]) && StoredAt(npu.vrf[MEM_DRAM], betaAt, p.beta[tr])
    requires Apart(at, npu.c.dim, gammaAt, npu.c.dim) && Apart(at, npu.c.dim, betaAt, npu.c.dim)
    ensures Banks(npu.c, npu.View()) && npu.pipeline == Some(p.x[tr])
    ensures Holds(npu.View(), MEM_MVM_INITIAL_VRF, p.gamma[tr]) && Holds(npu.View(), MEM_ADDSUB_VRF_0, p.beta[tr])
    ensures npu.rowBuffer == old(npu.rowBuffer) && npu.regs == old(npu.regs)
    ensures SameOutside(old(npu.vrf)[MEM_DRAM], npu.vrf[MEM_DRAM], at, at + npu.c.dim)
    ensures BanksKept(old(npu.View()), npu.View(), {MEM_DRAM, MEM_MVM_INITIAL_VRF, MEM_ADDSUB_VRF_0})
  {
    hide Fixed, FullMask;
    ghost var dram0 := npu.vrf[MEM_DRAM];
    Fetch(npu, TileBank(tr), p.x[tr]);
    StoreDram(npu, at, p.x[tr]);
    hide Holds;
    ghost var dram1 := npu.vrf[MEM_DRAM];
    StoredKept(dram0, dram1, at, at + npu.c.dim, gammaAt, p.gamma[tr]);
    StoredKept(dram0, dram1, at, at + npu.c.dim, betaAt, p.beta[tr]);
    LoadParams(npu, p, gammaAt, betaAt, tr);
    FetchDram(npu, at, p.x[tr]);
  }

  /** Second half: normalise, store to the tile's bank, and keep a copy of tile 0. */
  method FinishTile(npu: NpuDeviceMini, ghost p: Problem, tr: nat, lnScratch: nat)
    modifies npu
    requires p.Valid(npu.c) && RoundingIdempotent(npu.c) && Banks(npu.c, npu.View()) && tr < |p.x|
    requires npu.pipeline == Some(p.x[tr]) && lnScratch + npu.c.dim <= DRAM_LEN
    requires Holds(npu.View(), MEM_MVM_INITIAL_VRF, p.gamma[tr]) && Holds(npu.View(), MEM_ADDSUB_VRF_0, p.beta[tr])
    ensures Banks(npu.c, npu.View()) && Holds(npu.View(), TileBank(tr), Normed(npu.c, p, tr))
    ensures BanksKept(old(npu.View()), npu.View(), {MEM_DRAM, MEM_MVM_INITIAL_VRF, TileBank(tr)})
    ensures npu.rowBuffer == old(npu.rowBuffer) && npu.regs == old(npu.regs)
    ensures tr == 0 ==> StoredAt(npu.vrf[MEM_DRAM], lnScratch, Normed(npu.c, p, 0))
    ensures tr == 0 ==> SameOutside(old(npu.vrf)[MEM_DRAM], npu.vrf[MEM_DRAM], lnScratch, lnScratch + npu.c.dim)
    ensures tr > 0 ==> npu.vrf[MEM_DRAM] == old(npu.vrf)[MEM_DRAM]
  {
    NormedFixed(npu.c, p, tr);
    hide Fixed, FullMask, Normed, RoundingIdempotent;
    Normalise(npu, p, tr);
    Store(npu, TileBank(tr), Normed(npu.c, p, tr));
    if tr == 0 { StoreDram(npu, lnScratch, Normed(npu.c, p, 0)); }
  }

  /** One iteration of the tile loop. */
  method LayernormTile(npu: NpuDeviceMini, ghost p: Problem, tr: nat, gammaAt: nat, betaAt: nat, scratch: nat,
                       lnScratch: nat)
    modifies npu
    requires p.Valid(npu.c) && RoundingIdempotent(npu.c) && Banks(npu.c, npu.View()) && tr < |p.x|
    requires ParamsStored(npu.vrf[MEM_DRAM], p, gammaAt, betaAt)
    requires lnScratch == scratch + |p.x| * STRIDE && lnScratch + STRIDE <= DRAM_LEN
    requires Apart(scratch, |p.x| * STRIDE + STRIDE, gammaAt, |p.x| * STRIDE)
    requires Apart(scratch, |p.x| * STRIDE + STRIDE, betaAt, |p.x| * STRIDE)
    requires TileState(npu.c, npu.View(), p, tr, lnScratch)
    ensures Banks(npu.c, npu.View()) && TileState(npu.c, npu.View(), p, tr + 1, lnScratch)
    ensures npu.rowBuffer == old(npu.rowBuffer) && npu.regs == old(npu.regs)
    ensures SameOutside(old(npu.vrf)[MEM_DRAM], npu.vrf[MEM_DRAM], scratch, lnScratch + STRIDE)
  {
    hide Fixed, FullMask, Normed, RoundingIdempotent, Holds, StoredAt;
    ghost var d0 := npu.View();
    StageTile(npu, p, tr, gammaAt + tr * STRIDE, betaAt + tr * STRIDE, scratch + tr * STRIDE);
    ghost var d1 := npu.View();
    FinishTile(npu, p, tr, lnScratch);
    if tr == 0 && |p.x| == 2 {
      HoldsKept(d0, d1, {MEM_DRAM, MEM_MVM_INITIAL_VRF, MEM_ADDSUB_VRF_0}, MEM_ADDSUB_VRF_1, p.x[1]);
      HoldsKept(d1, npu.View(), {MEM_DRAM, MEM_MVM_INITIAL_VRF, MEM_ADDSUB_VRF_0}, MEM_ADDSUB_VRF_1, p.x[1]);
    }
    if tr == 1 {
      StoredKept(d0.vrf[MEM_DRAM], d1.vrf[MEM_DRAM], scratch + tr * STRIDE, scratch + tr * STRIDE + npu.c.dim,
                 lnScratch, Normed(npu.c, p, 0));
    }
  }

  lemma ParamsKept(a: Vec, b: Vec, p: Problem, c: Config, gammaAt: nat, betaAt: nat, lo: nat, hi: nat)
    requires p.Valid(c) && ParamsStored(a, p, gammaAt, betaAt) && SameOutside(a, b, lo, hi) && lo <= hi
    requires Apart(lo, hi - lo, gammaAt, |p.x| * STRIDE) && Apart(lo, hi - lo, betaAt, |p.x| * STRIDE)
    ensures ParamsStored(b, p, gammaAt, betaAt)
  {
    forall t | 0 <= t < |p.x|
      ensures StoredAt(b, gammaAt + t * STRIDE, p.gamma[t]) && StoredAt(b, betaAt + t * STRIDE, p.beta[t])
    {
      StoredKept(a, b, lo, hi, gammaAt + t * STRIDE, p.gamma[t]);
      StoredKept(a, b, lo, hi, betaAt + t * STRIDE, p.beta[t]);
    }
  }

  /** Every tile ends up normalised with its own parameters, in its own bank. */
  method ApplyLayernorm(npu: NpuDeviceMini, ghost p: Problem, numTiles: nat, gammaAt: nat, betaAt: nat, scratch: nat)
    modifies npu
    requires p.Valid(npu.c) && RoundingIdempotent(npu.c) && Banks(npu.c, npu.View()) && numTiles == |p.x|
    requires Holds(npu.View(), MEM_ADDSUB_VRF_0, p.x[0])
    requires (numTiles == 2 ==> Holds(npu.View(), MEM_ADDSUB_VRF_1, p.x[1]))
    requires ParamsStored(npu.vrf[MEM_DRAM], p, gammaAt, betaAt) && scratch + numTiles * STRIDE + STRIDE <= DRAM_LEN
    requires Apart(scratch, numTiles * STRIDE + STRIDE, gammaAt, numTiles * STRIDE)
    requires Apart(scratch, numTiles * STRIDE + STRIDE, betaAt, numTiles * STRIDE)
    ensures Banks(npu.c, npu.View())
    ensures Holds(npu.View(), MEM_ADDSUB_VRF_0, Normed(npu.c, p, 0))
    ensures numTiles == 2 ==> Holds(npu.View(), MEM_ADDSUB_VRF_1, Normed(npu.c, p, 1))
    ensures npu.rowBuffer == old(npu.rowBuffer) && npu.regs == old(npu.regs)
    ensures SameOutside(old(npu.vrf)[MEM_DRAM], npu.vrf[MEM_DRAM], scratch, scratch + numTiles * STRIDE + STRIDE)
  {
    ghost var dram0 := npu.vrf[MEM_DRAM];
    var lnScratch := scratch + numTiles * STRIDE;
    NormedFixed(npu.c, p, 0);
    hide Fixed, FullMask, Normed, RoundingIdempotent;
    var tr := 0;
    while tr < numTiles
      invariant tr <= numTiles && Banks(npu.c, npu.View()) && TileState(npu.c, npu.View(), p, tr, lnScratch)
      invariant SameOutside(dram0, npu.vrf[MEM_DRAM], scratch, lnScratch + STRIDE)
      invariant npu.rowBuffer == old(npu.rowBuffer) && npu.regs == old(npu.regs)
    {
      ParamsKept(dram0, npu.vrf[MEM_DRAM], p, npu.c, gammaAt, betaAt, scratch, lnScratch + STRIDE);
      LayernormTile(npu, p, tr, gammaAt, betaAt, scratch, lnScratch);
      tr := tr + 1;
    }
    FetchDram(npu, lnScratch, Normed(npu.c, p, 0));
    Store(npu, MEM_ADDSUB_VRF_0, Normed(npu.c, p, 0));
  }
}
