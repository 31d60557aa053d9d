/** Cutting the micro-op graph at its DRAM stores: every store closes a cluster, and neighbours that produce
    the same tensor are merged in place. */
module Clusters {
  import opened Arithmetic
  import opened EventTrace
  import opened Dag
  import opened MicroOps

  datatype Region =
    | NONE | X | Q | K | V | SCRATCH | SO_SCRATCH | Z | LN1 | GELU | RES | OUT | UNIT_VEC | WEIGHT | UNKNOWN_REGION

  /** Tensor region and position of a DRAM address: an address below a region's base belongs to an earlier one. */
  function Classify(addr: nat, numTiles: nat, dim: nat): (Region, int)
    requires numTiles >= 1 && dim >= 1
  {
    var stride := numTiles * 8;
    if addr < 0x200 then (X, addr / Tile(numTiles, dim))
    else if addr < 0x300 then (Q, (addr - 0x200) / stride)
    else if addr < 0x400 then (K, (addr - 0x300) / stride)
    else if addr < 0x500 then (V, (addr - 0x400) / stride)
    else if addr < 0x580 then (SCRATCH, (addr - 0x500) / stride)
    else if addr < 0x600 then (SO_SCRATCH, (addr - 0x580) / stride)
    else if addr < 0x620 then (Z, (addr - 0x600) / stride)
    else if addr < 0x640 then (LN1, (addr - 0x620) / stride)
    else if addr < 0x700 then (GELU, (addr - 0x640) / stride)
    else if addr < 0x800 then (RES, (addr - 0x700) / stride)
    else if addr < 0x900 then (OUT, (addr - 0x800) / stride)
    else if addr < 0x900 + 0x80 * dim then (UNIT_VEC, (addr - 0x900) / stride)
    else (UNKNOWN_REGION, addr)
  }

  function Tile(numTiles: nat, dim: nat): (n: nat)
    requires numTiles >= 1 && dim >= 1
    ensures n >= 1
  {
    assert numTiles * dim >= 1 by { ProductPositive(numTiles, dim); }
    numTiles * dim
  }

  lemma ProductPositive(a: nat, b: nat)
    requires a >= 1 && b >= 1
    ensures a * b >= 1
  {
  }

  /** Where the firmware keeps each tensor, and where the next one begins. */
  function Base(r: Region): nat
  {
    match r
    case Q => 0x200
    case K => 0x300
    case V => 0x400
    case SCRATCH => 0x500
    case SO_SCRATCH => 0x580
    case Z => 0x600
    case LN1 => 0x620
    case GELU => 0x640
    case RES => 0x700
    case OUT => 0x800
    case UNIT_VEC => 0x900
    case _ => 0
  }

  function Limit(r: Region, dim: nat): nat
  {
    match r
    case X => 0x200
    case Q => Base(K)
    case K => Base(V)
    case V => Base(SCRATCH)
    case SCRATCH => Base(SO_SCRATCH)
    case SO_SCRATCH => Base(Z)
    case Z => Base(LN1)
    case LN1 => Base(GELU)
    case GELU => Base(RES)
    case RES => Base(OUT)
    case OUT => Base(UNIT_VEC)
    case UNIT_VEC => Base(UNIT_VEC) + 0x80 * dim
    case _ => 0
  }

  /** An address belongs to a tensor exactly when it lies between the tensor's base and its limit. */
  lemma ClassifyExactly(addr: nat, numTiles: nat, dim: nat, r: Region)
    requires numTiles >= 1 && dim >= 1 && r != UNKNOWN_REGION
    ensures Classify(addr, numTiles, dim).0 == r <==> Base(r) <= addr < Limit(r, dim)
  {
    hide Tile;
  }

  predicate Saved(r: Region)
  {
    !r.NONE? && !r.X? && !r.WEIGHT? && !r.UNKNOWN_REGION?
  }

  /** Classification inverts the firmware's layout: row tile tr of position pos comes back as that position. */
  lemma ClassifyInvertsLayout(r: Region, pos: nat, tr: nat, numTiles: nat, dim: nat)
    requires Saved(r) && numTiles >= 1 && dim >= 1 && tr < numTiles
    requires Base(r) + RowStart(pos, numTiles * 8) + tr * 8 < Limit(r, dim)
    ensures Classify(Base(r) + RowStart(pos, numTiles * 8) + tr * 8, numTiles, dim) == (r, pos)
  {
    hide Tile, RowStart;
    var addr, stride := Base(r) + RowStart(pos, numTiles * 8) + tr * 8, numTiles * 8;
    PositionOf(pos, stride, tr * 8);
    ClassifyExactly(addr, numTiles, dim, r);
    assert Classify(addr, numTiles, dim).1 == (addr - Base(r)) / stride;
  }

  lemma PositionOf(pos: nat, stride: nat, low: nat)
    requires low < stride
    ensures (RowStart(pos, stride) + low) / stride == pos
  {
    var x := RowStart(pos, stride) + low;
    var q := x / stride;
    assert x == RowStart(q, stride) + x % stride;
    if q < pos { RowBefore(q, pos, stride); } else if pos < q { RowBefore(pos, q, stride); }
  }

  /** The sizes a graph is drawn for. */
  datatype Shape = Shape(numTiles: nat, dim: nat)

  predicate ShapeOk(s: Shape)
  {
    s.numTiles >= 1 && s.dim >= 1
  }

  // ---- What one micro-op contributes ----

  function DramCount(rs: seq<Resource>): nat
  {
    if rs == [] then 0 else (if rs[0].DRAM? then 1 else 0) + DramCount(rs[1..])
  }

  function KnownCount(rs: seq<Resource>, s: Shape): nat
    requires ShapeOk(s)
  {
    if rs == [] then 0
    else
      (if rs[0].DRAM? && Classify(rs[0].addr, s.numTiles, s.dim).0 != UNKNOWN_REGION then 1 else 0) +
      KnownCount(rs[1..], s)
  }

  function Regions(rs: seq<Resource>, s: Shape): set<Region>
    requires ShapeOk(s)
  {
    if rs == [] then {}
    else
      (if rs[0].DRAM? && Classify(rs[0].addr, s.numTiles, s.dim).0 != UNKNOWN_REGION
       then {Classify(rs[0].addr, s.numTiles, s.dim).0} else {}) + Regions(rs[1..], s)
  }

  predicate LoadsVectors(k: Kind)
  {
    k.DRAM_LOAD? || k.VV_BINOP? || k.V_UNARY?
  }

  datatype Stats = Stats(load: nat, store: nat, flops: nat, consumed: set<Region>)

  function StatsOf(m: MicroOp, s: Shape): Stats
    requires ShapeOk(s)
  {
    Stats(
      if LoadsVectors(m.kind) then DramCount(m.uses) * (s.dim * 2)
      else if m.kind.MAT_LOAD? then DramCount(m.uses) * (s.dim * s.dim * 2) else 0,
      if m.kind.DRAM_STORE? then KnownCount(m.defs, s) * (s.dim * 2) else 0,
      if m.kind.K_MV_MUL? then 2 * s.dim * s.dim
      else if m.kind.VV_BINOP? then 2 * s.dim
      else if m.kind.SOFTMAX? then 5 * s.dim
      else if m.kind.LAYERNORM? then 4 * s.dim
      else if m.kind.V_UNARY? || m.kind == Single(V_GELU) then s.dim else 0,
      if LoadsVectors(m.kind) then Regions(m.uses, s) else if m.kind.MAT_LOAD? then {WEIGHT} else {})
  }

  function Join(a: Stats, b: Stats): Stats
  {
    Stats(a.load + b.load, a.store + b.store, a.flops + b.flops, a.consumed + b.consumed)
  }

  const NOTHING := Stats(0, 0, 0, {})

  /** Region and position a store writes; the last known DRAM definition counts. */
  function Target(rs: seq<Resource>, s: Shape, before: (Region, int)): (Region, int)
    requires ShapeOk(s)
    decreases |rs|
  {
    if rs == [] then before
    else
      var place := if rs[0].DRAM? then Classify(rs[0].addr, s.numTiles, s.dim) else (UNKNOWN_REGION, 0);
      Target(rs[1..], s, if rs[0].DRAM? && place.0 != UNKNOWN_REGION then place else before)
  }

  /** The last known DRAM definition decides, and nothing else matters. */
  lemma {:induction false} LastTargetCounts(rs: seq<Resource>, r: Resource, s: Shape, before: (Region, int))
    requires ShapeOk(s)
    ensures Target([], s, before) == before
    ensures Target(rs + [r], s, before) ==
      if r.DRAM? && Classify(r.addr, s.numTiles, s.dim).0 != UNKNOWN_REGION then Classify(r.addr, s.numTiles, s.dim)
      else Target(rs, s, before)
    decreases |rs|
  {
    hide Classify;
    if rs == [] {
      assert [] + [r] == [r] && [r][1..] == [];
    } else {
      assert (rs + [r])[1..] == rs[1..] + [r];
      var place := if rs[0].DRAM? then Classify(rs[0].addr, s.numTiles, s.dim) else (UNKNOWN_REGION, 0);
      LastTargetCounts(rs[1..], r, s, if rs[0].DRAM? && place.0 != UNKNOWN_REGION then place else before);
    }
  }

  // ---- Members ----

  predicate Connected(edges: seq<Edge>, i: nat)
  {
    exists k :: 0 <= k < |edges| && (edges[k].src == i || edges[k].dst == i)
  }

  predicate Within(ms: seq<nat>, lo: nat, hi: nat)
  {
    forall k :: 0 <= k < |ms| ==> lo <= ms[k] < hi
  }

  predicate Increasing(s: seq<nat>)
  {
    forall a, b :: 0 <= a < b < |s| ==> s[a] < s[b]
  }

  /** Connected micro-ops in lo .. hi, in increasing order. */
  function Members(edges: seq<Edge>, lo: nat, hi: nat): (ms: seq<nat>)
    requires lo <= hi
    ensures Within(ms, lo, hi) && Increasing(ms)
    ensures forall k :: 0 <= k < |ms| ==> Connected(edges, ms[k])
    ensures forall i :: lo <= i < hi && Connected(edges, i) ==> i in ms
    decreases hi - lo
  {
    if lo == hi then [] else
      var ms := Members(edges, lo, hi - 1);
      if Connected(edges, hi - 1) then ms + [hi - 1] else ms
  }

  lemma {:induction false} MembersConcat(edges: seq<Edge>, lo: nat, mid: nat, hi: nat)
    requires lo <= mid <= hi
    ensures Members(edges, lo, hi) == Members(edges, lo, mid) + Members(edges, mid, hi)
    decreases hi - mid
  {
    hide Connected;
    if mid < hi { MembersConcat(edges, lo, mid, hi - 1); }
  }

  function Total(ops: seq<MicroOp>, ms: seq<nat>, s: Shape): Stats
    requires ShapeOk(s) && Within(ms, 0, |ops|)
    decreases |ms|
  {
    if ms == [] then NOTHING else
      var n := |ms| - 1;
      assert Within(ms[..n], 0, |ops|);
      Join(Total(ops, ms[..n], s), StatsOf(ops[ms[n]], s))
  }

  lemma {:induction false} TotalConcat(ops: seq<MicroOp>, a: seq<nat>, b: seq<nat>, s: Shape)
    requires ShapeOk(s) && Within(a, 0, |ops|) && Within(b, 0, |ops|)
    ensures Within(a + b, 0, |ops|)
    ensures Total(ops, a + b, s) == Join(Total(ops, a, s), Total(ops, b, s))
    decreases |b|
  {
    hide StatsOf, Join, Total;
    assert Within(a + b, 0, |ops|);
    if b == [] {
      assert a + b == a;
      NothingJoined(ops, a, s);
    } else {
      var n := |b| - 1;
      var b' := b[..n];
      assert Within(b', 0, |ops|) && b == b' + [b[n]] && a + b == a + b' + [b[n]];
      TotalConcat(ops, a, b', s);
      TotalStep(ops, a + b', b[n], s);
      TotalStep(ops, b', b[n], s);
      JoinAssociates(Total(ops, a, s), Total(ops, b', s), StatsOf(ops[b[n]], s));
    }
  }

  lemma JoinNothing(a: Stats)
    ensures Join(a, NOTHING) == a && Join(NOTHING, a) == a
  {
  }

  lemma {:induction false} NothingJoined(ops: seq<MicroOp>, a: seq<nat>, s: Shape)
    requires ShapeOk(s) && Within(a, 0, |ops|)
    ensures Join(Total(ops, a, s), Total(ops, [], s)) == Total(ops, a, s)
  {
    hide StatsOf, Join;
    JoinNothing(Total(ops, a, s));
  }

  lemma TotalStep(ops: seq<MicroOp>, ms: seq<nat>, x: nat, s: Shape)
    requires ShapeOk(s) && Within(ms, 0, |ops|) && x < |ops|
    ensures Within(ms + [x], 0, |ops|)
    ensures Total(ops, ms + [x], s) == Join(Total(ops, ms, s), StatsOf(ops[x], s))
  {
    hide StatsOf, Join;
    assert (ms + [x])[..|ms + [x]| - 1] == ms;
  }

  lemma JoinAssociates(a: Stats, b: Stats, c: Stats)
    ensures Join(Join(a, b), c) == Join(a, Join(b, c))
  {
  }

  // ---- A cluster ----

  datatype Cluster = Cluster(members: seq<nat>, region: Region, position: int, stats: Stats, first: nat, last: nat)

  function Insert(x: nat, s: seq<nat>): seq<nat>
  {
    if s == [] || x <= s[0] then [x] + s else [s[0]] + Insert(x, s[1..])
  }

  function Sort(s: seq<nat>): seq<nat>
  {
    if s == [] then [] else Insert(s[0], Sort(s[1..]))
  }

  /** Sorting an increasing list changes nothing. */
  lemma {:induction false} SortKeepsIncreasing(s: seq<nat>)
    requires Increasing(s)
    ensures Sort(s) == s
  {
    if s != [] {
      SortKeepsIncreasing(s[1..]);
      if |s| > 1 { assert s[0] < s[1]; }
      assert s == [s[0]] + s[1..];
    }
  }

  class TensorCluster {
    var memberIndices: seq<nat>
    var producedRegion: Region
    var producedPosition: int
    var stats: Stats
    var firstIdx: nat
    var lastIdx: nat

    constructor (c: Cluster)
      ensures View() == c
    {
      memberIndices, producedRegion, producedPosition := c.members, c.region, c.position;
      stats, firstIdx, lastIdx := c.stats, c.first, c.last;
    }

    function View(): Cluster
      reads this
    {
      Cluster(memberIndices, producedRegion, producedPosition, stats, firstIdx, lastIdx)
    }

    /** Takes over the next cluster's members, range and totals. */
    method Absorb(c: TensorCluster)
      requires c != this && Increasing(memberIndices + c.memberIndices)
      modifies this
      ensures View() == Merge(old(View()), c.View())
    {
      memberIndices := Sort(memberIndices + c.memberIndices);
      SortKeepsIncreasing(old(memberIndices) + c.memberIndices);
      lastIdx := c.lastIdx;
      stats := Join(stats, c.stats);
    }
  }

  function Merge(a: Cluster, b: Cluster): Cluster
  {
    Cluster(a.members + b.members, a.region, a.position, Join(a.stats, b.stats), a.first, b.last)
  }

  /** The graph the clusters are cut from. */
  datatype Graph = Graph(ops: seq<MicroOp>, edges: seq<Edge>, shape: Shape)

  predicate GraphOk(g: Graph)
  {
    ShapeOk(g.shape)
  }

  const NOWHERE: (Region, int) := (NONE, -1)

  /** The place the stores among the members write, the last one counting. */
  function Produced(g: Graph, ms: seq<nat>, before: (Region, int)): (Region, int)
    requires GraphOk(g) && Within(ms, 0, |g.ops|)
    decreases |ms|
  {
    if ms == [] then before else
      var m := g.ops[ms[0]];
      assert Within(ms[1..], 0, |g.ops|) by {
        forall k | 0 <= k < |ms[1..]| ensures ms[1..][k] < |g.ops| { assert ms[1..][k] == ms[k + 1]; }
      }
      Produced(g, ms[1..], if m.kind.DRAM_STORE? then Target(m.defs, g.shape, before) else before)
  }

  /** The last store among the members decides. */
  lemma {:induction false} LastStoreCounts(g: Graph, ms: seq<nat>, x: nat, before: (Region, int))
    requires GraphOk(g) && Within(ms, 0, |g.ops|) && x < |g.ops|
    ensures Within(ms + [x], 0, |g.ops|)
    ensures Produced(g, ms + [x], before) ==
      if g.ops[x].kind.DRAM_STORE? then Target(g.ops[x].defs, g.shape, Produced(g, ms, before))
      else Produced(g, ms, before)
    decreases |ms|
  {
    hide Target;
    assert Within(ms + [x], 0, |g.ops|);
    if ms == [] {
      assert [] + [x] == [x] && [x][1..] == [];
    } else {
      var m := g.ops[ms[0]];
      assert (ms + [x])[1..] == ms[1..] + [x];
      assert Within(ms[1..], 0, |g.ops|) by {
        forall k | 0 <= k < |ms[1..]| ensures ms[1..][k] < |g.ops| { assert ms[1..][k] == ms[k + 1]; }
      }
      LastStoreCounts(g, ms[1..], x, if m.kind.DRAM_STORE? then Target(m.defs, g.shape, before) else before);
    }
  }

  lemma {:induction false} TargetFrom(rs: seq<Resource>, s: Shape, before: (Region, int))
    requires ShapeOk(s)
    ensures Target(rs, s, before) == if Target(rs, s, NOWHERE).0 == NONE then before else Target(rs, s, NOWHERE)
    decreases |rs|
  {
    hide Classify;
    if rs != [] {
      if rs[0].DRAM? {
        var place := Classify(rs[0].addr, s.numTiles, s.dim);
        ClassifyIsSome(rs[0].addr, s.numTiles, s.dim);
        TargetFrom(rs[1..], s, place);
      }
      TargetFrom(rs[1..], s, before);
    }
  }

  lemma ClassifyIsSome(addr: nat, numTiles: nat, dim: nat)
    requires numTiles >= 1 && dim >= 1
    ensures Classify(addr, numTiles, dim).0 != NONE
  {
  }

  lemma {:induction false} ProducedFrom(g: Graph, ms: seq<nat>, before: (Region, int))
    requires GraphOk(g) && Within(ms, 0, |g.ops|)
    ensures Produced(g, ms, before) == if Produced(g, ms, NOWHERE).0 == NONE then before else Produced(g, ms, NOWHERE)
    decreases |ms|
  {
    hide Target;
    if ms != [] {
      var m := g.ops[ms[0]];
      assert Within(ms[1..], 0, |g.ops|) by {
        forall k | 0 <= k < |ms[1..]| ensures ms[1..][k] < |g.ops| { assert ms[1..][k] == ms[k + 1]; }
      }
      var first := Target(m.defs, g.shape, NOWHERE);
      TargetFrom(m.defs, g.shape, before);
      ProducedFrom(g, ms[1..], before);
      ProducedFrom(g, ms[1..], first);
      ProducedFrom(g, ms[1..], Target(m.defs, g.shape, before));
    }
  }

  lemma {:induction false} ProducedConcat(g: Graph, a: seq<nat>, b: seq<nat>, before: (Region, int))
    requires GraphOk(g) && Within(a, 0, |g.ops|) && Within(b, 0, |g.ops|)
    ensures Within(a + b, 0, |g.ops|)
    ensures Produced(g, a + b, before) == Produced(g, b, Produced(g, a, before))
    decreases |a|
  {
    hide Target;
    assert Within(a + b, 0, |g.ops|);
    if a == [] {
      assert a + b == b;
    } else {
      assert (a + b)[1..] == a[1..] + b;
      assert Within(a[1..], 0, |g.ops|) by {
        forall k | 0 <= k < |a[1..]| ensures a[1..][k] < |g.ops| { assert a[1..][k] == a[k + 1]; }
      }
      var m := g.ops[a[0]];
      ProducedConcat(g, a[1..], b, if m.kind.DRAM_STORE? then Target(m.defs, g.shape, before) else before);
    }
  }

  /** The cluster of a range: its connected micro-ops, the place they produce and their totals. */
  ghost predicate Exact(g: Graph, c: Cluster)
    requires GraphOk(g)
  {
    c.first <= c.last < |g.ops| && c.members == Members(g.edges, c.first, c.last + 1) &&
    c.stats == Total(g.ops, c.members, g.shape) &&
    (c.region, c.position) == Produced(g, c.members, NOWHERE)
  }

  ghost predicate AllExact(g: Graph, cs: seq<Cluster>)
    requires GraphOk(g)
  {
    forall i :: 0 <= i < |cs| ==> Exact(g, cs[i])
  }

  /** The clusters' ranges follow each other without a gap from lo up to hi. */
  ghost predicate Tiling(cs: seq<Cluster>, lo: nat, hi: nat)
  {
    if cs == [] then lo == hi
    else
      var c := cs[|cs| - 1];
      c.last + 1 == hi && c.first <= c.last && Tiling(cs[..|cs| - 1], lo, c.first)
  }

  predicate SameProducer(a: Cluster, b: Cluster)
  {
    a.region == b.region && a.position == b.position && a.region != NONE
  }

  // ---- Merging neighbours ----

  function AddCluster(ms: seq<Cluster>, c: Cluster): (r: seq<Cluster>)
  {
    if ms != [] && SameProducer(ms[|ms| - 1], c) then ms[..|ms| - 1] + [Merge(ms[|ms| - 1], c)] else ms + [c]
  }

  function MergeAll(cs: seq<Cluster>): seq<Cluster>
    decreases |cs|
  {
    if cs == [] then [] else AddCluster(MergeAll(cs[..|cs| - 1]), cs[|cs| - 1])
  }

  predicate NoSameNeighbours(cs: seq<Cluster>)
  {
    forall i :: 0 <= i < |cs| - 1 ==> !SameProducer(cs[i], cs[i + 1])
  }

  /** Two exact neighbours that produce the same place make one exact cluster. */
  lemma MergeExact(g: Graph, a: Cluster, b: Cluster)
    requires GraphOk(g) && Exact(g, a) && Exact(g, b) && a.last + 1 == b.first && SameProducer(a, b)
    ensures Exact(g, Merge(a, b))
  {
    hide Members, Total, Produced, Join;
    MembersConcat(g.edges, a.first, b.first, b.last + 1);
    TotalConcat(g.ops, a.members, b.members, g.shape);
    ProducedConcat(g, a.members, b.members, NOWHERE);
    ProducedFrom(g, b.members, Produced(g, a.members, NOWHERE));
  }

  /** Merging keeps every cluster exact and the tiling gapless, and leaves no two neighbours with the same producer. */
  lemma {:induction false} MergeAllKeeps(g: Graph, cs: seq<Cluster>, lo: nat, hi: nat)
    requires GraphOk(g) && AllExact(g, cs) && Tiling(cs, lo, hi)
    ensures AllExact(g, MergeAll(cs)) && Tiling(MergeAll(cs), lo, hi) && NoSameNeighbours(MergeAll(cs))
    decreases |cs|
  {
    hide Exact;
    if cs != [] {
      var c := cs[|cs| - 1];
      var before := MergeAll(cs[..|cs| - 1]);
      MergeAllKeeps(g, cs[..|cs| - 1], lo, c.first);
      AddKeeps(g, before, c, lo);
    }
  }

  lemma AddKeeps(g: Graph, ms: seq<Cluster>, c: Cluster, lo: nat)
    requires GraphOk(g) && AllExact(g, ms) && Exact(g, c)
    requires Tiling(ms, lo, c.first) && NoSameNeighbours(ms) && c.first <= c.last
    ensures AllExact(g, AddCluster(ms, c)) && Tiling(AddCluster(ms, c), lo, c.last + 1)
    ensures NoSameNeighbours(AddCluster(ms, c))
  {
    hide Exact;
    var r := AddCluster(ms, c);
    if ms != [] && SameProducer(ms[|ms| - 1], c) {
      MergeExact(g, ms[|ms| - 1], c);
      assert r[..|r| - 1] == ms[..|ms| - 1];
      forall i | 0 <= i < |r| - 1 ensures !SameProducer(r[i], r[i + 1]) { assert !SameProducer(ms[i], ms[i + 1]); }
    } else {
      assert r[..|r| - 1] == ms;
    }
  }

  function AllMembers(cs: seq<Cluster>): seq<nat>
  {
    if cs == [] then [] else AllMembers(cs[..|cs| - 1]) + cs[|cs| - 1].members
  }

  function AllStats(cs: seq<Cluster>): Stats
  {
    if cs == [] then NOTHING else Join(AllStats(cs[..|cs| - 1]), cs[|cs| - 1].stats)
  }

  /** Member lists of a tiling concatenate to the connected micro-ops of the whole range, and totals add up. */
  lemma {:induction false} TilingConserves(g: Graph, cs: seq<Cluster>, lo: nat, hi: nat)
    requires GraphOk(g) && AllExact(g, cs) && Tiling(cs, lo, hi)
    ensures lo <= hi && (cs != [] ==> hi <= |g.ops|) && Within(AllMembers(cs), 0, |g.ops|)
    ensures AllMembers(cs) == Members(g.edges, lo, hi)
    ensures AllStats(cs) == Total(g.ops, AllMembers(cs), g.shape)
    decreases |cs|
  {
    hide Members, Total, Produced, Join;
    if cs == [] {
      EmptyRange(g, lo);
    } else {
      var c := cs[|cs| - 1];
      assert Exact(g, c);
      TilingConserves(g, cs[..|cs| - 1], lo, c.first);
      MembersConcat(g.edges, lo, c.first, hi);
      TotalConcat(g.ops, AllMembers(cs[..|cs| - 1]), c.members, g.shape);
    }
  }

  lemma {:induction false} EmptyRange(g: Graph, lo: nat)
    requires GraphOk(g)
    ensures Members(g.edges, lo, lo) == [] && Total(g.ops, [], g.shape) == NOTHING
  {
  }

  // ---- Cutting at the stores ----

  /** Positions of the stores among the first n micro-ops. */
  function Stores(ops: seq<MicroOp>, n: nat): (ss: seq<nat>)
    requires n <= |ops|
    ensures Within(ss, 0, n) && Increasing(ss)
    ensures forall k :: 0 <= k < |ss| ==> ops[ss[k]].kind.DRAM_STORE?
    ensures forall i :: 0 <= i < n && ops[i].kind.DRAM_STORE? ==> i in ss
  {
    if n == 0 then [] else if ops[n - 1].kind.DRAM_STORE? then Stores(ops, n - 1) + [n - 1] else Stores(ops, n - 1)
  }

  function StartOf(stores: seq<nat>, k: nat): nat
    requires k <= |stores|
  {
    if k == 0 then 0 else stores[k - 1] + 1
  }

  function RangeCluster(g: Graph, lo: nat, store: nat): Cluster
    requires GraphOk(g) && lo <= store < |g.ops|
  {
    var ms := Members(g.edges, lo, store + 1);
    assert Within(ms, 0, |g.ops|);
    var place := Produced(g, ms, NOWHERE);
    Cluster(ms, place.0, place.1, Total(g.ops, ms, g.shape), lo, store)
  }

  /** One cluster a store: from behind the previous store up to this one. */
  function Cut(g: Graph, stores: seq<nat>, k: nat): (cs: seq<Cluster>)
    requires GraphOk(g) && k <= |stores| && Within(stores, 0, |g.ops|) && Increasing(stores)
    ensures |cs| == k
  {
    if k == 0 then [] else Cut(g, stores, k - 1) + [RangeCluster(g, StartOf(stores, k - 1), stores[k - 1])]
  }

  lemma {:induction false} CutIsTiling(g: Graph, stores: seq<nat>, k: nat)
    requires GraphOk(g) && k <= |stores| && Within(stores, 0, |g.ops|) && Increasing(stores)
    ensures AllExact(g, Cut(g, stores, k)) && Tiling(Cut(g, stores, k), 0, StartOf(stores, k))
  {
    hide Members, Total, Produced;
    if k > 0 {
      CutIsTiling(g, stores, k - 1);
      var before := Cut(g, stores, k - 1);
      assert (before + [RangeCluster(g, StartOf(stores, k - 1), stores[k - 1])])[..k - 1] == before;
    }
  }

  /** Connected micro-ops behind the last store, uncounted. */
  function Tail(g: Graph, lo: nat): (cs: seq<Cluster>)
    requires lo <= |g.ops|
  {
    if Members(g.edges, lo, |g.ops|) == [] then []
    else [Cluster(Members(g.edges, lo, |g.ops|), NONE, -1, NOTHING, lo, |g.ops| - 1)]
  }

  function LastStart(g: Graph): (lo: nat)
    ensures lo <= |g.ops|
  {
    StartOf(Stores(g.ops, |g.ops|), |Stores(g.ops, |g.ops|)|)
  }

  function Counted(g: Graph): seq<Cluster>
    requires GraphOk(g)
  {
    Cut(g, Stores(g.ops, |g.ops|), |Stores(g.ops, |g.ops|)|)
  }

  /** The clusters of a graph: the merged counted ones, then the tail. */
  function Extracted(g: Graph): seq<Cluster>
    requires GraphOk(g)
  {
    MergeAll(Counted(g)) + Tail(g, LastStart(g))
  }

  /** Clustering conserves the graph. Members, in cluster order, are the connected micro-ops in increasing order;
      ranges leave no gap; totals are those of the connected micro-ops up to the last store, before merging and after;
      every cluster is exactly its range; and no two neighbours produce the same tensor. */
  lemma ClustersConserve(g: Graph)
    requires GraphOk(g)
    ensures var merged, lo := MergeAll(Counted(g)), LastStart(g);
            AllMembers(Extracted(g)) == Members(g.edges, 0, |g.ops|) &&
            AllExact(g, merged) && Tiling(merged, 0, lo) && NoSameNeighbours(Extracted(g)) &&
            AllStats(merged) == AllStats(Counted(g)) == Total(g.ops, Members(g.edges, 0, lo), g.shape)
  {
    hide Members, Total, Produced, Exact, Cut, MergeAll, Stores;
    var stores := Stores(g.ops, |g.ops|);
    var merged, lo, tail := MergeAll(Counted(g)), LastStart(g), Tail(g, LastStart(g));
    CutIsTiling(g, stores, |stores|);
    MergeAllKeeps(g, Counted(g), 0, lo);
    TilingConserves(g, Counted(g), 0, lo);
    TilingConserves(g, merged, 0, lo);
    MembersConcat(g.edges, 0, lo, |g.ops|);
    if tail == [] {
      assert merged + tail == merged;
    } else {
      assert (merged + tail)[..|merged + tail| - 1] == merged;
      assert !SameProducer(if merged == [] then tail[0] else merged[|merged| - 1], tail[0]);
    }
  }

  lemma {:induction false} TilingPrefix(cs: seq<Cluster>, lo: nat, hi: nat, i: nat)
    requires Tiling(cs, lo, hi) && i < |cs|
    ensures Tiling(cs[..i], lo, cs[i].first)
    decreases |cs|
  {
    if i < |cs| - 1 {
      TilingPrefix(cs[..|cs| - 1], lo, cs[|cs| - 1].first, i);
      assert cs[..|cs| - 1][..i] == cs[..i];
    }
  }

  /** Between the last member of a cluster and the first of the next there is no connected micro-op. */
  lemma GapIsUnconnected(g: Graph, a: Cluster, b: Cluster, k: nat)
    requires GraphOk(g) && Exact(g, a) && Exact(g, b) && a.last + 1 == b.first
    requires a.members != [] && b.members != [] && a.members[|a.members| - 1] < k < b.members[0]
    ensures !Connected(g.edges, k)
  {
    hide Total, Produced, Connected;
    NotBeyond(a.members, k);
    NotBefore(b.members, k);
    assert a.first <= k <= b.last;
  }

  lemma NotBeyond(ms: seq<nat>, x: nat)
    requires Increasing(ms) && ms != [] && ms[|ms| - 1] < x
    ensures x !in ms
  {
  }

  lemma NotBefore(ms: seq<nat>, x: nat)
    requires Increasing(ms) && ms != [] && x < ms[0]
    ensures x !in ms
  {
  }

  lemma ProducerHasMembers(g: Graph, c: Cluster)
    requires GraphOk(g) && Exact(g, c) && c.region != NONE
    ensures c.members != []
  {
  }

  // ---- The extraction as it runs ----

  method StoreIndices(ops: seq<MicroOp>) returns (stores: seq<nat>)
    ensures stores == Stores(ops, |ops|)
  {
    stores := [];
    for i := 0 to |ops|
      invariant stores == Stores(ops, i)
    {
      if ops[i].kind.DRAM_STORE? { stores := stores + [i]; }
    }
  }

  method MemberIndices(g: Graph, lo: nat, hi: nat) returns (ms: seq<nat>)
    requires lo <= hi
    ensures ms == Members(g.edges, lo, hi)
  {
    ms := [];
    for i := lo to hi
      invariant ms == Members(g.edges, lo, i)
    {
      if Connected(g.edges, i) { ms := ms + [i]; }
    }
  }

  lemma {:induction false} MembersWithin(g: Graph, lo: nat, hi: nat)
    requires lo <= hi <= |g.ops|
    ensures Within(Members(g.edges, lo, hi), 0, |g.ops|)
  {
  }

  lemma CollectStart(g: Graph, ms: seq<nat>)
    requires GraphOk(g) && Within(ms, 0, |g.ops|)
    ensures Within(ms[..0], 0, |g.ops|) && ms[0..] == ms && Total(g.ops, ms[..0], g.shape) == NOTHING
  {
  }

  lemma CollectEnd(g: Graph, ms: seq<nat>, place: (Region, int))
    requires GraphOk(g) && Within(ms[|ms|..], 0, |g.ops|)
    ensures Produced(g, ms[|ms|..], place) == place
  {
  }

  lemma CollectStep(g: Graph, ms: seq<nat>, k: nat, place: (Region, int))
    requires GraphOk(g) && k < |ms| && Within(ms, 0, |g.ops|)
    requires Within(ms[..k], 0, |g.ops|) && Within(ms[k..], 0, |g.ops|)
    ensures Within(ms[..k + 1], 0, |g.ops|) && Within(ms[k + 1..], 0, |g.ops|) && ms[k] < |g.ops|
    ensures Total(g.ops, ms[..k + 1], g.shape) == Join(Total(g.ops, ms[..k], g.shape), StatsOf(g.ops[ms[k]], g.shape))
    ensures Produced(g, ms[k..], place)
         == Produced(g, ms[k + 1..],
                     if g.ops[ms[k]].kind.DRAM_STORE? then Target(g.ops[ms[k]].defs, g.shape, place) else place)
  {
    hide StatsOf, Target, Join, Total;
    assert ms[..k + 1] == ms[..k] + [ms[k]] && ms[k..][1..] == ms[k + 1..];
    TotalStep(g.ops, ms[..k], ms[k], g.shape);
  }

  /** Collects the statistics of the members and the place they produce. */
  method BuildCluster(g: Graph, lo: nat, store: nat) returns (c: TensorCluster)
    requires GraphOk(g) && lo <= store < |g.ops|
    ensures fresh(c) && c.View() == RangeCluster(g, lo, store)
  {
    hide Members, StatsOf, Target, Join, Total, Produced, Within;
    var ms := MemberIndices(g, lo, store + 1);
    MembersWithin(g, lo, store + 1);
    var stats, place := NOTHING, NOWHERE;
    CollectStart(g, ms);
    for k := 0 to |ms|
      invariant Within(ms[..k], 0, |g.ops|) && Within(ms[k..], 0, |g.ops|)
      invariant stats == Total(g.ops, ms[..k], g.shape)
      invariant Produced(g, ms[k..], place) == Produced(g, ms, NOWHERE)
    {
      CollectStep(g, ms, k, place);
      var m := g.ops[ms[k]];
      stats := Join(stats, StatsOf(m, g.shape));
      if m.kind.DRAM_STORE? { place := Target(m.defs, g.shape, place); }
    }
    CollectEnd(g, ms, place);
    assert ms[..|ms|] == ms;
    c := new TensorCluster(Cluster(ms, place.0, place.1, stats, lo, store));
  }

  /** The objects' current values. */
  ghost predicate Show(cs: seq<TensorCluster>, vs: seq<Cluster>)
    reads cs
  {
    |cs| == |vs| && forall i :: 0 <= i < |cs| ==> cs[i].View() == vs[i]
  }

  ghost predicate AllDistinct(cs: seq<TensorCluster>)
  {
    forall i, j :: 0 <= i < j < |cs| ==> cs[i] != cs[j]
  }

  lemma CutNext(g: Graph, stores: seq<nat>, k: nat)
    requires GraphOk(g) && k < |stores| && Within(stores, 0, |g.ops|) && Increasing(stores)
    ensures StartOf(stores, k) <= stores[k] < |g.ops| && StartOf(stores, k + 1) == stores[k] + 1
    ensures Cut(g, stores, k + 1) == Cut(g, stores, k) + [RangeCluster(g, StartOf(stores, k), stores[k])]
    ensures Cut(g, stores, 0) == []
  {
    hide RangeCluster;
  }

  method CutAtStores(g: Graph) returns (cs: seq<TensorCluster>)
    requires GraphOk(g)
    ensures fresh(cs) && AllDistinct(cs) && Show(cs, Counted(g) + Tail(g, LastStart(g)))
  {
    hide Members, RangeCluster, Cut, StartOf, Stores, Within, Increasing, GraphOk;
    var stores := StoreIndices(g.ops);
    cs := [];
    var rangeStart: nat := 0;
    CutStarts(g, stores);
    for k := 0 to |stores|
      invariant rangeStart == StartOf(stores, k)
      invariant fresh(cs) && AllDistinct(cs) && Show(cs, Cut(g, stores, k))
    {
      CutNext(g, stores, k);
      var c := BuildCluster(g, rangeStart, stores[k]);
      cs := cs + [c];
      rangeStart := stores[k] + 1;
    }
    assert rangeStart == LastStart(g);
    var counted := cs;
    cs := AddTail(g, counted, rangeStart, Counted(g));
    forall i | 0 <= i < |cs| ensures fresh(cs[i]) { if i < |counted| { assert cs[i] == counted[i]; } }
  }

  lemma {:induction false} CutStarts(g: Graph, stores: seq<nat>)
    requires GraphOk(g) && Within(stores, 0, |g.ops|) && Increasing(stores)
    ensures StartOf(stores, 0) == 0 && Cut(g, stores, 0) == []
  {
  }

  method AddTail(g: Graph, counted: seq<TensorCluster>, rangeStart: nat, ghost vs: seq<Cluster>)
    returns (cs: seq<TensorCluster>)
    requires rangeStart <= |g.ops| && AllDistinct(counted) && Show(counted, vs)
    ensures AllDistinct(cs) && Show(cs, vs + Tail(g, rangeStart))
    ensures |cs| >= |counted| && cs[..|counted|] == counted && forall i :: |counted| <= i < |cs| ==> fresh(cs[i])
  {
    hide Members;
    cs := counted;
    if rangeStart < |g.ops| {
      var ms := MemberIndices(g, rangeStart, |g.ops|);
      if ms != [] {
        var c := new TensorCluster(Cluster(ms, NONE, -1, NOTHING, rangeStart, |g.ops| - 1));
        cs := cs + [c];
      }
    } else {
      NoMembers(g.edges, rangeStart);
    }
  }

  lemma {:induction false} NoMembers(edges: seq<Edge>, lo: nat)
    ensures Members(edges, lo, lo) == []
  {
  }

  predicate ReadsDram(m: MicroOp)
  {
    (m.kind.DRAM_LOAD? || m.kind.MAT_LOAD?) && exists k :: 0 <= k < |m.uses| && m.uses[k].DRAM?
  }

  predicate ReadAt(g: Graph, k: int)
  {
    0 <= k < |g.ops| && Connected(g.edges, k) && ReadsDram(g.ops[k])
  }

  /** The check for a connected DRAM read strictly between two positions. */
  method DramReadBetween(g: Graph, lo: nat, hi: nat) returns (found: bool)
    ensures found <==> exists k :: lo < k < hi && ReadAt(g, k)
  {
    found := false;
    for k := lo + 1 to if hi > lo + 1 then hi else lo + 1
      invariant found <==> exists j :: lo < j < k && ReadAt(g, j)
    {
      if ReadAt(g, k) { found := true; break; }
    }
  }

  lemma ReadIsConnected(g: Graph, k: nat)
    ensures ReadAt(g, k) ==> Connected(g.edges, k)
  {
  }

  /** The merge condition as the code has it: same producer, and no DRAM read in the gap. */
  method CanMerge(g: Graph, prev: TensorCluster, c: TensorCluster) returns (merge: bool)
    requires GraphOk(g)
    requires SameProducer(prev.View(), c.View()) ==>
               Exact(g, prev.View()) && Exact(g, c.View()) && prev.lastIdx + 1 == c.firstIdx
    ensures merge == SameProducer(prev.View(), c.View())
  {
    hide Exact, Connected, ReadAt;
    var same := prev.producedRegion == c.producedRegion && prev.producedPosition == c.producedPosition &&
                prev.producedRegion != NONE;
    var gapStart := if prev.memberIndices != [] then prev.memberIndices[|prev.memberIndices| - 1] else 0;
    var gapEnd := if c.memberIndices != [] then c.memberIndices[0] else 0;
    var read := DramReadBetween(g, gapStart, gapEnd);
    merge := same && !read;
    if same {
      ProducerHasMembers(g, prev.View());
      ProducerHasMembers(g, c.View());
      forall k | gapStart < k < gapEnd ensures !ReadAt(g, k) {
        GapIsUnconnected(g, prev.View(), c.View(), k);
        ReadIsConnected(g, k);
      }
    }
  }

  lemma {:induction false} MergeNext(vs: seq<Cluster>)
    requires vs != []
    ensures MergeAll(vs) == AddCluster(MergeAll(vs[..|vs| - 1]), vs[|vs| - 1])
  {
  }

  /** The last merged cluster meets what the merge condition needs of it. */
  lemma ReadyToMerge(g: Graph, vs: seq<Cluster>, n: nat, i: nat)
    requires GraphOk(g) && i < |vs| && |vs| - 1 <= n <= |vs| && AllExact(g, vs[..n]) && MergeAll(vs[..i]) != []
    requires exists hi :: Tiling(vs[..n], 0, hi)
    requires n < |vs| ==> vs[n].region == NONE
    ensures var prev := MergeAll(vs[..i])[|MergeAll(vs[..i])| - 1];
            SameProducer(prev, vs[i]) ==> Exact(g, prev) && Exact(g, vs[i]) && prev.last + 1 == vs[i].first
  {
    hide Exact, MergeAll;
    if i < n {
      var hi :| Tiling(vs[..n], 0, hi);
      TilingPrefix(vs[..n], 0, hi, i);
      assert vs[..n][..i] == vs[..i];
      assert vs[..n][i] == vs[i];
      MergeAllKeeps(g, vs[..i], 0, vs[i].first);
    }
  }

  lemma MembersRise(g: Graph, a: Cluster, b: Cluster)
    requires GraphOk(g) && Exact(g, a) && Exact(g, b) && a.last + 1 == b.first
    ensures Increasing(a.members + b.members)
  {
    hide Total, Produced;
  }

  lemma MergeNone()
    ensures MergeAll([]) == []
  {
  }

  /** Where each merged cluster started: positions increase, so the objects differ. */
  predicate Picked(cs: seq<TensorCluster>, merged: seq<TensorCluster>, from: seq<nat>, i: nat)
  {
    |from| == |merged| && Within(from, 0, i) && Increasing(from) && i <= |cs| &&
    forall k :: 0 <= k < |merged| ==> from[k] < |cs| && merged[k] == cs[from[k]]
  }

  lemma PickedNone(cs: seq<TensorCluster>)
    ensures Picked(cs, [], [], 0)
  {
  }

  lemma PickedApart(cs: seq<TensorCluster>, merged: seq<TensorCluster>, from: seq<nat>, i: nat)
    requires AllDistinct(cs) && Picked(cs, merged, from, i) && i < |cs|
    ensures forall k :: 0 <= k < |merged| ==> merged[k] in cs
    ensures merged != [] ==> merged[|merged| - 1] in cs
    ensures merged != [] ==> forall k :: 0 <= k < |merged| - 1 ==> merged[k] != merged[|merged| - 1]
    ensures merged != [] ==> forall j :: i <= j < |cs| ==> cs[j] != merged[|merged| - 1]
    ensures Picked(cs, merged, from, i + 1) && Picked(cs, merged + [cs[i]], from + [i], i + 1)
  {
  }

  lemma AddedAs(ms: seq<Cluster>, c: Cluster)
    ensures (ms == [] || !SameProducer(ms[|ms| - 1], c)) ==> AddCluster(ms, c) == ms + [c]
    ensures (ms != [] && SameProducer(ms[|ms| - 1], c)) ==> AddCluster(ms, c) == ms[|ms| - 1 := Merge(ms[|ms| - 1], c)]
  {
    hide Merge, SameProducer;
  }

  /** One step of the merge: cluster i is absorbed by the last merged one or appended. */
  method MergeOne(g: Graph, cs: seq<TensorCluster>, ghost vs: seq<Cluster>, ghost n: nat, i: nat,
                  merged: seq<TensorCluster>, ghost from: seq<nat>)
    returns (next: seq<TensorCluster>, ghost nextFrom: seq<nat>)
    requires GraphOk(g) && AllDistinct(cs) && |cs| - 1 <= n <= |cs| == |vs| && i < |cs|
    requires AllExact(g, vs[..n]) && exists hi :: Tiling(vs[..n], 0, hi)
    requires n < |cs| ==> vs[n].region == NONE
    requires Picked(cs, merged, from, i) && Show(merged, MergeAll(vs[..i]))
    requires forall j :: i <= j < |cs| ==> cs[j].View() == vs[j]
    modifies cs
    ensures Picked(cs, next, nextFrom, i + 1) && Show(next, MergeAll(vs[..i + 1]))
    ensures forall j :: i < j < |cs| ==> cs[j].View() == vs[j]
  {
    hide Exact, MergeAll, SameProducer, Merge, AllExact, Tiling, AddCluster, Picked, AllDistinct, Increasing;
    var c := cs[i];
    assert vs[..i + 1][..i] == vs[..i];
    MergeNext(vs[..i + 1]);
    AddedAs(MergeAll(vs[..i]), vs[i]);
    PickedApart(cs, merged, from, i);
    if merged == [] {
      next, nextFrom := merged + [c], from + [i];
    } else {
      var prev := merged[|merged| - 1];
      ReadyToMerge(g, vs, n, i);
      var merge := CanMerge(g, prev, c);
      if merge {
        MembersRise(g, prev.View(), c.View());
        prev.Absorb(c);
        next, nextFrom := merged, from;
      } else {
        next, nextFrom := merged + [c], from + [i];
      }
    }
  }

  /** Merges in place, left to right; n of the clusters are counted, and at most one is the tail. */
  method MergeNeighbours(g: Graph, cs: seq<TensorCluster>, ghost vs: seq<Cluster>, ghost n: nat)
    returns (merged: seq<TensorCluster>)
    requires GraphOk(g) && AllDistinct(cs) && |cs| - 1 <= n <= |cs| && Show(cs, vs)
    requires AllExact(g, vs[..n]) && exists hi :: Tiling(vs[..n], 0, hi)
    requires n < |cs| ==> vs[n].region == NONE
    modifies cs
    ensures Show(merged, MergeAll(vs))
  {
    hide MergeAll, AllExact, Tiling, Picked, AllDistinct;
    merged := [];
    ghost var from: seq<nat> := [];
    assert Picked(cs, merged, from, 0) by { PickedNone(cs); }
    MergeNone();
    for i := 0 to |cs|
      invariant Picked(cs, merged, from, i)
      invariant forall j :: i <= j < |cs| ==> cs[j].View() == vs[j]
      invariant Show(merged, MergeAll(vs[..i]))
    {
      merged, from := MergeOne(g, cs, vs, n, i, merged, from);
    }
    assert vs[..|cs|] == vs;
  }

  method ExtractClusters(g: Graph) returns (clusters: seq<TensorCluster>)
    requires GraphOk(g)
    ensures Show(clusters, Extracted(g))
  {
    hide Counted, LastStart, MergeAll, AllExact, Tiling, Tail;
    clusters := CutAtStores(g);
    ghost var counted, tail := Counted(g), Tail(g, LastStart(g));
    CountedTiles(g);
    TailUnmerged(g);
    assert (counted + tail)[..|counted|] == counted;
    clusters := MergeNeighbours(g, clusters, counted + tail, |counted|);
  }

  lemma CountedTiles(g: Graph)
    requires GraphOk(g)
    ensures AllExact(g, Counted(g)) && Tiling(Counted(g), 0, LastStart(g))
  {
    CutIsTiling(g, Stores(g.ops, |g.ops|), |Stores(g.ops, |g.ops|)|);
  }

  lemma TailUnmerged(g: Graph)
    requires GraphOk(g)
    ensures var tail := Tail(g, LastStart(g));
            |tail| <= 1 && (tail != [] ==> tail[0].region == NONE) &&
            MergeAll(Counted(g) + tail) == MergeAll(Counted(g)) + tail
  {
    hide Counted, LastStart, Members;
    var tail := Tail(g, LastStart(g));
    if tail == [] {
      assert Counted(g) + tail == Counted(g) && MergeAll(Counted(g)) + tail == MergeAll(Counted(g));
    } else {
      assert (Counted(g) + tail)[..|Counted(g) + tail| - 1] == Counted(g);
    }
  }

  // ---- The guard at an input ----

  /** A store to the scratch region, a DRAM load, and a store to the same place. */
  function LoadBetweenStores(): Graph
  {
    Graph([MicroOp(DRAM_STORE, [0], [DRAM(0x500)], []), MicroOp(DRAM_LOAD, [1], [VRF(5, 0)], [DRAM(0x500)]),
           MicroOp(DRAM_STORE, [2], [DRAM(0x500)], [VRF(5, 0)])],
          [Edge(0, 1, DRAM(0x500)), Edge(1, 2, VRF(5, 0))], Shape(1, 8))
  }

  /** The connected DRAM read lies between the stores, yet both end in one cluster. */
  lemma LoadDoesNotSplit()
    ensures var g := LoadBetweenStores();
            GraphOk(g) && ReadAt(g, 1) && |Extracted(g)| == 1 &&
            Extracted(g)[0].members == [0, 1, 2] && Extracted(g)[0].region == SCRATCH
  {
    hide MergeAll, RangeCluster, Stores, Members, Connected, Cut, Total, Produced, StatsOf;
    var g := LoadBetweenStores();
    AllConnected();
    StoresAt();
    PlacesOf();
    var a, b := RangeCluster(g, 0, 0), RangeCluster(g, 1, 2);
    CutOf(g, [0, 2], a, b);
    MergeTwo(a, b);
    MembersOf();
    assert ReadAt(g, 1) by { assert g.ops[1].uses[0].DRAM?; }
  }

  lemma AllConnected()
    ensures forall i: nat :: i < 3 ==> Connected(LoadBetweenStores().edges, i)
  {
    var es := LoadBetweenStores().edges;
    assert es[0].src == 0 && es[0].dst == 1 && es[1].dst == 2;
  }

  lemma StoresAt()
    ensures Stores(LoadBetweenStores().ops, 3) == [0, 2]
  {
    var ops := LoadBetweenStores().ops;
    assert Stores(ops, 0) == [];
    assert Stores(ops, 1) == [0];
    assert Stores(ops, 2) == [0];
  }

  lemma MembersOf()
    ensures var es := LoadBetweenStores().edges;
            Members(es, 0, 1) == [0] && Members(es, 1, 3) == [1, 2] && Members(es, 3, 3) == []
  {
    hide Connected;
    AllConnected();
    var es := LoadBetweenStores().edges;
    assert Members(es, 0, 0) == [] && Members(es, 1, 1) == [];
    assert Members(es, 1, 2) == [1];
  }

  /** Both clusters produce scratch position 0. */
  lemma PlacesOf()
    ensures var g := LoadBetweenStores();
            RangeCluster(g, 0, 0).region == RangeCluster(g, 1, 2).region == SCRATCH &&
            RangeCluster(g, 0, 0).position == RangeCluster(g, 1, 2).position == 0 &&
            RangeCluster(g, 0, 0).members == [0] && RangeCluster(g, 1, 2).members == [1, 2]
  {
    hide Connected, Members, Total;
    var g := LoadBetweenStores();
    MembersOf();
    var place: (Region, int) := (SCRATCH, 0);
    assert Target([DRAM(0x500)], g.shape, NOWHERE) == Target([], g.shape, place);
    assert Within([0], 0, 3) && Within([1, 2], 0, 3) && Within([2], 0, 3) && Within([], 0, 3);
    assert [0][1..] == [] && [1, 2][1..] == [2] && [2][1..] == [];
    assert Produced(g, [0], NOWHERE) == Produced(g, [], place);
    assert Produced(g, [1, 2], NOWHERE) == Produced(g, [2], NOWHERE) == Produced(g, [], place);
  }

  lemma CutOf(g: Graph, stores: seq<nat>, a: Cluster, b: Cluster)
    requires GraphOk(g) && |stores| == 2 && Within(stores, 0, |g.ops|) && Increasing(stores)
    requires StartOf(stores, 0) <= stores[0] && StartOf(stores, 1) <= stores[1]
    requires a == RangeCluster(g, 0, stores[0]) && b == RangeCluster(g, stores[0] + 1, stores[1])
    ensures Cut(g, stores, 2) == [a, b]
  {
    hide RangeCluster;
    assert Cut(g, stores, 0) == [];
    assert Cut(g, stores, 1) == [a];
  }

  lemma MergeTwo(a: Cluster, b: Cluster)
    requires SameProducer(a, b)
    ensures MergeAll([a, b]) == [Merge(a, b)]
  {
    MergeNone();
    assert [a, b][..1] == [a] && [a][..0] == [];
    assert MergeAll([a]) == [a];
  }
}
