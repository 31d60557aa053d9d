/** What the collapsed trace keeps together: every product, binary and unary operation lies in one group with its
    operand loads and its stores, and the edges between groups leave from there. */
module Groupings {
  import opened D = Device
  import opened EventTrace
  import opened Dag
  import opened MicroOps
  import opened GroupShapes
  import opened MicroOpDag

  /** A whole trace cut into groups. */
  ghost predicate Cut(events: seq<Event>, ops: seq<MicroOp>, starts: seq<nat>, rows: seq<int>)
  {
    AllShaped(events) && Grouping(events, ops, starts, rows) && starts[|ops|] == |events|
  }

  /** Event k lies in group m. */
  predicate Inside(starts: seq<nat>, m: nat, k: nat)
  {
    m + 1 < |starts| && starts[m] <= k < starts[m + 1]
  }

  /** The group of an event, with its shape. */
  lemma FindGroup(events: seq<Event>, ops: seq<MicroOp>, starts: seq<nat>, rows: seq<int>, k: nat) returns (m: nat)
    requires Cut(events, ops, starts, rows) && k < |events|
    ensures m < |ops| && |starts| == |ops| + 1 && Inside(starts, m, k)
    ensures Shape(events, starts[m], starts[m + 1], ops[m].kind)
  {
    hide AllShaped, GroupAt, Shape;
    m := GroupOf(events, ops, starts, rows, k, |ops|);
    ShapeAt(events, ops, starts, rows, m);
  }

  // ---- Which groups an operation can lie in ----

  lemma ProductPlace(events: seq<Event>, lo: nat, hi: nat, kind: Kind, k: nat)
    requires Shape(events, lo, hi, kind) && lo <= k < hi && events[k].op.MV_MUL?
    ensures kind.K_MV_MUL? && Product(events, lo, k, hi)
  {
    match kind
    case K_MV_MUL => var j :| Product(events, lo, j, hi); OneProduct(events, lo, j, hi, k);
    case VV_BINOP => var j :| Binary(events, lo, j, hi); BinaryHolds(events, lo, j, hi, k);
    case V_UNARY =>
      if !events[lo].op.V_GELU? { var j :| Unary(events, lo, j, hi); UnaryHolds(events, lo, j, hi, k); }
      else if k > lo { AbsorbedHolds(events, lo, hi, IsMove, k); }
    case LAYERNORM => if k > lo { AbsorbedHolds(events, lo, hi, FollowsVFunc, k); }
    case SOFTMAX => if k > lo { AbsorbedHolds(events, lo, hi, FollowsVFunc, k); }
    case V_FUNC => if k > lo { AbsorbedHolds(events, lo, hi, FollowsVFunc, k); }
    case _ =>
  }

  lemma AbsorbedHolds(events: seq<Event>, lo: nat, hi: nat, test: OpName -> bool, k: nat)
    requires Absorbs(events, lo, hi, test) && lo < k < hi
    ensures test(events[k].op)
  {
  }

  lemma OneProduct(events: seq<Event>, lo: nat, j: nat, hi: nat, k: nat)
    requires Product(events, lo, j, hi) && lo <= k < hi
    ensures events[k].op.V_RD? || events[k].op.V_WR? || k == j
  {
    assert k < j ==> IsVRd(events[k].op);
    assert k > j ==> IsVWr(events[k].op);
  }

  lemma BinaryHolds(events: seq<Event>, lo: nat, j: nat, hi: nat, k: nat)
    requires Binary(events, lo, j, hi) && lo <= k < hi
    ensures IsLoad(events[k].op) || events[k].op.V_WR? || k == j
    ensures k < j ==> IsLoad(events[k].op)
  {
    assert k < j ==> IsLoad(events[k].op);
    assert k > j ==> IsVWr(events[k].op);
  }

  lemma UnaryHolds(events: seq<Event>, lo: nat, j: nat, hi: nat, k: nat)
    requires Unary(events, lo, j, hi) && lo <= k < hi
    ensures if k == lo then events[k].op.V_RD? else if k < j then IsUnary(events[k].op) else events[k].op.V_WR?
  {
    assert lo < k < j ==> IsUnary(events[k].op);
    assert k >= j ==> IsVWr(events[k].op);
  }

  /** A group that ends with a load: a vector function took it, or nothing begins with it. */
  lemma EndsWithLoad(events: seq<Event>, lo: nat, hi: nat, kind: Kind)
    requires Shape(events, lo, hi, kind) && events[hi - 1].op.V_RD?
    ensures FunctionGroup(events, lo, hi) || (hi == lo + 1 && Alone(events, lo))
  {
    match kind
    case K_MV_MUL => var j :| Product(events, lo, j, hi); LastOfProduct(events, lo, j, hi);
    case VV_BINOP =>
      var j :| Binary(events, lo, j, hi);
      BinaryHolds(events, lo, j, hi, hi - 1);
      LastOfBinary(events, lo, j, hi);
    case V_UNARY =>
      if !events[lo].op.V_GELU? { var j :| Unary(events, lo, j, hi); UnaryHolds(events, lo, j, hi, hi - 1); }
    case _ =>
  }

  lemma LastOfProduct(events: seq<Event>, lo: nat, j: nat, hi: nat)
    requires Product(events, lo, j, hi)
    ensures !events[hi - 1].op.V_RD?
  {
    assert hi - 1 > j ==> IsVWr(events[hi - 1].op);
  }

  lemma LastOfBinary(events: seq<Event>, lo: nat, j: nat, hi: nat)
    requires Binary(events, lo, j, hi)
    ensures !events[hi - 1].op.V_RD?
  {
    assert hi - 1 > j ==> IsVWr(events[hi - 1].op);
  }

  // ---- Products ----

  /** Every product lies in a product group: its operand loads are the whole of the group's front and its stores the
      whole of its back; a V_RD directly in front of the group is one that a vector function took. */
  lemma ProductsWhole(events: seq<Event>, ops: seq<MicroOp>, starts: seq<nat>, rows: seq<int>, k: nat) returns (m: nat)
    requires Cut(events, ops, starts, rows) && k < |events| && events[k].op.MV_MUL?
    ensures m < |ops| && |starts| == |ops| + 1 && Inside(starts, m, k)
    ensures ops[m].kind.K_MV_MUL? && Product(events, starts[m], k, starts[m + 1])
    ensures starts[m] > 0 && events[starts[m] - 1].op.V_RD? ==>
      m > 0 && starts[m - 1] < starts[m] && FunctionGroup(events, starts[m - 1], starts[m])
  {
    hide AllShaped, GroupAt, Shape, Product, FunctionGroup;
    m := FindGroup(events, ops, starts, rows, k);
    ProductPlace(events, starts[m], starts[m + 1], ops[m].kind, k);
    if starts[m] > 0 && events[starts[m] - 1].op.V_RD? {
      NotFirst(starts, m);
      ShapeAt(events, ops, starts, rows, m - 1);
      ShapeSpan(events, starts[m - 1], starts[m], ops[m - 1].kind);
      EndsWithLoad(events, starts[m - 1], starts[m], ops[m - 1].kind);
      if !FunctionGroup(events, starts[m - 1], starts[m]) {
        LoadBeforeProduct(events, starts[m - 1], k, starts[m + 1]);
      }
    }
  }

  lemma NotFirst(starts: seq<nat>, m: nat)
    requires m < |starts| && starts[0] == 0 && starts[m] > 0
    ensures m > 0
  {
  }

  lemma ShapeSpan(events: seq<Event>, lo: nat, hi: nat, kind: Kind)
    requires Shape(events, lo, hi, kind)
    ensures lo < hi <= |events|
  {
    hide Alone;
  }

  /** A load in front of a product would have begun its group. */
  lemma LoadBeforeProduct(events: seq<Event>, lo: nat, j: nat, hi: nat)
    requires lo < |events| && events[lo].op.V_RD? && Product(events, lo + 1, j, hi)
    ensures !Alone(events, lo)
  {
    assert Product(events, lo, j, hi);
  }

  // ---- Binary and unary operations ----

  lemma BinaryPlace(events: seq<Event>, lo: nat, hi: nat, kind: Kind, k: nat)
    requires Shape(events, lo, hi, kind) && lo <= k < hi && IsBinary(events[k].op)
    ensures (kind.VV_BINOP? && Binary(events, lo, k, hi)) || FunctionGroup(events, lo, hi) ||
      (k == lo && hi == lo + 1 && kind.Single?)
  {
    match kind
    case K_MV_MUL => var j :| Product(events, lo, j, hi); OneProduct(events, lo, j, hi, k);
    case VV_BINOP => var j :| Binary(events, lo, j, hi); BinaryHolds(events, lo, j, hi, k);
    case V_UNARY =>
      if !events[lo].op.V_GELU? { var j :| Unary(events, lo, j, hi); UnaryHolds(events, lo, j, hi, k); }
    case _ =>
  }

  /** A binary operation with a load directly in front and a store directly behind lies in one group with both, and
      with every further store, unless a vector function took the operation or the load. */
  lemma BinariesWhole(events: seq<Event>, ops: seq<MicroOp>, starts: seq<nat>, rows: seq<int>, k: nat) returns (m: nat)
    requires Cut(events, ops, starts, rows) && 0 < k < |events| && IsBinary(events[k].op)
    requires events[k - 1].op.V_RD? && At(events, k + 1, V_WR)
    ensures m < |ops| && |starts| == |ops| + 1 && Inside(starts, m, k)
    ensures (ops[m].kind.VV_BINOP? && Binary(events, starts[m], k, starts[m + 1])) ||
      FunctionGroup(events, starts[m], starts[m + 1]) ||
      (m > 0 && starts[m] == k && FunctionGroup(events, starts[m - 1], starts[m]))
  {
    hide AllShaped, GroupAt, Shape, Binary, FunctionGroup;
    m := FindGroup(events, ops, starts, rows, k);
    BinaryPlace(events, starts[m], starts[m + 1], ops[m].kind, k);
    if ops[m].kind.Single? && starts[m] == k {
      NotFirst(starts, m);
      ShapeAt(events, ops, starts, rows, m - 1);
      ShapeSpan(events, starts[m - 1], starts[m], ops[m - 1].kind);
      EndsWithLoad(events, starts[m - 1], starts[m], ops[m - 1].kind);
      if !FunctionGroup(events, starts[m - 1], starts[m]) { LoadBeforeBinary(events, k - 1); }
    }
  }

  lemma LoadBeforeBinary(events: seq<Event>, lo: nat)
    requires lo + 2 < |events| && events[lo].op.V_RD? && IsBinary(events[lo + 1].op) && events[lo + 2].op.V_WR?
    ensures !Alone(events, lo)
  {
    var hi := Skip(events, lo + 2, IsVWr);
    SkipRuns(events, lo + 2, IsVWr);
    assert Binary(events, lo, lo + 1, hi);
  }

  /** The group begins with the load directly in front of k and goes on to the last store behind the unary run. */
  ghost predicate UnaryGroup(events: seq<Event>, k: nat, lo: nat, hi: nat)
  {
    lo + 1 == k && exists j :: Unary(events, lo, j, hi)
  }

  /** A unary operation with a load directly in front and another one or a store behind lies in one group with the
      load, with all unary operations and all stores that follow, unless a vector function took the load. */
  lemma UnariesWhole(events: seq<Event>, ops: seq<MicroOp>, starts: seq<nat>, rows: seq<int>, k: nat) returns (m: nat)
    requires Cut(events, ops, starts, rows) && 0 < k && k + 1 < |events| && IsUnary(events[k].op)
    requires events[k - 1].op.V_RD? && (events[k + 1].op.V_WR? || IsUnary(events[k + 1].op))
    ensures m < |ops| && |starts| == |ops| + 1 && Inside(starts, m, k - 1)
    ensures (ops[m].kind.V_UNARY? && UnaryGroup(events, k, starts[m], starts[m + 1])) ||
      FunctionGroup(events, starts[m], starts[m + 1])
  {
    hide AllShaped, GroupAt, Shape, Unary, FunctionGroup;
    m := FindGroup(events, ops, starts, rows, k - 1);
    UnaryPlace(events, starts[m], starts[m + 1], ops[m].kind, k);
  }

  lemma UnaryPlace(events: seq<Event>, lo: nat, hi: nat, kind: Kind, k: nat)
    requires Shape(events, lo, hi, kind) && lo < k <= hi && k + 1 < |events| && IsUnary(events[k].op)
    requires events[k - 1].op.V_RD? && (events[k + 1].op.V_WR? || IsUnary(events[k + 1].op))
    ensures FunctionGroup(events, lo, hi) || (kind.V_UNARY? && UnaryGroup(events, k, lo, hi))
  {
    match kind
    case K_MV_MUL => var j :| Product(events, lo, j, hi); NotInProduct(events, lo, j, hi, k);
    case VV_BINOP => var j :| Binary(events, lo, j, hi); NotInBinary(events, lo, j, hi, k);
    case V_UNARY =>
      if !events[lo].op.V_GELU? { var j :| Unary(events, lo, j, hi); UnaryHolds(events, lo, j, hi, k - 1); }
    case Single(_) => LoadBeforeUnary(events, lo);
    case _ =>
  }

  lemma NotInProduct(events: seq<Event>, lo: nat, j: nat, hi: nat, k: nat)
    requires Product(events, lo, j, hi) && lo < k <= hi && k < |events| && events[k - 1].op.V_RD?
    ensures !IsUnary(events[k].op)
  {
    ProductFront(events, lo, j, hi, k - 1);
    assert k < j ==> IsVRd(events[k].op);
  }

  lemma NotInBinary(events: seq<Event>, lo: nat, j: nat, hi: nat, k: nat)
    requires Binary(events, lo, j, hi) && lo < k <= hi && k < |events| && events[k - 1].op.V_RD?
    ensures !IsUnary(events[k].op)
  {
    BinaryHolds(events, lo, j, hi, k - 1);
    assert k - 1 > j ==> IsVWr(events[k - 1].op);
    assert k < j ==> IsLoad(events[k].op);
  }

  lemma ProductFront(events: seq<Event>, lo: nat, j: nat, hi: nat, k: nat)
    requires Product(events, lo, j, hi) && lo <= k < hi && events[k].op.V_RD?
    ensures k < j
  {
    assert k > j ==> IsVWr(events[k].op);
  }

  lemma LoadBeforeUnary(events: seq<Event>, lo: nat)
    requires lo + 2 < |events| && events[lo].op.V_RD? && IsUnary(events[lo + 1].op)
    requires events[lo + 2].op.V_WR? || IsUnary(events[lo + 2].op)
    ensures !Alone(events, lo)
  {
    var j := Skip(events, lo + 1, IsUnary);
    SkipRuns(events, lo + 1, IsUnary);
    var hi := Skip(events, j, IsVWr);
    SkipRuns(events, j, IsVWr);
    assert Unary(events, lo, j, hi);
  }

  // ---- Edges leave from the operation's group ----

  /** A later use of what a store directly behind a product defined is an edge from the product's group. */
  lemma ProductFeeds(events: seq<Event>, ops: seq<MicroOp>, starts: seq<nat>, rows: seq<int>, k: nat, s: nat, u: nat,
                     r: Resource)
    returns (a: nat, b: nat)
    requires Cut(events, ops, starts, rows) && k < s < |events| && events[k].op.MV_MUL?
    requires Run(events, k + 1, s + 1, IsVWr)
    requires IsEdge(events, Edge(s, u, r)) && Tracked(r)
    ensures a < b < |ops| && |starts| == |ops| + 1 && Inside(starts, a, k) && Inside(starts, b, u)
    ensures ops[a].kind.K_MV_MUL? && IsEdge(AsEvents(ops), Edge(a, b, r))
  {
    hide AllShaped, GroupAt, Shape, Product;
    a := ProductsWhole(events, ops, starts, rows, k);
    b := FindGroup(events, ops, starts, rows, u);
    BackOfProduct(events, starts[a], k, starts[a + 1], s, u, r);
    if b <= a { StartsIncrease(events, ops, starts, rows, b + 1, a + 1); }
    GroupSpan(events, ops, starts, rows, a);
    GroupSpan(events, ops, starts, rows, b);
    InRange(starts[a], starts[a + 1], s);
    InRange(starts[b], starts[b + 1], u);
    NoDependencyLost(events, ops, starts, rows, Edge(s, u, r), a, b);
  }

  lemma InRange(lo: nat, hi: nat, k: nat)
    requires lo <= k < hi
    ensures k in Range(lo, hi)
  {
    assert Range(lo, hi)[k - lo] == k;
  }

  /** The store is in the product's group and the use behind it. */
  lemma BackOfProduct(events: seq<Event>, lo: nat, k: nat, hi: nat, s: nat, u: nat, r: Resource)
    requires AllShaped(events) && Product(events, lo, k, hi) && k < s && Run(events, k + 1, s + 1, IsVWr)
    requires IsEdge(events, Edge(s, u, r)) && Tracked(r)
    ensures s < hi <= u
  {
    assert Reaches(events, s, u, r) && r in events[u].uses;
    RunEnds(events, k + 1, s + 1, IsVWr, hi);
    if u < hi { StoreUses(events, u, r); ProductBack(events, lo, k, hi, u); }
  }

  /** A run does not go past a stop. */
  lemma RunEnds(events: seq<Event>, lo: nat, hi: nat, test: OpName -> bool, k: nat)
    requires Run(events, lo, hi, test) && lo <= k && Stops(events, k, test)
    ensures hi <= k
  {
  }

  lemma ProductBack(events: seq<Event>, lo: nat, j: nat, hi: nat, k: nat)
    requires Product(events, lo, j, hi) && j < k < hi
    ensures events[k].op.V_WR?
  {
    assert IsVWr(events[k].op);
  }

  /** A store uses the pipeline alone. */
  lemma StoreUses(events: seq<Event>, u: nat, r: Resource)
    requires AllShaped(events) && u < |events| && r in events[u].uses && Tracked(r)
    ensures !events[u].op.V_WR?
  {
    assert ShapedUses(events[u]);
  }

  // ---- The pipeline between groups ----

  ghost predicate PipeDefined(events: seq<Event>, lo: nat, hi: nat)
  {
    exists k :: lo <= k < hi && k < |events| && Pipe in events[k].defs
  }

  ghost predicate PipeUsed(events: seq<Event>, lo: nat, hi: nat)
  {
    exists k :: lo <= k < hi && k < |events| && Pipe in events[k].uses
  }

  /** Which single instructions define the pipeline, and which use it. */
  predicate PipeKnown(e: Event)
  {
    (IsLoad(e.op) ==> Pipe in e.defs && Pipe !in e.uses) &&
    (e.op.MV_MUL? || IsUnary(e.op) || e.op.V_FUNC_SOFTMAX? || e.op.V_FUNC_LAYERNORM? ==>
      Pipe in e.defs && Pipe in e.uses) &&
    (e.op.V_WR? || e.op.V_WR_DRAM? ==> Pipe in e.uses && Pipe !in e.defs) &&
    (e.op.M_RD? ==> Pipe !in e.uses && (Pipe in e.defs <==> MRF !in e.defs)) &&
    (e.op.M_RD_DRAM? || e.op.M_WR? || e.op.S_WR? ==> Pipe !in e.defs && Pipe !in e.uses)
  }

  lemma PipeOfEvent(events: seq<Event>, k: nat)
    requires Traced(events) && k < |events|
    ensures PipeKnown(events[k])
  {
    hide IsReduce, IsSpuFunc;
    assert FromCall(events[k], k);
    var x :| events[k] == EventOf(k, events[k].raw, x);
  }

  /** Groups that touch the pipeline without being counted: a store to DRAM that loads first, a vector function of
      another kind, and most single instructions. */
  predicate PipeIgnored(kind: Kind)
  {
    kind.V_FUNC? || (kind.Single? && kind != Single(M_RD))
  }

  /** A kind whose groups define the pipeline does so at its first event, or at its product or function. */
  lemma PipeAtStart(events: seq<Event>, lo: nat, hi: nat, kind: Kind)
    requires Traced(events) && Shape(events, lo, hi, kind)
    ensures IsLoad(events[lo].op) || events[lo].op.MV_MUL? || IsUnary(events[lo].op) || kind.SOFTMAX? || kind.LAYERNORM?
      ==> PipeDefined(events, lo, hi)
  {
    hide Shape, Traced;
    ShapeSpan(events, lo, hi, kind);
    FunctionNames(events, lo, hi, kind);
    PipeOfEvent(events, lo);
  }

  lemma FunctionNames(events: seq<Event>, lo: nat, hi: nat, kind: Kind)
    requires Shape(events, lo, hi, kind)
    ensures kind.SOFTMAX? <==> events[lo].op.V_FUNC_SOFTMAX?
    ensures kind.LAYERNORM? <==> events[lo].op.V_FUNC_LAYERNORM?
    ensures kind.K_MV_MUL? ==> events[lo].op.V_RD? || events[lo].op.MV_MUL?
    ensures kind.VV_BINOP? ==> events[lo].op.V_RD?
    ensures kind.V_UNARY? ==> events[lo].op.V_RD? || events[lo].op.V_GELU?
  {
    hide Stops;
    if kind.K_MV_MUL? {
      var j :| Product(events, lo, j, hi);
      OneProduct(events, lo, j, hi, lo);
      assert lo < j ==> IsVRd(events[lo].op);
    }
  }

  /** Exactly which groups the pipeline pass takes for producers: those that define the pipeline, but for the ignored
      ones and stores to DRAM; and bank stores and row-buffer reads, which define none. */
  lemma ProducersExactly(events: seq<Event>, lo: nat, hi: nat, kind: Kind)
    requires Traced(events) && AllShaped(events) && Shape(events, lo, hi, kind)
    ensures Produces(kind) <==>
      (PipeDefined(events, lo, hi) && !kind.DRAM_STORE? && !PipeIgnored(kind)) || kind.K_V_WR? || kind.K_M_RD?
  {
    PipeAtStart(events, lo, hi, kind);
    FunctionNames(events, lo, hi, kind);
    PipeOfEvent(events, lo);
    if kind.MAT_LOAD? || kind.M_ACC? { PipeOfEvent(events, lo + 1); }
    if kind.M_ACC? { NoAccumulation(events, lo); }
    hide Traced, AllShaped, Run, Stops, IsUnary, FollowsVFunc;
  }

  /** Exactly which groups it takes for consumers: those that use the pipeline, but for the ignored ones and loads; and
      matrix reads and binary groups, also when these use none. */
  lemma ConsumersExactly(events: seq<Event>, lo: nat, hi: nat, kind: Kind)
    requires Traced(events) && AllShaped(events) && Shape(events, lo, hi, kind)
    ensures Consumes(kind) <==>
      (PipeUsed(events, lo, hi) && !kind.DRAM_LOAD? && !kind.VREG_LD? && !PipeIgnored(kind)) || kind.K_M_RD? ||
      kind == Single(M_RD) || kind.VV_BINOP?
  {
    if kind.K_MV_MUL? || kind.V_UNARY? { ComputeUsesPipe(events, lo, hi, kind); }
    else if kind.DRAM_STORE? || kind.VREG_MOVE? || kind.K_V_WR? { StoreUsesPipe(events, lo, hi, kind); }
    else if kind.MAT_LOAD? || kind.M_ACC? || kind.K_S_WR? { IdlePipe(events, lo, hi, kind); }
    else if kind.SOFTMAX? || kind.LAYERNORM? { PipeOfEvent(events, lo); }
  }

  lemma StoreUsesPipe(events: seq<Event>, lo: nat, hi: nat, kind: Kind)
    requires Traced(events) && Shape(events, lo, hi, kind) && (kind.DRAM_STORE? || kind.VREG_MOVE? || kind.K_V_WR?)
    ensures PipeUsed(events, lo, hi)
  {
    PipeOfEvent(events, lo);
    if lo + 1 < hi { PipeOfEvent(events, lo + 1); }
    hide Traced;
  }

  lemma IdlePipe(events: seq<Event>, lo: nat, hi: nat, kind: Kind)
    requires Traced(events) && AllShaped(events) && Shape(events, lo, hi, kind)
    requires kind.MAT_LOAD? || kind.M_ACC? || kind.K_S_WR?
    ensures !PipeUsed(events, lo, hi)
  {
    PipeOfEvent(events, lo);
    if lo + 1 < hi { PipeOfEvent(events, lo + 1); }
    if kind.M_ACC? { NoAccumulation(events, lo); }
    hide Traced, AllShaped;
  }

  lemma ComputeUsesPipe(events: seq<Event>, lo: nat, hi: nat, kind: Kind)
    requires Traced(events) && Shape(events, lo, hi, kind) && (kind.K_MV_MUL? || kind.V_UNARY?)
    ensures PipeUsed(events, lo, hi)
  {
    if kind.K_MV_MUL? {
      var j :| Product(events, lo, j, hi);
      PipeOfEvent(events, j);
    } else if events[lo].op.V_GELU? {
      PipeOfEvent(events, lo);
    } else {
      var j :| Unary(events, lo, j, hi);
      UnaryHolds(events, lo, j, hi, lo + 1);
      PipeOfEvent(events, lo + 1);
    }
  }
}
