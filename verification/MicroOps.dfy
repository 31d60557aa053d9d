/** Collapsing a flat trace into micro-operations: the peephole patterns, in the order they are tried. */
module MicroOps {
  import opened D = Device
  import opened EventTrace

  datatype Kind =
    | DRAM_LOAD | MAT_LOAD | DRAM_STORE | VREG_LD | VREG_MOVE | M_ACC | K_MV_MUL | VV_BINOP | V_UNARY
    | LAYERNORM | SOFTMAX | V_FUNC | K_V_WR | K_M_RD | K_S_WR | Single(op: OpName)

  datatype MicroOp = MicroOp(kind: Kind, indices: seq<nat>, defs: seq<Resource>, uses: seq<Resource>)

  /** A matched group: the micro-op, the index after it, and the matrix row counter after it. */
  datatype Grouped = Grouped(op: MicroOp, next: nat, row: int)

  function Range(lo: nat, hi: nat): (r: seq<nat>)
    requires lo <= hi
    ensures |r| == hi - lo && forall k :: 0 <= k < hi - lo ==> r[k] == lo + k
  {
    seq(hi - lo, k requires 0 <= k < hi - lo => lo + k)
  }

  predicate IsPipe(r: Resource)
  {
    r == Pipe || r == VpipeA
  }

  function NonPipe(rs: seq<Resource>): (out: seq<Resource>)
    ensures forall r :: r in out <==> r in rs && !IsPipe(r)
  {
    if rs == [] then [] else (if IsPipe(rs[0]) then [] else [rs[0]]) + NonPipe(rs[1..])
  }

  function DramOnly(rs: seq<Resource>): (out: seq<Resource>)
    ensures forall r :: r in out <==> r in rs && r.DRAM?
  {
    if rs == [] then [] else (if rs[0].DRAM? then [rs[0]] else []) + DramOnly(rs[1..])
  }

  predicate IsBinary(op: OpName)
  {
    op.VV_ADD? || op.VV_A_SUB_B? || op.VV_B_SUB_A? || op.VV_MUL? || op.VV_MIN? || op.VV_MAX? ||
    op.VV_ADD_INC? || op.VV_MAX_INC? || op.VV_MUL_INC? || op.VV_A_SUB_B_INC? || op.VV_B_SUB_A_INC?
  }

  predicate IsUnary(op: OpName)
  {
    op.V_SIGM? || op.V_TANH? || op.V_RELU? || op.V_GELU? || op.V_EXP?
  }

  /** Names that start with "V_RD". */
  predicate StartsWithVRd(op: OpName)
  {
    op.V_RD? || op.V_RD_DRAM? || op.V_RD_INC? || op.V_RD_DRAM_INC? || op.V_RD_3D?
  }

  predicate IsVFunc(op: OpName)
  {
    op.V_FUNC_SOFTMAX? || op.V_FUNC_LAYERNORM? || op.V_FUNC_OTHER?
  }

  /** What a V_FUNC group absorbs. */
  predicate FollowsVFunc(op: OpName)
  {
    op.V_RD? || op.V_WR? || op.V_GELU? || op.V_SIGM? || op.V_TANH? || op.V_RELU? || op.V_EXP? ||
    op.V_FUNC_SOFTMAX? || op.V_FUNC_LAYERNORM? || op.VV_ADD? || op.VV_MUL? || op.S_WR? || op.S_RD?
  }

  /** The name classes by opcode. */
  lemma OperationsByCode(op: OpName)
    requires !op.UNKNOWN?
    ensures IsBinary(op) <==> CodeOf(op) in {8, 9, 10, 11, 15, 18, 19, 30, 31, 32, 33}
    ensures IsUnary(op) <==> CodeOf(op) in {12, 13, 14, 37, 42}
  {
  }

  lemma ClassesByCode(op: OpName)
    requires !op.UNKNOWN?
    ensures StartsWithVRd(op) <==> CodeOf(op) in {2, 16, 20, 22, 26}
    ensures IsVFunc(op) <==> CodeOf(op) == 43
    ensures FollowsVFunc(op) <==>
      CodeOf(op) in {0, 1, 2, 5, 8, 11, 12, 13, 14, 37, 42} || (CodeOf(op) == 43 && !op.V_FUNC_OTHER?)
  {
  }

  /** The device's classes are the collapser's: what it runs as a binary operation has a binary name and repeats
      nothing, what it runs as an activation has a unary one. */
  lemma ClassesAgree(op: nat, opd0: nat)
    ensures IsVV(op) <==> IsBinary(OpcodeName(op, opd0)) && Repeats(OpcodeName(op, opd0)).None?
    ensures IsActivation(op) <==> IsUnary(OpcodeName(op, opd0))
  {
  }

  predicate IsVRd(op: OpName) { op.V_RD? }

  predicate IsVWr(op: OpName) { op.V_WR? }

  predicate IsLoad(op: OpName) { op.V_RD? || op.V_RD_DRAM? }

  predicate IsMove(op: OpName) { op.V_WR? || op.V_RD? }

  /** The operation at index j, if there is one. */
  predicate At(events: seq<Event>, j: nat, op: OpName)
  {
    j < |events| && events[j].op == op
  }

  /** First index from j on whose operation fails the test, or the end. */
  function Skip(events: seq<Event>, j: nat, test: OpName -> bool): (k: nat)
    requires j <= |events|
    ensures j <= k <= |events|
    ensures forall m :: j <= m < k ==> test(events[m].op)
    ensures k < |events| ==> !test(events[k].op)
    decreases |events| - j
  {
    if j < |events| && test(events[j].op) then Skip(events, j + 1, test) else j
  }

  /** Non-pipe uses of the loads in a range. */
  function LoadUses(events: seq<Event>, lo: nat, hi: nat): (out: seq<Resource>)
    requires lo <= hi <= |events|
    ensures forall r :: r in out <==>
            exists k :: lo <= k < hi && StartsWithVRd(events[k].op) && r in events[k].uses && !IsPipe(r)
    decreases hi - lo
  {
    if lo == hi then []
    else LoadUses(events, lo, hi - 1) + (if StartsWithVRd(events[hi - 1].op) then NonPipe(events[hi - 1].uses) else [])
  }

  /** Non-pipe definitions of the stores in a range. */
  function StoreDefs(events: seq<Event>, lo: nat, hi: nat): (out: seq<Resource>)
    requires lo <= hi <= |events|
    ensures forall r :: r in out <==>
            exists k :: lo <= k < hi && events[k].op.V_WR? && r in events[k].defs && !IsPipe(r)
    decreases hi - lo
  {
    if lo == hi then []
    else StoreDefs(events, lo, hi - 1) + (if events[hi - 1].op.V_WR? then NonPipe(events[hi - 1].defs) else [])
  }

  function AllUses(events: seq<Event>, lo: nat, hi: nat): (out: seq<Resource>)
    requires lo <= hi <= |events|
    ensures forall r :: r in out <==> exists k :: lo <= k < hi && r in events[k].uses && !IsPipe(r)
    decreases hi - lo
  {
    if lo == hi then [] else AllUses(events, lo, hi - 1) + NonPipe(events[hi - 1].uses)
  }

  function AllDefs(events: seq<Event>, lo: nat, hi: nat): (out: seq<Resource>)
    requires lo <= hi <= |events|
    ensures forall r :: r in out <==> exists k :: lo <= k < hi && r in events[k].defs && !IsPipe(r)
    decreases hi - lo
  {
    if lo == hi then [] else AllDefs(events, lo, hi - 1) + NonPipe(events[hi - 1].defs)
  }

  // ---- The patterns ----

  function DramPatterns(events: seq<Event>, i: nat, row: int): Option<Grouped>
    requires i < |events|
  {
    var ev := events[i];
    if ev.op.V_RD_DRAM? && At(events, i + 1, V_WR) then
      Some(Grouped(MicroOp(DRAM_LOAD, [i, i + 1], NonPipe(events[i + 1].defs), DramOnly(ev.uses)), i + 2, row))
    else if ev.op.M_RD_DRAM? && At(events, i + 1, M_WR) then
      Some(Grouped(MicroOp(MAT_LOAD, [i, i + 1], [MRFRow(row + 1)], DramOnly(ev.uses)), i + 2, row + 1))
    else if ev.op.V_WR_DRAM? then
      Some(Grouped(MicroOp(DRAM_STORE, [i], DramOnly(ev.defs), []), i + 1, row))
    else if ev.op.V_RD? && At(events, i + 1, V_WR_DRAM) then
      Some(Grouped(MicroOp(DRAM_STORE, [i, i + 1], DramOnly(events[i + 1].defs), NonPipe(ev.uses)), i + 2, row))
    else if ev.op.V_RD_DRAM? then
      Some(Grouped(MicroOp(DRAM_LOAD, [i], [], DramOnly(ev.uses)), i + 1, row))
    else None
  }

  function RegisterPatterns(events: seq<Event>, i: nat, row: int): Option<Grouped>
    requires i < |events|
  {
    var ev := events[i];
    if ev.op.V_RD? && ev.uses == [] && At(events, i + 1, V_WR) && At(events, i + 2, V_WR) then
      Some(Grouped(MicroOp(VREG_LD, [i, i + 1, i + 2], NonPipe(events[i + 1].defs) + NonPipe(events[i + 2].defs), []),
                   i + 3, row))
    else if ev.op.V_RD? && ev.uses == [] && At(events, i + 1, V_WR) then
      Some(Grouped(MicroOp(VREG_LD, [i, i + 1], NonPipe(events[i + 1].defs), []), i + 2, row))
    else if ev.op.V_RD? && ev.uses != [] && ev.uses[0].SRF? && At(events, i + 1, V_WR) then
      Some(Grouped(MicroOp(VREG_LD, [i, i + 1], NonPipe(events[i + 1].defs), ev.uses), i + 2, row))
    else if ev.op.M_RD? && At(events, i + 1, M_WR) &&
            exists r :: r in events[i + 1].defs && r.VRF? && r.bank == MEM_VEC_TO_MAT_ROW then
      Some(Grouped(MicroOp(M_ACC, [i, i + 1], [MRFRow(row)], []), i + 2, row))
    else None
  }

  function MatrixPattern(events: seq<Event>, i: nat, row: int): Option<Grouped>
    requires i < |events|
  {
    var ev := events[i];
    var j := if ev.op.V_RD? then Skip(events, i + 1, IsVRd) else i;
    if (ev.op.V_RD? || ev.op.MV_MUL?) && At(events, j, MV_MUL) then
      var k := Skip(events, j + 1, IsVWr);
      Some(Grouped(MicroOp(K_MV_MUL, Range(i, k), StoreDefs(events, i, k),
        LoadUses(events, i, k) + (if row >= 0 then [MRFRow(row)] else [])), k, row))
    else None
  }

  function BinaryPattern(events: seq<Event>, i: nat, row: int): Option<Grouped>
    requires i < |events|
  {
    var ev := events[i];
    if (ev.op.V_RD? || ev.op.V_RD_DRAM?) && i + 2 < |events| then
      var j := Skip(events, i + 1, IsLoad);
      if j < |events| && IsBinary(events[j].op) then
        var k := Skip(events, j + 1, IsVWr);
        if k > i + 2 then
          Some(Grouped(MicroOp(VV_BINOP, Range(i, k), StoreDefs(events, i, k), LoadUses(events, i, k)), k, row))
        else None
      else None
    else None
  }

  function UnaryPattern(events: seq<Event>, i: nat, row: int): Option<Grouped>
    requires i < |events|
  {
    var ev := events[i];
    if ev.op.V_RD? && i + 2 < |events| then
      var j := Skip(events, i + 1, IsUnary);
      if j > i + 1 then
        var k := Skip(events, j, IsVWr);
        if k > i + 2 then
          Some(Grouped(MicroOp(V_UNARY, Range(i, k), StoreDefs(events, i, k), LoadUses(events, i, k)), k, row))
        else None
      else None
    else None
  }

  function FunctionPatterns(events: seq<Event>, i: nat, row: int): Option<Grouped>
    requires i < |events|
  {
    var ev := events[i];
    if IsVFunc(ev.op) then
      var k := Skip(events, i + 1, FollowsVFunc);
      var kind := if ev.op.V_FUNC_LAYERNORM? then LAYERNORM else if ev.op.V_FUNC_SOFTMAX? then SOFTMAX else V_FUNC;
      Some(Grouped(MicroOp(kind, Range(i, k), AllDefs(events, i, k), AllUses(events, i, k)), k, row))
    else if ev.op.V_GELU? then
      var k := Skip(events, i + 1, IsMove);
      Some(Grouped(MicroOp(V_UNARY, Range(i, k), AllDefs(events, i, k), AllUses(events, i, k)), k, row))
    else None
  }

  function SingleInstruction(events: seq<Event>, i: nat, row: int): Grouped
    requires i < |events|
  {
    var ev := events[i];
    if ev.op.V_RD? && At(events, i + 1, V_WR) then
      Grouped(MicroOp(VREG_MOVE, [i, i + 1], NonPipe(events[i + 1].defs), NonPipe(ev.uses)), i + 2, row)
    else if ev.op.V_WR? then
      Grouped(MicroOp(K_V_WR, [i], NonPipe(ev.defs), []), i + 1, row)
    else if ev.op.M_RD? && MRF in ev.defs then
      Grouped(MicroOp(K_M_RD, [i], [MRFRow(row + 1)], [VRF(MEM_VEC_TO_MAT_ROW, 0)]), i + 1, row + 1)
    else if ev.op.S_WR? then
      Grouped(MicroOp(K_S_WR, [i], NonPipe(ev.defs), []), i + 1, row)
    else
      Grouped(MicroOp(Single(ev.op), [i], NonPipe(ev.defs), NonPipe(ev.uses)), i + 1, row)
  }

  function OrElse(a: Option<Grouped>, b: Option<Grouped>): Option<Grouped>
  {
    if a.Some? then a else b
  }

  /** The group that starts at event i: the first pattern that matches. */
  function Group(events: seq<Event>, i: nat, row: int): Grouped
    requires i < |events|
  {
    var g := OrElse(DramPatterns(events, i, row), OrElse(RegisterPatterns(events, i, row),
             OrElse(MatrixPattern(events, i, row), OrElse(BinaryPattern(events, i, row),
             OrElse(UnaryPattern(events, i, row), FunctionPatterns(events, i, row))))));
    if g.Some? then g.value else SingleInstruction(events, i, row)
  }

  // ---- What a group covers, in a trace the tracer made ----

  /** Resources the micro-op edges carry under their own names. */
  predicate Tracked(r: Resource)
  {
    !IsPipe(r) && !r.MRF? && !r.MRFRow?
  }

  ghost predicate Defined(events: seq<Event>, lo: nat, hi: nat, r: Resource)
  {
    exists k :: lo <= k < hi && k < |events| && r in events[k].defs
  }

  ghost predicate Used(events: seq<Event>, lo: nat, hi: nat, r: Resource)
  {
    exists k :: lo <= k < hi && k < |events| && r in events[k].uses
  }

  /** A group spans consecutive events, defines exactly what they define and uses at least what
      they use; only a row-buffer read adds a use of its own. */
  ghost predicate Covers(events: seq<Event>, i: nat, g: Grouped)
  {
    i < g.next <= |events| && g.op.indices == Range(i, g.next) &&
    (forall r :: Tracked(r) ==> (r in g.op.defs <==> Defined(events, i, g.next, r))) &&
    (forall r :: Tracked(r) && Used(events, i, g.next, r) ==> r in g.op.uses) &&
    (forall r :: Tracked(r) && r in g.op.uses ==>
      Used(events, i, g.next, r) || (g.op.kind.K_M_RD? && r == VRF(MEM_VEC_TO_MAT_ROW, 0)))
  }

  /** Which resources an event of a given name can define. */
  ghost predicate ShapedDefs(e: Event)
  {
    (StartsWithVRd(e.op) ==> forall r :: r in e.defs ==> IsPipe(r)) &&
    (e.op.M_RD_DRAM? ==> e.defs == [MRF]) &&
    (e.op.M_WR? ==> e.defs == []) &&
    (e.op.V_WR_DRAM? ==> forall r :: r in e.defs ==> r.DRAM?) &&
    (e.op.MV_MUL? || IsBinary(e.op) || IsUnary(e.op) ==> forall r :: r in e.defs ==> IsPipe(r)) &&
    (MRF in e.defs ==> e.defs == [MRF] && (e.op.M_RD? || e.op.M_RD_DRAM?)) &&
    (forall r :: r in e.defs ==> !r.MRFRow?)
  }

  /** Which resources an event of a given name can use. */
  ghost predicate ShapedUses(e: Event)
  {
    (e.op.V_RD_DRAM? || e.op.M_RD_DRAM? ==> forall r :: r in e.uses ==> r.DRAM?) &&
    (e.op.V_WR? || e.op.V_WR_DRAM? || IsBinary(e.op) || IsUnary(e.op) ==> forall r :: r in e.uses ==> IsPipe(r)) &&
    (e.op.M_WR? ==> e.uses == [MRF]) &&
    (e.op.MV_MUL? ==> MRF in e.uses && forall r :: r in e.uses ==> IsPipe(r) || r == MRF) &&
    (e.op.M_RD? || e.op.S_WR? ==> e.uses == []) &&
    (forall r :: r in e.uses ==> !r.MRFRow?)
  }

  ghost predicate AllShaped(events: seq<Event>)
  {
    forall i :: 0 <= i < |events| ==> ShapedDefs(events[i]) && ShapedUses(events[i])
  }

  lemma TracedDefs(e: Event, i: nat)
    requires FromCall(e, i)
    ensures ShapedDefs(e)
  {
    var x :| e == EventOf(i, e.raw, x);
    hide Uses;
  }

  lemma TracedUses(e: Event, i: nat)
    requires FromCall(e, i)
    ensures ShapedUses(e)
  {
    var x :| e == EventOf(i, e.raw, x);
    hide Defs;
  }

  lemma TracedIsShaped(events: seq<Event>)
    requires Traced(events)
    ensures AllShaped(events)
  {
    forall i | 0 <= i < |events| ensures ShapedDefs(events[i]) && ShapedUses(events[i]) {
      TracedDefs(events[i], i);
      TracedUses(events[i], i);
    }
  }

  lemma PairRange(i: nat)
    ensures Range(i, i + 1) == [i] && Range(i, i + 2) == [i, i + 1] && Range(i, i + 3) == [i, i + 1, i + 2]
  {
  }

  /** What a short group defines and uses, spelled out. */
  lemma ShortSpan(events: seq<Event>, i: nat)
    requires i < |events|
    ensures forall r :: Defined(events, i, i + 1, r) <==> r in events[i].defs
    ensures forall r :: Used(events, i, i + 1, r) <==> r in events[i].uses
    ensures i + 1 < |events| ==> forall r :: Defined(events, i, i + 2, r) <==>
            r in events[i].defs || r in events[i + 1].defs
    ensures i + 1 < |events| ==> forall r :: Used(events, i, i + 2, r) <==>
            r in events[i].uses || r in events[i + 1].uses
    ensures i + 2 < |events| ==> forall r ::
      Defined(events, i, i + 3, r) <==> r in events[i].defs || r in events[i + 1].defs || r in events[i + 2].defs
    ensures i + 2 < |events| ==> forall r ::
      Used(events, i, i + 3, r) <==> r in events[i].uses || r in events[i + 1].uses || r in events[i + 2].uses
  {
  }

  ghost predicate Shaped(events: seq<Event>, i: nat)
  {
    i < |events| ==> ShapedDefs(events[i]) && ShapedUses(events[i])
  }

  lemma ShapedNear(events: seq<Event>, i: nat)
    requires AllShaped(events)
    ensures Shaped(events, i) && Shaped(events, i + 1) && Shaped(events, i + 2)
  {
  }

  lemma DramLoadCovers(events: seq<Event>, i: nat, row: int)
    requires AllShaped(events) && i < |events| && events[i].op.V_RD_DRAM?
    requires DramPatterns(events, i, row).Some?
    ensures Covers(events, i, DramPatterns(events, i, row).value)
  {
    PairRange(i);
    ShortSpan(events, i);
    ShapedNear(events, i);
    hide Defined, Used, AllShaped, Range;
  }

  lemma DramStoreCovers(events: seq<Event>, i: nat, row: int)
    requires AllShaped(events) && i < |events| && !events[i].op.V_RD_DRAM?
    requires DramPatterns(events, i, row).Some?
    ensures Covers(events, i, DramPatterns(events, i, row).value)
  {
    PairRange(i);
    ShortSpan(events, i);
    ShapedNear(events, i);
    hide Defined, Used, AllShaped, Range;
  }

  lemma DramCovers(events: seq<Event>, i: nat, row: int)
    requires AllShaped(events) && i < |events| && DramPatterns(events, i, row).Some?
    ensures Covers(events, i, DramPatterns(events, i, row).value)
  {
    hide *;
    if events[i].op.V_RD_DRAM? { DramLoadCovers(events, i, row); } else { DramStoreCovers(events, i, row); }
  }

  lemma RegisterCovers(events: seq<Event>, i: nat, row: int)
    requires AllShaped(events) && i < |events| && RegisterPatterns(events, i, row).Some?
    ensures Covers(events, i, RegisterPatterns(events, i, row).value)
  {
    PairRange(i);
    ShortSpan(events, i);
    ShapedNear(events, i);
    hide Defined, Used, AllShaped, Range;
  }

  lemma SingleCovers(events: seq<Event>, i: nat, row: int)
    requires AllShaped(events) && i < |events|
    ensures Covers(events, i, SingleInstruction(events, i, row))
  {
    PairRange(i);
    ShortSpan(events, i);
    ShapedNear(events, i);
    hide Defined, Used, AllShaped, Range;
  }

  /** Groups of loads, one computation and stores: the loads' uses and the stores' definitions are all there is. */
  lemma ComputeSpan(events: seq<Event>, i: nat, k: nat, g: Grouped)
    requires AllShaped(events) && i < k <= |events| && g.next == k && g.op.indices == Range(i, k) && !g.op.kind.K_M_RD?
    requires forall m :: i <= m < k ==>
      IsLoad(events[m].op) || events[m].op.MV_MUL? || IsBinary(events[m].op) || IsUnary(events[m].op) ||
      events[m].op.V_WR?
    requires g.op.defs == StoreDefs(events, i, k)
    requires g.op.uses == LoadUses(events, i, k) || (exists row :: g.op.uses == LoadUses(events, i, k) + [MRFRow(row)])
    ensures Covers(events, i, g)
  {
  }

  lemma MatrixCovers(events: seq<Event>, i: nat, row: int)
    requires AllShaped(events) && i < |events| && MatrixPattern(events, i, row).Some?
    ensures Covers(events, i, MatrixPattern(events, i, row).value)
  {
    hide AllShaped, Covers, LoadUses, StoreDefs;
    var g := MatrixPattern(events, i, row).value;
    var j := if events[i].op.V_RD? then Skip(events, i + 1, IsVRd) else i;
    forall m | i <= m < g.next ensures IsLoad(events[m].op) || events[m].op.MV_MUL? || events[m].op.V_WR? {
      if m > i && m < j { assert IsVRd(events[m].op); }
      if m > j { assert IsVWr(events[m].op); }
    }
    assert LoadUses(events, i, g.next) + [] == LoadUses(events, i, g.next);
    ComputeSpan(events, i, g.next, g);
  }

  lemma BinaryCovers(events: seq<Event>, i: nat, row: int)
    requires AllShaped(events) && i < |events| && BinaryPattern(events, i, row).Some?
    ensures Covers(events, i, BinaryPattern(events, i, row).value)
  {
    var g := BinaryPattern(events, i, row).value;
    var j := Skip(events, i + 1, IsLoad);
    forall m | i <= m < g.next ensures IsLoad(events[m].op) || IsBinary(events[m].op) || events[m].op.V_WR? {
      if m > i && m < j { assert IsLoad(events[m].op); }
      if m > j { assert IsVWr(events[m].op); }
    }
    hide AllShaped, Covers;
    ComputeSpan(events, i, g.next, g);
  }

  lemma UnaryCovers(events: seq<Event>, i: nat, row: int)
    requires AllShaped(events) && i < |events| && UnaryPattern(events, i, row).Some?
    ensures Covers(events, i, UnaryPattern(events, i, row).value)
  {
    var g := UnaryPattern(events, i, row).value;
    var j := Skip(events, i + 1, IsUnary);
    forall m | i <= m < g.next ensures IsLoad(events[m].op) || IsUnary(events[m].op) || events[m].op.V_WR? {
      if m > i && m < j { assert IsUnary(events[m].op); }
      if m >= j { assert IsVWr(events[m].op); }
    }
    hide AllShaped, Covers;
    ComputeSpan(events, i, g.next, g);
  }

  lemma FunctionCovers(events: seq<Event>, i: nat, row: int)
    requires i < |events| && FunctionPatterns(events, i, row).Some?
    ensures Covers(events, i, FunctionPatterns(events, i, row).value)
  {
  }

  /** Whatever pattern matches, the group covers its events. */
  lemma GroupCovers(events: seq<Event>, i: nat, row: int)
    requires AllShaped(events) && i < |events|
    ensures Covers(events, i, Group(events, i, row))
  {
    hide AllShaped, Covers, DramPatterns, RegisterPatterns, MatrixPattern, BinaryPattern, UnaryPattern,
      FunctionPatterns;
    if DramPatterns(events, i, row).Some? { DramCovers(events, i, row); }
    else if RegisterPatterns(events, i, row).Some? { RegisterCovers(events, i, row); }
    else if MatrixPattern(events, i, row).Some? { MatrixCovers(events, i, row); }
    else if BinaryPattern(events, i, row).Some? { BinaryCovers(events, i, row); }
    else if UnaryPattern(events, i, row).Some? { UnaryCovers(events, i, row); }
    else if FunctionPatterns(events, i, row).Some? { FunctionCovers(events, i, row); }
    else { SingleCovers(events, i, row); }
  }
}
