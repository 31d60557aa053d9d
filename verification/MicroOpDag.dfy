/** The micro-op DAG: it partitions the trace, loses no dependency, and renames the matrix register. */
module MicroOpDag {
  import opened D = Device
  import opened EventTrace
  import opened Dag
  import opened MicroOps
  import opened GroupShapes

  /** starts and rows record where each group begins and the matrix row counter there. */
  ghost predicate Grouping(events: seq<Event>, ops: seq<MicroOp>, starts: seq<nat>, rows: seq<int>)
  {
    |starts| == |rows| == |ops| + 1 && starts[0] == 0 && rows[0] == -1 &&
    forall m :: 0 <= m < |ops| ==> GroupAt(events, ops, starts, rows, m)
  }

  ghost predicate GroupAt(events: seq<Event>, ops: seq<MicroOp>, starts: seq<nat>, rows: seq<int>, m: nat)
    requires |starts| == |rows| == |ops| + 1 && m < |ops|
  {
    starts[m] < |events| && Group(events, starts[m], rows[m]) == Grouped(ops[m], starts[m + 1], rows[m + 1])
  }

  /** All indices of the first n micro-ops, in order. */
  function Indices(ops: seq<MicroOp>, n: nat): seq<nat>
    requires n <= |ops|
  {
    if n == 0 then [] else Indices(ops, n - 1) + ops[n - 1].indices
  }

  /** The greedy pass: groups from the front until the trace is used up. */
  method CollapseToMicroOps(events: seq<Event>)
    returns (ops: seq<MicroOp>, ghost starts: seq<nat>, ghost rows: seq<int>)
    requires Traced(events)
    ensures Grouping(events, ops, starts, rows) && starts[|ops|] == |events|
    ensures Indices(ops, |ops|) == Range(0, |events|)
    ensures forall m :: 0 <= m < |ops| ==> Shape(events, starts[m], starts[m + 1], ops[m].kind)
  {
    TracedIsShaped(events);
    hide Group, Covers, AllShaped, GroupAt, Indices, Traced;
    ops, starts, rows := [], [0], [-1];
    NoIndices(ops);
    var i, mrfRow := 0, -1;
    while i < |events|
      invariant i <= |events| && Grouping(events, ops, starts, rows)
      invariant starts[|ops|] == i && rows[|ops|] == mrfRow
      invariant Indices(ops, |ops|) == Range(0, i)
    {
      var g := Group(events, i, mrfRow);
      GroupCovers(events, i, mrfRow);
      CoversSpan(events, i, g);
      IndicesNext(ops, g.op, i, g.next);
      GroupingExtends(events, ops, starts, rows, g);
      ops, starts, rows := ops + [g.op], starts + [g.next], rows + [g.row];
      i, mrfRow := g.next, g.row;
    }
    hide *;
    forall m | 0 <= m < |ops| ensures Shape(events, starts[m], starts[m + 1], ops[m].kind) {
      ShapeAt(events, ops, starts, rows, m);
    }
  }

  lemma ShapeAt(events: seq<Event>, ops: seq<MicroOp>, starts: seq<nat>, rows: seq<int>, m: nat)
    requires Grouping(events, ops, starts, rows) && m < |ops|
    ensures Shape(events, starts[m], starts[m + 1], ops[m].kind)
  {
    hide Group, Shape;
    assert GroupAt(events, ops, starts, rows, m);
    GroupHasShape(events, starts[m], rows[m]);
  }

  lemma {:induction false} NoIndices(ops: seq<MicroOp>)
    ensures Indices(ops, 0) == [] == Range(0, 0)
  {
  }

  lemma IndicesNext(ops: seq<MicroOp>, op: MicroOp, i: nat, k: nat)
    requires i <= k && Indices(ops, |ops|) == Range(0, i) && op.indices == Range(i, k)
    ensures Indices(ops + [op], |ops + [op]|) == Range(0, k)
  {
    IndicesPrefix(ops, [op], |ops|);
    assert Range(0, i) + Range(i, k) == Range(0, k);
  }

  lemma CoversSpan(events: seq<Event>, i: nat, g: Grouped)
    requires Covers(events, i, g)
    ensures i < g.next <= |events| && g.op.indices == Range(i, g.next)
  {
  }

  lemma {:induction false} IndicesPrefix(a: seq<MicroOp>, b: seq<MicroOp>, n: nat)
    requires n <= |a|
    ensures Indices(a + b, n) == Indices(a, n)
  {
    if n > 0 { IndicesPrefix(a, b, n - 1); }
  }

  lemma GroupingExtends(events: seq<Event>, ops: seq<MicroOp>, starts: seq<nat>, rows: seq<int>, g: Grouped)
    requires Grouping(events, ops, starts, rows) && starts[|ops|] < |events|
    requires g == Group(events, starts[|ops|], rows[|ops|])
    ensures Grouping(events, ops + [g.op], starts + [g.next], rows + [g.row])
  {
    hide Group;
    var ops', starts', rows' := ops + [g.op], starts + [g.next], rows + [g.row];
    forall m | 0 <= m < |ops'| ensures GroupAt(events, ops', starts', rows', m) {
      if m < |ops| { assert GroupAt(events, ops, starts, rows, m); }
    }
  }

  /** Every group of a grouping covers its span. */
  lemma GroupSpan(events: seq<Event>, ops: seq<MicroOp>, starts: seq<nat>, rows: seq<int>, m: nat)
    requires AllShaped(events) && Grouping(events, ops, starts, rows) && m < |ops|
    ensures Covers(events, starts[m], Grouped(ops[m], starts[m + 1], rows[m + 1]))
    ensures starts[m] < starts[m + 1] <= |events| && ops[m].indices == Range(starts[m], starts[m + 1])
  {
    hide Group, Covers, AllShaped;
    assert GroupAt(events, ops, starts, rows, m);
    GroupCovers(events, starts[m], rows[m]);
    CoversSpan(events, starts[m], Grouped(ops[m], starts[m + 1], rows[m + 1]));
  }

  lemma {:induction false} StartsIncrease(events: seq<Event>, ops: seq<MicroOp>, starts: seq<nat>, rows: seq<int>,
                                          a: nat, b: nat)
    requires AllShaped(events) && Grouping(events, ops, starts, rows) && a <= b <= |ops|
    ensures starts[a] <= starts[b] && (a < b ==> starts[a + 1] <= starts[b])
    decreases b - a
  {
    hide AllShaped;
    if a < b {
      GroupSpan(events, ops, starts, rows, b - 1);
      StartsIncrease(events, ops, starts, rows, a, b - 1);
    }
  }

  /** The group an event falls into. */
  lemma {:induction false} GroupOf(events: seq<Event>, ops: seq<MicroOp>, starts: seq<nat>, rows: seq<int>, k: nat,
                                   n: nat) returns (m: nat)
    requires Grouping(events, ops, starts, rows) && n <= |ops| && k < starts[n]
    ensures m < n && starts[m] <= k < starts[m + 1]
  {
    if k >= starts[n - 1] { m := n - 1; } else { m := GroupOf(events, ops, starts, rows, k, n - 1); }
  }

  // ---- Edges ----

  /** A micro-op seen as an event of the def-use pass. */
  function AsEvents(ops: seq<MicroOp>): (es: seq<Event>)
    ensures |es| == |ops| && Numbered(es)
    ensures forall m :: 0 <= m < |ops| ==> es[m].defs == ops[m].defs && es[m].uses == ops[m].uses
  {
    seq(|ops|, m requires 0 <= m < |ops| => Event(m, UNKNOWN(0), 0, ops[m].defs, ops[m].uses))
  }

  predicate Produces(k: Kind)
  {
    k.DRAM_LOAD? || k.VREG_LD? || k.VREG_MOVE? || k.K_M_RD? || k.K_MV_MUL? || k.VV_BINOP? || k.V_UNARY? ||
    k.SOFTMAX? || k.LAYERNORM? || k.K_V_WR? || k == Single(M_RD)
  }

  predicate Consumes(k: Kind)
  {
    k.K_MV_MUL? || k.VV_BINOP? || k.V_UNARY? || k.SOFTMAX? || k.LAYERNORM? || k.DRAM_STORE? || k.VREG_MOVE? ||
    k.K_V_WR? ||
    k.K_M_RD? || k == Single(M_RD)
  }

  /** dst consumes the pipeline and src is the last micro-op before it that produces one. */
  ghost predicate IsPipeEdge(ops: seq<MicroOp>, e: Edge)
  {
    e.res == Pipe && e.src < e.dst < |ops| && Produces(ops[e.src].kind) && Consumes(ops[e.dst].kind) &&
    forall k :: e.src < k < e.dst ==> !Produces(ops[k].kind)
  }

  ghost predicate LastProducer(ops: seq<MicroOp>, n: nat, last: Option<nat>)
    requires n <= |ops|
  {
    match last
    case Some(p) => p < n && Produces(ops[p].kind) && forall k :: p < k < n ==> !Produces(ops[k].kind)
    case None => forall k :: 0 <= k < n ==> !Produces(ops[k].kind)
  }

  /** Def-use edges, then pipeline edges if asked for. */
  method BuildMicroOpDag(ops: seq<MicroOp>, pipeEdges: bool) returns (edges: seq<Edge>)
    ensures Distinct(edges)
    ensures forall e :: e in edges <==> IsEdge(AsEvents(ops), e) || (pipeEdges && IsPipeEdge(ops, e))
  {
    edges := BuildDag(AsEvents(ops));
    if !pipeEdges { return; }
    ghost var phase1 := edges;
    var last: Option<nat> := None;
    for n := 0 to |ops|
      invariant LastProducer(ops, n, last) && Distinct(edges)
      invariant forall e :: e in edges <==> e in phase1 || (IsPipeEdge(ops, e) && e.dst < n)
    {
      if !ops[n].kind.K_S_WR? {
        if Consumes(ops[n].kind) && last.Some? {
          var edge := Edge(last.value, n, Pipe);
          assert IsPipeEdge(ops, edge);
          if edge !in edges { edges := edges + [edge]; }
        }
        if Produces(ops[n].kind) { last := Some(n); }
      }
    }
  }

  /** Every edge, of either kind, goes forward. */
  lemma EdgesGoForward(ops: seq<MicroOp>, pipeEdges: bool, edges: seq<Edge>)
    requires forall e :: e in edges <==> IsEdge(AsEvents(ops), e) || (pipeEdges && IsPipeEdge(ops, e))
    ensures forall e :: e in edges ==> e.src < e.dst < |ops|
  {
    forall e | e in edges ensures e.src < e.dst < |ops| {
      if IsEdge(AsEvents(ops), e) { assert Reaches(AsEvents(ops), e.src, e.dst, e.res); }
    }
  }

  /** A dependency between events of different groups is an edge between the groups. */
  lemma NoDependencyLost(events: seq<Event>, ops: seq<MicroOp>, starts: seq<nat>, rows: seq<int>, e: Edge, a: nat,
                         b: nat)
    requires AllShaped(events) && Grouping(events, ops, starts, rows)
    requires IsEdge(events, e) && Tracked(e.res) && a < |ops| && b < |ops| && a != b
    requires e.src in ops[a].indices && e.dst in ops[b].indices
    ensures IsEdge(AsEvents(ops), Edge(a, b, e.res))
  {
    hide AllShaped;
    GroupSpan(events, ops, starts, rows, a);
    GroupSpan(events, ops, starts, rows, b);
    if b < a {
      StartsIncrease(events, ops, starts, rows, b, a);
    } else {
      StartsIncrease(events, ops, starts, rows, a, b);
    }
    assert Used(events, starts[b], starts[b + 1], e.res);
    assert Defined(events, starts[a], starts[a + 1], e.res);
    forall k | a < k < b ensures e.res !in ops[k].defs {
      GroupSpan(events, ops, starts, rows, k);
      StartsIncrease(events, ops, starts, rows, a, k);
      StartsIncrease(events, ops, starts, rows, k, b);
      assert !Defined(events, starts[k], starts[k + 1], e.res);
    }
    assert Reaches(AsEvents(ops), a, b, e.res);
  }

  /** A definition between two group boundaries belongs to a group between them. */
  lemma DefinedBetween(events: seq<Event>, ops: seq<MicroOp>, starts: seq<nat>, rows: seq<int>, lo: nat, hi: nat,
                       r: Resource) returns (m: nat)
    requires AllShaped(events) && Grouping(events, ops, starts, rows) && Tracked(r)
    requires lo <= hi <= |ops| && Defined(events, starts[lo], starts[hi], r)
    ensures lo <= m < hi && r in ops[m].defs
  {
    hide AllShaped;
    var k :| starts[lo] <= k < starts[hi] && k < |events| && r in events[k].defs;
    m := GroupOf(events, ops, starts, rows, k, hi);
    GroupSpan(events, ops, starts, rows, m);
    if m < lo { StartsIncrease(events, ops, starts, rows, m, lo); }
    assert Defined(events, starts[m], starts[m + 1], r);
  }

  /** A matrix read from the row buffer is the one group with a use no event has. */
  lemma RowBufferUse(events: seq<Event>, i: nat, row: int)
    requires i < |events| && Group(events, i, row).op.kind.K_M_RD?
    ensures Group(events, i, row).op.uses == [VRF(MEM_VEC_TO_MAT_ROW, 0)]
  {
    hide Skip, LoadUses, StoreDefs, AllUses, AllDefs;
  }

  /** Exactly which edges between groups there are: a definition in the source group, a use in the
      target group (or the row-buffer use of a matrix read), and no definition in a group between. */
  lemma EdgesExactly(events: seq<Event>, ops: seq<MicroOp>, starts: seq<nat>, rows: seq<int>, e: Edge)
    requires AllShaped(events) && Grouping(events, ops, starts, rows) && Tracked(e.res)
    ensures IsEdge(AsEvents(ops), e) <==>
      e.src < e.dst < |ops| && Defined(events, starts[e.src], starts[e.src + 1], e.res) &&
      (Used(events, starts[e.dst], starts[e.dst + 1], e.res) ||
       (ops[e.dst].kind.K_M_RD? && e.res == VRF(MEM_VEC_TO_MAT_ROW, 0))) &&
      !Defined(events, starts[e.src + 1], starts[e.dst], e.res)
  {
    hide AllShaped, Group;
    if e.src < e.dst < |ops| {
      GroupSpan(events, ops, starts, rows, e.src);
      GroupSpan(events, ops, starts, rows, e.dst);
      assert GroupAt(events, ops, starts, rows, e.dst);
      if ops[e.dst].kind.K_M_RD? { RowBufferUse(events, starts[e.dst], rows[e.dst]); }
      if Defined(events, starts[e.src + 1], starts[e.dst], e.res) {
        var m := DefinedBetween(events, ops, starts, rows, e.src + 1, e.dst, e.res);
      } else {
        forall k | e.src < k < e.dst ensures e.res !in ops[k].defs {
          GroupSpan(events, ops, starts, rows, k);
          StartsIncrease(events, ops, starts, rows, e.src, k);
          StartsIncrease(events, ops, starts, rows, k, e.dst);
        }
      }
    }
  }

  // ---- Renaming the matrix register ----

  /** The event loads the matrix register. */
  predicate LoadsMatrix(e: Event)
  {
    MRF in e.defs
  }

  /** A load the collapser numbers: a row-buffer read, or a DRAM load directly followed by M_WR. */
  predicate Counted(events: seq<Event>, k: nat)
    requires k < |events|
  {
    events[k].op.M_RD_DRAM? ==> At(events, k + 1, M_WR)
  }

  /** What a group does with the row counter, and where matrix loads and products may sit in it. */
  ghost predicate RowStep(events: seq<Event>, i: nat, row: int, g: Grouped)
  {
    i < g.next <= |events| &&
    (forall k :: i < k < g.next ==> !LoadsMatrix(events[k])) &&
    (if LoadsMatrix(events[i]) && Counted(events, i)
     then g.row == row + 1 && g.op.defs == [MRFRow(row + 1)]
     else g.row == row && forall x :: MRFRow(x) !in g.op.defs) &&
    ((exists k :: i <= k < g.next && events[k].op.MV_MUL?) ==> g.op.kind.K_MV_MUL? && !LoadsMatrix(events[i])) &&
    (forall x :: MRFRow(x) in g.op.uses <==> g.op.kind.K_MV_MUL? && x == row && row >= 0)
  }

  lemma {:induction false} RangeIsRowless(events: seq<Event>, lo: nat, hi: nat)
    requires AllShaped(events) && lo <= hi <= |events|
    ensures forall x :: MRFRow(x) !in StoreDefs(events, lo, hi) && MRFRow(x) !in LoadUses(events, lo, hi)
    ensures forall x :: MRFRow(x) !in AllDefs(events, lo, hi) && MRFRow(x) !in AllUses(events, lo, hi)
  {
  }

  /** Only the two matrix-read opcodes load the matrix register. */
  lemma LoadNames(events: seq<Event>, k: nat)
    requires AllShaped(events) && k < |events|
    ensures LoadsMatrix(events[k]) ==> events[k].op.M_RD? || events[k].op.M_RD_DRAM?
    ensures events[k].op.M_RD_DRAM? ==> LoadsMatrix(events[k])
    ensures events[k].op.M_WR? ==> events[k].defs == []
    ensures forall x :: MRFRow(x) !in events[k].defs && MRFRow(x) !in events[k].uses
  {
  }

  lemma DramRowStep(events: seq<Event>, i: nat, row: int, g: Grouped)
    requires AllShaped(events) && i < |events| && DramPatterns(events, i, row) == Some(g)
    ensures RowStep(events, i, row, g)
  {
    hide AllShaped, NonPipe, DramOnly;
    LoadNames(events, i);
    if i + 1 < |events| { LoadNames(events, i + 1); }
  }

  lemma RegisterRowStep(events: seq<Event>, i: nat, row: int, g: Grouped)
    requires AllShaped(events) && i < |events| && RegisterPatterns(events, i, row) == Some(g)
    ensures RowStep(events, i, row, g)
  {
    hide AllShaped, NonPipe;
    LoadNames(events, i);
    if i + 1 < |events| { LoadNames(events, i + 1); }
    if i + 2 < |events| { LoadNames(events, i + 2); }
  }

  /** A group of events none of which is a matrix read keeps the counter. */
  lemma RowlessGroup(events: seq<Event>, i: nat, row: int, g: Grouped)
    requires AllShaped(events) && i < g.next <= |events| && g.row == row
    requires forall k :: i <= k < g.next ==> !events[k].op.M_RD? && !events[k].op.M_RD_DRAM?
    requires (exists k :: i <= k < g.next && events[k].op.MV_MUL?) ==> g.op.kind.K_MV_MUL?
    requires g.op.defs == StoreDefs(events, i, g.next) || g.op.defs == AllDefs(events, i, g.next)
    requires if g.op.kind.K_MV_MUL?
             then g.op.uses == LoadUses(events, i, g.next) + (if row >= 0 then [MRFRow(row)] else [])
             else g.op.uses == LoadUses(events, i, g.next) || g.op.uses == AllUses(events, i, g.next)
    ensures RowStep(events, i, row, g)
  {
    RangeIsRowless(events, i, g.next);
    forall k | i <= k < g.next ensures !LoadsMatrix(events[k]) { LoadNames(events, k); }
    hide AllShaped, StoreDefs, LoadUses, AllDefs, AllUses;
  }

  lemma MatrixRowStep(events: seq<Event>, i: nat, row: int, g: Grouped)
    requires AllShaped(events) && i < |events| && MatrixPattern(events, i, row) == Some(g)
    ensures RowStep(events, i, row, g)
  {
    hide AllShaped, RowStep, Skip, StoreDefs, LoadUses, AllDefs, AllUses;
    var j := if events[i].op.V_RD? then Skip(events, i + 1, IsVRd) else i;
    forall m | i <= m < g.next ensures IsVRd(events[m].op) || events[m].op.MV_MUL? || IsVWr(events[m].op) {
      if m > i && m < j { assert IsVRd(events[m].op); }
      if m > j { assert IsVWr(events[m].op); }
    }
    RowlessGroup(events, i, row, g);
  }

  lemma BinaryRowStep(events: seq<Event>, i: nat, row: int, g: Grouped)
    requires AllShaped(events) && i < |events| && BinaryPattern(events, i, row) == Some(g)
    ensures RowStep(events, i, row, g)
  {
    hide AllShaped, RowStep, Skip, StoreDefs, LoadUses, AllDefs, AllUses;
    var j := Skip(events, i + 1, IsLoad);
    forall m | i <= m < g.next ensures IsLoad(events[m].op) || IsBinary(events[m].op) || IsVWr(events[m].op) {
      if m > i && m < j { assert IsLoad(events[m].op); }
      if m > j { assert IsVWr(events[m].op); }
    }
    RowlessGroup(events, i, row, g);
  }

  lemma UnaryRowStep(events: seq<Event>, i: nat, row: int, g: Grouped)
    requires AllShaped(events) && i < |events| && UnaryPattern(events, i, row) == Some(g)
    ensures RowStep(events, i, row, g)
  {
    hide AllShaped, RowStep, Skip, StoreDefs, LoadUses, AllDefs, AllUses;
    var j := Skip(events, i + 1, IsUnary);
    forall m | i <= m < g.next ensures IsVRd(events[m].op) || IsUnary(events[m].op) || IsVWr(events[m].op) {
      if m > i && m < j { assert IsUnary(events[m].op); }
      if m >= j { assert IsVWr(events[m].op); }
    }
    RowlessGroup(events, i, row, g);
  }

  lemma FunctionRowStep(events: seq<Event>, i: nat, row: int, g: Grouped)
    requires AllShaped(events) && i < |events| && FunctionPatterns(events, i, row) == Some(g)
    ensures RowStep(events, i, row, g)
  {
    hide AllShaped, RowStep, Skip, StoreDefs, LoadUses, AllDefs, AllUses;
    forall m | i <= m < g.next
      ensures IsVFunc(events[m].op) || FollowsVFunc(events[m].op) || events[m].op.V_GELU? || IsMove(events[m].op)
    {
      if m > i && IsVFunc(events[i].op) { assert FollowsVFunc(events[m].op); }
      if m > i && !IsVFunc(events[i].op) { assert IsMove(events[m].op); }
    }
    RowlessGroup(events, i, row, g);
  }

  lemma SingleRowStep(events: seq<Event>, i: nat, row: int)
    requires AllShaped(events) && i < |events| && !events[i].op.MV_MUL? && DramPatterns(events, i, row).None?
    ensures RowStep(events, i, row, SingleInstruction(events, i, row))
  {
    hide AllShaped, NonPipe, DramOnly, RowStep, At;
    var ev, g := events[i], SingleInstruction(events, i, row);
    if ev.op.M_RD? && MRF in ev.defs { MatrixReadRowStep(events, i, row); }
    else if ev.op.V_RD? && At(events, i + 1, V_WR) { MoveRowStep(events, i, row); }
    else { OneRowStep(events, i, row); }
  }

  lemma MatrixReadRowStep(events: seq<Event>, i: nat, row: int)
    requires AllShaped(events) && i < |events| && events[i].op.M_RD? && MRF in events[i].defs
    ensures RowStep(events, i, row, SingleInstruction(events, i, row))
  {
    hide AllShaped, NonPipe, DramOnly;
  }

  lemma MoveRowStep(events: seq<Event>, i: nat, row: int)
    requires AllShaped(events) && i < |events| && events[i].op.V_RD? && At(events, i + 1, V_WR)
    ensures RowStep(events, i, row, SingleInstruction(events, i, row))
  {
    LoadNames(events, i);
    LoadNames(events, i + 1);
    hide AllShaped, NonPipe, DramOnly;
  }

  lemma OneRowStep(events: seq<Event>, i: nat, row: int)
    requires AllShaped(events) && i < |events| && !events[i].op.MV_MUL? && DramPatterns(events, i, row).None?
    requires !(events[i].op.V_RD? && At(events, i + 1, V_WR)) && !(events[i].op.M_RD? && MRF in events[i].defs)
    ensures RowStep(events, i, row, SingleInstruction(events, i, row))
  {
    LoadNames(events, i);
    hide AllShaped, NonPipe, DramOnly;
  }

  lemma GroupRowStep(events: seq<Event>, i: nat, row: int)
    requires AllShaped(events) && i < |events|
    ensures RowStep(events, i, row, Group(events, i, row))
  {
    hide AllShaped, RowStep, DramPatterns, RegisterPatterns, BinaryPattern, UnaryPattern, FunctionPatterns,
      SingleInstruction, Skip;
    var g := Group(events, i, row);
    if DramPatterns(events, i, row).Some? { DramRowStep(events, i, row, g); }
    else if RegisterPatterns(events, i, row).Some? { RegisterRowStep(events, i, row, g); }
    else if MatrixPattern(events, i, row).Some? { MatrixRowStep(events, i, row, g); }
    else if BinaryPattern(events, i, row).Some? { BinaryRowStep(events, i, row, g); }
    else if UnaryPattern(events, i, row).Some? { UnaryRowStep(events, i, row, g); }
    else if FunctionPatterns(events, i, row).Some? { FunctionRowStep(events, i, row, g); }
    else { SingleRowStep(events, i, row); }
  }

  lemma RowStepAt(events: seq<Event>, ops: seq<MicroOp>, starts: seq<nat>, rows: seq<int>, m: nat)
    requires AllShaped(events) && Grouping(events, ops, starts, rows) && m < |ops|
    ensures RowStep(events, starts[m], rows[m], Grouped(ops[m], starts[m + 1], rows[m + 1]))
  {
    hide Group, AllShaped, RowStep;
    assert GroupAt(events, ops, starts, rows, m);
    GroupRowStep(events, starts[m], rows[m]);
  }

  /** The row counter never goes back. */
  lemma {:induction false} RowsIncrease(events: seq<Event>, ops: seq<MicroOp>, starts: seq<nat>, rows: seq<int>,
                                        a: nat, b: nat)
    requires AllShaped(events) && Grouping(events, ops, starts, rows) && a <= b <= |ops|
    ensures rows[a] <= rows[b]
    decreases b - a
  {
    hide AllShaped, Group;
    if a < b {
      RowStepAt(events, ops, starts, rows, b - 1);
      RowsIncrease(events, ops, starts, rows, a, b - 1);
    }
  }

  /** A matrix coordinate has one definer. */
  lemma CoordinateDefinedOnce(events: seq<Event>, ops: seq<MicroOp>, starts: seq<nat>, rows: seq<int>, a: nat, b: nat,
                              x: int)
    requires AllShaped(events) && Grouping(events, ops, starts, rows) && a < |ops| && b < |ops|
    requires MRFRow(x) in ops[a].defs && MRFRow(x) in ops[b].defs
    ensures a == b
  {
    hide AllShaped, Group;
    RowStepAt(events, ops, starts, rows, a);
    RowStepAt(events, ops, starts, rows, b);
    if a < b { RowsIncrease(events, ops, starts, rows, a + 1, b); }
    if b < a { RowsIncrease(events, ops, starts, rows, b + 1, a); }
  }

  /** Load k reaches the collapser's row counter. */
  predicate CountedLoad(events: seq<Event>, k: nat)
    requires k < |events|
  {
    LoadsMatrix(events[k]) && Counted(events, k)
  }

  /** s is the last numbered load before t. */
  ghost predicate LastCounted(events: seq<Event>, s: nat, t: nat)
    requires t < |events|
  {
    s < t && CountedLoad(events, s) && forall k :: s < k < t ==> !CountedLoad(events, k)
  }

  /** The product's group is linked to group a by a matrix coordinate. */
  ghost predicate Linked(ops: seq<MicroOp>, a: nat, b: nat)
  {
    exists x :: IsEdge(AsEvents(ops), Edge(a, b, MRFRow(x)))
  }

  /** With no numbered load after the one of group a, the counter stays put up to group b. */
  lemma {:induction false} RowsSteady(events: seq<Event>, ops: seq<MicroOp>, starts: seq<nat>, rows: seq<int>, a: nat,
                                      b: nat, t: nat)
    requires AllShaped(events) && Grouping(events, ops, starts, rows) && a < b <= |ops|
    requires starts[b] <= t <= |events|
    requires forall k :: starts[a] < k < t ==> !CountedLoad(events, k)
    ensures rows[b] == rows[a + 1]
    ensures forall m :: a < m < b ==> forall x :: MRFRow(x) !in ops[m].defs
    decreases b - a
  {
    hide AllShaped, Group;
    if a + 1 < b {
      GroupSpan(events, ops, starts, rows, a);
      GroupSpan(events, ops, starts, rows, b - 1);
      StartsIncrease(events, ops, starts, rows, a + 1, b - 1);
      RowStepAt(events, ops, starts, rows, b - 1);
      assert !CountedLoad(events, starts[b - 1]);
      RowsSteady(events, ops, starts, rows, a, b - 1, t);
    }
  }

  /** A matrix load opens its group. */
  lemma LoadOpensGroup(events: seq<Event>, ops: seq<MicroOp>, starts: seq<nat>, rows: seq<int>, k: nat, m: nat)
    requires AllShaped(events) && Grouping(events, ops, starts, rows) && m < |ops|
    requires starts[m] <= k < starts[m + 1] && k < |events| && LoadsMatrix(events[k])
    ensures k == starts[m]
  {
    hide AllShaped, Group;
    RowStepAt(events, ops, starts, rows, m);
  }

  /** A numbered load between two groups moves the counter between them. */
  lemma CounterMoves(events: seq<Event>, ops: seq<MicroOp>, starts: seq<nat>, rows: seq<int>, a: nat, b: nat, t: nat,
                     k: nat)
    requires AllShaped(events) && Grouping(events, ops, starts, rows) && a < b < |ops|
    requires starts[b] <= t < starts[b + 1] && t < |events| && events[t].op.MV_MUL?
    requires starts[a] < k < t && CountedLoad(events, k)
    ensures rows[a + 1] < rows[b]
  {
    hide AllShaped, Group, RowStep;
    var m := GroupOf(events, ops, starts, rows, k, b + 1);
    LoadOpensGroup(events, ops, starts, rows, k, m);
    RowStepAt(events, ops, starts, rows, m);
    RowStepAt(events, ops, starts, rows, b);
    assert m != b by { NoLoadOpensProduct(events, starts[b], rows[b], Grouped(ops[b], starts[b + 1], rows[b + 1]), t); }
    if m <= a { StartsIncrease(events, ops, starts, rows, m, a); }
    assert rows[m + 1] == rows[m] + 1 by {
      LoadMovesRow(events, starts[m], rows[m], Grouped(ops[m], starts[m + 1], rows[m + 1]));
    }
    RowsIncrease(events, ops, starts, rows, a + 1, m);
    RowsIncrease(events, ops, starts, rows, m + 1, b);
  }

  lemma NoLoadOpensProduct(events: seq<Event>, i: nat, row: int, g: Grouped, t: nat)
    requires RowStep(events, i, row, g) && i <= t < g.next && events[t].op.MV_MUL?
    ensures !LoadsMatrix(events[i]) && g.op.kind.K_MV_MUL?
    ensures forall x :: MRFRow(x) in g.op.uses <==> x == row && row >= 0
  {
  }

  lemma LoadMovesRow(events: seq<Event>, i: nat, row: int, g: Grouped)
    requires RowStep(events, i, row, g)
    ensures if CountedLoad(events, i) then g.row == row + 1 && g.op.defs == [MRFRow(row + 1)]
            else g.row == row && forall x :: MRFRow(x) !in g.op.defs
  {
  }

  /** Exactly which group a product is linked to: the one of the last numbered load before it, or none. */
  lemma MatrixEdgeExactly(events: seq<Event>, ops: seq<MicroOp>, starts: seq<nat>, rows: seq<int>, t: nat, a: nat,
                          b: nat)
    requires AllShaped(events) && Grouping(events, ops, starts, rows) && a < |ops| && b < |ops|
    requires t < |events| && events[t].op.MV_MUL? && t in ops[b].indices
    ensures Linked(ops, a, b) <==> LastCounted(events, starts[a], t)
  {
    hide AllShaped, Group, RowStep;
    GroupSpan(events, ops, starts, rows, a);
    GroupSpan(events, ops, starts, rows, b);
    RowStepAt(events, ops, starts, rows, a);
    RowStepAt(events, ops, starts, rows, b);
    LoadMovesRow(events, starts[a], rows[a], Grouped(ops[a], starts[a + 1], rows[a + 1]));
    NoLoadOpensProduct(events, starts[b], rows[b], Grouped(ops[b], starts[b + 1], rows[b + 1]), t);
    if Linked(ops, a, b) {
      LinkIsLast(events, ops, starts, rows, t, a, b);
    }
    if LastCounted(events, starts[a], t) {
      if b < a { StartsIncrease(events, ops, starts, rows, b, a); }
      StartsIncrease(events, ops, starts, rows, a, b);
      RowsSteady(events, ops, starts, rows, a, b, t);
      RowNonNegative(events, ops, starts, rows, a);
      assert Reaches(AsEvents(ops), a, b, MRFRow(rows[b]));
      assert IsEdge(AsEvents(ops), Edge(a, b, MRFRow(rows[b])));
    }
  }

  lemma LinkIsLast(events: seq<Event>, ops: seq<MicroOp>, starts: seq<nat>, rows: seq<int>, t: nat, a: nat, b: nat)
    requires AllShaped(events) && Grouping(events, ops, starts, rows) && a < |ops| && b < |ops|
    requires starts[b] <= t < starts[b + 1] && t < |events| && events[t].op.MV_MUL? && Linked(ops, a, b)
    ensures LastCounted(events, starts[a], t)
  {
    hide AllShaped, Group, RowStep;
    var x :| IsEdge(AsEvents(ops), Edge(a, b, MRFRow(x)));
    RowStepAt(events, ops, starts, rows, a);
    RowStepAt(events, ops, starts, rows, b);
    GroupSpan(events, ops, starts, rows, a);
    LoadMovesRow(events, starts[a], rows[a], Grouped(ops[a], starts[a + 1], rows[a + 1]));
    NoLoadOpensProduct(events, starts[b], rows[b], Grouped(ops[b], starts[b + 1], rows[b + 1]), t);
    assert a < b && x == rows[b] == rows[a + 1];
    StartsIncrease(events, ops, starts, rows, a, b);
    forall k | starts[a] < k < t ensures !CountedLoad(events, k) {
      if CountedLoad(events, k) { CounterMoves(events, ops, starts, rows, a, b, t, k); }
    }
  }

  /** A product's micro-op edges are those of its event-level matrix edge exactly when the load that reaches it is
      one the collapser numbers. */
  lemma MatrixEdgesAgreeIff(events: seq<Event>, ops: seq<MicroOp>, starts: seq<nat>, rows: seq<int>, t: nat, b: nat)
    requires AllShaped(events) && Grouping(events, ops, starts, rows) && b < |ops|
    requires t < |events| && events[t].op.MV_MUL? && t in ops[b].indices
    ensures (forall a: nat :: a < |ops| ==> (IsEdge(events, Edge(starts[a], t, MRF)) <==> Linked(ops, a, b)))
       <==> (forall s: nat :: IsEdge(events, Edge(s, t, MRF)) ==> Counted(events, s))
  {
    hide AllShaped, Group, RowStep, Linked;
    forall a: nat | a < |ops| ensures Linked(ops, a, b) <==> LastCounted(events, starts[a], t) {
      MatrixEdgeExactly(events, ops, starts, rows, t, a, b);
    }
    GroupSpan(events, ops, starts, rows, b);
    assert MRF in events[t].uses by { ProductUsesMatrix(events, t); }
    if forall a: nat :: a < |ops| ==> (IsEdge(events, Edge(starts[a], t, MRF)) <==> Linked(ops, a, b)) {
      forall s: nat | IsEdge(events, Edge(s, t, MRF)) ensures Counted(events, s) {
        var a := GroupOf(events, ops, starts, rows, s, b + 1);
        LoadOpensGroup(events, ops, starts, rows, s, a);
        assert IsEdge(events, Edge(starts[a], t, MRF));
      }
    } else {
      var a: nat :| a < |ops| && !(IsEdge(events, Edge(starts[a], t, MRF)) <==> Linked(ops, a, b));
      if forall s: nat :: IsEdge(events, Edge(s, t, MRF)) ==> Counted(events, s) {
        LastLoadBefore(events, starts[a], t);
      }
    }
  }

  lemma ProductUsesMatrix(events: seq<Event>, t: nat)
    requires AllShaped(events) && t < |events| && events[t].op.MV_MUL?
    ensures MRF in events[t].uses
  {
  }

  /** If every load that reaches t is numbered, the last numbered load before t is the one that reaches it. */
  lemma LastLoadBefore(events: seq<Event>, s: nat, t: nat)
    requires t < |events| && MRF in events[t].uses
    requires forall r: nat :: IsEdge(events, Edge(r, t, MRF)) ==> Counted(events, r)
    ensures IsEdge(events, Edge(s, t, MRF)) <==> LastCounted(events, s, t)
  {
    if IsEdge(events, Edge(s, t, MRF)) { assert Counted(events, s); }
    if LastCounted(events, s, t) {
      forall k | s < k < t ensures MRF !in events[k].defs {
        if MRF in events[k].defs { var r := LoadThatReaches(events, k, t); }
      }
      assert Reaches(events, s, t, MRF);
    }
  }

  lemma LoadThatReaches(events: seq<Event>, k: nat, t: nat) returns (r: nat)
    requires k < t < |events| && MRF in events[t].uses && MRF in events[k].defs
    requires forall r: nat :: IsEdge(events, Edge(r, t, MRF)) ==> Counted(events, r)
    ensures k <= r < t && CountedLoad(events, r)
  {
    r := SomeReaches(events, t, MRF);
    assert IsEdge(events, Edge(r, t, MRF));
  }

  /** A product reached by load s is linked to the load's group exactly when the load is one the collapser numbers. */
  lemma MatrixEdgeMatches(events: seq<Event>, ops: seq<MicroOp>, starts: seq<nat>, rows: seq<int>, s: nat, t: nat,
                          a: nat, b: nat)
    requires AllShaped(events) && Grouping(events, ops, starts, rows) && a < |ops| && b < |ops|
    requires IsEdge(events, Edge(s, t, MRF)) && events[t].op.MV_MUL? && s in ops[a].indices && t in ops[b].indices
    ensures a < b && ops[b].kind.K_MV_MUL?
    ensures Counted(events, s) <==> Linked(ops, a, b)
  {
    hide AllShaped, Group, RowStep, Linked;
    GroupSpan(events, ops, starts, rows, a);
    GroupSpan(events, ops, starts, rows, b);
    LoadOpensGroup(events, ops, starts, rows, s, a);
    RowStepAt(events, ops, starts, rows, b);
    NoLoadOpensProduct(events, starts[b], rows[b], Grouped(ops[b], starts[b + 1], rows[b + 1]), t);
    if b < a { StartsIncrease(events, ops, starts, rows, b, a); }
    MatrixEdgeExactly(events, ops, starts, rows, t, a, b);
  }

  /** When every load is numbered, micro-op and event-level matrix edges agree on every product. */
  lemma MatrixEdgesAgree(events: seq<Event>, ops: seq<MicroOp>, starts: seq<nat>, rows: seq<int>, t: nat, a: nat,
                         b: nat)
    requires AllShaped(events) && Grouping(events, ops, starts, rows) && a < |ops| && b < |ops|
    requires t < |events| && events[t].op.MV_MUL? && t in ops[b].indices
    requires forall k :: 0 <= k < |events| && LoadsMatrix(events[k]) ==> Counted(events, k)
    ensures IsEdge(events, Edge(starts[a], t, MRF)) <==> Linked(ops, a, b)
  {
    hide AllShaped, Group, Linked;
    MatrixEdgesAgreeIff(events, ops, starts, rows, t, b);
  }

  lemma RowNonNegative(events: seq<Event>, ops: seq<MicroOp>, starts: seq<nat>, rows: seq<int>, a: nat)
    requires AllShaped(events) && Grouping(events, ops, starts, rows) && a <= |ops|
    ensures rows[a] >= -1
  {
    RowsIncrease(events, ops, starts, rows, 0, a);
  }

  // ---- Loads that are not numbered ----

  lemma CallsAreTraced(xs: seq<Call>)
    ensures Traced(EventsOf(0, 0, xs)) && AllShaped(EventsOf(0, 0, xs))
  {
    hide EventOf;
    forall i | 0 <= i < |xs| ensures FromCall(EventsOf(0, 0, xs)[i], i) { RawIs(i, 0, xs[i]); }
    TracedIsShaped(EventsOf(0, 0, xs));
  }

  lemma RawIs(idx: nat, raw: nat, x: Call)
    ensures EventOf(idx, raw, x).raw == raw
  {
  }

  /** V_RD, a bare M_RD_DRAM, V_RD, MV_MUL. */
  function BareTrace(): seq<Event>
  {
    EventsOf(0, 0,
             [Call(OP_V_RD, 5, 0, 0), Call(OP_M_RD_DRAM, 0, 0, 0), Call(OP_V_RD, 5, 0, 0), Call(OP_MV_MUL, 0, 0, 0)])
  }

  /** A numbered load, then a bare M_RD_DRAM, V_RD, MV_MUL. */
  function StaleTrace(): seq<Event>
  {
    EventsOf(0, 0,
             [Call(OP_M_RD_DRAM, 0, 0, 0), Call(OP_M_WR, 4, 0, 0), Call(OP_M_RD_DRAM, 0, 0, 64), Call(OP_V_RD, 5, 0, 0),
              Call(OP_MV_MUL, 0, 0, 0)])
  }

  lemma BareTraceIs()
    ensures var es := BareTrace();
            |es| == 4 && es[3].op.MV_MUL? && IsEdge(es, Edge(1, 3, MRF)) &&
            forall k: nat :: k < 3 ==> !CountedLoad(es, k)
  {
    assert Reaches(BareTrace(), 1, 3, MRF);
  }

  lemma StaleTraceIs()
    ensures var es := StaleTrace();
            |es| == 5 && es[4].op.MV_MUL? && IsEdge(es, Edge(2, 4, MRF)) && LastCounted(es, 0, 4)
  {
    hide EventOf, Defs, Uses, OpcodeName;
    var es := StaleTrace();
    StaleEvents();
    assert Reaches(es, 2, 4, MRF);
    assert CountedLoad(es, 0) && !CountedLoad(es, 1) && !CountedLoad(es, 2) && !CountedLoad(es, 3);
  }

  lemma StaleEvents()
    ensures var es := StaleTrace();
            es[0].op.M_RD_DRAM? && es[1].op.M_WR? && es[2].op.M_RD_DRAM? && es[3].op.V_RD? && es[4].op.MV_MUL? &&
            es[0].defs == es[2].defs == [MRF] && es[1].defs == [] && es[3].defs == [Pipe, VpipeA] && MRF in es[4].uses
  {
  }

  lemma WitnessesAreTraced()
    ensures Traced(BareTrace()) && AllShaped(BareTrace()) && Traced(StaleTrace()) && AllShaped(StaleTrace())
  {
    hide Traced, AllShaped, EventsOf;
    CallsAreTraced([Call(OP_V_RD, 5, 0, 0), Call(OP_M_RD_DRAM, 0, 0, 0), Call(OP_V_RD, 5, 0, 0),
                    Call(OP_MV_MUL, 0, 0, 0)]);
    CallsAreTraced([Call(OP_M_RD_DRAM, 0, 0, 0), Call(OP_M_WR, 4, 0, 0), Call(OP_M_RD_DRAM, 0, 0, 64),
                    Call(OP_V_RD, 5, 0, 0), Call(OP_MV_MUL, 0, 0, 0)]);
  }

  /** The product depends on the bare load, and no matrix edge enters its group. */
  lemma BareLoadIsUnlinked(ops: seq<MicroOp>, starts: seq<nat>, rows: seq<int>, b: nat)
    requires Grouping(BareTrace(), ops, starts, rows) && b < |ops| && 3 in ops[b].indices
    ensures Traced(BareTrace()) && IsEdge(BareTrace(), Edge(1, 3, MRF))
    ensures forall a: nat :: a < |ops| ==> !Linked(ops, a, b)
  {
    hide BareTrace, StaleTrace, Linked, AllShaped, Traced, GroupAt, CountedLoad;
    WitnessesAreTraced();
    BareTraceIs();
    forall a: nat | a < |ops| ensures !Linked(ops, a, b) { MatrixEdgeExactly(BareTrace(), ops, starts, rows, 3, a, b); }
  }

  /** The product depends on the bare load, and its group is linked to the load before that one. */
  lemma BareLoadLinksEarlier(ops: seq<MicroOp>, starts: seq<nat>, rows: seq<int>, b: nat)
    requires Grouping(StaleTrace(), ops, starts, rows) && b < |ops| && 4 in ops[b].indices
    ensures Traced(StaleTrace()) && IsEdge(StaleTrace(), Edge(2, 4, MRF)) && Linked(ops, 0, b) && 0 in ops[0].indices
  {
    hide BareTrace, StaleTrace, Linked, AllShaped, Traced, GroupAt, CountedLoad, LastCounted;
    WitnessesAreTraced();
    StaleTraceIs();
    GroupSpan(StaleTrace(), ops, starts, rows, 0);
    assert Range(starts[0], starts[1])[0] == 0;
    MatrixEdgeExactly(StaleTrace(), ops, starts, rows, 4, 0, b);
  }
}
