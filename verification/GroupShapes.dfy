/** What the groups of the collapsing pass are, in terms of the trace alone: which operations a group of each kind
    holds, where it ends, and when an operation is left alone. */
module GroupShapes {
  import opened D = Device
  import opened EventTrace
  import opened MicroOps

  /** Every operation of a range passes the test. */
  predicate Run(events: seq<Event>, lo: nat, hi: nat, test: OpName -> bool)
  {
    lo <= hi <= |events| && forall m :: lo <= m < hi ==> test(events[m].op)
  }

  /** The test fails at this index, or the trace ends. */
  predicate Stops(events: seq<Event>, k: nat, test: OpName -> bool)
  {
    k < |events| ==> !test(events[k].op)
  }

  /** Operand loads, the product at j, and every store directly behind it. */
  predicate Product(events: seq<Event>, lo: nat, j: nat, hi: nat)
  {
    lo <= j < hi <= |events| && Run(events, lo, j, IsVRd) && events[j].op.MV_MUL? &&
    Run(events, j + 1, hi, IsVWr) && Stops(events, hi, IsVWr)
  }

  /** At least one operand load, the binary operation at j, and every store directly behind it; three in all. */
  predicate Binary(events: seq<Event>, lo: nat, j: nat, hi: nat)
  {
    lo < j < hi <= |events| && lo + 3 <= hi && Run(events, lo, j, IsLoad) && IsBinary(events[j].op) &&
    Run(events, j + 1, hi, IsVWr) && Stops(events, hi, IsVWr)
  }

  /** One operand load, all unary operations behind it, and every store behind those; three in all. */
  predicate Unary(events: seq<Event>, lo: nat, j: nat, hi: nat)
  {
    lo + 1 < j <= hi <= |events| && lo + 3 <= hi && events[lo].op.V_RD? && Run(events, lo + 1, j, IsUnary) &&
    Stops(events, j, IsUnary) && Run(events, j, hi, IsVWr) && Stops(events, hi, IsVWr)
  }

  /** An operation and everything behind it that passes the test. */
  predicate Absorbs(events: seq<Event>, lo: nat, hi: nat, test: OpName -> bool)
  {
    lo < hi <= |events| && Run(events, lo + 1, hi, test) && Stops(events, hi, test)
  }

  /** The group of a vector function, or of a GELU without its own load: these take loads of what comes after. */
  predicate FunctionGroup(events: seq<Event>, lo: nat, hi: nat)
  {
    lo < |events| &&
    ((IsVFunc(events[lo].op) && Absorbs(events, lo, hi, FollowsVFunc)) ||
     (events[lo].op.V_GELU? && Absorbs(events, lo, hi, IsMove)))
  }

  /** A V_RD of a constant or of a broadcast scalar. */
  predicate LoadsScalar(e: Event)
  {
    e.op.V_RD? && (e.uses == [] || e.uses[0].SRF?)
  }

  /** No pattern begins here. */
  ghost predicate Alone(events: seq<Event>, lo: nat)
  {
    lo < |events| &&
    var op := events[lo].op;
    !op.MV_MUL? && !op.V_WR? && !op.V_WR_DRAM? && !op.V_RD_DRAM? && !op.S_WR? && !op.V_GELU? && !IsVFunc(op) &&
    (op.M_RD? ==> MRF !in events[lo].defs) && (op.M_RD_DRAM? ==> !At(events, lo + 1, M_WR)) &&
    (op.V_RD? ==>
      !At(events, lo + 1, V_WR) && !At(events, lo + 1, V_WR_DRAM) &&
      forall j: nat, k: nat :: !Product(events, lo, j, k) && !Binary(events, lo, j, k) && !Unary(events, lo, j, k))
  }

  /** What a group of a kind holds and where it ends. */
  ghost predicate Shape(events: seq<Event>, lo: nat, hi: nat, kind: Kind)
  {
    lo < hi <= |events| &&
    var op := events[lo].op;
    match kind
    case DRAM_LOAD => op.V_RD_DRAM? && hi == if At(events, lo + 1, V_WR) then lo + 2 else lo + 1
    case MAT_LOAD => op.M_RD_DRAM? && At(events, lo + 1, M_WR) && hi == lo + 2
    case DRAM_STORE =>
      (op.V_WR_DRAM? && hi == lo + 1) || (op.V_RD? && At(events, lo + 1, V_WR_DRAM) && hi == lo + 2)
    case VREG_LD =>
      LoadsScalar(events[lo]) && At(events, lo + 1, V_WR) &&
      hi == if events[lo].uses == [] && At(events, lo + 2, V_WR) then lo + 3 else lo + 2
    case VREG_MOVE => op.V_RD? && !LoadsScalar(events[lo]) && At(events, lo + 1, V_WR) && hi == lo + 2
    case M_ACC => op.M_RD? && At(events, lo + 1, M_WR) && events[lo + 1].defs != [] && hi == lo + 2
    case K_MV_MUL => exists j :: Product(events, lo, j, hi)
    case VV_BINOP => op.V_RD? && exists j :: Binary(events, lo, j, hi)
    case V_UNARY => (exists j :: Unary(events, lo, j, hi)) || (op.V_GELU? && Absorbs(events, lo, hi, IsMove))
    case LAYERNORM => op.V_FUNC_LAYERNORM? && Absorbs(events, lo, hi, FollowsVFunc)
    case SOFTMAX => op.V_FUNC_SOFTMAX? && Absorbs(events, lo, hi, FollowsVFunc)
    case V_FUNC => op.V_FUNC_OTHER? && Absorbs(events, lo, hi, FollowsVFunc)
    case K_V_WR => op.V_WR? && hi == lo + 1
    case K_M_RD => op.M_RD? && MRF in events[lo].defs && hi == lo + 1
    case K_S_WR => op.S_WR? && hi == lo + 1
    case Single(o) => o == op && Alone(events, lo) && hi == lo + 1
  }

  // ---- Every group has the shape of its kind ----

  lemma {:induction false} SkipIs(events: seq<Event>, a: nat, b: nat, test: OpName -> bool)
    requires Run(events, a, b, test) && Stops(events, b, test)
    ensures Skip(events, a, test) == b
    decreases b - a
  {
    if a < b { SkipIs(events, a + 1, b, test); }
  }

  lemma {:induction false} SkipRuns(events: seq<Event>, a: nat, test: OpName -> bool)
    requires a <= |events|
    ensures var b := Skip(events, a, test); Run(events, a, b, test) && Stops(events, b, test)
  {
  }

  lemma DramShape(events: seq<Event>, i: nat, row: int)
    requires i < |events| && DramPatterns(events, i, row).Some?
    ensures var g := DramPatterns(events, i, row).value; Shape(events, i, g.next, g.op.kind)
  {
    hide NonPipe, DramOnly, Alone;
  }

  lemma RegisterShape(events: seq<Event>, i: nat, row: int)
    requires i < |events| && RegisterPatterns(events, i, row).Some?
    ensures var g := RegisterPatterns(events, i, row).value; Shape(events, i, g.next, g.op.kind)
  {
    hide NonPipe, Alone;
  }

  /** A product's group starts at its first operand load and ends behind its last store. */
  lemma ProductMatched(events: seq<Event>, i: nat, row: int, j: nat, k: nat)
    requires Product(events, i, j, k)
    ensures var g := MatrixPattern(events, i, row); g.Some? && g.value.op.kind.K_MV_MUL? && g.value.next == k
  {
    hide StoreDefs, LoadUses, Skip;
    if events[i].op.V_RD? { SkipIs(events, i + 1, j, IsVRd); }
    SkipIs(events, j + 1, k, IsVWr);
  }

  lemma MatrixShape(events: seq<Event>, i: nat, row: int)
    requires i < |events| && MatrixPattern(events, i, row).Some?
    ensures var g := MatrixPattern(events, i, row).value;
            g.op.kind.K_MV_MUL? && exists j :: Product(events, i, j, g.next)
  {
    hide StoreDefs, LoadUses, Skip;
    var j := if events[i].op.V_RD? then Skip(events, i + 1, IsVRd) else i;
    if events[i].op.V_RD? { SkipRuns(events, i + 1, IsVRd); }
    SkipRuns(events, j + 1, IsVWr);
    assert Product(events, i, j, MatrixPattern(events, i, row).value.next);
  }

  lemma BinaryMatched(events: seq<Event>, i: nat, row: int, j: nat, k: nat)
    requires Binary(events, i, j, k)
    ensures var g := BinaryPattern(events, i, row); g.Some? && g.value.op.kind.VV_BINOP? && g.value.next == k
  {
    hide StoreDefs, LoadUses, Skip;
    SkipIs(events, i + 1, j, IsLoad);
    SkipIs(events, j + 1, k, IsVWr);
  }

  lemma BinaryShape(events: seq<Event>, i: nat, row: int)
    requires i < |events| && BinaryPattern(events, i, row).Some?
    ensures var g := BinaryPattern(events, i, row).value;
            g.op.kind.VV_BINOP? && exists j :: Binary(events, i, j, g.next)
  {
    hide StoreDefs, LoadUses, Skip;
    var j := Skip(events, i + 1, IsLoad);
    SkipRuns(events, i + 1, IsLoad);
    SkipRuns(events, j + 1, IsVWr);
    assert Binary(events, i, j, BinaryPattern(events, i, row).value.next);
  }

  lemma UnaryMatched(events: seq<Event>, i: nat, row: int, j: nat, k: nat)
    requires Unary(events, i, j, k)
    ensures var g := UnaryPattern(events, i, row); g.Some? && g.value.op.kind.V_UNARY? && g.value.next == k
  {
    hide StoreDefs, LoadUses, Skip;
    SkipIs(events, i + 1, j, IsUnary);
    SkipIs(events, j, k, IsVWr);
  }

  lemma UnaryShape(events: seq<Event>, i: nat, row: int)
    requires i < |events| && UnaryPattern(events, i, row).Some?
    ensures var g := UnaryPattern(events, i, row).value;
            g.op.kind.V_UNARY? && exists j :: Unary(events, i, j, g.next)
  {
    hide StoreDefs, LoadUses, Skip;
    var j := Skip(events, i + 1, IsUnary);
    SkipRuns(events, i + 1, IsUnary);
    SkipRuns(events, j, IsVWr);
    assert Unary(events, i, j, UnaryPattern(events, i, row).value.next);
  }

  lemma FunctionShape(events: seq<Event>, i: nat, row: int)
    requires i < |events| && FunctionPatterns(events, i, row).Some?
    ensures var g := FunctionPatterns(events, i, row).value;
            Shape(events, i, g.next, g.op.kind) && FunctionGroup(events, i, g.next)
  {
    hide AllDefs, AllUses, Skip, Alone;
    SkipRuns(events, i + 1, FollowsVFunc);
    SkipRuns(events, i + 1, IsMove);
  }

  lemma SingleShape(events: seq<Event>, i: nat, row: int)
    requires i < |events| && DramPatterns(events, i, row).None? && RegisterPatterns(events, i, row).None?
    requires MatrixPattern(events, i, row).None? && BinaryPattern(events, i, row).None?
    requires UnaryPattern(events, i, row).None? && FunctionPatterns(events, i, row).None?
    ensures var g := SingleInstruction(events, i, row); Shape(events, i, g.next, g.op.kind)
  {
    hide NonPipe, DramOnly, AllDefs, AllUses, Skip, MatrixPattern, BinaryPattern, UnaryPattern;
    if events[i].op.MV_MUL? { LoneProduct(events, i, row); }
    if events[i].op.V_RD? {
      forall j: nat, k: nat | true
        ensures !Product(events, i, j, k) && !Binary(events, i, j, k) && !Unary(events, i, j, k)
      {
        if Product(events, i, j, k) { ProductMatched(events, i, row, j, k); }
        if Binary(events, i, j, k) { BinaryMatched(events, i, row, j, k); }
        if Unary(events, i, j, k) { UnaryMatched(events, i, row, j, k); }
      }
    }
  }

  lemma LoneProduct(events: seq<Event>, i: nat, row: int)
    requires i < |events| && events[i].op.MV_MUL?
    ensures MatrixPattern(events, i, row).Some?
  {
    SkipRuns(events, i + 1, IsVWr);
    ProductMatched(events, i, row, i, Skip(events, i + 1, IsVWr));
  }

  /** The kind of a group tells its operations, and that it could not have been longer. */
  lemma GroupHasShape(events: seq<Event>, i: nat, row: int)
    requires i < |events|
    ensures var g := Group(events, i, row); Shape(events, i, g.next, g.op.kind)
  {
    hide Shape, DramPatterns, RegisterPatterns, MatrixPattern, BinaryPattern, UnaryPattern, FunctionPatterns,
      SingleInstruction;
    if DramPatterns(events, i, row).Some? { DramShape(events, i, row); }
    else if RegisterPatterns(events, i, row).Some? { RegisterShape(events, i, row); }
    else if MatrixPattern(events, i, row).Some? { ProductShaped(events, i, row); }
    else if BinaryPattern(events, i, row).Some? { BinaryShaped(events, i, row); }
    else if UnaryPattern(events, i, row).Some? { UnaryShaped(events, i, row); }
    else if FunctionPatterns(events, i, row).Some? { FunctionShape(events, i, row); }
    else { SingleShape(events, i, row); }
  }

  lemma ProductShaped(events: seq<Event>, i: nat, row: int)
    requires i < |events| && MatrixPattern(events, i, row).Some?
    ensures var g := MatrixPattern(events, i, row).value; Shape(events, i, g.next, g.op.kind)
  {
    hide MatrixPattern;
    MatrixShape(events, i, row);
  }

  lemma BinaryShaped(events: seq<Event>, i: nat, row: int)
    requires i < |events| && BinaryPattern(events, i, row).Some? && DramPatterns(events, i, row).None?
    ensures var g := BinaryPattern(events, i, row).value; Shape(events, i, g.next, g.op.kind)
  {
    BinaryShape(events, i, row);
    hide NonPipe, DramOnly, StoreDefs, LoadUses, Skip;
  }

  lemma UnaryShaped(events: seq<Event>, i: nat, row: int)
    requires i < |events| && UnaryPattern(events, i, row).Some?
    ensures var g := UnaryPattern(events, i, row).value; Shape(events, i, g.next, g.op.kind)
  {
    hide UnaryPattern;
    UnaryShape(events, i, row);
  }

  // ---- And no other shape fits ----

  lemma DramMatched(events: seq<Event>, i: nat, row: int, hi: nat, kind: Kind)
    requires Shape(events, i, hi, kind) && (kind.DRAM_LOAD? || kind.MAT_LOAD? || kind.DRAM_STORE?)
    ensures var g := DramPatterns(events, i, row); g.Some? && g.value.op.kind == kind && g.value.next == hi
  {
    hide NonPipe, DramOnly;
  }

  lemma RegisterMatched(events: seq<Event>, i: nat, row: int, hi: nat)
    requires Shape(events, i, hi, VREG_LD)
    ensures DramPatterns(events, i, row).None?
    ensures var g := RegisterPatterns(events, i, row); g.Some? && g.value.op.kind.VREG_LD? && g.value.next == hi
  {
    hide NonPipe, DramOnly;
  }

  /** A V_RD directly followed by neither kind of store matches none of the first two families. */
  lemma NotEarlier(events: seq<Event>, i: nat, row: int)
    requires i < |events| && !events[i].op.V_RD_DRAM? && !events[i].op.V_WR_DRAM? && !events[i].op.M_RD_DRAM?
    requires !events[i].op.M_RD? && (events[i].op.V_RD? ==> !At(events, i + 1, V_WR) && !At(events, i + 1, V_WR_DRAM))
    ensures DramPatterns(events, i, row).None? && RegisterPatterns(events, i, row).None?
  {
    hide NonPipe, DramOnly;
  }

  lemma ProductIsGroup(events: seq<Event>, i: nat, row: int, j: nat, hi: nat)
    requires Product(events, i, j, hi)
    ensures var g := Group(events, i, row); g.op.kind.K_MV_MUL? && g.next == hi
  {
    assert i < j ==> events[i + 1].op.V_RD? || events[i + 1].op.MV_MUL?;
    NotEarlier(events, i, row);
    ProductMatched(events, i, row, j, hi);
    hide DramPatterns, RegisterPatterns, MatrixPattern, BinaryPattern, UnaryPattern, FunctionPatterns,
      SingleInstruction;
  }

  lemma NotProduct(events: seq<Event>, i: nat, row: int)
    requires i < |events| && forall j: nat, k: nat :: !Product(events, i, j, k)
    ensures MatrixPattern(events, i, row).None?
  {
    if MatrixPattern(events, i, row).Some? { MatrixShape(events, i, row); }
  }

  lemma NotBinary(events: seq<Event>, i: nat, row: int)
    requires i < |events| && forall j: nat, k: nat :: !Binary(events, i, j, k)
    ensures BinaryPattern(events, i, row).None?
  {
    if BinaryPattern(events, i, row).Some? { BinaryShape(events, i, row); }
  }

  lemma NotUnary(events: seq<Event>, i: nat, row: int)
    requires i < |events| && forall j: nat, k: nat :: !Unary(events, i, j, k)
    ensures UnaryPattern(events, i, row).None?
  {
    if UnaryPattern(events, i, row).Some? { UnaryShape(events, i, row); }
  }

  /** Whatever begins with loads is decided by the first operation that is none. */
  lemma KindsApart(events: seq<Event>, i: nat, j: nat, k: nat, j2: nat, k2: nat)
    ensures !(Product(events, i, j, k) && Binary(events, i, j2, k2))
    ensures !(Product(events, i, j, k) && Unary(events, i, j2, k2))
    ensures !(Binary(events, i, j, k) && Unary(events, i, j2, k2))
  {
    if Unary(events, i, j2, k2) {
      assert IsUnary(events[i + 1].op);
      assert Product(events, i, j, k) && i + 1 < j ==> IsVRd(events[i + 1].op);
      assert Binary(events, i, j, k) && i + 1 < j ==> IsLoad(events[i + 1].op);
    }
  }

  lemma BinaryIsGroup(events: seq<Event>, i: nat, row: int, j: nat, hi: nat)
    requires Binary(events, i, j, hi) && events[i].op.V_RD?
    ensures var g := Group(events, i, row); g.op.kind.VV_BINOP? && g.next == hi
  {
    assert IsLoad(events[i + 1].op) || IsBinary(events[i + 1].op);
    NotEarlier(events, i, row);
    forall j2: nat, k2: nat | true ensures !Product(events, i, j2, k2) { KindsApart(events, i, j2, k2, j, hi); }
    NotProduct(events, i, row);
    BinaryMatched(events, i, row, j, hi);
    hide DramPatterns, RegisterPatterns, MatrixPattern, BinaryPattern, UnaryPattern, FunctionPatterns,
      SingleInstruction;
  }

  lemma UnaryIsGroup(events: seq<Event>, i: nat, row: int, j: nat, hi: nat)
    requires Unary(events, i, j, hi)
    ensures var g := Group(events, i, row); g.op.kind.V_UNARY? && g.next == hi
  {
    assert IsUnary(events[i + 1].op);
    NotEarlier(events, i, row);
    forall j2: nat, k2: nat | true ensures !Product(events, i, j2, k2) { KindsApart(events, i, j2, k2, j, hi); }
    forall j2: nat, k2: nat | true ensures !Binary(events, i, j2, k2) { KindsApart(events, i, j2, k2, j, hi); }
    NotProduct(events, i, row);
    NotBinary(events, i, row);
    UnaryMatched(events, i, row, j, hi);
    hide DramPatterns, RegisterPatterns, MatrixPattern, BinaryPattern, UnaryPattern, FunctionPatterns,
      SingleInstruction;
  }

  /** An operation that begins neither with a load nor as a product. */
  lemma NoLoadPattern(events: seq<Event>, i: nat, row: int)
    requires i < |events| && !IsLoad(events[i].op) && !events[i].op.MV_MUL?
    ensures MatrixPattern(events, i, row).None? && BinaryPattern(events, i, row).None?
    ensures UnaryPattern(events, i, row).None?
  {
    hide Skip;
  }

  lemma FunctionIsGroup(events: seq<Event>, i: nat, row: int, hi: nat)
    requires FunctionGroup(events, i, hi)
    ensures var g := Group(events, i, row);
            g.next == hi && Shape(events, i, hi, g.op.kind) &&
            g.op.kind == if events[i].op.V_GELU? then V_UNARY else if events[i].op.V_FUNC_LAYERNORM? then LAYERNORM
                         else if events[i].op.V_FUNC_SOFTMAX? then SOFTMAX else V_FUNC
  {
    NotEarlier(events, i, row);
    NoLoadPattern(events, i, row);
    if IsVFunc(events[i].op) { SkipIs(events, i + 1, hi, FollowsVFunc); } else { SkipIs(events, i + 1, hi, IsMove); }
    hide DramPatterns, RegisterPatterns, MatrixPattern, BinaryPattern, UnaryPattern, SingleInstruction, AllDefs,
      AllUses, Skip, Alone;
    GroupHasShape(events, i, row);
  }

  predicate LastFamily(kind: Kind)
  {
    kind.VREG_MOVE? || kind.K_V_WR? || kind.K_M_RD? || kind.K_S_WR? || kind.Single?
  }

  /** One of the last family: nothing before it matches. */
  lemma SingleIsGroup(events: seq<Event>, i: nat, row: int, hi: nat, kind: Kind)
    requires AllShaped(events) && Shape(events, i, hi, kind) && LastFamily(kind)
    ensures var g := Group(events, i, row); g.op.kind == kind && g.next == hi
  {
    SmallPatterns(events, i, row, hi, kind);
    LoadPatterns(events, i, row, hi, kind);
    SingleMatched(events, i, row, hi, kind);
    hide *;
    LastResort(events, i, row);
  }

  lemma LastResort(events: seq<Event>, i: nat, row: int)
    requires i < |events| && DramPatterns(events, i, row).None? && RegisterPatterns(events, i, row).None?
    requires MatrixPattern(events, i, row).None? && BinaryPattern(events, i, row).None?
    requires UnaryPattern(events, i, row).None? && FunctionPatterns(events, i, row).None?
    ensures Group(events, i, row) == SingleInstruction(events, i, row)
  {
    hide DramPatterns, RegisterPatterns, MatrixPattern, BinaryPattern, UnaryPattern, FunctionPatterns,
      SingleInstruction;
  }

  lemma SingleMatched(events: seq<Event>, i: nat, row: int, hi: nat, kind: Kind)
    requires Shape(events, i, hi, kind) && LastFamily(kind)
    ensures var g := SingleInstruction(events, i, row); g.op.kind == kind && g.next == hi
  {
    hide NonPipe;
  }

  lemma LoadPatterns(events: seq<Event>, i: nat, row: int, hi: nat, kind: Kind)
    requires Shape(events, i, hi, kind) && LastFamily(kind)
    ensures MatrixPattern(events, i, row).None? && BinaryPattern(events, i, row).None?
    ensures UnaryPattern(events, i, row).None? && FunctionPatterns(events, i, row).None?
  {
    hide MatrixPattern, BinaryPattern, UnaryPattern, AllDefs, AllUses, Skip;
    if events[i].op.V_RD? {
      if kind.VREG_MOVE? { NothingOverStore(events, i); }
      NotProduct(events, i, row);
      NotBinary(events, i, row);
      NotUnary(events, i, row);
    } else {
      NoLoadPattern(events, i, row);
    }
  }

  lemma NothingOverStore(events: seq<Event>, i: nat)
    requires i < |events| && events[i].op.V_RD? && At(events, i + 1, V_WR)
    ensures forall j: nat, k: nat :: !Product(events, i, j, k) && !Binary(events, i, j, k) && !Unary(events, i, j, k)
  {
    forall j: nat, k: nat | true
      ensures !Product(events, i, j, k) && !Binary(events, i, j, k) && !Unary(events, i, j, k)
    {
      assert events[i + 1].op.V_WR?;
    }
  }

  lemma SmallPatterns(events: seq<Event>, i: nat, row: int, hi: nat, kind: Kind)
    requires AllShaped(events) && Shape(events, i, hi, kind) && LastFamily(kind)
    ensures DramPatterns(events, i, row).None? && RegisterPatterns(events, i, row).None?
  {
    hide NonPipe, DramOnly;
    if i + 1 < |events| { assert ShapedDefs(events[i + 1]); }
    hide AllShaped;
  }

  /** The shapes are exclusive and complete: the group at an index has a kind and an end if and only if they fit. */
  lemma GroupIff(events: seq<Event>, i: nat, row: int, hi: nat, kind: Kind)
    requires AllShaped(events) && i < |events|
    ensures var g := Group(events, i, row); g.op.kind == kind && g.next == hi <==> Shape(events, i, hi, kind)
  {
    GroupHasShape(events, i, row);
    if Shape(events, i, hi, kind) { ShapeIsGroup(events, i, row, hi, kind); }
  }

  lemma ShapeIsGroup(events: seq<Event>, i: nat, row: int, hi: nat, kind: Kind)
    requires AllShaped(events) && Shape(events, i, hi, kind)
    ensures var g := Group(events, i, row); g.op.kind == kind && g.next == hi
  {
    hide AllShaped, Group, Alone;
    match kind
    case DRAM_LOAD => FirstFamily(events, i, row, hi, kind);
    case MAT_LOAD => FirstFamily(events, i, row, hi, kind);
    case DRAM_STORE => FirstFamily(events, i, row, hi, kind);
    case VREG_LD => SecondFamily(events, i, row, hi);
    case M_ACC => NoAccumulation(events, i);
    case K_MV_MUL => var j :| Product(events, i, j, hi); ProductIsGroup(events, i, row, j, hi);
    case VV_BINOP => var j :| Binary(events, i, j, hi); BinaryIsGroup(events, i, row, j, hi);
    case V_UNARY =>
      if events[i].op.V_GELU? {
        FunctionIsGroup(events, i, row, hi);
      } else {
        var j :| Unary(events, i, j, hi);
        UnaryIsGroup(events, i, row, j, hi);
      }
    case LAYERNORM => FunctionIsGroup(events, i, row, hi);
    case SOFTMAX => FunctionIsGroup(events, i, row, hi);
    case V_FUNC => FunctionIsGroup(events, i, row, hi);
    case _ => SingleIsGroup(events, i, row, hi, kind);
  }

  lemma FirstFamily(events: seq<Event>, i: nat, row: int, hi: nat, kind: Kind)
    requires Shape(events, i, hi, kind) && (kind.DRAM_LOAD? || kind.MAT_LOAD? || kind.DRAM_STORE?)
    ensures var g := Group(events, i, row); g.op.kind == kind && g.next == hi
  {
    DramMatched(events, i, row, hi, kind);
    hide DramPatterns, RegisterPatterns, MatrixPattern, BinaryPattern, UnaryPattern, FunctionPatterns,
      SingleInstruction;
  }

  lemma SecondFamily(events: seq<Event>, i: nat, row: int, hi: nat)
    requires Shape(events, i, hi, VREG_LD)
    ensures var g := Group(events, i, row); g.op.kind.VREG_LD? && g.next == hi
  {
    RegisterMatched(events, i, row, hi);
    hide DramPatterns, RegisterPatterns, MatrixPattern, BinaryPattern, UnaryPattern, FunctionPatterns,
      SingleInstruction;
  }

  /** The accumulation pattern asks M_WR for a definition, which the tracer never gives it. */
  lemma NoAccumulation(events: seq<Event>, i: nat)
    requires AllShaped(events) && i + 1 < |events| && events[i + 1].op.M_WR?
    ensures events[i + 1].defs == []
  {
    assert ShapedDefs(events[i + 1]);
  }
}
