/** The flat event trace: one event a dispatched instruction, with the resources it defines and
    uses, and the tracer object that records it. */
module EventTrace {
  import opened D = Device
  import opened Numbers
  import opened NpuDevice

  const OP_S_RD := 1
  const OP_V_RD_3D := 26
  const OP_SS_ADD := 44
  const OP_INST_ISSUE := 45

  /** MRF carries no coordinate in the tracer; the micro-op pass gives it one. */
  datatype Resource =
    | REG(r: nat)
    | SRF(i: nat)
    | VRF(bank: nat, off: nat)
    | DRAM(addr: nat)
    | Pipe
    | VpipeA
    | MRF
    | MRFRow(row: int)

  datatype OpName =
    | S_WR | S_RD | V_RD | M_RD | V_WR | M_WR | MV_MUL
    | VV_ADD | VV_A_SUB_B | VV_B_SUB_A | VV_MUL | VV_MAX | VV_MIN
    | V_SIGM | V_TANH | V_RELU | V_GELU | V_EXP
    | V_RD_INC | V_WR_INC | V_RD_DRAM | V_WR_DRAM | V_RD_DRAM_INC | V_WR_DRAM_INC
    | M_RD_DRAM | M_WR_DRAM | V_RD_3D | MV_MUL_INC
    | VV_ADD_INC | VV_MAX_INC | VV_MUL_INC | VV_A_SUB_B_INC | VV_B_SUB_A_INC
    | S_RECIP | S_SQRT | SS_MUL | SS_ADD | INST_ISSUE
    | V_FUNC_SOFTMAX | V_FUNC_LAYERNORM | V_FUNC_OTHER(sub: nat)
    | UNKNOWN(opcode: nat)

  datatype Event = Event(idx: nat, op: OpName, raw: nat, defs: seq<Resource>, uses: seq<Resource>)

  /** One call of the dispatcher. */
  datatype Call = Call(op: nat, opd0: nat, opd1: nat, full: nat)

  function OpcodeName(op: nat, opd0: nat): OpName
  {
    if op == OP_V_FUNC then
      if opd0 == SUB_SOFTMAX then V_FUNC_SOFTMAX
      else if opd0 == SUB_LAYERNORM then V_FUNC_LAYERNORM
      else V_FUNC_OTHER(opd0)
    else if op == OP_S_WR then S_WR
    else if op == OP_S_RD then S_RD
    else if op == OP_V_RD then V_RD
    else if op == OP_M_RD then M_RD
    else if op == OP_V_WR then V_WR
    else if op == OP_M_WR then M_WR
    else if op == OP_MV_MUL then MV_MUL
    else if op == OP_VV_ADD then VV_ADD
    else if op == OP_VV_A_SUB_B then VV_A_SUB_B
    else if op == OP_VV_B_SUB_A then VV_B_SUB_A
    else if op == OP_VV_MUL then VV_MUL
    else if op == OP_VV_MAX then VV_MAX
    else if op == OP_VV_MIN then VV_MIN
    else if op == OP_V_SIGM then V_SIGM
    else if op == OP_V_TANH then V_TANH
    else if op == OP_V_RELU then V_RELU
    else if op == OP_V_GELU then V_GELU
    else if op == OP_V_EXP then V_EXP
    else if op == OP_V_RD_INC then V_RD_INC
    else if op == OP_V_WR_INC then V_WR_INC
    else if op == OP_V_RD_DRAM then V_RD_DRAM
    else if op == OP_V_WR_DRAM then V_WR_DRAM
    else if op == OP_V_RD_DRAM_INC then V_RD_DRAM_INC
    else if op == OP_V_WR_DRAM_INC then V_WR_DRAM_INC
    else if op == OP_M_RD_DRAM then M_RD_DRAM
    else if op == OP_M_WR_DRAM then M_WR_DRAM
    else if op == OP_V_RD_3D then V_RD_3D
    else if op == OP_MV_MUL_INC then MV_MUL_INC
    else if op == OP_VV_ADD_INC then VV_ADD_INC
    else if op == OP_VV_MAX_INC then VV_MAX_INC
    else if op == OP_VV_MUL_INC then VV_MUL_INC
    else if op == OP_VV_A_SUB_B_INC then VV_A_SUB_B_INC
    else if op == OP_VV_B_SUB_A_INC then VV_B_SUB_A_INC
    else if op == OP_S_RECIP then S_RECIP
    else if op == OP_S_SQRT then S_SQRT
    else if op == OP_SS_MUL then SS_MUL
    else if op == OP_SS_ADD then SS_ADD
    else if op == OP_INST_ISSUE then INST_ISSUE
    else UNKNOWN(op)
  }

  /** The opcode a name stands for. */
  function CodeOf(name: OpName): nat
  {
    match name
    case S_WR => 0 case S_RD => 1 case V_RD => 2 case M_RD => 3 case V_WR => 5 case M_WR => 6 case MV_MUL => 7
    case VV_ADD => 8 case VV_A_SUB_B => 9 case VV_B_SUB_A => 10 case VV_MUL => 11 case VV_MAX => 15 case VV_MIN => 30
    case V_SIGM => 12 case V_TANH => 13 case V_RELU => 14 case V_GELU => 42 case V_EXP => 37
    case V_RD_INC => 16 case V_WR_INC => 17 case V_RD_DRAM => 20 case V_WR_DRAM => 21
    case V_RD_DRAM_INC => 22 case V_WR_DRAM_INC => 23 case M_RD_DRAM => 24 case M_WR_DRAM => 25 case V_RD_3D => 26
    case MV_MUL_INC => 27 case VV_ADD_INC => 18 case VV_MAX_INC => 19 case VV_MUL_INC => 31
    case VV_A_SUB_B_INC => 32 case VV_B_SUB_A_INC => 33
    case S_RECIP => 35 case S_SQRT => 38 case SS_MUL => 40 case SS_ADD => 44 case INST_ISSUE => 45
    case V_FUNC_SOFTMAX => 43 case V_FUNC_LAYERNORM => 43 case V_FUNC_OTHER(_) => 43
    case UNKNOWN(op) => op
  }

  function SubOf(name: OpName): nat
  {
    match name
    case V_FUNC_SOFTMAX => 0
    case V_FUNC_LAYERNORM => 1
    case V_FUNC_OTHER(sub) => sub
    case _ => 0
  }

  /** The instruction an increment variant repeats, by name. */
  function Repeats(name: OpName): Option<OpName>
  {
    match name
    case V_RD_INC => Some(V_RD)
    case V_WR_INC => Some(V_WR)
    case V_RD_DRAM_INC => Some(V_RD_DRAM)
    case V_WR_DRAM_INC => Some(V_WR_DRAM)
    case MV_MUL_INC => Some(MV_MUL)
    case VV_ADD_INC => Some(VV_ADD)
    case VV_MAX_INC => Some(VV_MAX)
    case VV_MUL_INC => Some(VV_MUL)
    case VV_A_SUB_B_INC => Some(VV_A_SUB_B)
    case VV_B_SUB_A_INC => Some(VV_B_SUB_A)
    case _ => None
  }

  /** An event's name tells its opcode and its function. */
  lemma NamesTell(op: nat, opd0: nat)
    ensures CodeOf(OpcodeName(op, opd0)) == op && (op == OP_V_FUNC ==> SubOf(OpcodeName(op, opd0)) == opd0)
  {
  }

  /** Every opcode that has a name is traced under it. */
  lemma NamesUsed(name: OpName, opd0: nat)
    requires !name.UNKNOWN? && !IsFunctionName(name)
    ensures OpcodeName(CodeOf(name), opd0) == name
  {
  }

  /** The device expands exactly the increment variants, each to the instruction its name repeats. */
  lemma IncrementsByName(op: nat, opd0: nat, z: nat)
    ensures match IncBase(op)
            case None => Repeats(OpcodeName(op, opd0)).None?
            case Some(b) => Repeats(OpcodeName(op, opd0)) == Some(OpcodeName(b, z))
  {
  }

  predicate IsFunctionName(name: OpName)
  {
    name.V_FUNC_SOFTMAX? || name.V_FUNC_LAYERNORM? || name.V_FUNC_OTHER?
  }

  predicate IsReduce(bank: nat)
  {
    bank == MEM_SPU_ADD_REDUCE || bank == MEM_SPU_MAX_REDUCE || bank == MEM_SPU_ABSMAX_REDUCE
  }

  /** Resources a dispatched instruction writes. */
  function Defs(x: Call): seq<Resource>
  {
    if x.op == OP_S_WR then [REG(x.opd0)]
    else if x.op == OP_V_RD then [Pipe, VpipeA]
    else if x.op == OP_M_RD then if x.opd0 == MEM_VEC_TO_MAT_ROW then [MRF] else [Pipe, VpipeA]
    else if x.op == OP_V_WR then
      if x.opd0 == MEM_VEC_TO_MAT_ROW then [VRF(MEM_VEC_TO_MAT_ROW, 0)]
      else if IsReduce(x.opd0) then [SRF(x.opd1)]
      else [VRF(x.opd0, x.opd1)]
    else if x.op == OP_MV_MUL || IsVV(x.op) || IsActivation(x.op) then [Pipe]
    else if x.op == OP_V_FUNC then (if x.opd0 == SUB_SOFTMAX || x.opd0 == SUB_LAYERNORM then [Pipe] else [])
    else if x.op == OP_V_RD_DRAM then [Pipe, VpipeA]
    else if x.op == OP_V_WR_DRAM || x.op == OP_M_WR_DRAM then [DRAM(x.full)]
    else if x.op == OP_M_RD_DRAM then [MRF]
    else if x.op == OP_SS_ADD || IsSpuFunc(x.op) then [SRF(x.opd1)]
    else []
  }

  /** Resources a dispatched instruction reads. */
  function Uses(x: Call): seq<Resource>
  {
    if x.op == OP_S_RD then [REG(x.opd0)]
    else if x.op == OP_V_RD then
      if x.opd0 == MEM_FILL then []
      else if x.opd0 == MEM_SPU_BROADCAST then [SRF(x.opd1)]
      else [VRF(x.opd0, x.opd1)]
    else if x.op == OP_V_WR then [Pipe]
    else if x.op == OP_M_WR then [MRF]
    else if x.op == OP_MV_MUL then [Pipe, MRF]
    else if IsVV(x.op) then [Pipe, VpipeA]
    else if IsActivation(x.op) then [Pipe]
    else if x.op == OP_V_FUNC then
      if x.opd0 == SUB_SOFTMAX then [Pipe]
      else if x.opd0 == SUB_LAYERNORM then [Pipe, VRF(5, 0), VRF(7, 0)]
      else []
    else if x.op == OP_V_RD_DRAM || x.op == OP_M_RD_DRAM then [DRAM(x.full)]
    else if x.op == OP_V_WR_DRAM then [Pipe]
    else if x.op == OP_M_WR_DRAM then [MRF]
    else if x.op == OP_SS_ADD || IsSpuFunc(x.op) then [SRF(x.opd0)]
    else []
  }

  function EventOf(idx: nat, raw: nat, x: Call): Event
  {
    Event(idx, OpcodeName(x.op, x.opd0), raw, Defs(x), Uses(x))
  }

  /** Events are numbered by position. */
  ghost predicate Numbered(events: seq<Event>)
  {
    forall i :: 0 <= i < |events| ==> events[i].idx == i
  }

  ghost predicate FromCall(e: Event, i: nat)
  {
    exists x :: e == EventOf(i, e.raw, x)
  }

  /** Every event comes from some dispatcher call. */
  ghost predicate Traced(events: seq<Event>)
  {
    forall i :: 0 <= i < |events| ==> FromCall(events[i], i)
  }

  /** Calls the dispatcher makes on itself while an increment variant runs. */
  function IncCalls(c: Config, d: Device, base: nat, opd0: nat, addr: nat, inc: nat, count: nat): seq<Call>
    decreases count
  {
    if count == 0 || d.fault then [] else
      var rest := IncCalls(c, ExecuteBase(c, d, base, opd0, 0, addr), base, opd0, addr + inc, inc, count - 1);
      [Call(base, opd0, 0, addr)] + rest
  }

  /** All dispatcher calls one instruction causes, the instruction itself first. */
  function CallsOf(c: Config, d: Device, x: Call): seq<Call>
  {
    match IncBase(x.op)
    case None => [x]
    case Some(base) => [x] + IncCalls(c, d, base, x.opd0, d.dramAddr, x.opd1, IncCount(d))
  }

  /** Dispatcher operands of an instruction word. */
  function CallOf(word: nat): Call
  {
    var op := word / 0x1000000 % 0x100;
    Call(op, word / 0x10000 % 0x100, word % 0x10000, if op >= 20 then word % 0x1000000 else 0)
  }

  /** The device after the words. */
  function PushAll(c: Config, d: Device, words: seq<nat>): Device
    decreases |words|
  {
    if words == [] then d else PushAll(c, Push(c, d, words[0]), words[1..])
  }

  /** All dispatcher calls made while the device runs the words. */
  function CallsOfRun(c: Config, d: Device, words: seq<nat>): seq<Call>
    decreases |words|
  {
    if words == [] then [] else CallsOf(c, d, CallOf(words[0])) + CallsOfRun(c, Push(c, d, words[0]), words[1..])
  }

  /** Events traced while the device runs the words. */
  function EventsOfRun(c: Config, d: Device, idx: nat, words: seq<nat>): seq<Event>
    decreases |words|
  {
    if words == [] then []
    else
      var es := EventsOf(idx, words[0], CallsOf(c, d, CallOf(words[0])));
      es + EventsOfRun(c, Push(c, d, words[0]), idx + |es|, words[1..])
  }

  function EventsOf(idx: nat, raw: nat, xs: seq<Call>): (es: seq<Event>)
    ensures |es| == |xs| && forall i :: 0 <= i < |xs| ==> es[i] == EventOf(idx + i, raw, xs[i])
  {
    seq(|xs|, i requires 0 <= i < |xs| => EventOf(idx + i, raw, xs[i]))
  }

  /** The tracer: it records each dispatch before delegating to the device. */
  class EventTracer {
    const inner: NpuDeviceMini
    var events: seq<Event>
    var eventIdx: nat
    var rawInst: nat

    ghost predicate Valid()
      reads this
    {
      eventIdx == |events| && Traced(events) && Numbered(events)
    }

    constructor (npu: NpuDeviceMini)
      ensures inner == npu && events == [] && Valid()
    {
      inner := npu;
      events, eventIdx, rawInst := [], 0, 0;
    }

    method Record(x: Call)
      requires Valid()
      modifies this
      ensures Valid() && rawInst == old(rawInst)
      ensures events == old(events) + [EventOf(|old(events)|, rawInst, x)]
    {
      hide OpcodeName, Defs, Uses;
      var e := EventOf(eventIdx, rawInst, x);
      assert FromCall(e, eventIdx);
      events := events + [e];
      eventIdx := eventIdx + 1;
    }

    /** Patched dispatch: same effect on the device, one event a dispatcher call. */
    method Execute(x: Call)
      requires Valid() && !inner.fault
      modifies this, inner
      ensures Valid()
      ensures inner.View() == D.Execute(inner.c, old(inner.View()), x.op, x.opd0, x.opd1, x.full)
      ensures events == old(events) + EventsOf(|old(events)|, old(rawInst), CallsOf(inner.c, old(inner.View()), x))
    {
      hide ExecuteBase, OpcodeName, Defs, Uses;
      ghost var before := events;
      Record(x);
      assert events == before + EventsOf(|before|, rawInst, [x]);
      match IncBase(x.op)
      case None => inner.ExecuteBase(x.op, x.opd0, x.opd1, x.full);
      case Some(base) =>
        var start, count := inner.dramAddr, IncCount(inner.View());
        ghost var calls := IncCalls(inner.c, inner.View(), base, x.opd0, start, x.opd1, count);
        ExecuteIncrements(base, x.opd0, start, x.opd1, count);
        EventsConcat(|before|, rawInst, [x], calls);
        if !inner.fault { inner.dramAddr := start + count * x.opd1; }
    }

    /** Patched push: it remembers the word for the events it causes. */
    method PushInstruction(inst: nat)
      requires Valid() && !inner.fault
      modifies this, inner
      ensures Valid() && inner.View() == Push(inner.c, old(inner.View()), inst)
      ensures events == old(events) + EventsOf(|old(events)|, inst, CallsOf(inner.c, old(inner.View()), CallOf(inst)))
    {
      hide D.Execute, CallsOf, EventsOf;
      rawInst := inst;
      Execute(CallOf(inst));
    }

    /** A whole program; an exception ends it.  The list grows by exactly the events of the calls made. */
    method RunProgram(words: seq<nat>) returns (done: nat)
      requires Valid() && !inner.fault
      modifies this, inner
      ensures Valid() && done <= |words| && (done < |words| ==> inner.fault)
      ensures inner.View() == PushAll(inner.c, old(inner.View()), words[..done])
      ensures events == old(events) + EventsOfRun(inner.c, old(inner.View()), |old(events)|, words[..done])
    {
      hide Push, CallsOf, EventsOf, CallOf, Traced, Numbered, PushAll, EventsOfRun;
      ghost var d0, before := inner.View(), events;
      done := 0;
      RunStarts(inner.c, d0, before, words);
      while done < |words| && !inner.fault
        invariant done <= |words| && Valid()
        invariant inner.View() == PushAll(inner.c, d0, words[..done])
        invariant events == before + EventsOfRun(inner.c, d0, |before|, words[..done])
      {
        RunNext(inner.c, d0, before, words, done);
        PushInstruction(words[done]);
        done := done + 1;
      }
    }

    method ExecuteIncrements(base: nat, opd0: nat, start: nat, inc: nat, count: nat)
      requires Valid() && !inner.fault
      modifies this, inner
      ensures Valid() && rawInst == old(rawInst) && inner.dramAddr == old(inner.View()).dramAddr
      ensures inner.View() == ExecuteInc(inner.c, old(inner.View()), base, opd0, start, inc, count)
      ensures events == old(events) +
        EventsOf(|old(events)|, old(rawInst), IncCalls(inner.c, old(inner.View()), base, opd0, start, inc, count))
    {
      hide EventOf, EventsOf, Traced, Numbered, ExecuteBase;
      EventsNone(|events|, rawInst);
      ghost var before := events;
      ghost var all := ExecuteInc(inner.c, inner.View(), base, opd0, start, inc, count);
      ghost var calls := IncCalls(inner.c, inner.View(), base, opd0, start, inc, count);
      ghost var made: seq<Call> := [];
      var v, addr := 0, start;
      while v < count && !inner.fault
        invariant v <= count && Valid() && rawInst == old(rawInst) && inner.dramAddr == old(inner.View()).dramAddr
        invariant addr == start + v * inc
        invariant all == ExecuteInc(inner.c, inner.View(), base, opd0, addr, inc, count - v)
        invariant calls == made + IncCalls(inner.c, inner.View(), base, opd0, addr, inc, count - v)
        invariant events == before + EventsOf(|before|, rawInst, made)
      {
        ghost var x := Call(base, opd0, 0, addr);
        EventsOne(|events|, rawInst, x);
        ghost var rest := IncCalls(inner.c, D.ExecuteBase(inner.c, inner.View(), base, opd0, 0, addr), base, opd0,
                                   addr + inc, inc, count - v - 1);
        assert made + ([x] + rest) == (made + [x]) + rest;
        Record(Call(base, opd0, 0, addr));
        EventsConcat(|before|, rawInst, made, [x]);
        BaseKeepsDramAddr(inner.c, inner.View(), base, opd0, 0, addr);
        inner.ExecuteBase(base, opd0, 0, addr);
        made := made + [x];
        v, addr := v + 1, addr + inc;
      }
      assert made + [] == made;
    }
  }

  /** One more word at the end of a run. */
  lemma {:induction false} RunAppend(c: Config, d: Device, idx: nat, words: seq<nat>, w: nat)
    ensures PushAll(c, d, words + [w]) == Push(c, PushAll(c, d, words), w)
    ensures var es, e := EventsOfRun(c, d, idx, words), PushAll(c, d, words);
            EventsOfRun(c, d, idx, words + [w]) == es + EventsOf(idx + |es|, w, CallsOf(c, e, CallOf(w)))
    decreases |words|
  {
    hide Push, CallsOf, EventsOf, CallOf;
    if words == [] {
      assert [] + [w] == [w] && [w][1..] == [];
      assert EventsOfRun(c, d, idx, [w]) == EventsOf(idx, w, CallsOf(c, d, CallOf(w))) + [];
      assert PushAll(c, d, [w]) == PushAll(c, Push(c, d, w), []);
    } else {
      assert (words + [w])[1..] == words[1..] + [w];
      var es := EventsOf(idx, words[0], CallsOf(c, d, CallOf(words[0])));
      RunAppend(c, Push(c, d, words[0]), idx + |es|, words[1..], w);
    }
  }

  lemma RunStarts(c: Config, d: Device, before: seq<Event>, words: seq<nat>)
    ensures PushAll(c, d, words[..0]) == d && before + EventsOfRun(c, d, |before|, words[..0]) == before
  {
  }

  lemma RunNext(c: Config, d: Device, before: seq<Event>, words: seq<nat>, n: nat)
    requires n < |words|
    ensures var e, es := PushAll(c, d, words[..n]), before + EventsOfRun(c, d, |before|, words[..n]);
            PushAll(c, d, words[..n + 1]) == Push(c, e, words[n]) &&
            before + EventsOfRun(c, d, |before|, words[..n + 1])
            == es + EventsOf(|es|, words[n], CallsOf(c, e, CallOf(words[n])))
  {
    hide Push, CallsOf, EventsOf, CallOf, PushAll, EventsOfRun;
    RunAppend(c, d, |before|, words[..n], words[n]);
    assert words[..n + 1] == words[..n] + [words[n]];
    var es, e := EventsOfRun(c, d, |before|, words[..n]), PushAll(c, d, words[..n]);
    var more := EventsOf(|before| + |es|, words[n], CallsOf(c, e, CallOf(words[n])));
    assert (before + es) + more == before + (es + more);
  }

  lemma EventsNone(idx: nat, raw: nat)
    ensures EventsOf(idx, raw, []) == []
  {
  }

  lemma EventsOne(idx: nat, raw: nat, x: Call)
    ensures EventsOf(idx, raw, [x]) == [EventOf(idx, raw, x)]
  {
  }

  lemma EventsConcat(idx: nat, raw: nat, a: seq<Call>, b: seq<Call>)
    ensures EventsOf(idx, raw, a + b) == EventsOf(idx, raw, a) + EventsOf(idx + |a|, raw, b)
  {
  }

  /** The auto-increment address belongs to the increment variants alone. */
  lemma BaseKeepsDramAddr(c: Config, d: Device, op: nat, opd0: nat, opd1: nat, full: nat)
    ensures ExecuteBase(c, d, op, opd0, opd1, full).dramAddr == d.dramAddr
  {
    hide DecodeFp16, Window, MaskedWindow, MatrixAt, RowsToMatrix, Sum, NpMax, Map, StoreLanes, Flatten, MatVec, Lanes,
      ActivateVec, SoftmaxVec, LayernormVec, RndVec, Overlay;
  }
}
