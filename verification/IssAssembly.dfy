/** The simulated instructions by mnemonic and operands: what an assembled word does, without its bit fields. */
module IssAssembly {
  import opened Arithmetic
  import opened Iss

  // ---- Assembler: formats R, I and U of section 2.2, opcodes of chapter 24 of the RISC-V Unprivileged ISA ----

  datatype RegOp = ADD | SUB | SLL | XOR | SRL | OR | AND | ADDW | SUBW | SLLW | SRLW | MULW

  datatype ImmOp = ADDI | XORI | ORI | ANDI | ADDIW

  datatype ShiftOp = SLLI | SRLI | SLLIW | SRLIW

  /** Operands as an assembler takes them: registers by number, immediates by value. */
  datatype Instr =
    | Lui(rd: nat, upper: nat)
    | Auipc(rd: nat, upper: nat)
    | Imm(immOp: ImmOp, rd: nat, rs1: nat, imm: int)
    | Shift(shiftOp: ShiftOp, rd: nat, rs1: nat, shamt: nat)
    | Reg(regOp: RegOp, rd: nat, rs1: nat, rs2: nat)

  predicate WordOp(op: ShiftOp)
  {
    op.SLLIW? || op.SRLIW?
  }

  predicate Valid(i: Instr)
  {
    i.rd < 32 &&
    match i
    case Lui(_, u) => u < 0x10_0000
    case Auipc(_, u) => u < 0x10_0000
    case Imm(_, _, rs1, imm) => rs1 < 32 && -0x800 <= imm < 0x800
    case Shift(op, _, rs1, shamt) => rs1 < 32 && shamt < if WordOp(op) then 32 else 64
    case Reg(_, _, rs1, rs2) => rs1 < 32 && rs2 < 32
  }

  function EncodeR(funct7: nat, f: Fields): nat
  {
    funct7 * 0x200_0000 + f.rs2 * 0x10_0000 + f.rs1 * 0x8000 + f.funct3 * 0x1000 + f.rd * 0x80 + f.opcode
  }

  function EncodeU(upper: nat, rd: nat, opcode: nat): nat
  {
    upper * 0x1000 + rd * 0x80 + opcode
  }

  function Encode(i: Instr): nat
  {
    match i
    case Lui(rd, u) => EncodeU(u, rd, 0x37)
    case Auipc(rd, u) => EncodeU(u, rd, 0x17)
    case Imm(ADDI, rd, rs1, imm) => EncodeI(imm, Fields(0x13, rd, 0, rs1, 0))
    case Imm(XORI, rd, rs1, imm) => EncodeI(imm, Fields(0x13, rd, 4, rs1, 0))
    case Imm(ORI, rd, rs1, imm) => EncodeI(imm, Fields(0x13, rd, 6, rs1, 0))
    case Imm(ANDI, rd, rs1, imm) => EncodeI(imm, Fields(0x13, rd, 7, rs1, 0))
    case Imm(ADDIW, rd, rs1, imm) => EncodeI(imm, Fields(0x1B, rd, 0, rs1, 0))
    case Shift(SLLI, rd, rs1, shamt) => EncodeI(shamt, Fields(0x13, rd, 1, rs1, 0))
    case Shift(SRLI, rd, rs1, shamt) => EncodeI(shamt, Fields(0x13, rd, 5, rs1, 0))
    case Shift(SLLIW, rd, rs1, shamt) => EncodeI(shamt, Fields(0x1B, rd, 1, rs1, 0))
    case Shift(SRLIW, rd, rs1, shamt) => EncodeI(shamt, Fields(0x1B, rd, 5, rs1, 0))
    case Reg(ADD, rd, rs1, rs2) => EncodeR(0, Fields(0x33, rd, 0, rs1, rs2))
    case Reg(SUB, rd, rs1, rs2) => EncodeR(0x20, Fields(0x33, rd, 0, rs1, rs2))
    case Reg(SLL, rd, rs1, rs2) => EncodeR(0, Fields(0x33, rd, 1, rs1, rs2))
    case Reg(XOR, rd, rs1, rs2) => EncodeR(0, Fields(0x33, rd, 4, rs1, rs2))
    case Reg(SRL, rd, rs1, rs2) => EncodeR(0, Fields(0x33, rd, 5, rs1, rs2))
    case Reg(OR, rd, rs1, rs2) => EncodeR(0, Fields(0x33, rd, 6, rs1, rs2))
    case Reg(AND, rd, rs1, rs2) => EncodeR(0, Fields(0x33, rd, 7, rs1, rs2))
    case Reg(ADDW, rd, rs1, rs2) => EncodeR(0, Fields(0x3B, rd, 0, rs1, rs2))
    case Reg(SUBW, rd, rs1, rs2) => EncodeR(0x20, Fields(0x3B, rd, 0, rs1, rs2))
    case Reg(SLLW, rd, rs1, rs2) => EncodeR(0, Fields(0x3B, rd, 1, rs1, rs2))
    case Reg(SRLW, rd, rs1, rs2) => EncodeR(0, Fields(0x3B, rd, 5, rs1, rs2))
    case Reg(MULW, rd, rs1, rs2) => EncodeR(1, Fields(0x3B, rd, 0, rs1, rs2))
  }

  // ---- The field decoders invert the formats ----

  lemma FieldsOfR(funct7: nat, f: Fields)
    requires FieldsFit(f) && funct7 < 0x80
    ensures var w := EncodeR(funct7, f);
            Opcode(w) == f.opcode && Rd(w) == f.rd && Funct3(w) == f.funct3 && Rs1(w) == f.rs1 && Rs2(w) == f.rs2 &&
            Funct7(w) == funct7
  {
    FieldsOfWord(EncodeR(funct7, f), funct7 * 0x20 + f.rs2, f);
    QuotientRemainder(funct7 * 0x20 + f.rs2, 0x20, funct7, f.rs2);
    QuotientRemainder(funct7, 0x80, 0, funct7);
    QuotientRemainder(EncodeR(funct7, f), 0x200_0000, funct7,
                      f.rs2 * 0x10_0000 + f.rs1 * 0x8000 + f.funct3 * 0x1000 + f.rd * 0x80 + f.opcode);
  }

  /** The fields below bit 20, whatever stands above them. */
  lemma FieldsOfWord(w: nat, top: nat, f: Fields)
    requires FieldsFit(f) && w == top * 0x10_0000 + f.rs1 * 0x8000 + f.funct3 * 0x1000 + f.rd * 0x80 + f.opcode
    ensures Opcode(w) == f.opcode && Rd(w) == f.rd && Funct3(w) == f.funct3 && Rs1(w) == f.rs1
    ensures w / 0x10_0000 == top
  {
    var r3 := top * 0x20 + f.rs1;
    var r2 := r3 * 8 + f.funct3;
    var r1 := r2 * 0x20 + f.rd;
    QuotientRemainder(w, 0x80, r1, f.opcode);
    QuotientRemainder(r1, 0x20, r2, f.rd);
    QuotientRemainder(w, 0x1000, r2, f.rd * 0x80 + f.opcode);
    QuotientRemainder(r2, 8, r3, f.funct3);
    QuotientRemainder(w, 0x8000, r3, f.funct3 * 0x1000 + f.rd * 0x80 + f.opcode);
    QuotientRemainder(r3, 0x20, top, f.rs1);
    QuotientRemainder(w, 0x10_0000, top, f.rs1 * 0x8000 + f.funct3 * 0x1000 + f.rd * 0x80 + f.opcode);
  }

  lemma FieldsOfI(imm: int, f: Fields)
    requires FieldsFit(f) && -0x800 <= imm < 0x800
    ensures var w := EncodeI(imm, f);
            Opcode(w) == f.opcode && Rd(w) == f.rd && Funct3(w) == f.funct3 && Rs1(w) == f.rs1 && ImmI(w) == imm
  {
    FieldsOfWord(EncodeI(imm, f), Bits(imm, 0x1000), f);
    DecodesI(imm, f);
  }

  /** A shift amount stands in the low bits of the immediate, under a zero funct7 field. */
  lemma FieldsOfShift(shamt: nat, f: Fields)
    requires FieldsFit(f) && shamt < 64
    ensures var w := EncodeI(shamt, f);
            Opcode(w) == f.opcode && Rd(w) == f.rd && Funct3(w) == f.funct3 && Rs1(w) == f.rs1 &&
            Shamt(w, 64) == shamt && Funct7(w) / 2 == 0 && (shamt < 32 ==> Shamt(w, 32) == shamt && Funct7(w) == 0)
  {
    var w := EncodeI(shamt, f);
    QuotientRemainder(shamt, 0x1000, 0, shamt);
    FieldsOfWord(w, shamt, f);
    QuotientRemainder(shamt, 64, 0, shamt);
    var low := f.rs1 * 0x8000 + f.funct3 * 0x1000 + f.rd * 0x80 + f.opcode;
    if shamt < 32 {
      QuotientRemainder(shamt, 32, 0, shamt);
      QuotientRemainder(w, 0x200_0000, 0, shamt * 0x10_0000 + low);
    } else {
      QuotientRemainder(w, 0x200_0000, 1, (shamt - 32) * 0x10_0000 + low);
    }
  }

  lemma FieldsOfU(upper: nat, rd: nat, opcode: nat)
    requires upper < 0x10_0000 && rd < 32 && opcode < 0x80
    ensures var w := EncodeU(upper, rd, opcode);
            Opcode(w) == opcode && Rd(w) == rd && w / 0x1000 == upper && ImmU(w) == Signed32(upper * 0x1000)
  {
    var w := EncodeU(upper, rd, opcode);
    QuotientRemainder(w, 0x80, upper * 0x20 + rd, opcode);
    QuotientRemainder(upper * 0x20 + rd, 0x20, upper, rd);
    QuotientRemainder(w, 0x1000, upper, rd * 0x80 + opcode);
    Immediates(w);
  }

  // ---- What the standard says each mnemonic does, sections 2.4, 5.2 and 7.1 ----

  function RegMeaning(op: RegOp, a: nat, b: nat): (r: nat)
    requires a < TWO64 && b < TWO64
    ensures r < TWO64
  {
    match op
    case ADD => Wrap(a + b)
    case SUB => Wrap(a - b)
    case SLL => Wrap(a * TwoTo(b % 64))
    case XOR => Ref64(LogicOp.XOR, a, b)
    case SRL => Shifted(a, TwoTo(b % 64))
    case OR => Ref64(LogicOp.OR, a, b)
    case AND => Ref64(LogicOp.AND, a, b)
    case ADDW => Wrap(Signed32(a + b))
    case SUBW => Wrap(Signed32(a - b))
    case SLLW => Wrap(Signed32(a * TwoTo(b % 32)))
    case SRLW => Wrap(Signed32(a % TWO32 / TwoTo(b % 32)))
    case MULW => Wrap(Signed32(a * b))
  }

  function ImmMeaning(op: ImmOp, a: nat, imm: int): (r: nat)
    requires a < TWO64
    ensures r < TWO64
  {
    match op
    case ADDI => Wrap(a + imm)
    case XORI => Ref64(LogicOp.XOR, a, Wrap(imm))
    case ORI => Ref64(LogicOp.OR, a, Wrap(imm))
    case ANDI => Ref64(LogicOp.AND, a, Wrap(imm))
    case ADDIW => Wrap(Signed32(a + imm))
  }

  function ShiftMeaning(op: ShiftOp, a: nat, shamt: nat): (r: nat)
    requires a < TWO64
    ensures r < TWO64
  {
    match op
    case SLLI => Wrap(a * TwoTo(shamt))
    case SRLI => Shifted(a, TwoTo(shamt))
    case SLLIW => Wrap(Signed32(a * TwoTo(shamt)))
    case SRLIW => Wrap(Signed32(a % TWO32 / TwoTo(shamt)))
  }

  /** The value the instruction gives its target register. */
  function Meaning(i: Instr, regs: seq<nat>, pc: nat): (r: nat)
    requires Valid(i) && Words64(regs)
    ensures r < TWO64
  {
    match i
    case Lui(_, u) => Wrap(Signed32(u * 0x1000))
    case Auipc(_, u) => Wrap(pc + Signed32(u * 0x1000))
    case Imm(op, _, rs1, imm) => ImmMeaning(op, regs[rs1], imm)
    case Shift(op, _, rs1, shamt) => ShiftMeaning(op, regs[rs1], shamt)
    case Reg(op, _, rs1, rs2) => RegMeaning(op, regs[rs1], regs[rs2])
  }

  /** The standard's registers after the instruction; x0 stays zero. */
  function After(i: Instr, regs: seq<nat>, pc: nat): (r: seq<nat>)
    requires Valid(i) && Words64(regs)
    ensures Words64(r)
  {
    if i.rd == 0 then regs else regs[i.rd := Meaning(i, regs, pc)]
  }

  /** The instruction is no right shift of the whole register that moves one of the high 32 bits into its result. */
  predicate Lossless(i: Instr, regs: seq<nat>)
    requires Valid(i) && |regs| == 32
  {
    match i
    case Shift(SRLI, rd, rs1, shamt) => rd == 0 || regs[rs1] < TWO32 || regs[rs1] < TwoTo(shamt)
    case Reg(SRL, rd, rs1, rs2) => rd == 0 || regs[rs1] < TWO32 || regs[rs1] < TwoTo(regs[rs2] % 64)
    case _ => true
  }

  // ---- Every assembled word does that ----

  lemma UpperMeans(i: Instr, regs: seq<nat>, pc: nat)
    requires Valid(i) && Words64(regs) && (i.Lui? || i.Auipc?)
    ensures var w := Encode(i);
            Simulated(w) && !RightShift(w) && Rd(w) == i.rd && RefRegs(regs, pc, w) == After(i, regs, pc)
  {
    hide Wrap, Signed32, Rd, Rs1, Rs2, Opcode, ImmU, EncodeU;
    FieldsOfU(i.upper, i.rd, if i.Lui? then 0x37 else 0x17);
  }

  lemma FieldIs(imm: int, f: Fields)
    requires FieldsFit(f) && -0x800 <= imm < 0x800
    ensures SignedField(EncodeI(imm, f) / 0x10_0000, TWO12) == imm
  {
    hide EncodeI, ImmI, SignedField;
    FieldsOfI(imm, f);
    Immediates(EncodeI(imm, f));
  }

  lemma ImmMeans(i: Instr, regs: seq<nat>, pc: nat)
    requires Valid(i) && Words64(regs) && i.Imm?
    ensures var w := Encode(i);
            Simulated(w) && !RightShift(w) && Rd(w) == i.rd && RefRegs(regs, pc, w) == After(i, regs, pc)
  {
    hide Wrap, Signed32, Rd, Rs1, Rs2, Opcode, Funct3, Funct7, ImmI, SignedField, Ref64, EncodeI;
    var f := Fields(if i.immOp.ADDIW? then 0x1B else 0x13, i.rd,
                    match i.immOp { case ADDI => 0 case XORI => 4 case ORI => 6 case ANDI => 7 case ADDIW => 0 },
                    i.rs1, 0);
    FieldsOfI(i.imm, f);
    FieldIs(i.imm, f);
  }

  lemma ShiftMeans(i: Instr, regs: seq<nat>, pc: nat)
    requires Valid(i) && Words64(regs) && i.Shift?
    ensures var w := Encode(i);
            Simulated(w) && Rd(w) == i.rd && RefRegs(regs, pc, w) == After(i, regs, pc) &&
            (RightShift(w) <==> i.shiftOp.SRLI?) &&
            (i.shiftOp.SRLI? ==> Rs1(w) == i.rs1 && Opcode(w) == OP_IMM && Shamt(w, 64) == i.shamt)
  {
    hide Wrap, Signed32, Rd, Rs1, Rs2, Opcode, Funct3, Funct7, SignedField, Shifted, EncodeI, TwoTo;
    var f := Fields(if WordOp(i.shiftOp) then 0x1B else 0x13, i.rd,
                    if i.shiftOp.SLLI? || i.shiftOp.SLLIW? then 1 else 5, i.rs1, 0);
    FieldsOfShift(i.shamt, f);
  }

  lemma RegMeans(i: Instr, regs: seq<nat>, pc: nat)
    requires Valid(i) && Words64(regs) && i.Reg?
    ensures var w := Encode(i);
            Simulated(w) && Rd(w) == i.rd && RefRegs(regs, pc, w) == After(i, regs, pc) && Opcode(w) != OP_IMM &&
            (RightShift(w) <==> i.regOp.SRL?) && Rs1(w) == i.rs1 && Rs2(w) == i.rs2
  {
    hide Wrap, Signed32, Rd, Rs1, Rs2, Opcode, Funct3, Funct7, SignedField, Ref64, Shifted, EncodeR, TwoTo;
    var op := i.regOp;
    var f := Fields(if op.ADDW? || op.SUBW? || op.SLLW? || op.SRLW? || op.MULW? then 0x3B else 0x33, i.rd,
                    match op {
                      case SLL => 1 case SLLW => 1 case XOR => 4 case SRL => 5 case SRLW => 5 case OR => 6
                      case AND => 7 case _ => 0
                    }, i.rs1, i.rs2);
    FieldsOfR(if op.SUB? || op.SUBW? then 0x20 else if op.MULW? then 1 else 0, f);
  }

  /** The reference step on an assembled word is the mnemonic's meaning on its operands. */
  lemma RefMeans(i: Instr, regs: seq<nat>, pc: nat)
    requires Valid(i) && Words64(regs)
    ensures var w := Encode(i);
            Simulated(w) && RefRegs(regs, pc, w) == After(i, regs, pc) &&
            (Rd(w) == 0 || RightAt(w, regs[Rs1(w)], regs[Rs2(w)]) <==> Lossless(i, regs))
  {
    hide Rd, Rs1, Rs2, Opcode, Simulated, RightShift, RefRegs, After, Encode, TwoTo;
    match i
    case Lui(_, _) => UpperMeans(i, regs, pc);
    case Auipc(_, _) => UpperMeans(i, regs, pc);
    case Imm(_, _, _, _) => ImmMeans(i, regs, pc);
    case Shift(_, _, _, _) => ShiftMeans(i, regs, pc);
    case Reg(_, _, _, _) => RegMeans(i, regs, pc);
  }

  /** The simulator's registers after an assembled word: the target holds the mnemonic's value modulo 2^64 if and only
      if no high bit is shifted into it, and all other registers are as they were. */
  lemma StepMeans(i: Instr, regs: seq<int>, ref: seq<nat>, pc: int, pc': nat)
    requires Valid(i) && RegsCongruent(regs, ref) && Congruent(pc, pc')
    ensures Simulated(Encode(i))
    ensures var after := StepRegs(regs, pc, Encode(i));
            after[0] == 0 && (forall r :: 0 < r < 32 && r != i.rd ==> after[r] == regs[r]) &&
            (RegsCongruent(after, After(i, ref, pc')) <==> Lossless(i, ref))
  {
    hide Encode, Simulated, Value, RefRegs, RightAt, Lossless, After;
    RefMeans(i, ref, pc');
    StepCongruentIff(regs, ref, pc, pc', Encode(i));
    TargetIs(i, regs, ref, pc, pc');
  }

  lemma TargetIs(i: Instr, regs: seq<int>, ref: seq<nat>, pc: int, pc': nat)
    requires Valid(i) && |regs| == 32 && Words64(ref) && Simulated(Encode(i))
    ensures Rd(Encode(i)) == i.rd
  {
    hide Encode, Simulated, RefRegs, After, Rd, RightShift;
    match i
    case Lui(_, _) => UpperMeans(i, ref, pc');
    case Auipc(_, _) => UpperMeans(i, ref, pc');
    case Imm(_, _, _, _) => ImmMeans(i, ref, pc');
    case Shift(_, _, _, _) => ShiftMeans(i, ref, pc');
    case Reg(_, _, _, _) => RegMeans(i, ref, pc');
  }

  // ---- Programs ----

  ghost predicate AllValid(prog: seq<Instr>)
  {
    forall k :: 0 <= k < |prog| ==> Valid(prog[k])
  }

  function Assemble(prog: seq<Instr>): (words: seq<nat>)
    ensures |words| == |prog| && forall k :: 0 <= k < |prog| ==> words[k] == Encode(prog[k])
  {
    seq(|prog|, k requires 0 <= k < |prog| => Encode(prog[k]))
  }

  /** The standard's registers after a straight-line program. */
  ghost function RunOf(prog: seq<Instr>, regs: seq<nat>, pc: nat): (r: seq<nat>)
    requires AllValid(prog) && Words64(regs)
    ensures Words64(r)
    decreases |prog|
  {
    if prog == [] then regs else RunOf(prog[1..], After(prog[0], regs, pc), Wrap(pc + 4))
  }

  /** No right shift of the program, as the standard runs it, loses a high bit. */
  ghost predicate AllLossless(prog: seq<Instr>, regs: seq<nat>, pc: nat)
    requires AllValid(prog) && Words64(regs)
    decreases |prog|
  {
    prog == [] ||
    (Lossless(prog[0], regs) && AllLossless(prog[1..], After(prog[0], regs, pc), Wrap(pc + 4)))
  }

  lemma AssembledWords(prog: seq<Instr>)
    requires AllValid(prog)
    ensures AllSimulated(Assemble(prog))
    ensures prog != [] ==> Assemble(prog)[1..] == Assemble(prog[1..]) && Assemble(prog)[0] == Encode(prog[0])
  {
    hide Encode, Simulated;
    forall k | 0 <= k < |prog| ensures Simulated(Encode(prog[k])) {
      RefMeans(prog[k], seq(32, r => 0), 0);
    }
  }

  /** A straight-line program runs on the simulator as its mnemonics say, modulo 2^64. */
  lemma {:induction false} ProgramRuns(prog: seq<Instr>, regs: seq<int>, ref: seq<nat>, pc: int, pc': nat)
    requires AllValid(prog) && RegsCongruent(regs, ref) && Congruent(pc, pc') && AllLossless(prog, ref, pc')
    ensures AllSimulated(Assemble(prog))
    ensures RegsCongruent(RunRegs(regs, pc, Assemble(prog)), RunOf(prog, ref, pc'))
    decreases |prog|
  {
    hide Encode, Simulated, Lossless, After, StepRegs, RegsCongruent, Assemble, Valid;
    AssembledWords(prog);
    HasRegs(regs, ref);
    if prog != [] {
      StepMeans(prog[0], regs, ref, pc, pc');
      WrappedSum(pc, pc', 4);
      ProgramRuns(prog[1..], StepRegs(regs, pc, Encode(prog[0])), After(prog[0], ref, pc'), pc + 4, Wrap(pc' + 4));
    }
  }

  /** Words as an assembler prints them. */
  lemma KnownWords()
    ensures Encode(Reg(SUB, 3, 1, 2)) == 0x4020_81B3 && Encode(Imm(ADDI, 1, 0, 5)) == 0x0050_0093
    ensures Encode(Lui(5, 0x12345)) == 0x1234_52B7 && Encode(Shift(SRLI, 1, 2, 4)) == 0x0041_5093
    ensures Encode(Reg(MULW, 3, 1, 2)) == 0x0220_81BB && Encode(Imm(ADDI, 2, 2, -16)) == 0xFF01_0113
  {
  }

  /** SUB x3, x1, x2 with 7 and 5 leaves 2. */
  lemma SubtractsSecondFromFirst(regs: seq<int>, pc: int)
    requires |regs| == 32 && regs[1] == 7 && regs[2] == 5
    ensures Simulated(0x4020_81B3) && StepRegs(regs, pc, 0x4020_81B3)[3] == 2
  {
    hide Logic, TwoTo, SextAt;
    FieldsOfR(0x20, Fields(0x33, 3, 0, 1, 2));
    KnownWords();
  }

  // ---- Bitwise operators ----

  /** AND and OR share out the bits of their operands, XOR is what OR has and AND has not. */
  lemma {:induction false} LogicShares(a: int, b: int)
    ensures Logic(LogicOp.AND, a, b) + Logic(LogicOp.OR, a, b) == a + b
    ensures Logic(LogicOp.XOR, a, b) == Logic(LogicOp.OR, a, b) - Logic(LogicOp.AND, a, b)
    decreases Size(a) + Size(b)
  {
    if Size(a) + Size(b) > 0 {
      LogicShares(a / 2, b / 2);
      LogicUnfolds(LogicOp.AND, a, b);
      LogicUnfolds(LogicOp.OR, a, b);
      LogicUnfolds(LogicOp.XOR, a, b);
    }
  }

  /** A number is what it has in common with itself, and with all ones. */
  lemma {:induction false} AndKeeps(a: int)
    ensures Logic(LogicOp.AND, a, a) == a && Logic(LogicOp.AND, a, -1) == a
    decreases Size(a)
  {
    if Size(a) > 0 {
      AndKeeps(a / 2);
      LogicUnfolds(LogicOp.AND, a, a);
      LogicUnfolds(LogicOp.AND, a, -1);
    }
  }
}
