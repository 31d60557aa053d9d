/** The instruction-set simulator's integer registers: unbounded integers that must stay congruent to 64-bit ones. */
module Iss {
  import opened Arithmetic

  const TWO12: int := 0x1000
  const TWO31: int := 0x8000_0000
  const TWO32: int := 0x1_0000_0000
  const TWO64: int := 0x1_0000_0000_0000_0000

  /** Python's _sext: a value whose sign bit is set is or-ed with all ones above it. */
  function SextAt(val: int, half: nat): int
    requires half >= 1
  {
    if val / half % 2 == 1 then val % (2 * half) - 2 * half else val
  }

  // ---- Fields of an instruction word ----

  function Opcode(inst: nat): nat { inst % 0x80 }
  function Rd(inst: nat): (r: nat) ensures r < 32 { inst / 0x80 % 0x20 }
  function Funct3(inst: nat): nat { inst / 0x1000 % 8 }
  function Rs1(inst: nat): (r: nat) ensures r < 32 { inst / 0x8000 % 0x20 }
  function Rs2(inst: nat): (r: nat) ensures r < 32 { inst / 0x10_0000 % 0x20 }
  function Funct7(inst: nat): nat { inst / 0x200_0000 % 0x80 }

  /** The immediates as the simulator assembles them; the or-ed fields are disjoint, so they add. */
  function ImmI(inst: nat): int
  {
    SextAt(inst / 0x10_0000 % 0x1000, 0x800)
  }

  function ImmS(inst: nat): int
  {
    SextAt(inst / 0x80 % 0x20 + inst / 0x200_0000 % 0x40 * 0x20, 0x800)
  }

  function ImmB(inst: nat): int
  {
    SextAt(inst / 0x8000_0000 % 2 * 0x1000 + inst / 0x80 % 2 * 0x800 + inst / 0x200_0000 % 0x40 * 0x20 +
           inst / 0x100 % 0x10 * 2, 0x1000)
  }

  function ImmJ(inst: nat): int
  {
    SextAt(inst / 0x8000_0000 % 2 * 0x10_0000 + inst / 0x1000 % 0x100 * 0x1000 + inst / 0x10_0000 % 2 * 0x800 +
           inst / 0x20_0000 % 0x400 * 2, 0x10_0000)
  }

  function ImmU(inst: nat): int
  {
    SextAt(inst / 0x1000 % 0x10_0000 * 0x1000, TWO31)
  }

  // ---- Encodings of section 2.3 of the RISC-V Unprivileged ISA, 20191213 ----

  /** Low bits of an immediate in two's complement. */
  function Bits(imm: int, modulus: nat): (u: nat)
    requires modulus >= 1
    ensures u < modulus
  {
    imm % modulus
  }

  /** The remaining fields of a word around an immediate. */
  datatype Fields = Fields(opcode: nat, rd: nat, funct3: nat, rs1: nat, rs2: nat)

  predicate FieldsFit(f: Fields)
  {
    f.opcode < 0x80 && f.rd < 0x20 && f.funct3 < 8 && f.rs1 < 0x20 && f.rs2 < 0x20
  }

  function EncodeI(imm: int, f: Fields): nat
  {
    Bits(imm, 0x1000) * 0x10_0000 + f.rs1 * 0x8000 + f.funct3 * 0x1000 + f.rd * 0x80 + f.opcode
  }

  function EncodeS(imm: int, f: Fields): nat
  {
    var u := Bits(imm, 0x1000);
    u / 0x20 * 0x200_0000 + f.rs2 * 0x10_0000 + f.rs1 * 0x8000 + f.funct3 * 0x1000 + u % 0x20 * 0x80 + f.opcode
  }

  function EncodeB(imm: int, f: Fields): nat
  {
    var u := Bits(imm, 0x2000);
    u / 0x1000 * 0x8000_0000 + u / 0x20 % 0x40 * 0x200_0000 + f.rs2 * 0x10_0000 + f.rs1 * 0x8000 + f.funct3 * 0x1000
    + u / 2 % 0x10 * 0x100 + u / 0x800 % 2 * 0x80 + f.opcode
  }

  function EncodeJ(imm: int, f: Fields): nat
  {
    var u := Bits(imm, 0x20_0000);
    u / 0x10_0000 * 0x8000_0000 + u / 2 % 0x400 * 0x20_0000 + u / 0x800 % 2 * 0x10_0000 + u / 0x1000 % 0x100 * 0x1000
    + f.rd * 0x80 + f.opcode
  }

  lemma SextInverts(imm: int, half: int)
    requires half >= 1 && -half <= imm < half
    ensures SextAt(Bits(imm, 2 * half), half) == imm
  {
    if imm >= 0 {
      QuotientRemainder(imm, 2 * half, 0, imm);
      QuotientRemainder(imm, half, 0, imm);
    } else {
      QuotientRemainder(imm, 2 * half, -1, imm + 2 * half);
      QuotientRemainder(imm + 2 * half, half, 1, imm + half);
      QuotientRemainder(imm + 2 * half, 2 * half, 0, imm + 2 * half);
    }
  }

  lemma DecodesI(imm: int, f: Fields)
    requires FieldsFit(f) && -0x800 <= imm < 0x800
    ensures ImmI(EncodeI(imm, f)) == imm
  {
    var u := Bits(imm, 0x1000);
    QuotientRemainder(EncodeI(imm, f), 0x10_0000, u, f.rs1 * 0x8000 + f.funct3 * 0x1000 + f.rd * 0x80 + f.opcode);
    SextInverts(imm, 0x800);
  }

  /** The store immediate loses its top bit: it decodes exactly the offsets that are not negative. */
  lemma DecodesSIffNotNegative(imm: int, f: Fields)
    requires FieldsFit(f) && -0x800 <= imm < 0x800
    ensures ImmS(EncodeS(imm, f)) == imm <==> imm >= 0
    ensures imm < 0 ==> ImmS(EncodeS(imm, f)) == imm + 0x800
  {
    hide Bits;
    var u := Bits(imm, 0x1000);
    WordS(u / 0x20, f, u % 0x20);
    LowElevenBits(imm);
  }

  lemma WordS(high: nat, f: Fields, low: nat)
    requires FieldsFit(f) && high < 0x80 && low < 0x20
    ensures var w := high * 0x200_0000 + f.rs2 * 0x10_0000 + f.rs1 * 0x8000 + f.funct3 * 0x1000 + low * 0x80 + f.opcode;
            w / 0x200_0000 == high && w / 0x80 % 0x20 == low
  {
    var w := high * 0x200_0000 + f.rs2 * 0x10_0000 + f.rs1 * 0x8000 + f.funct3 * 0x1000 + low * 0x80 + f.opcode;
    var upper := high * 0x2000 + f.rs2 * 0x100 + f.rs1 * 8 + f.funct3;
    QuotientRemainder(w, 0x200_0000, high,
                      f.rs2 * 0x10_0000 + f.rs1 * 0x8000 + f.funct3 * 0x1000 + low * 0x80 + f.opcode);
    QuotientRemainder(w, 0x80, upper * 0x20 + low, f.opcode);
    QuotientRemainder(upper * 0x20 + low, 0x20, upper, low);
  }

  /** What is left of a twelve-bit immediate without its sign bit. */
  lemma LowElevenBits(imm: int)
    requires -0x800 <= imm < 0x800
    ensures var u := Bits(imm, 0x1000);
            SextAt(u % 0x20 + u / 0x20 % 0x40 * 0x20, 0x800) == if imm >= 0 then imm else imm + 0x800
  {
    var u := Bits(imm, 0x1000);
    var v := if imm >= 0 then imm else imm + 0x800;
    if imm >= 0 { QuotientRemainder(imm, 0x1000, 0, imm); } else { QuotientRemainder(imm, 0x1000, -1, imm + 0x1000); }
    QuotientRemainder(u, 0x800, if imm >= 0 then 0 else 1, v);
    QuotientRemainder(u, 0x20, u / 0x20, u % 0x20);
    var h := u / 0x20;
    QuotientRemainder(u, 0x800, h / 0x40, h % 0x40 * 0x20 + u % 0x20);
    QuotientRemainder(v, 0x800, 0, v);
  }

  /** A store below its base register goes above it. */
  lemma NegativeStoreOffset()
    ensures ImmS(EncodeS(-8, Fields(0x23, 0, 3, 2, 1))) == 2040
  {
    hide ImmS, EncodeS;
    DecodesSIffNotNegative(-8, Fields(0x23, 0, 3, 2, 1));
  }

  lemma DecodesB(imm: int, f: Fields)
    requires FieldsFit(f) && -0x1000 <= imm < 0x1000 && imm % 2 == 0
    ensures ImmB(EncodeB(imm, f)) == imm
  {
    hide SextAt, Bits;
    var u := Bits(imm, 0x2000);
    EvenBits(imm, 0x1000);
    SplitB(u);
    WordB(u / 0x1000, u / 0x20 % 0x40, f, u / 2 % 0x10, u / 0x800 % 2);
    SextInverts(imm, 0x1000);
  }

  lemma EvenBits(imm: int, half: int)
    requires half >= 1 && imm % 2 == 0
    ensures Bits(imm, 2 * half) % 2 == 0
  {
    EvenLow(imm, half);
  }

  lemma SplitB(u: nat)
    requires u < 0x2000 && u % 2 == 0
    ensures u == u / 0x1000 * 0x1000 + u / 0x800 % 2 * 0x800 + u / 0x20 % 0x40 * 0x20 + u / 2 % 0x10 * 2
  {
    var h := u / 2;
    QuotientRemainder(u, 0x20, h / 0x10, h % 0x10 * 2);
    var t := u / 0x20;
    QuotientRemainder(u, 0x800, t / 0x40, t % 0x40 * 0x20 + u % 0x20);
    var v := u / 0x800;
    QuotientRemainder(u, 0x1000, v / 2, v % 2 * 0x800 + u % 0x800);
  }

  lemma EvenLow(imm: int, half: int)
    requires half >= 1 && imm % 2 == 0
    ensures imm % (2 * half) % 2 == 0
  {
    var q, r := imm / (2 * half), imm % (2 * half);
    assert imm == 2 * (q * half) + r;
  }

  lemma WordB(b12: nat, b10: nat, f: Fields, b4: nat, b11: nat)
    requires FieldsFit(f) && b12 < 2 && b10 < 0x40 && b4 < 0x10 && b11 < 2
    ensures var w := b12 * 0x8000_0000 + b10 * 0x200_0000 + f.rs2 * 0x10_0000 + f.rs1 * 0x8000 + f.funct3 * 0x1000
                     + b4 * 0x100 + b11 * 0x80 + f.opcode;
            w / 0x8000_0000 % 2 == b12 && w / 0x200_0000 % 0x40 == b10 && w / 0x100 % 0x10 == b4 && w / 0x80 % 2 == b11
  {
    var a := b4 * 0x100 + b11 * 0x80 + f.opcode;
    var r := f.rs2 * 0x10_0000 + f.rs1 * 0x8000 + f.funct3 * 0x1000 + a;
    var w := b12 * 0x8000_0000 + b10 * 0x200_0000 + r;
    QuotientRemainder(w, 0x8000_0000, b12, b10 * 0x200_0000 + r);
    QuotientRemainder(w, 0x200_0000, b12 * 0x40 + b10, r);
    QuotientRemainder(b12 * 0x40 + b10, 0x40, b12, b10);
    var upper := b12 * 0x8_0000 + b10 * 0x2000 + f.rs2 * 0x100 + f.rs1 * 8 + f.funct3;
    QuotientRemainder(w, 0x100, upper * 0x10 + b4, b11 * 0x80 + f.opcode);
    QuotientRemainder(upper * 0x10 + b4, 0x10, upper, b4);
    QuotientRemainder(w, 0x80, (upper * 0x10 + b4) * 2 + b11, f.opcode);
  }

  lemma DecodesJ(imm: int, f: Fields)
    requires FieldsFit(f) && -0x10_0000 <= imm < 0x10_0000 && imm % 2 == 0
    ensures ImmJ(EncodeJ(imm, f)) == imm
  {
    hide SextAt, Bits;
    var u := Bits(imm, 0x20_0000);
    EvenBits(imm, 0x10_0000);
    SplitJ(u);
    WordJ(u / 0x10_0000, u / 2 % 0x400, u / 0x800 % 2, u / 0x1000 % 0x100, f.rd * 0x80 + f.opcode);
    SextInverts(imm, 0x10_0000);
  }

  lemma SplitJ(u: nat)
    requires u < 0x20_0000 && u % 2 == 0
    ensures u == u / 0x10_0000 * 0x10_0000 + u / 0x1000 % 0x100 * 0x1000 + u / 0x800 % 2 * 0x800 + u / 2 % 0x400 * 2
  {
    var h := u / 2;
    QuotientRemainder(u, 0x800, h / 0x400, h % 0x400 * 2);
    var t := u / 0x800;
    QuotientRemainder(u, 0x1000, t / 2, t % 2 * 0x800 + u % 0x800);
    var v := u / 0x1000;
    QuotientRemainder(u, 0x10_0000, v / 0x100, v % 0x100 * 0x1000 + u % 0x1000);
  }

  lemma WordJ(b20: nat, b10: nat, b11: nat, b19: nat, low: nat)
    requires b20 < 2 && b10 < 0x400 && b11 < 2 && b19 < 0x100 && low < 0x1000
    ensures var w := b20 * 0x8000_0000 + b10 * 0x20_0000 + b11 * 0x10_0000 + b19 * 0x1000 + low;
            w / 0x8000_0000 % 2 == b20 && w / 0x20_0000 % 0x400 == b10 && w / 0x10_0000 % 2 == b11 &&
            w / 0x1000 % 0x100 == b19
  {
    var w := b20 * 0x8000_0000 + b10 * 0x20_0000 + b11 * 0x10_0000 + b19 * 0x1000 + low;
    QuotientRemainder(w, 0x8000_0000, b20, b10 * 0x20_0000 + b11 * 0x10_0000 + b19 * 0x1000 + low);
    QuotientRemainder(w, 0x20_0000, b20 * 0x400 + b10, b11 * 0x10_0000 + b19 * 0x1000 + low);
    QuotientRemainder(b20 * 0x400 + b10, 0x400, b20, b10);
    QuotientRemainder(w, 0x10_0000, (b20 * 0x400 + b10) * 2 + b11, b19 * 0x1000 + low);
    QuotientRemainder(w, 0x1000, ((b20 * 0x400 + b10) * 2 + b11) * 0x100 + b19, low);
    QuotientRemainder(((b20 * 0x400 + b10) * 2 + b11) * 0x100 + b19, 0x100, (b20 * 0x400 + b10) * 2 + b11, b19);
  }

  // ---- Registers ----

  const OP_LUI := 0x37
  const OP_AUIPC := 0x17
  const OP_IMM := 0x13
  const OP_REG := 0x33
  const OP_IMM32 := 0x1B
  const OP_REG32 := 0x3B

  /** The register-to-register and immediate instructions modelled here. */
  predicate Simulated(inst: nat)
  {
    var f3, f7 := Funct3(inst), Funct7(inst);
    if Opcode(inst) == OP_LUI || Opcode(inst) == OP_AUIPC then true
    else if Opcode(inst) == OP_IMM then f3 == 0 || f3 == 1 || f3 == 4 || f3 == 6 || f3 == 7 || (f3 == 5 && f7 / 2 == 0)
    else if Opcode(inst) == OP_REG then
      (f7 == 0 && (f3 == 0 || f3 == 1 || f3 == 4 || f3 == 5 || f3 == 6 || f3 == 7)) || (f7 == 0x20 && f3 == 0)
    else if Opcode(inst) == OP_IMM32 then f3 == 0 || f3 == 1 || (f3 == 5 && f7 == 0)
    else Opcode(inst) == OP_REG32 &&
         ((f7 == 0 && (f3 == 0 || f3 == 1 || f3 == 5)) || (f7 == 0x20 && f3 == 0) || (f7 == 1 && f3 == 0))
  }

  /** SRL and SRLI. */
  predicate RightShift(inst: nat)
  {
    (Opcode(inst) == OP_IMM || Opcode(inst) == OP_REG) && Funct3(inst) == 5
  }

  /** The instructions whose results the simulator always keeps right modulo 2^64. */
  predicate Covered(inst: nat)
  {
    Simulated(inst) && !RightShift(inst)
  }

  datatype LogicOp = XOR | OR | AND

  function LogicOf(f3: nat): LogicOp
  {
    if f3 == 4 then XOR else if f3 == 6 then OR else AND
  }

  function Bit(op: LogicOp, x: int, y: int): nat
  {
    match op
    case XOR => if x == y then 0 else 1
    case OR => if x == 0 && y == 0 then 0 else 1
    case AND => if x == 0 || y == 0 then 0 else 1
  }

  /** How far a number is from the two whose bits are all alike, 0 and -1. */
  function Size(x: int): nat
  {
    if x >= 0 then x else -x - 1
  }

  /** Python's bitwise operators on unbounded integers in two's complement. */
  function Logic(op: LogicOp, a: int, b: int): int
    decreases Size(a) + Size(b)
  {
    if Size(a) == 0 && Size(b) == 0 then 0 - Bit(op, -a, -b) else Bit(op, a % 2, b % 2) + 2 * Logic(op, a / 2, b / 2)
  }

  /** Python's x & 0xFFFFFFFF and _sext(x, 32). */
  function Low32(x: int): (w: nat)
    ensures w < TWO32
  {
    x % TWO32
  }

  function Sext32(x: int): int
  {
    SextAt(x, TWO31)
  }

  function Shamt(inst: nat, modulus: nat): nat
    requires modulus >= 1
  {
    inst / 0x10_0000 % modulus
  }

  /** The value the simulator writes to rd: a and b are the unbounded contents of rs1 and rs2. */
  function Value(inst: nat, pc: int, a: int, b: int): int
    requires Simulated(inst)
  {
    var f3 := Funct3(inst);
    if Opcode(inst) == OP_LUI then ImmU(inst)
    else if Opcode(inst) == OP_AUIPC then pc + ImmU(inst)
    else if Opcode(inst) == OP_IMM then
      (if f3 == 0 then a + ImmI(inst)
       else if f3 == 1 then a * TwoTo(Shamt(inst, 64))
       else if f3 == 5 then Low32(a) / TwoTo(Shamt(inst, 64))
       else Logic(LogicOf(f3), a, ImmI(inst)))
    else if Opcode(inst) == OP_REG then
      (if Funct7(inst) == 0x20 then a - b
       else if f3 == 0 then a + b
       else if f3 == 1 then a * TwoTo(b % 64)
       else if f3 == 5 then Low32(a) / TwoTo(b % 64)
       else Logic(LogicOf(f3), a, b))
    else if Opcode(inst) == OP_IMM32 then
      (if f3 == 0 then Sext32(Low32(a + ImmI(inst)))
       else if f3 == 1 then Sext32(Low32(a * TwoTo(Shamt(inst, 32))))
       else Sext32(Low32(a) / TwoTo(Shamt(inst, 32))))
    else if Funct7(inst) == 1 then Sext32(Low32(Low32(a) * Low32(b)))
    else if Funct7(inst) == 0x20 then Sext32(Low32(a - b))
    else if f3 == 0 then Sext32(Low32(a + b))
    else if f3 == 1 then Sext32(Low32(a * TwoTo(b % 32)))
    else Sext32(Low32(a) / TwoTo(b % 32))
  }

  function StepRegs(regs: seq<int>, pc: int, inst: nat): (r: seq<int>)
    requires |regs| == 32 && Simulated(inst)
    ensures |r| == 32
  {
    regs[Rd(inst) := Value(inst, pc, regs[Rs1(inst)], regs[Rs2(inst)])][0 := 0]
  }

  class MiniRV64 {
    const regs: array<int>
    var pc: int
    var instCount: nat
    var cycleCount: nat

    ghost predicate Valid()
      reads this, regs
    {
      regs.Length == 32 && regs[0] == 0
    }

    constructor ()
      ensures Valid() && fresh(regs) && pc == 0 && instCount == 0 && cycleCount == 0
      ensures forall r :: 0 <= r < 32 ==> regs[r] == 0
    {
      regs := new int[32](_ => 0);
      pc, instCount, cycleCount := 0, 0, 0;
    }

    /** One fetched instruction of the modelled set. */
    method Step(inst: nat)
      requires Valid() && Simulated(inst)
      modifies this, regs
      ensures Valid() && regs[..] == StepRegs(old(regs[..]), old(pc), inst)
      ensures pc == old(pc) + 4 && instCount == old(instCount) + 1 && cycleCount == old(cycleCount) + 1
    {
      hide SextAt, TwoTo, ImmI, ImmU, Logic;
      var opcode, rd, funct3, rs1, rs2, funct7 :=
        Opcode(inst), Rd(inst), Funct3(inst), Rs1(inst), Rs2(inst), Funct7(inst);
      var nextPc := pc + 4;
      instCount := instCount + 1;
      if opcode == OP_LUI {
        regs[rd] := ImmU(inst);
      } else if opcode == OP_AUIPC {
        regs[rd] := pc + ImmU(inst);
      } else if opcode == OP_IMM {
        if funct3 == 0 { regs[rd] := regs[rs1] + ImmI(inst); }
        else if funct3 == 1 { regs[rd] := regs[rs1] * TwoTo(Shamt(inst, 64)); }
        else if funct3 == 4 { regs[rd] := Logic(XOR, regs[rs1], ImmI(inst)); }
        else if funct3 == 5 { regs[rd] := Low32(regs[rs1]) / TwoTo(Shamt(inst, 64)); }
        else if funct3 == 6 { regs[rd] := Logic(OR, regs[rs1], ImmI(inst)); }
        else { regs[rd] := Logic(AND, regs[rs1], ImmI(inst)); }
      } else if opcode == OP_REG {
        if funct7 == 0x20 { regs[rd] := regs[rs1] - regs[rs2]; }
        else if funct3 == 0 { regs[rd] := regs[rs1] + regs[rs2]; }
        else if funct3 == 1 { regs[rd] := regs[rs1] * TwoTo(regs[rs2] % 64); }
        else if funct3 == 4 { regs[rd] := Logic(XOR, regs[rs1], regs[rs2]); }
        else if funct3 == 5 { regs[rd] := Low32(regs[rs1]) / TwoTo(regs[rs2] % 64); }
        else if funct3 == 6 { regs[rd] := Logic(OR, regs[rs1], regs[rs2]); }
        else { regs[rd] := Logic(AND, regs[rs1], regs[rs2]); }
      } else if opcode == OP_IMM32 {
        if funct3 == 0 { regs[rd] := Sext32(Low32(regs[rs1] + ImmI(inst))); }
        else if funct3 == 1 { regs[rd] := Sext32(Low32(regs[rs1] * TwoTo(Shamt(inst, 32)))); }
        else { regs[rd] := Sext32(Low32(regs[rs1]) / TwoTo(Shamt(inst, 32))); }
      } else if funct7 == 0 {
        if funct3 == 0 { regs[rd] := Sext32(Low32(regs[rs1] + regs[rs2])); }
        else if funct3 == 1 { regs[rd] := Sext32(Low32(regs[rs1] * TwoTo(regs[rs2] % 32))); }
        else { regs[rd] := Sext32(Low32(regs[rs1]) / TwoTo(regs[rs2] % 32)); }
      } else if funct7 == 0x20 {
        regs[rd] := Sext32(Low32(regs[rs1] - regs[rs2]));
      } else {
        var lo := Low32(regs[rs1]) * Low32(regs[rs2]);
        regs[rd] := Sext32(Low32(lo));
      }
      regs[0] := 0;
      pc := nextPc;
      cycleCount := cycleCount + 1;
    }
  }

  // ---- Sections 2.4, 5.2 and 7.1 of the RISC-V Unprivileged ISA, 20191213: 64-bit registers ----

  function Wrap(x: int): (w: nat)
    ensures w < TWO64
  {
    x % TWO64
  }

  /** The low 32 bits as a signed number. */
  function Signed32(x: int): int
  {
    var w := x % TWO32;
    if w >= TWO31 then w - TWO32 else w
  }

  /** A two's complement immediate field. */
  function SignedField(u: int, modulus: nat): int
    requires modulus >= 2
  {
    if u % modulus >= modulus / 2 then u % modulus - modulus else u % modulus
  }

  /** The operator on each of the low n bits. */
  function RefLogic(op: LogicOp, a: nat, b: nat, n: nat): (r: nat)
    ensures r < TwoTo(n)
  {
    if n == 0 then 0 else Bit(op, a % 2, b % 2) + 2 * RefLogic(op, a / 2, b / 2, n - 1)
  }

  function Ref64(op: LogicOp, a: nat, b: nat): (r: nat)
    ensures r < TWO64
  {
    SixtyFour();
    RefLogic(op, a, b, 64)
  }

  lemma SixtyFour()
    ensures TwoTo(64) == TWO64
  {
    assert TwoTo(8) == 0x100;
    TwoToAdds(8, 8);
    TwoToAdds(16, 16);
    TwoToAdds(32, 32);
  }

  lemma {:induction false} TwoToAdds(a: nat, b: nat)
    ensures TwoTo(a + b) == TwoTo(a) * TwoTo(b)
  {
    if a > 0 {
      TwoToAdds(a - 1, b);
      DoubleProduct(TwoTo(a - 1), TwoTo(b));
    }
  }

  lemma DoubleProduct(x: int, y: int)
    ensures (2 * x) * y == 2 * (x * y)
  {
  }

  function RefValue(inst: nat, pc: nat, a: nat, b: nat): (r: nat)
    requires Simulated(inst) && a < TWO64
    ensures r < TWO64
  {
    var f3, f7 := Funct3(inst), Funct7(inst);
    var imm := SignedField(inst / 0x10_0000, TWO12);
    var upper := Signed32(inst / 0x1000 * 0x1000);
    if Opcode(inst) == OP_LUI then Wrap(upper)
    else if Opcode(inst) == OP_AUIPC then Wrap(pc + upper)
    else if Opcode(inst) == OP_IMM then
      (if f3 == 0 then Wrap(a + imm)
       else if f3 == 1 then Wrap(a * TwoTo(inst / 0x10_0000 % 64))
       else if f3 == 5 then Shifted(a, TwoTo(inst / 0x10_0000 % 64))
       else Ref64(LogicOf(f3), a, Wrap(imm)))
    else if Opcode(inst) == OP_REG then
      (if f7 == 0x20 then Wrap(a - b)
       else if f3 == 0 then Wrap(a + b)
       else if f3 == 1 then Wrap(a * TwoTo(b % 64))
       else if f3 == 5 then Shifted(a, TwoTo(b % 64))
       else Ref64(LogicOf(f3), a, b))
    else if Opcode(inst) == OP_IMM32 then
      (if f3 == 0 then Wrap(Signed32(a + imm))
       else if f3 == 1 then Wrap(Signed32(a * TwoTo(inst / 0x10_0000 % 32)))
       else Wrap(Signed32(a % TWO32 / TwoTo(inst / 0x10_0000 % 32))))
    else if f7 == 1 then Wrap(Signed32(a * b))
    else if f7 == 0x20 then Wrap(Signed32(a - b))
    else if f3 == 0 then Wrap(Signed32(a + b))
    else if f3 == 1 then Wrap(Signed32(a * TwoTo(b % 32)))
    else Wrap(Signed32(a % TWO32 / TwoTo(b % 32)))
  }

  /** A logical right shift of the whole register. */
  function Shifted(a: nat, p: nat): (r: nat)
    requires a < TWO64 && p >= 1
    ensures r < TWO64
  {
    Smaller(a, p);
    a / p
  }

  ghost predicate Words64(regs: seq<nat>)
  {
    |regs| == 32 && forall r :: 0 <= r < 32 ==> regs[r] < TWO64
  }

  function RefRegs(regs: seq<nat>, pc: nat, inst: nat): (r: seq<nat>)
    requires Words64(regs) && Simulated(inst)
    ensures Words64(r)
  {
    if Rd(inst) == 0 then regs else regs[Rd(inst) := RefValue(inst, pc, regs[Rs1(inst)], regs[Rs2(inst)])]
  }

  // ---- Congruence ----

  lemma Split(x: int, m: int)
    requires m >= 1
    ensures x == x / m * m + x % m && 0 <= x % m < m
  {
  }

  /** Numbers that differ by a multiple of the modulus have the same remainder. */
  lemma SameRemainder(x: int, y: int, k: int, m: int)
    requires m >= 1 && x == y + k * m
    ensures x % m == y % m
  {
    Split(y, m);
    var q, r := y / m, y % m;
    assert x == (q + k) * m + r by { DistributePlus(q, k, m); }
    QuotientRemainder(x, m, q + k, r);
  }

  lemma DistributePlus(a: int, b: int, m: int)
    ensures (a + b) * m == a * m + b * m
  {
  }

  lemma ModSum(a: int, b: int, m: int)
    requires m >= 1
    ensures (a + b) % m == (a % m + b % m) % m
    ensures (a - b) % m == (a % m - b % m) % m
  {
    Split(a, m);
    Split(b, m);
    DistributePlus(a / m, b / m, m);
    Distribute(a / m, b / m, m);
    SameRemainder(a + b, a % m + b % m, a / m + b / m, m);
    SameRemainder(a - b, a % m - b % m, a / m - b / m, m);
  }

  lemma ModTimes(a: int, k: int, m: int)
    requires m >= 1
    ensures (a * k) % m == (a % m * k) % m
  {
    Split(a, m);
    var q, r := a / m, a % m;
    assert a * k == r * k + (q * k) * m by {
      DistributePlus(q * m, r, k);
      Rotate(q, m, k);
    }
    SameRemainder(a * k, r * k, q * k, m);
  }

  lemma Rotate(q: int, m: int, k: int)
    ensures (q * m) * k == (q * k) * m
  {
    assert (q * m) * k == q * (m * k);
    assert (q * k) * m == q * (k * m);
  }

  lemma ModProduct(a: int, b: int, m: int)
    requires m >= 1
    ensures (a * b) % m == (a % m * (b % m)) % m
  {
    ModTimes(a, b, m);
    ModTimes(b, a % m, m);
    assert a % m * b == b * (a % m) && a % m * (b % m) == b % m * (a % m);
  }

  /** A modulus that divides 2^64 sees only the wrapped number. */
  lemma Narrow(x: int)
    ensures x % TWO64 % TWO32 == x % TWO32
    ensures x % TWO64 % 64 == x % 64 && x % TWO64 % 32 == x % 32
  {
    var q := x / TWO64;
    assert x == q * TWO64 + x % TWO64;
    SameRemainder(x, x % TWO64, q * TWO32, TWO32);
    SameRemainder(x, x % TWO64, q * 0x400_0000_0000_0000, 64);
    SameRemainder(x, x % TWO64, q * 0x800_0000_0000_0000, 32);
  }

  /** Signed32 and Low32 depend on the low half alone. */
  lemma LowHalf(x: int, y: int)
    requires x % TWO32 == y % TWO32
    ensures Sext32(Low32(x)) == Signed32(y) && Low32(x) == y % TWO32
  {
    var w := Low32(x);
    if w < TWO31 { QuotientRemainder(w, TWO31, 0, w); } else { QuotientRemainder(w, TWO31, 1, w - TWO31); }
    QuotientRemainder(w, TWO32, 0, w);
  }

  lemma Immediates(inst: nat)
    ensures ImmI(inst) == SignedField(inst / 0x10_0000, TWO12)
    ensures ImmU(inst) == Signed32(inst / 0x1000 * 0x1000)
  {
    var u := inst / 0x10_0000 % 0x1000;
    if u < 0x800 { QuotientRemainder(u, 0x800, 0, u); } else { QuotientRemainder(u, 0x800, 1, u - 0x800); }
    var h := inst / 0x1000;
    var w := h % 0x10_0000 * 0x1000;
    QuotientRemainder(h * 0x1000, TWO32, h / 0x10_0000, w);
    if w < TWO31 { QuotientRemainder(w, TWO31, 0, w); } else { QuotientRemainder(w, TWO31, 1, w - TWO31); }
    QuotientRemainder(w, TWO32, 0, w);
  }

  ghost predicate Congruent(x: int, y: nat)
  {
    x % TWO64 == y
  }

  lemma WrappedSum(x: int, y: nat, z: int)
    requires Congruent(x, y)
    ensures (x + z) % TWO64 == Wrap(y + z)
  {
    ModSum(x, z, TWO64);
    ModSum(y, z, TWO64);
    QuotientRemainder(y, TWO64, 0, y);
  }

  lemma LowOf(x: int, y: nat)
    requires Congruent(x, y)
    ensures x % TWO32 == y % TWO32 && x % 64 == y % 64 && x % 32 == y % 32 && y < TWO64
  {
    Narrow(x);
  }

  lemma ShiftLeft(x: int, y: nat, k: nat)
    requires Congruent(x, y)
    ensures (x * k) % TWO64 == Wrap(y * k)
    ensures (x * k) % TWO32 == (y * k) % TWO32
  {
    ModTimes(x, k, TWO64);
    LowOf(x, y);
    ModTimes(x, k, TWO32);
    ModTimes(y, k, TWO32);
  }

  lemma LowSums(a: int, a': nat, b: int, b': nat, imm: int)
    requires Congruent(a, a') && Congruent(b, b')
    ensures (a + b) % TWO32 == (a' + b') % TWO32 && (a - b) % TWO32 == (a' - b') % TWO32
    ensures (a + imm) % TWO32 == (a' + imm) % TWO32
    ensures (a * b) % TWO32 == (a' * b') % TWO32
    ensures (a + b) % TWO64 == Wrap(a' + b') && (a - b) % TWO64 == Wrap(a' - b')
  {
    LowOf(a, a');
    LowOf(b, b');
    ModSum(a, b, TWO32);
    ModSum(a', b', TWO32);
    ModSum(a, imm, TWO32);
    ModSum(a', imm, TWO32);
    ModProduct(a, b, TWO32);
    ModProduct(a', b', TWO32);
    ModSum(a, b, TWO64);
    QuotientRemainder(a', TWO64, 0, a');
    QuotientRemainder(b', TWO64, 0, b');
  }

  lemma WordResult(x: int, y: int)
    requires x % TWO32 == y % TWO32
    ensures Congruent(Sext32(Low32(x)), Wrap(Signed32(y)))
  {
    hide SextAt;
    LowHalf(x, y);
  }

  lemma ShiftRightWord(a: int, a': nat, k: nat)
    requires Congruent(a, a') && k >= 1
    ensures Congruent(Sext32(Low32(a) / k), Wrap(Signed32(a' % TWO32 / k)))
  {
    hide SextAt;
    LowOf(a, a');
    var w := Low32(a);
    Smaller(w, k);
    QuotientRemainder(w / k, TWO32, 0, w / k);
    LowHalf(w / k, w / k);
  }

  lemma Smaller(w: nat, k: nat)
    requires k >= 1
    ensures 0 <= w / k <= w
  {
    Split(w, k);
    if w / k > w { Grow(k, w / k); }
  }

  lemma UpperImmediate(inst: nat, pc: int, pc': nat)
    requires Congruent(pc, pc')
    ensures Congruent(ImmU(inst), Wrap(Signed32(inst / 0x1000 * 0x1000)))
    ensures Congruent(pc + ImmU(inst), Wrap(pc' + Signed32(inst / 0x1000 * 0x1000)))
  {
    hide ImmU, Signed32;
    Immediates(inst);
    WrappedSum(pc, pc', ImmU(inst));
  }

  lemma SumsCongruent(a: int, a': nat, b: int, b': nat, imm: int)
    requires Congruent(a, a') && Congruent(b, b')
    ensures Congruent(a + imm, Wrap(a' + imm)) && Congruent(a + b, Wrap(a' + b')) && Congruent(a - b, Wrap(a' - b'))
    ensures Congruent(Sext32(Low32(a + imm)), Wrap(Signed32(a' + imm)))
    ensures Congruent(Sext32(Low32(a + b)), Wrap(Signed32(a' + b')))
    ensures Congruent(Sext32(Low32(a - b)), Wrap(Signed32(a' - b')))
    ensures Congruent(Sext32(Low32(Low32(a) * Low32(b))), Wrap(Signed32(a' * b')))
  {
    hide Sext32, Signed32;
    WrappedSum(a, a', imm);
    LowSums(a, a', b, b', imm);
    WordResult(a + imm, a' + imm);
    WordResult(a + b, a' + b');
    WordResult(a - b, a' - b');
    ModProduct(a, b, TWO32);
    WordResult(Low32(a) * Low32(b), a' * b');
  }

  lemma ShiftsCongruent(a: int, a': nat, k: nat)
    requires Congruent(a, a') && k >= 1
    ensures Congruent(a * k, Wrap(a' * k))
    ensures Congruent(Sext32(Low32(a * k)), Wrap(Signed32(a' * k)))
    ensures Congruent(Sext32(Low32(a) / k), Wrap(Signed32(a' % TWO32 / k)))
  {
    hide Sext32, Signed32;
    ShiftLeft(a, a', k);
    WordResult(a * k, a' * k);
    ShiftRightWord(a, a', k);
  }

  // ---- Bitwise operators ----

  lemma {:induction false} LogicUnfolds(op: LogicOp, a: int, b: int)
    ensures Logic(op, a, b) == Bit(op, a % 2, b % 2) + 2 * Logic(op, a / 2, b / 2)
  {
  }

  /** Low bits of a number from those of its half. */
  lemma HalfOfLow(a: int, m: int)
    requires m >= 1
    ensures a % (2 * m) == a % 2 + 2 * (a / 2 % m)
    ensures a % (2 * m) % 2 == a % 2 && a % (2 * m) / 2 == a / 2 % m
  {
    var h, b := a / 2, a % 2;
    var q, r := h / m, h % m;
    Split(h, m);
    DoubleProduct(m, q);
    QuotientRemainder(a, 2 * m, q, b + 2 * r);
  }

  /** The unbounded operators agree with the bit-by-bit ones on any number of low bits. */
  lemma {:induction false} LogicCongruent(op: LogicOp, a: int, b: int, n: nat)
    ensures Logic(op, a, b) % TwoTo(n) == RefLogic(op, a % TwoTo(n), b % TwoTo(n), n)
    decreases n
  {
    if n > 0 {
      hide Logic, Bit, RefLogic, TwoTo;
      LogicCongruent(op, a / 2, b / 2, n - 1);
      LogicUnfolds(op, a, b);
      RefUnfolds(op, a, b, n);
      BitRange(op, a % 2, b % 2);
      AppendBit(Bit(op, a % 2, b % 2), Logic(op, a / 2, b / 2), TwoTo(n - 1));
      TwoToStep(n - 1);
    }
  }

  lemma TwoToStep(n: nat)
    ensures TwoTo(n + 1) == 2 * TwoTo(n)
  {
  }

  lemma AppendBit(bit: nat, x: int, m: int)
    requires bit < 2 && m >= 1
    ensures (bit + 2 * x) % (2 * m) == bit + 2 * (x % m)
  {
    Split(x, m);
    DoubleProduct(m, x / m);
    QuotientRemainder(bit + 2 * x, 2 * m, x / m, bit + 2 * (x % m));
  }

  lemma RefUnfolds(op: LogicOp, a: int, b: int, n: nat)
    requires n >= 1
    ensures RefLogic(op, a % TwoTo(n), b % TwoTo(n), n)
         == Bit(op, a % 2, b % 2) + 2 * RefLogic(op, a / 2 % TwoTo(n - 1), b / 2 % TwoTo(n - 1), n - 1)
  {
    hide Bit, TwoTo;
    TwoToStep(n - 1);
    HalfOfLow(a, TwoTo(n - 1));
    HalfOfLow(b, TwoTo(n - 1));
  }

  lemma BitRange(op: LogicOp, x: int, y: int)
    ensures Bit(op, x, y) < 2
  {
  }

  lemma LogicOfRegisters(op: LogicOp, a: int, a': nat, b: int, b': nat)
    requires Congruent(a, a') && Congruent(b, b')
    ensures Congruent(Logic(op, a, b), Ref64(op, a', b'))
  {
    hide Logic, RefLogic;
    SixtyFour();
    LogicCongruent(op, a, b, 64);
  }

  lemma WrapIsCongruent(x: int)
    ensures Congruent(x, Wrap(x))
  {
  }

  // ---- Right shifts ----

  function ShiftBy(inst: nat, b: int): nat
  {
    if Opcode(inst) == OP_IMM then Shamt(inst, 64) else b % 64
  }

  /** Where the instruction gives the standard's result: always, but for a right shift that moves one of the high
      32 bits into the result. */
  predicate RightAt(inst: nat, a: nat, b: nat)
  {
    RightShift(inst) ==> a < TWO32 || a < TwoTo(ShiftBy(inst, b))
  }

  lemma ShiftRightIff(a: int, a': nat, p: nat)
    requires Congruent(a, a') && p >= 1
    ensures a' < TWO64
    ensures Congruent(Low32(a) / p, Shifted(a', p)) <==> a' < TWO32 || a' < p
  {
    Narrow(a);
    var low := Low32(a);
    Smaller(low, p);
    Smaller(a', p);
    QuotientRemainder(low / p, TWO64, 0, low / p);
    if a' < TWO32 {
      QuotientRemainder(a', TWO32, 0, a');
    } else if a' < p {
      QuotientRemainder(a', p, 0, a');
      QuotientRemainder(low, p, 0, low);
    } else {
      HighSurvives(a', p);
    }
  }

  lemma AtLeastOne(w: nat, p: nat)
    requires 1 <= p <= w
    ensures w / p >= 1
  {
  }

  lemma HighSurvives(w: nat, p: nat)
    requires TWO32 <= w && 1 <= p <= w
    ensures (w % TWO32) / p != w / p
  {
    var low := w % TWO32;
    Split(low, p);
    Split(w, p);
    if p <= TWO32 {
      assert w - low >= TWO32 by { Split(w, TWO32); }
    } else {
      QuotientRemainder(low, p, 0, low);
      AtLeastOne(w, p);
    }
  }

  // ---- Steps and runs ----

  /** Every instruction but a right shift is right modulo 2^64; a right shift exactly where no high bit survives. */
  lemma ValueCongruentIff(inst: nat, pc: int, pc': nat, a: int, a': nat, b: int, b': nat)
    requires Simulated(inst) && Congruent(pc, pc') && Congruent(a, a') && Congruent(b, b')
    ensures a' < TWO64
    ensures Congruent(Value(inst, pc, a, b), RefValue(inst, pc', a', b')) <==> RightAt(inst, a', b')
  {
    hide SextAt, TwoTo, ImmI, ImmU, SignedField, Signed32, Low32, Wrap, Sext32, Congruent, Logic, Ref64, Shifted;
    UpperImmediate(inst, pc, pc');
    Immediates(inst);
    SumsCongruent(a, a', b, b', ImmI(inst));
    LowOf(a, a');
    LowOf(b, b');
    ShiftsCongruent(a, a', TwoTo(Shamt(inst, 64)));
    ShiftsCongruent(a, a', TwoTo(Shamt(inst, 32)));
    ShiftsCongruent(a, a', TwoTo(b % 64));
    ShiftsCongruent(a, a', TwoTo(b % 32));
    ShiftRightIff(a, a', TwoTo(Shamt(inst, 64)));
    ShiftRightIff(a, a', TwoTo(b % 64));
    WrapIsCongruent(ImmI(inst));
    LogicOfRegisters(LogicOf(Funct3(inst)), a, a', ImmI(inst), Wrap(ImmI(inst)));
    LogicOfRegisters(LogicOf(Funct3(inst)), a, a', b, b');
  }

  /** Whatever a covered instruction writes to a register is right modulo 2^64. */
  lemma ValueCongruent(inst: nat, pc: int, pc': nat, a: int, a': nat, b: int, b': nat)
    requires Covered(inst) && Congruent(pc, pc') && Congruent(a, a') && Congruent(b, b')
    ensures a' < TWO64 && Congruent(Value(inst, pc, a, b), RefValue(inst, pc', a', b'))
  {
    hide Value, RefValue, Congruent;
    ValueCongruentIff(inst, pc, pc', a, a', b, b');
  }

  /** SRLI by four of 2^32: the simulator gives 0, the standard 2^28. */
  lemma ShiftLosesHighHalf()
    ensures var inst := EncodeI(4, Fields(OP_IMM, 1, 5, 2, 0));
            Simulated(inst) && Rd(inst) == 1 && Rs1(inst) == 2 && Value(inst, 0, TWO32, 0) == 0 &&
            RefValue(inst, 0, TWO32, 0) == 0x1000_0000
  {
    hide Logic, RefLogic, TwoTo;
    var f := Fields(OP_IMM, 1, 5, 2, 0);
    var inst := EncodeI(4, f);
    assert inst == 0x0041_5093;
    assert Opcode(inst) == OP_IMM && Funct3(inst) == 5 && Funct7(inst) == 0 && Rd(inst) == 1 && Rs1(inst) == 2;
    assert Shamt(inst, 64) == 4;
    Sixteen();
  }

  lemma Sixteen()
    ensures TwoTo(4) == 16
  {
  }

  ghost predicate RegsCongruent(regs: seq<int>, ref: seq<nat>)
  {
    |regs| == 32 && Words64(ref) && regs[0] == 0 && ref[0] == 0 &&
    forall r :: 0 <= r < 32 ==> Congruent(regs[r], ref[r])
  }

  /** A step keeps all registers congruent exactly when its result is right or goes nowhere. */
  lemma StepCongruentIff(regs: seq<int>, ref: seq<nat>, pc: int, pc': nat, inst: nat)
    requires RegsCongruent(regs, ref) && Congruent(pc, pc') && Simulated(inst)
    ensures RegsCongruent(StepRegs(regs, pc, inst), RefRegs(ref, pc', inst))
       <==> Rd(inst) == 0 || RightAt(inst, ref[Rs1(inst)], ref[Rs2(inst)])
    ensures Congruent(pc + 4, Wrap(pc' + 4))
  {
    hide Simulated, Value, RefValue, RightAt, Rd, Rs1, Rs2;
    ValueCongruentIff(inst, pc, pc', regs[Rs1(inst)], ref[Rs1(inst)], regs[Rs2(inst)], ref[Rs2(inst)]);
    WrappedSum(pc, pc', 4);
    var rd := Rd(inst);
    var after, refAfter := StepRegs(regs, pc, inst), RefRegs(ref, pc', inst);
    assert forall r :: 0 <= r < 32 && r != rd ==> Congruent(after[r], refAfter[r]);
    assert rd != 0 ==> after[rd] == Value(inst, pc, regs[Rs1(inst)], regs[Rs2(inst)]);
  }

  predicate AllSimulated(words: seq<nat>)
  {
    forall i :: 0 <= i < |words| ==> Simulated(words[i])
  }

  function RunRegs(regs: seq<int>, pc: int, words: seq<nat>): seq<int>
    requires |regs| == 32 && AllSimulated(words)
    decreases |words|
  {
    if words == [] then regs else RunRegs(StepRegs(regs, pc, words[0]), pc + 4, words[1..])
  }

  function RunRef(ref: seq<nat>, pc: nat, words: seq<nat>): seq<nat>
    requires Words64(ref) && AllSimulated(words)
    decreases |words|
  {
    if words == [] then ref else RunRef(RefRegs(ref, pc, words[0]), Wrap(pc + 4), words[1..])
  }

  /** Along the run, as the standard runs it, no right shift moves a high bit into its result. */
  ghost predicate RunRight(ref: seq<nat>, pc: nat, words: seq<nat>)
    requires Words64(ref) && AllSimulated(words)
    decreases |words|
  {
    words == [] ||
    ((Rd(words[0]) == 0 || RightAt(words[0], ref[Rs1(words[0])], ref[Rs2(words[0])])) &&
     RunRight(RefRegs(ref, pc, words[0]), Wrap(pc + 4), words[1..]))
  }

  /** Along every such run the unbounded registers stay congruent to the 64-bit ones, and x0 stays 0. */
  lemma {:induction false} RunCongruentIfRight(regs: seq<int>, ref: seq<nat>, pc: int, pc': nat, words: seq<nat>)
    requires RegsCongruent(regs, ref) && Congruent(pc, pc') && AllSimulated(words) && RunRight(ref, pc', words)
    ensures RegsCongruent(RunRegs(regs, pc, words), RunRef(ref, pc', words))
    decreases |words|
  {
    hide Simulated, StepRegs, RefRegs, RegsCongruent, Congruent, Wrap, RightAt, Rd, Rs1, Rs2;
    if words != [] {
      HasRegs(regs, ref);
      StepCongruentIff(regs, ref, pc, pc', words[0]);
      RunCongruentIfRight(StepRegs(regs, pc, words[0]), RefRegs(ref, pc', words[0]), pc + 4, Wrap(pc' + 4), words[1..]);
    }
  }

  lemma HasRegs(regs: seq<int>, ref: seq<nat>)
    requires RegsCongruent(regs, ref)
    ensures |regs| == 32 && Words64(ref)
  {
  }

  /** Every straight-line run of covered instructions keeps all registers congruent. */
  lemma RunCongruent(regs: seq<int>, ref: seq<nat>, pc: int, pc': nat, words: seq<nat>)
    requires RegsCongruent(regs, ref) && Congruent(pc, pc') && forall i :: 0 <= i < |words| ==> Covered(words[i])
    ensures AllSimulated(words)
    ensures RegsCongruent(RunRegs(regs, pc, words), RunRef(ref, pc', words))
  {
    hide Simulated, RegsCongruent, Congruent;
    HasRegs(regs, ref);
    CoveredIsRight(ref, pc', words);
    RunCongruentIfRight(regs, ref, pc, pc', words);
  }

  lemma {:induction false} CoveredIsRight(ref: seq<nat>, pc: nat, words: seq<nat>)
    requires Words64(ref) && forall i :: 0 <= i < |words| ==> Covered(words[i])
    ensures AllSimulated(words) && RunRight(ref, pc, words)
    decreases |words|
  {
    hide Simulated, RefRegs, Wrap;
    if words != [] {
      assert Covered(words[0]);
      forall i | 0 <= i < |words[1..]| ensures Covered(words[1..][i]) { assert words[1..][i] == words[i + 1]; }
      CoveredIsRight(RefRegs(ref, pc, words[0]), Wrap(pc + 4), words[1..]);
    }
  }
}
