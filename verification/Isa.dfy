/** The instruction set: the fields of an instruction, what its operation computes, and a sequential machine with one
    branch delay slot. */
module Isa {
  import opened Types

  type Reg = r: nat | r < 16
  type Opcode = o: nat | o < 0x100
  type Immediate = i: nat | i < 0x1000
  type Regs = s: seq<Word> | |s| == 16 witness seq(16, i => 0)

  const ADD: Opcode := 0
  const SUB: Opcode := 1
  const AND: Opcode := 2
  const OR: Opcode := 3
  const XOR: Opcode := 4
  const MUL: Opcode := 5
  const SLL: Opcode := 6
  const SRA: Opcode := 7
  const SRL: Opcode := 8
  const BEQ: Opcode := 9
  const BNE: Opcode := 10
  const BLT: Opcode := 11
  const BGT: Opcode := 12
  const BLE: Opcode := 13
  const BGE: Opcode := 14
  const JAL: Opcode := 15
  const LW: Opcode := 16
  const SW: Opcode := 17
  const HALT: Opcode := 20

  const IMM_REG: Reg := 1
  const PC_REG: Reg := 15

  datatype Instruction = Instruction(opcode: Opcode, rd: Reg, rs: Reg, rt: Reg, imm: Immediate)

  /** The bit fields of an instruction word, high to low. */
  function Unpack(cmd: Word): Instruction {
    Instruction(cmd / 0x100_0000, cmd / 0x10_0000 % 16, cmd / 0x1_0000 % 16, cmd / 0x1000 % 16, cmd % 0x1000)
  }

  function Pack(i: Instruction): Word {
    i.opcode * 0x100_0000 + i.rd * 0x10_0000 + i.rs * 0x1_0000 + i.rt * 0x1000 + i.imm
  }

  /** The fields cover the whole word and do not overlap. */
  lemma PackUnpack(cmd: Word, i: Instruction)
    ensures Pack(Unpack(cmd)) == cmd && Unpack(Pack(i)) == i
  {
    UnpackDigits(cmd);
    PackDigits(i);
  }

  lemma Low12(high: nat, low: nat)
    requires low < 0x1000
    ensures (high * 0x1000 + low) / 0x1000 == high && (high * 0x1000 + low) % 0x1000 == low
  {
  }

  lemma Low4(high: nat, low: nat)
    requires low < 16
    ensures (high * 16 + low) / 16 == high && (high * 16 + low) % 16 == low
  {
  }

  lemma PackDigits(i: Instruction)
    ensures Unpack(Pack(i)) == i
  {
    var c := Pack(i);
    var c3 := i.opcode * 16 + i.rd;
    var c2 := c3 * 16 + i.rs;
    var c1 := c2 * 16 + i.rt;
    Low12(c1, i.imm);
    Low4(c2, i.rt);
    Low4(c3, i.rs);
    Low4(i.opcode, i.rd);
    assert c == c1 * 0x1000 + i.imm;
    assert c / 0x1000 == c1;
    assert c / 0x1_0000 == c / 0x1000 / 16;
    assert c / 0x10_0000 == c / 0x1000 / 16 / 16;
    assert c / 0x100_0000 == c / 0x1000 / 16 / 16 / 16;
  }

  lemma UnpackDigits(cmd: Word)
    ensures Pack(Unpack(cmd)) == cmd
  {
    var a, b, c := cmd / 0x1000, cmd / 0x1_0000, cmd / 0x10_0000;
    assert a / 16 == b && b / 16 == c && c / 16 == cmd / 0x100_0000;
    assert cmd == a * 0x1000 + cmd % 0x1000 && a == b * 16 + a % 16 && b == c * 16 + b % 16 &&
      c == c / 16 * 16 + c % 16;
  }

  predicate IsBranch(o: Opcode) { BEQ <= o <= JAL }

  predicate IsMemory(o: Opcode) { o == LW || o == SW }

  predicate IsAlu(o: Opcode) { o <= SRL }

  function Pow2(n: nat): (p: nat)
    ensures p > 0
  {
    if n == 0 then 1 else 2 * Pow2(n - 1)
  }

  lemma Pow2Values()
    ensures Pow2(32) == 0x1_0000_0000
  {
    assert Pow2(8) == 0x100 && Pow2(16) == 0x1_0000 && Pow2(24) == 0x100_0000 by {
      assert Pow2(4) == 16;
      assert Pow2(12) == 0x1000;
      assert Pow2(20) == 0x10_0000;
    }
    assert Pow2(28) == 0x1000_0000;
  }

  /** One bit of a bitwise operation. */
  function Bit(o: Opcode, x: nat, y: nat): (z: nat)
    requires x < 2 && y < 2
    ensures z < 2
  {
    if o == AND then x * y else if o == OR then (if x + y > 0 then 1 else 0) else (if x == y then 0 else 1)
  }

  function Bitwise(o: Opcode, a: nat, b: nat, width: nat): (r: nat)
    requires a < Pow2(width) && b < Pow2(width)
    ensures r < Pow2(width)
  {
    if width == 0 then 0 else 2 * Bitwise(o, a / 2, b / 2, width - 1) + Bit(o, a % 2, b % 2)
  }

  /** Bit n of a word. */
  function BitAt(a: nat, n: nat): (z: nat)
    ensures z < 2
  {
    if n == 0 then a % 2 else BitAt(a / 2, n - 1)
  }

  /** Each bit of the result comes from the same bits of the operands. */
  lemma {:induction false} BitwiseBits(o: Opcode, a: nat, b: nat, width: nat, n: nat)
    requires a < Pow2(width) && b < Pow2(width) && n < width
    ensures BitAt(Bitwise(o, a, b, width), n) == Bit(o, BitAt(a, n), BitAt(b, n))
  {
    var rest := Bitwise(o, a / 2, b / 2, width - 1);
    assert Bitwise(o, a, b, width) == 2 * rest + Bit(o, a % 2, b % 2);
    if n > 0 {
      BitwiseBits(o, a / 2, b / 2, width - 1, n - 1);
    }
  }

  /** The bits determine the word. */
  lemma {:induction false} SameBits(a: nat, b: nat, width: nat)
    requires a < Pow2(width) && b < Pow2(width) && forall n: nat :: n < width ==> BitAt(a, n) == BitAt(b, n)
    ensures a == b
  {
    if width > 0 {
      forall n: nat | n < width - 1
        ensures BitAt(a / 2, n) == BitAt(b / 2, n)
      {
        assert BitAt(a, n + 1) == BitAt(b, n + 1);
      }
      SameBits(a / 2, b / 2, width - 1);
      assert BitAt(a, 0) == BitAt(b, 0);
    }
  }

  lemma QuotientNonneg(a: nat, p: nat)
    requires p > 0
    ensures a / p >= 0
  {
  }

  lemma ProductNonneg(x: nat, y: nat)
    ensures x * y >= 0
  {
  }

  lemma ShiftedDown(a: nat, p: nat)
    requires p > 0
    ensures 0 <= a / p <= a
  {
    var q := a / p;
    assert a == p * q + a % p;
    QuotientNonneg(a, p);
    ProductNonneg(q, p - 1);
    assert p * q == q * (p - 1) + q;
  }

  // ----- the operations on 32-bit words -----

  function Sum(a: Word, b: Word): Word { (a + b) % 0x1_0000_0000 }

  function Difference(a: Word, b: Word): Word { (a - b) % 0x1_0000_0000 }

  function Product(a: Word, b: Word): Word { a * b % 0x1_0000_0000 }

  function And(a: Word, b: Word): Word {
    Pow2Values();
    Bitwise(AND, a, b, 32)
  }

  function Or(a: Word, b: Word): Word {
    Pow2Values();
    Bitwise(OR, a, b, 32)
  }

  function Xor(a: Word, b: Word): Word {
    Pow2Values();
    Bitwise(XOR, a, b, 32)
  }

  /** And, Or and Xor work on each of the 32 bits by itself. */
  lemma LogicalBits(a: Word, b: Word, n: nat)
    requires n < 32
    ensures BitAt(And(a, b), n) == BitAt(a, n) * BitAt(b, n)
    ensures BitAt(Or(a, b), n) == if BitAt(a, n) + BitAt(b, n) > 0 then 1 else 0
    ensures BitAt(Xor(a, b), n) == if BitAt(a, n) == BitAt(b, n) then 0 else 1
  {
    Pow2Values();
    BitwiseBits(AND, a, b, 32, n);
    BitwiseBits(OR, a, b, 32, n);
    BitwiseBits(XOR, a, b, 32, n);
  }

  /** Shift amounts are taken modulo 32. */
  function ShiftLeft(a: Word, b: Word): Word {
    a * Pow2(b % 32) % 0x1_0000_0000
  }

  function ShiftRight(a: Word, b: Word): Word {
    ShiftedDown(a, Pow2(b % 32));
    a / Pow2(b % 32)
  }

  /** The sign bit is kept: a negative word is the complement of what is shifted. */
  function ShiftRightArithmetic(a: Word, b: Word): Word {
    if a < 0x8000_0000 then ShiftRight(a, b) else 0xFFFF_FFFF - ShiftRight(0xFFFF_FFFF - a, b)
  }

  /** The entries of the operation table for the arithmetic opcodes, in the order of the opcodes. */
  const OPERATIONS: seq<(Word, Word) -> Word> :=
    [Sum, Difference, And, Or, Xor, Product, ShiftLeft, ShiftRightArithmetic, ShiftRight]

  function Alu(o: Opcode, a: Word, b: Word): Word
    requires IsAlu(o)
  {
    OPERATIONS[o](a, b)
  }

  predicate Taken(o: Opcode, a: Word, b: Word) {
    (o == BEQ && a == b) || (o == BNE && a != b) || (o == BLT && a < b) || (o == BGT && a > b)
    || (o == BLE && a <= b) || (o == BGE && a >= b) || o == JAL
  }

  /** Nine bits of the target register survive. */
  function Target(rd: Word): nat { rd % 0x200 }

  // ----- the sequential machine -----

  type DataMemory = map<Word, Word>
  type Program = p: seq<Instruction> | |p| == 0x400 witness seq(0x400, i => Instruction(HALT, 0, 0, 0, 0))

  /** Words that were never stored are zero. */
  function Lookup(m: DataMemory, a: Word): Word {
    if a in m then m[a] else 0
  }

  /** What is behind the last instruction is never executed. */
  function Fetch(p: Program, pc: nat): Instruction {
    if pc < 0x400 then p[pc] else Instruction(ADD, 0, 0, 0, 0)
  }

  /** Register 1 stands for the immediate of the instruction that reads it. */
  function ReadReg(regs: Regs, r: Reg, imm: Immediate): Word {
    if r == IMM_REG then imm else regs[r]
  }

  function Address(regs: Regs, i: Instruction): Word {
    Sum(ReadReg(regs, i.rs, i.imm), ReadReg(regs, i.rt, i.imm))
  }

  /** The effect of an instruction on registers and memory. */
  function ExecRegs(regs: Regs, mem: DataMemory, i: Instruction): Regs {
    if IsAlu(i.opcode) then regs[i.rd := Alu(i.opcode, ReadReg(regs, i.rs, i.imm), ReadReg(regs, i.rt, i.imm))]
    else if i.opcode == LW then regs[i.rd := Lookup(mem, Address(regs, i))]
    else regs
  }

  function ExecMem(regs: Regs, mem: DataMemory, i: Instruction): DataMemory {
    if i.opcode == SW then mem[Address(regs, i) := ReadReg(regs, i.rd, i.imm)] else mem
  }

  /** `npc` is the address of the instruction after the next one: a branch takes effect behind its delay slot. */
  datatype Machine = Machine(regs: Regs, mem: DataMemory, pc: nat, npc: nat)

  function NextPc(m: Machine, i: Instruction): nat {
    if IsBranch(i.opcode) && Taken(i.opcode, ReadReg(m.regs, i.rs, i.imm), ReadReg(m.regs, i.rt, i.imm))
    then Target(ReadReg(m.regs, i.rd, i.imm)) else m.npc + 1
  }

  /** One instruction; HALT stops the machine where it is. */
  function Step(p: Program, m: Machine): Machine {
    var i := Fetch(p, m.pc);
    if i.opcode == HALT then m
    else Machine(ExecRegs(m.regs, m.mem, i), ExecMem(m.regs, m.mem, i), m.npc, NextPc(m, i))
  }

  function Steps(p: Program, m: Machine, n: nat): Machine {
    if n == 0 then m else Step(p, Steps(p, m, n - 1))
  }

  function Reset(regs: Regs, mem: DataMemory): Machine { Machine(regs, mem, 0, 1) }
}
