/** What the operations, the branches and the fields of an instruction are, told by bits, by counting and by order. */
module IsaLaws {
  import opened Types
  import opened Isa

  // ----- bits -----

  lemma FarApart(d: int, p: int)
    requires p > 0
    ensures d > 0 ==> d * p >= p
    ensures d < 0 ==> d * p <= -p
  {
    if d > 0 {
      assert (d - 1) * p >= 0;
    } else if d < 0 {
      assert (-d - 1) * p >= 0;
    }
  }

  lemma Quotient(a: nat, p: nat, q: int, r: nat)
    requires a == q * p + r && r < p
    ensures a / p == q && a % p == r
  {
    var d := a / p - q;
    assert d * p == a / p * p - q * p;
    FarApart(d, p);
  }

  lemma Halves(a: nat, p: nat)
    requires p > 0
    ensures a / (2 * p) == a / 2 / p && a % (2 * p) == 2 * (a / 2 % p) + a % 2
  {
    var q, r := a / 2 / p, a / 2 % p;
    assert a / 2 == q * p + r;
    assert a == q * (2 * p) + (2 * r + a % 2);
    Quotient(a, 2 * p, q, 2 * r + a % 2);
  }

  /** A quotient by a power of two has the bits from there on. */
  lemma {:induction false} QuotientBits(a: nat, k: nat, q: nat, n: nat)
    requires q == a / Pow2(k)
    ensures BitAt(q, n) == BitAt(a, n + k)
  {
    if k > 0 {
      Halves(a, Pow2(k - 1));
      QuotientBits(a / 2, k - 1, q, n);
    }
  }

  /** A remainder has the bits below. */
  lemma {:induction false} RemainderBits(a: nat, k: nat, n: nat)
    requires n < k
    ensures BitAt(a % Pow2(k), n) == BitAt(a, n)
  {
    var p, r := Pow2(k - 1), a / 2 % Pow2(k - 1);
    Halves(a, p);
    assert a % Pow2(k) == 2 * r + a % 2 && (2 * r + a % 2) / 2 == r;
    if n > 0 {
      RemainderBits(a / 2, k - 1, n - 1);
    }
  }

  /** A multiple has its bits moved up. */
  lemma {:induction false} ProductBits(a: nat, k: nat, p: nat, n: nat)
    requires p == a * Pow2(k)
    ensures BitAt(p, n) == if n < k then 0 else BitAt(a, n - k)
  {
    if k > 0 {
      assert p == 2 * (a * Pow2(k - 1));
      ProductBits(a, k - 1, p / 2, if n > 0 then n - 1 else 0);
    }
  }

  /** Behind its width a number has no bits. */
  lemma {:induction false} NoBitsBeyond(a: nat, width: nat, n: nat)
    requires a < Pow2(width) && width <= n
    ensures BitAt(a, n) == 0
    decreases n
  {
    if n > 0 {
      NoBitsBeyond(a / 2, if width > 0 then width - 1 else 0, n - 1);
    }
  }

  /** The complement of a word has the other bits. */
  lemma {:induction false} ComplementBits(a: nat, width: nat, n: nat)
    requires a < Pow2(width) && n < width
    ensures BitAt(Pow2(width) - 1 - a, n) == 1 - BitAt(a, n)
  {
    var c := Pow2(width) - 1 - a;
    assert c == 2 * (Pow2(width - 1) - 1 - a / 2) + (1 - a % 2);
    if n > 0 {
      ComplementBits(a / 2, width - 1, n - 1);
    }
  }

  // ----- the operations -----

  /** The bits of the logical operations. */
  lemma LogicalOperations(a: Word, b: Word, n: nat)
    requires n < 32
    ensures AND == 2 && OR == 3 && XOR == 4
    ensures BitAt(Alu(AND, a, b), n) == BitAt(a, n) * BitAt(b, n)
    ensures BitAt(Alu(OR, a, b), n) == if BitAt(a, n) + BitAt(b, n) > 0 then 1 else 0
    ensures BitAt(Alu(XOR, a, b), n) == if BitAt(a, n) == BitAt(b, n) then 0 else 1
  {
    LogicalBits(a, b, n);
    assert OPERATIONS[2] == And && OPERATIONS[3] == Or && OPERATIONS[4] == Xor;
  }

  lemma LeftBits(a: Word, k: Word, n: nat)
    requires k < 32 && n < 32
    ensures BitAt(ShiftLeft(a, k), n) == if n < k then 0 else BitAt(a, n - k)
  {
    ProductNonneg(a, Pow2(k));
    Pow2Values();
    RemainderBits(a * Pow2(k), 32, n);
    ProductBits(a, k, a * Pow2(k), n);
  }

  lemma RightBits(a: Word, k: Word, n: nat)
    requires k < 32 && n < 32
    ensures BitAt(ShiftRight(a, k), n) == if n + k < 32 then BitAt(a, n + k) else 0
  {
    QuotientBits(a, k, ShiftRight(a, k), n);
    if n + k >= 32 {
      Pow2Values();
      NoBitsBeyond(a, 32, n + k);
    }
  }

  /** The top bit is the sign. */
  lemma SignBit(a: Word)
    ensures BitAt(a, 31) == if a < 0x8000_0000 then 0 else 1
  {
    Pow2Values();
    QuotientBits(a, 31, a / Pow2(31), 0);
  }

  lemma ArithmeticBits(a: Word, k: Word, n: nat)
    requires k < 32 && n < 32
    ensures BitAt(ShiftRightArithmetic(a, k), n) == if n + k < 32 then BitAt(a, n + k) else BitAt(a, 31)
  {
    SignBit(a);
    if a < 0x8000_0000 {
      RightBits(a, k, n);
    } else {
      var c := 0xFFFF_FFFF - a;
      RightBits(c, k, n);
      Pow2Values();
      ComplementBits(ShiftRight(c, k), 32, n);
      if n + k < 32 {
        ComplementBits(a, 32, n + k);
      }
    }
  }

  /** The bits of the shifts: what falls out is lost, and a right shift that is arithmetic repeats the sign. */
  lemma ShiftOperations(a: Word, k: Word, n: nat)
    requires k < 32 && n < 32
    ensures SLL == 6 && SRA == 7 && SRL == 8
    ensures BitAt(Alu(SLL, a, k), n) == if n < k then 0 else BitAt(a, n - k)
    ensures BitAt(Alu(SRL, a, k), n) == if n + k < 32 then BitAt(a, n + k) else 0
    ensures BitAt(Alu(SRA, a, k), n) == if n + k < 32 then BitAt(a, n + k) else BitAt(a, 31)
  {
    LeftBits(a, k, n);
    RightBits(a, k, n);
    ArithmeticBits(a, k, n);
    assert OPERATIONS[6] == ShiftLeft && OPERATIONS[7] == ShiftRightArithmetic && OPERATIONS[8] == ShiftRight;
  }

  /** The word after a. */
  function Successor(a: Word): Word { if a == 0xFFFF_FFFF then 0 else a + 1 }

  lemma SumOfRemainder(p: nat, a: nat)
    ensures (p + a) % 0x1_0000_0000 == (p % 0x1_0000_0000 + a) % 0x1_0000_0000
  {
  }

  lemma ProductStep(a: Word, b: Word)
    requires b > 0
    ensures Product(a, b) == Sum(Product(a, b - 1), a)
  {
    ProductNonneg(a, b - 1);
    var p: nat := a * (b - 1);
    assert a * b == p + a;
    SumOfRemainder(p, a);
  }

  lemma WrapsAround(a: Word, b: Word)
    ensures Sum(a, b) == if a + b < 0x1_0000_0000 then a + b else a + b - 0x1_0000_0000
    ensures Difference(a, b) == if a >= b then a - b else a - b + 0x1_0000_0000
  {
  }

  lemma SumStep(a: Word, b: Word)
    ensures Sum(a, 0) == a && (b > 0 ==> Sum(a, b) == Successor(Sum(a, b - 1)))
    ensures Difference(Sum(a, b), b) == a && Sum(Difference(a, b), b) == a
  {
    hide Sum, Difference;
    WrapsAround(a, 0);
    WrapsAround(a, b);
    WrapsAround(Sum(a, b), b);
    WrapsAround(Difference(a, b), b);
    if b > 0 {
      WrapsAround(a, b - 1);
    }
  }

  lemma ArithmeticEntries(a: Word, b: Word)
    ensures Alu(ADD, a, b) == Sum(a, b) && Alu(SUB, a, b) == Difference(a, b) && Alu(MUL, a, b) == Product(a, b)
  {
    hide Sum, Difference, Product;
    assert OPERATIONS[0] == Sum && OPERATIONS[1] == Difference && OPERATIONS[5] == Product;
  }

  /** Addition counts up, subtraction undoes it, and multiplication adds again and again. */
  lemma ArithmeticOperations(a: Word, b: Word)
    ensures ADD == 0 && SUB == 1 && MUL == 5
    ensures Alu(ADD, a, 0) == a && (b > 0 ==> Alu(ADD, a, b) == Successor(Alu(ADD, a, b - 1)))
    ensures Alu(SUB, Alu(ADD, a, b), b) == a && Alu(ADD, Alu(SUB, a, b), b) == a
    ensures Alu(MUL, a, 0) == 0 && (b > 0 ==> Alu(MUL, a, b) == Alu(ADD, Alu(MUL, a, b - 1), a))
  {
    assert Product(a, 0) == 0;
    SumStep(a, b);
    ArithmeticEntries(a, b);
    ArithmeticEntries(a, 0);
    ArithmeticEntries(Sum(a, b), b);
    ArithmeticEntries(Difference(a, b), b);
    if b > 0 {
      ProductStep(a, b);
      ArithmeticEntries(a, b - 1);
      ArithmeticEntries(Product(a, b - 1), a);
    }
    hide Sum, Difference, Product, Alu;
  }

  /** The remainder of a division by four. */
  lemma LowTwoBits(x: Word)
    ensures Alu(AND, x, 3) == x % 4
  {
    Pow2Values();
    forall n: nat | n < 32
      ensures BitAt(Alu(AND, x, 3), n) == BitAt(x % 4, n)
    {
      LogicalOperations(x, 3, n);
      assert Pow2(2) == 4;
      if n < 2 {
        RemainderBits(x, 2, n);
        assert BitAt(3, 0) == 1 && BitAt(3, 1) == BitAt(1, 0) == 1;
      } else {
        NoBitsBeyond(3, 2, n);
        NoBitsBeyond(x % 4, 2, n);
      }
    }
    SameBits(Alu(AND, x, 3), x % 4, 32);
  }

  // ----- branches -----

  predicate Exceeds(b: Word, a: Word, d: nat) { d > 0 && a + d == b }

  /** As unsigned words, a comes before b. */
  ghost predicate Less(a: Word, b: Word) { exists d: nat :: Exceeds(b, a, d) }

  /** When the branches are taken, told by the order of the words alone. */
  lemma Conditions(a: Word, b: Word)
    ensures BEQ == 9 && BNE == 10 && BLT == 11 && BGT == 12 && BLE == 13 && BGE == 14 && JAL == 15
    ensures Taken(BLT, a, b) <==> Less(a, b)
    ensures Taken(BGT, a, b) <==> Less(b, a)
    ensures Taken(BLE, a, b) <==> !Less(b, a)
    ensures Taken(BGE, a, b) <==> !Less(a, b)
    ensures Taken(BEQ, a, b) <==> !Less(a, b) && !Less(b, a)
    ensures Taken(BNE, a, b) <==> Less(a, b) || Less(b, a)
    ensures Taken(JAL, a, b)
  {
    if a < b {
      assert Exceeds(b, a, b - a);
    } else if b < a {
      assert Exceeds(a, b, a - b);
    }
  }

  /** Is the branch taken? */
  ghost predicate Jumps(o: Opcode, a: Word, b: Word) {
    || (o == BEQ && !Less(a, b) && !Less(b, a)) || (o == BNE && (Less(a, b) || Less(b, a)))
    || (o == BLT && Less(a, b)) || (o == BGT && Less(b, a))
    || (o == BLE && !Less(b, a)) || (o == BGE && !Less(a, b)) || o == JAL
  }

  /** An address made of the low nine bits of a register. */
  ghost predicate LowNine(pc: nat, rd: Word) { pc < 512 && forall n: nat :: n < 9 ==> BitAt(pc, n) == BitAt(rd, n) }

  lemma TargetBits(rd: Word)
    ensures LowNine(Target(rd), rd)
  {
    assert Pow2(9) == 512;
    forall n: nat | n < 9
      ensures BitAt(Target(rd), n) == BitAt(rd, n)
    {
      RemainderBits(rd, 9, n);
    }
  }

  /** A branch of the sequential machine: its delay slot comes first, and then either the address in the low nine bits
      of register rd or the instruction behind the delay slot. */
  lemma BranchGoes(prog: Program, s: Machine)
    requires s.pc < 0x400 && s.npc < 0x400 && BEQ <= prog[s.pc].opcode <= JAL
    requires !IsBranch(prog[s.npc].opcode) && prog[s.npc].opcode != HALT
    ensures var i := prog[s.pc]; var a, b := ReadReg(s.regs, i.rs, i.imm), ReadReg(s.regs, i.rt, i.imm);
      var slot := Step(prog, s);
      && slot == s.(pc := s.npc, npc := slot.npc)
      && if Jumps(i.opcode, a, b) then LowNine(Step(prog, slot).pc, ReadReg(s.regs, i.rd, i.imm))
         else Step(prog, slot).pc == s.npc + 1
  {
    var i := prog[s.pc];
    Conditions(ReadReg(s.regs, i.rs, i.imm), ReadReg(s.regs, i.rt, i.imm));
    TargetBits(ReadReg(s.regs, i.rd, i.imm));
    hide Taken, Target, Less, LowNine;
  }

  // ----- loads and stores -----

  /** A store and then a load: both addresses are sums of two operands, the load yields the stored word if they are
      equal and otherwise what was there before, and nothing but its register and the stored word has changed. */
  lemma LoadBehindStore(prog: Program, s: Machine, b: Word)
    requires s.pc < 0x400 && s.npc < 0x400 && prog[s.pc].opcode == SW && prog[s.npc].opcode == LW
    ensures SW == 17 && LW == 16
    ensures var i, j := prog[s.pc], prog[s.npc];
      var to := Alu(ADD, ReadReg(s.regs, i.rs, i.imm), ReadReg(s.regs, i.rt, i.imm));
      var from := Alu(ADD, ReadReg(s.regs, j.rs, j.imm), ReadReg(s.regs, j.rt, j.imm));
      var word := ReadReg(s.regs, i.rd, i.imm);
      var s' := Step(prog, Step(prog, s));
      && s'.regs == s.regs[j.rd := if from == to then word else Lookup(s.mem, from)]
      && Lookup(s'.mem, b) == if b == to then word else Lookup(s.mem, b)
  {
    var i, j := prog[s.pc], prog[s.npc];
    ArithmeticEntries(ReadReg(s.regs, i.rs, i.imm), ReadReg(s.regs, i.rt, i.imm));
    ArithmeticEntries(ReadReg(s.regs, j.rs, j.imm), ReadReg(s.regs, j.rt, j.imm));
    hide Sum, Alu;
  }

  // ----- the fields of an instruction -----

  /** Every field has its own bits of the word: opcode 24 to 31, rd 20 to 23, rs 16 to 19, rt 12 to 15, imm 0 to 11. */
  lemma FieldBits(cmd: Word, n: nat)
    ensures var i := Unpack(cmd);
      && (n < 8 ==> BitAt(i.opcode, n) == BitAt(cmd, 24 + n))
      && (n < 4 ==> BitAt(i.rd, n) == BitAt(cmd, 20 + n))
      && (n < 4 ==> BitAt(i.rs, n) == BitAt(cmd, 16 + n))
      && (n < 4 ==> BitAt(i.rt, n) == BitAt(cmd, 12 + n))
      && (n < 12 ==> BitAt(i.imm, n) == BitAt(cmd, n))
  {
    PowersOfTwo();
    QuotientBits(cmd, 24, cmd / 0x100_0000, n);
    QuotientBits(cmd, 20, cmd / 0x10_0000, n);
    QuotientBits(cmd, 16, cmd / 0x1_0000, n);
    QuotientBits(cmd, 12, cmd / 0x1000, n);
    if n < 4 {
      RemainderBits(cmd / 0x10_0000, 4, n);
      RemainderBits(cmd / 0x1_0000, 4, n);
      RemainderBits(cmd / 0x1000, 4, n);
    }
    if n < 12 {
      RemainderBits(cmd, 12, n);
    }
  }

  lemma PowersOfTwo()
    ensures Pow2(4) == 16 && Pow2(8) == 0x100 && Pow2(12) == 0x1000 && Pow2(16) == 0x1_0000
    ensures Pow2(20) == 0x10_0000 && Pow2(24) == 0x100_0000
  {
    assert Pow2(4) == 16;
    assert Pow2(8) == 0x100;
    assert Pow2(12) == 0x1000;
    assert Pow2(16) == 0x1_0000;
    assert Pow2(20) == 0x10_0000;
  }

  lemma SlotBits(a: Addr, n: nat)
    requires n < 8
    ensures BitAt(Slot(IndexOf(a), OffsetOf(a)), n) == BitAt(a, n)
  {
    assert Pow2(4) == 16 && Pow2(8) == 256;
    Quotient(a, 256, a / 4 / 64, Slot(IndexOf(a), OffsetOf(a)));
    RemainderBits(a, 8, n);
  }

  /** The fields of an address: tag 8 to 19, index 2 to 7, offset 0 and 1; the low eight bits are the position of its
      word in the data array of a cache. */
  lemma AddressBits(a: Addr, n: nat)
    ensures n < 12 ==> BitAt(TagOf(a), n) == BitAt(a, 8 + n)
    ensures n < 6 ==> BitAt(IndexOf(a), n) == BitAt(a, 2 + n)
    ensures n < 2 ==> BitAt(OffsetOf(a), n) == BitAt(a, n)
    ensures n < 8 ==> BitAt(Slot(IndexOf(a), OffsetOf(a)), n) == BitAt(a, n)
  {
    PowersOfTwo();
    assert Pow2(2) == 4 && Pow2(6) == 64;
    QuotientBits(a, 8, a / 256, n);
    QuotientBits(a, 2, a / 4, n);
    if n < 6 {
      RemainderBits(a / 4, 6, n);
    }
    if n < 2 {
      RemainderBits(a, 2, n);
    }
    if n < 8 {
      SlotBits(a, n);
    }
  }
}
