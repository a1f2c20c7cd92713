/** The pipeline computes what the sequential machine does. */
module PipelineRefinement {
  import opened Types
  import opened Isa
  import opened PipelineModel
  import opened PipelineEffects
  import opened PipelineInvariant

  /** Registers 2 .. 15 agree, and register 0 as long as no HALT has left decode. */
  predicate Agree(a: Regs, b: Regs, halted: bool) {
    forall r: Reg :: r >= 2 || (r == 0 && !halted) ==> a[r] == b[r]
  }

  /** Decode holds the next instruction of the sequential machine, and the program counter names the one after it. */
  predicate InStep(p: Pipe, prog: Program, s: Machine) {
    if p.halted then p.d.pc == EMPTY && p.f.pc == EMPTY && Fetch(prog, s.pc).opcode == HALT
    else if p.d.pc == EMPTY then p.d.instr == Clear(EMPTY).instr && p.pc == s.pc && s.npc == s.pc + 1
    else p.d.pc == s.pc && p.d.instr == Fetch(prog, s.pc) && p.pc == s.npc
  }

  /** The instruction that the sequential machine executes in its k-th step. */
  function Nth(prog: Program, s0: Machine, k: nat): Instruction { Fetch(prog, Steps(prog, s0, k).pc) }

  /** Is the instruction two or three places before the n-th one a store? */
  predicate NearStore(prog: Program, s0: Machine, n: nat) {
    (n >= 2 && Nth(prog, s0, n - 2).opcode == SW) || (n >= 3 && Nth(prog, s0, n - 3).opcode == SW)
  }

  /** Is the n-th instruction of the sequential run one of the fragment?  What it computes for register 0 has to be in
      there already; and if a store stands two or three places before it, it does not store the register written by the
      instruction just before it. */
  ghost predicate Proper(prog: Program, s0: Machine, n: nat) {
    var s, i := Steps(prog, s0, n), Nth(prog, s0, n);
    && s.pc < |prog| && InFragment(i)
    && (IsAlu(i.opcode) && i.rd == 0 ==> ExecRegs(s.regs, s.mem, i) == s.regs)
    && (n > 0 && i.opcode == SW && NearStore(prog, s0, n) ==>
          Writes(Nth(prog, s0, n - 1)) ==> i.rd != Nth(prog, s0, n - 1).rd)
  }

  /** A program that keeps to the fragment wherever it goes. */
  ghost predicate ProperRun(prog: Program, s0: Machine) {
    forall n: nat :: Proper(prog, s0, n)
  }

  /** Does the stage hold an instruction of the sequential run (a HALT is not executed)? */
  function Holding(x: Stage): nat { if x.pc != EMPTY && x.instr.opcode != HALT then 1 else 0 }

  /** The stages hold the last instructions executed, in order and without gaps; write-back still shows the last one
      that it has held, if that was a store. */
  ghost predicate InOrder(p: Pipe, prog: Program, s0: Machine, n: nat) {
    && Holding(p.e) + Holding(p.m) + Holding(p.w) <= n
    && (Holding(p.e) == 1 ==> p.e.instr == Nth(prog, s0, n - 1))
    && (Holding(p.m) == 1 ==> p.m.instr == Nth(prog, s0, n - Holding(p.e) - 1))
    && var k := n - Holding(p.e) - Holding(p.m);
       && (Holding(p.w) == 1 ==> p.w.instr == Nth(prog, s0, k - 1))
       && (p.w.instr.opcode == SW ==> k > 0 && p.w.instr == Nth(prog, s0, k - 1))
  }

  ghost predicate Tracks(p: Pipe, prog: Program, s0: Machine, n: nat) {
    var s := Steps(prog, s0, n);
    && !p.memStall && Legal(p) && Quiet(p) && Carried(p) && HaltLast(p) && InStep(p, prog, s) && InOrder(p, prog, s0, n)
    && Agree(RegsAfterE(p), s.regs, p.halted) && MemAfterE(p) == s.mem
  }

  /** The instruction that a cycle lets the sequential machine execute, if any. */
  predicate Issued(p: Pipe) { Leaves(p) && p.d.instr.opcode != HALT }

  lemma BranchesAgree(p: Pipe, prog: Program, s: Machine)
    requires Legal(p) && Leaves(p) && Agree(RegsAfterE(p), s.regs, false) && IsBranch(p.d.instr.opcode)
    requires s.npc < |prog|
    ensures Followed(p, s.npc + 1) == NextPc(s, p.d.instr)
  {
    var i := p.d.instr;
    OperandsReady(p, i.rs);
    OperandsReady(p, i.rt);
    OperandsReady(p, i.rd);
  }

  /** Fetch and decode keep pace with the sequential machine, through taken branches and their delay slots. */
  lemma InStepKept(p: Pipe, q: Pipe, prog: Program, s: Machine)
    requires Legal(p) && InStep(p, prog, s) && Supplied(p, q, prog) && s.pc < |prog|
    requires Issued(p) ==> s.npc < |prog|
    requires !p.halted ==> Agree(RegsAfterE(p), s.regs, false)
    ensures InStep(q, prog, if Issued(p) then Step(prog, s) else s)
  {
    if Issued(p) && IsBranch(p.d.instr.opcode) {
      BranchesAgree(p, prog, s);
    }
  }

  // ----- the order of the instructions -----

  lemma HoldingKept(p: Pipe, q: Pipe, prog: Program)
    requires Advanced(p, q) && Supplied(p, q, prog)
    ensures Holding(q.e) == (if Issued(p) then 1 else 0) && Holding(q.m) == Holding(p.e)
    ensures Holding(q.w) == Holding(p.m)
    ensures Holding(q.e) == 1 ==> q.e.instr == p.d.instr
    ensures Holding(q.m) == 1 ==> q.m.instr == p.e.instr
    ensures q.w.instr == if p.m.pc == EMPTY then p.w.instr else p.m.instr
  {
  }

  lemma InOrderKept(p: Pipe, q: Pipe, prog: Program, s0: Machine, n: nat)
    requires InOrder(p, prog, s0, n) && Advanced(p, q) && Supplied(p, q, prog)
    requires Issued(p) ==> p.d.instr == Nth(prog, s0, n)
    ensures InOrder(q, prog, s0, if Issued(p) then n + 1 else n)
  {
    HoldingKept(p, q, prog);
  }

  /** A store that write-back still shows stands two or three places before the instruction in decode. */
  lemma ShownStore(p: Pipe, prog: Program, s0: Machine, n: nat)
    requires InOrder(p, prog, s0, n) && Holding(p.e) == 1 && p.w.instr.opcode == SW
    ensures NearStore(prog, s0, n)
  {
    assert p.w.instr == Nth(prog, s0, n - Holding(p.m) - 2);
  }

  /** A store that leaves decode does not store the register that the instruction in execute writes: the interlock holds
      it, except behind a store in write-back, and there the program does not have such a pair. */
  lemma StoreApart(p: Pipe, prog: Program, s0: Machine, n: nat)
    requires Proper(prog, s0, n) && InOrder(p, prog, s0, n) && Leaves(p) && p.d.instr == Nth(prog, s0, n)
    requires p.d.instr.opcode == SW && p.e.pc != EMPTY && Writes(p.e.instr)
    ensures p.d.instr.rd != p.e.instr.rd
  {
    if p.d.instr.rd == p.e.instr.rd {
      StoreExemption(p);
      ShownStore(p, prog, s0, n);
    }
  }

  lemma IssuedApart(p: Pipe, q: Pipe, prog: Program, s0: Machine, n: nat)
    requires Proper(prog, s0, n) && InOrder(p, prog, s0, n) && Legal(p) && p.d.instr == Nth(prog, s0, n)
    requires Leaves(p) && q.e.pc != EMPTY && q.e.instr == p.d.instr
    ensures Apart(q.e, p.e)
  {
    InterlockSeparates(p, p.d.instr);
    if q.e.instr.opcode == SW && p.e.pc != EMPTY && Writes(p.e.instr) {
      StoreApart(p, prog, s0, n);
    }
  }

  // ----- the state -----

  /** What an instruction computes for register 0 is what register 0 holds. */
  lemma IssuedPassive(p: Pipe, q: Pipe, prog: Program, s0: Machine, n: nat)
    requires Proper(prog, s0, n) && Tracks(p, prog, s0, n) && Advanced(p, q) && Leaves(p) && !p.halted && !Halts(p.w)
    requires q.e == Decoded(p) && p.d.instr == Nth(prog, s0, n) && IsAlu(p.d.instr.opcode) && p.d.instr.rd == 0
    ensures Executed(q).result == q.regs[0]
  {
    var i, s := p.d.instr, Steps(prog, s0, n);
    OperandsReady(p, i.rs);
    OperandsReady(p, i.rt);
    OperandsStay(p, q, i.rs);
    OperandsStay(p, q, i.rt);
    OperandsStay(p, q, 0);
    AgreeReads(RegsAfterE(p), s.regs, i.rs, i.imm);
    AgreeReads(RegsAfterE(p), s.regs, i.rt, i.imm);
    assert ExecRegs(s.regs, s.mem, i)[0] == s.regs[0];
    assert RegsAfterE(p)[0] == p.regs[0];
  }

  lemma AgreeReads(a: Regs, b: Regs, r: Reg, imm: Immediate)
    requires Agree(a, b, false)
    ensures ReadReg(a, r, imm) == ReadReg(b, r, imm)
  {
  }

  /** Behind a cycle, the instructions in flight are going to leave the state of the sequential machine. */
  lemma StateKept(p: Pipe, q: Pipe, s: Machine)
    requires Legal(p) && Quiet(p) && Carried(p) && HaltLast(p) && Advanced(p, q) && !Halts(p.w)
    requires Agree(RegsAfterE(p), s.regs, p.halted) && MemAfterE(p) == s.mem && (p.halted ==> q.halted)
    requires q.e.pc != EMPTY ==> !p.halted
    requires q.e.pc != EMPTY ==> InFragment(q.e.instr)
    requires q.e.pc != EMPTY && IsAlu(q.e.instr.opcode) && q.e.instr.rd == 0 ==>
      ExecRegs(s.regs, s.mem, q.e.instr) == s.regs
    ensures q.e.pc == EMPTY ==> Agree(RegsAfterE(q), s.regs, q.halted) && MemAfterE(q) == s.mem
    ensures q.e.pc != EMPTY ==>
              Agree(RegsAfterE(q), ExecRegs(s.regs, s.mem, q.e.instr), q.halted)
              && MemAfterE(q) == ExecMem(s.regs, s.mem, q.e.instr)
  {
    ExecuteDrains(p, q);
    if q.e.pc != EMPTY {
      AgreeExec(RegsAfterM(q), s.regs, s.mem, q.e.instr);
      if !Writes(q.e.instr) {
        NoResult(s.regs, s.mem, q.e.instr);
      }
    }
  }

  lemma NoResult(regs: Regs, mem: DataMemory, i: Instruction)
    requires InFragment(i) && !Writes(i) && (IsAlu(i.opcode) && i.rd == 0 ==> ExecRegs(regs, mem, i) == regs)
    ensures Agree(regs, ExecRegs(regs, mem, i), false)
  {
  }

  lemma AgreeExec(a: Regs, b: Regs, mem: DataMemory, i: Instruction)
    requires Agree(a, b, false)
    ensures Agree(ExecRegs(a, mem, i), ExecRegs(b, mem, i), false) && ExecMem(a, mem, i) == ExecMem(b, mem, i)
  {
    var c := b[IMM_REG := a[IMM_REG]];
    assert SameButImm(a, c) && SameButImm(b, c);
    ExecSame(a, c, mem, i);
    ExecSame(b, c, mem, i);
  }

  /** A HALT in write-back touches no register that counts, and nothing else is left in flight. */
  lemma HaltWritten(p: Pipe, q: Pipe, s: Machine)
    requires Legal(p) && HaltLast(p) && Halts(p.w) && Advanced(p, q) && q.e.pc == EMPTY && q.halted
    requires Agree(RegsAfterE(p), s.regs, p.halted) && MemAfterE(p) == s.mem
    ensures Agree(RegsAfterE(q), s.regs, q.halted) && MemAfterE(q) == s.mem
  {
  }

  /** One cycle in which memory answers: the sequential machine executes the instruction that leaves decode. */
  lemma CycleTracks(p: Pipe, q: Pipe, prog: Program, s0: Machine, n: nat)
    requires ProperRun(prog, s0) && Tracks(p, prog, s0, n) && Advanced(p, q) && Supplied(p, q, prog)
    ensures Tracks(q, prog, s0, if Issued(p) then n + 1 else n)
  {
    var s := Steps(prog, s0, n);
    assert Proper(prog, s0, n) && Proper(prog, s0, n + 1);
    assert Steps(prog, s0, n + 1) == Step(prog, s);
    InStepKept(p, q, prog, s);
    LegalKept(p, q);
    if q.e.pc != EMPTY {
      IssuedApart(p, q, prog, s0, n);
      if IsAlu(q.e.instr.opcode) && q.e.instr.rd == 0 {
        IssuedPassive(p, q, prog, s0, n);
      }
    }
    InOrderKept(p, q, prog, s0, n);
    QuietKept(p, q);
    HaltLastKept(p, q);
    CarriedKept(p, q);
    if Halts(p.w) {
      HaltWritten(p, q, s);
    } else {
      StateKept(p, q, s);
    }
  }
}
