/** The invariant that ties the instructions in flight to the sequential machine, and why a cycle keeps it. */
module PipelineInvariant {
  import opened Types
  import opened Isa
  import opened PipelineModel
  import opened PipelineEffects

  // ----- what the instructions in flight are going to do -----

  function RegsAfterW(p: Pipe): Regs {
    if p.w.pc != EMPTY && Writes(p.w.instr) then p.regs[p.w.instr.rd := p.w.result] else p.regs
  }

  function RegsAfterM(p: Pipe): Regs {
    if p.m.pc == EMPTY || !Writes(p.m.instr) then RegsAfterW(p)
    else if IsAlu(p.m.instr.opcode) then RegsAfterW(p)[p.m.instr.rd := p.m.result]
    else ExecRegs(RegsAfterW(p), p.mem, p.m.instr)
  }

  function MemAfterM(p: Pipe): DataMemory {
    if p.m.pc == EMPTY then p.mem else ExecMem(RegsAfterW(p), p.mem, p.m.instr)
  }

  function RegsAfterE(p: Pipe): Regs {
    if p.e.pc == EMPTY || !Writes(p.e.instr) then RegsAfterM(p) else ExecRegs(RegsAfterM(p), MemAfterM(p), p.e.instr)
  }

  function MemAfterE(p: Pipe): DataMemory {
    if p.e.pc == EMPTY then MemAfterM(p) else ExecMem(RegsAfterM(p), MemAfterM(p), p.e.instr)
  }

  // ----- no instruction in flight waits for another -----

  /** Is r a register that instruction i reads before the one ahead of it has been written back? */
  predicate Depends(i: Instruction, r: Reg) {
    r == i.rs || r == i.rt || (IsBranch(i.opcode) && r == i.rd)
  }

  predicate Independent(young: Stage, elder: Stage) {
    young.pc != EMPTY && elder.pc != EMPTY && Writes(elder.instr) ==> !Depends(young.instr, elder.instr.rd)
  }

  /** Also the word that a store takes from its destination register does not come from the instruction just ahead. */
  predicate Apart(young: Stage, elder: Stage) {
    && Independent(young, elder)
    && (young.pc != EMPTY && elder.pc != EMPTY && Writes(elder.instr) && young.instr.opcode == SW ==>
          young.instr.rd != elder.instr.rd)
  }

  predicate Quiet(p: Pipe) {
    Apart(p.e, p.m) && Apart(p.m, p.w) && Independent(p.e, p.w)
  }

  /** An instruction that takes to write-back what its register holds already: a branch, or one that leaves register 0
      as it is. */
  predicate Passive(i: Instruction) { IsBranch(i.opcode) || (IsAlu(i.opcode) && i.rd == 0) }

  predicate Carries(x: Stage, regs: Regs) {
    x.pc != EMPTY && Passive(x.instr) && x.instr.rd != IMM_REG ==> x.result == regs[x.instr.rd]
  }

  /** So does a store, once it has been to memory. */
  predicate Carried(p: Pipe) {
    && Carries(Executed(p), p.regs) && Carries(p.m, p.regs) && Carries(p.w, p.regs)
    && (p.w.pc != EMPTY && p.w.instr.opcode == SW && p.w.instr.rd != IMM_REG ==> p.w.result == p.regs[p.w.instr.rd])
  }

  predicate Halts(x: Stage) { x.pc != EMPTY && x.instr.opcode == HALT }

  /** Nothing follows a HALT. */
  predicate HaltLast(p: Pipe) {
    && (Halts(p.e) ==> p.halted)
    && (Halts(p.m) ==> p.halted && p.e.pc == EMPTY)
    && (Halts(p.w) ==> p.halted && p.e.pc == EMPTY && p.m.pc == EMPTY)
  }

  // ----- draining -----

  /** Write-back changes a register only if the instruction has a result. */
  lemma WriteBackKeeps(p: Pipe)
    requires Legal(p) && Carried(p) && !Halts(p.w)
    ensures SameButImm(Written(p), RegsAfterW(p))
  {
  }

  /** The instruction in the memory stage reads now what it would read behind write-back. */
  lemma MemoryReads(p: Pipe, r: Reg)
    requires Legal(p) && Apart(p.m, p.w) && p.m.pc != EMPTY
    requires r == p.m.instr.rs || r == p.m.instr.rt || (r == p.m.instr.rd && p.m.instr.opcode == SW)
    ensures ReadReg(RegsAfterW(p), r, p.m.instr.imm) == ReadReg(p.regs, r, p.m.instr.imm)
  {
  }

  lemma MemoryEarly(p: Pipe)
    requires Legal(p) && Apart(p.m, p.w) && p.m.pc != EMPTY && IsMemory(p.m.instr.opcode)
    ensures Address(RegsAfterW(p), p.m.instr) == Address(p.regs, p.m.instr)
    ensures ExecMem(RegsAfterW(p), p.mem, p.m.instr) == ExecMem(p.regs, p.mem, p.m.instr)
    ensures p.m.instr.opcode == LW && Writes(p.m.instr) ==>
      RegsAfterM(p) == RegsAfterW(p)[p.m.instr.rd := Accessed(p).result]
  {
    MemoryReads(p, p.m.instr.rs);
    MemoryReads(p, p.m.instr.rt);
    if p.m.instr.opcode == SW {
      MemoryReads(p, p.m.instr.rd);
    }
  }

  /** What write-back and memory were going to do, write-back alone is going to do one cycle later. */
  lemma MemoryDrains(p: Pipe, q: Pipe)
    requires Legal(p) && Apart(p.m, p.w) && Carried(p) && !Halts(p.w) && Advanced(p, q)
    ensures SameButImm(RegsAfterW(q), RegsAfterM(p)) && q.mem == MemAfterM(p)
  {
    WriteBackKeeps(p);
    if p.m.pc != EMPTY && IsMemory(p.m.instr.opcode) {
      MemoryEarly(p);
    }
  }

  lemma ExecSame(a: Regs, b: Regs, mem: DataMemory, i: Instruction)
    requires SameButImm(a, b)
    ensures SameButImm(ExecRegs(a, mem, i), ExecRegs(b, mem, i)) && ExecMem(a, mem, i) == ExecMem(b, mem, i)
  {
    ReadSame(a, b, i.rs, i.imm);
    ReadSame(a, b, i.rt, i.imm);
    ReadSame(a, b, i.rd, i.imm);
  }

  /** The instruction in execute reads now what it would read behind the two ahead of it. */
  lemma ExecuteReads(p: Pipe, r: Reg)
    requires Legal(p) && Apart(p.e, p.m) && Independent(p.e, p.w) && p.e.pc != EMPTY
    requires r == p.e.instr.rs || r == p.e.instr.rt
    ensures ReadReg(RegsAfterM(p), r, p.e.instr.imm) == ReadReg(p.regs, r, p.e.instr.imm)
  {
  }

  /** What the three were going to do, write-back and memory alone are going to do one cycle later. */
  lemma ExecuteDrains(p: Pipe, q: Pipe)
    requires Legal(p) && Quiet(p) && Carried(p) && !Halts(p.w) && Advanced(p, q)
    ensures SameButImm(RegsAfterM(q), RegsAfterE(p)) && MemAfterM(q) == MemAfterE(p)
  {
    MemoryDrains(p, q);
    if p.e.pc != EMPTY {
      if IsAlu(p.e.instr.opcode) {
        ExecuteReads(p, p.e.instr.rs);
        ExecuteReads(p, p.e.instr.rt);
      } else {
        ExecSame(RegsAfterW(q), RegsAfterM(p), q.mem, p.e.instr);
      }
    }
  }

  // ----- what keeps the instructions apart -----

  lemma LegalKept(p: Pipe, q: Pipe)
    requires Legal(p) && Advanced(p, q) && (q.e.pc != EMPTY ==> q.e == Decoded(p) && InFragment(p.d.instr))
    ensures Legal(q)
  {
  }

  /** An instruction that leaves decode is independent of the three ahead of it: this is what the interlock checks. */
  lemma InterlockSeparates(p: Pipe, i: Instruction)
    requires Legal(p) && Leaves(p) && i == p.d.instr
    ensures forall r: Reg | Depends(i, r) ::
              && !(p.e.pc != EMPTY && Writes(p.e.instr) && r == p.e.instr.rd)
              && !(p.m.pc != EMPTY && Writes(p.m.instr) && r == p.m.instr.rd)
              && !(p.w.pc != EMPTY && Writes(p.w.instr) && r == p.w.instr.rd)
  {
  }

  /** The registers that the interlock watches for an instruction, among those that can hold it up. */
  function Watched(i: Instruction, store: bool): set<Reg> {
    (if IsAlu(i.opcode) || i.opcode == LW || (i.opcode == SW && store) then {i.rs, i.rt} else {i.rs, i.rt, i.rd})
    - {0, IMM_REG}
  }

  /** The registers named as destination by the instructions behind decode. */
  function Named(p: Pipe): set<Reg> {
    (if p.e.pc != EMPTY then {p.e.instr.rd} else {}) + (if p.m.pc != EMPTY then {p.m.instr.rd} else {})
    + (if p.w.pc != EMPTY then {p.w.instr.rd} else {})
  }

  /** The interlock holds decode up exactly if the two have a register in common. */
  lemma InterlockExact(p: Pipe)
    ensures DataHazard(p) <==> Watched(p.d.instr, p.w.instr.opcode == SW) * Named(p) != {}
  {
    var both := Watched(p.d.instr, p.w.instr.opcode == SW) * Named(p);
    if DataHazard(p) {
      var x := if Hazard(p, p.e) then p.e else if Hazard(p, p.m) then p.m else p.w;
      assert x.instr.rd in both;
    }
    forall r: Reg | r in both
      ensures DataHazard(p)
    {
    }
  }

  lemma QuietKept(p: Pipe, q: Pipe)
    requires Legal(p) && Quiet(p) && Advanced(p, q)
    requires q.e.pc != EMPTY ==> Leaves(p) && q.e.instr == p.d.instr && Apart(q.e, p.e)
    ensures Quiet(q)
  {
    if q.e.pc != EMPTY {
      InterlockSeparates(p, p.d.instr);
    }
  }

  lemma HaltLastKept(p: Pipe, q: Pipe)
    requires HaltLast(p) && Advanced(p, q) && (p.halted ==> q.halted && q.e.pc == EMPTY) && (Halts(q.e) ==> q.halted)
    ensures HaltLast(q)
  {
  }

  /** The registers that the instructions in flight carry keep their contents. */
  lemma CarriedKept(p: Pipe, q: Pipe)
    requires Legal(p) && Quiet(p) && Carried(p) && HaltLast(p) && Advanced(p, q)
    requires q.e.pc != EMPTY ==> !p.halted && Leaves(p) && q.e == Decoded(p)
    requires q.e.pc != EMPTY && IsAlu(q.e.instr.opcode) && q.e.instr.rd == 0 ==> Executed(q).result == q.regs[0]
    ensures Carried(q)
  {
    if !Halts(p.w) {
      WriteBackKeeps(p);
    }
    if q.e.pc != EMPTY {
      InterlockSeparates(p, p.d.instr);
    }
  }

  /** Every operand of an instruction that leaves decode is the one of the sequential machine. */
  lemma OperandsReady(p: Pipe, r: Reg)
    requires Legal(p) && Leaves(p) && Depends(p.d.instr, r)
    ensures ReadReg(RegsAfterE(p), r, p.d.instr.imm) == ReadReg(p.regs, r, p.d.instr.imm)
  {
    InterlockSeparates(p, p.d.instr);
  }

  /** An instruction that leaves decode finds in execute what it would have read in decode. */
  lemma OperandsStay(p: Pipe, q: Pipe, r: Reg)
    requires Legal(p) && Carried(p) && !Halts(p.w) && Advanced(p, q) && Leaves(p)
    requires r == p.d.instr.rs || r == p.d.instr.rt || r == 0
    ensures ReadReg(q.regs, r, p.d.instr.imm) == ReadReg(p.regs, r, p.d.instr.imm)
  {
    WriteBackKeeps(p);
    InterlockSeparates(p, p.d.instr);
  }

  // ----- a store right behind the instruction that computes its word -----

  /** The interlock lets it through only behind another store. */
  lemma StoreExemption(p: Pipe)
    requires p.e.pc != EMPTY && p.e.instr.rd >= 2 && p.d.instr.opcode == SW && p.d.instr.rd == p.e.instr.rd
    ensures !DataHazard(p) ==> p.w.instr.opcode == SW
  {
  }
}
