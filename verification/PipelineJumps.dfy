/** Branches in the pipeline, JAL among them, whatever stands in the other stages. */
module PipelineJumps {
  import opened Types
  import opened Isa
  import opened IsaLaws
  import opened PipelineModel

  /** Execute is not going to run the table entry of a branch. */
  predicate Straight(x: Stage) { x.pc == EMPTY || IsBranch(x.instr.opcode) || !IsBranch(x.operation) }

  predicate BranchIn(x: Stage) { x.pc != EMPTY && BEQ <= x.instr.opcode <= JAL }

  lemma BackKeepsPc(p: Pipe)
    requires Straight(p.e) && !p.memStall
    ensures Back(p, true).pc == p.pc && Back(p, true).d == p.d && !Back(p, true).memStall
  {
  }

  /** A branch that is not held up in decode goes on to execute with the value of register rd as its result, and the
      next instruction to be fetched is at the address in the low nine bits of that value, or where it would be
      anyway. */
  lemma BranchDecoded(p: Pipe, prog: Program)
    requires !p.memStall && !p.halted && BranchIn(p.d) && !DataHazard(p) && Straight(p.e)
    ensures var i, q := p.d.instr, Iterate(p, prog, true);
      var a, b, d := ReadReg(p.regs, i.rs, i.imm), ReadReg(p.regs, i.rt, i.imm), ReadReg(p.regs, i.rd, i.imm);
      && !q.memStall && q.e == p.d.(result := d, operation := i.opcode)
      && if Jumps(i.opcode, a, b) then LowNine(q.pc, d) else q.pc == (p.pc + 1) % 0x1_0000
  {
    var i := p.d.instr;
    Conditions(ReadReg(p.regs, i.rs, i.imm), ReadReg(p.regs, i.rt, i.imm));
    TargetBits(ReadReg(p.regs, i.rd, i.imm));
    BackKeepsPc(Front(p.(dataStall := false), prog));
    hide Taken, Target, Less, LowNine, DataHazard;
  }

  /** It passes execute and memory as it is, and is written back. */
  lemma BackPasses(p: Pipe)
    requires !p.memStall
    ensures var q := Back(p, true);
      && !q.memStall && q.dataStall == p.dataStall && q.halted == p.halted
      && (BranchIn(p.e) ==> q.e == p.e) && (BranchIn(p.m) ==> q.m == p.m)
      && (BranchIn(p.w) ==> q.regs[if p.w.instr.opcode == JAL then 15 else p.w.instr.rd] == p.w.result)
  {
    hide Operate, Entered, Lookup, Sum;
    var q := if p.e.pc == EMPTY then p else ExecuteStage(p);
    assert q.m == p.m && q.w == p.w && !q.memStall;
    var r := if q.m.pc == EMPTY then q else MemoryStage(q, true);
    assert r.e == q.e && r.w == p.w;
  }

  lemma FrontPasses(p: Pipe, prog: Program)
    ensures var q := Front(p, prog); q.e == p.e && q.m == p.m && q.w == p.w && q.memStall == p.memStall
  {
  }

  lemma BranchPasses(p: Pipe, prog: Program)
    requires !p.memStall
    ensures var q := Iterate(p, prog, true);
      && !q.memStall && (BranchIn(p.e) ==> q.m == p.e) && (BranchIn(p.m) ==> q.w == p.m)
      && (BranchIn(p.w) ==> q.regs[if p.w.instr.opcode == JAL then 15 else p.w.instr.rd] == p.w.result)
  {
    hide Front, Back, DataHazard;
    var p0 := p.(dataStall := DataHazard(p));
    FrontPasses(p0, prog);
    BackPasses(Front(p0, prog));
  }

  /** Three cycles after JAL has left decode, register 15 holds what register rd held then: not a return address. */
  lemma JalWrites(p: Pipe, prog: Program)
    requires !p.memStall && !p.halted && p.d.pc != EMPTY && p.d.instr.opcode == JAL && !DataHazard(p) && Straight(p.e)
    ensures var q := Iterate(Iterate(Iterate(Iterate(p, prog, true), prog, true), prog, true), prog, true);
      q.regs[15] == ReadReg(p.regs, p.d.instr.rd, p.d.instr.imm)
  {
    hide Iterate;
    BranchDecoded(p, prog);
    var q1 := Iterate(p, prog, true);
    BranchPasses(q1, prog);
    var q2 := Iterate(q1, prog, true);
    BranchPasses(q2, prog);
    BranchPasses(Iterate(q2, prog, true), prog);
  }
}
