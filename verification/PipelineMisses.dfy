/** A memory that answers late: the cycle that waits is completed when the answer comes. */
module PipelineMisses {
  import opened Types
  import opened Isa
  import opened PipelineModel
  import opened PipelineEffects
  import opened PipelineInvariant
  import opened PipelineRefinement

  /** The access reads the same operands behind write-back as beside it. */
  lemma AccessLate(p: Pipe, q: Pipe, prog: Program)
    requires Legal(p) && Quiet(p) && Carried(p) && HaltLast(p) && Awaits(p, q, prog)
    ensures Accessed(q) == Accessed(p)
    ensures ExecMem(q.regs, q.mem, q.m.instr) == ExecMem(p.regs, p.mem, p.m.instr)
  {
    var i := p.m.instr;
    WriteBackKeeps(p);
    MemoryReads(p, i.rs);
    MemoryReads(p, i.rt);
    ReadSame(q.regs, RegsAfterW(p), i.rs, i.imm);
    ReadSame(q.regs, RegsAfterW(p), i.rt, i.imm);
    if i.opcode == SW {
      MemoryReads(p, i.rd);
      ReadSame(q.regs, RegsAfterW(p), i.rd, i.imm);
    }
  }

  /** Waiting changes the verdict of the interlock only for an instruction that write-back alone holds. */
  lemma HazardLate(p: Pipe, q: Pipe, prog: Program)
    requires Awaits(p, q, prog) && !Slips(p) && !q.halted && p.d.pc != EMPTY
    ensures DataHazard(q) == DataHazard(p)
  {
  }

  /** The cycle in which the answer comes, in the terms of the one that asked. */
  lemma AnswerShape(q: Pipe, prog: Program, m: Stage, mem: DataMemory)
    requires q.memStall && Asks(q) && q.w.pc == EMPTY && m == Accessed(q) && mem == ExecMem(q.regs, q.mem, q.m.instr)
    ensures var r := Iterate(q, prog, true); var h := DataHazard(q);
      && r == q.(regs := r.regs, memStall := false, dataStall := h, mem := mem, w := m, m := Move(q.e, m),
                 e := if h then q.e.(pc := EMPTY) else Move(q.d, q.e),
                 d := if q.halted then r.d else if h then q.d else Move(q.f, q.d),
                 f := if q.halted then q.f.(pc := EMPTY) else q.f,
                 decodeStalls := r.decodeStalls)
      && (q.halted ==> r.d.pc == EMPTY)
      && SameButImm(r.regs, q.regs)
  {
    var q0 := q.(dataStall := DataHazard(q));
    assert Front(q0, prog) == q0;
    BackWaiting(q0, true);
  }

  /** Unless the instruction in decode slips, asking, waiting and the answer add up to one cycle. */
  lemma AnswerEffect(p: Pipe, q: Pipe, prog: Program)
    requires Legal(p) && Quiet(p) && Carried(p) && HaltLast(p) && Awaits(p, q, prog) && !Slips(p)
    requires p.d.pc == EMPTY && !p.halted ==> p.d.instr == Clear(EMPTY).instr
    requires p.halted ==> p.d.pc == EMPTY
    ensures Advanced(p, Iterate(q, prog, true)) && Supplied(p, Iterate(q, prog, true), prog)
  {
    AccessLate(p, q, prog);
    AnswerShape(q, prog, Accessed(p), ExecMem(p.regs, p.mem, p.m.instr));
    var r := Iterate(q, prog, true);
    AnswerAdvances(p, q, r, prog);
    if !q.halted && p.d.pc != EMPTY {
      HazardLate(p, q, prog);
    }
    AnswerSupplies(p, q, r, prog);
  }

  lemma AnswerAdvances(p: Pipe, q: Pipe, r: Pipe, prog: Program)
    requires Awaits(p, q, prog) && !r.memStall && r.w == Accessed(p) && r.m == Move(q.e, Accessed(p))
    requires r.mem == ExecMem(p.regs, p.mem, p.m.instr) && SameButImm(r.regs, q.regs)
    ensures Advanced(p, r)
  {
  }

  lemma AnswerSupplies(p: Pipe, q: Pipe, r: Pipe, prog: Program)
    requires Awaits(p, q, prog) && r.halted == q.halted && (q.halted ==> r.d.pc == EMPTY && r.f.pc == EMPTY)
    requires r.e == if DataHazard(q) then q.e.(pc := EMPTY) else Move(q.d, q.e)
    requires !q.halted ==>
      r.d == (if DataHazard(q) then q.d else Move(q.f, q.d)) && r.f == q.f && r.pc == q.pc &&
      r.dataStall == DataHazard(q)
    requires !q.halted && p.d.pc != EMPTY ==> DataHazard(q) == DataHazard(p)
    requires p.d.pc == EMPTY && !p.halted ==> p.d.instr == Clear(EMPTY).instr
    requires p.halted ==> p.d.pc == EMPTY
    ensures Supplied(p, r, prog)
  {
  }
}
