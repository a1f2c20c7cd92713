/** What a cycle of the pipeline needs to know about the memory: at most one word, at the address of one access. */
module PipelineMemory {
  import opened Types
  import opened Isa
  import opened PipelineModel
  import opened PipelineEffects

  /** The address and the data of the access in the memory stage. */
  function AccessAddress(p: Pipe): Word { Address(p.regs, p.m.instr) }

  function AccessData(p: Pipe): Word { ReadReg(p.regs, p.m.instr.rd, p.m.instr.imm) }

  predicate Reads(p: Pipe) { Asks(p) && p.m.instr.opcode == LW }

  predicate Stores(p: Pipe) { Asks(p) && p.m.instr.opcode == SW }

  /** A memory after the access of a cycle. */
  function MemoryAfter(p: Pipe, mem: DataMemory, ready: bool): DataMemory {
    if Stores(p) && ready then mem[AccessAddress(p) := AccessData(p)] else mem
  }

  lemma FrontMem(p: Pipe, mem: DataMemory, prog: Program)
    ensures Front(p.(mem := mem), prog) == Front(p, prog).(mem := mem)
    ensures SameButImm(Front(p, prog).regs, p.regs) && Front(p, prog).m == p.m && Front(p, prog).mem == p.mem
  {
  }

  lemma ExecuteMem(p: Pipe, mem: DataMemory)
    ensures ExecuteStage(p.(mem := mem)) == ExecuteStage(p).(mem := mem)
    ensures SameButImm(ExecuteStage(p).regs, p.regs) && ExecuteStage(p).m == p.m && ExecuteStage(p).mem == p.mem
  {
  }

  lemma MemoryMem(p: Pipe, mem: DataMemory, ready: bool)
    requires p.m.pc != EMPTY && (Reads(p) && ready ==> Lookup(mem, AccessAddress(p)) == Lookup(p.mem, AccessAddress(p)))
    ensures MemoryStage(p.(mem := mem), ready) == MemoryStage(p, ready).(mem := MemoryAfter(p, mem, ready))
  {
    var i := p.m.instr;
    EnteredReads(p.regs, i, i.rs);
    EnteredReads(p.regs, i, i.rt);
    EnteredReads(p.regs, i, i.rd);
  }

  lemma WriteBackMem(p: Pipe, mem: DataMemory)
    ensures WriteBackStage(p.(mem := mem)) == WriteBackStage(p).(mem := mem)
  {
  }

  lemma SameAccess(p: Pipe, q: Pipe)
    requires SameButImm(q.regs, p.regs) && q.m == p.m
    ensures AccessAddress(q) == AccessAddress(p) && AccessData(q) == AccessData(p)
  {
    var i := p.m.instr;
    ReadSame(q.regs, p.regs, i.rs, i.imm);
    ReadSame(q.regs, p.regs, i.rt, i.imm);
    ReadSame(q.regs, p.regs, i.rd, i.imm);
  }

  /** The three stages behind decode, each left out where the pipeline leaves it out. */
  function ExecutePart(p: Pipe): Pipe { if p.memStall || p.e.pc == EMPTY then p else ExecuteStage(p) }

  function MemoryPart(p: Pipe, ready: bool): Pipe { if p.m.pc == EMPTY then p else MemoryStage(p, ready) }

  function WritePart(p: Pipe): Pipe { if p.w.pc == EMPTY then p else WriteBackStage(p) }

  lemma BackParts(p: Pipe, ready: bool)
    ensures Back(p, ready) == WritePart(MemoryPart(ExecutePart(p), ready))
  {
  }

  lemma ExecutePartMem(p: Pipe, mem: DataMemory)
    ensures ExecutePart(p.(mem := mem)) == ExecutePart(p).(mem := mem)
    ensures SameButImm(ExecutePart(p).regs, p.regs) && ExecutePart(p).m == p.m && ExecutePart(p).mem == p.mem
  {
    ExecuteMem(p, mem);
  }

  lemma MemoryPartMem(p: Pipe, mem: DataMemory, ready: bool)
    requires Reads(p) && ready ==> Lookup(mem, AccessAddress(p)) == Lookup(p.mem, AccessAddress(p))
    ensures MemoryPart(p.(mem := mem), ready) == MemoryPart(p, ready).(mem := MemoryAfter(p, mem, ready))
  {
    if p.m.pc != EMPTY {
      MemoryMem(p, mem, ready);
    }
  }

  lemma WritePartMem(p: Pipe, mem: DataMemory)
    ensures WritePart(p.(mem := mem)) == WritePart(p).(mem := mem)
  {
    WriteBackMem(p, mem);
  }

  lemma BackMem(p: Pipe, mem: DataMemory, ready: bool)
    requires Reads(p) && ready ==> Lookup(mem, AccessAddress(p)) == Lookup(p.mem, AccessAddress(p))
    ensures Back(p.(mem := mem), ready) == Back(p, ready).(mem := MemoryAfter(p, mem, ready))
  {
    var q, x := ExecutePart(p), MemoryAfter(p, mem, ready);
    ExecutePartMem(p, mem);
    SameAccess(p, q);
    assert MemoryAfter(q, mem, ready) == x;
    MemoryPartMem(q, mem, ready);
    WritePartMem(MemoryPart(q, ready), x);
    BackParts(p, ready);
    BackParts(p.(mem := mem), ready);
  }

  function Prepared(p: Pipe): Pipe { p.(dataStall := DataHazard(p)) }

  function HandedOn(p: Pipe): Pipe { Bubbles(Count(p)) }

  lemma IterateParts(p: Pipe, prog: Program, ready: bool)
    ensures Iterate(p, prog, ready) == HandedOn(Back(Front(Prepared(p), prog), ready))
  {
  }

  lemma PreparedMem(p: Pipe, mem: DataMemory)
    ensures Prepared(p.(mem := mem)) == Prepared(p).(mem := mem)
  {
  }

  lemma HandedOnMem(p: Pipe, mem: DataMemory)
    ensures HandedOn(p.(mem := mem)) == HandedOn(p).(mem := mem)
  {
  }

  /** Whatever the memory holds elsewhere, a cycle is the same. */
  lemma IterateMem(p: Pipe, mem: DataMemory, prog: Program, ready: bool)
    requires Reads(p) && ready ==> Lookup(mem, AccessAddress(p)) == Lookup(p.mem, AccessAddress(p))
    ensures Iterate(p.(mem := mem), prog, ready) == Iterate(p, prog, ready).(mem := MemoryAfter(p, mem, ready))
  {
    var a, x := Front(Prepared(p), prog), MemoryAfter(p, mem, ready);
    PreparedMem(p, mem);
    FrontMem(Prepared(p), mem, prog);
    SameAccess(p, a);
    assert MemoryAfter(a, mem, ready) == x;
    BackMem(a, mem, ready);
    HandedOnMem(Back(a, ready), x);
    IterateParts(p, prog, ready);
    IterateParts(p.(mem := mem), prog, ready);
  }

  /** So is a cycle of the core; a core that is not running does not access memory. */
  predicate Running(c: CoreState) { !c.isHalted && !Flushed(c.pipe) }

  function SetMem(c: CoreState, mem: DataMemory): CoreState { c.(pipe := c.pipe.(mem := mem)) }

  lemma CycleMem(c: CoreState, mem: DataMemory, prog: Program, ready: bool)
    requires Running(c) && Reads(c.pipe) && ready ==>
      Lookup(mem, AccessAddress(c.pipe)) == Lookup(c.pipe.mem, AccessAddress(c.pipe))
    ensures Cycle(SetMem(c, mem), prog, ready) ==
      SetMem(Cycle(c, prog, ready), if Running(c) then MemoryAfter(c.pipe, mem, ready) else mem)
  {
    if Running(c) {
      IterateMem(c.pipe, mem, prog, ready);
    }
  }
}
