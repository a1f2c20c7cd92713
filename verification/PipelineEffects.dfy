/** What a cycle does to the pipeline, stage by stage, for the instructions of the fragment. */
module PipelineEffects {
  import opened Types
  import opened Isa
  import opened PipelineModel

  /** Does the instruction have a result that another one may read? */
  predicate Writes(i: Instruction) { (IsAlu(i.opcode) || i.opcode == LW) && i.rd >= 2 }

  /** The instructions of the fragment.  No load goes to register 0, and HALT names register 0 or 1. */
  predicate InFragment(i: Instruction) {
    && (IsAlu(i.opcode) || (IsBranch(i.opcode) && i.opcode != JAL) || IsMemory(i.opcode) || i.opcode == HALT)
    && (i.opcode == LW ==> i.rd != 0)
    && (i.opcode == HALT ==> i.rd < 2)
  }

  /** The instructions in flight belong to the fragment, and execute is going to run the right table entry. */
  predicate Legal(p: Pipe) {
    && (p.e.pc != EMPTY ==> InFragment(p.e.instr) && (IsAlu(p.e.instr.opcode) ==> p.e.operation == p.e.instr.opcode))
    && (p.m.pc != EMPTY ==> InFragment(p.m.instr))
    && (p.w.pc != EMPTY ==> InFragment(p.w.instr))
  }

  /** Register 1 only ever carries the immediate of the instruction that reads it. */
  predicate SameButImm(a: Regs, b: Regs) {
    forall r: Reg :: r != IMM_REG ==> a[r] == b[r]
  }

  /** The instruction in execute has computed its result. */
  function Executed(p: Pipe): Stage {
    var i := p.e.instr;
    if IsAlu(i.opcode) then
      p.e.(result := Alu(i.opcode, ReadReg(p.regs, i.rs, i.imm), ReadReg(p.regs, i.rt, i.imm)))
    else p.e
  }

  /** The instruction in the memory stage has read or written. */
  function Accessed(p: Pipe): Stage {
    var i := p.m.instr;
    if i.opcode == LW then p.m.(result := Lookup(p.mem, Address(p.regs, i)))
    else if i.opcode == SW then p.m.(result := ReadReg(p.regs, i.rd, i.imm))
    else p.m
  }

  /** The registers once write-back is done. */
  function Written(p: Pipe): Regs {
    if p.w.pc == EMPTY then p.regs else p.regs[p.w.instr.rd := p.w.result]
  }

  lemma EnteredReads(regs: Regs, i: Instruction, r: Reg)
    ensures Entered(regs, i)[r] == ReadReg(regs, r, i.imm)
  {
  }

  lemma ReadSame(a: Regs, b: Regs, r: Reg, imm: Immediate)
    requires SameButImm(a, b)
    ensures ReadReg(a, r, imm) == ReadReg(b, r, imm)
  {
  }

  lemma ExecuteEffect(p: Pipe)
    requires p.e.pc != EMPTY && Legal(p)
    ensures var q := ExecuteStage(p); q == p.(regs := q.regs, e := Executed(p)) && SameButImm(p.regs, q.regs)
  {
  }

  lemma MemoryEffect(p: Pipe)
    requires p.m.pc != EMPTY && !p.memStall
    ensures var q := MemoryStage(p, true);
      && q == p.(regs := q.regs, m := Accessed(p), mem := ExecMem(p.regs, p.mem, p.m.instr))
      && SameButImm(p.regs, q.regs)
  {
  }

  /** Execute, memory and write-back of a cycle in which the data memory answers. */
  lemma BackEffect(p: Pipe)
    requires !p.memStall && Legal(p)
    ensures var q := Back(p, true);
      && q == p.(regs := q.regs, e := if p.e.pc == EMPTY then p.e else Executed(p),
                 m := if p.m.pc == EMPTY then p.m else Accessed(p),
                 mem := if p.m.pc == EMPTY then p.mem else ExecMem(p.regs, p.mem, p.m.instr))
      && SameButImm(q.regs, Written(p))
  {
    var q := p;
    if p.e.pc != EMPTY {
      ExecuteEffect(p);
      q := ExecuteStage(p);
    }
    var r := q;
    if q.m.pc != EMPTY {
      MemoryEffect(q);
      AccessSame(p, q);
      r := MemoryStage(q, true);
    }
    assert Back(p, true) == if r.w.pc == EMPTY then r else WriteBackStage(r);
  }

  /** Memory operations see the same operands whatever register 1 holds. */
  lemma AccessSame(p: Pipe, q: Pipe)
    requires SameButImm(p.regs, q.regs) && p.m == q.m && p.mem == q.mem
    ensures Accessed(p) == Accessed(q) && ExecMem(p.regs, p.mem, p.m.instr) == ExecMem(q.regs, q.mem, q.m.instr)
  {
    var i := p.m.instr;
    ReadSame(p.regs, q.regs, i.rs, i.imm);
    ReadSame(p.regs, q.regs, i.rt, i.imm);
    ReadSame(p.regs, q.regs, i.rd, i.imm);
  }

  /** Execute, memory and write-back of a cycle in which the data memory does not answer yet. */
  lemma BackMiss(p: Pipe)
    requires !p.memStall && Legal(p) && p.m.pc != EMPTY && IsMemory(p.m.instr.opcode)
    ensures var q := Back(p, false);
      && q == p.(regs := q.regs, e := if p.e.pc == EMPTY then p.e else Executed(p),
                 m := p.m.(result := q.m.result), memStall := true)
      && SameButImm(q.regs, Written(p))
  {
    var q := p;
    if p.e.pc != EMPTY {
      ExecuteEffect(p);
      q := ExecuteStage(p);
    }
    var r := MemoryStage(q, false);
    assert Back(p, false) == if r.w.pc == EMPTY then r else WriteBackStage(r);
  }

  /** A further cycle of waiting, and the one in which the answer comes. */
  lemma BackWaiting(p: Pipe, ready: bool)
    requires p.memStall && p.m.pc != EMPTY && IsMemory(p.m.instr.opcode) && p.w.pc == EMPTY
    ensures var q := Back(p, ready);
      && q == p.(regs := q.regs, m := if ready then Accessed(p) else p.m.(result := q.m.result), memStall := !ready,
                 mem := if ready then ExecMem(p.regs, p.mem, p.m.instr) else p.mem)
      && SameButImm(q.regs, p.regs)
  {
  }

  // ----- fetch and decode -----

  /** The instruction in decode, with its table entry, and its result if it is a branch. */
  function Decoded(p: Pipe): Stage {
    var i := p.d.instr;
    if i.opcode == HALT then p.d
    else if !IsBranch(i.opcode) then p.d.(operation := i.opcode)
    else p.d.(operation := i.opcode, result := ReadReg(p.regs, i.rd, i.imm))
  }

  /** Where the program counter stands after the instruction in decode. */
  function Followed(p: Pipe, pc: Pc): Pc {
    var i := p.d.instr;
    if IsBranch(i.opcode) && Taken(i.opcode, ReadReg(p.regs, i.rs, i.imm), ReadReg(p.regs, i.rt, i.imm))
    then Target(ReadReg(p.regs, i.rd, i.imm)) else pc
  }

  /** Is the instruction in decode about to leave it? */
  predicate Issues(p: Pipe) { p.d.pc != EMPTY && !p.dataStall }

  function Fetched(p: Pipe, prog: Program): Stage {
    p.f.(pc := p.pc, instr := Fetch(prog, p.pc))
  }

  function FetchedPc(p: Pipe): Pc {
    if p.halted || p.dataStall then p.pc else (p.pc + 1) % 0x1_0000
  }

  lemma FrontEffect(p: Pipe, prog: Program)
    requires !p.memStall
    ensures var q := Front(p, prog);
      && q == p.(regs := q.regs, f := if p.halted then p.f else Fetched(p, prog),
                 d := if Issues(p) then Decoded(p) else p.d,
                 pc := if Issues(p) then Followed(p, FetchedPc(p)) else FetchedPc(p),
                 halted := p.halted || (Issues(p) && p.d.instr.opcode == HALT))
      && SameButImm(q.regs, p.regs)
  {
    var q := if p.halted then p else FetchStage(p, prog);
    assert q == p.(f := if p.halted then p.f else Fetched(p, prog), pc := FetchedPc(p));
    if Issues(p) {
      DecodeEffect(q);
    }
  }

  lemma DecodeEffect(p: Pipe)
    ensures var q := DecodeStage(p);
      && q == p.(regs := q.regs, d := Decoded(p), pc := Followed(p, p.pc),
                 halted := p.halted || p.d.instr.opcode == HALT)
      && SameButImm(q.regs, p.regs)
  {
    var i := p.d.instr;
    EnteredReads(p.regs, i, i.rd);
    EnteredReads(p.regs, i, i.rs);
    EnteredReads(p.regs, i, i.rt);
  }

  // ----- a whole cycle -----

  /** Every stage behind decode has handed its instruction on. */
  ghost predicate Advanced(p: Pipe, q: Pipe) {
    && !q.memStall
    && (q.w.pc == EMPTY <==> p.m.pc == EMPTY) && (q.m.pc == EMPTY <==> p.e.pc == EMPTY)
    && (p.m.pc != EMPTY ==> q.w == Accessed(p)) && (p.e.pc != EMPTY ==> q.m == Executed(p))
    && (p.m.pc == EMPTY ==> q.w.instr == p.w.instr)
    && SameButImm(q.regs, Written(p))
    && q.mem == if p.m.pc != EMPTY then ExecMem(p.regs, p.mem, p.m.instr) else p.mem
  }

  /** Does the instruction in decode leave it in this cycle? */
  predicate Leaves(p: Pipe) { p.d.pc != EMPTY && !DataHazard(p) }

  /** What fetch and decode have handed on, and where the program counter stands.  A HALT need not move on. */
  ghost predicate Supplied(p: Pipe, q: Pipe, prog: Program) {
    && (q.e.pc != EMPTY ==> Leaves(p) && q.e == Decoded(p))
    && (Leaves(p) && p.d.instr.opcode != HALT ==> q.e.pc != EMPTY)
    && q.halted == (p.halted || (Leaves(p) && p.d.instr.opcode == HALT))
    && (q.halted ==> q.d.pc == EMPTY && q.f.pc == EMPTY)
    && (!q.halted ==>
          && q.dataStall == DataHazard(p)
          && (if DataHazard(p) then q.d == p.d else q.d.pc == p.pc && (p.pc != EMPTY ==> q.d == Fetched(p, prog)))
          && q.f == Fetched(p, prog)
          && q.pc == FrontPc(p))
  }

  /** Where fetch and decode leave the program counter while the pipeline has not halted. */
  function FrontPc(p: Pipe): Pc {
    if Leaves(p) then Followed(p, (p.pc + 1) % 0x1_0000)
    else if DataHazard(p) then p.pc else (p.pc + 1) % 0x1_0000
  }

  lemma ExecutedSame(p: Pipe, q: Pipe)
    requires SameButImm(p.regs, q.regs) && p.e == q.e
    ensures Executed(p) == Executed(q)
  {
    var i := p.e.instr;
    ReadSame(p.regs, q.regs, i.rs, i.imm);
    ReadSame(p.regs, q.regs, i.rt, i.imm);
  }

  /** The stages of such a cycle, before they are handed on. */
  lemma StagesEffect(p: Pipe, prog: Program)
    requires !p.memStall && Legal(p)
    ensures var h := DataHazard(p); var b := Back(Front(p.(dataStall := h), prog), true);
      && b == p.(dataStall := h, regs := b.regs, f := if p.halted then p.f else Fetched(p, prog),
                 d := if Leaves(p) then Decoded(p) else p.d,
                 e := if p.e.pc == EMPTY then p.e else Executed(p),
                 m := if p.m.pc == EMPTY then p.m else Accessed(p),
                 mem := if p.m.pc == EMPTY then p.mem else ExecMem(p.regs, p.mem, p.m.instr),
                 pc := b.pc, halted := p.halted || (Leaves(p) && p.d.instr.opcode == HALT))
      && SameButImm(b.regs, Written(p))
  {
    var p0 := p.(dataStall := DataHazard(p));
    var a := Front(p0, prog);
    FrontEffect(p0, prog);
    BackEffect(a);
    ExecutedSame(p, a);
    AccessSame(p, a);
  }

  lemma StagesPc(p: Pipe, prog: Program)
    requires !p.memStall && Legal(p) && !p.halted
    ensures Back(Front(p.(dataStall := DataHazard(p)), prog), true).pc == FrontPc(p)
  {
    var p0 := p.(dataStall := DataHazard(p));
    FrontEffect(p0, prog);
    BackEffect(Front(p0, prog));
  }

  /** A cycle that is not stalled by memory. */
  lemma CycleEffect(p: Pipe, prog: Program)
    requires !p.memStall && Legal(p) && (p.halted ==> p.d.pc == EMPTY && p.f.pc == EMPTY)
    ensures Advanced(p, Iterate(p, prog, true)) && Supplied(p, Iterate(p, prog, true), prog)
  {
    StagesEffect(p, prog);
    if !p.halted {
      StagesPc(p, prog);
    }
  }

  // ----- a data memory that does not answer at once -----

  predicate Asks(p: Pipe) { p.m.pc != EMPTY && IsMemory(p.m.instr.opcode) }

  /** The answer makes no difference to a pipeline that does not ask. */
  lemma NotAsked(p: Pipe, prog: Program)
    requires !p.memStall && !Asks(p)
    ensures Iterate(p, prog, false) == Iterate(p, prog, true)
  {
    var p0 := p.(dataStall := DataHazard(p));
    FrontEffect(p0, prog);
    assert Back(Front(p0, prog), false) == Back(Front(p0, prog), true);
  }

  /** q has done everything that p was to do in its cycle except the access to memory, and has not handed it on. */
  ghost predicate Awaits(p: Pipe, q: Pipe, prog: Program) {
    && q.memStall && Asks(p) && q.w.pc == EMPTY && q.w.instr == p.w.instr
    && q.m == p.m.(result := q.m.result)
    && q.e == (if p.e.pc == EMPTY then p.e else Executed(p))
    && q.halted == (p.halted || (Leaves(p) && p.d.instr.opcode == HALT))
    && (q.halted ==> q.d.pc == EMPTY && q.f.pc == EMPTY)
    && (!q.halted ==>
          && q.d == (if Leaves(p) then Decoded(p) else p.d)
          && q.f == Fetched(p, prog)
          && q.pc == FrontPc(p))
    && q.mem == p.mem && SameButImm(q.regs, Written(p))
  }

  lemma MissEffect(p: Pipe, prog: Program)
    requires !p.memStall && Legal(p) && Asks(p)
    ensures Awaits(p, Iterate(p, prog, false), prog)
  {
    var p0 := p.(dataStall := DataHazard(p));
    var a := Front(p0, prog);
    FrontEffect(p0, prog);
    BackMiss(a);
    ExecutedSame(p, a);
  }

  lemma WaitEffect(p: Pipe, q: Pipe, prog: Program)
    requires Awaits(p, q, prog)
    ensures Awaits(p, Iterate(q, prog, false), prog)
  {
    var q0 := q.(dataStall := DataHazard(q));
    assert Front(q0, prog) == q0;
    BackWaiting(q0, false);
  }

  /** Only write-back holds the instruction in decode, and the memory stage may make it wait longer than that. */
  predicate Slips(p: Pipe) {
    p.d.pc != EMPTY && Asks(p) && Hazard(p, p.w) && !Hazard(p, p.e) && !Hazard(p, p.m)
  }
}
