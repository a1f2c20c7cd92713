/** One core: the five stages, the cycle that moves them, and the counters. */
module PipelineModel {
  import opened Types
  import opened Isa

  type Pc = n: nat | n < 0x1_0000

  /** The program counter of a stage without an instruction. */
  const EMPTY: Pc := 0xFFFF

  /** The table entry of a stage that has not been through decode.  The source calls a null pointer where such an entry
      is run; here it leaves the result as it is. */
  const NONE: Opcode := 0xFF

  /** `operation` names the table entry chosen when the instruction was decoded. */
  datatype Stage = Stage(pc: Pc, instr: Instruction, result: Word, operation: Opcode)

  datatype Pipe = Pipe(
    halted: bool, dataStall: bool, memStall: bool, f: Stage, d: Stage, e: Stage, m: Stage, w: Stage,
    regs: Regs, mem: DataMemory, pc: Pc, decodeStalls: nat, memoryStalls: nat)

  function Clear(pc: Pc): Stage {
    Stage(pc, Instruction(ADD, 0, 0, 0, 0), 0, NONE)
  }

  function Start(regs: Regs, mem: DataMemory): Pipe {
    Pipe(false, false, false, Clear(0), Clear(EMPTY), Clear(EMPTY), Clear(EMPTY), Clear(EMPTY), regs, mem, 0, 0, 0)
  }

  // ----- hazards -----

  /** Does the instruction in decode depend on the one in stage x?  A store behind a store in write-back is checked for
      its address registers only. */
  predicate Hazard(p: Pipe, x: Stage) {
    var r, i := x.instr.rd, p.d.instr;
    && x.pc != EMPTY && r != 0 && r != IMM_REG
    && if IsAlu(i.opcode) || i.opcode == LW || (i.opcode == SW && p.w.instr.opcode == SW) then r == i.rs || r == i.rt
       else r == i.rd || r == i.rs || r == i.rt
  }

  predicate DataHazard(p: Pipe) {
    Hazard(p, p.e) || Hazard(p, p.m) || Hazard(p, p.w)
  }

  // ----- the stages -----

  /** The registers once a stage has read its operands: the immediate has been put into register 1. */
  function Entered(regs: Regs, i: Instruction): Regs {
    regs[IMM_REG := i.imm]
  }

  function FetchStage(p: Pipe, prog: Program): Pipe {
    if p.memStall then p
    else p.(f := p.f.(pc := p.pc, instr := Fetch(prog, p.pc)),
            pc := if p.dataStall then p.pc else (p.pc + 1) % 0x1_0000)
  }

  /** What a table entry does to the result of its stage and to the program counter. */
  function Operate(o: Opcode, rd: Word, rs: Word, rt: Word, pc: Pc): (Word, Pc) {
    if IsAlu(o) then (Alu(o, rs, rt), pc)
    else if IsBranch(o) then (rd, if Taken(o, rs, rt) then Target(rd) else pc)
    else (rd, pc)
  }

  function DecodeStage(p: Pipe): Pipe {
    var i := p.d.instr;
    if i.opcode == HALT then p.(halted := true)
    else if !IsBranch(i.opcode) then p.(d := p.d.(operation := i.opcode))
    else
      var regs := Entered(p.regs, i);
      var (r, pc) := Operate(i.opcode, regs[i.rd], regs[i.rs], regs[i.rt], p.pc);
      p.(regs := regs, d := p.d.(operation := i.opcode, result := r), pc := pc)
  }

  function ExecuteStage(p: Pipe): Pipe {
    var i := p.e.instr;
    if IsBranch(i.opcode) || IsMemory(i.opcode) || i.opcode == HALT then p
    else
      var regs := Entered(p.regs, i);
      var (r, pc) := Operate(p.e.operation, regs[i.rd], regs[i.rs], regs[i.rt], p.pc);
      p.(regs := regs, e := p.e.(result := r), pc := pc)
  }

  /** `ready` is the answer of the data memory in this cycle, if it is asked. */
  function MemoryStage(p: Pipe, ready: bool): Pipe {
    var i := p.m.instr;
    if !IsMemory(i.opcode) then p
    else
      var regs := Entered(p.regs, i);
      var a := Sum(regs[i.rs], regs[i.rt]);
      p.(regs := regs, memStall := !ready,
         m := p.m.(result := if i.opcode == LW && ready then Lookup(p.mem, a) else regs[i.rd]),
         mem := if i.opcode == SW && ready then p.mem[a := regs[i.rd]] else p.mem)
  }

  function WriteBackStage(p: Pipe): Pipe {
    p.(regs := p.regs[(if p.w.instr.opcode == JAL then PC_REG else p.w.instr.rd) := p.w.result])
  }

  /** Fetch and decode; both are left out when the pipeline stalls, fetch also once it has halted. */
  function Front(p: Pipe, prog: Program): Pipe {
    var q := if p.halted then p else FetchStage(p, prog);
    if p.memStall || p.dataStall || q.d.pc == EMPTY then q else DecodeStage(q)
  }

  /** The stages behind decode; a pipeline that waits for memory leaves execute out. */
  function Back(p: Pipe, ready: bool): Pipe {
    var q := if p.memStall || p.e.pc == EMPTY then p else ExecuteStage(p);
    var r := if q.m.pc == EMPTY then q else MemoryStage(q, ready);
    if r.w.pc == EMPTY then r else WriteBackStage(r)
  }

  /** A stage takes over from the one before it. */
  function Move(src: Stage, dst: Stage): Stage {
    if src.pc == EMPTY then dst.(pc := EMPTY) else src
  }

  function Bubbles(p: Pipe): Pipe {
    var q :=
      if p.memStall then p.(w := p.w.(pc := EMPTY))
      else if p.dataStall then p.(w := Move(p.m, p.w), m := Move(p.e, p.m), e := p.e.(pc := EMPTY))
      else p.(w := Move(p.m, p.w), m := Move(p.e, p.m), e := Move(p.d, p.e), d := Move(p.f, p.d));
    if p.halted then q.(f := q.f.(pc := EMPTY), d := q.d.(pc := EMPTY)) else q
  }

  function Count(p: Pipe): Pipe {
    p.(decodeStalls := p.decodeStalls + (if p.dataStall && !p.memStall then 1 else 0),
       memoryStalls := p.memoryStalls + (if p.memStall then 1 else 0))
  }

  /** One cycle of the pipeline. */
  function Iterate(p: Pipe, prog: Program, ready: bool): Pipe {
    Bubbles(Count(Back(Front(p.(dataStall := DataHazard(p)), prog), ready)))
  }

  // ----- the core around it -----

  datatype CoreState = CoreState(pipe: Pipe, isHalted: bool, cycles: int, instructions: nat)

  predicate Flushed(p: Pipe) {
    p.halted && p.f.pc == EMPTY && p.d.pc == EMPTY && p.e.pc == EMPTY && p.m.pc == EMPTY && p.w.pc == EMPTY
  }

  /** One cycle of the core; it latches halted in the first cycle that finds the pipeline drained. */
  function Cycle(c: CoreState, prog: Program, ready: bool): CoreState {
    if c.isHalted then c
    else if Flushed(c.pipe) then c.(isHalted := true)
    else
      CoreState(
        Iterate(c.pipe, prog, ready), false, c.cycles + 1,
        if !c.pipe.halted && !c.pipe.memStall && !c.pipe.dataStall then c.instructions + 1 else c.instructions)
  }

  function Boot(regs: Regs, mem: DataMemory): CoreState {
    CoreState(Start(regs, mem), false, -1, 0)
  }

  /** The core after the cycles in which the data memory answered, or would have answered, as listed. */
  function RunCore(c: CoreState, prog: Program, answers: seq<bool>): CoreState
    decreases |answers|
  {
    if answers == [] then c else RunCore(Cycle(c, prog, answers[0]), prog, answers[1..])
  }

  /** In how many cycles the data memory answers, or would have answered. */
  function Answered(answers: seq<bool>): (n: nat)
    ensures n <= |answers|
  {
    if answers == [] then 0 else (if answers[0] then 1 else 0) + Answered(answers[1..])
  }
}
