/** The statistics of a core, for every program and every pattern of answers. */
module CoreAccounting {
  import opened Isa
  import opened PipelineModel

  /** Nothing enters a pipeline that has halted; what waits for memory is still there. */
  predicate Closed(p: Pipe) {
    && (p.halted ==> p.f.pc == EMPTY && p.d.pc == EMPTY)
    && (p.memStall ==> p.m.pc != EMPTY && IsMemory(p.m.instr.opcode) && p.w.pc == EMPTY)
  }

  /** How many cycles the instructions behind decode still need. */
  function Depth(p: Pipe): nat {
    if p.e.pc != EMPTY then 3 else if p.m.pc != EMPTY then 2 else if p.w.pc != EMPTY then 1 else 0
  }

  /** The parts of the state that decide how the pipeline moves, apart from the program counter. */
  ghost predicate SameSlots(p: Pipe, b: Pipe) {
    && b.e.pc == p.e.pc && b.m.pc == p.m.pc && b.w.pc == p.w.pc && b.m.instr == p.m.instr && b.d.pc == p.d.pc
    && b.dataStall == p.dataStall && b.decodeStalls == p.decodeStalls && b.memoryStalls == p.memoryStalls
  }

  lemma FrontSlots(p: Pipe, prog: Program)
    ensures var b := Front(p, prog);
      && SameSlots(p, b) && b.memStall == p.memStall && (p.halted ==> b.halted && b.f == p.f)
      && (b.halted && !p.halted ==> p.d.pc != EMPTY && !p.memStall && !p.dataStall)
  {
  }

  lemma ExecuteSlots(p: Pipe)
    ensures var q := ExecuteStage(p); SameSlots(p, q) && q.halted == p.halted && q.f == p.f && q.memStall == p.memStall
  {
  }

  lemma MemorySlots(p: Pipe, ready: bool)
    ensures var q := MemoryStage(p, ready);
      && SameSlots(p, q) && q.halted == p.halted && q.f == p.f
      && q.memStall == if IsMemory(p.m.instr.opcode) then !ready else p.memStall
  {
  }

  lemma WriteBackSlots(p: Pipe)
    ensures var q := WriteBackStage(p); q == p.(regs := q.regs)
  {
  }

  lemma BackSlots(p: Pipe, ready: bool)
    ensures var b := Back(p, ready);
      && SameSlots(p, b) && b.halted == p.halted && b.f == p.f
      && b.memStall == if p.m.pc != EMPTY && IsMemory(p.m.instr.opcode) then !ready else p.memStall
  {
    var q := if p.memStall || p.e.pc == EMPTY then p else ExecuteStage(p);
    ExecuteSlots(p);
    assert SameSlots(p, q) && q.halted == p.halted && q.f == p.f && q.memStall == p.memStall;
    MemorySlots(q, ready);
    WriteBackSlots(if q.m.pc == EMPTY then q else MemoryStage(q, ready));
  }

  /** How a cycle moves the slots of the pipeline. */
  ghost predicate SlotsMoved(p: Pipe, q: Pipe) {
    if q.memStall then
      && p.m.pc != EMPTY && IsMemory(p.m.instr.opcode)
      && q.e.pc == p.e.pc && q.m.pc == p.m.pc && q.m.instr == p.m.instr && q.w.pc == EMPTY
    else
      && q.w.pc == p.m.pc && q.m.pc == p.e.pc && (q.e.pc != EMPTY ==> !q.dataStall && q.e.pc == p.d.pc)
  }

  lemma CycleSlots(p: Pipe, prog: Program, ready: bool)
    requires Closed(p)
    ensures var q := Iterate(p, prog, ready);
      && Closed(q) && SlotsMoved(p, q) && (p.halted ==> q.halted)
      && (q.halted && !p.halted ==> p.d.pc != EMPTY && !p.memStall && !q.dataStall)
      && q.memStall == (p.m.pc != EMPTY && IsMemory(p.m.instr.opcode) && !ready)
      && q.dataStall == DataHazard(p)
      && q.memoryStalls == p.memoryStalls + (if q.memStall then 1 else 0)
      && q.decodeStalls == p.decodeStalls + (if q.dataStall && !q.memStall then 1 else 0)
  {
    var p0 := p.(dataStall := DataHazard(p));
    FrontSlots(p0, prog);
    BackSlots(Front(p0, prog), ready);
  }

  // ----- the counters -----

  predicate Stalled(p: Pipe) { p.memStall || p.dataStall }

  /** The last cycle counts as an instruction in the next one. */
  function Pending(p: Pipe): nat { if p.halted || Stalled(p) then 0 else 1 }

  /** The unstalled cycles from the decoding of HALT onward. */
  function DrainCycles(c: CoreState, prog: Program, answers: seq<bool>): nat
    decreases |answers|
  {
    if answers == [] || c.isHalted || Flushed(c.pipe) then 0
    else
      var d := Cycle(c, prog, answers[0]);
      (if d.pipe.halted && !Stalled(d.pipe) then 1 else 0) + DrainCycles(d, prog, answers[1..])
  }

  /** Every cycle so far was an instruction, a stall, or one of those that drain the pipeline. */
  lemma {:induction false} CyclesConserved(c: CoreState, prog: Program, answers: seq<bool>)
    requires Closed(c.pipe)
    ensures var d := RunCore(c, prog, answers);
      d.cycles - d.instructions - Pending(d.pipe) - d.pipe.decodeStalls - d.pipe.memoryStalls
      == c.cycles - c.instructions - Pending(c.pipe) - c.pipe.decodeStalls - c.pipe.memoryStalls
         + DrainCycles(c, prog, answers)
    decreases |answers|
  {
    if answers != [] {
      if !c.isHalted {
        CycleSlots(c.pipe, prog, answers[0]);
        if Flushed(c.pipe) {
          NothingDrains(Cycle(c, prog, answers[0]), prog, answers[1..]);
        }
      }
      CyclesConserved(Cycle(c, prog, answers[0]), prog, answers[1..]);
    }
  }

  lemma NothingDrains(c: CoreState, prog: Program, answers: seq<bool>)
    requires c.isHalted
    ensures DrainCycles(c, prog, answers) == 0
  {
  }

  /** A pipeline that has halted only empties: no instruction enters, and without a memory stall every one moves on. */
  lemma DrainStep(p: Pipe, prog: Program, ready: bool)
    requires Closed(p) && p.halted
    ensures var q := Iterate(p, prog, ready);
      && q.halted && Closed(q) && Depth(q) <= Depth(p)
      && (!q.memStall && !Flushed(p) ==> Depth(q) < Depth(p)) && (ready ==> !q.memStall)
  {
    CycleSlots(p, prog, ready);
  }

  /** Draining takes at most four cycles. */
  lemma {:induction false} DrainBound(c: CoreState, prog: Program, answers: seq<bool>)
    requires Closed(c.pipe)
    ensures DrainCycles(c, prog, answers) <= if c.pipe.halted then Depth(c.pipe) else 4
    decreases |answers|
  {
    if answers != [] && !c.isHalted && !Flushed(c.pipe) {
      CycleSlots(c.pipe, prog, answers[0]);
      if c.pipe.halted {
        DrainStep(c.pipe, prog, answers[0]);
      }
      DrainBound(Cycle(c, prog, answers[0]), prog, answers[1..]);
    }
  }

  // ----- what the two stall counters count -----

  /** The cycles in which there was an access in the memory stage and no answer. */
  function Waits(c: CoreState, prog: Program, answers: seq<bool>): nat
    decreases |answers|
  {
    if answers == [] || c.isHalted || Flushed(c.pipe) then 0
    else
      (if c.pipe.m.pc != EMPTY && IsMemory(c.pipe.m.instr.opcode) && !answers[0] then 1 else 0)
      + Waits(Cycle(c, prog, answers[0]), prog, answers[1..])
  }

  /** The other cycles in which the interlock saw a dependence. */
  function Holds(c: CoreState, prog: Program, answers: seq<bool>): nat
    decreases |answers|
  {
    if answers == [] || c.isHalted || Flushed(c.pipe) then 0
    else
      (if DataHazard(c.pipe) && !(c.pipe.m.pc != EMPTY && IsMemory(c.pipe.m.instr.opcode) && !answers[0]) then 1 else 0)
      + Holds(Cycle(c, prog, answers[0]), prog, answers[1..])
  }

  lemma {:induction false} StallsCounted(c: CoreState, prog: Program, answers: seq<bool>)
    requires Closed(c.pipe)
    ensures var d := RunCore(c, prog, answers);
      && d.pipe.memoryStalls == c.pipe.memoryStalls + Waits(c, prog, answers)
      && d.pipe.decodeStalls == c.pipe.decodeStalls + Holds(c, prog, answers)
    decreases |answers|
  {
    if answers != [] {
      if c.isHalted || Flushed(c.pipe) {
        LatchedStays(Cycle(c, prog, answers[0]), prog, answers[1..]);
      } else {
        CycleSlots(c.pipe, prog, answers[0]);
        StallsCounted(Cycle(c, prog, answers[0]), prog, answers[1..]);
      }
    }
  }

  /** The stalls that a core prints, for every program and every pattern of answers: memory stalls are the cycles in
      which an access got no answer, decode stalls the other ones in which the interlock saw a dependence. */
  lemma StallsExact(regs: Regs, mem: DataMemory, prog: Program, answers: seq<bool>)
    ensures var c := RunCore(Boot(regs, mem), prog, answers);
      && c.pipe.memoryStalls == Waits(Boot(regs, mem), prog, answers)
      && c.pipe.decodeStalls == Holds(Boot(regs, mem), prog, answers)
  {
    StallsCounted(Boot(regs, mem), prog, answers);
  }

  /** Conservation of cycles, in the numbers that a core prints when it has halted: the cycles are the instructions, the
      stalls, and at most four cycles that drain the pipeline. */
  lemma CycleConservation(regs: Regs, mem: DataMemory, prog: Program, answers: seq<bool>)
    ensures var c := RunCore(Boot(regs, mem), prog, answers); var drain := DrainCycles(Boot(regs, mem), prog, answers);
      && drain <= 4
      && (c.isHalted ==>
            c.cycles + 1 == (c.instructions - 1) + c.pipe.decodeStalls + c.pipe.memoryStalls + drain)
  {
    CyclesConserved(Boot(regs, mem), prog, answers);
    DrainBound(Boot(regs, mem), prog, answers);
    HaltedPipe(Boot(regs, mem), prog, answers);
  }

  lemma {:induction false} HaltedPipe(c: CoreState, prog: Program, answers: seq<bool>)
    requires c.isHalted ==> c.pipe.halted
    ensures var d := RunCore(c, prog, answers); d.isHalted ==> d.pipe.halted
    decreases |answers|
  {
    if answers != [] {
      HaltedPipe(Cycle(c, prog, answers[0]), prog, answers[1..]);
    }
  }

  /** Once HALT has been decoded the core latches halted after as many answers of the memory as stages are to drain, and
      one more cycle. */
  lemma {:induction false} DrainTerminates(c: CoreState, prog: Program, answers: seq<bool>)
    requires Closed(c.pipe) && c.pipe.halted && Answered(answers) > Depth(c.pipe)
    ensures RunCore(c, prog, answers).isHalted
    decreases |answers|
  {
    var d := Cycle(c, prog, answers[0]);
    if c.isHalted || Flushed(c.pipe) {
      LatchedStays(d, prog, answers[1..]);
    } else {
      DrainStep(c.pipe, prog, answers[0]);
      DrainTerminates(d, prog, answers[1..]);
    }
  }

  lemma {:induction false} LatchedStays(c: CoreState, prog: Program, answers: seq<bool>)
    requires c.isHalted
    ensures RunCore(c, prog, answers) == c
  {
    if answers != [] {
      LatchedStays(c, prog, answers[1..]);
    }
  }

  /** Each cycle in which the interlock holds decode up brings the instructions ahead closer to write-back. */
  lemma StallDrains(p: Pipe, prog: Program)
    requires Closed(p) && !p.memStall && DataHazard(p)
    ensures var q := Iterate(p, prog, true); Closed(q) && !q.memStall && Depth(q) < Depth(p)
  {
    CycleSlots(p, prog, true);
    var p0 := p.(dataStall := DataHazard(p));
    FrontSlots(p0, prog);
    BackSlots(Front(p0, prog), true);
  }

  /** The interlock holds decode up for at most three cycles in a row. */
  lemma StallBound(p: Pipe, prog: Program)
    requires Closed(p) && !p.memStall
    ensures var q := Iterate(p, prog, true); var r := Iterate(q, prog, true); var s := Iterate(r, prog, true);
      !(DataHazard(p) && DataHazard(q) && DataHazard(r) && DataHazard(s))
  {
    var q := Iterate(p, prog, true);
    var r := Iterate(q, prog, true);
    if DataHazard(p) && DataHazard(q) && DataHazard(r) {
      StallDrains(p, prog);
      StallDrains(q, prog);
      StallDrains(r, prog);
      NoHazardWhenEmpty(Iterate(r, prog, true));
    }
  }

  lemma NoHazardWhenEmpty(p: Pipe)
    requires Depth(p) == 0
    ensures !DataHazard(p)
  {
  }
}
