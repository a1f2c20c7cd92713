/** What the programs that add two vectors compute: the state of the sequential machine after each instruction. */
module AddResults {
  import opened Types
  import opened Isa
  import opened ProgramFlow
  import opened AddPrograms

  function SecondVector(job: Job): nat { 2 * job.half }

  function SumVector(job: Job): nat { 2 * job.half + 0x1000 }

  /** Whole blocks are added, and the sums are put behind both vectors. */
  predicate Sensible(job: Job) {
    && 0 < job.rounds <= 1024 && job.base % 4 == 0 && job.half % 2 == 0
    && job.base + 4 * job.rounds <= SumVector(job)
  }

  /** The j-th sum. */
  function SumAt(job: Job, mem: DataMemory, j: nat): Word
    requires j < 0x1000
  {
    Sum(Lookup(mem, job.base + j), Lookup(mem, SecondVector(job) + j))
  }

  /** The first q sums are in memory, and nothing else has changed. */
  ghost predicate Added(mem: DataMemory, was: DataMemory, job: Job, q: nat)
    requires q <= 0x1000
  {
    forall x: Word :: Lookup(mem, x) ==
      if SumVector(job) <= x < SumVector(job) + q then SumAt(job, was, x - SumVector(job)) else Lookup(was, x)
  }

  /** How many instructions are executed before the HALT. */
  function Total(job: Job): nat { 22 * job.rounds + 328 }

  // ----- one instruction -----

  lemma StepAdd(prog: Program, s: Machine, i: Instruction)
    requires s.pc < 0x400 && prog[s.pc] == i && i.opcode == ADD
    ensures Step(prog, s) == Machine(
      s.regs[i.rd := Sum(ReadReg(s.regs, i.rs, i.imm), ReadReg(s.regs, i.rt, i.imm))], s.mem, s.npc, s.npc + 1)
  {
    assert OPERATIONS[0] == Sum;
  }

  lemma StepSub(prog: Program, s: Machine, i: Instruction)
    requires s.pc < 0x400 && prog[s.pc] == i && i.opcode == SUB
    ensures Step(prog, s) == Machine(
      s.regs[i.rd := Difference(ReadReg(s.regs, i.rs, i.imm), ReadReg(s.regs, i.rt, i.imm))], s.mem, s.npc, s.npc + 1)
  {
    assert OPERATIONS[1] == Difference;
  }

  lemma StepLoad(prog: Program, s: Machine, i: Instruction)
    requires s.pc < 0x400 && prog[s.pc] == i && i.opcode == LW
    ensures Step(prog, s) == Machine(s.regs[i.rd := Lookup(s.mem, Address(s.regs, i))], s.mem, s.npc, s.npc + 1)
  {
  }

  lemma StepStore(prog: Program, s: Machine, i: Instruction)
    requires s.pc < 0x400 && prog[s.pc] == i && i.opcode == SW
    ensures Step(prog, s) ==
      Machine(s.regs, s.mem[Address(s.regs, i) := ReadReg(s.regs, i.rd, i.imm)], s.npc, s.npc + 1)
  {
  }

  lemma StepBranch(prog: Program, s: Machine, i: Instruction)
    requires s.pc < 0x400 && prog[s.pc] == i && i.opcode == BNE && i.rd == IMM_REG && i.imm < 0x200
    ensures Step(prog, s) == Machine(s.regs, s.mem, s.npc,
      if ReadReg(s.regs, i.rs, i.imm) != ReadReg(s.regs, i.rt, i.imm) then i.imm else s.npc + 1)
  {
  }

  // ----- the loop -----

  /** The addresses from which round k loads: four of each vector. */
  function WordAt(job: Job, k: nat, x: nat): Word
    requires k < 0x400 && x < 8
  {
    if x < 4 then job.base + 4 * k + x else SecondVector(job) + 4 * k + x - 4
  }

  function Loaded(job: Job, mem: DataMemory, k: nat, x: nat): Word
    requires k < 0x400 && x < 8
  {
    Lookup(mem, WordAt(job, k, x))
  }

  /** How many words of its block of sums a round has stored when it comes to address p. */
  function StoredBy(p: nat): nat {
    if p <= 16 then 0 else if p == 17 then 1 else if p <= 20 then 2 else if p == 21 then 3 else 4
  }

  /** The sums in registers 14 and 15. */
  predicate Ready(s: Machine, job: Job, was: DataMemory, k: nat, p: nat)
    requires k < 0x400
  {
    && (15 <= p <= 18 ==> s.regs[14] == SumAt(job, was, 4 * k))
    && (16 <= p <= 19 ==> s.regs[15] == SumAt(job, was, 4 * k + 1))
    && (19 <= p <= 21 ==> s.regs[14] == SumAt(job, was, 4 * k + 2))
    && (20 <= p <= 21 ==> s.regs[15] == SumAt(job, was, 4 * k + 3))
  }

  /** The addresses and the counter. */
  predicate Counters(s: Machine, job: Job, k: nat, p: nat) {
    && s.regs[0] == 0
    && s.regs[2] == job.base + 4 * k + (if p > 22 then 4 else 0)
    && s.regs[3] == SecondVector(job) + 4 * k + (if p > 23 then 4 else 0)
    && s.regs[4] == SumVector(job) + 4 * k + (if p > 24 then 4 else 0)
    && s.regs[5] == job.rounds - k - (if p > 25 then 1 else 0)
  }

  /** In round k, before the instruction at p. */
  ghost predicate InLoop(s: Machine, job: Job, was: DataMemory, k: nat, p: nat) {
    && k < job.rounds <= 0x400 && 6 <= p <= 27 && s.pc == p
    && s.npc == (if p == 27 then if k + 1 < job.rounds then 6 else 28 else p + 1)
    && Counters(s, job, k, p)
    && (forall x: nat :: x < 8 && 6 + x < p ==> s.regs[6 + x] == Loaded(job, was, k, x))
    && Ready(s, job, was, k, p)
    && Added(s.mem, was, job, 4 * k + StoredBy(p))
  }

  lemma LoadInstruction(prog: Program, job: Job, p: nat)
    requires AddProgram(prog, job) && 6 <= p <= 13
    ensures prog[p] ==
      Instruction(LW, p, if p < 10 then 2 else 3, if p == 6 || p == 10 then 0 else 1, if p < 10 then p - 6 else p - 10)
  {
  }

  lemma VectorsKept(mem: DataMemory, was: DataMemory, job: Job, q: nat, x: Word)
    requires q <= 0x1000 && Added(mem, was, job, q) && x < SumVector(job)
    ensures Lookup(mem, x) == Lookup(was, x)
  {
  }

  /** A load. */
  lemma LoopLoads(prog: Program, job: Job, s: Machine, was: DataMemory, k: nat, p: nat)
    requires AddProgram(prog, job) && Sensible(job) && InLoop(s, job, was, k, p) && p <= 13
    ensures Address(s.regs, prog[p]) == WordAt(job, k, p - 6)
    ensures InLoop(Step(prog, s), job, was, k, p + 1)
  {
    hide AddProgram, Step, SumAt, Added;
    LoadInstruction(prog, job, p);
    VectorsKept(s.mem, was, job, 4 * k, WordAt(job, k, p - 6));
    StepLoad(prog, s, prog[p]);
  }

  /** The sums. */
  lemma LoopSums(prog: Program, job: Job, s: Machine, was: DataMemory, k: nat, p: nat)
    requires AddProgram(prog, job) && Sensible(job) && InLoop(s, job, was, k, p)
    requires p == 14 || p == 15 || p == 18 || p == 19
    ensures InLoop(Step(prog, s), job, was, k, p + 1)
  {
    hide Step, Added, Prologue, Loads, Epilogue;
    var x := if p <= 15 then p - 14 else p - 16;
    assert s.regs[6 + x] == Loaded(job, was, k, x) && s.regs[6 + (4 + x)] == Loaded(job, was, k, 4 + x);
    StepAdd(prog, s, prog[p]);
  }

  /** Their stores. */
  lemma AddedNext(mem: DataMemory, was: DataMemory, job: Job, q: nat)
    requires q < 0x1000 && Added(mem, was, job, q)
    ensures Added(mem[SumVector(job) + q := SumAt(job, was, q)], was, job, q + 1)
  {
  }

  lemma LoopStores(prog: Program, job: Job, s: Machine, was: DataMemory, k: nat, p: nat)
    requires AddProgram(prog, job) && Sensible(job) && InLoop(s, job, was, k, p) && StoresAt(p)
    ensures Address(s.regs, prog[p]) == SumVector(job) + 4 * k + StoredBy(p)
    ensures InLoop(Step(prog, s), job, was, k, p + 1)
  {
    hide Step, Added, SumAt, Prologue, Loads, Epilogue;
    AddedNext(s.mem, was, job, 4 * k + StoredBy(p));
    StepStore(prog, s, prog[p]);
  }

  /** The counters, the branch and its delay slot. */
  lemma LoopEnds(prog: Program, job: Job, s: Machine, was: DataMemory, k: nat, p: nat)
    requires AddProgram(prog, job) && Sensible(job) && InLoop(s, job, was, k, p) && 22 <= p <= 26
    ensures InLoop(Step(prog, s), job, was, k, p + 1)
  {
    hide Step, Added, SumAt, Prologue, Loads, Epilogue;
    if p <= 24 {
      StepAdd(prog, s, prog[p]);
    } else if p == 25 {
      StepSub(prog, s, prog[p]);
    } else {
      StepBranch(prog, s, prog[p]);
    }
  }

  lemma LoopNop(prog: Program, job: Job, s: Machine, was: DataMemory, k: nat)
    requires AddProgram(prog, job) && Sensible(job) && InLoop(s, job, was, k, 27)
    ensures Step(prog, s) == s.(pc := s.npc, npc := s.npc + 1)
  {
    StepAdd(prog, s, NOP);
    assert s.regs[0 := 0] == s.regs;
  }

  /** The end of a round. */
  lemma LoopTurns(prog: Program, job: Job, s: Machine, was: DataMemory, k: nat)
    requires AddProgram(prog, job) && Sensible(job) && InLoop(s, job, was, k, 27)
    ensures k + 1 < job.rounds ==> InLoop(Step(prog, s), job, was, k + 1, 6)
    ensures k + 1 == job.rounds ==> InSweep(Step(prog, s), job, was, 0, 28)
  {
    hide AddProgram, Step, SumAt, Added;
    LoopNop(prog, job, s, was, k);
  }

  // ----- before and behind the loop -----

  /** Before the instruction at p of the prologue. */
  ghost predicate Starting(s: Machine, job: Job, was: DataMemory, p: nat) {
    && p < 6 && s.pc == p && s.npc == p + 1 && s.mem == was && s.regs[0] == 0
    && (p > 0 ==> s.regs[2] == job.base)
    && (p == 2 ==> s.regs[3] == job.half) && (p > 2 ==> s.regs[3] == SecondVector(job))
    && (p == 4 ==> s.regs[4] == SecondVector(job) + 0x800) && (p > 4 ==> s.regs[4] == SumVector(job))
  }

  lemma Starts(prog: Program, job: Job, s: Machine, was: DataMemory, p: nat)
    requires AddProgram(prog, job) && Sensible(job) && Starting(s, job, was, p)
    ensures p < 5 ==> Starting(Step(prog, s), job, was, p + 1)
    ensures p == 5 ==> InLoop(Step(prog, s), job, was, 0, 6)
  {
    hide Step, SumAt, Loads, Sums, Epilogue;
    StepAdd(prog, s, prog[p]);
  }

  /** In round k of the loop that reads every fourth word up to address 256, before the instruction at p, or on the way
      to it. */
  ghost predicate InSweep(s: Machine, job: Job, was: DataMemory, k: nat, p: nat) {
    && job.rounds <= 0x400 && k < 64 && 28 <= p <= 34 && (p < 30 ==> k == 0) && s.pc == p && s.regs[0] == 0
    && s.npc == (if p == 34 then if k < 63 then 30 else 35 else p + 1)
    && (p > 28 ==> s.regs[6] == 4 * k + (if p > 31 then 4 else 0))
    && s.regs[5] == (if p < 30 then 0 else 256 - 4 * k - (if p > 32 then 4 else 0))
    && Added(s.mem, was, job, 4 * job.rounds)
  }

  lemma SweepInstructions(prog: Program, job: Job, s: Machine, was: DataMemory, k: nat, p: nat)
    requires AddProgram(prog, job) && Sensible(job) && InSweep(s, job, was, k, p) && p < 34
    ensures InSweep(Step(prog, s), job, was, k, p + 1)
    ensures p == 30 ==> Address(s.regs, prog[p]) == 4 * k
  {
    hide Step, SumAt, Added, Prologue, Loads, Sums;
    if p == 30 {
      StepLoad(prog, s, prog[p]);
    } else if p == 32 {
      StepSub(prog, s, prog[p]);
    } else if p == 33 {
      StepBranch(prog, s, prog[p]);
    } else {
      StepAdd(prog, s, prog[p]);
    }
  }

  lemma SweepTurns(prog: Program, job: Job, s: Machine, was: DataMemory, k: nat)
    requires AddProgram(prog, job) && Sensible(job) && InSweep(s, job, was, k, 34)
    ensures k < 63 ==> InSweep(Step(prog, s), job, was, k + 1, 30)
    ensures k == 63 ==> Step(prog, s).pc == 35 && Added(Step(prog, s).mem, was, job, 4 * job.rounds)
  {
    hide Step, SumAt, Added, Prologue, Loads, Sums;
    StepAdd(prog, s, NOP);
    assert s.regs[0 := 0] == s.regs;
  }

  // ----- the whole run -----

  /** The round and the address before the n-th instruction. */
  function PlaceOf(job: Job, n: nat): (nat, nat) {
    if n < 6 then (0, n)
    else if n < 22 * job.rounds + 6 then ((n - 6) / 22, 6 + (n - 6) % 22)
    else if n < 22 * job.rounds + 8 then (0, n - 22 * job.rounds + 22)
    else if n < Total(job) then ((n - 22 * job.rounds - 8) / 5, 30 + (n - 22 * job.rounds - 8) % 5)
    else (0, 35)
  }

  ghost predicate Stands(s: Machine, job: Job, was: DataMemory, k: nat, p: nat) {
    if p < 6 then Starting(s, job, was, p)
    else if p < 28 then InLoop(s, job, was, k, p)
    else if p < 35 then InSweep(s, job, was, k, p)
    else s.pc == 35 && job.rounds <= 0x400 && Added(s.mem, was, job, 4 * job.rounds)
  }

  lemma PlaceNext(job: Job, n: nat)
    requires n < Total(job) && job.rounds > 0
    ensures var (k, p) := PlaceOf(job, n);
      && p < 35 && (p < 6 ==> k == 0)
      && PlaceOf(job, n + 1) ==
           if p == 27 then if k + 1 < job.rounds then (k + 1, 6) else (0, 28)
           else if p == 34 then if k < 63 then (k + 1, 30) else (0, 35)
           else (k, p + 1)
  {
  }

  lemma StepStands(prog: Program, job: Job, s: Machine, was: DataMemory, n: nat)
    requires AddProgram(prog, job) && Sensible(job) && n < Total(job)
    requires Stands(s, job, was, PlaceOf(job, n).0, PlaceOf(job, n).1)
    ensures Stands(Step(prog, s), job, was, PlaceOf(job, n + 1).0, PlaceOf(job, n + 1).1)
  {
    hide AddProgram, Step, Starting, Added, PlaceOf, Counters, Ready;
    PlaceNext(job, n);
    var (k, p) := PlaceOf(job, n);
    if p < 6 {
      Starts(prog, job, s, was, p);
    } else if p <= 13 {
      LoopLoads(prog, job, s, was, k, p);
    } else if p == 14 || p == 15 || p == 18 || p == 19 {
      LoopSums(prog, job, s, was, k, p);
    } else if StoresAt(p) {
      LoopStores(prog, job, s, was, k, p);
    } else if p <= 26 {
      LoopEnds(prog, job, s, was, k, p);
    } else if p == 27 {
      LoopTurns(prog, job, s, was, k);
    } else if p < 34 {
      SweepInstructions(prog, job, s, was, k, p);
    } else {
      SweepTurns(prog, job, s, was, k);
    }
  }

  /** The state before each instruction. */
  lemma {:induction false} AlwaysStands(prog: Program, job: Job, s0: Machine, n: nat)
    requires AddProgram(prog, job) && Sensible(job) && Starting(s0, job, s0.mem, 0) && n <= Total(job)
    ensures Stands(Steps(prog, s0, n), job, s0.mem, PlaceOf(job, n).0, PlaceOf(job, n).1)
  {
    hide AddProgram, Sensible, InLoop, InSweep;
    if n > 0 {
      AlwaysStands(prog, job, s0, n - 1);
      StepStands(prog, job, Steps(prog, s0, n - 1), s0.mem, n - 1);
    }
  }
}
