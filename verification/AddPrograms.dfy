/** The repository's programs that add two vectors: one program for the serial version and for each core of the parallel
    one, apart from three constants.  Where their runs go. */
module AddPrograms {
  import opened Types
  import opened Isa
  import opened PipelineEffects
  import opened PipelineRefinement
  import opened PipelineTiming
  import opened PipelineSpacing
  import opened ProgramFlow

  /** The vectors begin at `base` and at twice `half`, the sums 4096 words behind the latter; each round of the loop
      adds four words. */
  datatype Job = Job(base: Immediate, half: Immediate, rounds: Immediate)

  predicate AddProgram(prog: Program, job: Job) {
    && Prologue(prog, job) && Loads(prog) && Sums(prog) && Epilogue(prog)
  }

  predicate Prologue(prog: Program, job: Job) {
    && prog[0] == Instruction(ADD, 2, 0, if job.base == 0 then 0 else 1, job.base)
    && prog[1] == Instruction(ADD, 3, 0, 1, job.half)
    && prog[2] == Instruction(ADD, 3, 3, 1, job.half)
    && prog[3] == Instruction(ADD, 4, 3, 1, 0x800)
    && prog[4] == Instruction(ADD, 4, 4, 1, 0x800)
    && prog[5] == Instruction(ADD, 5, 0, 1, job.rounds)
  }

  predicate Loads(prog: Program) {
    && prog[6] == Instruction(LW, 6, 2, 0, 0)
    && prog[7] == Instruction(LW, 7, 2, 1, 1)
    && prog[8] == Instruction(LW, 8, 2, 1, 2)
    && prog[9] == Instruction(LW, 9, 2, 1, 3)
    && prog[10] == Instruction(LW, 10, 3, 0, 0)
    && prog[11] == Instruction(LW, 11, 3, 1, 1)
    && prog[12] == Instruction(LW, 12, 3, 1, 2)
    && prog[13] == Instruction(LW, 13, 3, 1, 3)
  }

  predicate Sums(prog: Program) {
    && prog[14] == Instruction(ADD, 14, 6, 10, 0)
    && prog[15] == Instruction(ADD, 15, 7, 11, 0)
    && prog[16] == Instruction(SW, 14, 4, 0, 0)
    && prog[17] == Instruction(SW, 15, 4, 1, 1)
    && prog[18] == Instruction(ADD, 14, 8, 12, 0)
    && prog[19] == Instruction(ADD, 15, 9, 13, 0)
    && prog[20] == Instruction(SW, 14, 4, 1, 2)
    && prog[21] == Instruction(SW, 15, 4, 1, 3)
    && prog[22] == Instruction(ADD, 2, 2, 1, 4)
    && prog[23] == Instruction(ADD, 3, 3, 1, 4)
    && prog[24] == Instruction(ADD, 4, 4, 1, 4)
    && prog[25] == Instruction(SUB, 5, 5, 1, 1)
    && prog[26] == Instruction(BNE, 1, 5, 0, 6)
    && prog[27] == NOP
  }

  predicate Epilogue(prog: Program) {
    && prog[28] == Instruction(ADD, 6, 5, 0, 0)
    && prog[29] == Instruction(ADD, 5, 0, 1, 256)
    && prog[30] == Instruction(LW, 4, 6, 0, 0)
    && prog[31] == Instruction(ADD, 6, 6, 1, 4)
    && prog[32] == Instruction(SUB, 5, 5, 1, 4)
    && prog[33] == Instruction(BNE, 1, 5, 0, 30)
    && prog[34] == NOP
    && prog[35] == Instruction(HALT, 0, 0, 0, 0)
  }

  const ADD_FLOW: Flow := Flow(35, map[27 := 6, 34 := 30])

  lemma AddFollows(prog: Program, job: Job)
    requires AddProgram(prog, job)
    ensures Follows(prog, ADD_FLOW)
  {
  }

  /** What may have to wait, and for what. */
  predicate StoresAt(a: nat) { a == 16 || a == 17 || a == 20 || a == 21 }

  predicate LoadsAt(a: nat) { 6 <= a <= 13 || a == 30 }

  lemma StoresAndLoads(prog: Program, job: Job, a: nat)
    requires AddProgram(prog, job) && a <= 35
    ensures (prog[a].opcode == SW <==> StoresAt(a)) && (prog[a].opcode == LW <==> LoadsAt(a))
  {
  }

  lemma AddAccess(prog: Program, job: Job, s0: Machine, j: nat)
    requires AddProgram(prog, job) && Placed(s0, ADD_FLOW)
    ensures var a, i := At(prog, s0, j), Nth(prog, s0, j);
      && a <= 35 && i == prog[a] && (i.opcode == SW <==> StoresAt(a)) && (i.opcode == LW <==> LoadsAt(a))
  {
    AddFollows(prog, job);
    hide AddProgram, StoresAt, LoadsAt, Follows, Steps;
    AlwaysMoves(prog, ADD_FLOW, s0, j);
    StoresAndLoads(prog, job, At(prog, s0, j));
  }

  lemma StoredEarlier(prog: Program, job: Job, a: nat)
    requires AddProgram(prog, job) && StoresAt(a)
    ensures !Writes(prog[a - 1]) || prog[a].rd != prog[a - 1].rd
  {
  }

  /** No store follows the instruction that computes its word. */
  lemma AddIsProper(prog: Program, job: Job, s0: Machine)
    requires AddProgram(prog, job) && Placed(s0, ADD_FLOW) && s0.pc == 0
    ensures ProperRun(prog, s0)
  {
    AddFollows(prog, job);
    hide AddProgram, Follows, Steps;
    forall n: nat | Nth(prog, s0, n).opcode == SW
      ensures n > 0 ==> !Writes(Nth(prog, s0, n - 1)) || Nth(prog, s0, n).rd != Nth(prog, s0, n - 1).rd
    {
      AddAccess(prog, job, s0, n);
      Before(prog, ADD_FLOW, s0, n);
      AddAccess(prog, job, s0, n - 1);
      StoredEarlier(prog, job, At(prog, s0, n));
    }
    FlowIsProper(prog, ADD_FLOW, s0);
  }
}
