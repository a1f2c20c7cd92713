/** Programs of the repository's own: the counter of core 0, with its NOPs in the delay slots and its stores right
    behind the instructions that compute their words, and the polling loop of all four counter programs. */
module PipelinePrograms {
  import opened Types
  import opened Isa
  import opened IsaLaws
  import opened PipelineModel
  import opened PipelineEffects
  import opened PipelineRefinement
  import opened PipelineRuns
  import opened PipelineTiming
  import opened PipelineSpacing
  import opened PipelineOrder
  import opened ProgramFlow

  predicate CounterProgram(prog: Program) {
    && prog[0] == Instruction(LW, 3, 0, 0, 0)
    && prog[1] == Instruction(ADD, 4, 0, 1, 128)
    && prog[2] == Instruction(ADD, 2, 0, 0, 0)
    && prog[3] == Instruction(ADD, 3, 3, 1, 1)
    && prog[4] == Instruction(SW, 3, 0, 0, 0)
    && prog[5] == Instruction(SUB, 4, 4, 1, 1)
    && prog[6] == Instruction(LW, 3, 0, 0, 0)
    && prog[7] == Instruction(AND, 5, 3, 1, 3)
    && prog[8] == Instruction(BNE, 1, 5, 2, 6)
    && prog[9] == NOP
    && prog[10] == Instruction(SUB, 4, 4, 1, 1)
    && prog[11] == Instruction(ADD, 3, 3, 1, 1)
    && prog[12] == Instruction(SW, 3, 0, 0, 0)
    && prog[13] == Instruction(BNE, 1, 4, 0, 6)
    && prog[14] == NOP
    && prog[15] == Instruction(HALT, 0, 0, 0, 0)
  }

  /** The words of its instruction image. */
  const COUNTER_IMAGE: seq<Word> := [
    0x10300000, 0x00401080, 0x00200000, 0x00331001, 0x11300000, 0x01441001, 0x10300000, 0x02531003,
    0x0A152006, 0x00000000, 0x01441001, 0x00331001, 0x11300000, 0x0A140006, 0x00000000, 0x14000000]

  lemma CounterImage(prog: Program)
    requires LoadedFrom(prog, COUNTER_IMAGE)
    ensures CounterProgram(prog)
  {
    hide Unpack;
    CounterWords();
  }

  lemma CounterWords()
    ensures Unpack(0x10300000) == Instruction(LW, 3, 0, 0, 0) && Unpack(0x00401080) == Instruction(ADD, 4, 0, 1, 128)
    ensures Unpack(0x00200000) == Instruction(ADD, 2, 0, 0, 0) && Unpack(0x00331001) == Instruction(ADD, 3, 3, 1, 1)
    ensures Unpack(0x11300000) == Instruction(SW, 3, 0, 0, 0) && Unpack(0x01441001) == Instruction(SUB, 4, 4, 1, 1)
    ensures Unpack(0x02531003) == Instruction(AND, 5, 3, 1, 3) && Unpack(0x0A152006) == Instruction(BNE, 1, 5, 2, 6)
    ensures Unpack(0x0A140006) == Instruction(BNE, 1, 4, 0, 6) && Unpack(0x14000000) == Instruction(HALT, 0, 0, 0, 0)
    ensures Unpack(0) == NOP
  {
  }

  const COUNTER: Flow := Flow(15, map[9 := 6, 14 := 6])

  lemma CounterFollows(prog: Program)
    requires CounterProgram(prog)
    ensures Follows(prog, COUNTER)
  {
  }

  /** Its accesses stand at 0, 4, 6 and 12. */
  lemma CounterAccess(prog: Program, s0: Machine, j: nat)
    requires CounterProgram(prog) && Placed(s0, COUNTER)
    ensures var a, i := At(prog, s0, j), Nth(prog, s0, j);
      && a <= 15 && i == prog[a] && (i.opcode == SW <==> a == 4 || a == 12) && (i.opcode == LW <==> a == 0 || a == 6)
  {
    AlwaysMoves(prog, COUNTER, s0, j);
  }

  /** Two or three places behind a store there is no store. */
  lemma BehindStore(prog: Program, s0: Machine, j: nat)
    requires CounterProgram(prog) && Placed(s0, COUNTER) && Nth(prog, s0, j).opcode == SW
    ensures Nth(prog, s0, j + 2).opcode != SW && Nth(prog, s0, j + 3).opcode != SW
  {
    CounterFollows(prog);
    Window(prog, COUNTER, s0, j);
    CounterAccess(prog, s0, j);
    CounterAccess(prog, s0, j + 2);
    CounterAccess(prog, s0, j + 3);
  }

  lemma StoresApart(prog: Program, s0: Machine, n: nat)
    requires CounterProgram(prog) && Placed(s0, COUNTER) && Nth(prog, s0, n).opcode == SW
    ensures !NearStore(prog, s0, n)
  {
    if n >= 2 && Nth(prog, s0, n - 2).opcode == SW {
      BehindStore(prog, s0, n - 2);
    }
    if n >= 3 && Nth(prog, s0, n - 3).opcode == SW {
      BehindStore(prog, s0, n - 3);
    }
  }

  lemma CounterIsProper(prog: Program, s0: Machine)
    requires CounterProgram(prog) && Placed(s0, COUNTER)
    ensures ProperRun(prog, s0)
  {
    hide CounterProgram, Placed, Nth;
    CounterFollows(prog);
    forall n: nat | Nth(prog, s0, n).opcode == SW
      ensures !NearStore(prog, s0, n)
    {
      StoresApart(prog, s0, n);
    }
    FlowIsProper(prog, COUNTER, s0);
  }

  /** Where the instruction ahead of a memory access stands, and the two behind the access. */
  lemma AroundAccess(prog: Program, s0: Machine, j: nat) returns (a: nat)
    requires CounterProgram(prog) && Placed(s0, COUNTER) && IsMemory(Nth(prog, s0, j + 1).opcode)
    ensures a == At(prog, s0, j) && (a == 3 || a == 5 || a == 9 || a == 11 || a == 14)
    ensures var b := At(prog, s0, j + 1);
      && b == (if a == 9 || a == 14 then 6 else a + 1)
      && At(prog, s0, j + 2) == b + 1 && At(prog, s0, j + 3) == b + 2
  {
    CounterFollows(prog);
    Window(prog, COUNTER, s0, j);
    CounterAccess(prog, s0, j + 1);
    a := At(prog, s0, j);
  }

  /** Nothing depends on an instruction ahead of an access across it. */
  lemma CounterApart(prog: Program, a: nat, c: nat)
    requires CounterProgram(prog) && (a == 3 || a == 5 || a == 9 || a == 11 || a == 14)
    requires var b := if a == 9 || a == 14 then 6 else a + 1; c == b + 1 || c == b + 2
    ensures !HeldUp(prog[c], prog[a], prog[a].opcode == SW)
  {
  }

  lemma CounterIsSpaced(prog: Program, s0: Machine)
    requires CounterProgram(prog) && Placed(s0, COUNTER)
    ensures SpacedRun(prog, s0)
  {
    hide CounterProgram, Placed, HeldUp, Separated;
    forall j: nat, k: nat | j + 2 == k || j + 3 == k
      ensures Spaced(prog, s0, j, k)
    {
      if IsMemory(Nth(prog, s0, j + 1).opcode) {
        var a := AroundAccess(prog, s0, j);
        CounterAccess(prog, s0, j);
        CounterAccess(prog, s0, k);
        CounterApart(prog, a, At(prog, s0, k));
      }
    }
  }

  /** So the pipeline runs it as the sequential machine does, under every pattern of misses. */
  lemma CounterRefines(prog: Program, regs: Regs, mem: DataMemory, answers: seq<bool>, total: nat)
    requires LoadedFrom(prog, COUNTER_IMAGE) && regs[0] == 0 && HaltsAfter(prog, Reset(regs, mem), total)
    ensures var c := RunCore(Boot(regs, mem), prog, answers);
      && (c.isHalted ==> Finished(c, prog, Reset(regs, mem), total))
      && (Answered(answers) >= 4 * total + 6 ==> c.isHalted)
  {
    CounterImage(prog);
    CounterIsProper(prog, Reset(regs, mem));
    CounterIsSpaced(prog, Reset(regs, mem));
    SpacedNeverExposed(prog, Reset(regs, mem));
    UnexposedProgramsRefine(prog, regs, mem, answers, total);
  }

  // ----- whose turn it is -----

  /** The loop in which each of the counter programs waits for its turn: core 0 at address 6, the others at 2. */
  predicate PollsAt(prog: Program, at: nat) {
    && at < 0x200 - 4
    && prog[at] == Instruction(LW, 3, 0, 0, 0) && prog[at + 1] == Instruction(AND, 5, 3, 1, 3)
    && prog[at + 2] == Instruction(BNE, 1, 5, 2, at) && prog[at + 3] == NOP
  }

  /** The first words of the images of cores 1 to 3. */
  function OtherCounter(c: CoreId): seq<Word> {
    [0x00401080, 0x00210000 + c, 0x10300000, 0x02531003, 0x0A152002, 0x00000000]
  }

  lemma OtherWords(c: CoreId)
    ensures Unpack(0x00210000 + c) == Instruction(ADD, 2, 1, 0, c)
    ensures Unpack(0x0A152002) == Instruction(BNE, 1, 5, 2, 2)
  {
  }

  /** Two instructions of a program that are not branches. */
  lemma TwoSteps(prog: Program, s: Machine)
    ensures Steps(prog, s, 2) == Step(prog, Step(prog, s))
  {
    assert Steps(prog, s, 1) == Step(prog, Steps(prog, s, 0));
    hide Step;
  }

  /** Each counter program enters such a loop with its own number in register 2: cores 1 to 3 after two instructions. */
  lemma OthersPoll(prog: Program, c: CoreId, regs: Regs, mem: DataMemory)
    requires c > 0 && LoadedFrom(prog, OtherCounter(c)) && regs[0] == 0
    ensures PollsAt(prog, 2)
    ensures var s := Steps(prog, Reset(regs, mem), 2);
      s.pc == 2 && s.npc == 3 && s.regs[0] == 0 && s.regs[2] == c && s.mem == mem
  {
    CounterWords();
    OtherWords(c);
    TwoSteps(prog, Reset(regs, mem));
    hide Unpack, Alu;
    assert Alu(ADD, c, 0) == c by { ArithmeticOperations(c, 0); }
  }

  /** Core 0 reads the counter and clears register 2. */
  lemma CounterOpens(prog: Program, s: Machine)
    requires CounterProgram(prog) && s.pc == 0 && s.npc == 1 && s.regs[0] == 0
    ensures var s' := Step(prog, Step(prog, Step(prog, s)));
      && s'.pc == 3 && s'.npc == 4 && s'.regs[0] == 0 && s'.regs[2] == 0 && s'.regs[3] == Lookup(s.mem, 0)
      && s'.mem == s.mem
  {
    var s1 := Step(prog, s);
    assert s1 == Machine(s.regs[3 := Lookup(s.mem, 0)], s.mem, 1, 2);
    ArithmeticOperations(0, 0);
    hide Alu;
    assert Step(prog, s1) == Machine(s1.regs[4 := Alu(ADD, 0, 128)], s.mem, 2, 3);
  }

  /** It stores the counter raised by one. */
  lemma CounterRaises(prog: Program, s: Machine)
    requires CounterProgram(prog) && s.pc == 3 && s.npc == 4 && s.regs[0] == 0
    ensures var s' := Step(prog, Step(prog, Step(prog, s)));
      && s'.pc == 6 && s'.npc == 7 && s'.regs[0] == 0 && s'.regs[2] == s.regs[2]
      && s'.mem == s.mem[0 := Sum(s.regs[3], 1)]
  {
    var y, s1 := Sum(s.regs[3], 1), Step(prog, s);
    ArithmeticEntries(s.regs[3], 1);
    hide Alu;
    assert s1 == Machine(s.regs[3 := y], s.mem, 4, 5);
    assert Step(prog, s1) == Machine(s1.regs, s.mem[0 := y], 5, 6);
  }

  lemma ThreeMore(prog: Program, s: Machine, n: nat)
    ensures Steps(prog, s, n + 3) == Step(prog, Step(prog, Step(prog, Steps(prog, s, n))))
  {
    assert Steps(prog, s, n + 1) == Step(prog, Steps(prog, s, n));
    assert Steps(prog, s, n + 2) == Step(prog, Steps(prog, s, n + 1));
    hide Step;
  }

  /** Core 0 reaches its loop after six instructions, and has raised the counter by one. */
  lemma CounterPolls(prog: Program, regs: Regs, mem: DataMemory)
    requires LoadedFrom(prog, COUNTER_IMAGE) && regs[0] == 0
    ensures PollsAt(prog, 6)
    ensures var s := Steps(prog, Reset(regs, mem), 6);
      && s.pc == 6 && s.npc == 7 && s.regs[0] == 0 && s.regs[2] == 0
      && s.mem == mem[0 := (Lookup(mem, 0) + 1) % 0x1_0000_0000]
  {
    CounterImage(prog);
    hide Step, Unpack, LoadedFrom;
    var s := Reset(regs, mem);
    ThreeMore(prog, s, 0);
    ThreeMore(prog, s, 3);
    CounterOpens(prog, s);
    CounterRaises(prog, Steps(prog, s, 3));
  }

  /** The counter is loaded and its remainder taken. */
  lemma PollReads(prog: Program, s: Machine, at: nat)
    requires PollsAt(prog, at) && s.pc == at && s.npc == at + 1 && s.regs[0] == 0
    ensures var x := Lookup(s.mem, 0);
      Step(prog, Step(prog, s)) == Machine(s.regs[3 := x][5 := x % 4], s.mem, at + 2, at + 3)
  {
    var x := Lookup(s.mem, 0);
    assert Step(prog, s) == Machine(s.regs[3 := x], s.mem, at + 1, at + 2);
    LowTwoBits(x);
    hide Alu;
  }

  /** The branch and its delay slot. */
  lemma PollTurns(prog: Program, s: Machine, at: nat)
    requires PollsAt(prog, at) && s.pc == at + 2 && s.npc == at + 3 && s.regs[0] == 0
    ensures var s' := Step(prog, Step(prog, s));
      && s'.pc == (if s.regs[5] == s.regs[2] then at + 4 else at) && s'.npc == s'.pc + 1
      && s'.mem == s.mem && s'.regs == s.regs
  {
    NopKeeps(s.regs, s.mem);
    hide Alu;
  }

  /** It is left exactly if the counter modulo four is the number of the core. */
  lemma PollingEnds(prog: Program, s: Machine, at: nat)
    requires PollsAt(prog, at) && s.pc == at && s.npc == at + 1 && s.regs[0] == 0
    ensures var turn, s' := Lookup(s.mem, 0) % 4 == s.regs[2], Steps(prog, s, 4);
      && s'.pc == (if turn then at + 4 else at) && s'.npc == s'.pc + 1
      && s'.mem == s.mem && s'.regs == s.regs[3 := Lookup(s.mem, 0)][5 := Lookup(s.mem, 0) % 4]
  {
    hide PollsAt, Step;
    PollReads(prog, s, at);
    PollTurns(prog, Step(prog, Step(prog, s)), at);
    assert Steps(prog, s, 1) == Step(prog, Steps(prog, s, 0));
    ThreeMore(prog, s, 1);
  }
}
