/** Which instruction of the sequential run each stage holds, and what that says about its access to memory. */
module PipelineOrder {
  import opened Types
  import opened Isa
  import opened PipelineModel
  import opened PipelineEffects
  import opened PipelineInvariant
  import opened PipelineRefinement
  import opened PipelineMisses
  import opened PipelineRuns
  import opened PipelineTiming

  /** The instructions in execute and in memory find the registers with which the sequential machine executes them. */
  ghost predicate RightOperands(p: Pipe, prog: Program, s0: Machine, n: nat)
    requires Holding(p.e) + Holding(p.m) <= n
  {
    && (Holding(p.e) == 1 ==> Agree(RegsAfterM(p), Steps(prog, s0, n - 1).regs, false))
    && (Holding(p.m) == 1 ==> Agree(RegsAfterW(p), Steps(prog, s0, n - Holding(p.e) - 1).regs, false))
  }

  /** The stages are occupied as after some number of cycles without a miss. */
  ghost predicate OnTime(p: Pipe, prog: Program, s0: Machine, n: nat) {
    exists k: nat :: Times(p, Timed(prog, s0, k), prog, s0, n)
  }

  ghost predicate Ordered(p: Pipe, prog: Program, s0: Machine, n: nat) {
    InOrder(p, prog, s0, n) && RightOperands(p, prog, s0, n) && OnTime(p, prog, s0, n)
  }

  /** The instruction that has come into execute finds the registers of the sequential machine. */
  lemma ExecuteRight(p: Pipe, q: Pipe, prog: Program, s0: Machine, n: nat)
    requires Tracks(p, prog, s0, n) && Advanced(p, q) && !p.halted && !Halts(p.w)
    ensures Agree(RegsAfterM(q), Steps(prog, s0, n).regs, false)
  {
    ExecuteDrains(p, q);
  }

  /** So does the one that has come into memory. */
  lemma MemoryRight(p: Pipe, q: Pipe, prog: Program, s0: Machine, n: nat)
    requires Tracks(p, prog, s0, n) && RightOperands(p, prog, s0, n) && Advanced(p, q) && Holding(p.e) == 1
    ensures Agree(RegsAfterW(q), Steps(prog, s0, n - 1).regs, false)
  {
    MemoryDrains(p, q);
  }

  lemma RightOperandsKept(p: Pipe, q: Pipe, prog: Program, s0: Machine, n: nat)
    requires Tracks(p, prog, s0, n) && RightOperands(p, prog, s0, n) && Advanced(p, q) && Supplied(p, q, prog)
    requires Holding(q.e) == (if Issued(p) then 1 else 0) && Holding(q.m) == Holding(p.e)
    ensures RightOperands(q, prog, s0, if Issued(p) then n + 1 else n)
  {
    if Holding(q.e) == 1 {
      ExecuteRight(p, q, prog, s0, n);
    }
    if Holding(p.e) == 1 {
      MemoryRight(p, q, prog, s0, n);
    }
  }

  lemma OnTimeKept(p: Pipe, q: Pipe, prog: Program, s0: Machine, n: nat)
    requires ProperRun(prog, s0) && Tracks(p, prog, s0, n) && OnTime(p, prog, s0, n)
    requires Advanced(p, q) && Supplied(p, q, prog)
    ensures OnTime(q, prog, s0, if Issued(p) then n + 1 else n)
  {
    var k: nat :| Times(p, Timed(prog, s0, k), prog, s0, n);
    TimesKept(p, q, Timed(prog, s0, k), prog, s0, n);
    assert Timed(prog, s0, k + 1) == NextSlots(prog, s0, Timed(prog, s0, k));
  }

  lemma OrderedKept(p: Pipe, q: Pipe, prog: Program, s0: Machine, n: nat)
    requires ProperRun(prog, s0) && Tracks(p, prog, s0, n) && Ordered(p, prog, s0, n)
    requires Advanced(p, q) && Supplied(p, q, prog)
    ensures Ordered(q, prog, s0, if Issued(p) then n + 1 else n)
  {
    HoldingKept(p, q, prog);
    InOrderKept(p, q, prog, s0, n);
    RightOperandsKept(p, q, prog, s0, n);
    OnTimeKept(p, q, prog, s0, n);
  }

  lemma StartOrdered(regs: Regs, mem: DataMemory, prog: Program, s0: Machine)
    ensures Ordered(Start(regs, mem), prog, s0, 0)
  {
    assert Times(Start(regs, mem), Timed(prog, s0, 0), prog, s0, 0);
  }

  // ----- the access in the memory stage -----

  /** It is the access of the sequential machine: same address, same data. */
  lemma SequentialAccess(p: Pipe, prog: Program, s0: Machine, n: nat) returns (k: nat)
    requires Tracks(p, prog, s0, n) && Ordered(p, prog, s0, n) && Asks(p)
    ensures k < n && k == n - Holding(p.e) - 1 && p.m.instr == Nth(prog, s0, k)
    ensures Address(p.regs, p.m.instr) == Address(Steps(prog, s0, k).regs, p.m.instr)
    ensures var i := p.m.instr; i.opcode == SW ==>
      ReadReg(p.regs, i.rd, i.imm) == ReadReg(Steps(prog, s0, k).regs, i.rd, i.imm)
  {
    k := n - Holding(p.e) - 1;
    var i, regs := p.m.instr, Steps(prog, s0, k).regs;
    MemoryReads(p, i.rs);
    MemoryReads(p, i.rt);
    AgreeReads(RegsAfterW(p), regs, i.rs, i.imm);
    AgreeReads(RegsAfterW(p), regs, i.rt, i.imm);
    if i.opcode == SW {
      MemoryReads(p, i.rd);
      AgreeReads(RegsAfterW(p), regs, i.rd, i.imm);
    }
  }

  // ----- programs in which nothing slips -----

  /** What slips is exposed in the run without misses. */
  lemma SlipIsExposed(p: Pipe, prog: Program, s0: Machine, n: nat) returns (k: nat)
    requires Tracks(p, prog, s0, n) && Ordered(p, prog, s0, n) && Slips(p)
    ensures Exposed(prog, s0, Timed(prog, s0, k)) && Times(p, Timed(prog, s0, k), prog, s0, n)
  {
    k :| Times(p, Timed(prog, s0, k), prog, s0, n);
    SlipsTimed(p, Timed(prog, s0, k), prog, s0, n);
  }

  lemma NeverSlips(p: Pipe, prog: Program, s0: Machine, n: nat)
    requires Tracks(p, prog, s0, n) && Ordered(p, prog, s0, n) && NeverExposed(prog, s0)
    ensures !Slips(p)
  {
    if Slips(p) {
      var k := SlipIsExposed(p, prog, s0, n);
    }
  }

  lemma {:induction false} UnexposedRunsOn(
    c: CoreState, a: Pipe, prog: Program, s0: Machine, n: nat, answers: seq<bool>)
    requires ProperRun(prog, s0) && NeverExposed(prog, s0) && Anchored(c, a, prog, s0, n) && Ordered(a, prog, s0, n)
    ensures NoSlips(c, prog, answers)
    decreases |answers|
  {
    NeverSlips(a, prog, s0, n);
    if answers != [] {
      var d := Cycle(c, prog, answers[0]);
      if Flushed(c.pipe) {
        HaltedNeverSlips(d, prog, answers[1..]);
      } else {
        var b, k := CycleFollows(c, a, prog, s0, n, answers[0]);
        if b != a || k != n {
          OrderedKept(a, b, prog, s0, n);
        }
        UnexposedRunsOn(d, b, prog, s0, k, answers[1..]);
      }
    }
  }

  lemma {:induction false} HaltedNeverSlips(c: CoreState, prog: Program, answers: seq<bool>)
    requires c.isHalted && c.pipe.d.pc == EMPTY
    ensures NoSlips(c, prog, answers)
    decreases |answers|
  {
    if answers != [] {
      HaltedNeverSlips(c, prog, answers[1..]);
    }
  }

  /** k answers, and then a miss. */
  function MissAfter(k: nat): (answers: seq<bool>)
    ensures |answers| == k + 1
  {
    if k == 0 then [false] else [true] + MissAfter(k - 1)
  }

  /** At the start of a cycle, as after k cycles without a miss. */
  ghost predicate InTime(c: CoreState, prog: Program, s0: Machine, n: nat, k: nat) {
    Anchored(c, c.pipe, prog, s0, n) && !c.pipe.memStall && Times(c.pipe, Timed(prog, s0, k), prog, s0, n)
  }

  lemma InTimeKept(c: CoreState, prog: Program, s0: Machine, n: nat, k: nat) returns (m: nat)
    requires ProperRun(prog, s0) && InTime(c, prog, s0, n, k) && !Timed(prog, s0, k).halted
    ensures InTime(Cycle(c, prog, true), prog, s0, m, k + 1)
  {
    var b;
    b, m := CycleFollows(c, c.pipe, prog, s0, n, true);
    TimesKept(c.pipe, b, Timed(prog, s0, k), prog, s0, n);
    hide Tracks, Times, Advanced, Supplied, NextSlots;
  }

  lemma MissSlips(c: CoreState, prog: Program, s0: Machine, n: nat, k: nat)
    requires InTime(c, prog, s0, n, k) && Exposed(prog, s0, Timed(prog, s0, k))
    ensures Slips(c.pipe)
  {
    SlipsTimed(c.pipe, Timed(prog, s0, k), prog, s0, n);
  }

  /** A core that gets an answer in every cycle keeps the time of the sequential run, and a miss in the exposed cycle
      makes it slip. */
  lemma {:induction false} ExposedSlips(c: CoreState, prog: Program, s0: Machine, n: nat, j: nat, k: nat)
    requires ProperRun(prog, s0) && InTime(c, prog, s0, n, j) && Exposed(prog, s0, Timed(prog, s0, j + k))
    ensures !NoSlips(c, prog, MissAfter(k))
    decreases k
  {
    hide Tracks, Times, Exposed, Cycle, Slips, ProperRun, Anchored;
    if k == 0 {
      MissSlips(c, prog, s0, n, j);
    } else {
      NotYetHalted(prog, s0, j, k);
      var m := InTimeKept(c, prog, s0, n, j);
      ExposedSlips(Cycle(c, prog, true), prog, s0, m, j + 1, k - 1);
      assert MissAfter(k)[1..] == MissAfter(k - 1);
    }
  }

  /** Nothing is exposed once the run has halted. */
  lemma {:induction false} NotYetHalted(prog: Program, s0: Machine, j: nat, k: nat)
    requires Exposed(prog, s0, Timed(prog, s0, j + k))
    ensures !Timed(prog, s0, j).halted
    decreases k
  {
    if k > 0 {
      NotYetHalted(prog, s0, j + 1, k - 1);
      assert Timed(prog, s0, j + 1) == NextSlots(prog, s0, Timed(prog, s0, j));
    }
  }

  ghost predicate SlipsNever(c: CoreState, prog: Program) {
    forall answers: seq<bool> :: NoSlips(c, prog, answers)
  }

  lemma StartsInTime(prog: Program, regs: Regs, mem: DataMemory)
    ensures var c, s0 := Boot(regs, mem), Reset(regs, mem);
      InTime(c, prog, s0, 0, 0) && Anchored(c, c.pipe, prog, s0, 0) && Ordered(c.pipe, prog, s0, 0)
  {
    StartTracks(regs, mem, prog);
    StartOrdered(regs, mem, prog, Reset(regs, mem));
  }

  /** Nothing slips, under any pattern of misses, if and only if the run without misses exposes nothing. */
  lemma NeverSlipsExact(prog: Program, regs: Regs, mem: DataMemory)
    requires ProperRun(prog, Reset(regs, mem))
    ensures NeverExposed(prog, Reset(regs, mem)) <==> SlipsNever(Boot(regs, mem), prog)
  {
    hide Boot, Reset, ProperRun, InTime, Anchored, Ordered, Exposed, NoSlips;
    var c, s0 := Boot(regs, mem), Reset(regs, mem);
    StartsInTime(prog, regs, mem);
    if NeverExposed(prog, s0) {
      forall answers: seq<bool>
        ensures NoSlips(c, prog, answers)
      {
        UnexposedRunsOn(c, c.pipe, prog, s0, 0, answers);
      }
    } else {
      var k: nat :| Exposed(prog, s0, Timed(prog, s0, k));
      ExposedSlips(c, prog, s0, 0, 0, k);
    }
  }

  /** For programs in which nothing slips the pipeline refines the sequential machine under every pattern of misses. */
  lemma UnexposedProgramsRefine(prog: Program, regs: Regs, mem: DataMemory, answers: seq<bool>, total: nat)
    requires var s0 := Reset(regs, mem);
      ProperRun(prog, s0) && NeverExposed(prog, s0) && HaltsAfter(prog, s0, total)
    ensures var c := RunCore(Boot(regs, mem), prog, answers);
      && (c.isHalted ==> Finished(c, prog, Reset(regs, mem), total))
      && (Answered(answers) >= 4 * total + 6 ==> c.isHalted)
  {
    StartsInTime(prog, regs, mem);
    UnexposedRunsOn(Boot(regs, mem), Boot(regs, mem).pipe, prog, Reset(regs, mem), 0, answers);
    PipelineRefines(prog, regs, mem, answers, total);
  }
}
