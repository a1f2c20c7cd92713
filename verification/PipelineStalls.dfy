/** How often decode is held up, told from the sequential run alone: misses make no difference. */
module PipelineStalls {
  import opened Types
  import opened Isa
  import opened PipelineModel
  import opened PipelineEffects
  import opened PipelineInvariant
  import opened PipelineRefinement
  import opened PipelineRuns
  import opened PipelineTiming
  import CoreAccounting

  /** Decode holds an instruction up. */
  predicate HeldIn(prog: Program, s0: Machine, t: Slots) { !t.halted && t.d && Held(prog, s0, t) }

  /** In how many of the first k cycles without a miss? */
  function HeldBefore(prog: Program, s0: Machine, k: nat): nat {
    if k == 0 then 0 else HeldBefore(prog, s0, k - 1) + Unit(HeldIn(prog, s0, Timed(prog, s0, k - 1)))
  }

  /** The HALT leaves decode. */
  predicate HaltLeaves(prog: Program, s0: Machine, t: Slots) {
    !t.halted && t.d && !Held(prog, s0, t) && Nth(prog, s0, t.n).opcode == HALT
  }

  /** When it does, what is in execute and memory writes no register that another instruction reads. */
  ghost predicate EndsQuietly(prog: Program, s0: Machine) {
    forall k: nat :: var t := Timed(prog, s0, k); HaltLeaves(prog, s0, t) ==>
      && (t.e && t.n > 0 ==> Nth(prog, s0, t.n - 1).rd < 2)
      && (t.m && t.n > Unit(t.e) ==> Nth(prog, s0, t.n - Unit(t.e) - 1).rd < 2)
  }

  predicate Silent(x: Stage) { x.pc == EMPTY || x.instr.rd < 2 }

  /** Nothing is left that the interlock could see. */
  predicate QuietTail(p: Pipe) { Silent(p.e) && Silent(p.m) && Silent(p.w) }

  lemma QuietNoHazard(p: Pipe)
    requires QuietTail(p)
    ensures !DataHazard(p)
  {
  }

  /** Where the core stands: at the start of, or waiting in, the cycle a, which is the k-th without a miss. */
  ghost predicate Paced(c: CoreState, a: Pipe, prog: Program, s0: Machine, n: nat, k: nat) {
    && Anchored(c, a, prog, s0, n) && Times(a, Timed(prog, s0, k), prog, s0, n) && CoreAccounting.Closed(c.pipe)
    && c.pipe.decodeStalls == HeldBefore(prog, s0, k) && (a.halted ==> QuietTail(a))
  }

  /** When the HALT leaves, what is behind decode is quiet. */
  lemma HaltIsQuiet(a: Pipe, prog: Program, s0: Machine, n: nat, k: nat)
    requires EndsQuietly(prog, s0) && Tracks(a, prog, s0, n) && Times(a, Timed(prog, s0, k), prog, s0, n)
    requires !a.halted && Leaves(a) && a.d.instr.opcode == HALT
    ensures Silent(a.e) && Silent(a.m) && !HeldIn(prog, s0, Timed(prog, s0, k))
  {
    var t := Timed(prog, s0, k);
    LeavesTimed(a, t, prog, s0, n);
    InstructionsTimed(a, t, prog, s0, n);
    assert HaltLeaves(prog, s0, t);
  }

  /** A cycle that completes holds decode up exactly if the k-th one without a miss does. */
  lemma HeldCycle(a: Pipe, b: Pipe, prog: Program, s0: Machine, n: nat, k: nat)
    requires Tracks(a, prog, s0, n) && Times(a, Timed(prog, s0, k), prog, s0, n)
    requires Supplied(a, b, prog) && !a.halted && !b.halted
    ensures b.dataStall == HeldIn(prog, s0, Timed(prog, s0, k))
  {
    if a.d.pc != EMPTY {
      LeavesTimed(a, Timed(prog, s0, k), prog, s0, n);
    }
  }

  /** A pipeline that waits is as quiet as it was. */
  lemma WaitingTail(c: CoreState, a: Pipe, prog: Program, s0: Machine, n: nat)
    requires Anchored(c, a, prog, s0, n) && Silent(a.e) && Silent(a.m) && (!c.pipe.memStall ==> !DataHazard(a))
    ensures !DataHazard(c.pipe)
  {
    if c.pipe.memStall {
      QuietNoHazard(c.pipe);
    }
  }

  lemma TailKept(a: Pipe, b: Pipe, prog: Program, s0: Machine, n: nat)
    requires Tracks(a, prog, s0, n) && Advanced(a, b) && Supplied(a, b, prog) && b.halted
    requires Silent(a.e) && Silent(a.m) && ProperRun(prog, s0)
    ensures QuietTail(b)
  {
    assert Proper(prog, s0, n);
  }

  lemma HaltedCycle(c: CoreState, a: Pipe, b: Pipe, prog: Program, s0: Machine, n: nat, k: nat)
    requires ProperRun(prog, s0) && EndsQuietly(prog, s0) && Paced(c, a, prog, s0, n, k)
    requires Advanced(a, b) && Supplied(a, b, prog) && b.halted
    ensures QuietTail(b) && !DataHazard(c.pipe) && !HeldIn(prog, s0, Timed(prog, s0, k))
  {
    if a.halted {
      QuietNoHazard(a);
    } else {
      HaltIsQuiet(a, prog, s0, n, k);
    }
    WaitingTail(c, a, prog, s0, n);
    TailKept(a, b, prog, s0, n);
  }

  lemma PacedKept(c: CoreState, a: Pipe, prog: Program, s0: Machine, n: nat, k: nat, ready: bool)
    returns (b: Pipe, m: nat, j: nat)
    requires ProperRun(prog, s0) && EndsQuietly(prog, s0) && Paced(c, a, prog, s0, n, k) && !Flushed(c.pipe)
    requires !ready && !c.pipe.memStall ==> !Slips(c.pipe)
    ensures Paced(Cycle(c, prog, ready), b, prog, s0, m, j)
  {
    hide ProperRun, Tracks, Times, Advanced, Supplied, HeldIn, DataHazard, Awaits, QuietTail, EndsQuietly;
    b, m := CycleFollows(c, a, prog, s0, n, ready);
    CoreAccounting.CycleSlots(c.pipe, prog, ready);
    j := k;
    if !Cycle(c, prog, ready).pipe.memStall {
      j := k + 1;
      TimesKept(a, b, Timed(prog, s0, k), prog, s0, n);
      if b.halted {
        HaltedCycle(c, a, b, prog, s0, n, k);
      } else {
        StillRuns(a, b, prog);
        HeldCycle(a, b, prog, s0, n, k);
      }
    }
  }

  lemma StillRuns(a: Pipe, b: Pipe, prog: Program)
    requires Supplied(a, b, prog) && !b.halted
    ensures !a.halted
  {
  }

  /** When the run has been halted for a while, the number stays. */
  lemma {:induction false} HeldStays(prog: Program, s0: Machine, j: nat, k: nat)
    requires j <= k && Timed(prog, s0, j).halted
    ensures Timed(prog, s0, k).halted && HeldBefore(prog, s0, k) == HeldBefore(prog, s0, j)
    decreases k
  {
    if j < k {
      HeldStays(prog, s0, j, k - 1);
    }
  }

  /** However the memory answers. */
  lemma {:induction false} RunPaced(
    c: CoreState, a: Pipe, prog: Program, s0: Machine, n: nat, k: nat, answers: seq<bool>)
    requires ProperRun(prog, s0) && EndsQuietly(prog, s0) && Paced(c, a, prog, s0, n, k) && NoSlips(c, prog, answers)
    ensures var d := RunCore(c, prog, answers); d.isHalted ==>
      exists j: nat :: Timed(prog, s0, j).halted && d.pipe.decodeStalls == HeldBefore(prog, s0, j)
    decreases |answers|
  {
    if answers != [] {
      var d := Cycle(c, prog, answers[0]);
      if Flushed(c.pipe) {
        LatchedPaced(c, a, prog, s0, n, k);
        CoreAccounting.LatchedStays(d, prog, answers[1..]);
      } else {
        var b, m, j := PacedKept(c, a, prog, s0, n, k, answers[0]);
        RunPaced(d, b, prog, s0, m, j, answers[1..]);
      }
    }
  }

  lemma LatchedPaced(c: CoreState, a: Pipe, prog: Program, s0: Machine, n: nat, k: nat)
    requires Paced(c, a, prog, s0, n, k) && Flushed(c.pipe)
    ensures Timed(prog, s0, k).halted && c.pipe.decodeStalls == HeldBefore(prog, s0, k)
  {
  }

  /** The decode stalls that a core prints do not depend on the misses: they are the cycles of the run without misses in
      which the interlock holds decode up. */
  lemma DecodeStallsExact(prog: Program, regs: Regs, mem: DataMemory, answers: seq<bool>, k: nat)
    requires var s0 := Reset(regs, mem); ProperRun(prog, s0) && EndsQuietly(prog, s0) && Timed(prog, s0, k).halted
    requires NoSlips(Boot(regs, mem), prog, answers)
    ensures var c := RunCore(Boot(regs, mem), prog, answers);
      c.isHalted ==> c.pipe.decodeStalls == HeldBefore(prog, Reset(regs, mem), k)
  {
    var s0, c := Reset(regs, mem), RunCore(Boot(regs, mem), prog, answers);
    StartTracks(regs, mem, prog);
    RunPaced(Boot(regs, mem), Start(regs, mem), prog, s0, 0, 0, answers);
    if c.isHalted {
      var j: nat :| Timed(prog, s0, j).halted && c.pipe.decodeStalls == HeldBefore(prog, s0, j);
      HeldStays(prog, s0, if j < k then j else k, if j < k then k else j);
    }
  }
}
