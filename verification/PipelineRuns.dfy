/** Whole runs of a core: it halts, where the sequential machine halts, with the same registers and the same memory. */
module PipelineRuns {
  import opened Types
  import opened Isa
  import opened PipelineModel
  import opened PipelineEffects
  import opened PipelineInvariant
  import opened PipelineRefinement
  import opened PipelineMisses
  import opened CoreAccounting

  /** No instruction in decode slips past the interlock while an access waits. */
  ghost predicate NoSlips(c: CoreState, prog: Program, answers: seq<bool>)
    decreases |answers|
  {
    answers == [] ||
    ((!answers[0] && !c.pipe.memStall ==> !Slips(c.pipe)) && NoSlips(Cycle(c, prog, answers[0]), prog, answers[1..]))
  }

  /** The sequential machine executes n instructions and then finds a HALT. */
  ghost predicate HaltsAfter(prog: Program, s0: Machine, n: nat) {
    RunsOn(prog, s0, n) && Fetch(prog, Steps(prog, s0, n).pc).opcode == HALT
  }

  ghost predicate RunsOn(prog: Program, s0: Machine, n: nat) {
    n == 0 || (RunsOn(prog, s0, n - 1) && Fetch(prog, Steps(prog, s0, n - 1).pc).opcode != HALT)
  }

  lemma {:induction false} RunsOnBefore(prog: Program, s0: Machine, n: nat, k: nat)
    requires RunsOn(prog, s0, n) && k < n
    ensures Fetch(prog, Steps(prog, s0, k).pc).opcode != HALT
  {
    if k < n - 1 {
      RunsOnBefore(prog, s0, n - 1, k);
    }
  }

  lemma HaltsOnce(prog: Program, s0: Machine, n: nat, k: nat)
    requires HaltsAfter(prog, s0, n) && HaltsAfter(prog, s0, k)
    ensures n == k
  {
    if n < k {
      RunsOnBefore(prog, s0, k, n);
    } else if k < n {
      RunsOnBefore(prog, s0, n, k);
    }
  }

  // ----- what a run keeps -----

  function Counted(p: Pipe, n: nat): nat { if !p.halted && p.d.pc == EMPTY then n + 1 else n + 2 }

  /** The core is at, or waits for memory in, a cycle that starts in the state a of its pipeline. */
  ghost predicate Anchored(c: CoreState, a: Pipe, prog: Program, s0: Machine, n: nat) {
    && !c.isHalted && Tracks(a, prog, s0, n)
    && if c.pipe.memStall then !Slips(a) && Awaits(a, c.pipe, prog) && c.instructions == Counted(a, n)
       else a == c.pipe && c.instructions + Pending(a) == Counted(a, n)
  }

  /** How many completed cycles are left, of a run that executes `total` instructions. */
  function Work(p: Pipe, n: nat, total: nat): nat
    requires n <= total
  {
    if p.halted then Depth(p) + 1 else 4 * (total - n) + Depth(p) + (if p.d.pc == EMPTY then 6 else 5)
  }

  lemma CountKept(a: Pipe, r: Pipe, prog: Program, s0: Machine, n: nat)
    requires ProperRun(prog, s0) && Tracks(a, prog, s0, n) && Supplied(a, r, prog) && !r.memStall
    ensures Counted(a, n) + Pending(r) == Counted(r, if Issued(a) then n + 1 else n)
  {
    assert Proper(prog, s0, n) && Proper(prog, s0, n + 1);
    assert Steps(prog, s0, n + 1) == Step(prog, Steps(prog, s0, n));
  }

  /** Without a new instruction in execute, the three stages behind decode drain. */
  lemma DepthDrops(a: Pipe, r: Pipe)
    requires Advanced(a, r)
    ensures r.e.pc == EMPTY ==> Depth(r) == if Depth(a) == 0 then 0 else Depth(a) - 1
  {
  }

  /** Decode stays occupied until it halts. */
  lemma DecodeOccupied(a: Pipe, r: Pipe, prog: Program, s0: Machine, n: nat)
    requires ProperRun(prog, s0) && Tracks(a, prog, s0, n) && Supplied(a, r, prog) && !r.halted
    ensures r.d.pc != EMPTY
  {
    assert Proper(prog, s0, n) && Proper(prog, s0, n + 1);
    assert Steps(prog, s0, n + 1) == Step(prog, Steps(prog, s0, n));
  }

  lemma IssueBefore(a: Pipe, prog: Program, s0: Machine, n: nat, total: nat)
    requires Tracks(a, prog, s0, n) && Issued(a)
    requires Fetch(prog, Steps(prog, s0, total).pc).opcode == HALT && n <= total
    ensures n < total
  {
  }

  /** Every completed cycle brings the core closer to its end. */
  lemma WorkDone(a: Pipe, r: Pipe, prog: Program, s0: Machine, n: nat, total: nat)
    requires ProperRun(prog, s0) && Tracks(a, prog, s0, n) && Advanced(a, r) && Supplied(a, r, prog) && !Flushed(a)
    requires Fetch(prog, Steps(prog, s0, total).pc).opcode == HALT && n <= total
    ensures var k := if Issued(a) then n + 1 else n; k <= total && Work(r, k, total) < Work(a, n, total)
  {
    DepthDrops(a, r);
    if !r.halted {
      DecodeOccupied(a, r, prog, s0, n);
    }
    if Issued(a) {
      IssueBefore(a, prog, s0, n, total);
    }
    WorkFalls(a, r, n, total);
  }

  lemma WorkFalls(a: Pipe, r: Pipe, n: nat, total: nat)
    requires n <= total && (Issued(a) ==> n < total && r.e.pc != EMPTY)
    requires a.halted ==> a.d.pc == EMPTY && a.f.pc == EMPTY
    requires r.halted == (a.halted || (Leaves(a) && a.d.instr.opcode == HALT)) && (r.e.pc != EMPTY ==> Leaves(a))
    requires r.e.pc == EMPTY ==> Depth(r) == if Depth(a) == 0 then 0 else Depth(a) - 1
    requires (!r.halted ==> r.d.pc != EMPTY) && !Flushed(a)
    ensures Work(r, if Issued(a) then n + 1 else n, total) < Work(a, n, total)
  {
  }

  lemma IssueRunsOn(a: Pipe, prog: Program, s0: Machine, n: nat)
    requires Tracks(a, prog, s0, n) && RunsOn(prog, s0, n)
    ensures RunsOn(prog, s0, if Issued(a) then n + 1 else n)
  {
  }

  lemma StartTracks(regs: Regs, mem: DataMemory, prog: Program)
    ensures Tracks(Start(regs, mem), prog, Reset(regs, mem), 0)
    ensures Anchored(Boot(regs, mem), Start(regs, mem), prog, Reset(regs, mem), 0)
  {
  }

  /** A cycle of the core: it either completes the cycle of the pipeline that began in a, or waits on. */
  lemma CycleFollows(c: CoreState, a: Pipe, prog: Program, s0: Machine, n: nat, ready: bool) returns (b: Pipe, k: nat)
    requires ProperRun(prog, s0) && Anchored(c, a, prog, s0, n) && !Flushed(c.pipe)
    requires !ready && !c.pipe.memStall ==> !Slips(c.pipe)
    ensures Anchored(Cycle(c, prog, ready), b, prog, s0, k)
    ensures (b == a && k == n && !ready && Cycle(c, prog, ready).pipe.memStall) ||
            (Advanced(a, b) && Supplied(a, b, prog) && k == if Issued(a) then n + 1 else n)
    ensures Cycle(c, prog, ready).pipe.memStall == (Asks(c.pipe) && !ready)
    ensures Asks(c.pipe) && !ready ==> b == a && k == n
  {
    var q := Iterate(c.pipe, prog, ready);
    if c.pipe.memStall && !ready {
      WaitEffect(a, c.pipe, prog);
      b, k := a, n;
    } else if !ready && Asks(a) {
      MissEffect(a, prog);
      b, k := a, n;
    } else {
      if c.pipe.memStall {
        AnswerEffect(a, c.pipe, prog);
      } else {
        CycleEffect(a, prog);
        if !ready {
          NotAsked(a, prog);
        }
      }
      b, k := q, if Issued(a) then n + 1 else n;
      CycleTracks(a, q, prog, s0, n);
      CountKept(a, q, prog, s0, n);
    }
  }

  // ----- where a run ends -----

  /** The core has halted with the state of the sequential machine, which stands at a HALT after n instructions.  The
      count it prints includes that HALT. */
  ghost predicate Finished(c: CoreState, prog: Program, s0: Machine, n: nat) {
    var s := Steps(prog, s0, n);
    && c.isHalted && Fetch(prog, s.pc).opcode == HALT
    && (forall r: Reg :: r >= 2 ==> c.pipe.regs[r] == s.regs[r]) && c.pipe.mem == s.mem
    && c.instructions - 1 == n + 1
  }

  lemma Latches(c: CoreState, a: Pipe, prog: Program, s0: Machine, n: nat, ready: bool)
    requires Anchored(c, a, prog, s0, n) && Flushed(c.pipe)
    ensures Finished(Cycle(c, prog, ready), prog, s0, n)
  {
    assert RegsAfterE(a) == a.regs && MemAfterE(a) == a.mem;
  }

  /** A core that halts has executed what the sequential machine executes. */
  lemma {:induction false} RunFollows(c: CoreState, a: Pipe, prog: Program, s0: Machine, n: nat, answers: seq<bool>)
    requires ProperRun(prog, s0) && Anchored(c, a, prog, s0, n) && NoSlips(c, prog, answers) && RunsOn(prog, s0, n)
    ensures RunCore(c, prog, answers).isHalted ==>
              exists k: nat :: HaltsAfter(prog, s0, k) && Finished(RunCore(c, prog, answers), prog, s0, k)
    decreases |answers|
  {
    if answers != [] {
      var d := Cycle(c, prog, answers[0]);
      if Flushed(c.pipe) {
        Latches(c, a, prog, s0, n, answers[0]);
        LatchedStays(d, prog, answers[1..]);
      } else {
        var b, k := CycleFollows(c, a, prog, s0, n, answers[0]);
        IssueRunsOn(a, prog, s0, n);
        RunFollows(d, b, prog, s0, k, answers[1..]);
      }
    }
  }

  /** A core whose memory answers often enough halts. */
  lemma {:induction false} RunHalts(
    c: CoreState, a: Pipe, prog: Program, s0: Machine, n: nat, total: nat, answers: seq<bool>)
    requires ProperRun(prog, s0) && Anchored(c, a, prog, s0, n) && NoSlips(c, prog, answers)
    requires HaltsAfter(prog, s0, total) && n <= total && Answered(answers) >= Work(a, n, total)
    ensures RunCore(c, prog, answers).isHalted
    decreases |answers|
  {
    hide ProperRun, Advanced, Supplied;
    if answers != [] {
      var d := Cycle(c, prog, answers[0]);
      if Flushed(c.pipe) {
        LatchedStays(d, prog, answers[1..]);
      } else {
        var b, k := CycleFollows(c, a, prog, s0, n, answers[0]);
        if b != a || k != n || answers[0] {
          WorkDone(a, b, prog, s0, n, total);
        }
        RunHalts(d, b, prog, s0, k, total, answers[1..]);
      }
    }
  }

  /** The pipeline refines the sequential machine: for every program of the fragment and every pattern of answers in
      which no instruction slips, a core that halts has the registers and the memory with which the sequential machine
      halts, and prints how many instructions that took. */
  lemma PipelineRefines(prog: Program, regs: Regs, mem: DataMemory, answers: seq<bool>, total: nat)
    requires var s0 := Reset(regs, mem); ProperRun(prog, s0) && HaltsAfter(prog, s0, total)
    requires NoSlips(Boot(regs, mem), prog, answers)
    ensures var c := RunCore(Boot(regs, mem), prog, answers);
      && (c.isHalted ==> Finished(c, prog, Reset(regs, mem), total))
      && (Answered(answers) >= 4 * total + 6 ==> c.isHalted)
  {
    var s0 := Reset(regs, mem);
    var c := RunCore(Boot(regs, mem), prog, answers);
    StartTracks(regs, mem, prog);
    RunFollows(Boot(regs, mem), Start(regs, mem), prog, s0, 0, answers);
    if c.isHalted {
      var k: nat :| HaltsAfter(prog, s0, k) && Finished(c, prog, s0, k);
      HaltsOnce(prog, s0, total, k);
    }
    if Answered(answers) >= 4 * total + 6 {
      RunHalts(Boot(regs, mem), Start(regs, mem), prog, s0, 0, total, answers);
    }
  }
}
