/** Where the pipeline leaves the sequential machine, and exactly when. */
module PipelineLimits {
  import opened Types
  import opened Isa
  import opened PipelineModel
  import opened PipelineEffects
  import opened PipelineInvariant
  import opened PipelineRefinement
  import opened PipelineMisses

  // ----- an instruction that slips past the interlock while an access waits -----

  /** The instruction behind it is going to be fetched twice. */
  lemma SlipFetchesTwice(p: Pipe, q: Pipe, prog: Program, s: Machine)
    requires Awaits(p, q, prog) && Slips(p) && !p.halted && InStep(p, prog, s) && s.npc != EMPTY
    ensures var r := Iterate(q, prog, true);
      && r.e.pc != EMPTY && r.e.instr == p.d.instr && r.d.pc == s.npc && r.pc == s.npc && !r.halted
  {
    AnswerShape(q, prog, Accessed(q), ExecMem(q.regs, q.mem, q.m.instr));
  }

  /** For a program in which no branch leads to its own delay slot: a cycle that waits for memory ends in step with the
      sequential machine if and only if no instruction slips. */
  lemma MissExact(p: Pipe, q: Pipe, prog: Program, s0: Machine, n: nat)
    requires ProperRun(prog, s0) && Tracks(p, prog, s0, n) && Awaits(p, q, prog)
    requires forall k: nat :: Steps(prog, s0, k).npc != Steps(prog, s0, k).pc
    requires Steps(prog, s0, n).npc != EMPTY
    ensures (exists k: nat :: Tracks(Iterate(q, prog, true), prog, s0, k)) <==> !Slips(p)
  {
    var r := Iterate(q, prog, true);
    if Slips(p) {
      SlipFetchesTwice(p, q, prog, Steps(prog, s0, n));
    } else {
      AnswerEffect(p, q, prog);
      CycleTracks(p, r, prog, s0, n);
    }
  }

  // ----- a store right behind the instruction that computes its word -----

  /** Once the interlock has let it through, it finds the register as it was: what it stores is right if and only if
      nothing changes. */
  lemma StaleStoreExact(p: Pipe, prog: Program)
    requires !p.memStall && Legal(p) && (p.halted ==> p.d.pc == EMPTY && p.f.pc == EMPTY)
    requires p.m.pc != EMPTY && p.m.instr.opcode == SW && p.w.pc != EMPTY && Writes(p.w.instr)
    requires Independent(p.m, p.w) && p.m.instr.rd == p.w.instr.rd
    ensures Iterate(p, prog, true).mem == MemAfterM(p) <==> p.w.result == p.regs[p.m.instr.rd]
  {
    CycleEffect(p, prog);
    var i := p.m.instr;
    var a := Address(p.regs, i);
    assert Address(RegsAfterW(p), i) == a;
    assert Iterate(p, prog, true).mem[a] == p.regs[i.rd];
    assert MemAfterM(p)[a] == p.w.result;
  }

  // ----- two programs that show it -----

  /** Stage x holds the instruction at address k, or none if k is negative. */
  predicate Holds(x: Stage, prog: Program, k: int) {
    if k < 0 then x.pc == EMPTY else k < |prog| && x.pc == k && x.instr == prog[k] && InFragment(x.instr)
  }

  predicate Snapshot(p: Pipe, prog: Program, d: int, e: int, m: int, w: int, pc: nat) {
    && !p.memStall && !p.halted && Legal(p) && p.pc == pc < 0x3FF
    && Holds(p.d, prog, d) && Holds(p.e, prog, e) && Holds(p.m, prog, m) && Holds(p.w, prog, w)
  }

  /** A cycle without a stall moves every instruction on by one stage. */
  lemma Issue(p: Pipe, prog: Program, d: nat, e: int, m: int, w: int, pc: nat) returns (q: Pipe)
    requires Snapshot(p, prog, d, e, m, w, pc) && !DataHazard(p) && !IsBranch(prog[d].opcode) && prog[d].opcode != HALT
    requires InFragment(prog[pc]) && pc < 0x3FE
    ensures q == Iterate(p, prog, true) && Snapshot(q, prog, pc, d, e, m, pc + 1) && Advanced(p, q)
  {
    q := Iterate(p, prog, true);
    CycleEffect(p, prog);
  }

  /** A data stall leaves a bubble. */
  lemma Stall(p: Pipe, prog: Program, d: nat, e: int, m: int, w: int, pc: nat) returns (q: Pipe)
    requires Snapshot(p, prog, d, e, m, w, pc) && DataHazard(p)
    ensures q == Iterate(p, prog, true) && Snapshot(q, prog, d, -1, e, m, pc) && Advanced(p, q)
  {
    q := Iterate(p, prog, true);
    CycleEffect(p, prog);
  }

  /** The decoding of HALT leaves only the stages behind it. */
  lemma Halt(p: Pipe, prog: Program, d: nat, e: int, m: int, w: int, pc: nat) returns (q: Pipe)
    requires Snapshot(p, prog, d, e, m, w, pc) && !DataHazard(p) && prog[d].opcode == HALT
    ensures q == Iterate(p, prog, true) && q.halted && q.d.pc == EMPTY && q.f.pc == EMPTY && Legal(q)
    ensures Holds(q.e, prog, d) && Holds(q.m, prog, e) && Holds(q.w, prog, m) && Advanced(p, q)
  {
    q := Iterate(p, prog, true);
    CycleEffect(p, prog);
  }

  /** Memory answers in each of n cycles. */
  predicate Answer(answers: seq<bool>, n: nat) {
    |answers| == n && forall i: nat | i < n :: answers[i]
  }

  lemma {:induction false} RunSplit(c: CoreState, prog: Program, a: seq<bool>, b: seq<bool>)
    ensures RunCore(c, prog, a + b) == RunCore(RunCore(c, prog, a), prog, b)
    decreases |a|
  {
    if a == [] {
      assert a + b == b;
    } else {
      assert (a + b)[1..] == a[1..] + b;
      RunSplit(Cycle(c, prog, a[0]), prog, a[1..], b);
    }
  }

  lemma OneCycle(c: CoreState, prog: Program, answers: seq<bool>) returns (d: CoreState)
    requires answers != [] && !c.isHalted && !Flushed(c.pipe)
    ensures d.pipe == Iterate(c.pipe, prog, answers[0]) && !d.isHalted
    ensures RunCore(c, prog, answers) == RunCore(d, prog, answers[1..])
    ensures |answers| == 1 ==> RunCore(c, prog, answers) == d
  {
    d := Cycle(c, prog, answers[0]);
  }

  lemma ThreeCycles(c: CoreState, prog: Program, answers: seq<bool>, p1: Pipe, p2: Pipe, p3: Pipe)
    requires |answers| == 3 && !c.isHalted && !Flushed(c.pipe) && !Flushed(p1) && !Flushed(p2)
    requires p1 == Iterate(c.pipe, prog, answers[0]) && p2 == Iterate(p1, prog, answers[1])
    requires p3 == Iterate(p2, prog, answers[2])
    ensures !RunCore(c, prog, answers).isHalted && RunCore(c, prog, answers).pipe == p3
  {
    var c1 := OneCycle(c, prog, answers);
    var c2 := OneCycle(c1, prog, answers[1..]);
    var c3 := OneCycle(c2, prog, answers[1..][1..]);
  }

  lemma ThreeHits(c: CoreState, prog: Program, answers: seq<bool>, p1: Pipe, p2: Pipe, p3: Pipe)
    requires Answer(answers, 3) && !c.isHalted && !Flushed(c.pipe) && !Flushed(p1) && !Flushed(p2)
    requires p1 == Iterate(c.pipe, prog, true) && p2 == Iterate(p1, prog, true) && p3 == Iterate(p2, prog, true)
    ensures !RunCore(c, prog, answers).isHalted && RunCore(c, prog, answers).pipe == p3
  {
    ThreeCycles(c, prog, answers, p1, p2, p3);
  }

  lemma FirstFetch(prog: Program, p: Pipe) returns (q: Pipe)
    requires p == Start(p.regs, map[]) && (forall r: Reg :: p.regs[r] == 0) && InFragment(prog[0])
    ensures q == Iterate(p, prog, true)
    ensures Snapshot(q, prog, 0, -1, -1, -1, 1) && (forall r: Reg :: r != IMM_REG ==> q.regs[r] == 0) && q.mem == map[]
  {
    q := Iterate(p, prog, true);
    CycleEffect(p, prog);
  }

  /** A pipeline that only drains. */
  lemma Drain(p: Pipe, prog: Program) returns (q: Pipe)
    requires p.halted && !p.memStall && p.d.pc == EMPTY && p.f.pc == EMPTY && Legal(p)
    ensures q == Iterate(p, prog, true) && Advanced(p, q)
    ensures q.halted && q.d.pc == EMPTY && q.f.pc == EMPTY && q.e.pc == EMPTY && Legal(q)
  {
    q := Iterate(p, prog, true);
    CycleEffect(p, prog);
  }

  predicate StaleStoreProgram(prog: Program) {
    && prog[0] == Instruction(SW, 0, 0, 1, 4)
    && prog[1] == Instruction(ADD, 3, 0, 1, 1)
    && prog[2] == Instruction(ADD, 2, 0, 1, 5)
    && prog[3] == Instruction(SW, 2, 0, 1, 8)
    && prog[4] == Instruction(HALT, 0, 0, 0, 0)
    && prog[5] == Instruction(HALT, 0, 0, 0, 0)
  }

  predicate StaleStoreFilled(p: Pipe, prog: Program) {
    Snapshot(p, prog, 2, 1, 0, -1, 3) && p.regs[0] == 0 && p.regs[2] == 0
  }

  lemma StaleStoreFill(c: CoreState, prog: Program, answers: seq<bool>) returns (d: CoreState)
    requires StaleStoreProgram(prog) && Answer(answers, 3)
    requires c == Boot(c.pipe.regs, map[]) && (forall r: Reg :: c.pipe.regs[r] == 0)
    ensures d == RunCore(c, prog, answers) && !d.isHalted && StaleStoreFilled(d.pipe, prog)
  {
    var p1 := FirstFetch(prog, c.pipe);
    var p2 := Issue(p1, prog, 0, -1, -1, -1, 1);
    var p3 := Issue(p2, prog, 1, 0, -1, -1, 2);
    d := RunCore(c, prog, answers);
    ThreeHits(c, prog, answers, p1, p2, p3);
  }

  /** The store has followed the instruction that computes its word into the memory stage. */
  predicate StaleStoreMet(p: Pipe, prog: Program) {
    && p.halted && !p.memStall && p.d.pc == EMPTY && p.f.pc == EMPTY && Legal(p)
    && Holds(p.e, prog, 4) && Holds(p.m, prog, 3) && Holds(p.w, prog, 2) && p.regs[0] == 0 && p.regs[2] == 0
  }

  lemma StaleStoreMeets(c: CoreState, prog: Program, answers: seq<bool>) returns (d: CoreState)
    requires StaleStoreProgram(prog) && Answer(answers, 3) && !c.isHalted && StaleStoreFilled(c.pipe, prog)
    ensures d == RunCore(c, prog, answers) && !d.isHalted && StaleStoreMet(d.pipe, prog)
  {
    var p4 := Issue(c.pipe, prog, 2, 1, 0, -1, 3);
    var p5 := Issue(p4, prog, 3, 2, 1, 0, 4);
    var p6 := Halt(p5, prog, 4, 3, 2, 1, 5);
    d := RunCore(c, prog, answers);
    ThreeHits(c, prog, answers, p4, p5, p6);
  }

  lemma StaleStoreDrains(c: CoreState, prog: Program, answers: seq<bool>) returns (d: CoreState)
    requires StaleStoreProgram(prog) && Answer(answers, 3) && !c.isHalted && StaleStoreMet(c.pipe, prog)
    ensures d == RunCore(c, prog, answers) && !d.isHalted && Flushed(d.pipe) && Lookup(d.pipe.mem, 8) == 0
  {
    var p7 := Drain(c.pipe, prog);
    assert p7.mem == c.pipe.mem[8 := 0];
    var p8 := Drain(p7, prog);
    var p9 := Drain(p8, prog);
    d := RunCore(c, prog, answers);
    ThreeHits(c, prog, answers, p7, p8, p9);
  }

  lemma StaleStoreHalf(c: CoreState, prog: Program, answers: seq<bool>) returns (d: CoreState)
    requires StaleStoreProgram(prog) && Answer(answers, 6)
    requires c == Boot(c.pipe.regs, map[]) && (forall r: Reg :: c.pipe.regs[r] == 0)
    ensures d == RunCore(c, prog, answers) && !d.isHalted && StaleStoreMet(d.pipe, prog)
  {
    var c3 := StaleStoreFill(c, prog, answers[..3]);
    d := StaleStoreMeets(c3, prog, answers[3..]);
    RunSplit(c, prog, answers[..3], answers[3..]);
    assert answers[..3] + answers[3..] == answers;
  }

  /** The core drains with a zero in memory where the sequential machine stores a five. */
  lemma StaleStoreRun(prog: Program, regs: Regs, answers: seq<bool>)
    requires StaleStoreProgram(prog) && (forall r: Reg :: regs[r] == 0) && Answer(answers, 9)
    ensures var c := RunCore(Boot(regs, map[]), prog, answers); Flushed(c.pipe) && Lookup(c.pipe.mem, 8) == 0
    ensures var s := Steps(prog, Reset(regs, map[]), 4);
      Fetch(prog, s.pc).opcode == HALT && Lookup(s.mem, 8) == 5
  {
    var c6 := StaleStoreHalf(Boot(regs, map[]), prog, answers[..6]);
    var c9 := StaleStoreDrains(c6, prog, answers[6..]);
    RunSplit(Boot(regs, map[]), prog, answers[..6], answers[6..]);
    assert answers[..6] + answers[6..] == answers;
    StaleStoreMachine(prog, Reset(regs, map[]));
  }

  lemma StaleStoreMachine(prog: Program, s0: Machine)
    requires StaleStoreProgram(prog) && s0 == Reset(s0.regs, map[]) && (forall r: Reg :: s0.regs[r] == 0)
    ensures Fetch(prog, Steps(prog, s0, 4).pc).opcode == HALT && Lookup(Steps(prog, s0, 4).mem, 8) == 5
  {
    var s1 := Step(prog, s0);
    var s2 := Step(prog, s1);
    var s3 := Step(prog, s2);
    assert s2.pc == 2 && s2.npc == 3 && s2.regs[0] == 0;
    AddIsSum(0, 5);
    assert s3.regs[2] == 5;
    var s4 := Step(prog, s3);
    assert Steps(prog, s0, 1) == s1;
    assert Steps(prog, s0, 2) == s2;
    assert Steps(prog, s0, 3) == s3;
    assert Steps(prog, s0, 4) == s4;
  }

  lemma AddIsSum(a: Word, b: Word)
    ensures Alu(ADD, a, b) == Sum(a, b)
  {
    assert OPERATIONS[0] == Sum;
    assert OPERATIONS[0](a, b) == Sum(a, b);
  }

  predicate SlipProgram(prog: Program) {
    && prog[0] == Instruction(ADD, 2, 0, 1, 7)
    && prog[1] == Instruction(LW, 3, 0, 1, 0)
    && prog[2] == Instruction(ADD, 4, 0, 1, 1)
    && prog[3] == Instruction(LW, 5, 2, 0, 0)
    && prog[4] == Instruction(ADD, 6, 6, 1, 1)
    && prog[5] == Instruction(HALT, 0, 0, 0, 0)
    && prog[6] == Instruction(HALT, 0, 0, 0, 0)
  }

  predicate SlipFilled(p: Pipe, prog: Program) {
    Snapshot(p, prog, 2, 1, 0, -1, 3) && p.regs[6] == 0
  }

  lemma SlipFill(c: CoreState, prog: Program, answers: seq<bool>) returns (d: CoreState)
    requires SlipProgram(prog) && Answer(answers, 3)
    requires c == Boot(c.pipe.regs, map[]) && (forall r: Reg :: c.pipe.regs[r] == 0)
    ensures d == RunCore(c, prog, answers) && !d.isHalted && SlipFilled(d.pipe, prog)
  {
    var p1 := FirstFetch(prog, c.pipe);
    var p2 := Issue(p1, prog, 0, -1, -1, -1, 1);
    var p3 := Issue(p2, prog, 1, 0, -1, -1, 2);
    d := RunCore(c, prog, answers);
    ThreeHits(c, prog, answers, p1, p2, p3);
  }

  /** The load at 3 has slipped past the interlock; the instruction at 4 is in decode and will be fetched again. */
  predicate Slipped(p: Pipe, prog: Program) {
    Snapshot(p, prog, 4, 3, 2, 1, 4) && p.regs[6] == 0
  }

  lemma SlipMiss(p: Pipe, prog: Program) returns (q: Pipe, r: Pipe)
    requires SlipProgram(prog) && Snapshot(p, prog, 3, 2, 1, 0, 4) && p.regs[6] == 0
    ensures q == Iterate(p, prog, false) && r == Iterate(q, prog, true) && !Flushed(q) && Slipped(r, prog)
  {
    q := Iterate(p, prog, false);
    MissEffect(p, prog);
    r := Iterate(q, prog, true);
    AnswerShape(q, prog, Accessed(q), q.mem);
  }

  lemma SlipOccurs(c: CoreState, prog: Program, answers: seq<bool>) returns (d: CoreState)
    requires SlipProgram(prog) && answers == [true, false, true] && !c.isHalted && SlipFilled(c.pipe, prog)
    ensures d == RunCore(c, prog, answers) && !d.isHalted && Slipped(d.pipe, prog)
  {
    var p4 := Issue(c.pipe, prog, 2, 1, 0, -1, 3);
    var q, r := SlipMiss(p4, prog);
    d := RunCore(c, prog, answers);
    ThreeCycles(c, prog, answers, p4, q, r);
  }

  /** The first of the two is about to be written back. */
  predicate SlipOnce(p: Pipe, prog: Program) {
    Snapshot(p, prog, 4, -1, -1, 4, 5) && p.w.result == 1
  }

  lemma SlipFirst(c: CoreState, prog: Program, answers: seq<bool>) returns (d: CoreState)
    requires SlipProgram(prog) && Answer(answers, 3) && !c.isHalted && Slipped(c.pipe, prog)
    ensures d == RunCore(c, prog, answers) && !d.isHalted && SlipOnce(d.pipe, prog)
  {
    var p7 := Issue(c.pipe, prog, 4, 3, 2, 1, 4);
    var p8 := Stall(p7, prog, 4, 4, 3, 2, 5);
    AddIsSum(0, 1);
    var p9 := Stall(p8, prog, 4, -1, 4, 3, 5);
    d := RunCore(c, prog, answers);
    ThreeHits(c, prog, answers, p7, p8, p9);
  }

  /** The second has added another one. */
  predicate SlipTwice(p: Pipe, prog: Program) {
    && p.halted && !p.memStall && p.d.pc == EMPTY && p.f.pc == EMPTY && Legal(p)
    && Holds(p.e, prog, 5) && Holds(p.m, prog, 4) && p.m.result == 2 && p.w.pc == EMPTY
  }

  lemma SlipSecond(c: CoreState, prog: Program, answers: seq<bool>) returns (d: CoreState)
    requires SlipProgram(prog) && Answer(answers, 3) && !c.isHalted && SlipOnce(c.pipe, prog)
    ensures d == RunCore(c, prog, answers) && !d.isHalted && SlipTwice(d.pipe, prog)
  {
    var p10 := Stall(c.pipe, prog, 4, -1, -1, 4, 5);
    assert p10.regs[6] == 1;
    var p11 := Issue(p10, prog, 4, -1, -1, -1, 5);
    AddIsSum(1, 1);
    var p12 := Halt(p11, prog, 5, 4, -1, -1, 6);
    d := RunCore(c, prog, answers);
    ThreeHits(c, prog, answers, p10, p11, p12);
  }

  lemma SlipDrains(c: CoreState, prog: Program, answers: seq<bool>) returns (d: CoreState)
    requires SlipProgram(prog) && Answer(answers, 3) && !c.isHalted && SlipTwice(c.pipe, prog)
    ensures d == RunCore(c, prog, answers) && Flushed(d.pipe) && d.pipe.regs[6] == 2
  {
    var p13 := Drain(c.pipe, prog);
    var p14 := Drain(p13, prog);
    var p15 := Drain(p14, prog);
    d := RunCore(c, prog, answers);
    ThreeHits(c, prog, answers, p13, p14, p15);
  }

  lemma SlipQuarter(c: CoreState, prog: Program, answers: seq<bool>) returns (d: CoreState)
    requires SlipProgram(prog) && |answers| == 6 && forall i: nat | i < 6 :: answers[i] == (i != 4)
    requires c == Boot(c.pipe.regs, map[]) && (forall r: Reg :: c.pipe.regs[r] == 0)
    ensures d == RunCore(c, prog, answers) && !d.isHalted && Slipped(d.pipe, prog)
  {
    var c3 := SlipFill(c, prog, answers[..3]);
    assert answers[3..] == [true, false, true];
    d := SlipOccurs(c3, prog, answers[3..]);
    RunSplit(c, prog, answers[..3], answers[3..]);
    assert answers[..3] + answers[3..] == answers;
  }

  lemma SlipHalf(c: CoreState, prog: Program, answers: seq<bool>) returns (d: CoreState)
    requires SlipProgram(prog) && |answers| == 9 && forall i: nat | i < 9 :: answers[i] == (i != 4)
    requires c == Boot(c.pipe.regs, map[]) && (forall r: Reg :: c.pipe.regs[r] == 0)
    ensures d == RunCore(c, prog, answers) && !d.isHalted && SlipOnce(d.pipe, prog)
  {
    var c6 := SlipQuarter(c, prog, answers[..6]);
    d := SlipFirst(c6, prog, answers[6..]);
    RunSplit(c, prog, answers[..6], answers[6..]);
    assert answers[..6] + answers[6..] == answers;
  }

  /** One miss, in the fifth cycle, and the core drains with a two where the sequential machine has a one. */
  lemma SlipRun(prog: Program, regs: Regs, answers: seq<bool>)
    requires SlipProgram(prog) && (forall r: Reg :: regs[r] == 0)
    requires |answers| == 15 && forall i: nat | i < 15 :: answers[i] == (i != 4)
    ensures var c := RunCore(Boot(regs, map[]), prog, answers); Flushed(c.pipe) && c.pipe.regs[6] == 2
    ensures var s := Steps(prog, Reset(regs, map[]), 5); Fetch(prog, s.pc).opcode == HALT && s.regs[6] == 1
  {
    var c := Boot(regs, map[]);
    var c9 := SlipHalf(c, prog, answers[..9]);
    var c12 := SlipSecond(c9, prog, answers[9..12]);
    var c15 := SlipDrains(c12, prog, answers[12..]);
    RunSplit(c, prog, answers[..9], answers[9..]);
    RunSplit(c9, prog, answers[9..12], answers[12..]);
    assert answers[..9] + answers[9..] == answers && answers[9..12] + answers[12..] == answers[9..];
    SlipMachine(prog, Reset(regs, map[]));
  }

  lemma SlipMachine(prog: Program, s0: Machine)
    requires SlipProgram(prog) && s0 == Reset(s0.regs, map[]) && (forall r: Reg :: s0.regs[r] == 0)
    ensures Fetch(prog, Steps(prog, s0, 5).pc).opcode == HALT && Steps(prog, s0, 5).regs[6] == 1
  {
    var s1 := Step(prog, s0);
    var s2 := Step(prog, s1);
    var s3 := Step(prog, s2);
    var s4 := Step(prog, s3);
    assert s4.pc == 4 && s4.npc == 5 && s4.regs[6] == 0;
    AddIsSum(0, 1);
    assert Steps(prog, s0, 1) == s1;
    assert Steps(prog, s0, 2) == s2;
    assert Steps(prog, s0, 3) == s3;
    assert Steps(prog, s0, 4) == s4;
    assert Steps(prog, s0, 5) == Step(prog, s4);
  }
}
