/** How often the interlock holds up the programs that add two vectors. */
module AddTiming {
  import opened Types
  import opened Isa
  import opened PipelineRefinement
  import opened PipelineTiming
  import opened PipelineSpacing
  import opened PipelineStalls
  import opened ProgramFlow
  import opened AddPrograms
  import opened AddResults
  import opened AddRuns

  // ----- stretches of a run -----

  /** After k cycles without a miss the n-th instruction is in decode, e, m and w say which stages are occupied, and h
      cycles have held decode up. */
  predicate Reached(prog: Program, s0: Machine, k: nat, n: nat, e: bool, m: bool, w: bool, h: nat) {
    Timed(prog, s0, k) == Slots(false, n, true, e, m, w) && HeldBefore(prog, s0, k) == h
  }

  lemma Flows(prog: Program, s0: Machine, k: nat, n: nat, e: bool, m: bool, w: bool, h: nat)
    requires Reached(prog, s0, k, n, e, m, w, h) && Nth(prog, s0, n).opcode != HALT
    requires !Held(prog, s0, Slots(false, n, true, e, m, w))
    ensures Reached(prog, s0, k + 1, n + 1, true, e, m, h)
  {
    hide Held, Nth;
    assert Timed(prog, s0, k + 1) == NextSlots(prog, s0, Timed(prog, s0, k));
  }

  lemma Stays(prog: Program, s0: Machine, k: nat, n: nat, e: bool, m: bool, w: bool, h: nat)
    requires Reached(prog, s0, k, n, e, m, w, h) && Held(prog, s0, Slots(false, n, true, e, m, w))
    ensures Reached(prog, s0, k + 1, n, false, e, m, h + 1)
  {
    hide Held, Nth;
    assert Timed(prog, s0, k + 1) == NextSlots(prog, s0, Timed(prog, s0, k));
  }

  lemma FreeFlows(prog: Program, s0: Machine, k: nat, n: nat, m: bool, w: bool, h: nat)
    requires Reached(prog, s0, k, n, true, m, w, h) && n > 2 && !Waits(prog, s0, n) && Nth(prog, s0, n).opcode != HALT
    ensures Reached(prog, s0, k + 1, n + 1, true, true, m, h)
  {
    hide Reached, Waits, Held, Nth;
    var t := Slots(false, n, true, true, m, w);
    if Held(prog, s0, t) {
      HeldWaits(prog, s0, t);
    } else {
      Flows(prog, s0, k, n, true, m, w, h);
    }
  }

  /** Instructions that depend on none of the three before them follow each other directly. */
  lemma {:induction false} Stretch(prog: Program, s0: Machine, k: nat, n: nat, m: bool, w: bool, h: nat, len: nat)
    requires Reached(prog, s0, k, n, true, m, w, h) && n > 2
    requires forall x: nat :: n <= x < n + len ==> !Waits(prog, s0, x) && Nth(prog, s0, x).opcode != HALT
    ensures Reached(prog, s0, k + len, n + len, true, len > 0 || m,
                    if len > 1 then true else if len == 1 then m else w, h)
    decreases len
  {
    hide Reached, Waits, Nth;
    if len > 0 {
      FreeFlows(prog, s0, k, n, m, w, h);
      Stretch(prog, s0, k + 1, n + 1, true, m, h, len - 1);
    }
  }

  /** One that depends on the instruction before it waits for three cycles. */
  lemma WaitsForLast(prog: Program, s0: Machine, k: nat, n: nat, m: bool, w: bool, h: nat)
    requires Reached(prog, s0, k, n, true, m, w, h) && Nth(prog, s0, n).opcode != HALT && n > 2
    requires HeldUp(Nth(prog, s0, n), Nth(prog, s0, n - 1), true)
    ensures Reached(prog, s0, k + 4, n + 1, true, false, false, h + 3)
  {
    hide Reached, Nth;
    Stays(prog, s0, k, n, true, m, w, h);
    Stays(prog, s0, k + 1, n, false, true, m, h + 1);
    Stays(prog, s0, k + 2, n, false, false, true, h + 2);
    Flows(prog, s0, k + 3, n, false, false, false, h + 3);
  }

  /** One that depends on the instruction before that, which the last one follows directly, waits for two. */
  lemma WaitsForBefore(prog: Program, s0: Machine, k: nat, n: nat, w: bool, h: nat)
    requires Reached(prog, s0, k, n, true, true, w, h) && Nth(prog, s0, n).opcode != HALT && n > 2
    requires Nth(prog, s0, n - 2).opcode != SW && Nth(prog, s0, n - 3).opcode != SW
    requires HeldUp(Nth(prog, s0, n), Nth(prog, s0, n - 2), false)
    requires !HeldUp(Nth(prog, s0, n), Nth(prog, s0, n - 1), false)
    ensures Reached(prog, s0, k + 3, n + 1, true, false, false, h + 2)
  {
    hide Reached, Nth;
    Stays(prog, s0, k, n, true, true, w, h);
    Stays(prog, s0, k + 1, n, false, true, true, h + 1);
    Flows(prog, s0, k + 2, n, false, false, true, h + 2);
  }

  // ----- the loop that adds -----

  /** The instructions of round k and the three before them. */
  lemma RoundCode(prog: Program, job: Job, s0: Machine, k: nat, j: nat)
    requires AddProgram(prog, job) && Sensible(job) && Begins(s0) && k < job.rounds && j < 22
    ensures Nth(prog, s0, 22 * k + 6 + j) == prog[6 + j]
  {
    hide AddProgram, Sums, Loads, Epilogue, Prologue;
    assert PlaceOf(job, 22 * k + 6 + j) == (k, 6 + j) by {
      assert (22 * k + j) / 22 == k && (22 * k + j) % 22 == j;
    }
    WhereIs(prog, job, s0, 22 * k + 6 + j);
  }

  /** Nothing that the first instructions of a loop read. */
  predicate Elder(i: Instruction) { i.opcode != SW && i.rd != 2 && i.rd != 6 }

  predicate Elders(prog: Program, s0: Machine, n: nat) {
    n > 2 && Elder(Nth(prog, s0, n - 1)) && Elder(Nth(prog, s0, n - 2)) && Elder(Nth(prog, s0, n - 3))
  }

  /** The places in the loop that depend on none of the three instructions before them. */
  predicate FreePlace(a: nat) { 6 <= a <= 15 || a == 18 || a == 19 || 22 <= a <= 25 || a == 27 }

  lemma FreeCode(prog: Program, job: Job, a: nat)
    requires AddProgram(prog, job) && FreePlace(a) && a >= 9
    ensures !HeldUp(prog[a], prog[a - 1], false) && !HeldUp(prog[a], prog[a - 2], false)
    ensures !HeldUp(prog[a], prog[a - 3], false)
  {
    hide Prologue, Epilogue;
  }

  lemma FreeFirst(prog: Program, job: Job, i: Instruction)
    requires AddProgram(prog, job) && Elder(i)
    ensures !HeldUp(prog[6], i, false) && !HeldUp(prog[7], i, false) && !HeldUp(prog[8], i, false)
    ensures !HeldUp(prog[7], prog[6], false) && !HeldUp(prog[8], prog[7], false) && !HeldUp(prog[8], prog[6], false)
  {
    hide Prologue, Sums, Epilogue;
  }

  lemma RoundFree(prog: Program, job: Job, s0: Machine, r: nat, j: nat)
    requires AddProgram(prog, job) && Sensible(job) && Begins(s0) && r < job.rounds && Elders(prog, s0, 22 * r + 6)
    requires j < 22 && FreePlace(6 + j)
    ensures !Waits(prog, s0, 22 * r + 6 + j) && Nth(prog, s0, 22 * r + 6 + j) == prog[6 + j]
  {
    hide AddProgram, Sensible, Begins, Nth, HeldUp;
    var n := 22 * r + 6;
    RoundCode(prog, job, s0, r, j);
    if j >= 3 {
      RoundCode(prog, job, s0, r, j - 1);
      RoundCode(prog, job, s0, r, j - 2);
      RoundCode(prog, job, s0, r, j - 3);
      FreeCode(prog, job, 6 + j);
    } else {
      FreeFirst(prog, job, Nth(prog, s0, n - 1));
      FreeFirst(prog, job, Nth(prog, s0, n - 2));
      FreeFirst(prog, job, Nth(prog, s0, n - 3));
      RoundCode(prog, job, s0, r, 0);
      RoundCode(prog, job, s0, r, 1);
    }
  }

  lemma RoundStretch(prog: Program, job: Job, s0: Machine, r: nat, j: nat, len: nat, k: nat, m: bool, w: bool, h: nat)
    requires AddProgram(prog, job) && Sensible(job) && Begins(s0) && r < job.rounds && Elders(prog, s0, 22 * r + 6)
    requires j + len <= 22 && forall a: nat :: 6 + j <= a < 6 + j + len ==> FreePlace(a)
    requires Reached(prog, s0, k, 22 * r + 6 + j, true, m, w, h)
    ensures Reached(prog, s0, k + len, 22 * r + 6 + j + len, true, len > 0 || m,
                    if len > 1 then true else if len == 1 then m else w, h)
  {
    hide Sensible, Begins, Nth, HeldUp, Elders, Reached, Waits;
    var n := 22 * r + 6 + j;
    forall x: nat | n <= x < n + len
      ensures !Waits(prog, s0, x) && Nth(prog, s0, x).opcode != HALT
    {
      RoundFree(prog, job, s0, r, x - 22 * r - 6);
    }
    Stretch(prog, s0, k, n, m, w, h, len);
  }

  /** What the stores of the loop wait for, and the branch. */
  lemma StoreCode(prog: Program, job: Job)
    requires AddProgram(prog, job)
    ensures HeldUp(prog[16], prog[14], false) && !HeldUp(prog[16], prog[15], false)
    ensures !HeldUp(prog[17], prog[16], false)
    ensures !HeldUp(prog[20], prog[19], true) && !HeldUp(prog[20], prog[18], true) && !HeldUp(prog[20], prog[17], true)
    ensures HeldUp(prog[21], prog[19], false) && !HeldUp(prog[21], prog[20], false)
    ensures HeldUp(prog[26], prog[25], true)
    ensures prog[13].opcode == LW && prog[17].opcode == SW
    ensures forall a: nat :: 14 <= a <= 26 ==> prog[a].opcode != HALT
    ensures prog[14].opcode != SW && prog[15].opcode != SW && prog[18].opcode != SW && prog[19].opcode != SW
  {
    hide Prologue, Epilogue;
  }

  /** The first half of a round: the first store waits for two cycles. */
  lemma RoundBegins(prog: Program, job: Job, s0: Machine, r: nat, k: nat, h: nat)
    requires AddProgram(prog, job) && Sensible(job) && Begins(s0) && r < job.rounds && Elders(prog, s0, 22 * r + 6)
    requires Reached(prog, s0, k, 22 * r + 6, true, true, false, h)
    ensures Reached(prog, s0, k + 14, 22 * r + 18, true, true, false, h + 2)
  {
    hide AddProgram, Sensible, Begins, Nth, HeldUp, Elders, Reached, Waits;
    var n := 22 * r + 16;
    StoreCode(prog, job);
    RoundStretch(prog, job, s0, r, 0, 10, k, true, false, h);
    RoundCode(prog, job, s0, r, 7);
    RoundCode(prog, job, s0, r, 8);
    RoundCode(prog, job, s0, r, 9);
    RoundCode(prog, job, s0, r, 10);
    RoundCode(prog, job, s0, r, 11);
    WaitsForBefore(prog, s0, k + 10, n, true, h);
    Flows(prog, s0, k + 13, n + 1, true, false, false, h + 2);
  }

  /** In the second half the last store waits for two cycles, and the branch for three. */
  lemma RoundEnds(prog: Program, job: Job, s0: Machine, r: nat, k: nat, h: nat)
    requires AddProgram(prog, job) && Sensible(job) && Begins(s0) && r < job.rounds && Elders(prog, s0, 22 * r + 6)
    requires Reached(prog, s0, k, 22 * r + 18, true, true, false, h)
    ensures Reached(prog, s0, k + 15, 22 * r + 28, true, true, false, h + 5)
  {
    hide AddProgram, Sensible, Begins, Nth, HeldUp, Elders, Reached, Waits;
    var n := 22 * r + 20;
    StoreCode(prog, job);
    RoundStretch(prog, job, s0, r, 12, 2, k, true, false, h);
    RoundCode(prog, job, s0, r, 11);
    RoundCode(prog, job, s0, r, 12);
    RoundCode(prog, job, s0, r, 13);
    RoundCode(prog, job, s0, r, 14);
    RoundCode(prog, job, s0, r, 15);
    Flows(prog, s0, k + 2, n, true, true, true, h);
    WaitsForBefore(prog, s0, k + 3, n + 1, true, h);
    RoundStretch(prog, job, s0, r, 16, 4, k + 6, false, false, h + 2);
    RoundCode(prog, job, s0, r, 19);
    RoundCode(prog, job, s0, r, 20);
    WaitsForLast(prog, s0, k + 10, n + 6, true, true, h + 2);
    RoundStretch(prog, job, s0, r, 21, 1, k + 14, false, false, h + 5);
  }

  /** So a round takes 29 cycles, seven of which hold decode up. */
  lemma {:induction false} Rounds(prog: Program, job: Job, s0: Machine, r: nat)
    requires AddProgram(prog, job) && Sensible(job) && Begins(s0) && r <= job.rounds
    requires Reached(prog, s0, 16, 6, true, true, false, 9) && Elders(prog, s0, 6)
    ensures Reached(prog, s0, 16 + 29 * r, 22 * r + 6, true, true, false, 9 + 7 * r)
  {
    hide AddProgram, Sensible, Begins, Reached, Elders;
    if r > 0 {
      Rounds(prog, job, s0, r - 1);
      RoundElders(prog, job, s0, r - 1);
      RoundBegins(prog, job, s0, r - 1, 16 + 29 * (r - 1), 9 + 7 * (r - 1));
      RoundEnds(prog, job, s0, r - 1, 30 + 29 * (r - 1), 11 + 7 * (r - 1));
    }
  }

  lemma RoundElders(prog: Program, job: Job, s0: Machine, r: nat)
    requires AddProgram(prog, job) && Sensible(job) && Begins(s0) && r < job.rounds && Elders(prog, s0, 6)
    ensures Elders(prog, s0, 22 * r + 6)
  {
    hide Sensible, Begins, Nth, Prologue, Epilogue, Loads;
    if r > 0 {
      RoundCode(prog, job, s0, r - 1, 19);
      RoundCode(prog, job, s0, r - 1, 20);
      RoundCode(prog, job, s0, r - 1, 21);
    }
  }

  // ----- before and behind it -----

  lemma CodeAt(prog: Program, job: Job, s0: Machine, n: nat)
    requires AddProgram(prog, job) && Sensible(job) && Begins(s0)
    ensures Nth(prog, s0, n) == prog[PlaceOf(job, n).1]
  {
    hide AddProgram, PlaceOf;
    WhereIs(prog, job, s0, n);
    AddAccess(prog, job, s0, n);
  }

  lemma FirstCycles(prog: Program, s0: Machine)
    ensures Timed(prog, s0, 1) == Slots(false, 0, true, false, false, false) && HeldBefore(prog, s0, 1) == 0
  {
    assert Timed(prog, s0, 1) == NextSlots(prog, s0, Timed(prog, s0, 0));
  }

  /** The prologue takes 16 cycles, nine of which hold decode up. */
  lemma ProloguePace(prog: Program, job: Job, s0: Machine)
    requires AddProgram(prog, job) && Sensible(job) && Begins(s0)
    ensures Reached(prog, s0, 16, 6, true, true, false, 9) && Elders(prog, s0, 6)
  {
    hide Sensible, Begins, Nth, Loads, Sums, Epilogue, Timed, HeldBefore;
    forall n: nat | n < 6
      ensures Nth(prog, s0, n) == prog[n]
    {
      CodeAt(prog, job, s0, n);
    }
    FirstCycles(prog, s0);
    assert Reached(prog, s0, 1, 0, false, false, false, 0);
    Flows(prog, s0, 1, 0, false, false, false, 0);
    Flows(prog, s0, 2, 1, true, false, false, 0);
    Stays(prog, s0, 3, 2, true, true, false, 0);
    Stays(prog, s0, 4, 2, false, true, true, 1);
    Stays(prog, s0, 5, 2, false, false, true, 2);
    Flows(prog, s0, 6, 2, false, false, false, 3);
    WaitsForLast(prog, s0, 7, 3, false, false, 3);
    WaitsForLast(prog, s0, 11, 4, false, false, 6);
    Flows(prog, s0, 15, 5, true, false, false, 9);
  }

  /** The instruction of round k of the second loop at address a. */
  lemma SweepCode(prog: Program, job: Job, s0: Machine, k: nat, a: nat)
    requires AddProgram(prog, job) && Sensible(job) && Begins(s0) && k < 64 && 30 <= a < 35
    ensures Nth(prog, s0, 22 * job.rounds + 5 * k + a - 22) == prog[a]
  {
    hide AddProgram, Begins;
    assert (5 * k + a - 30) / 5 == k && (5 * k + a - 30) % 5 == a - 30;
    CodeAt(prog, job, s0, 22 * job.rounds + 5 * k + a - 22);
  }

  /** A round of the second loop, behind the load: the branch waits for three cycles. */
  lemma SweepPace(prog: Program, job: Job, s0: Machine, k: nat, c: nat, m: bool, w: bool, h: nat)
    requires AddProgram(prog, job) && Sensible(job) && Begins(s0) && k < 64
    requires var n := 22 * job.rounds + 5 * k + 9;
      && Reached(prog, s0, c, n, true, m, w, h) && (w ==> m)
      && (m ==> Nth(prog, s0, n - 2).rd < 2) && (w ==> Nth(prog, s0, n - 3).rd < 2)
    ensures Reached(prog, s0, c + 7, 22 * job.rounds + 5 * k + 13, true, true, false, h + 3)
  {
    hide Sensible, Begins, Nth, Prologue, Loads, Sums, Reached;
    var n := 22 * job.rounds + 5 * k + 9;
    SweepCode(prog, job, s0, k, 30);
    SweepCode(prog, job, s0, k, 31);
    SweepCode(prog, job, s0, k, 32);
    SweepCode(prog, job, s0, k, 33);
    SweepCode(prog, job, s0, k, 34);
    Flows(prog, s0, c, n, true, m, w, h);
    Flows(prog, s0, c + 1, n + 1, true, true, m, h);
    WaitsForLast(prog, s0, c + 2, n + 2, true, true, h);
    Flows(prog, s0, c + 6, n + 3, true, false, false, h + 3);
  }

  /** Its first load waits for the instruction before last. */
  lemma SweepStarts(prog: Program, job: Job, s0: Machine, c: nat, h: nat)
    requires AddProgram(prog, job) && Sensible(job) && Begins(s0)
    requires Reached(prog, s0, c, 22 * job.rounds + 6, true, true, false, h)
    ensures Reached(prog, s0, c + 12, 22 * job.rounds + 13, true, true, false, h + 5)
  {
    hide Begins, Nth, Prologue, Loads, Reached;
    var n := 22 * job.rounds + 6;
    RoundCode(prog, job, s0, job.rounds - 1, 20);
    RoundCode(prog, job, s0, job.rounds - 1, 21);
    CodeAt(prog, job, s0, n);
    CodeAt(prog, job, s0, n + 1);
    SweepCode(prog, job, s0, 0, 30);
    Flows(prog, s0, c, n, true, true, false, h);
    Flows(prog, s0, c + 1, n + 1, true, true, true, h);
    WaitsForBefore(prog, s0, c + 2, n + 2, true, h);
    SweepPace(prog, job, s0, 0, c + 5, false, false, h + 2);
  }

  lemma SweepLoad(prog: Program, job: Job, s0: Machine, k: nat, c: nat, h: nat)
    requires AddProgram(prog, job) && Sensible(job) && Begins(s0) && 0 < k < 64
    requires Reached(prog, s0, c, 22 * job.rounds + 5 * k + 8, true, true, false, h)
    ensures Reached(prog, s0, c + 8, 22 * job.rounds + 5 * k + 13, true, true, false, h + 3)
  {
    hide Sensible, Begins, Nth, Prologue, Loads, Sums, Reached;
    SweepCode(prog, job, s0, k - 1, 33);
    SweepCode(prog, job, s0, k - 1, 34);
    SweepCode(prog, job, s0, k, 30);
    Flows(prog, s0, c, 22 * job.rounds + 5 * k + 8, true, true, false, h);
    SweepPace(prog, job, s0, k, c + 1, true, true, h);
  }

  lemma {:induction false} Sweeps(prog: Program, job: Job, s0: Machine, c: nat, h: nat, k: nat)
    requires AddProgram(prog, job) && Sensible(job) && Begins(s0) && k < 64
    requires Reached(prog, s0, c, 22 * job.rounds + 6, true, true, false, h)
    ensures Reached(prog, s0, c + 12 + 8 * k, 22 * job.rounds + 5 * k + 13, true, true, false, h + 5 + 3 * k)
    decreases k
  {
    hide AddProgram, Sensible, Begins, Reached;
    if k == 0 {
      SweepStarts(prog, job, s0, c, h);
    } else {
      Sweeps(prog, job, s0, c, h, k - 1);
      SweepLoad(prog, job, s0, k, c + 4 + 8 * k, h + 2 + 3 * k);
    }
  }

  lemma EndPace(prog: Program, s0: Machine, c: nat, n: nat, h: nat)
    requires Reached(prog, s0, c, n, true, true, false, h) && Nth(prog, s0, n) == Instruction(HALT, 0, 0, 0, 0)
    ensures Timed(prog, s0, c + 1).halted && HeldBefore(prog, s0, c + 1) == h
  {
    hide Nth;
    assert Timed(prog, s0, c + 1) == NextSlots(prog, s0, Timed(prog, s0, c));
  }

  /** The whole run without misses: seven cycles of a round, and 203 others, hold decode up. */
  lemma AddPace(prog: Program, job: Job, s0: Machine)
    requires AddProgram(prog, job) && Sensible(job) && Begins(s0)
    ensures var k := 29 * job.rounds + 533;
      Timed(prog, s0, k).halted && HeldBefore(prog, s0, k) == 7 * job.rounds + 203
  {
    hide Sensible, Begins, Reached, Elders, Nth, Loads, Sums, Prologue;
    ProloguePace(prog, job, s0);
    Rounds(prog, job, s0, job.rounds);
    Sweeps(prog, job, s0, 16 + 29 * job.rounds, 9 + 7 * job.rounds, 63);
    CodeAt(prog, job, s0, 22 * job.rounds + 328);
    EndPace(prog, s0, 29 * job.rounds + 532, 22 * job.rounds + 328, 7 * job.rounds + 203);
  }

  lemma HaltOf(prog: Program, s0: Machine, t: Slots)
    requires HaltLeaves(prog, s0, t)
    ensures Nth(prog, s0, t.n).opcode == HALT
  {
  }

  /** At the end only a NOP and a branch are on their way. */
  lemma AddEndsQuietly(prog: Program, job: Job, s0: Machine)
    requires AddProgram(prog, job) && Sensible(job) && Begins(s0)
    ensures EndsQuietly(prog, s0)
  {
    hide AddProgram, Begins, Timed, HaltLeaves, Nth;
    forall k: nat | HaltLeaves(prog, s0, Timed(prog, s0, k))
      ensures var t := Timed(prog, s0, k);
        && (t.e && t.n > 0 ==> Nth(prog, s0, t.n - 1).rd < 2)
        && (t.m && t.n > Unit(t.e) ==> Nth(prog, s0, t.n - Unit(t.e) - 1).rd < 2)
    {
      HaltOf(prog, s0, Timed(prog, s0, k));
      HaltsBehind(prog, job, s0, Timed(prog, s0, k).n);
    }
  }

  lemma HaltsBehind(prog: Program, job: Job, s0: Machine, n: nat)
    requires AddProgram(prog, job) && Sensible(job) && Begins(s0) && Nth(prog, s0, n).opcode == HALT
    ensures n > 1 && Nth(prog, s0, n - 1).rd < 2 && Nth(prog, s0, n - 2).rd < 2
  {
    hide Begins, Nth, Prologue, Loads, Sums;
    CodeAt(prog, job, s0, n);
    HaltPlace(prog, job, n);
    CodeAt(prog, job, s0, n - 1);
    CodeAt(prog, job, s0, n - 2);
  }

  lemma HaltPlace(prog: Program, job: Job, n: nat)
    requires AddProgram(prog, job) && Sensible(job) && prog[PlaceOf(job, n).1].opcode == HALT
    ensures n > 1 && 33 <= PlaceOf(job, n - 1).1 <= 35 && 33 <= PlaceOf(job, n - 2).1 <= 35
  {
  }
}
