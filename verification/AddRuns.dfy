/** The programs that add two vectors meet the conditions under which the simulator runs them as the sequential machine
    does: they halt, use addresses within bounds, and whenever a miss could let an instruction slip there is none. */
module AddRuns {
  import opened Types
  import opened Isa
  import opened PipelineEffects
  import opened PipelineRefinement
  import opened PipelineRuns
  import opened PipelineTiming
  import opened PipelineSpacing
  import opened ProgramFlow
  import opened AddPrograms
  import opened AddResults

  /** At its start, with register 0 cleared. */
  predicate Begins(s0: Machine) { s0.pc == 0 && s0.npc == 1 && s0.regs[0] == 0 }

  // ----- it halts -----

  lemma {:induction false} Behind(prog: Program, job: Job, s0: Machine, n: nat)
    requires AddProgram(prog, job) && Sensible(job) && Begins(s0) && n >= Total(job)
    ensures Steps(prog, s0, n) == Steps(prog, s0, Total(job)) && At(prog, s0, n) == 35
    decreases n
  {
    if n == Total(job) {
      AlwaysStands(prog, job, s0, n);
    } else {
      Behind(prog, job, s0, n - 1);
    }
  }

  lemma WhereIs(prog: Program, job: Job, s0: Machine, n: nat)
    requires AddProgram(prog, job) && Sensible(job) && Begins(s0)
    ensures At(prog, s0, n) == PlaceOf(job, n).1
  {
    hide AddProgram, Added;
    if n < Total(job) {
      AlwaysStands(prog, job, s0, n);
    } else {
      Behind(prog, job, s0, n);
    }
  }

  lemma {:induction false} AddRunsOn(prog: Program, job: Job, s0: Machine, n: nat)
    requires AddProgram(prog, job) && Sensible(job) && Begins(s0) && n <= Total(job)
    ensures RunsOn(prog, s0, n)
  {
    hide AddProgram, PlaceOf;
    if n > 0 {
      AddRunsOn(prog, job, s0, n - 1);
      WhereIs(prog, job, s0, n - 1);
      PlaceNext(job, n - 1);
      AddFollows(prog, job);
      AlwaysMoves(prog, ADD_FLOW, s0, n - 1);
    }
  }

  lemma AddHalts(prog: Program, job: Job, s0: Machine)
    requires AddProgram(prog, job) && Sensible(job) && Begins(s0)
    ensures HaltsAfter(prog, s0, Total(job))
    ensures Added(Steps(prog, s0, Total(job)).mem, s0.mem, job, 4 * job.rounds)
  {
    AddRunsOn(prog, job, s0, Total(job));
    AlwaysStands(prog, job, s0, Total(job));
    WhereIs(prog, job, s0, Total(job));
  }

  // ----- its accesses -----

  predicate Reads(job: Job, a: Word) {
    || job.base <= a < job.base + 4 * job.rounds || SecondVector(job) <= a < SecondVector(job) + 4 * job.rounds
    || a < 256
  }

  predicate Stores(job: Job, a: Word) { SumVector(job) <= a < SumVector(job) + 4 * job.rounds }

  lemma AddressOf(prog: Program, job: Job, s0: Machine, n: nat)
    requires AddProgram(prog, job) && Sensible(job) && Begins(s0) && IsMemory(Nth(prog, s0, n).opcode)
    ensures n < Total(job)
    ensures var (k, p) := PlaceOf(job, n); var a := Address(Steps(prog, s0, n).regs, Nth(prog, s0, n));
      && Nth(prog, s0, n) == prog[p] && (StoresAt(p) || LoadsAt(p))
      && if StoresAt(p) then k < job.rounds && a == SumVector(job) + 4 * k + StoredBy(p) else Reads(job, a)
  {
    hide AddProgram, Added, Step, SumAt;
    WhereIs(prog, job, s0, n);
    AddAccess(prog, job, s0, n);
    var (k, p) := PlaceOf(job, n);
    AlwaysStands(prog, job, s0, n);
    if p <= 13 {
      LoopLoads(prog, job, Steps(prog, s0, n), s0.mem, k, p);
    } else if p == 30 {
      SweepInstructions(prog, job, Steps(prog, s0, n), s0.mem, k, p);
    } else {
      LoopStores(prog, job, Steps(prog, s0, n), s0.mem, k, p);
    }
  }

  // ----- nothing slips -----

  /** Where the instruction ahead of a memory access stands. */
  predicate Ahead(a: nat) { 5 <= a <= 12 || a == 15 || a == 16 || a == 19 || a == 20 || a == 27 || a == 29 || a == 34 }

  function Following(a: nat): nat { if a == 27 then 6 else if a == 34 then 30 else a + 1 }

  lemma AroundAccess(prog: Program, job: Job, s0: Machine, j: nat)
    requires AddProgram(prog, job) && Begins(s0) && IsMemory(Nth(prog, s0, j + 1).opcode)
    ensures var a, b := At(prog, s0, j), At(prog, s0, j + 1);
      && Ahead(a) && b == Following(a) && At(prog, s0, j + 2) == b + 1 && At(prog, s0, j + 3) == b + 2
  {
    hide AddProgram, Follows, Steps, Nth;
    AddFollows(prog, job);
    Window(prog, ADD_FLOW, s0, j);
    AddAccess(prog, job, s0, j + 1);
  }

  /** In three places an instruction depends on one across an access. */
  lemma Crossings(prog: Program, job: Job, a: nat, c: nat)
    requires AddProgram(prog, job) && Ahead(a) && (c == Following(a) + 1 || c == Following(a) + 2)
    requires HeldUp(prog[c], prog[a], prog[a].opcode == SW)
    ensures a == 15 || a == 19 || a == 29
  {
  }

  lemma OneBefore(prog: Program, job: Job, s0: Machine, j: nat)
    requires AddProgram(prog, job) && Begins(s0) && 6 < At(prog, s0, j) < 30
    ensures j > 0 && At(prog, s0, j - 1) == At(prog, s0, j) - 1 && Nth(prog, s0, j - 1) == prog[At(prog, s0, j) - 1]
  {
    AddFollows(prog, job);
    hide AddProgram, Follows;
    Before(prog, ADD_FLOW, s0, j);
    AddAccess(prog, job, s0, j - 1);
  }

  /** The three instructions before the j-th one, where no branch leads to. */
  lemma ThreeBefore(prog: Program, job: Job, s0: Machine, j: nat)
    requires AddProgram(prog, job) && Begins(s0) && 9 < At(prog, s0, j) < 30
    ensures var a := At(prog, s0, j);
      && j > 2 && At(prog, s0, j - 2) == a - 2
      && Nth(prog, s0, j) == prog[a] && Nth(prog, s0, j - 1) == prog[a - 1]
      && Nth(prog, s0, j - 2) == prog[a - 2] && Nth(prog, s0, j - 3) == prog[a - 3]
  {
    hide AddProgram, Begins;
    OneBefore(prog, job, s0, j);
    OneBefore(prog, job, s0, j - 1);
    OneBefore(prog, job, s0, j - 2);
  }

  lemma CrossingGap(prog: Program, job: Job, a: nat)
    requires AddProgram(prog, job) && (a == 15 || a == 29)
    ensures HeldUp(prog[a + 1], prog[a - 1], prog[a - 2].opcode == SW)
    ensures !HeldUp(prog[a], prog[a - 1], false) && !HeldUp(prog[a], prog[a - 2], false)
    ensures !HeldUp(prog[a], prog[a - 3], false)
  {
  }

  /** In two of them the access waits for the instruction before last. */
  lemma CrossingSeparated(prog: Program, job: Job, s0: Machine, j: nat)
    requires AddProgram(prog, job) && Begins(s0) && At(prog, s0, j + 1) == At(prog, s0, j) + 1
    requires At(prog, s0, j) == 15 || At(prog, s0, j) == 29
    ensures Separated(prog, s0, j)
  {
    hide At, AddProgram, HeldUp, Nth;
    ThreeBefore(prog, job, s0, j);
    AddAccess(prog, job, s0, j + 1);
    CrossingGap(prog, job, At(prog, s0, j));
  }

  lemma SameFour(a: Addr, b: Addr)
    requires a / 4 == b / 4
    ensures SameBlock(a, b)
  {
    assert a / 256 == a / 4 / 64 && b / 256 == b / 4 / 64;
  }

  lemma SumsShareBlock(job: Job, k: nat)
    requires Sensible(job) && k < job.rounds
    ensures SameBlock((SumVector(job) + 4 * k + 1) % 0x10_0000, (SumVector(job) + 4 * k + 2) % 0x10_0000)
  {
    assert SumVector(job) == 4 * (job.half / 2 + 0x400);
    SameFour(SumVector(job) + 4 * k + 1, SumVector(job) + 4 * k + 2);
  }

  /** Three instructions on, in the same round. */
  lemma SameRound(job: Job, n: nat)
    requires Sensible(job) && n < Total(job) && 6 <= PlaceOf(job, n).1 <= 24
    ensures PlaceOf(job, n + 3) == (PlaceOf(job, n).0, PlaceOf(job, n).1 + 3)
  {
    hide PlaceOf;
    PlaceNext(job, n);
    if PlaceOf(job, n + 1).1 != 35 {
      AtTheEnd(job, n + 1);
      PlaceNext(job, n + 1);
      AtTheEnd(job, n + 2);
      PlaceNext(job, n + 2);
    }
  }

  lemma AtTheEnd(job: Job, n: nat)
    ensures n < Total(job) || PlaceOf(job, n).1 == 35
  {
  }

  /** In the third one the access stores to the block that the store before it has stored to. */
  lemma CrossingFound(prog: Program, job: Job, s0: Machine, j: nat)
    requires AddProgram(prog, job) && Sensible(job) && Begins(s0)
    requires At(prog, s0, j) == 19 && At(prog, s0, j + 1) == 20
    ensures Found(prog, s0, j + 1)
  {
    hide At, Nth, Begins, AccessAt, Sensible;
    ThreeBefore(prog, job, s0, j);
    StoresShareBlock(prog, job, s0, j - 2);
    var i := IndexOf(AccessAt(prog, s0, j + 1));
    assert Resident(prog, s0, j + 1, i) == Resident(prog, s0, j, i) == Resident(prog, s0, j - 1, i);
  }

  lemma StoreOf(prog: Program, job: Job, s0: Machine, n: nat)
    requires AddProgram(prog, job) && Sensible(job) && Begins(s0) && StoresAt(PlaceOf(job, n).1)
    ensures var (k, p) := PlaceOf(job, n);
      && n < Total(job) && k < job.rounds && Nth(prog, s0, n) == prog[p]
      && AccessAt(prog, s0, n) == (SumVector(job) + 4 * k + StoredBy(p)) % 0x10_0000
  {
    hide AddProgram, PlaceOf;
    WhereIs(prog, job, s0, n);
    AddAccess(prog, job, s0, n);
    AddressOf(prog, job, s0, n);
  }

  /** The second and the third store of a round. */
  lemma StoresShareBlock(prog: Program, job: Job, s0: Machine, n: nat)
    requires AddProgram(prog, job) && Sensible(job) && Begins(s0) && At(prog, s0, n) == 17
    ensures Nth(prog, s0, n) == prog[17] && Nth(prog, s0, n + 3) == prog[20]
    ensures SameBlock(AccessAt(prog, s0, n), AccessAt(prog, s0, n + 3))
  {
    hide PlaceOf, AddProgram, SameBlock, Sensible, Begins, At, Nth, AccessAt;
    WhereIs(prog, job, s0, n);
    StoreOf(prog, job, s0, n);
    SameRound(job, n);
    StoreOf(prog, job, s0, n + 3);
    SumsShareBlock(job, PlaceOf(job, n).0);
  }

  lemma AddIsSheltered(prog: Program, job: Job, s0: Machine)
    requires AddProgram(prog, job) && Sensible(job) && Begins(s0)
    ensures Sheltered(prog, s0)
  {
    forall j: nat, k: nat | j + 2 == k || j + 3 == k
      ensures Spaced(prog, s0, j, k) || Found(prog, s0, j + 1)
    {
      PairSheltered(prog, job, s0, j, k);
    }
    ShelteredRunIsSheltered(prog, s0);
  }

  lemma PairSheltered(prog: Program, job: Job, s0: Machine, j: nat, k: nat)
    requires AddProgram(prog, job) && Sensible(job) && Begins(s0) && (j + 2 == k || j + 3 == k)
    ensures Spaced(prog, s0, j, k) || Found(prog, s0, j + 1)
  {
    hide AddProgram, HeldUp, Separated, Found, Nth;
    var w := Nth(prog, s0, j);
    if IsMemory(Nth(prog, s0, j + 1).opcode) && HeldUp(Nth(prog, s0, k), w, w.opcode == SW) {
      AroundAccess(prog, job, s0, j);
      AddAccess(prog, job, s0, j);
      AddAccess(prog, job, s0, k);
      Crossings(prog, job, At(prog, s0, j), At(prog, s0, k));
      if At(prog, s0, j) == 19 {
        CrossingFound(prog, job, s0, j);
      } else {
        CrossingSeparated(prog, job, s0, j);
      }
    }
  }
}
