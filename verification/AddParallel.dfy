/** The repository's parallel addition of two vectors, on the whole simulator: whatever the memory holds at power-on,
    all four cores halt, and caches and main memory together hold the sums. */
module AddParallel {
  import opened Types
  import opened Isa
  import opened PipelineModel
  import opened PipelineRefinement
  import opened PipelineRuns
  import opened PipelineSpacing
  import opened PipelineTiming
  import opened PipelineStalls
  import opened ProgramFlow
  import opened AddPrograms
  import opened AddImages
  import opened AddResults
  import opened AddRuns
  import AddTiming
  import AddMisses
  import opened Simulator
  import opened SimulatorHalts
  import opened SimulatorLocality
  import opened SimulatorPrograms
  import opened SimulatorObject
  import S = SystemModel
  import FlatMemory
  import PrivateRuns

  ghost predicate Quarters(progs: Programs, regs: seq<Regs>)
    requires |regs| == 4
  {
    forall c: CoreId :: AddProgram(progs[c], JobOf(c)) && regs[c][0] == 0
  }

  lemma ImagesAdd(progs: Programs, regs: seq<Regs>)
    requires |regs| == 4 && Images(progs) && forall c: CoreId :: regs[c][0] == 0
    ensures Quarters(progs, regs)
  {
    hide LoadedFrom, AddProgram;
    forall c: CoreId
      ensures AddProgram(progs[c], JobOf(c))
    {
      ImageAdds(progs[c], c);
    }
  }

  ghost predicate Images(progs: Programs) { forall c: CoreId :: LoadedFrom(progs[c], Image(c)) }

  const TOTALS: seq<nat> := [5960, 5960, 5960, 5960]

  // ----- one core -----

  lemma AddIsFit(prog: Program, job: Job, s0: Machine)
    requires AddProgram(prog, job) && Sensible(job) && Begins(s0)
    ensures Fit(prog, s0, Total(job))
  {
    AddIsProper(prog, job, s0);
    AddIsSheltered(prog, job, s0);
    AddHalts(prog, job, s0);
    forall k: nat | k < Total(job) && IsMemory(Nth(prog, s0, k).opcode)
      ensures Address(Steps(prog, s0, k).regs, Nth(prog, s0, k)) < 0x10_0000
    {
      AddressOf(prog, job, s0, k);
    }
  }

  lemma {:induction false} AccessFound(i: CoreId, prog: Program, s0: Machine, n: nat, e: S.Event) returns (k: nat)
    requires e in Accesses(i, prog, s0, n)
    ensures k < n && IsMemory(Nth(prog, s0, k).opcode) && e == AccessEvent(i, Steps(prog, s0, k), Nth(prog, s0, k))
  {
    if n > 0 && e in Accesses(i, prog, s0, n - 1) {
      k := AccessFound(i, prog, s0, n - 1, e);
    } else {
      k := n - 1;
    }
  }

  /** An access of the program stays within its vectors, or reads below address 256. */
  predicate Inside(e: S.Event, i: CoreId, job: Job) {
    !e.BusTick? && e.core == i && if e.StoreBy? then Stores(job, e.addr) else Reads(job, e.addr)
  }

  lemma AccessWithin(i: CoreId, prog: Program, job: Job, s0: Machine, e: S.Event)
    requires AddProgram(prog, job) && Sensible(job) && Begins(s0) && e in Accesses(i, prog, s0, Total(job))
    ensures Inside(e, i, job)
  {
    hide AddProgram, PlaceOf, Accesses;
    var k := AccessFound(i, prog, s0, Total(job), e);
    WhereIs(prog, job, s0, k);
    AddAccess(prog, job, s0, k);
    AddressOf(prog, job, s0, k);
  }

  lemma StorePlace(job: Job, k: nat)
    requires k < job.rounds
    ensures PlaceOf(job, 22 * k + 16) == (k, 16)
  {
    assert (22 * k + 16 - 6) / 22 == k;
  }

  lemma RoundStore(prog: Program, job: Job, s0: Machine, k: nat)
    requires AddProgram(prog, job) && Sensible(job) && Begins(s0) && k < job.rounds
    ensures var n := 22 * k + 16;
      && n < Total(job) && IsMemory(Nth(prog, s0, n).opcode)
      && Address(Steps(prog, s0, n).regs, Nth(prog, s0, n)) == SumVector(job) + 4 * k < 0x10_0000
  {
    hide AddProgram, PlaceOf;
    StorePlace(job, k);
    WhereIs(prog, job, s0, 22 * k + 16);
    AddAccess(prog, job, s0, 22 * k + 16);
    AddressOf(prog, job, s0, 22 * k + 16);
  }

  /** Round k stores to its block of sums. */
  lemma RoundStores(i: CoreId, prog: Program, job: Job, s0: Machine, run: seq<S.Event>, k: nat)
    requires AddProgram(prog, job) && Sensible(job) && Begins(s0) && k < job.rounds
    requires forall e :: e in Accesses(i, prog, s0, Total(job)) ==> e in run
    ensures PrivateRuns.Uses(run, i, TagOf(SumVector(job) + 4 * k), IndexOf(SumVector(job) + 4 * k))
  {
    hide AddProgram, Accesses, Sensible, Begins, Steps, Nth, Address, Total, SumVector, PrivateRuns.Uses;
    var n := 22 * k + 16;
    RoundStore(prog, job, s0, k);
    AccessListed(i, prog, s0, Total(job), n);
    var e := AccessEvent(i, Steps(prog, s0, n), Nth(prog, s0, n));
    assert e.addr == SumVector(job) + 4 * k;
    EventUses(e, run);
  }

  lemma SumsUsed(i: CoreId, prog: Program, job: Job, s0: Machine, run: seq<S.Event>, y: nat)
    requires AddProgram(prog, job) && Sensible(job) && Begins(s0) && y < 4 * job.rounds
    requires forall e :: e in Accesses(i, prog, s0, Total(job)) ==> e in run
    ensures PrivateRuns.Uses(run, i, TagOf(SumVector(job) + y), IndexOf(SumVector(job) + y))
  {
    hide AddProgram, Accesses, Begins;
    RoundStores(i, prog, job, s0, run, y / 4);
    assert SumVector(job) == 4 * (job.half / 2 + 0x400);
    SameFour(SumVector(job) + 4 * (y / 4), SumVector(job) + y);
  }

  // ----- four cores -----

  lemma PlanIsFit(progs: Programs, regs: seq<Regs>, mem: DataMemory)
    requires |regs| == 4 && Quarters(progs, regs)
    ensures FitPlan(PlanOf(progs, regs, mem, TOTALS))
  {
    forall i: CoreId
      ensures Fit(progs[i], Reset(regs[i], mem), TOTALS[i])
    {
      hide AddProgram, Fit;
      AddIsFit(progs[i], JobOf(i), Reset(regs[i], mem));
    }
  }

  lemma ListWithin(progs: Programs, regs: seq<Regs>, mem: DataMemory, e: S.Event)
    requires |regs| == 4 && Quarters(progs, regs) && e in AccessList(PlanOf(progs, regs, mem, TOTALS))
    ensures !e.BusTick? ==> Inside(e, e.core, JobOf(e.core))
  {
    if !e.BusTick? {
      var i: CoreId :| e in Accesses(i, progs[i], Reset(regs[i], mem), TOTALS[i]);
      AccessWithin(i, progs[i], JobOf(i), Reset(regs[i], mem), e);
    }
  }

  /** The cores store to blocks of their own. */
  lemma PlanIsPrivate(progs: Programs, regs: seq<Regs>, mem: DataMemory)
    requires |regs| == 4 && Quarters(progs, regs)
    ensures PrivateRuns.BlockPrivate(AccessList(PlanOf(progs, regs, mem, TOTALS)))
  {
    var run := AccessList(PlanOf(progs, regs, mem, TOTALS));
    forall c: CoreId, d: CoreId, t: Tag, i: Index | PrivateRuns.Writes(run, c, t, i) && PrivateRuns.Uses(run, d, t, i)
      ensures c == d
    {
      var n :| 0 <= n < |run| && PrivateRuns.Touches(run[n], c, t, i) && run[n].StoreBy?;
      var k :| 0 <= k < |run| && PrivateRuns.Touches(run[k], d, t, i);
      ListWithin(progs, regs, mem, run[n]);
      ListWithin(progs, regs, mem, run[k]);
      OwnBlocks(run[n], run[k]);
    }
  }

  lemma OwnBlocks(e: S.Event, f: S.Event)
    requires !e.BusTick? && !f.BusTick? && Inside(e, e.core, JobOf(e.core)) && Inside(f, f.core, JobOf(f.core))
    requires e.StoreBy? && SameBlock(e.addr, f.addr)
    ensures e.core == f.core
  {
    QuarterBlocks(e.addr, e.core);
    if f.StoreBy? {
      QuarterBlocks(f.addr, f.core);
    }
  }

  /** The sums of core c are the blocks with these tags; the vectors have lower ones. */
  lemma QuarterBlocks(a: Addr, c: CoreId)
    requires Stores(JobOf(c), a)
    ensures 32 + 4 * c <= TagOf(a) < 36 + 4 * c
  {
  }

  // ----- the sums -----

  /** A system presents one flat memory at most. */
  lemma OneFlatMemory(s: S.System, f: Ram, g: Ram)
    requires FlatMemory.Coherent(s, f) && FlatMemory.Coherent(s, g)
    ensures f == g
  {
    forall a: Addr
      ensures f[a] == g[a]
    {
      FieldsJoin(a);
    }
  }

  /** Caches and main memory together hold the sums of the two vectors. */
  ghost predicate HoldsSums(s: S.System, ram: Ram) {
    exists flat: Ram ::
      && FlatMemory.Coherent(s, flat)
      && forall x: nat :: x < 0x1000 ==> flat[0x2000 + x] == Sum(ram[x], ram[0x1000 + x])
  }

  lemma SumStored(prog: Program, job: Job, s0: Machine, y: nat)
    requires AddProgram(prog, job) && Sensible(job) && Begins(s0) && y < 4 * job.rounds
    ensures Lookup(Steps(prog, s0, Total(job)).mem, SumVector(job) + y) == SumAt(job, s0.mem, y)
  {
    hide AddProgram, SumAt, Lookup;
    AddHalts(prog, job, s0);
  }

  lemma ListedIn(progs: Programs, regs: seq<Regs>, mem: DataMemory, i: CoreId)
    requires |regs| == 4
    ensures forall e :: e in Accesses(i, progs[i], Reset(regs[i], mem), 5960) ==>
      e in AccessList(PlanOf(progs, regs, mem, TOTALS))
  {
  }

  /** The quarter of core i. */
  lemma QuarterSums(progs: Programs, regs: seq<Regs>, mem: DataMemory, ram: Ram, c: CoreState, flat: Ram, i: CoreId,
                    y: nat)
    requires |regs| == 4 && Quarters(progs, regs) && SameMemory(mem, ram) && y < 0x400
    requires Computed(c, Steps(progs[i], Reset(regs[i], mem), 5960), flat,
                      AccessList(PlanOf(progs, regs, mem, TOTALS)), i)
    ensures var x := 0x400 * i + y; flat[0x2000 + x] == Sum(ram[x], ram[0x1000 + x])
  {
    hide AddProgram, AccessList, Accesses, Steps, Lookup;
    var run, s0, job := AccessList(PlanOf(progs, regs, mem, TOTALS)), Reset(regs[i], mem), JobOf(i);
    ListedIn(progs, regs, mem, i);
    SumStored(progs[i], job, s0, y);
    SumsUsed(i, progs[i], job, s0, run, y);
  }

  lemma QuarterDone(progs: Programs, regs: seq<Regs>, mem: DataMemory, ram: Ram, w: Whole, flat: Ram, i: CoreId,
                    y: nat)
    requires |regs| == 4 && Quarters(progs, regs) && SameMemory(mem, ram) && y < 0x400
    requires Done(w.cores[i], w.system, PlanOf(progs, regs, mem, TOTALS), i) && FlatMemory.Coherent(w.system, flat)
    ensures var x := 0x400 * i + y; flat[0x2000 + x] == Sum(ram[x], ram[0x1000 + x])
  {
    hide Quarters, SameMemory, AccessList, Computed, FlatMemory.Coherent;
    assert PlanOf(progs, regs, mem, TOTALS).starts[i] == Reset(regs[i], mem);
    var own: Ram :| FlatMemory.Coherent(w.system, own)
                    && Computed(w.cores[i], Steps(progs[i], Reset(regs[i], mem), 5960), own,
                                AccessList(PlanOf(progs, regs, mem, TOTALS)), i);
    OneFlatMemory(w.system, flat, own);
    QuarterSums(progs, regs, mem, ram, w.cores[i], own, i, y);
  }

  /** What core i prints: the instructions, the decode stalls, and the misses of its cache. */
  predicate Prints(w: Whole, i: CoreId) {
    && w.cores[i].instructions - 1 == 5961 && w.cores[i].pipe.decodeStalls == 1995
    && w.system.caches[i].stats.readMisses == 576 && w.system.caches[i].stats.writeMisses == 256
  }

  /** Every core has halted and prints these numbers, and the sums are in memory. */
  ghost predicate AllAdded(w: Whole, ram: Ram) {
    (forall i: CoreId :: w.cores[i].isHalted && Prints(w, i)) && HoldsSums(w.system, ram)
  }

  /** Once every core has done its quarter, all the sums are in memory. */
  lemma AllQuarters(progs: Programs, regs: seq<Regs>, mem: DataMemory, ram: Ram, w: Whole)
    requires |regs| == 4 && Quarters(progs, regs) && SameMemory(mem, ram)
    requires forall i: CoreId :: Done(w.cores[i], w.system, PlanOf(progs, regs, mem, TOTALS), i)
    ensures HoldsSums(w.system, ram)
  {
    hide Quarters, SameMemory, AccessList, Computed, FlatMemory.Coherent;
    assert Done(w.cores[0], w.system, PlanOf(progs, regs, mem, TOTALS), 0);
    var flat: Ram :| FlatMemory.Coherent(w.system, flat);
    forall x: nat | x < 0x1000
      ensures flat[0x2000 + x] == Sum(ram[x], ram[0x1000 + x])
    {
      QuarterDone(progs, regs, mem, ram, w, flat, x / 0x400, x % 0x400);
    }
  }

  lemma QuarterPace(progs: Programs, regs: seq<Regs>, mem: DataMemory, i: CoreId)
    requires |regs| == 4 && Quarters(progs, regs)
    ensures var s0 := Reset(regs[i], mem);
      EndsQuietly(progs[i], s0) && Timed(progs[i], s0, 7957).halted && HeldBefore(progs[i], s0, 7957) == 1995
  {
    hide AddProgram;
    AddTiming.AddPace(progs[i], JobOf(i), Reset(regs[i], mem));
    AddTiming.AddEndsQuietly(progs[i], JobOf(i), Reset(regs[i], mem));
  }

  lemma QuarterMisses(progs: Programs, regs: seq<Regs>, mem: DataMemory, i: CoreId)
    requires |regs| == 4 && Quarters(progs, regs)
    ensures var s0 := Reset(regs[i], mem);
      Misses(progs[i], s0, 5960, false) == 576 && Misses(progs[i], s0, 5960, true) == 256
  {
    hide AddProgram;
    AddMisses.AddMissesExact(progs[i], JobOf(i), Reset(regs[i], mem));
  }

  /** Whenever core i has halted, it has done its quarter, and prints these numbers. */
  lemma QuarterPrints(progs: Programs, regs: seq<Regs>, mem: DataMemory, ram: Ram, turns: seq<Turn>, i: CoreId)
    requires |regs| == 4 && Quarters(progs, regs) && SameMemory(mem, ram)
    requires Simulate(PowerOn(regs, ram), progs, turns).cores[i].isHalted
    ensures var w := Simulate(PowerOn(regs, ram), progs, turns);
      Prints(w, i) && Done(w.cores[i], w.system, PlanOf(progs, regs, mem, TOTALS), i)
  {
    hide Quarters, SameMemory, Simulate, PowerOn, FitPlan, AccessList, Computed, PrivateRuns.BlockPrivate;
    PlanIsFit(progs, regs, mem);
    PlanIsPrivate(progs, regs, mem);
    QuarterPace(progs, regs, mem, i);
    QuarterMisses(progs, regs, mem, i);
    MissesOfRun(progs, regs, mem, ram, TOTALS, turns, i);
    StallsOfRun(progs, regs, mem, ram, TOTALS, turns, i, 7957);
    AllDone(progs, regs, mem, ram, TOTALS, turns, i);
  }

  /** Whenever all have halted, in whatever order they have taken their turns. */
  lemma WheneverAdded(progs: Programs, regs: seq<Regs>, mem: DataMemory, ram: Ram, turns: seq<Turn>)
    requires |regs| == 4 && Quarters(progs, regs) && SameMemory(mem, ram)
    requires forall i: CoreId :: Simulate(PowerOn(regs, ram), progs, turns).cores[i].isHalted
    ensures AllAdded(Simulate(PowerOn(regs, ram), progs, turns), ram)
  {
    hide Quarters, SameMemory, Simulate, PowerOn, Prints, Done, HoldsSums;
    var w := Simulate(PowerOn(regs, ram), progs, turns);
    forall i: CoreId
      ensures Prints(w, i) && Done(w.cores[i], w.system, PlanOf(progs, regs, mem, TOTALS), i)
    {
      QuarterPrints(progs, regs, mem, ram, turns, i);
    }
    AllQuarters(progs, regs, mem, ram, w);
  }

  lemma AllInTime(progs: Programs, regs: seq<Regs>, mem: DataMemory, ram: Ram, m: nat)
    requires |regs| == 4 && Quarters(progs, regs) && SameMemory(mem, ram) && m >= 856 * (4 * 5960 + 7)
    ensures forall i: CoreId :: Simulate(PowerOn(regs, ram), progs, MainLoop(m, 0)).cores[i].isHalted
  {
    hide Quarters, SameMemory, Simulate, PowerOn, FitPlan, AccessList, Computed;
    PlanIsFit(progs, regs, mem);
    PlanIsPrivate(progs, regs, mem);
    forall i: CoreId
      ensures Simulate(PowerOn(regs, ram), progs, MainLoop(m, 0)).cores[i].isHalted
    {
      var flat := ProgramsAreCorrect(progs, regs, mem, ram, TOTALS, m, i);
    }
  }

  /** The parallel addition on the simulator: within the stated number of turns of the main loop every core has halted,
      and prints 5961 instructions, 1995 decode stalls, 576 read misses and 256 write misses, and the sums of the two
      vectors are in memory. */
  lemma ParallelSums(progs: Programs, regs: seq<Regs>, mem: DataMemory, ram: Ram, m: nat)
    requires |regs| == 4 && Images(progs) && (forall c: CoreId :: regs[c][0] == 0)
    requires SameMemory(mem, ram) && m >= 856 * (4 * 5960 + 7)
    ensures AllAdded(Simulate(PowerOn(regs, ram), progs, MainLoop(m, 0)), ram)
  {
    hide Quarters, SameMemory, Simulate, PowerOn, AllAdded, Images;
    ImagesAdd(progs, regs);
    AllInTime(progs, regs, mem, ram, m);
    WheneverAdded(progs, regs, mem, ram, MainLoop(m, 0));
  }

  // ----- on the objects -----

  /** The registers at power-on. */
  const CLEARED: seq<Regs> := seq(4, c => seq(16, r => 0))

  function MapOf(ram: Ram): (mem: DataMemory)
    ensures SameMemory(mem, ram)
  {
    map a: Addr | 0 <= a < 0x10_0000 :: ram[a]
  }

  lemma ClearedAdd(progs: Programs)
    requires Images(progs)
    ensures |CLEARED| == 4 && |TOTALS| == 4 && Quarters(progs, CLEARED)
  {
    hide LoadedFrom, AddProgram;
    ImagesAdd(progs, CLEARED);
  }

  /** The four images, and nothing else, in the instruction memories. */
  function Shipped(): (progs: Programs)
    ensures Images(progs)
  {
    seq(4, c requires 0 <= c < 4 => WithImage(Image(c)))
  }

  /** So the simulator adds, whatever vectors it finds in memory. */
  lemma ShippedAddition(ram: Ram, m: nat)
    requires m >= 856 * (4 * 5960 + 7)
    ensures AllAdded(Simulate(PowerOn(CLEARED, ram), Shipped(), MainLoop(m, 0)), ram)
  {
    hide Shipped, Images, SameMemory, Simulate, PowerOn, AllAdded;
    ParallelSums(Shipped(), CLEARED, MapOf(ram), ram, m);
  }

  /** The main loop of the objects ends, with the same results. */
  method RunAddition(programs: Programs, contents: array<Word>) returns (board: Board, ghost w: Whole)
    requires contents.Length == 0x10_0000 && Images(programs)
    modifies contents
    ensures board.Valid() && board.Shows(w) && AllAdded(w, old(contents[..]))
  {
    hide *;
    ClearedAdd(programs);
    ghost var ram := contents[..];
    ghost var mem := MapOf(ram);
    PlanIsFit(programs, CLEARED, mem);
    PlanIsPrivate(programs, CLEARED, mem);
    ghost var turns;
    board, w, turns := RunSimulator(CLEARED, programs, contents, mem, TOTALS);
    AllHalted(programs, mem, w);
    WheneverAdded(programs, CLEARED, mem, ram, MainLoop(turns, 0));
  }

  lemma AllHalted(progs: Programs, mem: DataMemory, w: Whole)
    requires forall i: CoreId :: Done(w.cores[i], w.system, PlanOf(progs, CLEARED, mem, TOTALS), i)
    ensures forall i: CoreId :: w.cores[i].isHalted
  {
    hide Computed, FlatMemory.Coherent;
    forall i: CoreId
      ensures w.cores[i].isHalted
    {
      assert Done(w.cores[i], w.system, PlanOf(progs, CLEARED, mem, TOTALS), i);
    }
  }
}
