/** Why a refill over a modified line must not meet a lower-numbered owner: a run in which two caches end up with the
    same block, one of them modified, and a load returns a word of another block. */
module RefillLimits {
  import opened Types
  import opened CacheModel
  import opened SystemModel
  import opened Structure
  import opened Snooping
  import opened Exclusion
  import opened FlatMemory
  import opened PrivateRuns
  import opened Progress
  import opened EvictionExact
  import opened RefillExact
  import opened MemoryLimits
  import Waiting

  // ----- two owners of different blocks at the same index -----

  function Both(v: Word, u: Word): seq<Event> { [BusTick, StoreBy(0, 0, v), StoreBy(1, 256, u)] }

  lemma BothPrivate(v: Word, u: Word)
    ensures BlockPrivate(Both(v, u)) && Allowed(Both(v, u), 1, 256, true)
    ensures forall c: CoreId, t: Tag, i: Index :: Uses(Setup(v), c, t, i) ==> Uses(Both(v, u), c, t, i)
    ensures forall c: CoreId, t: Tag, i: Index :: Writes(Setup(v), c, t, i) ==> Writes(Both(v, u), c, t, i)
  {
    var run := Both(v, u);
    assert Touches(run[1], 0, 0, 0) && Touches(run[2], 1, 1, 0);
    assert forall n :: 0 <= n < 2 ==> Setup(v)[n] == run[n];
  }

  lemma PrivateMore(s: System, run: seq<Event>, run': seq<Event>)
    requires Private(s, run)
    requires forall c: CoreId, t: Tag, i: Index :: Uses(run, c, t, i) ==> Uses(run', c, t, i)
    requires forall c: CoreId, t: Tag, i: Index :: Writes(run, c, t, i) ==> Writes(run', c, t, i)
    ensures Private(s, run')
  {
  }

  ghost predicate TwoOwners(s: System, v: Word, flat: Ram) {
    && Structured(s) && Coherent(s, flat) && Calm(s) && flat[0] == v
    && s.caches[0].tsram[0] == Line(0, Modified) && s.caches[1].tsram[0] == Line(1, Modified)
  }

  lemma SecondAsks(s: System, v: Word, u: Word, flat: Ram) returns (s': System)
    requires OwnerOnly(s, v, flat)
    ensures Reaches(s, flat, [StoreBy(1, 256, u)], s', flat) && Waits(s', 1, 256, true, Both(v, u), flat)
    ensures Owns(s'.caches, s'.bus, 0, 0, 0)
  {
    var e := StoreBy(1, 256, u);
    s' := Step(s, e);
    SetupPrivate(v);
    BothPrivate(v, u);
    PrivateMore(s, Setup(v), Both(v, u));
    assert !Holds(s.caches, s.bus, 1, 1, 0) by {
      CalmBus(s);
    }
    SucceedsWhenReady(s, e);
    QuietAsk(s, e, Both(v, u), flat);
    ReachesOne(s, flat, e);
    SecondMisses(s, u);
  }

  lemma SecondMisses(s: System, u: Word)
    requires Owns(s.caches, s.bus, 0, 0, 0)
    ensures Owns(Step(s, StoreBy(1, 256, u)).caches, Step(s, StoreBy(1, 256, u)).bus, 0, 0, 0)
  {
  }

  lemma SecondHits(s: System, u: Word)
    requires Store(s, 1, 256, u).1 && s.caches[0].tsram[0] == Line(0, Modified)
    ensures var s' := Store(s, 1, 256, u).0;
      s'.caches[0].tsram[0] == Line(0, Modified) && s'.caches[1].tsram[0] == Line(1, Modified) && s'.bus == s.bus
  {
    assert TagOf(256) == 1 && IndexOf(256) == 0;
  }

  lemma SecondStores(s: System, v: Word, u: Word, flat: Ram) returns (s': System)
    requires Waits(s, 1, 256, true, Both(v, u), flat) && Calm(s) && Ready(s.caches[1], 256, true) && flat[0] == v
    requires Owns(s.caches, s.bus, 0, 0, 0)
    ensures Reaches(s, flat, [StoreBy(1, 256, u)], s', flat[256 := u]) && TwoOwners(s', v, flat[256 := u])
  {
    var e := StoreBy(1, 256, u);
    s' := Step(s, e);
    BothPrivate(v, u);
    SucceedsWhenReady(s, e);
    SecondHits(s, u);
    QuietSuccess(s, e, Both(v, u), flat);
    ReachesOne(s, flat, e);
  }

  lemma TwoOwnersReached(ram: Ram, v: Word, u: Word) returns (es: seq<Event>, s: System)
    ensures Reaches(Start(ram), ram, es, s, ram[0 := v][256 := u]) && TwoOwners(s, v, ram[0 := v][256 := u])
  {
    var flat, e := ram[0 := v], StoreBy(1, 256, u);
    var first, s0 := OwnerReached(ram, v);
    var s1 := SecondAsks(s0, v, u, flat);
    BothPrivate(v, u);
    var ticks, s2 := WaitsAndGets(s1, 1, 256, true, Both(v, u), flat);
    LeadsPath(s1, ticks, s2, flat);
    s := SecondStores(s2, v, u, flat);
    ReachesAppend(s1, flat, ticks, s2, flat, [e], s, flat[256 := u]);
    ReachesAppend(s0, flat, [e], s1, flat, ticks + [e], s, flat[256 := u]);
    es := [e] + (ticks + [e]);
    ReachesAppend(Start(ram), ram, first, s0, flat, es, s, flat[256 := u]);
    es := first + es;
  }

  // ----- the write-back of core 1 -----

  /** Block 0 is modified in cache 0, and block 1, at the same index, in cache 1. */
  predicate Lines(s: System) {
    s.caches[0].tsram[0] == Line(0, Modified) && s.caches[1].tsram[0] == Line(1, Modified)
  }

  const VICTIM: Transaction := Transaction(Core(0), Core(1), Flush, 256, 0, false)

  lemma RefillAsks(s: System, v: Word, flat: Ram) returns (s': System)
    requires TwoOwners(s, v, flat)
    ensures Reaches(s, flat, [LoadBy(1, 0)], s', flat) && Structured(s') && Coherent(s', flat) && Lines(s')
    ensures !s'.bus.active && !s'.mem.busy && s'.bus.phase == [Idle, Waiting, Idle, Idle]
    ensures |s'.bus.queue| == 2 && s'.bus.queue[0].(data := 0) == VICTIM && s'.bus.queue[1] == Request(1, BusRd, 0)
  {
    var e := LoadBy(1, 0);
    s' := Step(s, e);
    CalmBus(s);
    StepStructured(s, e);
    AttemptCoherent(s, e, flat);
    ReachesOne(s, flat, e);
  }

  /** Word k of the victim is about to be written back. */
  ghost predicate Evicting(s: System, k: nat, flat: Ram) {
    && Structured(s) && Coherent(s, flat) && Lines(s) && s.bus.active && !s.bus.firstShared && s.bus.offset == k
    && s.bus.ongoing.(data := 0) == VICTIM.(originalCaller := Core(1)) && s.bus.queue == [Request(1, BusRd, 0)]
    && s.bus.phase == [Idle, Operation, Idle, Idle] && (k == 0 ==> !s.mem.busy)
  }

  ghost predicate Evicted(s: System, flat: Ram) {
    && Structured(s) && Coherent(s, flat) && Lines(s) && !s.bus.active
    && s.bus.ongoing.origid == Core(1) && s.bus.queue == [Request(1, BusRd, 0)]
    && s.bus.phase == [Idle, Finally, Idle, Idle]
  }

  lemma EvictionStarts(s: System, flat: Ram) returns (s': System)
    requires Structured(s) && Coherent(s, flat) && Lines(s) && !s.bus.active && !s.mem.busy
    requires s.bus.phase == [Idle, Waiting, Idle, Idle]
    requires |s.bus.queue| == 2 && s.bus.queue[0].(data := 0) == VICTIM && s.bus.queue[1] == Request(1, BusRd, 0)
    ensures Reaches(s, flat, [BusTick], s', flat) && Evicting(s', 0, flat)
  {
    s' := Step(s, BusTick);
    var b := Begin(s);
    assert Core(0) != b.bus.ongoing.origid && b.caches[0].tsram[IndexOf(b.bus.ongoing.addr)].mesi == Modified;
    assert Skips(b);
    StepStructured(s, BusTick);
    TickCoherent(s, flat);
    ReachesOne(s, flat, BusTick);
  }

  lemma EvictionServes(s: System, k: nat, flat: Ram)
    requires Evicting(s, k, flat) && k < 4
    ensures Begin(s) == s && Tick(s) == Serve(s) && BusSafe(s)
    ensures Serve(s).bus == Advance(s.bus, if k == 3 then 3 else k + 1, k == 3)
    ensures forall c: CoreId :: Serve(s).caches[c].tsram == s.caches[c].tsram
  {
    assert ModifiedSignal(s.caches, s.bus.ongoing) by {
      assert Core(0) != s.bus.ongoing.origid && s.caches[0].tsram[IndexOf(s.bus.ongoing.addr)].mesi == Modified;
    }
    assert Retired(s.bus) == s.bus.phase;
    var (cs, t) := SnoopAll(s.caches, OnBus(s), s.bus.offset, 0);
    SnoopFlush(s);
    FlushCompleted(s, cs, t, true);
  }

  lemma EvictionTick(s: System, k: nat, flat: Ram) returns (s': System)
    requires Evicting(s, k, flat) && k < 4
    ensures Reaches(s, flat, [BusTick], s', flat) && if k < 3 then Evicting(s', k + 1, flat) else Evicted(s', flat)
  {
    s' := Step(s, BusTick);
    EvictionServes(s, k, flat);
    StepStructured(s, BusTick);
    TickCoherent(s, flat);
    ReachesOne(s, flat, BusTick);
  }

  lemma EvictionRuns(s: System, v: Word, flat: Ram) returns (es: seq<Event>, s': System)
    requires TwoOwners(s, v, flat)
    ensures Reaches(s, flat, es, s', flat) && Evicted(s', flat)
  {
    var s1 := RefillAsks(s, v, flat);
    var s2 := EvictionStarts(s1, flat);
    var s3 := EvictionTick(s2, 0, flat);
    var s4 := EvictionTick(s3, 1, flat);
    var s5 := EvictionTick(s4, 2, flat);
    s' := EvictionTick(s5, 3, flat);
    es := [BusTick];
    ReachesAppend(s4, flat, [BusTick], s5, flat, es, s', flat);
    es := [BusTick] + es;
    ReachesAppend(s3, flat, [BusTick], s4, flat, es, s', flat);
    es := [BusTick] + es;
    ReachesAppend(s2, flat, [BusTick], s3, flat, es, s', flat);
    es := [BusTick] + es;
    ReachesAppend(s1, flat, [BusTick], s2, flat, es, s', flat);
    es := [BusTick] + es;
    ReachesAppend(s, flat, [LoadBy(1, 0)], s1, flat, es, s', flat);
    es := [LoadBy(1, 0)] + es;
  }

  // ----- the refill of core 1 -----

  const REFILL: Transaction := Request(1, BusRd, 0).(originalCaller := Core(1))

  /** The refill has been taken from the queue, and nothing is behind it. */
  lemma RefillBegins(s: System, flat: Ram)
    requires Evicted(s, flat)
    ensures var b := Begin(s); Structured(b) && Meeting(b, REFILL, 0, flat, s.caches[1].dram) && Tick(b) == Tick(s)
    ensures Begin(s).bus.queue == [] && Begin(s).bus.phase == [Idle, Operation, Idle, Idle]
  {
    var b := Begin(s);
    assert s.bus.queue[1..] == [];
    assert Retired(s.bus) == [Idle, Idle, Idle, Idle];
    assert Retired(b.bus) == b.bus.phase;
    BeginStructured(s);
    BeginCoherent(s, flat);
  }

  /** An iteration touches no queue, and only the phase of its own core. */
  lemma TickBus(s: System)
    requires s.bus.active && s.bus.ongoing == REFILL && s.bus.phase == [Idle, Operation, Idle, Idle]
    ensures var b := Tick(s).bus;
      b.queue == s.bus.queue && b.phase == [Idle, if b.active then Operation else Finally, Idle, Idle]
  {
    assert Retired(s.bus) == s.bus.phase;
    assert Begin(s) == s;
    if !Skips(s) {
      var (cs, t) := SnoopAll(s.caches, OnBus(s), s.bus.offset, 0);
      CompleteFrame(s, cs, t, ModifiedSignal(s.caches, s.bus.ongoing));
    }
  }

  lemma {:induction false} MeetingRuns(s: System, flat: Ram, was: Dram) returns (es: seq<Event>, s': System)
    requires Structured(s) && Meeting(s, REFILL, 0, flat, was)
    requires s.bus.queue == [] && s.bus.phase == [Idle, Operation, Idle, Idle]
    ensures Reaches(s, flat, es, s', flat) && Met(s', REFILL, 0, flat, was) && es != [] && es[0].BusTick?
    ensures s'.bus.queue == [] && s'.bus.phase == [Idle, Finally, Idle, Idle]
    decreases Waiting.Rank(s, 1)
  {
    s' := Tick(s);
    es := [BusTick];
    TickMeets(s, REFILL, 0, flat, was);
    TickBus(s);
    StepStructured(s, BusTick);
    Waiting.TickRank(s, 1);
    ReachesOne(s, flat, BusTick);
    if s'.bus.active {
      es, s' := MeetingRuns(Tick(s), flat, was);
      ReachesAppend(s, flat, [BusTick], Tick(s), flat, es, s', flat);
      es := [BusTick] + es;
    }
  }

  lemma RefillRetires(s: System)
    requires !s.bus.active && s.bus.ongoing == REFILL && s.bus.queue == [] && s.bus.phase == [Idle, Finally, Idle, Idle]
    ensures var s' := Tick(s);
      !s'.bus.active && s'.bus.phase == [Idle, Idle, Idle, Idle] && s'.caches == s.caches
  {
  }

  lemma TwoHolders(cs: Caches, b: Bus)
    requires !b.active && cs[0].tsram[0] == Line(0, Shared) && cs[1].tsram[0] == Line(0, Modified)
    ensures !SingleWriter(cs, b)
  {
    assert Holds(cs, b, 1, 0, 0) && Holds(cs, b, 0, 0, 0);
  }

  lemma RefilledLoad(s: System, x: Word)
    requires s.bus.phase[1] == Idle && s.caches[1].tsram[0] == Line(0, Modified) && s.caches[1].dram[1] == x
    ensures Load(s, 1, 1).1 == Some(x)
  {
  }

  /** Two caches now hold block 0, and one of them modified. */
  lemma RefillRuns(s: System, flat: Ram) returns (es: seq<Event>, s': System)
    requires Evicted(s, flat)
    ensures Reaches(s, flat, es, s', flat) && Load(s', 1, 1).1 == Some(flat[257]) && !SingleWriter(s'.caches, s'.bus)
  {
    RefillBegins(s, flat);
    EvictedWord(s, flat);
    var s1;
    es, s1 := MeetingRuns(Begin(s), flat, s.caches[1].dram);
    SameFirst(s, Begin(s), es, flat);
    s' := Tick(s1);
    MetRetires(s1, flat, s.caches[1].dram);
    ReachesOne(s1, flat, BusTick);
    ReachesAppend(s, flat, es, s1, flat, [BusTick], s', flat);
    es := es + [BusTick];
  }

  lemma MetRetires(s: System, flat: Ram, was: Dram)
    requires Met(s, REFILL, 0, flat, was) && s.bus.queue == [] && s.bus.phase == [Idle, Finally, Idle, Idle]
    ensures var s' := Tick(s); Load(s', 1, 1).1 == Some(was[1]) && !SingleWriter(s'.caches, s'.bus)
  {
    RefillRetires(s);
    TwoHolders(s.caches, Tick(s).bus);
    assert s.caches[1].dram[Slot(0, 1)] == was[Slot(0, 1)];
    RefilledLoad(Tick(s), was[1]);
  }

  lemma SameFirst(s: System, b: System, es: seq<Event>, flat: Ram)
    requires es != [] && es[0].BusTick? && Tick(b) == Tick(s)
    ensures Run(b, es) == Run(s, es) && FlatRun(b, es, flat) == FlatRun(s, es, flat)
  {
  }

  /** In a coherent system the lines of core 1 are up to date. */
  lemma EvictedWord(s: System, flat: Ram)
    requires Evicted(s, flat)
    ensures s.caches[1].dram[1] == flat[257]
  {
    assert Holds(s.caches, s.bus, 1, 1, 0);
    assert s.caches[1].dram[Slot(0, 1)] == flat[Join(1, 0, 1)];
  }

  /** Two cores that each store once to a block of their own, and then one that loads from the other's: both caches end
      up with the block, one of them modified, and the next load returns the word of another block. */
  lemma DisturbedRefill(ram: Ram, v: Word, u: Word) returns (es: seq<Event>)
    requires ram[1] != ram[257]
    ensures !SingleWriter(Run(Start(ram), es).caches, Run(Start(ram), es).bus)
    ensures !LoadsAgree(Start(ram), es + [LoadBy(1, 1)], ram)
  {
    var flat := ram[0 := v][256 := u];
    var first, s := TwoOwnersReached(ram, v, u);
    var second, s1 := EvictionRuns(s, v, flat);
    var third, s2 := RefillRuns(s1, flat);
    ReachesAppend(s, flat, second, s1, flat, third, s2, flat);
    ReachesAppend(Start(ram), ram, first, s, flat, second + third, s2, flat);
    es := first + (second + third);
    ReachesOne(s2, flat, LoadBy(1, 1));
    ReachesAppend(Start(ram), ram, es, s2, flat, [LoadBy(1, 1)], Step(s2, LoadBy(1, 1)), flat);
    assert !LoadsAgree(s2, [LoadBy(1, 1)], flat);
  }
}
