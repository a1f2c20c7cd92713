/** Why a store must not hit a word that the bus has already passed on: a run in which a load returns the old word. */
module MemoryLimits {
  import opened Types
  import opened CacheModel
  import opened SystemModel
  import opened Structure
  import opened Snooping
  import opened Exclusion
  import opened FlatMemory
  import opened PrivateRuns
  import opened Progress
  import Waiting

  // ----- a store that comes too late -----

  predicate Calm(s: System) { forall c: CoreId :: s.bus.phase[c] == Idle }

  lemma CalmBus(s: System)
    requires Structured(s) && Calm(s)
    ensures s.bus.queue == [] && !s.bus.active && !Recent(s.bus)
  {
    assert Pending(s.bus) == s.bus.queue;
  }

  /** What holds while one core waits. */
  ghost predicate Waits(s: System, c: CoreId, a: Addr, store: bool, run: seq<Event>, flat: Ram) {
    && Structured(s) && Coherent(s, flat) && Private(s, run) && Served(s, c, a, store)
    && forall d: CoreId :: d != c ==> s.bus.phase[d] == Idle
  }

  lemma WaitsTick(s: System, c: CoreId, a: Addr, store: bool, run: seq<Event>, flat: Ram)
    requires Waits(s, c, a, store, run, flat) && BlockPrivate(run) && BusTick in run && Allowed(run, c, a, store)
    ensures BusSafe(s) && Waits(Tick(s), c, a, store, run, flat)
  {
    StepPrivate(s, BusTick, run, flat);
    StepCoherent(s, BusTick, flat);
    StepStructured(s, BusTick);
    TickServed(s, c, a, store, run, flat);
    forall d: CoreId | d != c
      ensures Tick(s).bus.phase[d] == Idle
    {
      IdleStays(s, BusTick, d);
    }
  }

  /** The other cores keep the blocks that they own. */
  ghost predicate OwnersKept(s: System, s': System, c: CoreId) {
    forall d: CoreId, t: Tag, i: Index :: d != c && Owns(s.caches, s.bus, d, t, i) ==> Owns(s'.caches, s'.bus, d, t, i)
  }

  /** A fetch does not find a private block modified in another cache. */
  lemma FetchKeepsOwners(s: System, s': System, v: Word, c: CoreId, run: seq<Event>)
    requires Private(s, run) && BlockPrivate(run) && s.bus.active && IsFetch(s.bus.ongoing)
    requires s.bus.ongoing.origid == Core(c) && (Awaited(s, s') || Delivered(s, s', v))
    ensures OwnersKept(s, s', c)
  {
  }

  lemma ServeKeepsOwners(s: System, c: CoreId, run: seq<Event>)
    requires Structured(s) && SingleWriter(s.caches, s.bus) && EvictionFresh(s) && RefillUndisturbed(s)
    requires Private(s, run) && BlockPrivate(run) && s.bus.active && s.bus.ongoing.origid == Core(c)
    ensures OwnersKept(s, Serve(s), c)
  {
    if Skips(s) {
      assert Serve(s).caches == s.caches;
    } else if s.bus.ongoing.cmd == Flush {
      var (cs, t) := SnoopAll(s.caches, OnBus(s), s.bus.offset, 0);
      SnoopFlush(s);
      FlushCompleted(s, cs, t, ModifiedSignal(s.caches, s.bus.ongoing));
      FlushHolds(s, Serve(s));
    } else {
      assert WellFormed(Pending(s.bus)[0]);
      ServeFetch(s);
      FetchKeepsOwners(s, Serve(s), WordMoved(s, SnoopAll(s.caches, OnBus(s), s.bus.offset, 0).1), c, run);
    }
  }

  lemma TickKeepsOwners(s: System, c: CoreId, a: Addr, store: bool, run: seq<Event>, flat: Ram)
    requires Waits(s, c, a, store, run, flat) && BlockPrivate(run)
    ensures OwnersKept(s, Tick(s), c)
  {
    PrivateSafe(s, run);
    BeginStructured(s);
    BeginExclusive(s);
    BeginHolds(s);
    if Begin(s).bus.active {
      assert Begin(s).bus.ongoing.origid == Core(c);
      ServeKeepsOwners(Begin(s), c, run);
    }
  }

  /** es is a run of bus iterations that leads from s to s', and all of them are safe. */
  ghost predicate Leads(s: System, es: seq<Event>, s': System) {
    s' == Run(s, es) && SafeRun(s, es) && forall e :: e in es ==> e.BusTick?
  }

  lemma LeadsFirst(s: System, es: seq<Event>, s': System)
    requires BusSafe(s) && Leads(Tick(s), es, s')
    ensures Leads(s, [BusTick] + es, s')
  {
    assert ([BusTick] + es)[1..] == es;
  }

  lemma FirstTick(s: System, c: CoreId, a: Addr, store: bool, run: seq<Event>, flat: Ram) returns (s1: System)
    requires Waits(s, c, a, store, run, flat) && BlockPrivate(run) && BusTick in run && Allowed(run, c, a, store)
    requires s.bus.phase[c] != Idle
    ensures Waits(s1, c, a, store, run, flat) && Waiting.Rank(s1, c) < Waiting.Rank(s, c) && OwnersKept(s, s1, c)
    ensures forall es, s' :: Leads(s1, es, s') ==> Leads(s, [BusTick] + es, s')
  {
    s1 := Tick(s);
    WaitsTick(s, c, a, store, run, flat);
    TickKeepsOwners(s, c, a, store, run, flat);
    Waiting.StepRank(s, BusTick, c);
    forall es, s' | Leads(s1, es, s')
      ensures Leads(s, [BusTick] + es, s')
    {
      LeadsFirst(s, es, s');
    }
  }

  /** Left alone, a core that waits for a block gets it. */
  lemma {:induction false} WaitsAndGets(s: System, c: CoreId, a: Addr, store: bool, run: seq<Event>, flat: Ram)
    returns (es: seq<Event>, s': System)
    requires Waits(s, c, a, store, run, flat) && BlockPrivate(run) && BusTick in run && Allowed(run, c, a, store)
    ensures Leads(s, es, s') && |es| <= Waiting.Rank(s, c) && OwnersKept(s, s', c)
    ensures Waits(s', c, a, store, run, flat) && Calm(s') && Ready(s'.caches[c], a, store)
    decreases Waiting.Rank(s, c)
  {
    if s.bus.phase[c] == Idle {
      es, s' := [], s;
      IdleIsReady(s, c, a, store);
    } else {
      var s1 := FirstTick(s, c, a, store, run, flat);
      es, s' := WaitsAndGets(s1, c, a, store, run, flat);
      es := [BusTick] + es;
    }
  }

  // ----- paths from power-on -----

  /** The run es leads from s to s', and the flat memory from flat to flat'. */
  ghost predicate Reaches(s: System, flat: Ram, es: seq<Event>, s': System, flat': Ram) {
    s' == Run(s, es) && flat' == FlatRun(s, es, flat)
  }

  lemma {:induction false} ReachesAppend(s: System, flat: Ram, es: seq<Event>, s1: System, flat1: Ram, fs: seq<Event>,
                                         s2: System, flat2: Ram)
    requires Reaches(s, flat, es, s1, flat1) && Reaches(s1, flat1, fs, s2, flat2)
    ensures Reaches(s, flat, es + fs, s2, flat2) && (LoadsAgree(s, es + fs, flat) ==> LoadsAgree(s1, fs, flat1))
    decreases |es|
  {
    if es == [] {
      assert es + fs == fs;
    } else {
      assert (es + fs)[1..] == es[1..] + fs && (es + fs)[0] == es[0];
      ReachesAppend(Step(s, es[0]), FlatStep(s, flat, es[0]), es[1..], s1, flat1, fs, s2, flat2);
    }
  }

  lemma ReachesOne(s: System, flat: Ram, e: Event)
    ensures Reaches(s, flat, [e], Step(s, e), FlatStep(s, flat, e))
  {
    assert [e][1..] == [];
  }

  /** The same with iterations of the bus that are all safe. */
  ghost predicate Path(s: System, flat: Ram, es: seq<Event>, s': System, flat': Ram) {
    Reaches(s, flat, es, s', flat') && SafeRun(s, es)
  }

  lemma {:induction false} SafeAppend(s: System, es: seq<Event>, fs: seq<Event>)
    requires SafeRun(s, es) && SafeRun(Run(s, es), fs)
    ensures SafeRun(s, es + fs)
    decreases |es|
  {
    if es == [] {
      assert es + fs == fs;
    } else {
      assert (es + fs)[1..] == es[1..] + fs && (es + fs)[0] == es[0];
      SafeAppend(Step(s, es[0]), es[1..], fs);
    }
  }

  lemma PathAppend(s: System, flat: Ram, es: seq<Event>, s1: System, flat1: Ram, fs: seq<Event>, s2: System, flat2: Ram)
    requires Path(s, flat, es, s1, flat1) && Path(s1, flat1, fs, s2, flat2)
    ensures Path(s, flat, es + fs, s2, flat2) && (LoadsAgree(s, es + fs, flat) ==> LoadsAgree(s1, fs, flat1))
  {
    ReachesAppend(s, flat, es, s1, flat1, fs, s2, flat2);
    SafeAppend(s, es, fs);
  }

  lemma PathOne(s: System, flat: Ram, e: Event)
    requires e.BusTick? ==> BusSafe(s)
    ensures Path(s, flat, [e], Step(s, e), FlatStep(s, flat, e))
  {
    ReachesOne(s, flat, e);
    assert [e][1..] == [];
  }

  lemma {:induction false} LeadsPath(s: System, es: seq<Event>, s': System, flat: Ram)
    requires Leads(s, es, s')
    ensures Path(s, flat, es, s', flat)
    decreases |es|
  {
    if es != [] {
      assert es[0].BusTick? && forall e :: e in es[1..] ==> e in es;
      LeadsPath(Step(s, es[0]), es[1..], s', flat);
    }
  }

  // ----- a core that owns block 0 -----

  function Setup(v: Word): seq<Event> { [BusTick, StoreBy(0, 0, v)] }

  lemma SetupPrivate(v: Word)
    ensures BlockPrivate(Setup(v)) && Allowed(Setup(v), 0, 0, true)
    ensures forall c: CoreId, t: Tag, i: Index :: Uses(Setup(v), c, t, i) ==> c == 0
  {
    assert Touches(Setup(v)[1], 0, 0, 0);
  }

  /** Core 0 alone holds block 0, modified, with word v in front; everything is quiet. */
  ghost predicate OwnerOnly(s: System, v: Word, flat: Ram) {
    && Structured(s) && Coherent(s, flat) && Private(s, Setup(v)) && Calm(s) && flat[0] == v
    && s.caches[0].tsram[0] == Line(0, Modified) && s.caches[0].dram[0] == v
  }

  /** An attempt that fails in a quiet system leaves its core waiting for the block. */
  lemma QuietAsk(s: System, e: Event, run: seq<Event>, flat: Ram)
    requires Structured(s) && Coherent(s, flat) && Private(s, run) && Calm(s)
    requires BlockPrivate(run) && e in run && !e.BusTick? && !Succeeds(s, e)
    ensures Waits(Step(s, e), e.core, e.addr, e.StoreBy?, run, flat) && FlatStep(s, flat, e) == flat
  {
    StepPrivate(s, e, run, flat);
    StepStructured(s, e);
    StepCoherent(s, e, flat);
    AttemptServed(s, e);
    forall d: CoreId | d != e.core
      ensures Step(s, e).bus.phase[d] == Idle
    {
      IdleStays(s, e, d);
    }
  }

  /** One that succeeds leaves the system quiet. */
  lemma QuietSuccess(s: System, e: Event, run: seq<Event>, flat: Ram)
    requires Structured(s) && Coherent(s, flat) && Private(s, run) && Calm(s)
    requires BlockPrivate(run) && e in run && !e.BusTick? && Succeeds(s, e)
    ensures var s' := Step(s, e); Structured(s') && Coherent(s', FlatStep(s, flat, e)) && Private(s', run) && Calm(s')
  {
    StepPrivate(s, e, run, flat);
    StepStructured(s, e);
    StepCoherent(s, e, flat);
    forall d: CoreId
      ensures Step(s, e).bus.phase[d] == Idle
    {
      IdleStays(s, e, d);
    }
  }

  lemma StartQuiet(ram: Ram, run: seq<Event>)
    ensures var s := Start(ram); Structured(s) && Coherent(s, ram) && Private(s, run) && Calm(s)
  {
    StartStructured(ram);
    StartCoherent(ram);
    StartPrivate(ram, run);
  }

  /** The first store of core 0 misses. */
  lemma OwnerAsks(ram: Ram, v: Word) returns (s: System)
    ensures Path(Start(ram), ram, [StoreBy(0, 0, v)], s, ram) && Waits(s, 0, 0, true, Setup(v), ram)
  {
    var s0, e := Start(ram), StoreBy(0, 0, v);
    s := Step(s0, e);
    StartQuiet(ram, Setup(v));
    SetupPrivate(v);
    SucceedsWhenReady(s0, e);
    QuietAsk(s0, e, Setup(v), ram);
    PathOne(s0, ram, e);
  }

  lemma OwnerHits(s: System, v: Word)
    requires Store(s, 0, 0, v).1
    ensures var s' := Store(s, 0, 0, v).0; s'.caches[0].tsram[0] == Line(0, Modified) && s'.caches[0].dram[0] == v
  {
  }

  /** Its second one, when the block is there, hits. */
  lemma OwnerStores(s: System, v: Word, flat: Ram) returns (s': System)
    requires Waits(s, 0, 0, true, Setup(v), flat) && Calm(s) && Ready(s.caches[0], 0, true)
    ensures Path(s, flat, [StoreBy(0, 0, v)], s', flat[0 := v]) && OwnerOnly(s', v, flat[0 := v])
  {
    var e := StoreBy(0, 0, v);
    s' := Step(s, e);
    SetupPrivate(v);
    SucceedsWhenReady(s, e);
    OwnerHits(s, v);
    QuietSuccess(s, e, Setup(v), flat);
    PathOne(s, flat, e);
  }

  lemma OwnerReached(ram: Ram, v: Word) returns (es: seq<Event>, s: System)
    ensures Path(Start(ram), ram, es, s, ram[0 := v]) && OwnerOnly(s, v, ram[0 := v])
  {
    var e := StoreBy(0, 0, v);
    var s1 := OwnerAsks(ram, v);
    SetupPrivate(v);
    var ticks, s2 := WaitsAndGets(s1, 0, 0, true, Setup(v), ram);
    LeadsPath(s1, ticks, s2, ram);
    s := OwnerStores(s2, v, ram);
    PathAppend(s1, ram, ticks, s2, ram, [e], s, ram[0 := v]);
    PathAppend(Start(ram), ram, [e], s1, ram, ticks + [e], s, ram[0 := v]);
    es := [e] + (ticks + [e]);
  }

  // ----- core 1 reads the block, and the owner stores once more in the meantime -----

  /** Word k of block 0 is about to go from core 0 to core 1, which has got x as its first word. */
  ghost predicate Sending(s: System, k: nat, x: Word, rest: seq<Transaction>, p: Phase) {
    Structured(s) && SingleWriter(s.caches, s.bus) && InSending(s, k, x, rest, p)
  }

  predicate InSending(s: System, k: nat, x: Word, rest: seq<Transaction>, p: Phase) {
    && s.bus.active && s.bus.ongoing == Request(1, BusRd, 0).(originalCaller := Core(1)) && s.bus.queue == rest
    && s.bus.phase == [p, Operation, Idle, Idle] && !s.bus.firstShared && s.bus.offset == k
    && s.caches[0].tsram[0] == Line(0, Modified) && OnlyOwner(s)
    && (if k == 0 then s.caches[0].dram[0] == x && !s.mem.busy else s.caches[1].dram[0] == x)
  }

  /** At the index of block 0, core 1 has no modified line, and cores 2 and 3 have none at all. */
  predicate OnlyOwner(s: System) {
    && s.caches[1].tsram[0].mesi != Modified && s.caches[2].tsram[0].mesi == Invalid
    && s.caches[3].tsram[0].mesi == Invalid
  }

  /** The block has arrived, and is Shared at both ends. */
  ghost predicate Sent(s: System, x: Word, rest: seq<Transaction>, p: Phase) {
    && Structured(s) && !s.bus.active && s.bus.queue == rest && s.bus.ongoing.origid == Core(1)
    && s.bus.phase == [p, Finally, Idle, Idle] && OnlyOwner(s) && s.caches[0].tsram[0] == Line(0, Shared)
    && s.caches[1].tsram[0] == Line(0, Shared) && s.caches[1].dram[0] == x
  }

  lemma OthersEmpty(s: System, v: Word, flat: Ram)
    requires OwnerOnly(s, v, flat)
    ensures OnlyOwner(s) && !Hit(s.caches[1], 0) && s.bus.queue == [] && !s.bus.active && !s.mem.busy && !Recent(s.bus)
  {
    CalmBus(s);
    SetupPrivate(v);
    assert !Holds(s.caches, s.bus, 1, 0, 0) && !Owns(s.caches, s.bus, 1, s.caches[1].tsram[0].tag, 0);
    assert !Holds(s.caches, s.bus, 2, s.caches[2].tsram[0].tag, 0) &&
        !Holds(s.caches, s.bus, 3, s.caches[3].tsram[0].tag, 0);
  }

  lemma LoadMisses(s: System)
    requires Calm(s) && s.bus.queue == [] && !Hit(s.caches[1], 0) && OnlyOwner(s)
    ensures var s' := Load(s, 1, 0).0;
      && s'.bus == s.bus.(queue := [Request(1, BusRd, 0)], phase := [Idle, Waiting, Idle, Idle])
      && s'.mem == s.mem && s'.caches[0] == s.caches[0] && OnlyOwner(s')
  {
    assert s.bus.phase == [Idle, Idle, Idle, Idle];
    assert s.bus.queue + [Request(1, BusRd, 0)] == [Request(1, BusRd, 0)];
  }

  lemma LoadAsks(s: System, v: Word, flat: Ram) returns (s': System)
    requires OwnerOnly(s, v, flat)
    ensures Path(s, flat, [LoadBy(1, 0)], s', flat) && Structured(s') && SingleWriter(s'.caches, s'.bus)
    ensures s'.bus == s.bus.(queue := [Request(1, BusRd, 0)], phase := [Idle, Waiting, Idle, Idle])
    ensures !s'.bus.active && !s'.mem.busy && !Recent(s'.bus) && s'.caches[0] == s.caches[0] && OnlyOwner(s')
  {
    var e := LoadBy(1, 0);
    s' := Step(s, e);
    OthersEmpty(s, v, flat);
    LoadMisses(s);
    StepStructured(s, e);
    LoadExclusive(s, 1, 0);
    PathOne(s, flat, e);
  }

  lemma SendingTaken(s: System, rest: seq<Transaction>, p: Phase)
    requires !s.bus.active && !Recent(s.bus)
    requires s.bus.queue == [Request(1, BusRd, 0)] + rest && s.bus.phase == [p, Waiting, Idle, Idle]
    ensures Begin(s) == s.(bus := Bus(rest, [p, Operation, Idle, Idle],
        Request(1, BusRd, 0).(originalCaller := Core(1)), true, 0, true))
  {
    assert s.bus.queue[1..] == rest;
    assert Retired(s.bus) == s.bus.phase;
  }

  lemma SendingStarts(s: System, x: Word, rest: seq<Transaction>, p: Phase, flat: Ram) returns (s': System)
    requires Structured(s) && SingleWriter(s.caches, s.bus) && !s.bus.active && !s.mem.busy
    requires s.bus.queue == [Request(1, BusRd, 0)] + rest && s.bus.phase == [p, Waiting, Idle, Idle] && !Recent(s.bus)
    requires s.caches[0].tsram[0] == Line(0, Modified) && s.caches[0].dram[0] == x && OnlyOwner(s)
    ensures Path(s, flat, [BusTick], s', flat) && Sending(s', 0, x, rest, p)
  {
    var b := Begin(s);
    SendingTaken(s, rest, p);
    OwnerSignals(b.caches, b.bus.ongoing);
    s' := Step(s, BusTick);
    assert s' == b.(bus := b.bus.(firstShared := false));
    StepStructured(s, BusTick);
    StepExclusive(s, BusTick);
    PathOne(s, flat, BusTick);
  }

  lemma OwnerSignals(cs: Caches, t: Transaction)
    requires t.origid == Core(1) && IndexOf(t.addr) == 0 && cs[0].tsram[0] == Line(0, Modified)
    ensures ModifiedSignal(cs, t)
  {
    assert Core(0) != t.origid && cs[0].tsram[IndexOf(t.addr)].mesi == Modified;
  }

  lemma SendingBegins(s: System, k: nat, x: Word, rest: seq<Transaction>, p: Phase)
    requires InSending(s, k, x, rest, p)
    ensures Begin(s) == s && Tick(s) == Serve(s) && EvictionFresh(s) && RefillUndisturbed(s)
    ensures OtherOwner(s, 0) && ModifiedSignal(s.caches, s.bus.ongoing)
  {
    OwnerSignals(s.caches, s.bus.ongoing);
    assert Retired(s.bus) == s.bus.phase;
  }

  lemma SendingReady(s: System, k: nat, x: Word, rest: seq<Transaction>, p: Phase)
    requires Sending(s, k, x, rest, p)
    ensures MemoryReady(s.mem, true)
  {
  }

  /** The word that goes on the bus comes from core 0, the only owner. */
  lemma SendingServes(s: System, k: nat, x: Word, rest: seq<Transaction>, p: Phase) returns (v: Word)
    requires Sending(s, k, x, rest, p) && k < 4
    ensures BusSafe(s) && Delivered(s, Tick(s), v) && (k == 0 ==> v == x)
  {
    SendingBegins(s, k, x, rest, p);
    SendingReady(s, k, x, rest, p);
    ServeFetch(s);
    v := WordMoved(s, SnoopAll(s.caches, OnBus(s), s.bus.offset, 0).1);
    SendingWord(s, SnoopAll(s.caches, OnBus(s), s.bus.offset, 0).1);
  }

  lemma SendingWord(s: System, t: Transaction)
    requires s.bus.active && s.bus.ongoing == Request(1, BusRd, 0).(originalCaller := Core(1)) && Fetched(s, t)
    requires SingleWriter(s.caches, s.bus) && s.caches[0].tsram[0] == Line(0, Modified)
    ensures WordMoved(s, t) == s.caches[0].dram[s.bus.offset]
  {
    assert OtherOwner(s, 0);
    var o: CoreId :| OtherOwner(s, o) && t == SuppliedBy(s, o);
    assert Holds(s.caches, s.bus, 0, 0, 0) && Holds(s.caches, s.bus, o, 0, 0);
  }

  lemma SendingNext(s: System, s': System, k: nat, x: Word, rest: seq<Transaction>, p: Phase, v: Word)
    requires Sending(s, k, x, rest, p) && k < 4 && Delivered(s, s', v) && (k == 0 ==> v == x)
    requires Structured(s') && SingleWriter(s'.caches, s'.bus)
    ensures if k < 3 then Sending(s', k + 1, x, rest, p) else Sent(s', x, rest, p)
  {
  }

  lemma SendingTick(s: System, k: nat, x: Word, rest: seq<Transaction>, p: Phase, flat: Ram) returns (s': System)
    requires Sending(s, k, x, rest, p) && k < 4
    ensures Path(s, flat, [BusTick], s', flat) && if k < 3 then Sending(s', k + 1, x, rest, p) else Sent(s', x, rest, p)
  {
    s' := Step(s, BusTick);
    var v := SendingServes(s, k, x, rest, p);
    StepStructured(s, BusTick);
    StepExclusive(s, BusTick);
    PathOne(s, flat, BusTick);
    SendingNext(s, s', k, x, rest, p, v);
  }

  /** The owner is not blocked: its store hits while its first word has already gone. */
  lemma SendingStore(s: System, x: Word, y: Word, rest: seq<Transaction>, flat: Ram) returns (s': System)
    requires Sending(s, 1, x, rest, Idle)
    ensures Path(s, flat, [StoreBy(0, 0, y)], s', flat[0 := y]) && Sending(s', 1, x, rest, Idle) && !StoreInTime(s, 0)
  {
    var e := StoreBy(0, 0, y);
    s' := Step(s, e);
    assert Store(s, 0, 0, y).1;
    StepStructured(s, e);
    StoreExclusive(s, 0, 0, y);
    PathOne(s, flat, e);
  }

  lemma SentTick(s: System, x: Word, flat: Ram) returns (s': System)
    requires Sent(s, x, [], Idle)
    ensures Path(s, flat, [BusTick], s', flat) && Load(s', 1, 0).1 == Some(x)
  {
    s' := Step(s, BusTick);
    PathOne(s, flat, BusTick);
  }

  /** A safe run in which some load is wrong. */
  predicate Wrong(s: System, flat: Ram, es: seq<Event>) {
    SafeRun(s, es) && !LoadsAgree(s, es, flat)
  }

  lemma WrongBefore(s: System, flat: Ram, es: seq<Event>, s1: System, flat1: Ram, fs: seq<Event>)
    requires Path(s, flat, es, s1, flat1) && Wrong(s1, flat1, fs)
    ensures Wrong(s, flat, es + fs)
  {
    PathAppend(s, flat, es, s1, flat1, fs, Run(s1, fs), FlatRun(s1, fs, flat1));
  }

  lemma WrongLoad(s: System, flat: Ram, x: Word)
    requires Load(s, 1, 0).1 == Some(x) && flat[0] != x
    ensures Wrong(s, flat, [LoadBy(1, 0)])
  {
    PathOne(s, flat, LoadBy(1, 0));
  }

  lemma LateStoreEnd(s: System, x: Word, y: Word, flat: Ram) returns (es: seq<Event>)
    requires Sending(s, 1, x, [], Idle) && x != y && flat[0] == y
    ensures Wrong(s, flat, es)
  {
    var s5 := SendingTick(s, 1, x, [], Idle, flat);
    var s6 := SendingTick(s5, 2, x, [], Idle, flat);
    var s7 := SendingTick(s6, 3, x, [], Idle, flat);
    var s8 := SentTick(s7, x, flat);
    es := [LoadBy(1, 0)];
    WrongLoad(s8, flat, x);
    WrongBefore(s7, flat, [BusTick], s8, flat, es);
    es := [BusTick] + es;
    WrongBefore(s6, flat, [BusTick], s7, flat, es);
    es := [BusTick] + es;
    WrongBefore(s5, flat, [BusTick], s6, flat, es);
    es := [BusTick] + es;
    WrongBefore(s, flat, [BusTick], s5, flat, es);
    es := [BusTick] + es;
  }

  lemma LateStoreBegin(s: System, x: Word, flat: Ram) returns (es: seq<Event>, s': System)
    requires OwnerOnly(s, x, flat)
    ensures Path(s, flat, es, s', flat) && Sending(s', 1, x, [], Idle)
  {
    var s1 := LoadAsks(s, x, flat);
    var s2 := SendingStarts(s1, x, [], Idle, flat);
    s' := SendingTick(s2, 0, x, [], Idle, flat);
    PathAppend(s1, flat, [BusTick], s2, flat, [BusTick], s', flat);
    es := [BusTick] + [BusTick];
    PathAppend(s, flat, [LoadBy(1, 0)], s1, flat, es, s', flat);
    es := [LoadBy(1, 0)] + es;
  }

  /** One late store, in a run that is safe otherwise, and core 1 reads a word that has been overwritten before. */
  lemma LateStore(ram: Ram, x: Word, y: Word) returns (es: seq<Event>)
    requires x != y
    ensures SafeRun(Start(ram), es) && !LoadsAgree(Start(ram), es, ram)
  {
    var flat := ram[0 := x];
    var first, s := OwnerReached(ram, x);
    var second, s3 := LateStoreBegin(s, x, flat);
    var s4 := SendingStore(s3, x, y, [], flat);
    es := LateStoreEnd(s4, x, y, flat[0 := y]);
    WrongBefore(s3, flat, [StoreBy(0, 0, y)], s4, flat[0 := y], es);
    es := [StoreBy(0, 0, y)] + es;
    WrongBefore(s, flat, second, s3, flat, es);
    es := second + es;
    WrongBefore(Start(ram), ram, first, s, flat, es);
    es := first + es;
  }
}
