/** Why a write-back must still find its victim modified: a run in which a load returns the word that it has
    captured. */
module EvictionLimits {
  import opened Types
  import opened CacheModel
  import opened SystemModel
  import opened Structure
  import opened Snooping
  import opened Exclusion
  import opened FlatMemory
  import opened Progress
  import opened EvictionExact
  import opened MemoryLimits
  import Waiting

  /** The write-back of block 0, with the captured word z. */
  function Victim(z: Word): Transaction { Transaction(Core(0), Core(0), Flush, 0, z, false) }

  const REFETCH: Transaction := Request(0, BusRd, 257)

  lemma EvictionIsVictim(c: CacheState)
    requires c.tsram[0] == Line(0, Modified)
    ensures Dirty(c, 257) && !Hit(c, 257) && Eviction(c, 0, 257) == Victim(c.dram[1])
  {
    assert IndexOf(257) == 0 && TagOf(257) == 1 && OffsetOf(257) == 1;
  }

  lemma MissQueues(b: Bus, cs: CacheState, z: Word)
    requires Dirty(cs, 257) && Eviction(cs, 0, 257) == Victim(z)
    requires b.queue == [Request(1, BusRd, 0)] && b.phase == [Idle, Waiting, Idle, Idle]
    ensures QueueMiss(b, cs, 0, BusRd, 257) ==
      b.(queue := [Request(1, BusRd, 0)] + [Victim(z), REFETCH], phase := [Waiting, Waiting, Idle, Idle])
  {
    assert [Request(1, BusRd, 0)] + [Victim(z)] + [REFETCH] == [Request(1, BusRd, 0)] + [Victim(z), REFETCH];
  }

  lemma EvictionMiss(s: System)
    requires s.bus.queue == [Request(1, BusRd, 0)] && s.bus.phase == [Idle, Waiting, Idle, Idle]
    requires s.caches[0].tsram[0] == Line(0, Modified)
    ensures var s' := Load(s, 0, 257).0; var z := s.caches[0].dram[1];
      && s'.bus == s.bus.(queue := [Request(1, BusRd, 0)] + [Victim(z), REFETCH],
                           phase := [Waiting, Waiting, Idle, Idle])
      && s'.mem == s.mem && s'.caches == s.caches[0 := s.caches[0].(stats := s'.caches[0].stats)]
  {
    EvictionIsVictim(s.caches[0]);
    MissQueues(s.bus, s.caches[0], s.caches[0].dram[1]);
  }

  /** Core 1 has asked for block 0; now its owner needs room, and queues the write-back behind that request. */
  lemma OwnerEvicts(s: System, flat: Ram) returns (s': System)
    requires Structured(s) && SingleWriter(s.caches, s.bus) && s.bus.queue == [Request(1, BusRd, 0)]
    requires s.bus.phase == [Idle, Waiting, Idle, Idle] && s.caches[0].tsram[0] == Line(0, Modified)
    ensures Reaches(s, flat, [LoadBy(0, 257)], s', flat) && Structured(s') && SingleWriter(s'.caches, s'.bus)
    ensures var z := s.caches[0].dram[1];
      s'.bus == s.bus.(queue := [Request(1, BusRd, 0)] + [Victim(z), REFETCH], phase := [Waiting, Waiting, Idle, Idle])
    ensures s'.mem == s.mem && s'.caches == s.caches[0 := s.caches[0].(stats := s'.caches[0].stats)]
  {
    var e := LoadBy(0, 257);
    s' := Step(s, e);
    EvictionMiss(s);
    StepStructured(s, e);
    LoadExclusive(s, 0, 257);
    ReachesOne(s, flat, e);
  }

  // ----- core 2 asks for the block behind the write-back -----

  /** The transactions that are pending: the write-back, its refill, and the read of core 2. */
  predicate Expected(t: Transaction, z: Word) {
    var u := t.(originalCaller := Core(0));
    u == Victim(z) || u == REFETCH || u == Request(2, BusRd, 0)
  }

  lemma ExpectedFields(t: Transaction, z: Word)
    requires Expected(t, z)
    ensures IndexOf(t.addr) == 0 && t.cmd != BusRdX && t.origid.Core?
    ensures t.cmd == Flush ==> TagOf(t.addr) == 0 && t.data == z && t.origid == Core(0)
    ensures t.origid == Core(2) ==> t.cmd == BusRd && TagOf(t.addr) == 0
  {
  }

  lemma ExpectedAddress(t: Transaction, z: Word, w: Offset)
    requires Expected(t, z)
    ensures t.cmd == Flush || t.origid == Core(2) ==> Join(TagOf(t.addr), IndexOf(t.addr), w) == w
  {
    ExpectedFields(t, z);
  }

  /** The write-back has not stored its first word yet, and is the next to do something. */
  predicate Unwritten(b: Bus) {
    if b.active then b.ongoing.cmd == Flush && b.offset == 0 else b.queue != [] && b.queue[0].cmd == Flush
  }

  predicate AllClean(s: System) { forall c: CoreId :: s.caches[c].tsram[0].mesi != Modified }

  /** Core 2 gets nothing but z. */
  predicate Deceived(s: System, z: Word) {
    Matches(s.caches[2].tsram[0], 0) || (s.bus.active && FetchBy(s.bus.ongoing, 2) && s.bus.offset > 0) ==>
      s.caches[2].dram[0] == z
  }

  /** Nobody has block 0 modified, and its first word is going to be z in the main memory. */
  predicate Tainted(s: System, z: Word) {
    && AllClean(s) && Deceived(s, z)
    && (forall k :: 0 <= k < |s.bus.queue| ==> Expected(s.bus.queue[k], z)) &&
        (s.bus.active ==> Expected(s.bus.ongoing, z))
    && (s.mem.ram[0] == z || Unwritten(s.bus))
  }

  /** Core 2 waits for block 0. */
  ghost predicate Doomed(s: System, z: Word) {
    Structured(s) && Served(s, 2, 0, false) && Tainted(s, z)
  }

  lemma TaintedBegins(s: System, z: Word)
    requires Tainted(s, z)
    ensures Tainted(Begin(s), z)
  {
    var b := s.bus;
    if !b.active && b.queue != [] {
      assert Expected(b.queue[0], z);
      assert forall k :: 0 <= k < |b.queue[1..]| ==> b.queue[1..][k] == b.queue[k + 1];
    }
  }

  lemma DoomedBegins(s: System, z: Word)
    requires Doomed(s, z)
    ensures Doomed(Begin(s), z)
  {
    BeginStructured(s);
    BeginServed(s, 2, 0, false);
    TaintedBegins(s, z);
  }

  lemma NobodyOwns(s: System, z: Word)
    requires Tainted(s, z) && s.bus.active
    ensures Unowned(s) && !EvictionFresh(s) == (s.bus.ongoing.cmd == Flush) && !Skips(s)
  {
    ExpectedFields(s.bus.ongoing, z);
  }

  /** What an iteration of the write-back leaves alone, and what it does to the first word of block 0. */
  ghost predicate OneWord(s: System, s': System, z: Word) {
    && s'.caches == s.caches && s'.bus.queue == s.bus.queue && s'.bus.ongoing == s.bus.ongoing
    && (s'.mem.ram[0] == z ||
        (s'.mem.ram[0] == s.mem.ram[0] && (s.bus.offset == 0 ==> s'.bus == s.bus.(firstShared := s'.bus.firstShared))))
  }

  lemma FlushWord(s: System, s': System, z: Word)
    requires Expected(s.bus.ongoing, z) && s.bus.ongoing.cmd == Flush
    requires WordStored(s, s', z) && s'.caches == s.caches
    ensures OneWord(s, s', z)
  {
    ExpectedAddress(s.bus.ongoing, z, s.bus.offset);
  }

  lemma TaintedWriteBack(s: System, s': System, z: Word)
    requires Tainted(s, z) && s.bus.active && s.bus.ongoing.cmd == Flush && OneWord(s, s', z)
    ensures Tainted(s', z)
  {
  }

  lemma DoomedWriteBack(s: System, z: Word)
    requires Doomed(s, z) && s.bus.active && s.bus.ongoing.cmd == Flush
    ensures Doomed(Serve(s), z)
  {
    var s' := Serve(s);
    ExpectedFields(s.bus.ongoing, z);
    NobodyOwns(s, z);
    ServeWriteBack(s);
    if WordStored(s, s', z) {
      FlushWord(s, s', z);
    }
    ServeStructured(s);
    TaintedWriteBack(s, s', z);
    SameQueueServed(s, s', 2, 0, false);
  }

  /** A fetch of a block that nobody has modified brings the word of the main memory. */
  lemma FetchUnowned(s: System) returns (v: Word)
    requires s.bus.active && s.bus.ongoing.origid.Core? && s.bus.ongoing.originalCaller == s.bus.ongoing.origid
    requires IsFetch(s.bus.ongoing) && Unowned(s) && !Skips(s)
    ensures v == s.mem.ram[Join(TagOf(s.bus.ongoing.addr), IndexOf(s.bus.ongoing.addr), s.bus.offset)]
    ensures Awaited(s, Serve(s)) || Delivered(s, Serve(s), v)
  {
    var (cs, t) := SnoopAll(s.caches, OnBus(s), s.bus.offset, 0);
    SnoopUnowned(s);
    OnBusFields(s);
    v := WordMoved(s, t);
    FetchCompleted(s, cs, t, ModifiedSignal(s.caches, s.bus.ongoing));
  }

  lemma TaintedFetched(s: System, s': System, z: Word, v: Word)
    requires Tainted(s, z) && s.bus.active && IsFetch(s.bus.ongoing) && s.bus.ongoing.origid.Core?
    requires v == s.mem.ram[Join(TagOf(s.bus.ongoing.addr), IndexOf(s.bus.ongoing.addr), s.bus.offset)]
    requires Awaited(s, s') || Delivered(s, s', v)
    ensures Tainted(s', z)
  {
    ExpectedFields(s.bus.ongoing, z);
    ExpectedAddress(s.bus.ongoing, z, s.bus.offset);
    assert s'.mem.ram == s.mem.ram;
  }

  lemma ServedFetched(s: System, s': System, z: Word, v: Word)
    requires Expected(s.bus.ongoing, z) && s.bus.active && IsFetch(s.bus.ongoing) && s.bus.ongoing.origid.Core?
    requires Awaited(s, s') || Delivered(s, s', v)
    requires Served(s, 2, 0, false)
    ensures Served(s', 2, 0, false)
  {
    ExpectedFields(s.bus.ongoing, z);
    SameQueueServed(s, s', 2, 0, false);
  }

  lemma DoomedTick(s: System, z: Word)
    requires Doomed(s, z)
    ensures Doomed(Tick(s), z)
  {
    var b := Begin(s);
    DoomedBegins(s, z);
    if b.bus.active {
      assert WellFormed(Pending(b.bus)[0]);
      if b.bus.ongoing.cmd == Flush {
        DoomedWriteBack(b, z);
      } else {
        NobodyOwns(b, z);
        ServeStructured(b);
        var v := FetchUnowned(b);
        TaintedFetched(b, Serve(b), z, v);
        ServedFetched(b, Serve(b), z, v);
      }
    }
  }

  /** Left alone, core 2 gets the block. */
  lemma {:induction false} DoomedRuns(s: System, z: Word, flat: Ram) returns (es: seq<Event>, s': System)
    requires Doomed(s, z)
    ensures Reaches(s, flat, es, s', flat) && Load(s', 2, 0).1 == Some(z)
    decreases Waiting.Rank(s, 2)
  {
    if s.bus.phase[2] == Idle {
      es, s' := [], s;
      IdleIsReady(s, 2, 0, false);
    } else {
      Waiting.TickRank(s, 2);
      DoomedTick(s, z);
      es, s' := DoomedRuns(Tick(s), z, flat);
      ReachesOne(s, flat, BusTick);
      ReachesAppend(s, flat, [BusTick], Tick(s), flat, es, s', flat);
      es := [BusTick] + es;
    }
  }

  lemma ThirdMisses(s: System, x: Word, z: Word)
    requires Sent(s, x, [Victim(z), REFETCH], SystemModel.Waiting)
    ensures Tainted(Step(s, LoadBy(2, 0)), z) && !Succeeds(s, LoadBy(2, 0)) && s.bus.phase[2] == Idle
  {
    var s' := Step(s, LoadBy(2, 0));
    assert s'.bus.queue == [Victim(z), REFETCH, Request(2, BusRd, 0)];
    assert IndexOf(257) == 0;
  }

  lemma ThirdAsks(s: System, x: Word, z: Word, flat: Ram) returns (s': System)
    requires Sent(s, x, [Victim(z), REFETCH], SystemModel.Waiting)
    ensures Reaches(s, flat, [LoadBy(2, 0)], s', flat) && Doomed(s', z)
  {
    var e := LoadBy(2, 0);
    s' := Step(s, e);
    ThirdMisses(s, x, z);
    StepStructured(s, e);
    ReachesOne(s, flat, e);
    AttemptServed(s, e);
  }

  // ----- the run -----

  lemma SendingEnds(s: System, x: Word, z: Word, flat: Ram) returns (es: seq<Event>, s': System)
    requires Sending(s, 0, x, [Victim(z), REFETCH], Waiting)
    ensures Reaches(s, flat, es, s', flat) && Sent(s', x, [Victim(z), REFETCH], Waiting)
  {
    var rest := [Victim(z), REFETCH];
    var s1 := SendingTick(s, 0, x, rest, Waiting, flat);
    var s2 := SendingTick(s1, 1, x, rest, Waiting, flat);
    var s3 := SendingTick(s2, 2, x, rest, Waiting, flat);
    s' := SendingTick(s3, 3, x, rest, Waiting, flat);
    es := [BusTick];
    ReachesAppend(s2, flat, [BusTick], s3, flat, es, s', flat);
    es := [BusTick] + es;
    ReachesAppend(s1, flat, [BusTick], s2, flat, es, s', flat);
    es := [BusTick] + es;
    ReachesAppend(s, flat, [BusTick], s1, flat, es, s', flat);
    es := [BusTick] + es;
  }

  lemma EvictionMeetsLoad(s: System, x: Word, flat: Ram) returns (es: seq<Event>, s': System)
    requires OwnerOnly(s, x, flat)
    ensures Reaches(s, flat, es, s', flat) && Sending(s', 0, x, [Victim(flat[1]), REFETCH], Waiting)
  {
    var s1 := LoadAsks(s, x, flat);
    var s2 := OwnerEvicts(s1, flat);
    OwnedWord(s, x, flat);
    s' := SendingStarts(s2, x, [Victim(flat[1]), REFETCH], Waiting, flat);
    es := [BusTick];
    ReachesAppend(s1, flat, [LoadBy(0, 257)], s2, flat, es, s', flat);
    es := [LoadBy(0, 257)] + es;
    ReachesAppend(s, flat, [LoadBy(1, 0)], s1, flat, es, s', flat);
    es := [LoadBy(1, 0)] + es;
  }

  lemma OwnedWord(s: System, x: Word, flat: Ram)
    requires OwnerOnly(s, x, flat)
    ensures s.caches[0].dram[1] == flat[1]
  {
    CalmBus(s);
    CurrentWord(s.caches, s.bus, flat, 0, 0, 0, 1);
    assert Join(0, 0, 1) == 1 && Slot(0, 1) == 1;
  }

  lemma CurrentWord(cs: Caches, b: Bus, flat: Ram, c: CoreId, t: Tag, i: Index, w: Offset)
    requires Current(cs, b, flat) && Matches(cs[c].tsram[i], t) && !b.active
    ensures cs[c].dram[Slot(i, w)] == flat[Join(t, i, w)]
  {
    assert Holds(cs, b, c, t, i);
  }

  /** A load by one core, a miss by the owner of the block and a load by a third core, which returns the word captured
      by the write-back instead of the one that has been stored. */
  lemma StaleEviction(ram: Ram, x: Word) returns (es: seq<Event>)
    requires x != ram[1]
    ensures !LoadsAgree(Start(ram), es, ram)
  {
    var f := ram[0 := x];
    var first, s := OwnerReached(ram, x);
    var second, s1 := EvictionMeetsLoad(s, x, f);
    var third, s2 := SendingEnds(s1, x, f[1], f);
    var s3 := ThirdAsks(s2, x, f[1], f);
    var fourth, s4 := DoomedRuns(s3, f[1], f);
    var s5 := Step(s4, LoadBy(2, 0));
    ReachesOne(s4, f, LoadBy(2, 0));
    assert !LoadsAgree(s4, [LoadBy(2, 0)], f);
    es := fourth + [LoadBy(2, 0)];
    ReachesAppend(s3, f, fourth, s4, f, [LoadBy(2, 0)], s5, f);
    ReachesAppend(s2, f, [LoadBy(2, 0)], s3, f, es, s5, f);
    es := [LoadBy(2, 0)] + es;
    ReachesAppend(s1, f, third, s2, f, es, s5, f);
    es := third + es;
    ReachesAppend(s, f, second, s1, f, es, s5, f);
    es := second + es;
    ReachesAppend(Start(ram), ram, first, s, f, es, s5, f);
    es := first + es;
  }
}
