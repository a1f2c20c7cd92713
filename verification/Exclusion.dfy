/** Single writer, multiple readers: kept by every event as long as write-backs are served in time and no refill over a
    modified line meets a lower-numbered owner. */
module Exclusion {
  import opened Types
  import opened CacheModel
  import opened SystemModel
  import opened Structure
  import opened Snooping

  /** The two situations in which the bus protocol itself goes wrong do not arise in this iteration. */
  predicate BusSafe(s: System) {
    EvictionFresh(Begin(s)) && RefillUndisturbed(Begin(s))
  }

  // ----- what an iteration does to a fetch -----

  /** The state after an iteration in which the memory was not ready yet. */
  ghost predicate Awaited(s: System, s': System)
    requires s.bus.ongoing.origid.Core?
  {
    s'.bus == s.bus && s'.mem.ram == s.mem.ram && LinesDowngraded(s, s'.caches)
  }

  /** The line of the requester after word k: the new tag at once, the new state with the last word. */
  function RefilledLine(s: System, r: CoreId): Line {
    var t, i := TagOf(s.bus.ongoing.addr), IndexOf(s.bus.ongoing.addr);
    Line(t, if s.bus.offset < 3 then s.caches[r].tsram[i].mesi
            else if SharedSignal(s.caches, s.bus.ongoing) then Shared else Exclusive)
  }

  /** The state after an iteration in which word v reached the memory and the requester. */
  ghost predicate Delivered(s: System, s': System, v: Word)
    requires s.bus.ongoing.origid.Core?
  {
    var r, t, i, k := s.bus.ongoing.origid.id, TagOf(s.bus.ongoing.addr), IndexOf(s.bus.ongoing.addr), s.bus.offset;
    && s'.bus == Advance(s.bus, if k == 3 then 3 else k + 1, k == 3)
    && s'.mem.ram == s.mem.ram[Join(t, i, k) := v]
    && s'.caches[r].dram == s.caches[r].dram[Slot(i, k) := v]
    && s'.caches[r].tsram[i] == RefilledLine(s, r)
    && (forall c: CoreId :: c != r ==> s'.caches[c].dram == s.caches[c].dram)
    && (forall c: CoreId, j: Index :: j != i ==> s'.caches[c].tsram[j] == s.caches[c].tsram[j])
    && (forall c: CoreId :: c != r ==>
          s'.caches[c].tsram[i] == DowngradedLine(s.caches[c].tsram[i], t, s.bus.ongoing.cmd, k))
  }

  /** A fetch comes out of the snooping as it went in, or with the word of the owner. */
  ghost predicate Fetched(s: System, t: Transaction)
    requires s.bus.ongoing.origid.Core?
  {
    || (t == OnBus(s) && forall o: CoreId :: !OtherOwner(s, o))
    || (exists o: CoreId :: OtherOwner(s, o) && t == SuppliedBy(s, o))
  }

  lemma SnoopFetch(s: System)
    requires s.bus.active && s.bus.ongoing.origid.Core? && s.bus.ongoing.originalCaller == s.bus.ongoing.origid
    requires IsFetch(s.bus.ongoing) && RequesterSilent(s) && SingleWriter(s.caches, s.bus)
    ensures var (cs, t) := SnoopAll(s.caches, OnBus(s), s.bus.offset, 0); LinesDowngraded(s, cs) && Fetched(s, t)
  {
    if o: CoreId :| OtherOwner(s, o) {
      SnoopOwned(s, o);
    } else {
      SnoopUnowned(s);
    }
  }

  /** The word that memory and requester agree on. */
  function WordMoved(s: System, t: Transaction): Word {
    if IsFetch(t) then s.mem.ram[t.addr] else t.data
  }

  lemma MemoryFetch(s: System, t: Transaction, direct: bool)
    requires s.bus.ongoing.origid.Core? && IsFetch(s.bus.ongoing) && Fetched(s, t)
    ensures var a := MemoryCycle(s.mem, t, direct); var x := OnBus(s).addr;
      && t.addr == x && a.mem.ram == (if a.ready then s.mem.ram[x := WordMoved(s, t)] else s.mem.ram)
      && (a.ready ==> a.t == t.(cmd := Flush, data := WordMoved(s, t), origid := a.t.origid)
                      && a.t.origid != s.bus.ongoing.origid && a.t.shared == OnBus(s).shared)
  {
    assert s.mem.ram[t.addr := s.mem.ram[t.addr]] == s.mem.ram;
  }

  /** Is the delay of the memory over in this cycle? */
  predicate MemoryReady(m: Memory, direct: bool) {
    if m.busy then m.counter >= 16 else direct
  }

  lemma FetchCompleted(s: System, cs: Caches, t: Transaction, direct: bool)
    requires s.bus.active && s.bus.ongoing.origid.Core? && IsFetch(s.bus.ongoing)
    requires LinesDowngraded(s, cs) && Fetched(s, t)
    ensures if MemoryReady(s.mem, direct) then Delivered(s, Complete(s, cs, t, direct), WordMoved(s, t))
            else Awaited(s, Complete(s, cs, t, direct))
  {
    MemoryFetch(s, t, direct);
    OnBusFields(s);
    assert cs[s.bus.ongoing.origid.id].dram == s.caches[s.bus.ongoing.origid.id].dram;
  }

  /** An iteration that serves a fetch either waits or delivers one word. */
  lemma ServeFetch(s: System)
    requires s.bus.active && s.bus.ongoing.origid.Core? && s.bus.ongoing.originalCaller == s.bus.ongoing.origid
    requires IsFetch(s.bus.ongoing) && RequesterSilent(s) && SingleWriter(s.caches, s.bus) && !Skips(s)
    ensures var t := SnoopAll(s.caches, OnBus(s), s.bus.offset, 0).1;
      Fetched(s, t) && if MemoryReady(s.mem, ModifiedSignal(s.caches, s.bus.ongoing))
                       then Delivered(s, Serve(s), WordMoved(s, t)) else Awaited(s, Serve(s))
  {
    var (cs, t) := SnoopAll(s.caches, OnBus(s), s.bus.offset, 0);
    SnoopFetch(s);
    FetchCompleted(s, cs, t, ModifiedSignal(s.caches, s.bus.ongoing));
  }

  /** The copy of a block that another core fetches is given up with the first word that is served, unless it is
      modified: then it stays until the last one. */
  lemma CopyGivesWay(s: System, c: CoreId)
    requires s.bus.active && s.bus.ongoing.origid.Core? && s.bus.ongoing.originalCaller == s.bus.ongoing.origid
    requires IsFetch(s.bus.ongoing) && RequesterSilent(s) && SingleWriter(s.caches, s.bus) && !Skips(s)
    requires Core(c) != s.bus.ongoing.origid
    requires Matches(s.caches[c].tsram[IndexOf(s.bus.ongoing.addr)], TagOf(s.bus.ongoing.addr))
    ensures var i := IndexOf(s.bus.ongoing.addr);
      Serve(s).caches[c].tsram[i].mesi ==
        if s.caches[c].tsram[i].mesi == Modified && s.bus.offset < 3 then Modified
        else if s.bus.ongoing.cmd == BusRdX then Invalid else Shared
  {
    ServeFetch(s);
  }

  /** A write-back carries nothing back to its requester. */
  lemma FlushCompleted(s: System, cs: Caches, t: Transaction, direct: bool)
    requires s.bus.active && s.bus.ongoing.origid.Core?
    requires t == OnBus(s).(data := t.data) && s.bus.ongoing.cmd == Flush
    ensures var a, s' := MemoryCycle(s.mem, t, direct), Complete(s, cs, t, direct);
      && s'.mem == a.mem && s'.caches == cs
      && s'.bus == if !a.ready then s.bus
          else Advance(s.bus, if s.bus.offset == 3 then 3 else s.bus.offset + 1, s.bus.offset == 3)
  {
    var r := s.bus.ongoing.origid.id;
    assert cs[r := cs[r]] == cs;
  }

  lemma BeginExclusive(s: System)
    requires Structured(s) && SingleWriter(s.caches, s.bus)
    ensures SingleWriter(Begin(s).caches, Begin(s).bus)
  {
    if s.bus.active {
      assert Begin(s).bus.ongoing == s.bus.ongoing && Begin(s).bus.offset == s.bus.offset;
    } else {
      assert forall c: CoreId, i: Index :: !Refilling(s.bus, c, i) && !Refilling(Begin(s).bus, c, i);
    }
    assert forall c: CoreId, t: Tag, i: Index ::
      Holds(Begin(s).caches, Begin(s).bus, c, t, i) ==> Holds(s.caches, s.bus, c, t, i);
  }

  lemma AwaitedExclusive(s: System, s': System)
    requires s.bus.active && s.bus.ongoing.origid.Core? && SingleWriter(s.caches, s.bus) && Awaited(s, s')
    ensures SingleWriter(s'.caches, s'.bus)
  {
    assert forall c: CoreId, t: Tag, i: Index :: Holds(s'.caches, s'.bus, c, t, i) ==> Holds(s.caches, s.bus, c, t, i);
  }

  /** After the last word of a fetch the requester is the sole holder, or everyone is Shared. */
  lemma DeliveredExclusive(s: System, s': System, v: Word)
    requires s.bus.active && s.bus.ongoing.origid.Core? && IsFetch(s.bus.ongoing)
    requires SingleWriter(s.caches, s.bus) && Delivered(s, s', v)
    ensures SingleWriter(s'.caches, s'.bus)
  {
    var r, tag, i := s.bus.ongoing.origid.id, TagOf(s.bus.ongoing.addr), IndexOf(s.bus.ongoing.addr);
    forall c: CoreId, d: CoreId, u: Tag, k: Index | c != d && Holds(s'.caches, s'.bus, c, u, k) &&
        Holds(s'.caches, s'.bus, d, u, k)
      ensures s'.caches[c].tsram[k].mesi == Shared
    {
      if k == i && (c == r || d == r) {
        assert s.bus.offset == 3 && u == tag && Matches(s.caches[if c == r then d else c].tsram[i], tag);
        assert SharedSignal(s.caches, s.bus.ongoing);
      } else {
        assert Holds(s.caches, s.bus, c, u, k) && Holds(s.caches, s.bus, d, u, k);
      }
    }
  }

  lemma ServeExclusive(s: System)
    requires Structured(s) && s.bus.active && SingleWriter(s.caches, s.bus)
    requires EvictionFresh(s) && RefillUndisturbed(s)
    ensures SingleWriter(Serve(s).caches, Serve(s).bus)
  {
    var (cs, t) := SnoopAll(s.caches, OnBus(s), s.bus.offset, 0);
    assert WellFormed(Pending(s.bus)[0]);
    if Skips(s) {
      assert forall c: CoreId, t: Tag, i: Index ::
          Holds(s.caches, Serve(s).bus, c, t, i) == Holds(s.caches, s.bus, c, t, i);
    } else if s.bus.ongoing.cmd == Flush {
      SnoopFlush(s);
      FlushCompleted(s, cs, t, ModifiedSignal(s.caches, s.bus.ongoing));
      assert forall c: CoreId, t: Tag, i: Index :: Holds(Serve(s).caches, Serve(s).bus, c, t, i) ==>
          Holds(s.caches, s.bus, c, t, i);
    } else {
      ServeFetch(s);
      if Awaited(s, Serve(s)) {
        AwaitedExclusive(s, Serve(s));
      } else {
        DeliveredExclusive(s, Serve(s), WordMoved(s, t));
      }
    }
  }

  lemma LoadExclusive(s: System, c: CoreId, a: Addr)
    requires SingleWriter(s.caches, s.bus)
    ensures var s' := Load(s, c, a).0; SingleWriter(s'.caches, s'.bus)
  {
    var s' := Load(s, c, a).0;
    assert forall d: CoreId, t: Tag, i: Index :: Holds(s'.caches, s'.bus, d, t, i) == Holds(s.caches, s.bus, d, t, i);
  }

  /** A store that succeeds has the block alone, and leaves its line Modified. */
  lemma StoreIsExclusive(s: System, c: CoreId, a: Addr, d: Word)
    requires Structured(s) && SingleWriter(s.caches, s.bus) && Store(s, c, a, d).1
    ensures Store(s, c, a, d).0.caches[c].tsram[IndexOf(a)] == Line(TagOf(a), Modified)
    ensures forall o: CoreId :: o != c ==> !Holds(s.caches, s.bus, o, TagOf(a), IndexOf(a))
  {
    assert !Refilling(s.bus, c, IndexOf(a));
    assert Holds(s.caches, s.bus, c, TagOf(a), IndexOf(a));
  }

  lemma StoreExclusive(s: System, c: CoreId, a: Addr, d: Word)
    requires Structured(s) && SingleWriter(s.caches, s.bus)
    ensures var s' := Store(s, c, a, d).0; SingleWriter(s'.caches, s'.bus)
  {
    var s' := Store(s, c, a, d).0;
    if Store(s, c, a, d).1 {
      StoreIsExclusive(s, c, a, d);
    }
    assert forall o: CoreId, t: Tag, i: Index :: Holds(s'.caches, s'.bus, o, t, i) == Holds(s.caches, s.bus, o, t, i);
  }

  lemma StepExclusive(s: System, e: Event)
    requires Structured(s) && SingleWriter(s.caches, s.bus) && (e.BusTick? ==> BusSafe(s))
    ensures SingleWriter(Step(s, e).caches, Step(s, e).bus)
  {
    match e
    case BusTick =>
      BeginStructured(s);
      BeginExclusive(s);
      if Begin(s).bus.active {
        ServeExclusive(Begin(s));
      }
    case LoadBy(c, a) => LoadExclusive(s, c, a);
    case StoreBy(c, a, d) => StoreExclusive(s, c, a, d);
  }

  /** Every bus iteration of the run is safe. */
  predicate SafeRun(s: System, es: seq<Event>)
    decreases |es|
  {
    es == [] || ((es[0].BusTick? ==> BusSafe(s)) && SafeRun(Step(s, es[0]), es[1..]))
  }

  /** Single writer, multiple readers, at every point of every safe run, however late the stores are. */
  lemma {:induction false} RunExclusive(s: System, es: seq<Event>)
    requires Structured(s) && SingleWriter(s.caches, s.bus) && SafeRun(s, es)
    ensures Structured(Run(s, es)) && SingleWriter(Run(s, es).caches, Run(s, es).bus)
    decreases |es|
  {
    if es != [] {
      StepStructured(s, es[0]);
      StepExclusive(s, es[0]);
      RunExclusive(Step(s, es[0]), es[1..]);
    }
  }

  /** What a fetch leaves behind with its last word: after a read every other copy is Shared, after a read for ownership
      there is none, and the requester is Shared exactly if some other cache still held the block. */
  lemma FetchOutcome(s: System)
    requires Structured(s) && s.bus.active && IsFetch(s.bus.ongoing) && SingleWriter(s.caches, s.bus)
    requires EvictionFresh(s) && RefillUndisturbed(s) && !Serve(s).bus.active
    ensures var r, a := s.bus.ongoing.origid.id, s.bus.ongoing.addr;
      && Serve(s).bus.phase[r] == Finally
      && Serve(s).caches[r].tsram[IndexOf(a)] ==
           Line(TagOf(a), if exists c: CoreId :: c != r && Matches(s.caches[c].tsram[IndexOf(a)], TagOf(a))
               then Shared else Exclusive)
      && forall c: CoreId :: c != r && Matches(Serve(s).caches[c].tsram[IndexOf(a)], TagOf(a)) ==>
           s.bus.ongoing.cmd == BusRd && Serve(s).caches[c].tsram[IndexOf(a)].mesi == Shared
  {
    ServeFetch(s);
    LastWordLines(s, Serve(s), WordMoved(s, SnoopAll(s.caches, OnBus(s), s.bus.offset, 0).1));
  }

  lemma LastWordLines(s: System, s': System, v: Word)
    requires s.bus.active && IsFetch(s.bus.ongoing) && s.bus.ongoing.origid.Core? && !s'.bus.active
    requires Awaited(s, s') || Delivered(s, s', v)
    ensures var r, a := s.bus.ongoing.origid.id, s.bus.ongoing.addr;
      && s'.bus.phase[r] == Finally
      && s'.caches[r].tsram[IndexOf(a)] ==
           Line(TagOf(a), if exists c: CoreId :: c != r && Matches(s.caches[c].tsram[IndexOf(a)], TagOf(a))
               then Shared else Exclusive)
      && forall c: CoreId :: c != r && Matches(s'.caches[c].tsram[IndexOf(a)], TagOf(a)) ==>
           s.bus.ongoing.cmd == BusRd && s'.caches[c].tsram[IndexOf(a)].mesi == Shared
  {
  }
}
