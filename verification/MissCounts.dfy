/** What the hit and miss counters of a cache count, in every run of the memory system and for any number of cores. */
module MissCounts {
  import opened Types
  import opened CacheModel
  import opened SystemModel

  // ----- the bus leaves the counters alone -----

  lemma {:induction false} SnoopStats(cs: Caches, t: Transaction, off: Offset, j: nat)
    requires j <= 4
    ensures forall c: CoreId :: SnoopAll(cs, t, off, j).0[c].stats == cs[c].stats
    decreases 4 - j
  {
    if j < 4 {
      SnoopStats(cs[j := SnoopedCache(cs[j], j, t, off)], SnoopedTransaction(cs[j], j, t), off, j + 1);
    }
  }

  lemma CompleteStats(s: System, cs: Caches, t: Transaction, direct: bool)
    requires s.bus.ongoing.origid.Core? && forall c: CoreId :: cs[c].stats == s.caches[c].stats
    ensures var s' := Complete(s, cs, t, direct);
      && s'.missRead == s.missRead && s'.missWrite == s.missWrite
      && forall c: CoreId :: s'.caches[c].stats == s.caches[c].stats
  {
  }

  lemma TickStats(s: System)
    ensures var s' := Tick(s);
      && s'.missRead == s.missRead && s'.missWrite == s.missWrite
      && forall c: CoreId :: s'.caches[c].stats == s.caches[c].stats
  {
    var b := Begin(s);
    if b.bus.active && b.bus.ongoing.origid.Core? && !Skips(b) {
      var (cs, t) := SnoopAll(b.caches, OnBus(b), b.bus.offset, 0);
      SnoopStats(b.caches, OnBus(b), b.bus.offset, 0);
      CompleteStats(b, cs, t, ModifiedSignal(b.caches, b.bus.ongoing));
    }
  }

  // ----- what counts -----

  /** The cache of an idle core looks at the line at the index of the address, and does not find the block there. */
  predicate LoadMisses(s: System, e: Event) {
    && e.LoadBy? && s.bus.phase[e.core] == Idle
    && var l := s.caches[e.core].tsram[e.addr / 4 % 64]; l.tag != e.addr / 256 || l.mesi == Invalid
  }

  predicate LoadFinds(s: System, e: Event) {
    && e.LoadBy? && s.bus.phase[e.core] == Idle
    && var l := s.caches[e.core].tsram[e.addr / 4 % 64]; l.tag == e.addr / 256 && l.mesi != Invalid
  }

  /** A store misses also if it finds the block Shared. */
  predicate StoreMisses(s: System, e: Event) {
    && e.StoreBy? && s.bus.phase[e.core] == Idle
    && var l := s.caches[e.core].tsram[e.addr / 4 % 64]; l.tag != e.addr / 256 || l.mesi == Invalid || l.mesi == Shared
  }

  predicate StoreFinds(s: System, e: Event) {
    && e.StoreBy? && s.bus.phase[e.core] == Idle
    && var l := s.caches[e.core].tsram[e.addr / 4 % 64];
       l.tag == e.addr / 256 && (l.mesi == Exclusive || l.mesi == Modified)
  }

  /** Is the last load (or store) of any core that was not put off one that missed? */
  function Open(was: bool, misses: bool, finds: bool): bool { misses || (was && !finds) }

  function One(b: bool): nat { if b then 1 else 0 }

  /** The four numbers for core c, over a run.  A load that finds its block counts as a hit unless the last load of any
      core that was not put off has missed, and likewise for stores. */
  function Counts(s: System, es: seq<Event>, c: CoreId, read: bool, write: bool): Stats
    decreases |es|
  {
    if es == [] then Stats(0, 0, 0, 0)
    else
      var e := es[0];
      var own := !e.BusTick? && e.core == c;
      var rest := Counts(Step(s, e), es[1..], c, Open(read, LoadMisses(s, e), LoadFinds(s, e)),
                         Open(write, StoreMisses(s, e), StoreFinds(s, e)));
      Stats(rest.readHits + One(own && LoadFinds(s, e) && !read), rest.readMisses + One(own && LoadMisses(s, e)),
            rest.writeHits + One(own && StoreFinds(s, e) && !write), rest.writeMisses + One(own && StoreMisses(s, e)))
  }

  function Added(a: Stats, b: Stats): Stats {
    Stats(a.readHits + b.readHits, a.readMisses + b.readMisses, a.writeHits + b.writeHits,
          a.writeMisses + b.writeMisses)
  }

  /** One event. */
  lemma StepCounts(s: System, e: Event, c: CoreId)
    ensures var s', own := Step(s, e), !e.BusTick? && e.core == c;
      && s'.missRead == Open(s.missRead, LoadMisses(s, e), LoadFinds(s, e))
      && s'.missWrite == Open(s.missWrite, StoreMisses(s, e), StoreFinds(s, e))
      && s'.caches[c].stats == Added(
           Stats(One(own && LoadFinds(s, e) && !s.missRead), One(own && LoadMisses(s, e)),
                 One(own && StoreFinds(s, e) && !s.missWrite), One(own && StoreMisses(s, e))),
           s.caches[c].stats)
  {
    if e.BusTick? {
      TickStats(s);
    }
  }

  lemma {:induction false} RunCounts(s: System, es: seq<Event>, c: CoreId)
    ensures Run(s, es).caches[c].stats == Added(Counts(s, es, c, s.missRead, s.missWrite), s.caches[c].stats)
    decreases |es|
  {
    if es != [] {
      StepCounts(s, es[0], c);
      RunCounts(Step(s, es[0]), es[1..], c);
    }
  }

  /** The counters after any run from power-on. */
  lemma CountersExact(ram: Ram, es: seq<Event>, c: CoreId)
    ensures Run(Start(ram), es).caches[c].stats == Counts(Start(ram), es, c, false, false)
  {
    RunCounts(Start(ram), es, c);
  }

  // ----- the misses alone -----

  /** How many attempts of core c to load (or to store) have missed. */
  function Misses(s: System, es: seq<Event>, c: CoreId, store: bool): nat
    decreases |es|
  {
    if es == [] then 0
    else
      var e := es[0];
      One(!e.BusTick? && e.core == c && if store then StoreMisses(s, e) else LoadMisses(s, e))
      + Misses(Step(s, e), es[1..], c, store)
  }

  lemma {:induction false} CountsMisses(s: System, es: seq<Event>, c: CoreId, read: bool, write: bool)
    ensures var n := Counts(s, es, c, read, write);
      n.readMisses == Misses(s, es, c, false) && n.writeMisses == Misses(s, es, c, true)
    decreases |es|
  {
    if es != [] {
      var e := es[0];
      CountsMisses(Step(s, e), es[1..], c, Open(read, LoadMisses(s, e), LoadFinds(s, e)),
                   Open(write, StoreMisses(s, e), StoreFinds(s, e)));
    }
  }

  /** In every run, and whatever the other cores do, the misses are the attempts of an idle core whose line at the index
      of the address does not do. */
  lemma MissesExact(ram: Ram, es: seq<Event>, c: CoreId)
    ensures var n := Run(Start(ram), es).caches[c].stats;
      n.readMisses == Misses(Start(ram), es, c, false) && n.writeMisses == Misses(Start(ram), es, c, true)
  {
    CountersExact(ram, es, c);
    CountsMisses(Start(ram), es, c, false, false);
  }
}
