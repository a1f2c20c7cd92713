/** In a block-private run nobody takes away what a core waits for: its access succeeds when its transactions are
    over. */
module Progress {
  import opened Types
  import opened CacheModel
  import opened SystemModel
  import opened Structure
  import opened Snooping
  import opened Exclusion
  import opened FlatMemory
  import opened PrivateRuns

  /** The access would succeed now. */
  predicate Ready(c: CacheState, a: Addr, store: bool) {
    Hit(c, a) && (store ==> c.tsram[IndexOf(a)].mesi != Shared)
  }

  predicate FetchBy(t: Transaction, c: CoreId) { t.origid == Core(c) && IsFetch(t) }

  predicate Outstanding(b: Bus, c: CoreId) {
    (exists k :: 0 <= k < |b.queue| && FetchBy(b.queue[k], c)) || (b.active && FetchBy(b.ongoing, c))
  }

  /** Core c waits for the block of address a, or has it. */
  ghost predicate Served(s: System, c: CoreId, a: Addr, store: bool) {
    && (forall k :: 0 <= k < |s.bus.queue| && FetchBy(s.bus.queue[k], c) ==> SameBlock(s.bus.queue[k].addr, a))
    && (s.bus.active && FetchBy(s.bus.ongoing, c) ==> SameBlock(s.bus.ongoing.addr, a))
    && (Outstanding(s.bus, c) || Ready(s.caches[c], a, store))
  }

  /** The run accounts for the access. */
  predicate Allowed(run: seq<Event>, c: CoreId, a: Addr, store: bool) {
    Uses(run, c, TagOf(a), IndexOf(a)) && (store ==> Writes(run, c, TagOf(a), IndexOf(a)))
  }

  /** Once its phase is idle, the core has the block. */
  lemma IdleIsReady(s: System, c: CoreId, a: Addr, store: bool)
    requires Structured(s) && Served(s, c, a, store) && s.bus.phase[c] == Idle
    ensures Ready(s.caches[c], a, store)
  {
  }

  lemma BeginServed(s: System, c: CoreId, a: Addr, store: bool)
    requires Structured(s) && Served(s, c, a, store)
    ensures Served(Begin(s), c, a, store)
  {
    var b, b' := s.bus, BeginBus(s.bus);
    if !b.active && b.queue != [] {
      assert b'.queue == b.queue[1..];
      if k :| 0 <= k < |b.queue| && FetchBy(b.queue[k], c) {
        if k > 0 {
          assert b'.queue[k - 1] == b.queue[k];
        }
      }
    }
  }

  /** Serving another core's fetch does not take the block away. */
  lemma OtherFetchServed(s: System, s': System, c: CoreId, a: Addr, store: bool, run: seq<Event>)
    requires Private(s, run) && BlockPrivate(run) && Allowed(run, c, a, store)
    requires s.bus.active && s.bus.ongoing.origid.Core? && IsFetch(s.bus.ongoing) && s.bus.ongoing.origid != Core(c)
    requires Ready(s.caches[c], a, store)
    requires s'.caches[c].tsram[IndexOf(s.bus.ongoing.addr)] ==
      DowngradedLine(s.caches[c].tsram[IndexOf(s.bus.ongoing.addr)], TagOf(s.bus.ongoing.addr), s.bus.ongoing.cmd,
          s.bus.offset)
    requires forall k: Index :: k != IndexOf(s.bus.ongoing.addr) ==> s'.caches[c].tsram[k] == s.caches[c].tsram[k]
    ensures Ready(s'.caches[c], a, store)
  {
    assert UsedFetch(s.bus.ongoing, run);
  }

  /** The last word of its own fetch gives the core the block, alone if it is going to store. */
  lemma OwnFetchServed(s: System, c: CoreId, a: Addr, store: bool, run: seq<Event>)
    requires Private(s, run) && BlockPrivate(run) && Allowed(run, c, a, store)
    requires s.bus.active && FetchBy(s.bus.ongoing, c) && SameBlock(s.bus.ongoing.addr, a) && s.bus.offset == 3
    ensures var l := RefilledLine(s, c); Matches(l, TagOf(a)) && (store ==> l.mesi != Shared)
  {
    if SharedSignal(s.caches, s.bus.ongoing) {
      var d: nat :| d < 4 && Core(d) != s.bus.ongoing.origid &&
          Matches(s.caches[d].tsram[IndexOf(s.bus.ongoing.addr)], TagOf(s.bus.ongoing.addr));
      assert Holds(s.caches, s.bus, d, TagOf(a), IndexOf(a));
    }
  }

  lemma SameQueueServed(s: System, s': System, c: CoreId, a: Addr, store: bool)
    requires Served(s, c, a, store) && s'.bus.queue == s.bus.queue && s'.bus.ongoing == s.bus.ongoing
    requires s'.bus.active == s.bus.active || (s.bus.active && !s'.bus.active)
    requires Ready(s.caches[c], a, store) || (FetchBy(s.bus.ongoing, c) && !s'.bus.active && s.bus.active) ==>
      Ready(s'.caches[c], a, store)
    ensures Served(s', c, a, store)
  {
  }

  lemma FetchServed(s: System, s': System, v: Word, c: CoreId, a: Addr, store: bool, run: seq<Event>)
    requires Private(s, run) && BlockPrivate(run) && Allowed(run, c, a, store) && Served(s, c, a, store)
    requires s.bus.active && s.bus.ongoing.origid.Core? && IsFetch(s.bus.ongoing)
    requires Awaited(s, s') || Delivered(s, s', v)
    ensures Served(s', c, a, store)
  {
    if s.bus.ongoing.origid == Core(c) {
      if s.bus.offset == 3 && Delivered(s, s', v) {
        OwnFetchServed(s, c, a, store, run);
        SameQueueServed(s, s', c, a, store);
      }
    } else {
      if Ready(s.caches[c], a, store) {
        OtherFetchServed(s, s', c, a, store, run);
      }
      SameQueueServed(s, s', c, a, store);
    }
  }

  lemma FlushServed(s: System, c: CoreId, a: Addr, store: bool)
    requires Structured(s) && SingleWriter(s.caches, s.bus) && EvictionFresh(s) && Served(s, c, a, store)
    requires s.bus.active && s.bus.ongoing.cmd == Flush && !Skips(s)
    ensures Served(Serve(s), c, a, store)
  {
    var (cs, t) := SnoopAll(s.caches, OnBus(s), s.bus.offset, 0);
    SnoopFlush(s);
    FlushCompleted(s, cs, t, ModifiedSignal(s.caches, s.bus.ongoing));
    SameQueueServed(s, Serve(s), c, a, store);
  }

  lemma ServeServed(s: System, c: CoreId, a: Addr, store: bool, run: seq<Event>)
    requires Structured(s) && SingleWriter(s.caches, s.bus) && EvictionFresh(s) && RefillUndisturbed(s)
    requires Private(s, run) && BlockPrivate(run) && Allowed(run, c, a, store) && Served(s, c, a, store) && s.bus.active
    ensures Served(Serve(s), c, a, store)
  {
    if Skips(s) {
      SameQueueServed(s, Serve(s), c, a, store);
    } else if s.bus.ongoing.cmd == Flush {
      FlushServed(s, c, a, store);
    } else {
      assert WellFormed(Pending(s.bus)[0]);
      ServeFetch(s);
      FetchServed(s, Serve(s), WordMoved(s, SnoopAll(s.caches, OnBus(s), s.bus.offset, 0).1), c, a, store, run);
    }
  }

  /** An iteration of the bus. */
  lemma TickServed(s: System, c: CoreId, a: Addr, store: bool, run: seq<Event>, flat: Ram)
    requires Structured(s) && Coherent(s, flat) && Private(s, run) && BlockPrivate(run)
    requires Allowed(run, c, a, store) && Served(s, c, a, store)
    ensures Served(Tick(s), c, a, store)
  {
    PrivateSafe(s, run);
    BeginStructured(s);
    BeginServed(s, c, a, store);
    BeginExclusive(s);
    if Begin(s).bus.active {
      ServeServed(Begin(s), c, a, store, run);
    }
  }

  /** A group joins the queue of core d. */
  lemma AppendServed(b: Bus, d: CoreId, g: seq<Transaction>, c: CoreId)
    requires IsGroup(g, d) && c != d
    ensures var q := Append(b, d, g).queue;
      && (forall k :: 0 <= k < |q| && FetchBy(q[k], c) ==> k < |b.queue| && q[k] == b.queue[k])
      && (Outstanding(b, c) ==> Outstanding(Append(b, d, g), c))
  {
    var q := Append(b, d, g).queue;
    if k :| 0 <= k < |b.queue| && FetchBy(b.queue[k], c) {
      assert FetchBy(q[k], c);
    }
  }

  /** What the other cores do. */
  lemma OtherServed(s: System, s': System, g: seq<Transaction>, d: CoreId, c: CoreId, a: Addr, store: bool)
    requires d != c && Served(s, c, a, store) && s'.caches[c] == s.caches[c]
    requires s'.bus == if g == [] then s.bus else Append(s.bus, d, g)
    requires g != [] ==> IsGroup(g, d)
    ensures Served(s', c, a, store)
  {
    if g != [] {
      AppendServed(s.bus, d, g, c);
    }
  }

  lemma EventServed(s: System, e: Event, c: CoreId, a: Addr, store: bool)
    requires !e.BusTick? && e.core != c && Served(s, c, a, store)
    ensures Served(Step(s, e), c, a, store)
  {
    AttemptEffect(s, e);
    OtherServed(s, Step(s, e), AttemptGroup(s, e), e.core, c, a, store);
  }

  /** An idle core asks for the block, and for nothing else. */
  lemma AskedServed(s: System, s': System, c: CoreId, a: Addr, store: bool, g: seq<Transaction>)
    requires Structured(s) && s.bus.phase[c] == Idle && s'.bus == Append(s.bus, c, g)
    requires exists k :: 0 <= k < |g| && FetchBy(g[k], c)
    requires forall k :: 0 <= k < |g| && FetchBy(g[k], c) ==> g[k].addr == a
    ensures Served(s', c, a, store)
  {
    var q, n := s'.bus.queue, |s.bus.queue|;
    var k :| 0 <= k < |g| && FetchBy(g[k], c);
    assert FetchBy(q[n + k], c);
    assert forall j :: 0 <= j < n ==> q[j] == s.bus.queue[j];
  }

  lemma GroupAsks(s: System, e: Event)
    requires !e.BusTick? && s.bus.phase[e.core] == Idle && !Ready(s.caches[e.core], e.addr, e.StoreBy?)
    ensures var g := AttemptGroup(s, e);
      && (exists k :: 0 <= k < |g| && FetchBy(g[k], e.core))
      && (forall k :: 0 <= k < |g| && FetchBy(g[k], e.core) ==> g[k].addr == e.addr)
  {
    var g := AttemptGroup(s, e);
    assert FetchBy(g[if |g| == 2 && g[0].cmd == Flush then 1 else 0], e.core);
  }

  /** The attempt itself: it succeeds if the core is idle and has the block, and otherwise leaves the core waiting for
      it. */
  lemma AttemptServed(s: System, e: Event)
    requires Structured(s) && !e.BusTick?
    requires s.bus.phase[e.core] != Idle ==> Served(s, e.core, e.addr, e.StoreBy?)
    ensures !Succeeds(s, e) ==> Served(Step(s, e), e.core, e.addr, e.StoreBy?) && Step(s, e).bus.phase[e.core] != Idle
  {
    if s.bus.phase[e.core] == Idle && !Ready(s.caches[e.core], e.addr, e.StoreBy?) {
      AttemptEffect(s, e);
      GroupAsks(s, e);
      AskedServed(s, Step(s, e), e.core, e.addr, e.StoreBy?, AttemptGroup(s, e));
    }
  }

  predicate Succeeds(s: System, e: Event)
    requires !e.BusTick?
  {
    if e.LoadBy? then Load(s, e.core, e.addr).1.Some? else Store(s, e.core, e.addr, e.data).1
  }

  lemma SucceedsWhenReady(s: System, e: Event)
    requires !e.BusTick?
    ensures Succeeds(s, e) == (s.bus.phase[e.core] == Idle && Ready(s.caches[e.core], e.addr, e.StoreBy?))
    ensures s.bus.phase[e.core] != Idle ==> Step(s, e) == s
  {
  }

  /** Only the core of the transaction on the bus moves to another phase. */
  lemma ServePhases(s: System, c: CoreId)
    requires s.bus.active && s.bus.ongoing.origid.Core? && s.bus.ongoing.origid != Core(c)
    ensures Serve(s).bus.phase[c] == s.bus.phase[c]
  {
    if !Skips(s) {
      var (cs, t) := SnoopAll(s.caches, OnBus(s), s.bus.offset, 0);
      CompleteFrame(s, cs, t, ModifiedSignal(s.caches, s.bus.ongoing));
    }
  }

  /** A core that is idle stays idle until it asks. */
  lemma IdleStays(s: System, e: Event, c: CoreId)
    requires Structured(s) && s.bus.phase[c] == Idle && (e.BusTick? || e.core != c || Succeeds(s, e))
    ensures Step(s, e).bus.phase[c] == Idle
  {
    if e.BusTick? {
      BeginStructured(s);
      if Begin(s).bus.active {
        ServePhases(Begin(s), c);
      }
    } else {
      AttemptEffect(s, e);
    }
  }
}
