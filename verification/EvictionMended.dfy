/** After a write-back that came too late: its refill replaces the line that it has left behind. */
module EvictionMended {
  import opened Types
  import opened CacheModel
  import opened SystemModel
  import opened Structure
  import opened Snooping
  import opened Exclusion
  import opened FlatMemory
  import opened CleanRuns
  import opened Progress
  import opened EvictionExact

  // ----- two systems that differ in the state of one line -----

  /** Two systems that differ at most in the state of one line of core r, which is not modified in either. */
  ghost predicate Alike(s: System, h: System, r: CoreId, i: Index) {
    h == s.(caches := h.caches) && CachesAlike(s.caches, h.caches, r, i)
  }

  /** One cache with its line in two states. */
  predicate StatesAlike(c: CacheState, d: CacheState, i: Index) {
    && d == c.(tsram := d.tsram) && d.tsram == c.tsram[i := d.tsram[i]]
    && d.tsram[i].tag == c.tsram[i].tag && d.tsram[i].mesi != Modified && c.tsram[i].mesi != Modified
  }

  ghost predicate CachesAlike(cs: Caches, ch: Caches, r: CoreId, i: Index) {
    && (forall c: CoreId :: c != r ==> ch[c] == cs[c])
    && StatesAlike(cs[r], ch[r], i)
  }

  lemma HiddenAlike(s: System, r: CoreId, i: Index)
    requires s.caches[r].tsram[i].mesi != Modified
    ensures Alike(s, Hidden(s, r, i), r, i)
  {
  }

  lemma {:induction false} SeenAlike(cs: Caches, ch: Caches, t: Transaction, r: CoreId, c: nat)
    requires c <= 4 && CachesAlike(cs, ch, r, IndexOf(t.addr))
    ensures var x := Seen(cs, t, c);
      Seen(ch, t, c) == x && x.addr == t.addr && (x == t || (x.cmd == Flush && x.origid.Core? && x.origid != Core(r)))
  {
    if c > 0 {
      SeenAlike(cs, ch, t, r, c - 1);
    }
  }

  lemma SnoopAlike(cs: Caches, ch: Caches, t: Transaction, off: Offset, r: CoreId)
    requires CachesAlike(cs, ch, r, IndexOf(t.addr))
    ensures var (xs, x) := SnoopAll(cs, t, off, 0); var (ys, y) := SnoopAll(ch, t, off, 0);
      && y == x && CachesAlike(xs, ys, r, IndexOf(t.addr)) && x.addr == t.addr
      && (x == t || (x.cmd == Flush && x.origid.Core? && x.origid != Core(r)))
  {
    SnoopEach(cs, t, off, cs, 0);
    SnoopEach(ch, t, off, ch, 0);
    SeenAlike(cs, ch, t, r, 4);
    SeenAlike(cs, ch, t, r, r);
    forall c: CoreId | c != r
      ensures SnoopAll(cs, t, off, 0).0[c] == SnoopAll(ch, t, off, 0).0[c]
    {
      SeenAlike(cs, ch, t, r, c);
    }
    SnoopedAlike(cs[r], ch[r], r, Seen(cs, t, r), off);
  }

  lemma SnoopedAlike(c: CacheState, d: CacheState, r: CoreId, t: Transaction, off: Offset)
    requires StatesAlike(c, d, IndexOf(t.addr))
    ensures StatesAlike(SnoopedCache(c, r, t, off), SnoopedCache(d, r, t, off), IndexOf(t.addr))
  {
  }

  lemma LineOverwritten(c: Tsram, d: Tsram, i: Index, l: Line)
    requires d == c[i := d[i]]
    ensures d[i := l] == c[i := l]
  {
  }

  /** With the last word of the refill the difference is gone. */
  lemma RespondAlike(c: CacheState, d: CacheState, r: CoreId, t: Transaction, off: Offset)
    requires StatesAlike(c, d, IndexOf(t.addr)) && t.origid != Core(r)
    ensures var (x, y) := (Respond(c, r, t, off), Respond(d, r, t, off));
      && y.offset == x.offset && y.done == x.done && StatesAlike(x.cache, y.cache, IndexOf(t.addr))
      && (x.done ==> y.cache == x.cache)
  {
    LineOverwritten(c.tsram, d.tsram, IndexOf(t.addr), Line(TagOf(t.addr), if t.shared then Shared else Exclusive));
  }

  lemma CompleteAlike(s: System, h: System, cs: Caches, ch: Caches, t: Transaction, direct: bool, r: CoreId)
    requires Alike(s, h, r, IndexOf(t.addr)) && CachesAlike(cs, ch, r, IndexOf(t.addr)) && s.bus.active
    requires s.bus.ongoing.origid == Core(r) && (IsFetch(t) || (t.cmd == Flush && t.origid != Core(r)))
    ensures var s', h' := Complete(s, cs, t, direct), Complete(h, ch, t, direct);
      && Alike(s', h', r, IndexOf(t.addr)) && (!s'.bus.active ==> s' == h')
  {
    var a := MemoryCycle(s.mem, t, direct);
    if a.ready {
      var x, y := Respond(cs[r], r, a.t, s.bus.offset), Respond(ch[r], r, a.t, s.bus.offset);
      RespondAlike(cs[r], ch[r], r, a.t, s.bus.offset);
      assert x.done ==> cs[r := x.cache] == ch[r := y.cache];
    }
  }

  lemma ServeAlike(s: System, h: System, r: CoreId, i: Index)
    requires Alike(s, h, r, i) && s.bus.active && s.bus.ongoing.origid == Core(r) && IsFetch(s.bus.ongoing)
    requires IndexOf(s.bus.ongoing.addr) == i
    ensures Alike(Serve(s), Serve(h), r, i) && (!Serve(s).bus.active ==> Serve(s) == Serve(h))
  {
    var a := s.bus.ongoing;
    assert SharedSignal(h.caches, a) == SharedSignal(s.caches, a);
    assert ModifiedSignal(h.caches, a) == ModifiedSignal(s.caches, a);
    assert OnBus(h) == OnBus(s);
    OnBusFields(s);
    if !Skips(s) {
      SnoopAlike(s.caches, h.caches, OnBus(s), s.bus.offset, r);
      var (cs, t) := SnoopAll(s.caches, OnBus(s), s.bus.offset, 0);
      CompleteAlike(s, h, cs, SnoopAll(h.caches, OnBus(s), s.bus.offset, 0).0, t, ModifiedSignal(s.caches, a), r);
    }
  }

  /** The other cores cannot tell. */
  lemma LoadAlike(s: System, h: System, r: CoreId, i: Index, c: CoreId, a: Addr)
    requires Alike(s, h, r, i) && c != r
    ensures Alike(Load(s, c, a).0, Load(h, c, a).0, r, i)
  {
  }

  lemma StoreAlike(s: System, h: System, r: CoreId, i: Index, c: CoreId, a: Addr, d: Word)
    requires Alike(s, h, r, i) && c != r
    ensures Alike(Store(s, c, a, d).0, Store(h, c, a, d).0, r, i) && Store(h, c, a, d).1 == Store(s, c, a, d).1
  {
  }

  lemma AttemptAlike(s: System, h: System, r: CoreId, i: Index, e: Event, flat: Ram)
    requires Alike(s, h, r, i) && !e.BusTick? && s.bus.phase[r] != Idle
    ensures Alike(Step(s, e), Step(h, e), r, i) && FlatStep(h, flat, e) == FlatStep(s, flat, e)
    ensures e.StoreBy? ==> Store(h, e.core, e.addr, e.data).1 == Store(s, e.core, e.addr, e.data).1
  {
    if e.core == r {
      SucceedsWhenReady(s, e);
      SucceedsWhenReady(h, e);
    } else if e.LoadBy? {
      LoadAlike(s, h, r, i, e.core, e.addr);
    } else {
      StoreAlike(s, h, r, i, e.core, e.addr, e.data);
    }
  }

  // ----- the refill -----

  /** The refill of core r is on the bus, or next. */
  predicate Refills(b: Bus, r: CoreId, i: Index) {
    && b.phase[r] != Idle
    && if b.active then FetchBy(b.ongoing, r) && IndexOf(b.ongoing.addr) == i
       else b.queue != [] && FetchBy(b.queue[0], r) && IndexOf(b.queue[0].addr) == i
  }

  ghost predicate Mending(s: System, h: System, r: CoreId, i: Index, flat: Ram) {
    Structured(h) && Coherent(h, flat) && Alike(s, h, r, i) && Refills(s.bus, r, i)
  }

  lemma ServeEnds(s: System)
    requires s.bus.ongoing.origid.Core?
    ensures var b := Serve(s).bus; b.active ==> b.phase == s.bus.phase && b.ongoing == s.bus.ongoing
  {
    var (cs, t) := SnoopAll(s.caches, OnBus(s), s.bus.offset, 0);
    if s.bus.active {
      CompleteFrame(s, cs, t, ModifiedSignal(s.caches, s.bus.ongoing));
    }
  }

  /** The refill comes on the bus, if it is not there yet, and its first word cannot be its last. */
  lemma RefillTaken(s: System, r: CoreId, i: Index)
    requires Structured(s) && Refills(s.bus, r, i)
    ensures var b := Begin(s);
      && b.bus.active && Refills(b.bus, r, i) && EvictionFresh(b) && Tick(s) == Serve(b)
      && (!Dirty(s.caches[r], b.bus.ongoing.addr) ==> BusSafe(s))
    ensures !s.bus.active ==> Serve(Begin(s)).bus.active
  {
    BeginStructured(s);
    if !s.bus.active {
      var b := Begin(s);
      var (cs, t) := SnoopAll(b.caches, OnBus(b), b.bus.offset, 0);
      FirstNotLast(b, cs, t, ModifiedSignal(b.caches, b.bus.ongoing));
    }
  }

  lemma FirstNotLast(s: System, cs: Caches, t: Transaction, direct: bool)
    requires s.bus.active && s.bus.ongoing.origid.Core? && s.bus.offset == 0
    ensures Complete(s, cs, t, direct).bus.active
  {
  }

  lemma TickMends(s: System, h: System, r: CoreId, i: Index, flat: Ram)
    requires Mending(s, h, r, i, flat)
    ensures if Tick(s).bus.active then Mending(Tick(s), Tick(h), r, i, flat)
            else s.bus.active && Structured(Tick(s)) && Coherent(Tick(s), flat)
  {
    RefillTaken(h, r, i);
    assert Alike(Begin(s), Begin(h), r, i);
    ServeAlike(Begin(s), Begin(h), r, i);
    TickCoherent(h, flat);
    StepStructured(h, BusTick);
    ServeEnds(Begin(s));
  }

  lemma AttemptMends(s: System, h: System, r: CoreId, i: Index, e: Event, flat: Ram)
    requires Mending(s, h, r, i, flat) && !e.BusTick?
    requires e.StoreBy? && Store(s, e.core, e.addr, e.data).1 ==> StoreInTime(s, e.addr)
    ensures Mending(Step(s, e), Step(h, e), r, i, FlatStep(s, flat, e))
  {
    AttemptAlike(s, h, r, i, e, flat);
    StepCoherent(h, e, flat);
    StepStructured(h, e);
    AttemptEffect(s, e);
  }

  lemma {:induction false} RunMends(s: System, h: System, es: seq<Event>, r: CoreId, i: Index, flat: Ram)
    requires Mending(s, h, r, i, flat) && Ends(s, es) && StoresInTime(s, es)
    ensures Structured(Run(s, es)) && Coherent(Run(s, es), FlatRun(s, es, flat))
    decreases |es|
  {
    var s' := Step(s, es[0]);
    if es[0].BusTick? {
      TickMends(s, h, r, i, flat);
    } else {
      AttemptMends(s, h, r, i, es[0], flat);
      AttemptEffect(s, es[0]);
    }
    if !s.bus.active || s'.bus.active {
      RunMends(s', Step(h, es[0]), es[1..], r, i, FlatStep(s, flat, es[0]));
    }
  }

  /** Behind a write-back comes its refill. */
  lemma RefillNext(s: System)
    requires Structured(s) && Finished(s.bus) && s.bus.ongoing.cmd == Flush
    ensures Refills(s.bus, s.bus.ongoing.origid.id, IndexOf(s.bus.ongoing.addr))
  {
    var p := Pending(s.bus);
    assert Follows(p[0], p[1], 1) && p[1] == s.bus.queue[0];
  }

  /** A write-back that comes too late, but in one of the harmless cases, and its refill: at the end everything is as it
      should be, whatever the cores do meanwhile, as long as no store hits a word that the refill has already moved. */
  lemma WriteBackMended(s: System, es: seq<Event>, fs: seq<Event>, flat: Ram)
    requires Overdue(s, flat) && Ends(s, es) && Ends(Run(s, es), fs) && StoresInTime(Run(s, es), fs)
    requires var u, s', flat' := s.bus.ongoing, Run(s, es), FlatRun(s, es, flat);
      || (exists o: CoreId ::
            Core(o) != u.origid && s'.caches[o].tsram[IndexOf(u.addr)] == Line(TagOf(u.addr), Modified))
      || (forall w: Offset :: flat'[Join(TagOf(u.addr), IndexOf(u.addr), w)] == u.data)
    ensures Coherent(Run(Run(s, es), fs), FlatRun(Run(s, es), fs, FlatRun(s, es, flat)))
  {
    var u, s', flat' := s.bus.ongoing, Run(s, es), FlatRun(s, es, flat);
    var r, i := u.origid.id, IndexOf(u.addr);
    OverdueSpoils(s, flat);
    RunSpoils(s, es, u, flat);
    WriteBackExact(s, es, flat);
    HiddenAlike(s', r, i);
    HiddenStructured(s', r, i);
    RefillNext(s');
    RunMends(s', Hidden(s', r, i), fs, r, i, flat');
  }
}
