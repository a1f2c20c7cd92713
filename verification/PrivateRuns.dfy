/** Programs that need no care: runs in which no block stored by one core is used by another. */
module PrivateRuns {
  import opened Types
  import opened CacheModel
  import opened SystemModel
  import opened Structure
  import opened Snooping
  import opened Exclusion
  import opened FlatMemory

  predicate Touches(e: Event, c: CoreId, t: Tag, i: Index) {
    !e.BusTick? && e.core == c && TagOf(e.addr) == t && IndexOf(e.addr) == i
  }

  /** Core c tries to load from or store to the block somewhere in the run. */
  predicate Uses(run: seq<Event>, c: CoreId, t: Tag, i: Index) {
    exists n :: 0 <= n < |run| && Touches(run[n], c, t, i)
  }

  /** Core c tries to store to the block somewhere in the run. */
  predicate Writes(run: seq<Event>, c: CoreId, t: Tag, i: Index) {
    exists n :: 0 <= n < |run| && Touches(run[n], c, t, i) && run[n].StoreBy?
  }

  /** A condition on the program alone: no block stored by one core is loaded or stored by another. */
  ghost predicate BlockPrivate(run: seq<Event>) {
    forall c: CoreId, d: CoreId, t: Tag, i: Index :: Writes(run, c, t, i) && Uses(run, d, t, i) ==> c == d
  }

  predicate FreshFlush(cs: Caches, t: Transaction) {
    t.cmd == Flush && t.origid.Core? ==> cs[t.origid.id].tsram[IndexOf(t.addr)] == Line(TagOf(t.addr), Modified)
  }

  predicate UsedFetch(t: Transaction, run: seq<Event>) {
    IsFetch(t) && t.origid.Core? ==>
      && Uses(run, t.origid.id, TagOf(t.addr), IndexOf(t.addr))
      && (t.cmd == BusRdX ==> Writes(run, t.origid.id, TagOf(t.addr), IndexOf(t.addr)))
  }

  /** What the run accounts for: the blocks that are cached, modified or requested, and victims that stay modified. */
  ghost predicate Private(s: System, run: seq<Event>) {
    && (forall c: CoreId, t: Tag, i: Index :: Owns(s.caches, s.bus, c, t, i) ==> Writes(run, c, t, i))
    && (forall k :: 0 <= k < |s.bus.queue| ==> UsedFetch(s.bus.queue[k], run) && FreshFlush(s.caches, s.bus.queue[k]))
    && (s.bus.active ==> UsedFetch(s.bus.ongoing, run) && FreshFlush(s.caches, s.bus.ongoing))
    && (forall c: CoreId, t: Tag, i: Index :: Holds(s.caches, s.bus, c, t, i) ==> Uses(run, c, t, i))
  }

  lemma PrivateSafe(s: System, run: seq<Event>)
    requires Structured(s) && Private(s, run) && BlockPrivate(run)
    ensures BusSafe(s) && Private(Begin(s), run)
  {
    var b := Begin(s);
    BeginHolds(s);
    assert forall c: CoreId, t: Tag, i: Index :: Owns(b.caches, b.bus, c, t, i) == Owns(s.caches, s.bus, c, t, i);
    assert RefillUndisturbed(b) by {
      if b.bus.active && IsFetch(b.bus.ongoing) && b.bus.ongoing.origid.Core? {
        var r, a := b.bus.ongoing.origid.id, b.bus.ongoing.addr;
        if c: nat :| c < r && b.caches[c].tsram[IndexOf(a)] == Line(TagOf(a), Modified) {
          assert Owns(b.caches, b.bus, c, TagOf(a), IndexOf(a));
        }
      }
    }
  }

  /** The queued write-backs of other cores are not disturbed by a fetch of a block that is private to someone. */
  lemma FetchKeepsVictims(s: System, s': System, run: seq<Event>)
    requires Structured(s) && Private(s, run) && BlockPrivate(run) && s.bus.active && IsFetch(s.bus.ongoing)
    requires s'.bus.queue == s.bus.queue
    requires var r, t, i := s.bus.ongoing.origid.id, TagOf(s.bus.ongoing.addr), IndexOf(s.bus.ongoing.addr);
      forall c: CoreId, j: Index :: c != r ==>
        s'.caches[c].tsram[j] == s.caches[c].tsram[j] || (j == i && Matches(s.caches[c].tsram[i], t))
    ensures forall k :: 0 <= k < |s'.bus.queue| ==> FreshFlush(s'.caches, s'.bus.queue[k])
  {
    var p, r, t, i := Pending(s.bus), s.bus.ongoing.origid.id, TagOf(s.bus.ongoing.addr), IndexOf(s.bus.ongoing.addr);
    forall k | 0 <= k < |s'.bus.queue| && s.bus.queue[k].cmd == Flush && s.bus.queue[k].origid.Core?
      ensures FreshFlush(s'.caches, s.bus.queue[k])
    {
      var c, j := s.bus.queue[k].origid.id, IndexOf(s.bus.queue[k].addr);
      assert p[k + 1] == s.bus.queue[k] && Follows(p[0], p[k + 1], k + 1);
      assert c != r && FreshFlush(s.caches, s.bus.queue[k]);
      assert Owns(s.caches, s.bus, c, s.caches[c].tsram[j].tag, j);
    }
  }

  lemma SameLinesPrivate(s: System, s': System, run: seq<Event>)
    requires Private(s, run) && s'.bus.queue == s.bus.queue && s'.bus.ongoing == s.bus.ongoing
    requires forall c: CoreId :: s'.caches[c].tsram == s.caches[c].tsram
    requires s'.bus.active ==> s.bus.active
    requires forall c: CoreId, t: Tag, i: Index :: Holds(s'.caches, s'.bus, c, t, i) == Holds(s.caches, s.bus, c, t, i)
    ensures Private(s', run)
  {
    assert forall c: CoreId, t: Tag, i: Index :: Owns(s'.caches, s'.bus, c, t, i) == Owns(s.caches, s.bus, c, t, i);
  }

  lemma ServeFlushPrivate(s: System, run: seq<Event>)
    requires Structured(s) && SingleWriter(s.caches, s.bus) && EvictionFresh(s) && Private(s, run)
    requires s.bus.active && s.bus.ongoing.cmd == Flush && !Skips(s)
    ensures Private(Serve(s), run)
  {
    var (cs, t) := SnoopAll(s.caches, OnBus(s), s.bus.offset, 0);
    SnoopFlush(s);
    FlushCompleted(s, cs, t, ModifiedSignal(s.caches, s.bus.ongoing));
    FlushHolds(s, Serve(s));
    SameLinesPrivate(s, Serve(s), run);
  }

  lemma ServePrivate(s: System, run: seq<Event>, flat: Ram)
    requires Structured(s) && Coherent(s, flat) && Private(s, run) && BlockPrivate(run)
    requires s.bus.active && RefillUndisturbed(s)
    ensures Private(Serve(s), run)
  {
    if Skips(s) {
      SameHolds(s, Serve(s));
      SameLinesPrivate(s, Serve(s), run);
    } else if s.bus.ongoing.cmd == Flush {
      ServeFlushPrivate(s, run);
    } else {
      assert WellFormed(Pending(s.bus)[0]);
      ServeFetchWord(s, flat);
      FetchPrivate(s, Serve(s), run, flat[Join(TagOf(s.bus.ongoing.addr), IndexOf(s.bus.ongoing.addr), s.bus.offset)]);
    }
  }

  lemma FetchPrivate(s: System, s': System, run: seq<Event>, v: Word)
    requires Structured(s) && Private(s, run) && BlockPrivate(run)
    requires s.bus.active && IsFetch(s.bus.ongoing)
    requires Awaited(s, s') || Delivered(s, s', v)
    ensures Private(s', run)
  {
    FetchKeepsVictims(s, s', run);
    assert forall c: CoreId, t: Tag, i: Index :: Owns(s'.caches, s'.bus, c, t, i) ==> Owns(s.caches, s.bus, c, t, i);
  }

  /** What an attempt adds is accounted for by the attempt itself. */
  lemma QueuedPrivate(s: System, s': System, run: seq<Event>, g: seq<Transaction>, c: CoreId)
    requires Private(s, run) && s'.bus == Append(s.bus, c, g)
    requires forall d: CoreId :: s'.caches[d].tsram == s.caches[d].tsram
    requires forall k :: 0 <= k < |g| ==> UsedFetch(g[k], run) && FreshFlush(s.caches, g[k])
    ensures Private(s', run)
  {
    SameHolds(s, s');
    assert forall d: CoreId, t: Tag, i: Index :: Owns(s'.caches, s'.bus, d, t, i) == Owns(s.caches, s.bus, d, t, i);
    assert forall k :: 0 <= k < |s'.bus.queue| ==>
        s'.bus.queue[k] == (if k < |s.bus.queue| then s.bus.queue[k] else g[k - |s.bus.queue|]);
  }

  lemma AttemptFresh(s: System, e: Event, run: seq<Event>)
    requires !e.BusTick? && Uses(run, e.core, TagOf(e.addr), IndexOf(e.addr))
    requires e.StoreBy? ==> Writes(run, e.core, TagOf(e.addr), IndexOf(e.addr))
    ensures var g := AttemptGroup(s, e); forall k :: 0 <= k < |g| ==> UsedFetch(g[k], run) && FreshFlush(s.caches, g[k])
  {
    AddressFields(e.addr, s.caches[e.core].tsram[IndexOf(e.addr)].tag, IndexOf(e.addr), 0);
  }

  lemma StoreHitPrivate(s: System, c: CoreId, a: Addr, d: Word, run: seq<Event>)
    requires Structured(s) && Private(s, run) && Store(s, c, a, d).1
    requires Uses(run, c, TagOf(a), IndexOf(a)) && Writes(run, c, TagOf(a), IndexOf(a))
    ensures Private(Store(s, c, a, d).0, run)
  {
    var s' := Store(s, c, a, d).0;
    StoreHitHolds(s, c, a, d);
    StoreKeepsVictims(s, c, a, d, run);
    assert forall o: CoreId, t: Tag, i: Index :: Owns(s'.caches, s'.bus, o, t, i) ==>
      Owns(s.caches, s.bus, o, t, i) || (o == c && t == TagOf(a) && i == IndexOf(a));
  }

  lemma AttemptPrivate(s: System, e: Event, run: seq<Event>)
    requires Structured(s) && Private(s, run) && !e.BusTick? && e in run
    ensures Private(Step(s, e), run)
  {
    var s', g := Step(s, e), AttemptGroup(s, e);
    assert Touches(e, e.core, TagOf(e.addr), IndexOf(e.addr));
    assert Uses(run, e.core, TagOf(e.addr), IndexOf(e.addr));
    assert e.StoreBy? ==> Writes(run, e.core, TagOf(e.addr), IndexOf(e.addr));
    if e.StoreBy? && Store(s, e.core, e.addr, e.data).1 {
      StoreHitPrivate(s, e.core, e.addr, e.data, run);
    } else {
      AttemptEffect(s, e);
      AttemptFresh(s, e, run);
      if g == [] {
        SameHolds(s, s');
        SameLinesPrivate(s, s', run);
      } else {
        QueuedPrivate(s, s', run, g, e.core);
      }
    }
  }

  /** A store changes no line of a core that waits. */
  lemma StoreKeepsVictims(s: System, c: CoreId, a: Addr, d: Word, run: seq<Event>)
    requires Structured(s) && Private(s, run) && Store(s, c, a, d).1
    ensures var s' := Store(s, c, a, d).0;
      && (forall k :: 0 <= k < |s'.bus.queue| ==> FreshFlush(s'.caches, s'.bus.queue[k]))
      && (s'.bus.active ==> FreshFlush(s'.caches, s'.bus.ongoing))
  {
    forall k | 0 <= k < |s.bus.queue| && s.bus.queue[k].origid.Core?
      ensures s.bus.queue[k].origid.id != c
    {
    }
  }

  lemma StepPrivate(s: System, e: Event, run: seq<Event>, flat: Ram)
    requires Structured(s) && Coherent(s, flat) && Private(s, run) && BlockPrivate(run) && e in run
    ensures Safe(s, e) && Private(Step(s, e), run)
  {
    if e.BusTick? {
      PrivateSafe(s, run);
      BeginStructured(s);
      BeginCoherent(s, flat);
      if Begin(s).bus.active {
        ServePrivate(Begin(s), run, flat);
      }
    } else {
      AttemptPrivate(s, e, run);
      if e.StoreBy? {
        assert Touches(e, e.core, TagOf(e.addr), IndexOf(e.addr));
        assert Writes(run, e.core, TagOf(e.addr), IndexOf(e.addr));
      }
    }
  }

  /** The guards never fire in a block-private run. */
  lemma {:induction false} PrivateGuarded(s: System, es: seq<Event>, run: seq<Event>, flat: Ram)
    requires Structured(s) && Coherent(s, flat) && Private(s, run) && BlockPrivate(run)
    requires forall e :: e in es ==> e in run
    ensures Guarded(s, es)
    decreases |es|
  {
    if es != [] {
      StepPrivate(s, es[0], run, flat);
      StepStructured(s, es[0]);
      StepCoherent(s, es[0], flat);
      PrivateGuarded(Step(s, es[0]), es[1..], run, FlatStep(s, flat, es[0]));
    }
  }

  lemma StartPrivate(ram: Ram, run: seq<Event>)
    ensures Private(Start(ram), run)
  {
  }

  /** Block-private programs see a flat memory: from power-on, through all misses, write-backs and index conflicts and
      for every interleaving, each load that returns true yields what one array of 2^20 words would hold. */
  lemma PrivateRunsAreFlat(ram: Ram, run: seq<Event>)
    requires BlockPrivate(run)
    ensures LoadsAgree(Start(ram), run, ram)
    ensures SingleWriter(Run(Start(ram), run).caches, Run(Start(ram), run).bus)
  {
    StartStructured(ram);
    StartCoherent(ram);
    StartPrivate(ram, run);
    PrivateGuarded(Start(ram), run, run, ram);
    RunCoherent(Start(ram), run, ram);
  }

  /** One active core is the simplest case. */
  lemma SingleCoreIsFlat(ram: Ram, run: seq<Event>, c: CoreId)
    requires forall e :: e in run && !e.BusTick? ==> e.core == c
    ensures LoadsAgree(Start(ram), run, ram)
  {
    assert BlockPrivate(run);
    PrivateRunsAreFlat(ram, run);
  }
}
