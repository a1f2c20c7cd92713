/** In a block-private run a cache holds what its own core has used last at each index, whatever the other cores do: its
    lines are those of a direct-mapped cache of a core alone. */
module Residence {
  import opened Types
  import opened CacheModel
  import opened SystemModel
  import opened Structure
  import opened Snooping
  import opened Exclusion
  import opened FlatMemory
  import opened PrivateRuns
  import opened Progress

  /** The line at index j is that of the block with this tag, and not Shared if core c stores to the block; or it has
      never been used. */
  predicate Fits(l: Line, r: Option<Tag>, run: seq<Event>, c: CoreId, j: Index) {
    match r
    case None => l.mesi == Invalid
    case Some(t) => Matches(l, t) && Uses(run, c, t, j) && (Writes(run, c, t, j) ==> l.mesi != Shared)
  }

  /** Core c does not wait for a block at index j. */
  predicate NoneFor(b: Bus, c: CoreId, j: Index) {
    && (forall k :: 0 <= k < |b.queue| && FetchBy(b.queue[k], c) ==> IndexOf(b.queue[k].addr) != j)
    && (b.active && FetchBy(b.ongoing, c) ==> IndexOf(b.ongoing.addr) != j)
  }

  lemma IdleNone(s: System, c: CoreId, j: Index)
    requires Structured(s) && s.bus.phase[c] == Idle
    ensures NoneFor(s.bus, c, j)
  {
  }

  lemma ServedNone(s: System, c: CoreId, a: Addr, store: bool, j: Index)
    requires Served(s, c, a, store) && IndexOf(a) != j
    ensures NoneFor(s.bus, c, j)
  {
  }

  lemma BeginNone(s: System, c: CoreId, j: Index)
    requires Structured(s) && NoneFor(s.bus, c, j)
    ensures NoneFor(Begin(s).bus, c, j)
  {
  }

  /** Another core's fetch downgrades the line only if both cores only load from the block. */
  lemma OtherFetchFits(s: System, l: Line, c: CoreId, j: Index, r: Option<Tag>, run: seq<Event>)
    requires Private(s, run) && BlockPrivate(run) && Fits(l, r, run, c, j)
    requires s.bus.active && IsFetch(s.bus.ongoing) && s.bus.ongoing.origid.Core? && s.bus.ongoing.origid != Core(c)
    requires IndexOf(s.bus.ongoing.addr) == j
    ensures Fits(DowngradedLine(l, TagOf(s.bus.ongoing.addr), s.bus.ongoing.cmd, s.bus.offset), r, run, c, j)
  {
    assert UsedFetch(s.bus.ongoing, run);
  }

  lemma FetchFits(s: System, s': System, v: Word, c: CoreId, j: Index, r: Option<Tag>, run: seq<Event>)
    requires Private(s, run) && BlockPrivate(run) && Fits(s.caches[c].tsram[j], r, run, c, j) && NoneFor(s.bus, c, j)
    requires s.bus.active && s.bus.ongoing.origid.Core? && IsFetch(s.bus.ongoing)
    requires Awaited(s, s') || Delivered(s, s', v)
    ensures Fits(s'.caches[c].tsram[j], r, run, c, j)
  {
    if IndexOf(s.bus.ongoing.addr) == j {
      OtherFetchFits(s, s.caches[c].tsram[j], c, j, r, run);
    }
  }

  lemma ServeFits(s: System, c: CoreId, j: Index, r: Option<Tag>, run: seq<Event>)
    requires Structured(s) && SingleWriter(s.caches, s.bus) && EvictionFresh(s) && RefillUndisturbed(s) && s.bus.active
    requires Private(s, run) && BlockPrivate(run) && Fits(s.caches[c].tsram[j], r, run, c, j) && NoneFor(s.bus, c, j)
    ensures Fits(Serve(s).caches[c].tsram[j], r, run, c, j)
  {
    if !Skips(s) {
      var (cs, t) := SnoopAll(s.caches, OnBus(s), s.bus.offset, 0);
      if s.bus.ongoing.cmd == Flush {
        SnoopFlush(s);
        FlushCompleted(s, cs, t, ModifiedSignal(s.caches, s.bus.ongoing));
      } else {
        assert WellFormed(Pending(s.bus)[0]);
        ServeFetch(s);
        FetchFits(s, Serve(s), WordMoved(s, t), c, j, r, run);
      }
    }
  }

  /** An iteration of the bus. */
  lemma TickFits(s: System, c: CoreId, j: Index, r: Option<Tag>, run: seq<Event>, flat: Ram)
    requires Structured(s) && Coherent(s, flat) && Private(s, run) && BlockPrivate(run)
    requires Fits(s.caches[c].tsram[j], r, run, c, j) && NoneFor(s.bus, c, j)
    ensures Fits(Tick(s).caches[c].tsram[j], r, run, c, j)
  {
    PrivateSafe(s, run);
    BeginStructured(s);
    BeginNone(s, c, j);
    BeginExclusive(s);
    if Begin(s).bus.active {
      ServeFits(Begin(s), c, j, r, run);
    }
  }

  /** What the cores do: an attempt leaves the lines of other caches alone, and takes its own at most to Modified. */
  lemma EventFits(s: System, e: Event, c: CoreId, j: Index, r: Option<Tag>, run: seq<Event>)
    requires !e.BusTick? && Fits(s.caches[c].tsram[j], r, run, c, j)
    ensures Fits(Step(s, e).caches[c].tsram[j], r, run, c, j)
  {
  }
}
