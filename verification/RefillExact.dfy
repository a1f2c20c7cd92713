/** A refill over a modified line that meets a lower-numbered owner: what it leaves behind, and exactly when that is
    harmless. */
module RefillExact {
  import opened Types
  import opened CacheModel
  import opened SystemModel
  import opened Structure
  import opened Snooping
  import opened Exclusion
  import opened FlatMemory
  import opened CleanRuns
  import opened EvictionExact

  // ----- one word, once the line of the requester has the new tag -----

  /** A refill of a block that the lower-numbered cache o owns, into a line that has its tag already and is modified. */
  predicate Disturbed(s: System, o: CoreId) {
    && s.bus.active && s.bus.ongoing.origid.Core? && s.bus.ongoing.originalCaller == s.bus.ongoing.origid
    && IsFetch(s.bus.ongoing)
    && var r, t, i := s.bus.ongoing.origid.id, TagOf(s.bus.ongoing.addr), IndexOf(s.bus.ongoing.addr);
       && o < r && s.caches[o].tsram[i] == s.caches[r].tsram[i] == Line(t, Modified)
       && forall c: CoreId :: c != o && c != r ==> !Matches(s.caches[c].tsram[i], t)
  }

  lemma {:induction false} SeenDisturbed(cs: Caches, t: Transaction, o: CoreId, r: CoreId, c: nat)
    requires c <= 4 && IsFetch(t) && t.originalCaller == Core(r) && o < r
    requires var i := IndexOf(t.addr); cs[o].tsram[i] == cs[r].tsram[i] == Line(TagOf(t.addr), Modified)
    requires forall d: CoreId :: d != o && d != r ==> !Matches(cs[d].tsram[IndexOf(t.addr)], TagOf(t.addr))
    ensures Seen(cs, t, c) == if c <= o then t else if c <= r then From(cs, t, o) else From(cs, t, r)
  {
    if c > 0 {
      SeenDisturbed(cs, t, o, r, c - 1);
    }
  }

  /** The owner gives its line up with the last word. */
  function OwnerAfter(c: CacheState, i: Index, t: Tag, cmd: Cmd, off: Offset): CacheState {
    if off < 3 then c else c.(tsram := c.tsram[i := Line(t, if cmd == BusRdX then Invalid else Shared)])
  }

  /** The requester overrides the word of the owner with its own old one, and takes it for a write-back of its own. */
  lemma SnoopDisturbed(s: System, o: CoreId)
    requires Disturbed(s, o)
    ensures var r, t, i := s.bus.ongoing.origid.id, TagOf(s.bus.ongoing.addr), IndexOf(s.bus.ongoing.addr);
      var (cs, x) := SnoopAll(s.caches, OnBus(s), s.bus.offset, 0);
      && x == OnBus(s).(cmd := Flush, origid := Core(r), data := s.caches[r].dram[Slot(i, s.bus.offset)])
      && cs == s.caches[o := OwnerAfter(s.caches[o], i, t, s.bus.ongoing.cmd, s.bus.offset)]
  {
    var u, off := OnBus(s), s.bus.offset;
    var r, t, i := s.bus.ongoing.origid.id, TagOf(s.bus.ongoing.addr), IndexOf(s.bus.ongoing.addr);
    OnBusFields(s);
    SnoopEach(s.caches, u, off, s.caches, 0);
    SeenDisturbed(s.caches, u, o, r, 4);
    forall c: CoreId
      ensures SnoopAll(s.caches, u, off, 0).0[c] ==
        if c == o then OwnerAfter(s.caches[o], i, t, s.bus.ongoing.cmd, off) else s.caches[c]
    {
      SeenDisturbed(s.caches, u, o, r, c);
      if c == r {
        FlushLeaves(s.caches[r], r, Seen(s.caches, u, r), off);
      }
    }
  }

  /** What an iteration does then: the old word of the requester goes to memory, and nothing reaches its line. */
  ghost predicate Echoed(s: System, s': System, o: CoreId)
    requires s.bus.ongoing.origid.Core?
  {
    var r, t, i, k := s.bus.ongoing.origid.id, TagOf(s.bus.ongoing.addr), IndexOf(s.bus.ongoing.addr), s.bus.offset;
    && s'.bus == Advance(s.bus, if k == 3 then 3 else k + 1, k == 3)
    && s'.mem.ram == s.mem.ram[Join(t, i, k) := s.caches[r].dram[Slot(i, k)]]
    && s'.caches == s.caches[o := OwnerAfter(s.caches[o], i, t, s.bus.ongoing.cmd, k)]
  }

  lemma EchoCompleted(s: System, cs: Caches, t: Transaction, direct: bool)
    requires s.bus.ongoing.origid.Core? && t.cmd == Flush && t.origid == s.bus.ongoing.origid
    requires MemoryReady(s.mem, direct)
    ensures var s' := Complete(s, cs, t, direct);
      && s'.bus == Advance(s.bus, if s.bus.offset == 3 then 3 else s.bus.offset + 1, s.bus.offset == 3)
      && s'.mem.ram == s.mem.ram[t.addr := t.data] && s'.caches == cs
  {
    var r := s.bus.ongoing.origid.id;
    assert cs[r := cs[r]] == cs;
  }

  lemma ServeDisturbed(s: System, o: CoreId)
    requires Disturbed(s, o) && Lockstep(s) && s.bus.offset > 0 && !Skips(s)
    ensures Echoed(s, Serve(s), o)
  {
    var (cs, t) := SnoopAll(s.caches, OnBus(s), s.bus.offset, 0);
    SnoopDisturbed(s, o);
    OnBusFields(s);
    EchoCompleted(s, cs, t, ModifiedSignal(s.caches, s.bus.ongoing));
  }

  // ----- the whole refill -----

  /** The words of the line: the first one is the new one as soon as it has arrived, the others stay the old ones. */
  predicate OldWords(s: System, r: CoreId, t: Tag, i: Index, flat: Ram, was: Dram) {
    forall w: Offset :: s.caches[r].dram[Slot(i, w)] ==
      if w == 0 && (!s.bus.active || s.bus.offset > 0) then flat[Join(t, i, 0)] else was[Slot(i, w)]
  }

  /** A refill u over a modified line with the words `was`, of a block that cache o owns. */
  ghost predicate Meeting(s: System, u: Transaction, o: CoreId, flat: Ram, was: Dram) {
    && s.bus.active && s.bus.ongoing == u && IsFetch(u) && u.origid.Core? && u.originalCaller == u.origid
    && var r, t, i := u.origid.id, TagOf(u.addr), IndexOf(u.addr);
       && o < r && s.caches[o].tsram[i] == Line(t, Modified) && s.caches[r].tsram[i].mesi == Modified
       && OldWords(s, r, t, i, flat, was)
       && if s.bus.offset == 0 then Coherent(s, flat)
          else s.caches[r].tsram[i].tag == t && SingleWriter(s.caches, s.bus) && Current(s.caches, s.bus, flat)
               && Backed(s.caches, s.bus, s.mem.ram, flat)
  }

  /** The requester has kept its old words, all but the first, as a modified line of the new block. */
  ghost predicate Met(s: System, u: Transaction, o: CoreId, flat: Ram, was: Dram) {
    && !s.bus.active && s.bus.ongoing == u && IsFetch(u) && u.origid.Core?
    && var r, t, i := u.origid.id, TagOf(u.addr), IndexOf(u.addr);
       && o != r && s.caches[o].tsram[i] == Line(t, if u.cmd == BusRdX then Invalid else Shared)
       && s.caches[r].tsram[i] == Line(t, Modified) && OldWords(s, r, t, i, flat, was)
       && (forall c: CoreId :: c != o && c != r ==> !Matches(s.caches[c].tsram[i], t))
       && (forall c: CoreId, d: CoreId, v: Tag, j: Index ::
             c != d && (v != t || j != i) && Holds(s.caches, s.bus, c, v, j) && Holds(s.caches, s.bus, d, v, j) ==>
               s.caches[c].tsram[j].mesi == Shared)
       && (forall c: CoreId, v: Tag, j: Index, w: Offset :: (c != r || j != i) && Holds(s.caches, s.bus, c, v, j) ==>
             s.caches[c].dram[Slot(j, w)] == flat[Join(v, j, w)])
       && Backed(s.caches, s.bus, s.mem.ram, flat)
  }

  lemma AloneAtFirst(s: System, u: Transaction, o: CoreId, flat: Ram, was: Dram)
    requires Meeting(s, u, o, flat, was)
    ensures var r, t, i := u.origid.id, TagOf(u.addr), IndexOf(u.addr);
      && Owns(s.caches, s.bus, o, t, i) && OtherOwner(s, o)
      && (forall c: CoreId :: c != o && c != r ==> !Matches(s.caches[c].tsram[i], t))
      && (s.bus.offset == 0 ==> s.caches[r].tsram[i].tag != t)
  {
    var r, t, i := u.origid.id, TagOf(u.addr), IndexOf(u.addr);
    assert Holds(s.caches, s.bus, o, t, i);
    forall c: CoreId | c != o && (c != r || s.bus.offset == 0)
      ensures !Matches(s.caches[c].tsram[i], t)
    {
      assert !Holds(s.caches, s.bus, c, t, i) && !Refilling(s.bus, c, i);
    }
  }

  /** The first word still comes from the owner. */
  lemma FirstMeets(s: System, u: Transaction, o: CoreId, flat: Ram, was: Dram)
    requires Structured(s) && Meeting(s, u, o, flat, was) && s.bus.offset == 0 && !Skips(s)
    ensures Meeting(Serve(s), u, o, flat, was)
  {
    var s', v := Serve(s), flat[Join(TagOf(u.addr), IndexOf(u.addr), 0)];
    AloneAtFirst(s, u, o, flat, was);
    ServeFetch(s);
    WordMovedIsFlat(s, SnoopAll(s.caches, OnBus(s), s.bus.offset, 0).1, flat);
    if Awaited(s, s') {
      AwaitedExclusive(s, s');
      AwaitedCoherent(s, s', flat);
    } else {
      DeliveredExclusive(s, s', v);
      DeliveredCurrent(s, s', flat);
      DeliveredBacked(s, s', flat);
    }
  }

  lemma EchoHolds(s: System, s': System, u: Transaction, o: CoreId, flat: Ram, was: Dram)
    requires Meeting(s, u, o, flat, was) && s.bus.offset > 0 && Echoed(s, s', o)
    ensures var r, t, i := u.origid.id, TagOf(u.addr), IndexOf(u.addr);
      && (forall c: CoreId, v: Tag, j: Index :: v != t || j != i ==>
            Holds(s'.caches, s'.bus, c, v, j) == Holds(s.caches, s.bus, c, v, j))
      && (forall v: Tag, j: Index :: v != t || j != i ==>
            Owned(s'.caches, s'.bus, v, j) == Owned(s.caches, s.bus, v, j))
  {
    var r, t, i := u.origid.id, TagOf(u.addr), IndexOf(u.addr);
    forall v: Tag, j: Index | v != t || j != i
      ensures Owned(s'.caches, s'.bus, v, j) == Owned(s.caches, s.bus, v, j)
    {
      assert forall c: CoreId :: Owns(s'.caches, s'.bus, c, v, j) == Owns(s.caches, s.bus, c, v, j);
    }
  }

  lemma EchoMemory(s: System, s': System, o: CoreId)
    requires s.bus.ongoing.origid.Core? && Echoed(s, s', o)
    ensures forall v: Tag, j: Index, w: Offset :: v != TagOf(s.bus.ongoing.addr) || j != IndexOf(s.bus.ongoing.addr) ==>
      s'.mem.ram[Join(v, j, w)] == s.mem.ram[Join(v, j, w)]
  {
    var t, i := TagOf(s.bus.ongoing.addr), IndexOf(s.bus.ongoing.addr);
    forall v: Tag, j: Index, w: Offset | Join(v, j, w) == Join(t, i, s.bus.offset)
      ensures v == t && j == i
    {
      JoinDiffers(v, j, w, t, i, s.bus.offset);
    }
  }

  /** The words in the middle leave everything as it is but the block in the main memory, which its owner covers. */
  lemma EchoMeets(s: System, s': System, u: Transaction, o: CoreId, flat: Ram, was: Dram)
    requires Meeting(s, u, o, flat, was) && 0 < s.bus.offset < 3 && Echoed(s, s', o)
    ensures Meeting(s', u, o, flat, was)
  {
    var t, i := TagOf(u.addr), IndexOf(u.addr);
    EchoHolds(s, s', u, o, flat, was);
    EchoMemory(s, s', o);
    assert s'.caches == s.caches;
    assert forall c: CoreId :: Holds(s'.caches, s'.bus, c, t, i) == Holds(s.caches, s.bus, c, t, i);
    assert Owns(s'.caches, s'.bus, o, t, i);
  }

  lemma EchoEnds(s: System, s': System, u: Transaction, o: CoreId, flat: Ram, was: Dram)
    requires Meeting(s, u, o, flat, was) && s.bus.offset == 3 && Echoed(s, s', o)
    ensures Met(s', u, o, flat, was)
  {
    var r, t, i := u.origid.id, TagOf(u.addr), IndexOf(u.addr);
    AloneAtFirst(s, u, o, flat, was);
    EchoHolds(s, s', u, o, flat, was);
    EchoMemory(s, s', o);
    assert Owns(s'.caches, s'.bus, r, t, i);
  }

  lemma TickMeets(s: System, u: Transaction, o: CoreId, flat: Ram, was: Dram)
    requires Structured(s) && Meeting(s, u, o, flat, was)
    ensures if Tick(s).bus.active then Meeting(Tick(s), u, o, flat, was) else Met(Tick(s), u, o, flat, was)
  {
    var s' := Tick(s);
    assert Retired(s.bus) == s.bus.phase;
    assert Begin(s) == s && s' == Serve(s);
    if Skips(s) {
      SkipMeets(s, u, o, flat, was);
    } else if s.bus.offset == 0 {
      FirstMeets(s, u, o, flat, was);
    } else {
      AloneAtFirst(s, u, o, flat, was);
      ServeDisturbed(s, o);
      if s.bus.offset < 3 {
        EchoMeets(s, s', u, o, flat, was);
      } else {
        EchoEnds(s, s', u, o, flat, was);
      }
    }
  }

  lemma SkipMeets(s: System, u: Transaction, o: CoreId, flat: Ram, was: Dram)
    requires Meeting(s, u, o, flat, was)
    ensures Meeting(s.(bus := s.bus.(firstShared := false)), u, o, flat, was)
  {
    var s' := s.(bus := s.bus.(firstShared := false));
    SameHolds(s, s');
    if s.bus.offset == 0 {
      SkipCoherent(s, flat);
    }
    assert SingleWriter(s'.caches, s'.bus);
  }

  /** Meanwhile the other cores go on; a store must not hit the word that the requester has got. */
  lemma StoreMeets(s: System, c: CoreId, a: Addr, d: Word, u: Transaction, o: CoreId, flat: Ram, was: Dram)
    requires Structured(s) && Meeting(s, u, o, flat, was) && Store(s, c, a, d).1 && StoreInTime(s, a)
    ensures Meeting(Store(s, c, a, d).0, u, o, flat[a := d], was)
  {
    StoreExclusive(s, c, a, d);
    StoreHitHolds(s, c, a, d);
    FlatUpdate(flat, a, d);
    if s.bus.offset == 0 {
      StoreHitCoherent(s, c, a, d, flat);
    } else {
      StoreHitCopies(s, c, a, d, flat);
    }
  }

  lemma AttemptMeets(s: System, e: Event, u: Transaction, o: CoreId, flat: Ram, was: Dram)
    requires Structured(s) && Meeting(s, u, o, flat, was) && !e.BusTick? && StoresInTime(s, [e])
    ensures Meeting(Step(s, e), u, o, FlatStep(s, flat, e), was)
  {
    if e.StoreBy? && Store(s, e.core, e.addr, e.data).1 {
      StoreMeets(s, e.core, e.addr, e.data, u, o, flat, was);
    } else {
      var s' := Step(s, e);
      AttemptEffect(s, e);
      SameHolds(s, s');
      if s.bus.offset == 0 {
        AttemptCoherent(s, e, flat);
      }
      assert SingleWriter(s'.caches, s'.bus);
    }
  }

  lemma {:induction false} RunMeets(s: System, es: seq<Event>, u: Transaction, o: CoreId, flat: Ram, was: Dram)
    requires Structured(s) && Meeting(s, u, o, flat, was) && Ends(s, es) && StoresInTime(s, es)
    ensures Met(Run(s, es), u, o, FlatRun(s, es, flat), was)
    decreases |es|
  {
    StepStructured(s, es[0]);
    if es[0].BusTick? {
      TickMeets(s, u, o, flat, was);
    } else {
      AttemptMeets(s, es[0], u, o, flat, was);
    }
    if Step(s, es[0]).bus.active {
      RunMeets(Step(s, es[0]), es[1..], u, o, FlatStep(s, flat, es[0]), was);
    }
  }

  /** What is left behind is coherent exactly if the owner has given its line up and the old words are right. */
  lemma MetExact(s: System, u: Transaction, o: CoreId, flat: Ram, was: Dram)
    requires Met(s, u, o, flat, was)
    ensures var t, i := TagOf(u.addr), IndexOf(u.addr);
      Coherent(s, flat) <==> u.cmd == BusRdX && forall w: Offset :: w > 0 ==> was[Slot(i, w)] == flat[Join(t, i, w)]
  {
    var r, t, i := u.origid.id, TagOf(u.addr), IndexOf(u.addr);
    assert Owns(s.caches, s.bus, r, t, i);
    if u.cmd == BusRd {
      assert Holds(s.caches, s.bus, o, t, i);
    } else if Coherent(s, flat) {
      forall w: Offset | w > 0
        ensures was[Slot(i, w)] == flat[Join(t, i, w)]
      {
        assert s.caches[r].dram[Slot(i, w)] == flat[Join(t, i, w)];
      }
    } else if forall w: Offset :: w > 0 ==> was[Slot(i, w)] == flat[Join(t, i, w)] {
      assert SingleWriter(s.caches, s.bus);
      assert Current(s.caches, s.bus, flat);
    }
  }

  /** A refill over a modified line that finds the block modified in a lower-numbered cache, from before its first word
      to its end, whatever the cores do meanwhile, as long as no store hits a word that has already been moved.  The
      requester is left with a modified line that holds the first word of the new block and the last three of the old
      one, and the system is coherent if and only if the fetch was one for ownership and these three words are those of
      the block. */
  lemma RefillExact(s: System, es: seq<Event>, flat: Ram)
    requires Structured(s) && Coherent(s, flat) && s.bus.active && s.bus.offset == 0 && !RefillUndisturbed(s)
    requires Ends(s, es) && StoresInTime(s, es)
    ensures var u, s', flat' := s.bus.ongoing, Run(s, es), FlatRun(s, es, flat);
      var r, t, i := u.origid.id, TagOf(u.addr), IndexOf(u.addr);
      && s'.caches[r].tsram[i] == Line(t, Modified)
      && (forall w: Offset :: s'.caches[r].dram[Slot(i, w)] ==
            if w == 0 then flat'[Join(t, i, 0)] else s.caches[r].dram[Slot(i, w)])
      && (Coherent(s', flat') <==>
            u.cmd == BusRdX && forall w: Offset :: w > 0 ==> s.caches[r].dram[Slot(i, w)] == flat'[Join(t, i, w)])
  {
    var u := s.bus.ongoing;
    var r, t, i := u.origid.id, TagOf(u.addr), IndexOf(u.addr);
    var o: nat :| o < r && s.caches[o].tsram[i] == Line(t, Modified);
    RunMeets(s, es, u, o, flat, s.caches[r].dram);
    MetExact(Run(s, es), u, o, FlatRun(s, es, flat), s.caches[r].dram);
  }

  // ----- the guard fails before the first word, or not at all -----

  /** Once the first word has been moved, no lower-numbered cache can become an owner. */
  ghost predicate Settled(s: System) {
    s.bus.active && IsFetch(s.bus.ongoing) && s.bus.ongoing.origid.Core? && s.bus.offset > 0 ==>
      var r, a := s.bus.ongoing.origid.id, s.bus.ongoing.addr;
      Dirty(s.caches[r], a) ==>
        forall c: CoreId :: c < r && Matches(s.caches[c].tsram[IndexOf(a)], TagOf(a)) ==>
          s.caches[c].tsram[IndexOf(a)].mesi == Shared
  }

  lemma FetchSettled(s: System, s': System, v: Word)
    requires s.bus.active && IsFetch(s.bus.ongoing) && s.bus.ongoing.origid.Core? && RefillUndisturbed(s) && Settled(s)
    requires Awaited(s, s') || Delivered(s, s', v)
    ensures Settled(s')
  {
  }

  lemma ServeSettled(s: System)
    requires Structured(s) && SingleWriter(s.caches, s.bus) && s.bus.active && RefillUndisturbed(s) && Settled(s)
    ensures Settled(Serve(s))
  {
    if IsFetch(s.bus.ongoing) && !Skips(s) {
      ServeFetch(s);
      FetchSettled(s, Serve(s), WordMoved(s, SnoopAll(s.caches, OnBus(s), s.bus.offset, 0).1));
    }
  }

  lemma StepSettled(s: System, e: Event, flat: Ram)
    requires Structured(s) && Coherent(s, flat) && Settled(s) && Safe(s, e)
    ensures Settled(Step(s, e))
  {
    if e.BusTick? {
      BeginStructured(s);
      BeginExclusive(s);
      if Begin(s).bus.active {
        ServeSettled(Begin(s));
      }
    } else {
      AttemptEffect(s, e);
    }
  }

  /** So the guard of the refills fails for the first time before any word has been moved. */
  lemma {:induction false} FirstMeeting(s: System, es: seq<Event>, flat: Ram)
    requires Structured(s) && Coherent(s, flat) && Settled(s) && Guarded(s, es)
    requires !RefillUndisturbed(Begin(Run(s, es)))
    ensures Begin(Run(s, es)).bus.offset == 0
    decreases |es|
  {
    if es != [] {
      StepStructured(s, es[0]);
      StepCoherent(s, es[0], flat);
      StepSettled(s, es[0], flat);
      FirstMeeting(Step(s, es[0]), es[1..], FlatStep(s, flat, es[0]));
    }
  }

  /** In every run from power-on that has been guarded until then, the conditions of the theorem above are met. */
  lemma MeetingReached(ram: Ram, past: seq<Event>)
    requires Guarded(Start(ram), past)
    requires var b := Begin(Run(Start(ram), past)); EvictionFresh(b) && !RefillUndisturbed(b)
    ensures var b := Begin(Run(Start(ram), past));
      Structured(b) && Coherent(b, FlatRun(Start(ram), past, ram)) && b.bus.active && b.bus.offset == 0
  {
    var s, flat := Run(Start(ram), past), FlatRun(Start(ram), past, ram);
    StartStructured(ram);
    StartCoherent(ram);
    RunCoherent(Start(ram), past, ram);
    FirstMeeting(Start(ram), past, ram);
    BeginStructured(s);
    BeginCoherent(s, flat);
  }
}
