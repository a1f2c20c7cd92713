/** The memory system as its cores see it: one flat memory of 2^20 words. */
module FlatMemory {
  import opened Types
  import opened CacheModel
  import opened SystemModel
  import opened Structure
  import opened Snooping
  import opened Exclusion

  /** Every readable copy is up to date. */
  ghost predicate Current(cs: Caches, b: Bus, flat: Ram) {
    forall c: CoreId, t: Tag, i: Index, w: Offset ::
      Holds(cs, b, c, t, i) ==> cs[c].dram[Slot(i, w)] == flat[Join(t, i, w)]
  }

  ghost predicate Owned(cs: Caches, b: Bus, t: Tag, i: Index) {
    exists c: CoreId :: Owns(cs, b, c, t, i)
  }

  /** The main memory is up to date wherever no cache has the block modified. */
  ghost predicate Backed(cs: Caches, b: Bus, ram: Ram, flat: Ram) {
    forall t: Tag, i: Index, w: Offset :: Owned(cs, b, t, i) || ram[Join(t, i, w)] == flat[Join(t, i, w)]
  }

  /** The words that the transaction on the bus has already moved are up to date at both ends. */
  ghost predicate Moved(s: System, flat: Ram) {
    s.bus.active && s.bus.ongoing.origid.Core? ==>
      var r, t, i := s.bus.ongoing.origid.id, TagOf(s.bus.ongoing.addr), IndexOf(s.bus.ongoing.addr);
      && (forall w: Offset :: w < s.bus.offset ==> s.mem.ram[Join(t, i, w)] == flat[Join(t, i, w)])
      && (IsFetch(s.bus.ongoing) ==>
            && (s.bus.offset > 0 ==> s.caches[r].tsram[i].tag == t)
            && (forall w: Offset :: w < s.bus.offset ==> s.caches[r].dram[Slot(i, w)] == flat[Join(t, i, w)]))
  }

  ghost predicate LineBacked(cs: Caches, ram: Ram, flat: Ram, c: CoreId, i: Index) {
    cs[c].tsram[i].mesi == Modified ==>
      forall w: Offset :: ram[Join(cs[c].tsram[i].tag, i, w)] == flat[Join(cs[c].tsram[i].tag, i, w)]
  }

  /** From the end of a write-back until its refill replaces the tag, the modified line is also in the main memory. */
  ghost predicate WrittenBack(s: System, flat: Ram) {
    (Finished(s.bus) && s.bus.ongoing.cmd == Flush)
    || (s.bus.active && IsFetch(s.bus.ongoing) && s.bus.ongoing.origid.Core? && s.bus.offset == 0) ==>
      LineBacked(s.caches, s.mem.ram, flat, s.bus.ongoing.origid.id, IndexOf(s.bus.ongoing.addr))
  }

  ghost predicate Coherent(s: System, flat: Ram) {
    && SingleWriter(s.caches, s.bus) && EvictionFresh(s)
    && Current(s.caches, s.bus, flat) && Backed(s.caches, s.bus, s.mem.ram, flat)
    && Moved(s, flat) && WrittenBack(s, flat)
  }

  lemma StartCoherent(ram: Ram)
    ensures Coherent(Start(ram), ram)
  {
  }

  // ----- the first half of an iteration -----

  lemma BeginHolds(s: System)
    requires Structured(s)
    ensures forall c: CoreId, t: Tag, i: Index ::
        Holds(s.caches, BeginBus(s.bus), c, t, i) == Holds(s.caches, s.bus, c, t, i)
  {
    if s.bus.active {
      assert BeginBus(s.bus).ongoing == s.bus.ongoing && BeginBus(s.bus).offset == s.bus.offset;
    } else {
      assert forall c: CoreId, i: Index :: !Refilling(s.bus, c, i) && !Refilling(BeginBus(s.bus), c, i);
    }
  }

  /** The fetch taken from the queue replaces a line that is clean or has just been written back. */
  lemma BeginWrittenBack(s: System, flat: Ram)
    requires Structured(s) && WrittenBack(s, flat)
    ensures WrittenBack(Begin(s), flat)
  {
    var b, p := s.bus, Pending(s.bus);
    var b' := BeginBus(b);
    if !b.active && b'.active && IsFetch(b'.ongoing) {
      assert b.queue[0] == p[|p| - |b.queue|];
      if Finished(b) {
        assert Follows(p[0], p[1], 1);
      }
    }
  }

  lemma BeginCoherent(s: System, flat: Ram)
    requires Structured(s) && Coherent(s, flat) && EvictionFresh(Begin(s))
    ensures Coherent(Begin(s), flat)
  {
    BeginHolds(s);
    BeginWrittenBack(s, flat);
    assert forall c: CoreId, t: Tag, i: Index ::
        Owns(s.caches, BeginBus(s.bus), c, t, i) == Owns(s.caches, s.bus, c, t, i);
    assert forall t: Tag, i: Index :: Owned(s.caches, BeginBus(s.bus), t, i) == Owned(s.caches, s.bus, t, i);
    BeginExclusive(s);
  }

  // ----- the second half: a write-back -----

  lemma FlushHolds(s: System, s': System)
    requires s.bus.ongoing.cmd == Flush && s'.bus.ongoing == s.bus.ongoing
    requires forall c: CoreId :: s'.caches[c].tsram == s.caches[c].tsram
    ensures forall c: CoreId, t: Tag, i: Index :: Holds(s'.caches, s'.bus, c, t, i) == Holds(s.caches, s.bus, c, t, i)
    ensures forall t: Tag, i: Index :: Owned(s'.caches, s'.bus, t, i) == Owned(s.caches, s.bus, t, i)
  {
    forall t: Tag, i: Index
      ensures Owned(s'.caches, s'.bus, t, i) == Owned(s.caches, s.bus, t, i)
    {
      assert forall c: CoreId :: Owns(s'.caches, s'.bus, c, t, i) == Owns(s.caches, s.bus, c, t, i);
    }
  }

  lemma FlushCoherent(s: System, cs: Caches, t: Transaction, direct: bool, flat: Ram)
    requires s.bus.active && s.bus.ongoing.origid.Core? && s.bus.ongoing.cmd == Flush && Coherent(s, flat)
    requires forall c: CoreId :: cs[c].dram == s.caches[c].dram && cs[c].tsram == s.caches[c].tsram
    requires t == OnBus(s).(
      data := s.caches[s.bus.ongoing.origid.id].dram[Slot(IndexOf(s.bus.ongoing.addr), s.bus.offset)])
    ensures Coherent(Complete(s, cs, t, direct), flat)
  {
    var s', r, tag, i := Complete(s, cs, t, direct), s.bus.ongoing.origid.id, TagOf(s.bus.ongoing.addr),
        IndexOf(s.bus.ongoing.addr);
    FlushCompleted(s, cs, t, direct);
    FlushHolds(s, s');
    OnBusFields(s);
    assert Holds(s.caches, s.bus, r, tag, i);
    assert t.data == flat[Join(tag, i, s.bus.offset)];
  }

  lemma ServeFlushCoherent(s: System, flat: Ram)
    requires Structured(s) && s.bus.active && s.bus.ongoing.cmd == Flush && !Skips(s) && Coherent(s, flat)
    ensures Coherent(Serve(s), flat)
  {
    var (cs, t) := SnoopAll(s.caches, OnBus(s), s.bus.offset, 0);
    SnoopFlush(s);
    FlushCoherent(s, cs, t, ModifiedSignal(s.caches, s.bus.ongoing), flat);
  }

  // ----- the second half: a fetch -----

  /** The word that moves is the one in the flat memory, whether it comes from the owner or from the main memory. */
  lemma WordMovedIsFlat(s: System, t: Transaction, flat: Ram)
    requires s.bus.active && s.bus.ongoing.origid.Core? && IsFetch(s.bus.ongoing) && Coherent(s, flat) && Fetched(s, t)
    ensures WordMoved(s, t) == flat[Join(TagOf(s.bus.ongoing.addr), IndexOf(s.bus.ongoing.addr), s.bus.offset)]
  {
    var r, tag, i := s.bus.ongoing.origid.id, TagOf(s.bus.ongoing.addr), IndexOf(s.bus.ongoing.addr);
    OnBusFields(s);
    if o: CoreId :| OtherOwner(s, o) && t == SuppliedBy(s, o) {
      assert Holds(s.caches, s.bus, o, tag, i);
    } else if Owned(s.caches, s.bus, tag, i) {
      var c: CoreId :| Owns(s.caches, s.bus, c, tag, i);
      assert c == r || OtherOwner(s, c);
    }
  }

  lemma ServeFetchWord(s: System, flat: Ram)
    requires Structured(s) && s.bus.active && IsFetch(s.bus.ongoing) && !Skips(s)
    requires Coherent(s, flat) && RefillUndisturbed(s)
    ensures Awaited(s, Serve(s)) ||
      Delivered(s, Serve(s), flat[Join(TagOf(s.bus.ongoing.addr), IndexOf(s.bus.ongoing.addr), s.bus.offset)])
  {
    ServeFetch(s);
    WordMovedIsFlat(s, SnoopAll(s.caches, OnBus(s), s.bus.offset, 0).1, flat);
  }

  lemma AwaitedCoherent(s: System, s': System, flat: Ram)
    requires s.bus.active && s.bus.ongoing.origid.Core? && IsFetch(s.bus.ongoing)
    requires Coherent(s, flat) && Awaited(s, s') && SingleWriter(s'.caches, s'.bus) && s.bus.offset == 0
    ensures Coherent(s', flat)
  {
    assert forall c: CoreId, t: Tag, i: Index :: Holds(s'.caches, s'.bus, c, t, i) ==> Holds(s.caches, s.bus, c, t, i);
    assert forall c: CoreId :: s'.caches[c].dram == s.caches[c].dram;
    forall t: Tag, i: Index | Owned(s.caches, s.bus, t, i)
      ensures Owned(s'.caches, s'.bus, t, i)
    {
      var c: CoreId :| Owns(s.caches, s.bus, c, t, i);
      assert Owns(s'.caches, s'.bus, c, t, i);
    }
  }

  lemma DeliveredCurrent(s: System, s': System, flat: Ram)
    requires s.bus.active && s.bus.ongoing.origid.Core? && IsFetch(s.bus.ongoing) && Coherent(s, flat)
    requires Delivered(s, s', flat[Join(TagOf(s.bus.ongoing.addr), IndexOf(s.bus.ongoing.addr), s.bus.offset)])
    ensures Current(s'.caches, s'.bus, flat) && Moved(s', flat)
  {
    var r, tag, i := s.bus.ongoing.origid.id, TagOf(s.bus.ongoing.addr), IndexOf(s.bus.ongoing.addr);
    forall c: CoreId, t: Tag, j: Index, w: Offset | Holds(s'.caches, s'.bus, c, t, j)
      ensures s'.caches[c].dram[Slot(j, w)] == flat[Join(t, j, w)]
    {
      if c != r || j != i {
        assert Holds(s.caches, s.bus, c, t, j);
      } else {
        assert s.bus.offset == 3 && t == tag;
      }
    }
  }

  lemma DeliveredBacked(s: System, s': System, flat: Ram)
    requires s.bus.active && s.bus.ongoing.origid.Core? && IsFetch(s.bus.ongoing) && Coherent(s, flat)
    requires Delivered(s, s', flat[Join(TagOf(s.bus.ongoing.addr), IndexOf(s.bus.ongoing.addr), s.bus.offset)])
    ensures Backed(s'.caches, s'.bus, s'.mem.ram, flat)
  {
    var r, tag, i := s.bus.ongoing.origid.id, TagOf(s.bus.ongoing.addr), IndexOf(s.bus.ongoing.addr);
    forall t: Tag, j: Index, w: Offset | !Owned(s'.caches, s'.bus, t, j)
      ensures s'.mem.ram[Join(t, j, w)] == flat[Join(t, j, w)]
    {
      if Owned(s.caches, s.bus, t, j) {
        var c: CoreId :| Owns(s.caches, s.bus, c, t, j);
        assert !Owns(s'.caches, s'.bus, c, t, j);
        if c == r {
          assert j == i && LineBacked(s.caches, s.mem.ram, flat, r, i);
        } else {
          assert t == tag && j == i && s.bus.offset == 3;
        }
      }
    }
  }

  /** The memory keeps the bus waiting only before the first word. */
  lemma AwaitedAtStart(s: System)
    requires Structured(s) && s.bus.active && IsFetch(s.bus.ongoing) && !Skips(s) && Awaited(s, Serve(s))
    ensures s.bus.offset == 0
  {
    ServeStructured(s);
  }

  lemma FetchCoherent(s: System, s': System, flat: Ram)
    requires s.bus.active && s.bus.ongoing.origid.Core? && IsFetch(s.bus.ongoing) && Coherent(s, flat)
    requires SingleWriter(s'.caches, s'.bus)
    requires (Awaited(s, s') && s.bus.offset == 0) ||
      Delivered(s, s', flat[Join(TagOf(s.bus.ongoing.addr), IndexOf(s.bus.ongoing.addr), s.bus.offset)])
    ensures Coherent(s', flat)
  {
    if Awaited(s, s') && s.bus.offset == 0 {
      AwaitedCoherent(s, s', flat);
    } else {
      DeliveredCurrent(s, s', flat);
      DeliveredBacked(s, s', flat);
    }
  }

  lemma ServeFetchCoherent(s: System, flat: Ram)
    requires Structured(s) && s.bus.active && IsFetch(s.bus.ongoing) && !Skips(s)
    requires Coherent(s, flat) && RefillUndisturbed(s)
    ensures Coherent(Serve(s), flat)
  {
    ServeExclusive(s);
    ServeFetchWord(s, flat);
    if Awaited(s, Serve(s)) {
      AwaitedAtStart(s);
    }
    FetchCoherent(s, Serve(s), flat);
  }

  lemma TickCoherent(s: System, flat: Ram)
    requires Structured(s) && Coherent(s, flat) && BusSafe(s)
    ensures Coherent(Tick(s), flat)
  {
    var b := Begin(s);
    BeginStructured(s);
    BeginCoherent(s, flat);
    if b.bus.active {
      assert WellFormed(Pending(b.bus)[0]);
      if Skips(b) {
        SkipCoherent(b, flat);
      } else if b.bus.ongoing.cmd == Flush {
        ServeFlushCoherent(b, flat);
      } else {
        ServeFetchCoherent(b, flat);
      }
    }
  }

  lemma SkipCoherent(s: System, flat: Ram)
    requires Coherent(s, flat)
    ensures Coherent(s.(bus := s.bus.(firstShared := false)), flat)
  {
    SameHolds(s, s.(bus := s.bus.(firstShared := false)));
    assert SingleWriter(s.caches, s.bus.(firstShared := false));
  }

  // ----- whole transfers -----

  /** A fetch that is over has brought the block as the cores see it, from its owner or from the main memory: the four
      words at the requester and in the main memory are those of the flat memory. */
  lemma TransferOutcome(s: System, flat: Ram, w: Offset)
    requires Structured(s) && s.bus.active && IsFetch(s.bus.ongoing) && Coherent(s, flat)
    requires RefillUndisturbed(s) && !Serve(s).bus.active
    ensures var r, t, i := s.bus.ongoing.origid.id, TagOf(s.bus.ongoing.addr), IndexOf(s.bus.ongoing.addr);
      && Serve(s).caches[r].dram[Slot(i, w)] == flat[Join(t, i, w)] == Serve(s).mem.ram[Join(t, i, w)]
      && Coherent(Serve(s), flat)
  {
    ServeFetchWord(s, flat);
    ServeFetchCoherent(s, flat);
    LastWord(s, Serve(s), flat, w);
  }

  lemma LastWord(s: System, s': System, flat: Ram, w: Offset)
    requires s.bus.active && s.bus.ongoing.origid.Core? && IsFetch(s.bus.ongoing) && Moved(s, flat) && !s'.bus.active
    requires Awaited(s, s') ||
        Delivered(s, s', flat[Join(TagOf(s.bus.ongoing.addr), IndexOf(s.bus.ongoing.addr), s.bus.offset)])
    ensures var r, t, i := s.bus.ongoing.origid.id, TagOf(s.bus.ongoing.addr), IndexOf(s.bus.ongoing.addr);
      s'.caches[r].dram[Slot(i, w)] == flat[Join(t, i, w)] == s'.mem.ram[Join(t, i, w)]
  {
  }

  /** A write-back that is over has put the whole line, word for word, where its tag and its index say. */
  lemma WriteBackOutcome(s: System, flat: Ram, w: Offset)
    requires Structured(s) && s.bus.active && s.bus.ongoing.cmd == Flush && Coherent(s, flat) && !Serve(s).bus.active
    ensures var r, i := s.bus.ongoing.origid.id, IndexOf(s.bus.ongoing.addr); var t := s.caches[r].tsram[i].tag;
      && t == TagOf(s.bus.ongoing.addr)
      && Serve(s).mem.ram[Join(t, i, w)] == s.caches[r].dram[Slot(i, w)] == flat[Join(t, i, w)]
      && Coherent(Serve(s), flat)
  {
    var (cs, t) := SnoopAll(s.caches, OnBus(s), s.bus.offset, 0);
    SnoopFlush(s);
    FlushCompleted(s, cs, t, ModifiedSignal(s.caches, s.bus.ongoing));
    ServeFlushCoherent(s, flat);
    WrittenBackWord(s, Serve(s), flat, w);
  }

  lemma WrittenBackWord(s: System, s': System, flat: Ram, w: Offset)
    requires s.bus.active && s.bus.ongoing.origid.Core?
    requires s.bus.ongoing.cmd == Flush && Coherent(s, flat) && Coherent(s', flat)
    requires s'.bus == Advance(s.bus, s'.bus.offset, true)
    requires forall c: CoreId :: s'.caches[c].dram == s.caches[c].dram && s'.caches[c].tsram == s.caches[c].tsram
    ensures var r, i := s.bus.ongoing.origid.id, IndexOf(s.bus.ongoing.addr); var t := s.caches[r].tsram[i].tag;
      && t == TagOf(s.bus.ongoing.addr)
      && s'.mem.ram[Join(t, i, w)] == s.caches[r].dram[Slot(i, w)] == flat[Join(t, i, w)]
  {
    var r, i := s.bus.ongoing.origid.id, IndexOf(s.bus.ongoing.addr);
    assert Holds(s.caches, s.bus, r, s.caches[r].tsram[i].tag, i);
    assert LineBacked(s'.caches, s'.mem.ram, flat, r, i);
  }

  // ----- loads and stores -----

  lemma SameHolds(s: System, s': System)
    requires s'.bus.active == s.bus.active && s'.bus.ongoing == s.bus.ongoing && s'.bus.offset == s.bus.offset
    requires forall c: CoreId :: s'.caches[c].tsram == s.caches[c].tsram
    ensures forall c: CoreId, t: Tag, i: Index :: Holds(s'.caches, s'.bus, c, t, i) == Holds(s.caches, s.bus, c, t, i)
    ensures forall t: Tag, i: Index :: Owned(s'.caches, s'.bus, t, i) == Owned(s.caches, s.bus, t, i)
  {
    forall t: Tag, i: Index
      ensures Owned(s'.caches, s'.bus, t, i) == Owned(s.caches, s.bus, t, i)
    {
      assert forall c: CoreId :: Owns(s'.caches, s'.bus, c, t, i) == Owns(s.caches, s.bus, c, t, i);
    }
  }

  /** An attempt that does not write changes nothing that the cores can see. */
  lemma AttemptCoherent(s: System, e: Event, flat: Ram)
    requires Structured(s) && Coherent(s, flat) && !e.BusTick? && (e.StoreBy? ==> !Store(s, e.core, e.addr, e.data).1)
    ensures Coherent(Step(s, e), flat)
  {
    AttemptEffect(s, e);
    SameHolds(s, Step(s, e));
    SameLinesCoherent(s, Step(s, e), flat);
  }

  lemma SameLinesCoherent(s: System, s': System, flat: Ram)
    requires Structured(s) && Coherent(s, flat) && s'.mem == s.mem
    requires forall c: CoreId :: s'.caches[c].tsram == s.caches[c].tsram && s'.caches[c].dram == s.caches[c].dram
    requires s'.bus.active == s.bus.active && s'.bus.ongoing == s.bus.ongoing && s'.bus.offset == s.bus.offset
    requires forall c: CoreId :: s'.bus.phase[c] != s.bus.phase[c] ==>
        s.bus.phase[c] == Idle && s'.bus.phase[c] == Waiting
    ensures Coherent(s', flat)
  {
    SameHolds(s, s');
    assert SingleWriter(s'.caches, s'.bus);
  }

  /** A load that returns true yields the word of the flat memory. */
  lemma LoadIsFlat(s: System, c: CoreId, a: Addr, flat: Ram)
    requires Structured(s) && Coherent(s, flat) && Load(s, c, a).1.Some?
    ensures Load(s, c, a).1.value == flat[a]
  {
    AddressFields(a, TagOf(a), IndexOf(a), OffsetOf(a));
    assert Holds(s.caches, s.bus, c, TagOf(a), IndexOf(a));
  }

  /** The store does not come after the bus has already moved this word of the block on to another cache. */
  predicate StoreInTime(s: System, a: Addr) {
    !(s.bus.active && IsFetch(s.bus.ongoing) && SameBlock(a, s.bus.ongoing.addr) && OffsetOf(a) < s.bus.offset)
  }

  /** The effect of a store that returns true, and what it leaves alone. */
  lemma StoreHitHolds(s: System, c: CoreId, a: Addr, d: Word)
    requires Structured(s) && Store(s, c, a, d).1
    ensures var s' := Store(s, c, a, d).0;
      && Holds(s.caches, s.bus, c, TagOf(a), IndexOf(a)) && Owns(s'.caches, s'.bus, c, TagOf(a), IndexOf(a))
      && (forall o: CoreId, t: Tag, k: Index :: Holds(s'.caches, s'.bus, o, t, k) == Holds(s.caches, s.bus, o, t, k))
      && (forall t: Tag, k: Index :: Owned(s.caches, s.bus, t, k) ==> Owned(s'.caches, s'.bus, t, k))
  {
    var s' := Store(s, c, a, d).0;
    forall t: Tag, k: Index | Owned(s.caches, s.bus, t, k)
      ensures Owned(s'.caches, s'.bus, t, k)
    {
      var o: CoreId :| Owns(s.caches, s.bus, o, t, k);
      assert Owns(s'.caches, s'.bus, o, t, k);
    }
  }

  lemma FlatUpdate(flat: Ram, a: Addr, d: Word)
    ensures forall t: Tag, i: Index, w: Offset ::
      flat[a := d][Join(t, i, w)] ==
        (if t == TagOf(a) && i == IndexOf(a) && w == OffsetOf(a) then d else flat[Join(t, i, w)])
  {
    AddressFields(a, TagOf(a), IndexOf(a), OffsetOf(a));
    forall t: Tag, i: Index, w: Offset
      ensures (Join(t, i, w) == a) == (t == TagOf(a) && i == IndexOf(a) && w == OffsetOf(a))
    {
      AddressFields(a, t, i, w);
    }
  }

  lemma StoreHitCopies(s: System, c: CoreId, a: Addr, d: Word, flat: Ram)
    requires Structured(s) && SingleWriter(s.caches, s.bus) && Store(s, c, a, d).1
    requires Current(s.caches, s.bus, flat) && Backed(s.caches, s.bus, s.mem.ram, flat)
    ensures var s' := Store(s, c, a, d).0;
      Current(s'.caches, s'.bus, flat[a := d]) && Backed(s'.caches, s'.bus, s'.mem.ram, flat[a := d])
  {
    StoreHitHolds(s, c, a, d);
    StoreIsExclusive(s, c, a, d);
    FlatUpdate(flat, a, d);
  }

  lemma StoreHitBus(s: System, c: CoreId, a: Addr, d: Word, flat: Ram)
    requires Structured(s) && Coherent(s, flat) && Store(s, c, a, d).1 && StoreInTime(s, a)
    ensures var s' := Store(s, c, a, d).0;
      Moved(s', flat[a := d]) && WrittenBack(s', flat[a := d]) && EvictionFresh(s')
  {
    StoreHitHolds(s, c, a, d);
    StoreIsExclusive(s, c, a, d);
    FlatUpdate(flat, a, d);
    if s.bus.ongoing.origid.Core? && (s.bus.active || Finished(s.bus)) {
      var r, i := s.bus.ongoing.origid.id, IndexOf(s.bus.ongoing.addr);
      assert r != c;
      assert Refilling(s.bus, r, i) || s.caches[r].tsram[i].mesi == Invalid ||
          Holds(s.caches, s.bus, r, s.caches[r].tsram[i].tag, i);
    }
  }

  lemma StoreHitCoherent(s: System, c: CoreId, a: Addr, d: Word, flat: Ram)
    requires Structured(s) && Coherent(s, flat) && Store(s, c, a, d).1 && StoreInTime(s, a)
    ensures Coherent(Store(s, c, a, d).0, flat[a := d])
  {
    StoreExclusive(s, c, a, d);
    StoreHitCopies(s, c, a, d, flat);
    StoreHitBus(s, c, a, d, flat);
  }

  /** A store that succeeds keeps the system coherent exactly if it comes in time or writes the value already there. */
  lemma StoreHitExact(s: System, c: CoreId, a: Addr, d: Word, flat: Ram)
    requires Structured(s) && Coherent(s, flat) && Store(s, c, a, d).1
    ensures Coherent(Store(s, c, a, d).0, flat[a := d]) <==> StoreInTime(s, a) || d == flat[a]
  {
    FlatUpdate(flat, a, d);
    AddressFields(a, TagOf(a), IndexOf(a), OffsetOf(a));
    if StoreInTime(s, a) {
      StoreHitCoherent(s, c, a, d, flat);
    } else if d == flat[a] {
      assert flat[a := d] == flat;
      StoreExclusive(s, c, a, d);
      StoreHitCopies(s, c, a, d, flat);
      StoreHitHolds(s, c, a, d);
      StoreIsExclusive(s, c, a, d);
    } else {
      assert s.mem.ram[a] == flat[a];
    }
  }

  // ----- runs -----

  /** The flat memory after an event: only a store that returns true writes to it. */
  function FlatStep(s: System, flat: Ram, e: Event): Ram {
    if e.StoreBy? && Store(s, e.core, e.addr, e.data).1 then flat[e.addr := e.data] else flat
  }

  predicate Safe(s: System, e: Event) {
    match e
    case BusTick => BusSafe(s)
    case LoadBy(c, a) => true
    case StoreBy(c, a, d) => Store(s, c, a, d).1 ==> StoreInTime(s, a)
  }

  predicate Guarded(s: System, es: seq<Event>)
    decreases |es|
  {
    es == [] || (Safe(s, es[0]) && Guarded(Step(s, es[0]), es[1..]))
  }

  /** Every load of the run that returns true yields what the flat memory holds at that moment. */
  predicate LoadsAgree(s: System, es: seq<Event>, flat: Ram)
    decreases |es|
  {
    es == [] ||
    (&& (es[0].LoadBy? && Load(s, es[0].core, es[0].addr).1.Some? ==>
           Load(s, es[0].core, es[0].addr).1.value == flat[es[0].addr])
     && LoadsAgree(Step(s, es[0]), es[1..], FlatStep(s, flat, es[0])))
  }

  function FlatRun(s: System, es: seq<Event>, flat: Ram): Ram
    decreases |es|
  {
    if es == [] then flat else FlatRun(Step(s, es[0]), es[1..], FlatStep(s, flat, es[0]))
  }

  lemma StepCoherent(s: System, e: Event, flat: Ram)
    requires Structured(s) && Coherent(s, flat) && Safe(s, e)
    ensures Coherent(Step(s, e), FlatStep(s, flat, e))
  {
    if e.BusTick? {
      TickCoherent(s, flat);
    } else if e.StoreBy? && Store(s, e.core, e.addr, e.data).1 {
      StoreHitCoherent(s, e.core, e.addr, e.data, flat);
    } else {
      AttemptCoherent(s, e, flat);
    }
  }

  /** The memory system refines a flat memory: in every guarded run all loads agree with it. */
  lemma {:induction false} RunCoherent(s: System, es: seq<Event>, flat: Ram)
    requires Structured(s) && Coherent(s, flat) && Guarded(s, es)
    ensures LoadsAgree(s, es, flat)
    ensures Structured(Run(s, es)) && Coherent(Run(s, es), FlatRun(s, es, flat))
    decreases |es|
  {
    if es != [] {
      StepStructured(s, es[0]);
      StepCoherent(s, es[0], flat);
      if es[0].LoadBy? && Load(s, es[0].core, es[0].addr).1.Some? {
        LoadIsFlat(s, es[0].core, es[0].addr, flat);
      }
      RunCoherent(Step(s, es[0]), es[1..], FlatStep(s, flat, es[0]));
    }
  }
}
