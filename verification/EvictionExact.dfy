/** A write-back that no longer finds its victim modified: what it leaves behind, and exactly when that is harmless. */
module EvictionExact {
  import opened Types
  import opened CacheModel
  import opened SystemModel
  import opened Structure
  import opened Snooping
  import opened Exclusion
  import opened FlatMemory
  import opened Progress

  /** The transaction on the bus, or else the next one, is over with the last event of the run, and not before. */
  predicate Ends(s: System, es: seq<Event>)
    decreases |es|
  {
    es != [] && if s.bus.active && !Step(s, es[0]).bus.active then |es| == 1 else Ends(Step(s, es[0]), es[1..])
  }

  // ----- one word of a write-back -----

  lemma FlushLeaves(c: CacheState, id: CoreId, t: Transaction, off: Offset)
    requires t.cmd == Flush
    ensures SnoopedCache(c, id, t, off) == c
  {
    var i := IndexOf(t.addr);
    assert c.tsram[i := c.tsram[i]] == c.tsram;
  }

  lemma {:induction false} FlushSeen(cs: Caches, t: Transaction, c: nat)
    requires c <= 4 && t.cmd == Flush
    ensures Seen(cs, t, c).cmd == Flush
  {
    if c > 0 {
      FlushSeen(cs, t, c - 1);
    }
  }

  /** No cache changes when it sees a write-back. */
  lemma FlushSnooped(cs: Caches, t: Transaction, off: Offset)
    requires t.cmd == Flush
    ensures SnoopAll(cs, t, off, 0).0 == cs
  {
    SnoopEach(cs, t, off, cs, 0);
    forall c: CoreId
      ensures SnoopAll(cs, t, off, 0).0[c] == cs[c]
    {
      FlushSeen(cs, t, c);
      FlushLeaves(cs[c], c, Seen(cs, t, c), off);
    }
  }

  /** No other cache has the block of the write-back modified. */
  predicate Unowned(s: System) { forall o: CoreId :: !OtherOwner(s, o) }

  /** Nor does its own: it passes with the one word that was captured when it was queued. */
  lemma StaleFlush(s: System)
    requires s.bus.ongoing.cmd == Flush && s.bus.ongoing.origid.Core? && !EvictionFresh(s) && s.bus.active && Unowned(s)
    ensures SnoopAll(s.caches, OnBus(s), s.bus.offset, 0) == (s.caches, OnBus(s))
  {
    OnBusFields(s);
    FlushSnooped(s.caches, OnBus(s), s.bus.offset);
    forall c: CoreId
      ensures !Supplies(s.caches[c], c, OnBus(s))
    {
      assert !OtherOwner(s, c);
    }
    SnoopQuiet(s.caches, OnBus(s), s.bus.offset, 0);
  }

  /** With an owner elsewhere it passes with the word of that owner. */
  lemma SuppliedFlush(s: System, o: CoreId)
    requires s.bus.ongoing.cmd == Flush && s.bus.ongoing.origid.Core? && !EvictionFresh(s) && s.bus.active
    requires OtherOwner(s, o) && forall c: CoreId :: c != o ==> !OtherOwner(s, c)
    ensures SnoopAll(s.caches, OnBus(s), s.bus.offset, 0) == (s.caches, SuppliedBy(s, o))
  {
    OnBusFields(s);
    FlushSnooped(s.caches, OnBus(s), s.bus.offset);
    forall c: CoreId | c != o
      ensures !Supplies(s.caches[c], c, OnBus(s)) && !Supplies(s.caches[c], c, SuppliedBy(s, o))
    {
      assert !OtherOwner(s, c);
    }
    SnoopSupplied(s.caches, OnBus(s), s.bus.offset, 0, o);
  }

  /** The bus and the main memory after a word of a write-back. */
  ghost predicate WordStored(s: System, s': System, v: Word)
    requires s.bus.ongoing.origid.Core?
  {
    var x := Join(TagOf(s.bus.ongoing.addr), IndexOf(s.bus.ongoing.addr), s.bus.offset);
    && s'.bus == Advance(s.bus, if s.bus.offset == 3 then 3 else s.bus.offset + 1, s.bus.offset == 3)
    && s'.mem.ram == s.mem.ram[x := v]
  }

  /** The requester takes a word that comes from another cache into its line. */
  ghost predicate LineFilled(s: System, s': System, v: Word)
    requires s.bus.ongoing.origid.Core?
  {
    var r, t, i := s.bus.ongoing.origid.id, TagOf(s.bus.ongoing.addr), IndexOf(s.bus.ongoing.addr);
    && (forall c: CoreId :: c != r ==> s'.caches[c] == s.caches[c])
    && s'.caches[r].dram == s.caches[r].dram[Slot(i, s.bus.offset) := v]
    && s'.caches[r].tsram ==
         s.caches[r].tsram[i := Line(t, if s.bus.offset == 3 then Shared else s.caches[r].tsram[i].mesi)]
  }

  lemma StaleCompleted(s: System, direct: bool)
    requires s.bus.ongoing.cmd == Flush && s.bus.ongoing.origid.Core?
    ensures var s' := Complete(s, s.caches, OnBus(s), direct);
      && s'.caches == s.caches
      && if MemoryReady(s.mem, direct) then WordStored(s, s', s.bus.ongoing.data)
         else s'.bus == s.bus && s'.mem.ram == s.mem.ram
  {
    OnBusFields(s);
    var r := s.bus.ongoing.origid.id;
    assert s.caches[r := s.caches[r]] == s.caches;
  }

  lemma SuppliedCompleted(s: System, o: CoreId, direct: bool)
    requires s.bus.ongoing.cmd == Flush && s.bus.ongoing.origid.Core? && OtherOwner(s, o)
    ensures var s' := Complete(s, s.caches, SuppliedBy(s, o), direct);
      var v := s.caches[o].dram[Slot(IndexOf(s.bus.ongoing.addr), s.bus.offset)];
      if MemoryReady(s.mem, direct) then WordStored(s, s', v) && LineFilled(s, s', v)
      else s'.caches == s.caches && s'.bus == s.bus && s'.mem.ram == s.mem.ram
  {
    OnBusFields(s);
    assert SharedSignal(s.caches, s.bus.ongoing) by {
      assert Core(o) != s.bus.ongoing.origid &&
          Matches(s.caches[o].tsram[IndexOf(s.bus.ongoing.addr)], TagOf(s.bus.ongoing.addr));
    }
  }

  /** What one iteration does: nothing yet, or the captured word goes to memory, or the word of the owner goes there and
      into the line of the requester. */
  ghost predicate WriteBackStep(s: System, s': System)
    requires s.bus.ongoing.origid.Core?
  {
    var i := IndexOf(s.bus.ongoing.addr);
    || (s'.caches == s.caches && s'.mem.ram == s.mem.ram && s'.bus == s.bus.(firstShared := s'.bus.firstShared))
    || (Unowned(s) && s'.caches == s.caches && WordStored(s, s', s.bus.ongoing.data))
    || (exists o: CoreId :: OtherOwner(s, o) && var v := s.caches[o].dram[Slot(i, s.bus.offset)];
                            WordStored(s, s', v) && LineFilled(s, s', v))
  }

  lemma ServeWriteBack(s: System)
    requires s.bus.active && s.bus.ongoing.cmd == Flush && s.bus.ongoing.origid.Core? && !EvictionFresh(s)
    requires forall c: CoreId, d: CoreId :: OtherOwner(s, c) && OtherOwner(s, d) ==> c == d
    ensures WriteBackStep(s, Serve(s))
  {
    if !Skips(s) {
      var direct := ModifiedSignal(s.caches, s.bus.ongoing);
      if o: CoreId :| OtherOwner(s, o) {
        SuppliedFlush(s, o);
        SuppliedCompleted(s, o, direct);
      } else {
        StaleFlush(s);
        StaleCompleted(s, direct);
      }
    }
  }

  // ----- the system without the line of the requester -----

  /** The line of a core that waits for a refill, which it cannot read before the refill replaces it, is left out. */
  function Hidden(s: System, r: CoreId, i: Index): System {
    s.(caches := s.caches[r := s.caches[r].(tsram := s.caches[r].tsram[i := s.caches[r].tsram[i].(mesi := Invalid)])])
  }

  /** Coherent everywhere but in the main memory, and there outside block (t, i). */
  ghost predicate Sound(s: System, flat: Ram, t: Tag, i: Index) {
    && SingleWriter(s.caches, s.bus) && Current(s.caches, s.bus, flat)
    && forall u: Tag, j: Index, w: Offset :: (u == t && j == i) || Owned(s.caches, s.bus, u, j) ||
         s.mem.ram[Join(u, j, w)] == flat[Join(u, j, w)]
  }

  /** The first k words of the block have been replaced by z. */
  predicate Replaced(ram: Ram, flat: Ram, t: Tag, i: Index, k: nat, z: Word) {
    forall w: Offset :: ram[Join(t, i, w)] == if w < k then z else flat[Join(t, i, w)]
  }

  /** How many words the write-back has moved. */
  function Progressed(b: Bus): nat { if b.active then b.offset else 4 }

  /** A write-back u that does not find its victim modified, at any moment until it is over. */
  ghost predicate Spoiling(s: System, u: Transaction, flat: Ram) {
    && u.origid.Core? && u.cmd == Flush && s.bus.ongoing == u && s.bus.phase[u.origid.id] != Idle
    && (s.bus.active || Finished(s.bus))
    && var r, t, i := u.origid.id, TagOf(u.addr), IndexOf(u.addr);
       var h := Hidden(s, r, i);
       && s.caches[r].tsram[i].tag == t && s.caches[r].tsram[i].mesi != Modified
       && Sound(h, flat, t, i)
       && (Owned(h.caches, h.bus, t, i) || Replaced(s.mem.ram, flat, t, i, Progressed(s.bus), u.data))
  }

  /** With a write-back on the bus, or none, what a cache holds depends on its lines alone. */
  lemma HoldsLines(s: System, s': System)
    requires s.bus.ongoing.cmd == Flush && s'.bus.ongoing.cmd == Flush
    requires forall c: CoreId, j: Index :: s'.caches[c].tsram[j] == s.caches[c].tsram[j]
    ensures forall c: CoreId, t: Tag, j: Index :: Holds(s'.caches, s'.bus, c, t, j) == Holds(s.caches, s.bus, c, t, j)
    ensures forall t: Tag, j: Index :: Owned(s'.caches, s'.bus, t, j) == Owned(s.caches, s.bus, t, j)
  {
    forall t: Tag, j: Index
      ensures Owned(s'.caches, s'.bus, t, j) == Owned(s.caches, s.bus, t, j)
    {
      assert forall c: CoreId :: Owns(s'.caches, s'.bus, c, t, j) == Owns(s.caches, s.bus, c, t, j);
    }
  }

  /** The rest of the system does not notice what happens to one line that is left out and to its block in memory. */
  lemma SoundKept(h: System, h': System, flat: Ram, r: CoreId, t: Tag, i: Index)
    requires Sound(h, flat, t, i) && h.bus.ongoing.cmd == Flush && h'.bus.ongoing.cmd == Flush
    requires forall c: CoreId, j: Index :: h'.caches[c].tsram[j] == h.caches[c].tsram[j]
    requires forall c: CoreId :: c != r ==> h'.caches[c].dram == h.caches[c].dram
    requires forall j: Index, w: Offset :: j != i ==> h'.caches[r].dram[Slot(j, w)] == h.caches[r].dram[Slot(j, w)]
    requires h.caches[r].tsram[i].mesi == Invalid
    requires forall u: Tag, j: Index, w: Offset ::
        (u == t && j == i) || h'.mem.ram[Join(u, j, w)] == h.mem.ram[Join(u, j, w)]
    ensures Sound(h', flat, t, i)
  {
    HoldsLines(h, h');
  }

  lemma OwnedElsewhere(s: System, r: CoreId, t: Tag, i: Index)
    requires s.bus.ongoing.cmd == Flush && s.caches[r].tsram[i].mesi != Modified
    ensures var h := Hidden(s, r, i);
      Owned(h.caches, h.bus, t, i) <==> exists o: CoreId :: o != r && s.caches[o].tsram[i] == Line(t, Modified)
  {
    var h := Hidden(s, r, i);
    if o: CoreId :| o != r && s.caches[o].tsram[i] == Line(t, Modified) {
      assert Owns(h.caches, h.bus, o, t, i);
    }
  }

  /** At most one other cache has the block modified. */
  lemma OneOwner(s: System, u: Transaction, flat: Ram)
    requires Spoiling(s, u, flat)
    ensures forall c: CoreId, d: CoreId :: OtherOwner(s, c) && OtherOwner(s, d) ==> c == d
    ensures var h := Hidden(s, u.origid.id, IndexOf(u.addr));
      Owned(h.caches, h.bus, TagOf(u.addr), IndexOf(u.addr)) <==> !Unowned(s)
  {
    var r, t, i := u.origid.id, TagOf(u.addr), IndexOf(u.addr);
    var h := Hidden(s, r, i);
    OwnedElsewhere(s, r, t, i);
    assert forall o: CoreId :: OtherOwner(s, o) == (o != r && s.caches[o].tsram[i] == Line(t, Modified));
    forall c: CoreId, d: CoreId | OtherOwner(s, c) && OtherOwner(s, d)
      ensures c == d
    {
      assert Holds(h.caches, h.bus, c, t, i) && Holds(h.caches, h.bus, d, t, i);
    }
  }

  lemma JoinDiffers(t: Tag, i: Index, w: Offset, u: Tag, j: Index, v: Offset)
    requires Join(t, i, w) == Join(u, j, v)
    ensures t == u && i == j && w == v
  {
    JoinFields(t, i, w);
    JoinFields(u, j, v);
  }

  /** Memory after a word, outside the block and inside. */
  lemma StoredWord(s: System, s': System, v: Word)
    requires s.bus.ongoing.origid.Core? && WordStored(s, s', v)
    ensures var t, i := TagOf(s.bus.ongoing.addr), IndexOf(s.bus.ongoing.addr);
      && (forall u: Tag, j: Index, w: Offset ::
          (u == t && j == i) || s'.mem.ram[Join(u, j, w)] == s.mem.ram[Join(u, j, w)])
      && (forall w: Offset :: s'.mem.ram[Join(t, i, w)] == if w == s.bus.offset then v else s.mem.ram[Join(t, i, w)])
  {
    var t, i := TagOf(s.bus.ongoing.addr), IndexOf(s.bus.ongoing.addr);
    forall u: Tag, j: Index, w: Offset | Join(u, j, w) == Join(t, i, s.bus.offset)
      ensures u == t && j == i && w == s.bus.offset
    {
      JoinDiffers(u, j, w, t, i, s.bus.offset);
    }
  }

  /** An iteration in which only the captured word has gone to memory, if any. */
  lemma StaleKept(s: System, s': System, u: Transaction, flat: Ram)
    requires s.bus.active && Spoiling(s, u, flat) && s'.caches == s.caches
    requires (s'.mem.ram == s.mem.ram && s'.bus == s.bus.(firstShared := s'.bus.firstShared))
             || (Unowned(s) && WordStored(s, s', u.data))
    ensures Spoiling(s', u, flat)
  {
    var r, t, i := u.origid.id, TagOf(u.addr), IndexOf(u.addr);
    var h, h' := Hidden(s, r, i), Hidden(s', r, i);
    OneOwner(s, u, flat);
    if Unowned(s) && WordStored(s, s', u.data) {
      StoredWord(s, s', u.data);
    }
    SoundKept(h, h', flat, r, t, i);
    HoldsLines(h, h');
  }

  /** One in which an owner has supplied the word. */
  lemma SuppliedKept(s: System, s': System, u: Transaction, flat: Ram, o: CoreId, v: Word)
    requires s.bus.active && Spoiling(s, u, flat) && OtherOwner(s, o) && WordStored(s, s', v) && LineFilled(s, s', v)
    ensures Spoiling(s', u, flat)
  {
    var r, t, i := u.origid.id, TagOf(u.addr), IndexOf(u.addr);
    var h, h' := Hidden(s, r, i), Hidden(s', r, i);
    OneOwner(s, u, flat);
    StoredWord(s, s', v);
    assert forall c: CoreId, j: Index :: h'.caches[c].tsram[j] == h.caches[c].tsram[j];
    SoundKept(h, h', flat, r, t, i);
    HoldsLines(h, h');
  }

  lemma TickSpoils(s: System, u: Transaction, flat: Ram)
    requires Structured(s) && s.bus.active && Spoiling(s, u, flat)
    ensures Tick(s) == Serve(s) && WriteBackStep(s, Tick(s)) && Spoiling(Tick(s), u, flat)
  {
    assert Retired(s.bus) == s.bus.phase;
    assert Begin(s) == s;
    OneOwner(s, u, flat);
    ServeWriteBack(s);
    var s' := Serve(s);
    if o: CoreId :| OtherOwner(s, o) && WordStored(s, s', s.caches[o].dram[Slot(IndexOf(u.addr), s.bus.offset)])
                    && LineFilled(s, s', s.caches[o].dram[Slot(IndexOf(u.addr), s.bus.offset)]) {
      SuppliedKept(s, s', u, flat, o, s.caches[o].dram[Slot(IndexOf(u.addr), s.bus.offset)]);
    } else {
      StaleKept(s, s', u, flat);
    }
  }

  // ----- what the other cores do meanwhile -----

  lemma HiddenStructured(s: System, r: CoreId, i: Index)
    requires Structured(s)
    ensures Structured(Hidden(s, r, i))
  {
    var h := Hidden(s, r, i);
    assert forall c: CoreId, a: Addr :: Dirty(h.caches[c], a) ==> Dirty(s.caches[c], a);
  }

  /** A store that hits in another cache does so whether or not the line is left out. */
  lemma HiddenStore(s: System, r: CoreId, i: Index, c: CoreId, a: Addr, d: Word)
    requires c != r && Store(s, c, a, d).1
    ensures Store(Hidden(s, r, i), c, a, d).1
    ensures Hidden(Store(s, c, a, d).0, r, i) == Store(Hidden(s, r, i), c, a, d).0
  {
  }

  lemma StoreSound(h: System, c: CoreId, a: Addr, d: Word, flat: Ram, t: Tag, i: Index)
    requires Structured(h) && Sound(h, flat, t, i) && Store(h, c, a, d).1
    ensures Sound(Store(h, c, a, d).0, flat[a := d], t, i)
  {
    StoreHitHolds(h, c, a, d);
    StoreIsExclusive(h, c, a, d);
    StoreExclusive(h, c, a, d);
    FlatUpdate(flat, a, d);
  }

  lemma StoreSpoils(s: System, u: Transaction, flat: Ram, c: CoreId, a: Addr, d: Word)
    requires Structured(s) && Spoiling(s, u, flat) && Store(s, c, a, d).1
    ensures Spoiling(Store(s, c, a, d).0, u, flat[a := d])
  {
    var r, t, i := u.origid.id, TagOf(u.addr), IndexOf(u.addr);
    var h := Hidden(s, r, i);
    HiddenStructured(s, r, i);
    HiddenStore(s, r, i, c, a, d);
    StoreSound(h, c, a, d, flat, t, i);
    StoreHitHolds(h, c, a, d);
    FlatUpdate(flat, a, d);
  }

  /** An attempt that writes nothing changes no line and no word. */
  lemma QuietSpoils(s: System, s': System, u: Transaction, flat: Ram, c: CoreId, g: seq<Transaction>)
    requires Spoiling(s, u, flat) && s'.mem == s.mem && s'.bus == (if g == [] then s.bus else Append(s.bus, c, g))
    requires g != [] ==> s.bus.phase[c] == Idle
    requires forall d: CoreId :: s'.caches[d].tsram == s.caches[d].tsram && s'.caches[d].dram == s.caches[d].dram
    ensures Spoiling(s', u, flat)
  {
    var r, t, i := u.origid.id, TagOf(u.addr), IndexOf(u.addr);
    SoundKept(Hidden(s, r, i), Hidden(s', r, i), flat, r, t, i);
    HoldsLines(Hidden(s, r, i), Hidden(s', r, i));
  }

  lemma AttemptSpoils(s: System, e: Event, u: Transaction, flat: Ram)
    requires Structured(s) && Spoiling(s, u, flat) && !e.BusTick?
    ensures Spoiling(Step(s, e), u, FlatStep(s, flat, e))
  {
    if e.StoreBy? && Store(s, e.core, e.addr, e.data).1 {
      StoreSpoils(s, u, flat, e.core, e.addr, e.data);
    } else {
      AttemptEffect(s, e);
      QuietSpoils(s, Step(s, e), u, flat, e.core, AttemptGroup(s, e));
    }
  }

  lemma StepSpoils(s: System, e: Event, u: Transaction, flat: Ram)
    requires Structured(s) && s.bus.active && Spoiling(s, u, flat)
    ensures Structured(Step(s, e)) && Spoiling(Step(s, e), u, FlatStep(s, flat, e))
  {
    StepStructured(s, e);
    if e.BusTick? {
      TickSpoils(s, u, flat);
    } else {
      AttemptSpoils(s, e, u, flat);
    }
  }

  lemma {:induction false} RunSpoils(s: System, es: seq<Event>, u: Transaction, flat: Ram)
    requires Structured(s) && s.bus.active && Spoiling(s, u, flat) && Ends(s, es)
    ensures Structured(Run(s, es)) && !Run(s, es).bus.active && Spoiling(Run(s, es), u, FlatRun(s, es, flat))
    decreases |es|
  {
    StepSpoils(s, es[0], u, flat);
    if Step(s, es[0]).bus.active {
      RunSpoils(Step(s, es[0]), es[1..], u, FlatStep(s, flat, es[0]));
    }
  }

  // ----- the victim keeps its tag -----

  predicate TagKept(cs: Caches, t: Transaction) {
    t.cmd == Flush && t.origid.Core? ==> cs[t.origid.id].tsram[IndexOf(t.addr)].tag == TagOf(t.addr)
  }

  /** Whatever has become of its state, the line of every pending write-back still has the tag of the victim. */
  ghost predicate VictimTags(s: System) {
    && (forall k :: 0 <= k < |s.bus.queue| ==> TagKept(s.caches, s.bus.queue[k]))
    && (s.bus.active ==> TagKept(s.caches, s.bus.ongoing))
  }

  lemma CompleteTags(s: System, cs: Caches, t: Transaction, direct: bool)
    requires s.bus.active && s.bus.ongoing.origid.Core?
    requires TagOf(t.addr) == TagOf(s.bus.ongoing.addr) && IndexOf(t.addr) == IndexOf(s.bus.ongoing.addr)
    ensures var s', r := Complete(s, cs, t, direct), s.bus.ongoing.origid.id;
      && s'.bus.queue == s.bus.queue && s'.bus.ongoing == s.bus.ongoing
      && (forall c: CoreId :: c != r ==> s'.caches[c] == cs[c])
      && (TagKept(cs, s.bus.ongoing) ==> TagKept(s'.caches, s.bus.ongoing))
  {
  }

  /** An iteration changes tags in the cache of the requester only, and not the one of its victim. */
  ghost predicate TagsLeft(s: System, s': System)
    requires s.bus.ongoing.origid.Core?
  {
    && s'.bus.queue == s.bus.queue && s'.bus.ongoing == s.bus.ongoing && (s'.bus.active ==> s.bus.active)
    && (forall c: CoreId, i: Index :: c != s.bus.ongoing.origid.id ==>
        s'.caches[c].tsram[i].tag == s.caches[c].tsram[i].tag)
    && (TagKept(s.caches, s.bus.ongoing) ==> TagKept(s'.caches, s.bus.ongoing))
  }

  lemma ServeLeavesTags(s: System)
    requires Structured(s) && s.bus.active
    ensures TagsLeft(s, Serve(s))
  {
    if !Skips(s) {
      var (cs, t) := SnoopAll(s.caches, OnBus(s), s.bus.offset, 0);
      assert WellFormed(Pending(s.bus)[0]);
      OnBusFields(s);
      SnoopFrame(s.caches, OnBus(s), s.bus.offset, 0);
      CompleteTags(s, cs, t, ModifiedSignal(s.caches, s.bus.ongoing));
    }
  }

  /** The requester has no other write-back pending. */
  lemma TagsFollow(s: System, s': System)
    requires Groups(Pending(s.bus)) && s.bus.active && s.bus.ongoing.origid.Core? && VictimTags(s) && TagsLeft(s, s')
    ensures VictimTags(s')
  {
    var p := Pending(s.bus);
    forall k | 0 <= k < |s.bus.queue| && s.bus.queue[k].cmd == Flush && s.bus.queue[k].origid.Core?
      ensures TagKept(s'.caches, s'.bus.queue[k])
    {
      assert p[k + 1] == s.bus.queue[k] && Follows(p[0], p[k + 1], k + 1);
    }
  }

  lemma GroupTags(s: System, e: Event, k: nat)
    requires !e.BusTick? && k < |AttemptGroup(s, e)|
    ensures TagKept(s.caches, AttemptGroup(s, e)[k])
  {
    AddressFields(e.addr, s.caches[e.core].tsram[IndexOf(e.addr)].tag, IndexOf(e.addr), 0);
  }

  lemma QueueTags(s: System, s': System, g: seq<Transaction>, c: CoreId)
    requires VictimTags(s) && s'.bus == Append(s.bus, c, g) && forall k :: 0 <= k < |g| ==> TagKept(s.caches, g[k])
    requires forall d: CoreId :: s'.caches[d].tsram == s.caches[d].tsram
    ensures VictimTags(s')
  {
    assert forall k :: 0 <= k < |s'.bus.queue| ==>
      s'.bus.queue[k] == (if k < |s.bus.queue| then s.bus.queue[k] else g[k - |s.bus.queue|]);
  }

  lemma AttemptTags(s: System, e: Event)
    requires Structured(s) && VictimTags(s) && !e.BusTick?
    ensures VictimTags(Step(s, e))
  {
    var g := AttemptGroup(s, e);
    AttemptEffect(s, e);
    if g != [] {
      forall k | 0 <= k < |g|
        ensures TagKept(s.caches, g[k])
      {
        GroupTags(s, e, k);
      }
      QueueTags(s, Step(s, e), g, e.core);
    }
  }

  lemma BeginTags(s: System)
    requires VictimTags(s)
    ensures VictimTags(Begin(s))
  {
    var b := s.bus;
    if !b.active && b.queue != [] {
      assert TagKept(s.caches, b.queue[0]);
      assert forall k :: 0 <= k < |b.queue[1..]| ==> b.queue[1..][k] == b.queue[k + 1];
    }
  }

  lemma TickTags(s: System)
    requires Structured(s) && VictimTags(s)
    ensures VictimTags(Tick(s))
  {
    var b := Begin(s);
    BeginStructured(s);
    BeginTags(s);
    if b.bus.active {
      ServeLeavesTags(b);
      TagsFollow(b, Serve(b));
    }
  }

  lemma StepTags(s: System, e: Event)
    requires Structured(s) && VictimTags(s)
    ensures VictimTags(Step(s, e))
  {
    if e.BusTick? {
      TickTags(s);
    } else {
      AttemptTags(s, e);
    }
  }

  lemma {:induction false} RunTags(s: System, es: seq<Event>)
    requires Structured(s) && VictimTags(s)
    ensures VictimTags(Run(s, es))
    decreases |es|
  {
    if es != [] {
      StepStructured(s, es[0]);
      StepTags(s, es[0]);
      RunTags(Step(s, es[0]), es[1..]);
    }
  }

  // ----- the whole write-back -----

  /** A write-back that has just been taken from the queue and does not find its victim modified, in a system in which
      everything was right until then. */
  ghost predicate Overdue(s: System, flat: Ram) {
    && Structured(s) && VictimTags(s) && s.bus.active && s.bus.ongoing.cmd == Flush && s.bus.offset == 0
    && !EvictionFresh(s)
    && SingleWriter(s.caches, s.bus) && Current(s.caches, s.bus, flat) && Backed(s.caches, s.bus, s.mem.ram, flat)
  }

  /** This is how the guard of the write-backs fails for the first time. */
  lemma FirstOverdue(s: System, flat: Ram)
    requires Structured(s) && VictimTags(s) && Coherent(s, flat) && !EvictionFresh(Begin(s))
    ensures Overdue(Begin(s), flat)
  {
    var b := Begin(s);
    BeginStructured(s);
    BeginHolds(s);
    BeginExclusive(s);
    assert forall c: CoreId, t: Tag, i: Index :: Owns(s.caches, b.bus, c, t, i) == Owns(s.caches, s.bus, c, t, i);
    assert forall t: Tag, i: Index :: Owned(s.caches, b.bus, t, i) == Owned(s.caches, s.bus, t, i);
  }

  /** So every run from power-on that has been guarded until now meets the conditions of the theorems below. */
  lemma OverdueReached(ram: Ram, past: seq<Event>)
    requires Guarded(Start(ram), past) && !EvictionFresh(Begin(Run(Start(ram), past)))
    ensures Overdue(Begin(Run(Start(ram), past)), FlatRun(Start(ram), past, ram))
  {
    StartStructured(ram);
    StartCoherent(ram);
    RunCoherent(Start(ram), past, ram);
    RunTags(Start(ram), past);
    FirstOverdue(Run(Start(ram), past), FlatRun(Start(ram), past, ram));
  }

  lemma OverdueSpoils(s: System, flat: Ram)
    requires Overdue(s, flat)
    ensures Spoiling(s, s.bus.ongoing, flat)
  {
    var u := s.bus.ongoing;
    var r, t, i := u.origid.id, TagOf(u.addr), IndexOf(u.addr);
    var h := Hidden(s, r, i);
    assert forall c: CoreId, t: Tag, j: Index :: Holds(h.caches, h.bus, c, t, j) ==> Holds(s.caches, s.bus, c, t, j);
    assert forall c: CoreId, t: Tag, j: Index :: Owns(h.caches, h.bus, c, t, j) == Owns(s.caches, s.bus, c, t, j);
    assert forall t: Tag, j: Index :: Owned(h.caches, h.bus, t, j) == Owned(s.caches, s.bus, t, j);
  }

  /** The line of the requester when its write-back is over. */
  lemma WriteBackEnds(s: System, u: Transaction, flat: Ram)
    requires Structured(s) && s.bus.active && Spoiling(s, u, flat) && !Tick(s).bus.active
    ensures var r, t, i := u.origid.id, TagOf(u.addr), IndexOf(u.addr);
      Unowned(Tick(s)) || Tick(s).caches[r].tsram[i] == Line(t, Shared)
  {
    TickSpoils(s, u, flat);
    assert forall o: CoreId :: Tick(s).caches == s.caches ==> OtherOwner(Tick(s), o) == OtherOwner(s, o);
  }

  lemma {:induction false} RunWriteBackEnds(s: System, es: seq<Event>, u: Transaction, flat: Ram)
    requires Structured(s) && s.bus.active && Spoiling(s, u, flat) && Ends(s, es)
    ensures var s', r, t, i := Run(s, es), u.origid.id, TagOf(u.addr), IndexOf(u.addr);
      Unowned(s') || s'.caches[r].tsram[i] == Line(t, Shared)
    decreases |es|
  {
    if Step(s, es[0]).bus.active {
      StepSpoils(s, es[0], u, flat);
      RunWriteBackEnds(Step(s, es[0]), es[1..], u, FlatStep(s, flat, es[0]));
    } else {
      assert es[0].BusTick? by {
        if !es[0].BusTick? {
          AttemptEffect(s, es[0]);
        }
      }
      WriteBackEnds(s, u, flat);
    }
  }

  /** When it is over, and apart from the line that its refill is going to replace, all is well exactly if another cache
      has the block modified or the block consists of the captured word. */
  lemma SpoiledExact(s: System, u: Transaction, flat: Ram)
    requires Spoiling(s, u, flat) && !s.bus.active
    ensures var r, t, i := u.origid.id, TagOf(u.addr), IndexOf(u.addr);
      Coherent(Hidden(s, r, i), flat) <==> !Unowned(s) || forall w: Offset :: flat[Join(t, i, w)] == u.data
  {
    var r, t, i := u.origid.id, TagOf(u.addr), IndexOf(u.addr);
    var h := Hidden(s, r, i);
    OneOwner(s, u, flat);
    if Unowned(s) && Coherent(h, flat) {
      forall w: Offset
        ensures flat[Join(t, i, w)] == u.data
      {
        assert h.mem.ram[Join(t, i, w)] == flat[Join(t, i, w)];
      }
    }
  }

  /** A write-back that comes too late, from its start to its end, whatever the cores do meanwhile.  Unless another
      cache has the block modified by then, all four of its words in the main memory are the one word that was captured.
      If one has, the requester is left with a Shared copy beside the modified one.  Apart from this copy, which its
      core cannot read before the refill replaces it, the system is coherent if and only if another cache has the block
      modified or the block consists of the captured word. */
  lemma WriteBackExact(s: System, es: seq<Event>, flat: Ram)
    requires Overdue(s, flat) && Ends(s, es)
    ensures var u, s', flat' := s.bus.ongoing, Run(s, es), FlatRun(s, es, flat);
      var r, t, i := u.origid.id, TagOf(u.addr), IndexOf(u.addr);
      var owner := exists o: CoreId :: o != r && s'.caches[o].tsram[i] == Line(t, Modified);
      && (!owner ==> forall w: Offset :: s'.mem.ram[Join(t, i, w)] == u.data)
      && (owner ==> s'.caches[r].tsram[i] == Line(t, Shared) && !SingleWriter(s'.caches, s'.bus))
      && (Coherent(Hidden(s', r, i), flat') <==> owner || forall w: Offset :: flat'[Join(t, i, w)] == u.data)
  {
    var u, s', flat' := s.bus.ongoing, Run(s, es), FlatRun(s, es, flat);
    var r, t, i := u.origid.id, TagOf(u.addr), IndexOf(u.addr);
    OverdueSpoils(s, flat);
    RunSpoils(s, es, u, flat);
    RunWriteBackEnds(s, es, u, flat);
    OneOwner(s', u, flat');
    assert forall o: CoreId :: OtherOwner(s', o) == (o != r && s'.caches[o].tsram[i] == Line(t, Modified));
    if o: CoreId :| OtherOwner(s', o) {
      assert Holds(s'.caches, s'.bus, o, t, i) && Holds(s'.caches, s'.bus, r, t, i);
    }
    SpoiledExact(s', u, flat');
  }

  // ----- the words that an owner supplies -----

  /** No store hits a word of the block on the bus that has already been moved. */
  predicate StoresAhead(s: System, es: seq<Event>)
    decreases |es|
  {
    es == [] ||
    (&& (es[0].StoreBy? && Store(s, es[0].core, es[0].addr, es[0].data).1 && s.bus.active ==>
           !(SameBlock(es[0].addr, s.bus.ongoing.addr) && OffsetOf(es[0].addr) < s.bus.offset))
     && StoresAhead(Step(s, es[0]), es[1..]))
  }

  /** The words moved so far are up to date in the main memory and in the line of the requester. */
  ghost predicate Supplying(s: System, u: Transaction, flat: Ram, o: CoreId) {
    Spoiling(s, u, flat) && OtherOwner(s, o) && WordsMoved(s, flat, u.origid.id, TagOf(u.addr), IndexOf(u.addr))
  }

  ghost predicate WordsMoved(s: System, flat: Ram, r: CoreId, t: Tag, i: Index) {
    forall w: Offset :: w < Progressed(s.bus) ==>
      s.mem.ram[Join(t, i, w)] == s.caches[r].dram[Slot(i, w)] == flat[Join(t, i, w)]
  }

  lemma OwnerIsCurrent(s: System, u: Transaction, flat: Ram, o: CoreId)
    requires Spoiling(s, u, flat) && OtherOwner(s, o)
    ensures forall w: Offset ::
      s.caches[o].dram[Slot(IndexOf(u.addr), w)] == flat[Join(TagOf(u.addr), IndexOf(u.addr), w)]
  {
    var h := Hidden(s, u.origid.id, IndexOf(u.addr));
    assert Holds(h.caches, h.bus, o, TagOf(u.addr), IndexOf(u.addr));
  }

  lemma TickSupplies(s: System, u: Transaction, flat: Ram, o: CoreId)
    requires Structured(s) && s.bus.active && Supplying(s, u, flat, o)
    ensures Supplying(Tick(s), u, flat, o)
  {
    TickSpoils(s, u, flat);
    OneOwner(s, u, flat);
    OwnerIsCurrent(s, u, flat, o);
    var v := s.caches[o].dram[Slot(IndexOf(u.addr), s.bus.offset)];
    if WordStored(s, Tick(s), v) && LineFilled(s, Tick(s), v) {
      StoredWord(s, Tick(s), v);
    }
  }

  lemma AttemptSupplies(s: System, e: Event, u: Transaction, flat: Ram, o: CoreId)
    requires Structured(s) && s.bus.active && Supplying(s, u, flat, o) && !e.BusTick? && StoresAhead(s, [e])
    ensures Supplying(Step(s, e), u, FlatStep(s, flat, e), o)
  {
    AttemptSpoils(s, e, u, flat);
    if e.StoreBy? && Store(s, e.core, e.addr, e.data).1 {
      FlatUpdate(flat, e.addr, e.data);
    } else {
      AttemptEffect(s, e);
    }
  }

  lemma StepSupplies(s: System, e: Event, u: Transaction, flat: Ram, o: CoreId)
    requires Structured(s) && s.bus.active && Supplying(s, u, flat, o) && StoresAhead(s, [e])
    ensures Supplying(Step(s, e), u, FlatStep(s, flat, e), o)
  {
    if e.BusTick? {
      TickSupplies(s, u, flat, o);
    } else {
      AttemptSupplies(s, e, u, flat, o);
    }
  }

  lemma {:induction false} RunSupplies(s: System, es: seq<Event>, u: Transaction, flat: Ram, o: CoreId)
    requires Structured(s) && s.bus.active && Supplying(s, u, flat, o) && Ends(s, es) && StoresAhead(s, es)
    ensures !Run(s, es).bus.active && Supplying(Run(s, es), u, FlatRun(s, es, flat), o)
    decreases |es|
  {
    StepStructured(s, es[0]);
    StepSupplies(s, es[0], u, flat, o);
    if Step(s, es[0]).bus.active {
      RunSupplies(Step(s, es[0]), es[1..], u, FlatStep(s, flat, es[0]), o);
    }
  }

  /** If another cache has the block modified from the start, then its words are what the main memory and the line of
      the requester get, unless it stores to a word that has already gone. */
  lemma WriteBackSupplied(s: System, es: seq<Event>, flat: Ram, o: CoreId, w: Offset)
    requires Overdue(s, flat) && OtherOwner(s, o) && Ends(s, es) && StoresAhead(s, es)
    ensures var u, s', flat' := s.bus.ongoing, Run(s, es), FlatRun(s, es, flat);
      var r, t, i := u.origid.id, TagOf(u.addr), IndexOf(u.addr);
      && s'.caches[o].tsram[i] == Line(t, Modified)
      && s'.mem.ram[Join(t, i, w)] == s'.caches[r].dram[Slot(i, w)] == s'.caches[o].dram[Slot(i, w)] ==
          flat'[Join(t, i, w)]
  {
    var u := s.bus.ongoing;
    OverdueSpoils(s, flat);
    RunSupplies(s, es, u, flat, o);
    OwnerIsCurrent(Run(s, es), u, FlatRun(s, es, flat), o);
  }
}
