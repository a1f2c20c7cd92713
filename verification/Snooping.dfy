/** The effect of passing one transaction by all four caches, and the single-writer property that makes it simple. */
module Snooping {
  import opened Types
  import opened CacheModel
  import opened SystemModel

  /** The line into which core c is fetching a block: it already has the new tag but still its old state. */
  predicate Refilling(b: Bus, c: CoreId, i: Index) {
    && b.active && IsFetch(b.ongoing) && b.ongoing.origid == Core(c) && IndexOf(b.ongoing.addr) == i
    && b.offset > 0
  }

  predicate Holds(cs: Caches, b: Bus, c: CoreId, t: Tag, i: Index) {
    Matches(cs[c].tsram[i], t) && !Refilling(b, c, i)
  }

  predicate Owns(cs: Caches, b: Bus, c: CoreId, t: Tag, i: Index) {
    Holds(cs, b, c, t, i) && cs[c].tsram[i].mesi == Modified
  }

  /** A block in two caches is Shared in both: one held Exclusive or Modified is in no other cache. */
  ghost predicate SingleWriter(cs: Caches, b: Bus) {
    forall c: CoreId, d: CoreId, t: Tag, i: Index :: c != d && Holds(cs, b, c, t, i) && Holds(cs, b, d, t, i) ==>
      cs[c].tsram[i].mesi == Shared
  }

  /** The transaction as cache c sees it. */
  function Seen(cs: Caches, t: Transaction, c: nat): Transaction
    requires c <= 4
  {
    if c == 0 then t else SnoopedTransaction(cs[c - 1], c - 1, Seen(cs, t, c - 1))
  }

  lemma {:induction false} SnoopEach(cs: Caches, t: Transaction, off: Offset, cs': Caches, j: nat)
    requires j <= 4 && forall c: CoreId :: j <= c ==> cs'[c] == cs[c]
    ensures SnoopAll(cs', Seen(cs, t, j), off, j).1 == Seen(cs, t, 4)
    ensures forall c: CoreId ::
      SnoopAll(cs', Seen(cs, t, j), off, j).0[c] ==
          (if c < j then cs'[c] else SnoopedCache(cs[c], c, Seen(cs, t, c), off))
    decreases 4 - j
  {
    if j < 4 {
      SnoopEach(cs, t, off, cs'[j := SnoopedCache(cs'[j], j, Seen(cs, t, j), off)], j + 1);
    }
  }

  /** The transaction with the word of cache c on it. */
  function From(cs: Caches, t: Transaction, c: CoreId): Transaction {
    t.(cmd := Flush, origid := Core(c), data := cs[c].dram[Slot(IndexOf(t.addr), OffsetOf(t.addr))])
  }

  /** If nobody supplies the word, the transaction passes unchanged. */
  lemma {:induction false} SnoopQuiet(cs: Caches, t: Transaction, off: Offset, j: nat)
    requires j <= 4
    requires forall c: CoreId :: j <= c ==> !Supplies(cs[c], c, t)
    ensures SnoopAll(cs, t, off, j).1 == t
    ensures forall c: CoreId ::
      SnoopAll(cs, t, off, j).0[c] == (if c < j then cs[c] else SnoopedCache(cs[c], c, t, off))
    decreases 4 - j
  {
    if j < 4 {
      var cs' := cs[j := SnoopedCache(cs[j], j, t, off)];
      assert forall c: CoreId :: c != j ==> cs'[c] == cs[c];
      SnoopQuiet(cs', t, off, j + 1);
    }
  }

  /** If the first cache that can supply the word does, and no later one overrides it, its word is on the bus. */
  lemma {:induction false} SnoopSupplied(cs: Caches, t: Transaction, off: Offset, j: nat, o: CoreId)
    requires j <= o && Supplies(cs[o], o, t)
    requires forall c: CoreId :: j <= c < o ==> !Supplies(cs[c], c, t)
    requires forall c: CoreId :: o < c ==> !Supplies(cs[c], c, SnoopedTransaction(cs[o], o, t))
    ensures SnoopAll(cs, t, off, j).1 == SnoopedTransaction(cs[o], o, t)
    ensures forall c: CoreId ::
      SnoopAll(cs, t, off, j).0[c] == (if c < j then cs[c]
          else SnoopedCache(cs[c], c, if c <= o then t else SnoopedTransaction(cs[o], o, t), off))
    decreases 4 - j
  {
    var cs' := cs[j := SnoopedCache(cs[j], j, t, off)];
    assert forall c: CoreId :: c != j ==> cs'[c] == cs[c];
    if j < o {
      SnoopSupplied(cs', t, off, j + 1, o);
    } else {
      SnoopQuiet(cs', SnoopedTransaction(cs[o], o, t), off, j + 1);
    }
  }

  /** The write-back on the bus still finds its victim modified. */
  predicate EvictionFresh(s: System) {
    s.bus.active && s.bus.ongoing.cmd == Flush && s.bus.ongoing.origid.Core? ==>
      s.caches[s.bus.ongoing.origid.id].tsram[IndexOf(s.bus.ongoing.addr)] == Line(TagOf(s.bus.ongoing.addr), Modified)
  }

  predicate LowerOwner(cs: Caches, r: CoreId, t: Tag, i: Index) {
    exists c: nat :: c < r && cs[c].tsram[i] == Line(t, Modified)
  }

  /** A fetch over a modified line does not find the block modified in a lower-numbered cache. */
  predicate RefillUndisturbed(s: System) {
    s.bus.active && IsFetch(s.bus.ongoing) && s.bus.ongoing.origid.Core? ==>
      var r, a := s.bus.ongoing.origid.id, s.bus.ongoing.addr;
      Dirty(s.caches[r], a) ==> !LowerOwner(s.caches, r, TagOf(a), IndexOf(a))
  }

  /** The requester does not answer its own fetch: where it already has the new tag and still a modified line, no
      lower-numbered owner has turned the fetch into a flush. */
  predicate RequesterSilent(s: System)
    requires s.bus.ongoing.origid.Core?
  {
    var r, t, i := s.bus.ongoing.origid.id, TagOf(s.bus.ongoing.addr), IndexOf(s.bus.ongoing.addr);
    s.caches[r].tsram[i] == Line(t, Modified) ==> !LowerOwner(s.caches, r, t, i)
  }

  /** The state of another cache's copy after a fetch has been snooped. */
  function Downgraded(m: Mesi, cmd: Cmd, off: Offset): Mesi {
    if m == Modified && off < 3 then Modified else if cmd == BusRdX then Invalid else Shared
  }

  function DowngradedLine(l: Line, t: Tag, cmd: Cmd, off: Offset): Line {
    if Matches(l, t) then Line(t, Downgraded(l.mesi, cmd, off)) else l
  }

  /** What the snooping of a fetch does to the lines: the copies in the other caches are downgraded. */
  ghost predicate LinesDowngraded(s: System, cs: Caches)
    requires s.bus.ongoing.origid.Core?
  {
    var r, tag, i := s.bus.ongoing.origid.id, TagOf(s.bus.ongoing.addr), IndexOf(s.bus.ongoing.addr);
    && (forall c: CoreId :: cs[c].dram == s.caches[c].dram)
    && (forall c: CoreId, k: Index :: c == r || k != i ==> cs[c].tsram[k] == s.caches[c].tsram[k])
    && (forall c: CoreId :: c != r ==>
          cs[c].tsram[i] == DowngradedLine(s.caches[c].tsram[i], tag, s.bus.ongoing.cmd, s.bus.offset))
  }

  /** Another cache than the requester's has the block modified. */
  predicate OtherOwner(s: System, o: CoreId) {
    && s.bus.ongoing.origid != Core(o)
    && s.caches[o].tsram[IndexOf(s.bus.ongoing.addr)] == Line(TagOf(s.bus.ongoing.addr), Modified)
  }

  /** The transaction with the word of the owner on it. */
  function SuppliedBy(s: System, o: CoreId): Transaction {
    OnBus(s).(cmd := Flush, origid := Core(o),
              data := s.caches[o].dram[Slot(IndexOf(s.bus.ongoing.addr), s.bus.offset)])
  }

  lemma OnBusFields(s: System)
    ensures TagOf(OnBus(s).addr) == TagOf(s.bus.ongoing.addr)
    ensures IndexOf(OnBus(s).addr) == IndexOf(s.bus.ongoing.addr)
    ensures OffsetOf(OnBus(s).addr) == s.bus.offset
    ensures OnBus(s).addr == Join(TagOf(s.bus.ongoing.addr), IndexOf(s.bus.ongoing.addr), s.bus.offset)
  {
    var a := s.bus.ongoing.addr;
    AddressFields(a, TagOf(a), IndexOf(a), s.bus.offset);
  }

  /** One cache sees a fetch, on its way to the owner or with the word of the owner on it. */
  lemma OwnedLine(s: System, o: CoreId, c: CoreId, x: CacheState)
    requires s.bus.ongoing.origid.Core? && s.bus.ongoing.originalCaller == s.bus.ongoing.origid
    requires IsFetch(s.bus.ongoing) && RequesterSilent(s) && s.bus.active && OtherOwner(s, o)
    requires c != o && s.bus.ongoing.origid != Core(c) ==>
      !Matches(s.caches[c].tsram[IndexOf(s.bus.ongoing.addr)], TagOf(s.bus.ongoing.addr))
    requires x == SnoopedCache(s.caches[c], c, if c <= o then OnBus(s) else SuppliedBy(s, o), s.bus.offset)
    ensures x.dram == s.caches[c].dram
    ensures forall k: Index ::
      x.tsram[k] == (
        if k == IndexOf(s.bus.ongoing.addr) && s.bus.ongoing.origid != Core(c)
        then DowngradedLine(s.caches[c].tsram[k], TagOf(s.bus.ongoing.addr), s.bus.ongoing.cmd, s.bus.offset)
        else s.caches[c].tsram[k])
  {
    OnBusFields(s);
  }

  lemma SnoopOwned(s: System, o: CoreId)
    requires s.bus.active && s.bus.ongoing.origid.Core? && s.bus.ongoing.originalCaller == s.bus.ongoing.origid
    requires IsFetch(s.bus.ongoing) && RequesterSilent(s) && SingleWriter(s.caches, s.bus)
    requires OtherOwner(s, o)
    ensures var (cs, t) := SnoopAll(s.caches, OnBus(s), s.bus.offset, 0);
      LinesDowngraded(s, cs) && t == SuppliedBy(s, o)
  {
    var r, tag, i := s.bus.ongoing.origid.id, TagOf(s.bus.ongoing.addr), IndexOf(s.bus.ongoing.addr);
    OnBusFields(s);
    assert Owns(s.caches, s.bus, o, tag, i);
    forall c: CoreId | c != r && c != o
      ensures !Matches(s.caches[c].tsram[i], tag)
    {
      assert Holds(s.caches, s.bus, o, tag, i) && !Refilling(s.bus, c, i);
      assert !Holds(s.caches, s.bus, c, tag, i);
    }
    SnoopSupplied(s.caches, OnBus(s), s.bus.offset, 0, o);
    var cs := SnoopAll(s.caches, OnBus(s), s.bus.offset, 0).0;
    forall c: CoreId
      ensures cs[c].dram == s.caches[c].dram
      ensures forall k: Index ::
        cs[c].tsram[k] == (
          if k == i && c != r then DowngradedLine(s.caches[c].tsram[k], tag, s.bus.ongoing.cmd, s.bus.offset)
          else s.caches[c].tsram[k])
    {
      OwnedLine(s, o, c, cs[c]);
    }
  }

  lemma SnoopUnowned(s: System)
    requires s.bus.active && s.bus.ongoing.origid.Core? && s.bus.ongoing.originalCaller == s.bus.ongoing.origid
    requires IsFetch(s.bus.ongoing) && forall o: CoreId :: !OtherOwner(s, o)
    ensures var (cs, t) := SnoopAll(s.caches, OnBus(s), s.bus.offset, 0);
      LinesDowngraded(s, cs) && t == OnBus(s)
  {
    OnBusFields(s);
    forall c: CoreId
      ensures !Supplies(s.caches[c], c, OnBus(s))
    {
      assert !OtherOwner(s, c);
    }
    SnoopQuiet(s.caches, OnBus(s), s.bus.offset, 0);
  }

  /** A write-back that is still fresh is supplied by its own cache and changes no line. */
  lemma SnoopFlush(s: System)
    requires s.bus.active && s.bus.ongoing.origid.Core? && s.bus.ongoing.originalCaller == s.bus.ongoing.origid
    requires s.bus.ongoing.cmd == Flush && EvictionFresh(s) && SingleWriter(s.caches, s.bus)
    ensures var r, i := s.bus.ongoing.origid.id, IndexOf(s.bus.ongoing.addr);
      var (cs, t) := SnoopAll(s.caches, OnBus(s), s.bus.offset, 0);
      && (forall c: CoreId :: cs[c].dram == s.caches[c].dram && cs[c].tsram == s.caches[c].tsram)
      && t == OnBus(s).(data := s.caches[r].dram[Slot(i, s.bus.offset)])
  {
    var r, tag, i := s.bus.ongoing.origid.id, TagOf(s.bus.ongoing.addr), IndexOf(s.bus.ongoing.addr);
    var t, off := OnBus(s), s.bus.offset;
    OnBusFields(s);
    assert Holds(s.caches, s.bus, r, tag, i);
    assert forall c: CoreId :: c != r ==> !Holds(s.caches, s.bus, c, tag, i);
    SnoopSupplied(s.caches, t, off, 0, r);
  }
}
