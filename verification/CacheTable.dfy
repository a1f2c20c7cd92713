/** The caches registered with the bus, and the two rounds in which the bus asks all of them. */
module CacheTable {
  import opened Types
  import opened CacheModel
  import opened MainMemory
  import opened CacheController
  import opened BusPort
  import S = SystemModel

  /** A load works on the cache of its core, the queue, the phases and a miss flag. */
  lemma LoadTouches(s: S.System, c: CoreId, a: Addr)
    ensures var s' := S.Load(s, c, a).0;
      && s'.caches == s.caches[c := s'.caches[c]] && s'.mem == s.mem
      && s'.bus == s.bus.(queue := s'.bus.queue, phase := s'.bus.phase)
  {
  }

  lemma StoreTouches(s: S.System, c: CoreId, a: Addr, d: Word)
    ensures var s' := S.Store(s, c, a, d).0;
      && s'.caches == s.caches[c := s'.caches[c]] && s'.mem == s.mem
      && s'.bus == s.bus.(queue := s'.bus.queue, phase := s'.bus.phase)
  {
  }

  ghost function Parts(c: Cache): set<object> { {c, c.tsram, c.dram} }

  method NewCaches() returns (c0: Cache, c1: Cache, c2: Cache, c3: Cache)
    ensures c0.Valid() && c1.Valid() && c2.Valid() && c3.Valid() && c0.id == 0 && c1.id == 1 && c2.id == 2 && c3.id == 3
    ensures fresh(Parts(c0)) && fresh(Parts(c1)) && fresh(Parts(c2)) && fresh(Parts(c3))
    ensures Parts(c0) !! Parts(c1) !! Parts(c2) !! Parts(c3)
    ensures c0.State() == c1.State() == c2.State() == c3.State() == EmptyCache()
  {
    c0 := new Cache(0);
    c1 := new Cache(1);
    c2 := new Cache(2);
    c3 := new Cache(3);
  }

  class Table {
    const caches: seq<Cache>
    ghost const Repr: set<object>

    /** Cache c belongs to core c, and no two of them share an array. */
    ghost predicate Valid() {
      && |caches| == 4 && (forall c: nat :: c < 4 ==> caches[c].Valid() && caches[c].id == c)
      && (forall c: nat, d: nat :: c < d < 4 ==> caches[c].tsram != caches[d].tsram && caches[c].dram != caches[d].dram)
      && Repr == Own(0) + Own(1) + Own(2) + Own(3)
    }

    ghost function Own(c: CoreId): set<object>
      requires |caches| == 4
    {
      Parts(caches[c])
    }

    ghost function States(): Caches
      requires Valid()
      reads Repr
    {
      [caches[0].State(), caches[1].State(), caches[2].State(), caches[3].State()]
    }

    /** Four new caches, all lines Invalid. */
    constructor ()
      ensures Valid() && fresh(Repr)
      ensures States() == [EmptyCache(), EmptyCache(), EmptyCache(), EmptyCache()]
    {
      var c0, c1, c2, c3 := NewCaches();
      caches := [c0, c1, c2, c3];
      Repr := Parts(c0) + Parts(c1) + Parts(c2) + Parts(c3);
    }

    /** Ask every cache about the block. */
    method IsSharedLine(t: Transaction) returns (shared: bool, modified: bool)
      requires Valid()
      ensures shared <==> exists c: CoreId ::
          Core(c) != t.origid && Matches(States()[c].tsram[IndexOf(t.addr)], TagOf(t.addr))
      ensures modified <==> exists c: CoreId ::
          Core(c) != t.origid && States()[c].tsram[IndexOf(t.addr)].mesi == Modified
    {
      shared, modified := false, false;
      ghost var cs, k := States(), IndexOf(t.addr);
      ghost var lines := [cs[0].tsram[k], cs[1].tsram[k], cs[2].tsram[k], cs[3].tsram[k]];
      for i := 0 to 4
        invariant shared <==> exists c: nat :: c < i && Core(c) != t.origid && Matches(lines[c], TagOf(t.addr))
        invariant modified <==> exists c: nat :: c < i && Core(c) != t.origid && lines[c].mesi == Modified
      {
        var s, m := caches[i].SharedOrModified(t);
        assert cs[i] == caches[i].State();
        shared := shared || s;
        modified := modified || m;
      }
      assert forall c: nat :: c < 4 ==> lines[c] == cs[c].tsram[k];
    }

    /** Let one cache see the packet; the others keep their state. */
    method SnoopOne(p: Packet, off: Offset, i: CoreId) returns (responded: bool)
      requires Valid() && p !in Repr
      modifies p, Repr
      ensures States() == old(States())[i := SnoopedCache(old(States()[i]), i, old(p.Value()), off)]
      ensures p.Value() == SnoopedTransaction(old(States()[i]), i, old(p.Value()))
    {
      responded := caches[i].Snoop(p, off);
    }

    /** Let every cache see the packet, in the order of the cores. */
    method IsAnyCacheSnoop(p: Packet, off: Offset) returns (responded: bool)
      requires Valid() && p !in Repr
      modifies p, Repr
      ensures (States(), p.Value()) == S.SnoopAll(old(States()), old(p.Value()), off, 0)
    {
      responded := false;
      for i := 0 to 4
        invariant S.SnoopAll(States(), p.Value(), off, i) == S.SnoopAll(old(States()), old(p.Value()), off, 0)
      {
        var r := SnoopOne(p, off, i);
        responded := responded || r;
      }
    }

    /** The response reaches the cache of the requester; the others keep their state. */
    method Respond(p: Packet, off: Offset, r: CoreId) returns (off': Offset, done: bool)
      requires Valid() && p !in Repr
      modifies Repr
      ensures var x := CacheModel.Respond(old(States()[r]), r, p.Value(), off);
        States() == old(States())[r := x.cache] && off' == x.offset && done == x.done
      ensures p.Value() == old(p.Value())
    {
      off', done := caches[r].HandleResponse(p, off);
    }

    /** The caches are apart from each other. */
    lemma Separate(c: CoreId)
      requires Valid()
      ensures forall o: CoreId :: Own(o) <= Repr && (o != c ==> Own(o) !! Own(c))
    {
      forall o: CoreId | o != c
        ensures Own(o) !! Own(c)
      {
        assert caches[o].id != caches[c].id;
        assert caches[o].tsram != caches[c].tsram && caches[o].dram != caches[c].dram;
      }
    }

    /** If only cache c has been written to, only its state has changed. */
    twostate lemma OthersKept(c: CoreId)
      requires Valid() && forall o: CoreId :: o != c ==> unchanged(Own(o))
      ensures States() == old(States())[c := caches[c].State()]
    {
      assert forall o: CoreId :: o != c ==>
          caches[o] in Own(o) && caches[o].tsram in Own(o) && caches[o].dram in Own(o);
    }

    /** A load of core c through its cache; the other caches keep their state. */
    method Read(c: CoreId, port: Port, flags: MissFlags, a: Addr, ghost s: S.System)
      returns (data: Option<Word>, ghost s': S.System)
      requires Valid() && port.Valid() && port.Footprint() !! Repr + {flags} && flags !in Repr
      requires s.caches == States() && port.Shows(s.bus) && flags.Shows(s)
      modifies flags, port.Footprint(), Repr
      ensures port.Valid() && fresh(port.Footprint() - old(port.Footprint()))
      ensures (s', data) == S.Load(s, c, a)
      ensures s'.caches == States() && port.Shows(s'.bus) && flags.Shows(s')
    {
      LoadTouches(s, c, a);
      s' := S.Load(s, c, a).0;
      Separate(c);
      data := caches[c].Read(port, flags, a, s);
      OthersKept(c);
    }

    /** A store of core c through its cache; the other caches keep their state. */
    method Write(c: CoreId, port: Port, flags: MissFlags, a: Addr, d: Word, ghost s: S.System)
      returns (done: bool, ghost s': S.System)
      requires Valid() && port.Valid() && port.Footprint() !! Repr + {flags} && flags !in Repr
      requires s.caches == States() && port.Shows(s.bus) && flags.Shows(s)
      modifies flags, port.Footprint(), Repr
      ensures port.Valid() && fresh(port.Footprint() - old(port.Footprint()))
      ensures (s', done) == S.Store(s, c, a, d)
      ensures s'.caches == States() && port.Shows(s'.bus) && flags.Shows(s')
    {
      StoreTouches(s, c, a, d);
      s' := S.Store(s, c, a, d).0;
      Separate(c);
      done := caches[c].Write(port, flags, a, d, s);
      OthersKept(c);
    }
  }
}
