/** The cache of one core: its loads and stores, and its reactions to the bus. */
module CacheController {
  import opened Types
  import opened CacheModel
  import opened BusPort
  import opened MainMemory
  import S = SystemModel

  /** The two flags that tell a first hit from the hit after a miss; all caches share them. */
  class MissFlags {
    var read: bool
    var write: bool

    ghost predicate Shows(s: S.System)
      reads this
    {
      read == s.missRead && write == s.missWrite
    }

    constructor ()
      ensures !read && !write
    {
      read, write := false, false;
    }
  }

  class Cache {
    const id: CoreId
    const tsram: array<Line>
    const dram: array<Word>
    var readHits: nat
    var readMisses: nat
    var writeHits: nat
    var writeMisses: nat

    ghost predicate Valid() {
      tsram.Length == 64 && dram.Length == 256
    }

    ghost function State(): CacheState
      requires Valid()
      reads this, tsram, dram
    {
      CacheState(tsram[..], dram[..], Stats(readHits, readMisses, writeHits, writeMisses))
    }

    constructor (id: CoreId)
      ensures Valid() && this.id == id && fresh(tsram) && fresh(dram)
      ensures State() == EmptyCache()
    {
      this.id := id;
      tsram := new Line[64](i => Line(0, Invalid));
      dram := new Word[256](i => 0);
      readHits, readMisses, writeHits, writeMisses := 0, 0, 0, 0;
    }

    // ----- callbacks of the bus -----

    /** Does this cache hold the block of another cache's transaction, and is its line at that index modified? */
    method SharedOrModified(t: Transaction) returns (shared: bool, modified: bool)
      requires Valid()
      ensures shared <==> Core(id) != t.origid && Matches(tsram[IndexOf(t.addr)], TagOf(t.addr))
      ensures modified <==> Core(id) != t.origid && tsram[IndexOf(t.addr)].mesi == Modified
    {
      if Core(id) == t.origid {
        return false, false;
      }
      var line := tsram[IndexOf(t.addr)];
      modified := line.mesi == Modified;
      shared := line.tag == TagOf(t.addr) && line.mesi != Invalid;
    }

    /** A modified line puts its word on the bus. */
    method FlushData(p: Packet)
      requires Valid()
      modifies p
      ensures p.Value() == old(p.Value()).(
        data := dram[Slot(IndexOf(old(p.addr)), OffsetOf(old(p.addr)))], cmd := Flush, origid := Core(id))
    {
      p.data := dram[Slot(IndexOf(p.addr), OffsetOf(p.addr))];
      p.cmd := Flush;
      p.origid := Core(id);
    }

    /** The handlers of the four line states. */
    method HandleState(m: Mesi, p: Packet) returns (next: Mesi)
      requires Valid()
      modifies p
      ensures next == NextState(m, old(p.cmd))
      ensures p.Value() == if m == Modified && old(p.cmd) != NoCmd
        then old(p.Value()).(data := dram[Slot(IndexOf(old(p.addr)), OffsetOf(old(p.addr)))], cmd := Flush,
                           origid := Core(id))
        else old(p.Value())
    {
      match m
      case Invalid =>
        next := Invalid;
      case Shared =>
        if p.cmd == BusRdX {
          return Invalid;
        }
        next := Shared;
      case Exclusive =>
        if p.cmd == BusRd {
          return Shared;
        }
        if p.cmd == BusRdX {
          return Invalid;
        }
        next := Exclusive;
      case Modified =>
        if p.cmd == BusRd {
          FlushData(p);
          return Shared;
        } else if p.cmd == BusRdX {
          FlushData(p);
          return Invalid;
        } else if p.cmd == Flush {
          FlushData(p);
          return Modified;
        }
        next := Modified;
    }

    /** The cache sees the transaction on the bus and may change a line, or the transaction, or both. */
    method Snoop(p: Packet, off: Offset) returns (responded: bool)
      requires Valid()
      modifies tsram, p
      ensures responded == Snoops(old(State()), id, old(p.Value()))
      ensures State() == SnoopedCache(old(State()), id, old(p.Value()), off)
      ensures p.Value() == SnoopedTransaction(old(State()), id, old(p.Value()))
    {
      if Core(id) == p.originalCaller && p.cmd != Flush {
        return false;
      }
      var i := IndexOf(p.addr);
      var line := tsram[i];
      if line.tag != TagOf(p.addr) || line.mesi == Invalid {
        return false;
      }
      var next := HandleState(line.mesi, p);
      if off == 3 || line.mesi != Modified {
        tsram[i] := line.(mesi := next);
      }
      return true;
    }

    /** The answer to a transaction of this cache, word by word. */
    method HandleResponse(p: Packet, off: Offset) returns (off': Offset, done: bool)
      requires Valid()
      modifies tsram, dram
      ensures Response(State(), off', done) == Respond(old(State()), id, p.Value(), off)
    {
      if Core(id) == p.origid && p.cmd != Flush {
        return off, false;
      } else if Core(id) == p.origid && p.cmd == Flush {
        if off == 3 {
          return off, true;
        }
        return off + 1, false;
      }
      var i := IndexOf(p.addr);
      tsram[i] := tsram[i].(tag := TagOf(p.addr));
      if p.cmd == Flush {
        dram[Slot(i, OffsetOf(p.addr))] := p.data;
      }
      if off == 3 {
        if p.shared {
          tsram[i] := tsram[i].(mesi := Shared);
        } else {
          tsram[i] := tsram[i].(mesi := Exclusive);
        }
        return off, true;
      }
      return off + 1, false;
    }

    // ----- loads and stores of the core -----

    /** The cache and the flags are no part of the port. */
    ghost predicate Apart(port: Port, flags: MissFlags)
      reads port, port.queue
    {
      port.Footprint() !! {this, tsram, dram, flags}
    }

    method IsBusy(port: Port) returns (busy: bool)
      requires port.Valid()
      ensures busy <==> port.phase[id] != S.Idle
    {
      busy := port.IsInTransaction(id);
      if !busy {
        busy := port.IsWaitingForTransaction(id);
      }
    }

    /** Queue the write-back of the line in the way, if it is modified. */
    method HandleDirtyBlock(port: Port, a: Addr, ghost b: S.Bus) returns (ghost b': S.Bus)
      requires Valid() && port.Valid() && port.Shows(b) && port.Footprint() !! {this, tsram, dram}
      modifies port.Footprint()
      ensures port.Valid() && fresh(port.Footprint() - old(port.Footprint()))
      ensures b' == (if S.Dirty(State(), a) then S.Enqueue(b, S.Eviction(State(), id, a)) else b) && port.Shows(b')
    {
      b' := b;
      var line := tsram[IndexOf(a)];
      if line.mesi == Modified {
        var evicted := Join(line.tag, IndexOf(a), 0);
        var word := dram[Slot(IndexOf(a), OffsetOf(a))];
        port.AddTransaction(Transaction(Core(0), Core(id), Flush, evicted, word, false));
        b' := S.Enqueue(b, S.Eviction(State(), id, a));
      }
    }

    method HandleTransaction(port: Port, cmd: Cmd, a: Addr, ghost b: S.Bus) returns (ghost b': S.Bus)
      requires port.Valid() && port.Shows(b)
      modifies port.Footprint()
      ensures port.Valid() && fresh(port.Footprint() - old(port.Footprint()))
      ensures b' == S.Enqueue(b, S.Request(id, cmd, a)) && port.Shows(b')
    {
      port.AddTransaction(Transaction(Core(0), Core(id), cmd, a, 0, false));
      b' := S.Enqueue(b, S.Request(id, cmd, a));
    }

    /** The last steps of every miss: room for the block, then the request for it. */
    method QueueMiss(port: Port, cmd: Cmd, a: Addr, ghost b: S.Bus) returns (ghost b': S.Bus)
      requires Valid() && port.Valid() && port.Shows(b) && port.Footprint() !! {this, tsram, dram}
      modifies port.Footprint()
      ensures port.Valid() && fresh(port.Footprint() - old(port.Footprint()))
      ensures b' == S.QueueMiss(b, State(), id, cmd, a) && port.Shows(b')
    {
      b' := HandleDirtyBlock(port, a, b);
      b' := HandleTransaction(port, cmd, a, b');
    }

    /** A hit of a load. */
    method ReadHit(flags: MissFlags, a: Addr) returns (data: Word)
      requires Valid()
      modifies this, flags
      ensures State() == old(State()).(stats := if old(flags.read) then old(State()).stats
                                                else old(State()).stats.(readHits := old(readHits) + 1))
      ensures !flags.read && flags.write == old(flags.write)
      ensures data == dram[Slot(IndexOf(a), OffsetOf(a))]
    {
      data := dram[Slot(IndexOf(a), OffsetOf(a))];
      if !flags.read {
        readHits := readHits + 1;
      } else {
        flags.read := false;
      }
    }

    /** Read_Data_from_Cache: a word if the block is here, otherwise the request for it is queued.  The cache, the port
        and the flags move as these parts of the system s do. */
    method Read(port: Port, flags: MissFlags, a: Addr, ghost s: S.System) returns (data: Option<Word>)
      requires Valid() && port.Valid() && Apart(port, flags)
      requires s.caches[id] == State() && port.Shows(s.bus) && flags.Shows(s)
      modifies this, flags, port.Footprint()
      ensures port.Valid() && fresh(port.Footprint() - old(port.Footprint()))
      ensures var (s', r) := S.Load(s, id, a);
        data == r && State() == s'.caches[id] && port.Shows(s'.bus) && flags.Shows(s')
    {
      var busy := IsBusy(port);
      if busy {
        return None;
      }
      var line := tsram[IndexOf(a)];
      if line.tag == TagOf(a) && line.mesi != Invalid {
        var word := ReadHit(flags, a);
        return Some(word);
      }
      readMisses := readMisses + 1;
      flags.read := true;
      ghost var b := QueueMiss(port, BusRd, a, s.bus);
      return None;
    }

    /** A write to a shared line first has to become exclusive; a delay bubble follows the request. */
    method HandleShareState(port: Port, flags: MissFlags, a: Addr, ghost b: S.Bus) returns (ghost b': S.Bus)
      requires Valid() && port.Valid() && Apart(port, flags) && port.Shows(b)
      modifies this, flags, port.Footprint()
      ensures port.Valid() && fresh(port.Footprint() - old(port.Footprint()))
      ensures b' == S.Enqueue(S.Enqueue(b, S.Request(id, BusRdX, a)), S.BUBBLE) && port.Shows(b')
      ensures State() == old(State()).(stats := old(State()).stats.(writeMisses := old(writeMisses) + 1))
      ensures flags.write && flags.read == old(flags.read)
    {
      writeMisses := writeMisses + 1;
      flags.write := true;
      b' := HandleTransaction(port, BusRdX, a, b);
      port.AddTransaction(Transaction(Core(0), InvalidCaller, NoCmd, 0, 0, false));
      b' := S.Enqueue(b', S.BUBBLE);
    }

    /** A hit of a store on a line that is not shared. */
    method UpdateCacheWrite(flags: MissFlags, a: Addr, d: Word)
      requires Valid()
      modifies this, tsram, dram, flags
      ensures tsram[..] == old(tsram[..])[IndexOf(a) := old(tsram[IndexOf(a)]).(mesi := Modified)]
      ensures dram[..] == old(dram[..])[Slot(IndexOf(a), OffsetOf(a)) := d]
      ensures State().stats == if old(flags.write) then old(State()).stats
                               else old(State()).stats.(writeHits := old(writeHits) + 1)
      ensures !flags.write && flags.read == old(flags.read)
    {
      if !flags.write {
        writeHits := writeHits + 1;
      } else {
        flags.write := false;
      }
      var i := IndexOf(a);
      dram[Slot(i, OffsetOf(a))] := d;
      tsram[i] := tsram[i].(mesi := Modified);
    }

    /** A miss of a store. */
    method WriteMiss(port: Port, flags: MissFlags, a: Addr, ghost b: S.Bus) returns (ghost b': S.Bus)
      requires Valid() && port.Valid() && Apart(port, flags) && port.Shows(b)
      modifies this, flags, port.Footprint()
      ensures port.Valid() && fresh(port.Footprint() - old(port.Footprint()))
      ensures b' == S.QueueMiss(b, old(State()), id, BusRdX, a) && port.Shows(b')
      ensures State() == old(State()).(stats := old(State()).stats.(writeMisses := old(writeMisses) + 1))
      ensures flags.write && flags.read == old(flags.read)
    {
      writeMisses := writeMisses + 1;
      flags.write := true;
      b' := QueueMiss(port, BusRdX, a, b);
    }

    /** Write_Data_to_Cache: true if the block is here in a state that allows the write. */
    method Write(port: Port, flags: MissFlags, a: Addr, d: Word, ghost s: S.System) returns (done: bool)
      requires Valid() && port.Valid() && Apart(port, flags)
      requires s.caches[id] == State() && port.Shows(s.bus) && flags.Shows(s)
      modifies this, tsram, dram, flags, port.Footprint()
      ensures port.Valid() && fresh(port.Footprint() - old(port.Footprint()))
      ensures var (s', r) := S.Store(s, id, a, d);
        done == r && State() == s'.caches[id] && port.Shows(s'.bus) && flags.Shows(s')
    {
      var busy := IsBusy(port);
      if busy {
        return false;
      }
      ghost var b := s.bus;
      var line := tsram[IndexOf(a)];
      if line.tag == TagOf(a) && line.mesi != Invalid {
        if line.mesi == Shared {
          b := HandleShareState(port, flags, a, b);
          return false;
        }
        UpdateCacheWrite(flags, a, d);
        return true;
      }
      b := WriteMiss(port, flags, a, b);
      return false;
    }
  }
}
