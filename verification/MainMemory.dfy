/** The transaction packet that the bus hands to caches and memory, and the main memory itself. */
module MainMemory {
  import opened Types
  import M = SystemModel

  /** A transaction that the components along its way rewrite in place. */
  class Packet {
    var originalCaller: Caller
    var origid: Caller
    var cmd: Cmd
    var addr: Addr
    var data: Word
    var shared: bool

    ghost function Value(): Transaction
      reads this
    {
      Transaction(originalCaller, origid, cmd, addr, data, shared)
    }

    constructor (t: Transaction)
      ensures Value() == t
    {
      originalCaller, origid, cmd, addr, data, shared := t.originalCaller, t.origid, t.cmd, t.addr, t.data, t.shared;
    }

    method Assign(t: Transaction)
      modifies this
      ensures Value() == t
    {
      originalCaller, origid, cmd, addr, data, shared := t.originalCaller, t.origid, t.cmd, t.addr, t.data, t.shared;
    }
  }

  class MainMemory {
    const words: array<Word>
    var busy: bool
    var counter: nat

    ghost predicate Valid() {
      words.Length == 0x10_0000
    }

    ghost function State(): M.Memory
      requires Valid()
      reads this, words
    {
      M.Memory(words[..], busy, counter)
    }

    constructor (contents: array<Word>)
      requires contents.Length == 0x10_0000
      ensures Valid() && words == contents && State() == M.Memory(contents[..], false, 0)
    {
      words, busy, counter := contents, false, 0;
    }

    method InitializeTransaction(direct: bool)
      modifies this
      ensures busy
      ensures counter == if old(busy) then old(counter) else if direct then 16 else 0
    {
      if !busy {
        busy := true;
        if direct {
          counter := 16;
        } else {
          counter := 0;
        }
      }
    }

    method ProcessCommand(p: Packet)
      requires Valid()
      modifies words, p
      ensures (words[..], p.Value()) == M.ServeWord(old(words[..]), old(p.Value()))
    {
      if p.cmd == BusRd || p.cmd == BusRdX {
        p.origid := Caller.MainMemory;
        p.cmd := Flush;
        p.data := words[p.addr];
      } else if p.cmd == Flush {
        words[p.addr] := p.data;
      }
    }

    /** One cycle of the memory on behalf of the transaction on the bus. */
    method HandleTransaction(p: Packet, direct: bool) returns (ready: bool)
      requires Valid()
      modifies this, words, p
      ensures Valid()
      ensures M.MemoryAnswer(State(), p.Value(), ready) == M.MemoryCycle(old(State()), old(p.Value()), direct)
    {
      if p.cmd == NoCmd {
        return false;
      }
      InitializeTransaction(direct);
      if counter >= 16 {
        ProcessCommand(p);
        if counter == 19 {
          busy := false;
        }
        counter := counter + 1;
        return true;
      }
      counter := counter + 1;
      return false;
    }
  }
}
