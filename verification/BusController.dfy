/** The bus: it takes one transaction at a time off the queue and moves one word in each iteration. */
module BusController {
  import opened Types
  import opened BusPort
  import opened MainMemory
  import opened CacheTable
  import CacheModel
  import S = SystemModel

  lemma ServeKeepsQueue(s: S.System)
    requires s.bus.ongoing.origid.Core?
    ensures S.Serve(s).bus.queue == s.bus.queue && (S.Serve(s).bus.active ==> s.bus.active)
    ensures S.Serve(s).bus.ongoing == s.bus.ongoing
  {
  }

  /** The system after the answer a of the memory. */
  ghost function Finished(s: S.System, cs: CacheModel.Caches, a: S.MemoryAnswer): S.System
    requires s.bus.ongoing.origid.Core?
  {
    if !a.ready then s.(caches := cs, mem := a.mem)
    else
      var r := s.bus.ongoing.origid.id;
      var x := CacheModel.Respond(cs[r], r, a.t, s.bus.offset);
      s.(caches := cs[r := x.cache], mem := a.mem, bus := S.Advance(s.bus, x.offset, x.done))
  }

  lemma CompleteIsFinished(s: S.System, cs: CacheModel.Caches, t: Transaction, direct: bool)
    requires s.bus.ongoing.origid.Core?
    ensures S.Complete(s, cs, t, direct) == Finished(s, cs, S.MemoryCycle(s.mem, t, direct))
  {
  }

  class Controller {
    const port: Port
    const table: Table
    const memory: MainMemory
    const ongoing: Packet
    var active: bool
    var offset: Offset
    var firstShared: bool

    /** The objects that the second half of an iteration works on are apart from each other, once and for all. */
    ghost predicate Wired() {
      && table.Valid() && memory.Valid() && port.phase.Length == 4
      && {this, memory, memory.words, ongoing, port.phase} !! table.Repr
    }

    ghost predicate Valid()
      reads port, port.queue, port.queue.Repr
    {
      Wired() && port.Valid() && port.queue.Repr !! {this, memory, memory.words, ongoing} + table.Repr
    }

    ghost predicate Started()
      reads this, ongoing
    {
      active ==> ongoing.origid.Core?
    }

    ghost function BusState(): S.Bus
      requires port.Valid()
      reads this, port, port.queue, port.queue.Repr, port.phase, ongoing
    {
      S.Bus(port.queue.Contents(), port.phase[..], ongoing.Value(), active, offset, firstShared)
    }

    /** Everything except the queue is as in the state s (the miss flags belong to the caches). */
    ghost predicate ShowsTransfer(s: S.System)
      requires Wired()
      reads this, port.phase, memory, memory.words, ongoing, table.Repr
    {
      && s.caches == table.States() && s.mem == memory.State() && s.bus.ongoing == ongoing.Value()
      && s.bus.phase == port.phase[..] && s.bus.active == active && s.bus.offset == offset
      && s.bus.firstShared == firstShared
    }

    /** The caches, the bus and the memory are in the state s. */
    ghost predicate Shows(s: S.System)
      requires Wired()
      reads this, port, port.queue, port.phase, memory, memory.words, ongoing, table.Repr
    {
      ShowsTransfer(s) && s.bus.queue == port.queue.Contents()
    }

    constructor (port: Port, table: Table, memory: MainMemory)
      requires port.Valid() && table.Valid() && memory.Valid()
      requires port.Footprint() !! {memory, memory.words} + table.Repr && table.Repr !! {memory, memory.words}
      ensures Valid() && Started() && this.port == port && this.table == table && this.memory == memory
      ensures fresh(ongoing)
      ensures BusState() == S.Bus(port.queue.Contents(), port.phase[..],
                                  Transaction(Core(0), Core(0), NoCmd, 0, 0, false), false, 0, true)
    {
      this.port, this.table, this.memory := port, table, memory;
      ongoing := new Packet(Transaction(Core(0), Core(0), NoCmd, 0, 0, false));
      active, offset, firstShared := false, 0, true;
    }

    // ----- the first half of an iteration -----

    method RetireFinished()
      requires port.Valid()
      modifies port.phase
      ensures port.Valid() && BusState() == old(BusState()).(phase := S.Retired(old(BusState())))
    {
      if ongoing.origid.Core? && port.phase[ongoing.origid.id] == S.Finally {
        port.phase[ongoing.origid.id] := S.Idle;
      }
    }

    /** Start the transaction that has been taken off the queue. */
    method Start(t: Transaction)
      requires Wired() && t.origid.Core?
      modifies `offset, `active, ongoing, port.phase
      ensures ongoing.Value() == t.(originalCaller := t.origid) && active && offset == 0
      ensures port.phase[..] == old(port.phase[..])[t.origid.id := S.Operation]
    {
      ongoing.Assign(t);
      ongoing.originalCaller := ongoing.origid;
      active := true;
      port.phase[ongoing.origid.id] := S.Operation;
      offset := 0;
    }

    /** If the bus is free, take the next transaction from the queue. */
    method TakeNext()
      requires Valid() && Started() && S.Retired(BusState()) == BusState().phase
      modifies `offset, `active, `firstShared, ongoing, port.Footprint()
      ensures Valid() && Started() && port.Footprint() == old(port.Footprint())
      ensures BusState() == S.BeginBus(old(BusState()))
    {
      var empty := port.queue.IsEmpty();
      if empty && !active {
        ongoing.origid := InvalidCaller;
        return;
      }
      if !active {
        firstShared := true;
        var t := port.queue.Dequeue();
        if t == None {
          return;
        }
        if !t.value.origid.Core? {
          ongoing.Assign(t.value);
          return;
        }
        Start(t.value);
      }
    }

    method BeginIteration()
      requires Valid() && Started()
      modifies `offset, `active, `firstShared, ongoing, port.Footprint()
      ensures Valid() && Started() && port.Footprint() == old(port.Footprint())
      ensures BusState() == S.BeginBus(old(BusState()))
    {
      RetireFinished();
      TakeNext();
    }

    // ----- the second half -----

    /** The packet that stands for the transaction on the bus in this iteration. */
    method PutOnBus() returns (p: Packet, modified: bool)
      requires Wired()
      ensures fresh(p) && (modified <==> S.ModifiedSignal(table.States(), ongoing.Value()))
      ensures p.Value() == ongoing.Value().(addr := WithOffset(ongoing.addr, offset),
                                            shared := S.SharedSignal(table.States(), ongoing.Value()))
    {
      var t := Transaction(ongoing.originalCaller, ongoing.origid, ongoing.cmd, ongoing.addr, ongoing.data,
          ongoing.shared);
      p := new Packet(t);
      var shared, m := table.IsSharedLine(t);
      p.addr := WithOffset(ongoing.addr, offset);
      p.shared := shared;
      modified := m;
    }

    /** The bus after a word has reached the requester. */
    method AdvanceTransfer(off: Offset, done: bool)
      requires port.phase.Length == 4 && ongoing.origid.Core?
      modifies `offset, `active, port.phase
      ensures offset == off && active == (old(active) && !done)
      ensures port.phase[..] == if done then old(port.phase[..])[ongoing.origid.id := S.Finally]
          else old(port.phase[..])
    {
      offset := off;
      if done {
        port.phase[ongoing.origid.id] := S.Finally;
        active := false;
      }
    }

    /** The word goes to the requester. */
    method Deliver(p: Packet, ghost x: CacheModel.Response)
      requires Wired() && ongoing.origid.Core? && p !in table.Repr
      requires x == CacheModel.Respond(table.States()[ongoing.origid.id], ongoing.origid.id, p.Value(), offset)
      modifies `offset, `active, port.phase, table.Repr
      ensures table.States() == old(table.States())[ongoing.origid.id := x.cache]
      ensures offset == x.offset && active == (old(active) && !x.done)
      ensures port.phase[..] == if x.done then old(port.phase[..])[ongoing.origid.id := S.Finally]
          else old(port.phase[..])
    {
      var off, done := table.Respond(p, offset, ongoing.origid.id);
      AdvanceTransfer(off, done);
    }

    /** When the memory is ready, the word goes to the requester. */
    method FinishIteration(p: Packet, ghost s: S.System, ghost a: S.MemoryAnswer, ready: bool)
      returns (ghost s': S.System)
      requires Wired() && ongoing.origid.Core? && p !in table.Repr && p != ongoing
      requires p.Value() == a.t && ready == a.ready && ShowsTransfer(s.(caches := table.States(), mem := a.mem))
      modifies `offset, `active, port.phase, table.Repr
      ensures s' == Finished(s, old(table.States()), a) && ShowsTransfer(s')
    {
      s' := Finished(s, table.States(), a);
      if ready {
        ghost var r := ongoing.origid.id;
        Deliver(p, CacheModel.Respond(table.States()[r], r, a.t, offset));
      }
    }

    /** After the snooping: memory advances and, when it is ready, the word goes to the requester. */
    method CompleteIteration(p: Packet, direct: bool, ghost s: S.System) returns (ghost s': S.System)
      requires Wired() && ongoing.origid.Core? && p !in table.Repr && p != ongoing
      requires ShowsTransfer(s.(caches := table.States()))
      modifies `offset, `active, p, memory, memory.words, port.phase, table.Repr
      ensures s' == S.Complete(s, old(table.States()), old(p.Value()), direct) && ShowsTransfer(s')
    {
      ghost var a := S.MemoryCycle(s.mem, p.Value(), direct);
      CompleteIsFinished(s, table.States(), p.Value(), direct);
      var ready := memory.HandleTransaction(p, direct);
      s' := FinishIteration(p, s, a, ready);
    }

    method ServeIteration(ghost s: S.System) returns (ghost s': S.System)
      requires Wired() && ongoing.origid.Core? && ShowsTransfer(s)
      modifies `offset, `active, `firstShared, memory, memory.words, port.phase, table.Repr
      ensures s' == S.Serve(s) && ShowsTransfer(s')
    {
      var p, modified := PutOnBus();
      if modified && firstShared {
        firstShared := false;
        return S.Serve(s);
      }
      var responded := table.IsAnyCacheSnoop(p, offset);
      s' := CompleteIteration(p, modified, s);
    }

    /** The first half leaves the caches and the memory alone. */
    method StartIteration(ghost s: S.System) returns (ghost s': S.System)
      requires Valid() && Started() && Shows(s)
      modifies `offset, `active, `firstShared, ongoing, port.Footprint()
      ensures Valid() && Started() && port.Footprint() == old(port.Footprint())
      ensures s' == S.Begin(s) && Shows(s')
    {
      s' := S.Begin(s);
      assert BusState() == s.bus;
      BeginIteration();
      assert BusState() == s'.bus;
    }

    /** What the second half writes to is apart from the queue. */
    twostate lemma QueueKept()
      requires old(Valid()) && unchanged(port.queue, old(port.queue.Repr))
      ensures Valid() && port.Footprint() == old(port.Footprint())
      ensures port.queue.Contents() == old(port.queue.Contents())
    {
    }

    /** The second half leaves the queue alone. */
    method EndIteration(ghost s: S.System) returns (ghost s': S.System)
      requires Valid() && Started() && Shows(s) && ongoing.origid.Core?
      modifies `offset, `active, `firstShared, memory, memory.words, port.phase, table.Repr
      ensures Valid() && Started() && port.Footprint() == old(port.Footprint())
      ensures s' == S.Serve(s) && Shows(s')
    {
      ServeKeepsQueue(s);
      hide S.Serve;
      s' := ServeIteration(s);
      QueueKept();
    }

    /** Run_Bus_Iteration: one step of the bus model. */
    method RunIteration(ghost s: S.System) returns (ghost s': S.System)
      requires Valid() && Started() && Shows(s)
      modifies this, ongoing, port.Footprint(), memory, memory.words, table.Repr
      ensures Valid() && Started() && port.Footprint() == old(port.Footprint())
      ensures s' == S.Tick(s) && Shows(s')
    {
      s' := StartIteration(s);
      if active {
        s' := EndIteration(s');
      }
    }
  }
}
