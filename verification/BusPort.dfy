/** The side of the bus that the cores see: they add transactions and ask whether their own ones are still pending. */
module BusPort {
  import opened Types
  import opened SystemModel
  import opened BusQueue

  class Port {
    const queue: TransactionQueue
    const phase: array<Phase>

    ghost predicate Valid()
      reads this, queue, queue.Repr
    {
      phase.Length == 4 && queue.Valid() && phase !in queue.Repr
    }

    constructor ()
      ensures Valid() && queue.Contents() == [] && phase[..] == [Idle, Idle, Idle, Idle]
      ensures fresh(queue.Repr) && fresh(phase)
    {
      queue := new TransactionQueue();
      phase := new Phase[4](i => Idle);
    }

    ghost function Footprint(): set<object>
      reads this, queue
    {
      queue.Repr + {phase}
    }

    method AddTransaction(t: Transaction)
      requires Valid()
      modifies Footprint()
      ensures Valid() && fresh(Footprint() - old(Footprint()))
      ensures queue.Contents() == old(queue.Contents()) + [t]
      ensures phase[..] == if t.origid.Core? then old(phase[..])[t.origid.id := Waiting] else old(phase[..])
    {
      queue.Enqueue(t);
      if t.origid == InvalidCaller {
        return;
      }
      if t.origid.Core? {
        phase[t.origid.id] := Waiting;
      }
    }

    /** The queue and the phases of the bus model are those of this object. */
    ghost predicate Shows(b: Bus)
      reads queue, phase
    {
      b.queue == queue.Contents() && b.phase == phase[..]
    }

    method IsInTransaction(c: CoreId) returns (r: bool)
      requires Valid()
      ensures r <==> phase[c] != Idle
    {
      r := phase[c] != Idle;
    }

    method IsWaitingForTransaction(c: CoreId) returns (r: bool)
      requires Valid()
      ensures r <==> phase[c] == Waiting
    {
      r := phase[c] == Waiting;
    }
  }
}
