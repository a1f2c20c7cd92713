/** How long the bus takes: exactly 5, 20 or 21 iterations for each transaction, in every run. */
module Latency {
  import opened Types
  import opened CacheModel
  import opened SystemModel
  import opened Structure

  /** The transaction on the bus has had n iterations; `direct` if another cache was seen modified in the first one.
      That iteration is then skipped and memory needs no delay; otherwise at most one later iteration is skipped. */
  predicate InService(s: System, n: nat, direct: bool) {
    && s.bus.active && s.bus.ongoing.origid.Core?
    && if direct then
         && !s.bus.firstShared
         && (if s.mem.busy then s.mem.counter >= 17 && n == s.mem.counter - 15
             else n == 1 && ModifiedSignal(s.caches, s.bus.ongoing))
       else s.mem.busy && n == s.mem.counter + (if s.bus.firstShared then 0 else 1)
  }

  /** The iterations that a transaction takes in all; `late` if another cache was seen modified in a later one. */
  function Takes(direct: bool, late: bool): nat { if direct then 5 else if late then 21 else 20 }

  lemma FirstIteration(s: System)
    requires Structured(s) && !s.bus.active && s.bus.queue != [] && s.bus.queue[0].origid.Core?
    ensures InService(Tick(s), 1, ModifiedSignal(s.caches, s.bus.queue[0]))
  {
    var b := Begin(s);
    assert WellFormed(Pending(s.bus)[|Pending(s.bus)| - |s.bus.queue|]);
    SnoopFrame(b.caches, OnBus(b), 0, 0);
    assert ModifiedSignal(b.caches, b.bus.ongoing) == ModifiedSignal(s.caches, s.bus.queue[0]);
  }

  /** A response is complete exactly with the fourth word. */
  lemma DoneWithLastWord(s: System, cs: Caches, t: Transaction, direct: bool)
    requires s.bus.active && s.bus.ongoing.origid.Core? && t.cmd != NoCmd
    ensures var (a, s') := (MemoryCycle(s.mem, t, direct), Complete(s, cs, t, direct));
      && s'.mem == a.mem && (s'.bus.active <==> !(a.ready && s.bus.offset == 3))
      && s'.bus.ongoing == s.bus.ongoing && s'.bus.firstShared == s.bus.firstShared
  {
  }

  lemma NextIteration(s: System, n: nat, direct: bool)
    requires Structured(s) && InService(s, n, direct)
    ensures Tick(s).bus.firstShared == (s.bus.firstShared && !ModifiedSignal(s.caches, s.bus.ongoing))
    ensures if Tick(s).bus.active then InService(Tick(s), n + 1, direct)
            else n + 1 == Takes(direct, !Tick(s).bus.firstShared)
  {
    var (cs, t) := SnoopAll(s.caches, OnBus(s), s.bus.offset, 0);
    assert BeginBus(s.bus) == s.bus && Begin(s) == s;
    assert WellFormed(Pending(s.bus)[0]);
    SnoopFrame(s.caches, OnBus(s), s.bus.offset, 0);
    DoneWithLastWord(s, cs, t, ModifiedSignal(s.caches, s.bus.ongoing));
  }

  /** A core does not touch the transfer, and takes no line out of the state Modified. */
  lemma CoreLeavesBus(s: System, e: Event)
    requires !e.BusTick?
    ensures var s' := Step(s, e);
      && s'.mem == s.mem && s'.bus == s.bus.(queue := s'.bus.queue, phase := s'.bus.phase)
      && forall c: CoreId, i: Index :: s.caches[c].tsram[i].mesi == Modified ==> s'.caches[c].tsram[i].mesi == Modified
  {
  }

  /** What the cores do meanwhile does not matter. */
  lemma CoreEvent(s: System, s': System, n: nat, direct: bool)
    requires InService(s, n, direct)
    requires s'.mem == s.mem && s'.bus == s.bus.(queue := s'.bus.queue, phase := s'.bus.phase)
    requires forall c: CoreId, i: Index :: s.caches[c].tsram[i].mesi == Modified ==>
        s'.caches[c].tsram[i].mesi == Modified
    ensures InService(s', n, direct)
  {
    if ModifiedSignal(s.caches, s.bus.ongoing) {
      var i := IndexOf(s.bus.ongoing.addr);
      var c: nat :| c < 4 && Core(c) != s.bus.ongoing.origid && s.caches[c].tsram[i].mesi == Modified;
      assert s'.caches[c].tsram[i].mesi == Modified;
    }
  }

  function Ticks(es: seq<Event>): nat
    decreases |es|
  {
    if es == [] then 0 else (if es[0].BusTick? then 1 else 0) + Ticks(es[1..])
  }

  /** The number of iterations after which the transaction on the bus is over, counting from n; None if it is not. */
  function FinishedAfter(s: System, es: seq<Event>, n: nat): Option<nat>
    decreases |es|
  {
    if !s.bus.active then Some(n)
    else if es == [] then None
    else FinishedAfter(Step(s, es[0]), es[1..], if es[0].BusTick? then n + 1 else n)
  }

  /** Another cache has a modified line at the index of the transaction, whatever its tag. */
  predicate ModifiedElsewhere(cs: Caches, t: Transaction) {
    exists c: CoreId :: Core(c) != t.origid && cs[c].tsram[IndexOf(t.addr)].mesi == Modified
  }

  /** Some iteration of the service that begins in s finds it so. */
  predicate SeenModified(s: System, es: seq<Event>)
    decreases |es|
  {
    && s.bus.active && es != []
    && ((es[0].BusTick? && ModifiedElsewhere(s.caches, s.bus.ongoing)) || SeenModified(Step(s, es[0]), es[1..]))
  }

  lemma {:induction false} ServiceLatency(s: System, es: seq<Event>, n: nat, direct: bool)
    requires Structured(s) && InService(s, n, direct)
    ensures var f := FinishedAfter(s, es, n);
      if f.Some? then f.value == Takes(direct, !s.bus.firstShared || SeenModified(s, es))
      else n + Ticks(es) < Takes(direct, !s.bus.firstShared || SeenModified(s, es))
    decreases |es|
  {
    if es != [] {
      var s', n' := Step(s, es[0]), if es[0].BusTick? then n + 1 else n;
      StepStructured(s, es[0]);
      if es[0].BusTick? {
        NextIteration(s, n, direct);
      } else {
        CoreLeavesBus(s, es[0]);
        CoreEvent(s, s', n, direct);
      }
      if s'.bus.active {
        ServiceLatency(s', es[1..], n', direct);
      }
    }
  }

  /** Exact latency, counted from the iteration that takes it off the queue: a transaction is over after exactly 5
      iterations if another cache is modified at its index in that iteration; otherwise after 21 if one is in some later
      iteration, and after 20 if none is, whatever the cores do. */
  lemma ExactLatency(s: System, es: seq<Event>)
    requires Structured(s) && !s.bus.active && s.bus.queue != [] && s.bus.queue[0].origid.Core?
    ensures var direct, f := ModifiedElsewhere(s.caches, s.bus.queue[0]), FinishedAfter(Tick(s), es, 1);
      var total := if direct then 5 else if SeenModified(Tick(s), es) then 21 else 20;
      if f.Some? then f.value == total else 1 + Ticks(es) < total
  {
    FirstIteration(s);
    StepStructured(s, BusTick);
    ServiceLatency(Tick(s), es, 1, ModifiedSignal(s.caches, s.bus.queue[0]));
  }

  /** A transaction for a block that some other cache has modified is over after exactly 5 iterations. */
  lemma OwnedBlockTakesFive(s: System, es: seq<Event>, o: CoreId)
    requires Structured(s) && !s.bus.active && s.bus.queue != [] && s.bus.queue[0].origid.Core?
    requires Core(o) != s.bus.queue[0].origid
    requires s.caches[o].tsram[IndexOf(s.bus.queue[0].addr)] == Line(TagOf(s.bus.queue[0].addr), Modified)
    ensures var f := FinishedAfter(Tick(s), es, 1); if f.Some? then f.value == 5 else 1 + Ticks(es) < 5
  {
    ExactLatency(s, es);
  }

  /** One that finds no other cache modified at its index takes at least 20. */
  lemma UnownedBlockTakesTwenty(s: System, es: seq<Event>)
    requires Structured(s) && !s.bus.active && s.bus.queue != [] && s.bus.queue[0].origid.Core?
    requires forall c: CoreId :: Core(c) != s.bus.queue[0].origid ==>
      s.caches[c].tsram[IndexOf(s.bus.queue[0].addr)].mesi != Modified
    ensures var f := FinishedAfter(Tick(s), es, 1);
      if f.Some? then f.value == 20 || f.value == 21 else 1 + Ticks(es) < 21
  {
    ExactLatency(s, es);
  }
}
