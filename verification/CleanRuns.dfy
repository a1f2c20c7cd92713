/** Runs in which no miss finds a modified line in its way: the bus protocol is then safe under any sharing. */
module CleanRuns {
  import opened Types
  import opened CacheModel
  import opened SystemModel
  import opened Structure
  import opened Snooping
  import opened Exclusion
  import opened FlatMemory

  /** The attempt does not have to write a line back first. */
  predicate NoEviction(s: System, e: Event) {
    !e.BusTick? && s.bus.phase[e.core] == Idle && !Hit(s.caches[e.core], e.addr) ==> !Dirty(s.caches[e.core], e.addr)
  }

  predicate NoEvictions(s: System, es: seq<Event>)
    decreases |es|
  {
    es == [] || (NoEviction(s, es[0]) && NoEvictions(Step(s, es[0]), es[1..]))
  }

  /** Nothing is being written back, and the line of the requester on the bus is not modified. */
  ghost predicate Unburdened(s: System) {
    && (forall k :: 0 <= k < |s.bus.queue| ==> s.bus.queue[k].cmd != Flush)
    && (Recent(s.bus) ==> s.bus.ongoing.cmd != Flush)
    && (s.bus.active && s.bus.ongoing.origid.Core? ==> !Dirty(s.caches[s.bus.ongoing.origid.id], s.bus.ongoing.addr))
  }

  lemma BeginUnburdened(s: System)
    requires Structured(s) && Unburdened(s)
    ensures Unburdened(Begin(s))
  {
    var b, p := s.bus, Pending(s.bus);
    if !b.active && b.queue != [] {
      assert p[|p| - |b.queue|] == b.queue[0] && WellFormed(b.queue[0]);
      assert CleanFetch(s.caches, b.queue[0]);
    }
  }

  lemma UnburdenedSafe(s: System)
    requires Unburdened(s)
    ensures EvictionFresh(s) && RefillUndisturbed(s)
  {
  }

  lemma ServeUnburdened(s: System)
    requires Structured(s) && Unburdened(s) && s.bus.active && SingleWriter(s.caches, s.bus) && RefillUndisturbed(s)
    ensures Unburdened(Serve(s))
  {
    assert WellFormed(Pending(s.bus)[0]);
    if !Skips(s) {
      ServeFetch(s);
    }
  }

  lemma TickUnburdened(s: System)
    requires Structured(s) && SingleWriter(s.caches, s.bus) && Unburdened(s)
    ensures Unburdened(Tick(s)) && BusSafe(s)
  {
    BeginStructured(s);
    BeginUnburdened(s);
    BeginExclusive(s);
    UnburdenedSafe(Begin(s));
    if Begin(s).bus.active {
      ServeUnburdened(Begin(s));
    }
  }

  lemma AttemptUnburdened(s: System, e: Event)
    requires Structured(s) && Unburdened(s) && !e.BusTick? && NoEviction(s, e)
    ensures Unburdened(Step(s, e))
  {
    AttemptEffect(s, e);
    assert forall k :: 0 <= k < |AttemptGroup(s, e)| ==> AttemptGroup(s, e)[k].cmd != Flush;
  }

  lemma StepUnburdened(s: System, e: Event)
    requires Structured(s) && SingleWriter(s.caches, s.bus) && Unburdened(s) && NoEviction(s, e)
    ensures Unburdened(Step(s, e)) && (e.BusTick? ==> BusSafe(s))
  {
    if e.BusTick? {
      TickUnburdened(s);
    } else {
      AttemptUnburdened(s, e);
    }
  }

  lemma {:induction false} CleanRunSafe(s: System, es: seq<Event>)
    requires Structured(s) && SingleWriter(s.caches, s.bus) && Unburdened(s) && NoEvictions(s, es)
    ensures SafeRun(s, es)
    decreases |es|
  {
    if es != [] {
      StepUnburdened(s, es[0]);
      StepStructured(s, es[0]);
      StepExclusive(s, es[0]);
      CleanRunSafe(Step(s, es[0]), es[1..]);
    }
  }

  /** Without dirty evictions the caches keep the single-writer property at every moment, under any sharing, with
      upgrade races and with stores of the owner while its block is being transferred. */
  lemma CleanRunsExclusive(ram: Ram, es: seq<Event>)
    requires NoEvictions(Start(ram), es)
    ensures SingleWriter(Run(Start(ram), es).caches, Run(Start(ram), es).bus)
  {
    StartStructured(ram);
    StartCoherent(ram);
    CleanRunSafe(Start(ram), es);
    RunExclusive(Start(ram), es);
  }

  /** No store that returns true comes after its word has been passed on. */
  predicate StoresInTime(s: System, es: seq<Event>)
    decreases |es|
  {
    es == [] ||
    ((es[0].StoreBy? && Store(s, es[0].core, es[0].addr, es[0].data).1 ==> StoreInTime(s, es[0].addr))
     && StoresInTime(Step(s, es[0]), es[1..]))
  }

  lemma {:induction false} SafeAndInTime(s: System, es: seq<Event>)
    requires SafeRun(s, es) && StoresInTime(s, es)
    ensures Guarded(s, es)
    decreases |es|
  {
    if es != [] {
      SafeAndInTime(Step(s, es[0]), es[1..]);
    }
  }

  /** Without dirty evictions and late stores, every load yields the latest store to its address, under any sharing. */
  lemma CleanRunsAreFlat(ram: Ram, es: seq<Event>)
    requires NoEvictions(Start(ram), es) && StoresInTime(Start(ram), es)
    ensures LoadsAgree(Start(ram), es, ram)
  {
    StartStructured(ram);
    StartCoherent(ram);
    CleanRunSafe(Start(ram), es);
    SafeAndInTime(Start(ram), es);
    RunCoherent(Start(ram), es, ram);
  }
}
