/** What a core finds in its cache: in a block-private system the lines, and the misses that are counted, are those of a
    direct-mapped cache that sees the accesses of the sequential run alone. */
module SimulatorLocality {
  import opened Types
  import opened CacheModel
  import opened Isa
  import opened PipelineModel
  import opened PipelineRefinement
  import opened PipelineSpacing
  import opened Simulator
  import opened Residence
  import S = SystemModel
  import Structure
  import FlatMemory
  import PrivateRuns
  import Progress
  import MissCounts

  /** The misses of the first x accesses of the sequential run, by loads or by stores. */
  function Misses(prog: Program, s0: Machine, x: nat, store: bool): nat {
    if x == 0 then 0
    else
      Misses(prog, s0, x - 1, store)
      + MissCounts.One(Nth(prog, s0, x - 1).opcode == (if store then SW else LW) && !Found(prog, s0, x - 1))
  }

  /** The lines of core i, when x instructions have used the memory; the line of an access that waits is left out. */
  ghost predicate Mirrors(s: S.System, run: seq<S.Event>, i: CoreId, prog: Program, s0: Machine, x: nat,
                          out: Option<Index>) {
    forall j: Index :: out != Some(j) ==> Fits(s.caches[i].tsram[j], Resident(prog, s0, x, j), run, i, j)
  }

  predicate Missed(s: S.System, i: CoreId, prog: Program, s0: Machine, x: nat) {
    var n := s.caches[i].stats;
    n.readMisses == Misses(prog, s0, x, false) && n.writeMisses == Misses(prog, s0, x, true)
  }

  /** Does core i store to the block of this address? */
  predicate Owns(run: seq<S.Event>, i: CoreId, a: Addr) { PrivateRuns.Writes(run, i, TagOf(a), IndexOf(a)) }

  /** Between two accesses. */
  ghost predicate Settled(s: S.System, run: seq<S.Event>, i: CoreId, prog: Program, s0: Machine, x: nat) {
    s.bus.phase[i] == S.Idle && Mirrors(s, run, i, prog, s0, x, None) && Missed(s, i, prog, s0, x)
  }

  /** While the x-th instruction waits for its block. */
  ghost predicate Awaiting(s: S.System, run: seq<S.Event>, i: CoreId, prog: Program, s0: Machine, x: nat) {
    var a := AccessAt(prog, s0, x);
    && Mirrors(s, run, i, prog, s0, x, Some(IndexOf(a))) && Missed(s, i, prog, s0, x + 1)
    && Progress.Served(s, i, a, Owns(run, i, a)) && Progress.Allowed(run, i, a, Owns(run, i, a))
  }

  // ----- what the others do -----

  lemma StatsStay(s: S.System, e: S.Event, i: CoreId)
    requires e.BusTick? || e.core != i
    ensures S.Step(s, e).caches[i].stats == s.caches[i].stats
  {
    if e.BusTick? {
      MissCounts.TickStats(s);
    } else {
      Structure.AttemptEffect(s, e);
    }
  }

  /** An event that is not one of core i. */
  lemma OtherFits(s: S.System, e: S.Event, flat: Ram, run: seq<S.Event>, i: CoreId, j: Index, r: Option<Tag>)
    requires Structure.Structured(s) && FlatMemory.Coherent(s, flat) && PrivateRuns.Private(s, run)
    requires PrivateRuns.BlockPrivate(run) && (e.BusTick? || e.core != i)
    requires Fits(s.caches[i].tsram[j], r, run, i, j) && NoneFor(s.bus, i, j)
    ensures Fits(S.Step(s, e).caches[i].tsram[j], r, run, i, j)
  {
    if e.BusTick? {
      TickFits(s, i, j, r, run, flat);
    } else {
      EventFits(s, e, i, j, r, run);
    }
  }

  lemma OtherSettled(s: S.System, e: S.Event, flat: Ram, run: seq<S.Event>, i: CoreId, prog: Program, s0: Machine,
                     x: nat)
    requires Structure.Structured(s) && FlatMemory.Coherent(s, flat) && PrivateRuns.Private(s, run)
    requires PrivateRuns.BlockPrivate(run) && (e.BusTick? || e.core != i) && Settled(s, run, i, prog, s0, x)
    ensures Settled(S.Step(s, e), run, i, prog, s0, x)
  {
    StatsStay(s, e, i);
    Progress.IdleStays(s, e, i);
    forall j: Index
      ensures Fits(S.Step(s, e).caches[i].tsram[j], Resident(prog, s0, x, j), run, i, j)
    {
      IdleNone(s, i, j);
      OtherFits(s, e, flat, run, i, j, Resident(prog, s0, x, j));
    }
  }

  lemma OtherAwaiting(s: S.System, e: S.Event, flat: Ram, run: seq<S.Event>, i: CoreId, prog: Program, s0: Machine,
                      x: nat)
    requires Structure.Structured(s) && FlatMemory.Coherent(s, flat) && PrivateRuns.Private(s, run)
    requires PrivateRuns.BlockPrivate(run) && (e.BusTick? || e.core != i) && Awaiting(s, run, i, prog, s0, x)
    ensures Awaiting(S.Step(s, e), run, i, prog, s0, x)
  {
    var a := AccessAt(prog, s0, x);
    StatsStay(s, e, i);
    if e.BusTick? {
      Progress.TickServed(s, i, a, Owns(run, i, a), run, flat);
    } else {
      Progress.EventServed(s, e, i, a, Owns(run, i, a));
    }
    forall j: Index | j != IndexOf(a)
      ensures Fits(S.Step(s, e).caches[i].tsram[j], Resident(prog, s0, x, j), run, i, j)
    {
      ServedNone(s, i, a, Owns(run, i, a), j);
      OtherFits(s, e, flat, run, i, j, Resident(prog, s0, x, j));
    }
  }

  // ----- an access of core i -----

  /** The access of instruction x. */
  predicate AccessBy(e: S.Event, i: CoreId, prog: Program, s0: Machine, x: nat) {
    && !e.BusTick? && e.core == i && e.addr == AccessAt(prog, s0, x) && IsMemory(Nth(prog, s0, x).opcode)
    && (e.StoreBy? <==> Nth(prog, s0, x).opcode == SW)
  }

  /** It succeeds at its first attempt exactly if its block is resident. */
  lemma FirstAttempt(s: S.System, run: seq<S.Event>, i: CoreId, prog: Program, s0: Machine, x: nat, e: S.Event)
    requires Settled(s, run, i, prog, s0, x) && AccessBy(e, i, prog, s0, x) && e in run
    ensures Progress.Succeeds(s, e) <==> Found(prog, s0, x)
  {
    EventUses(e, run);
    Progress.SucceedsWhenReady(s, e);
  }

  /** What it adds to the counters of misses. */
  lemma AttemptCounts(s: S.System, i: CoreId, prog: Program, s0: Machine, x: nat, e: S.Event)
    requires AccessBy(e, i, prog, s0, x)
    ensures var (n, m) := (s.caches[i].stats, S.Step(s, e).caches[i].stats);
      var misses := s.bus.phase[i] == S.Idle && !Progress.Ready(s.caches[i], e.addr, e.StoreBy?);
      && m.readMisses == n.readMisses + MissCounts.One(misses && e.LoadBy?)
      && m.writeMisses == n.writeMisses + MissCounts.One(misses && e.StoreBy?)
  {
    MissCounts.StepCounts(s, e, i);
  }

  /** When the access succeeds, at its first attempt or after waiting, the block is there, and the other lines are as
      they were. */
  lemma SuccessMirrors(s: S.System, run: seq<S.Event>, i: CoreId, prog: Program, s0: Machine, x: nat, e: S.Event,
                       out: Option<Index>)
    requires AccessBy(e, i, prog, s0, x) && e in run && Progress.Succeeds(s, e)
    requires Mirrors(s, run, i, prog, s0, x, out) && (out == None || out == Some(IndexOf(e.addr)))
    requires Progress.Ready(s.caches[i], e.addr, Owns(run, i, e.addr))
    ensures Mirrors(S.Step(s, e), run, i, prog, s0, x + 1, None)
  {
    EventUses(e, run);
    Progress.SucceedsWhenReady(s, e);
    forall j: Index
      ensures Fits(S.Step(s, e).caches[i].tsram[j], Resident(prog, s0, x + 1, j), run, i, j)
    {
      if j != IndexOf(e.addr) {
        EventFits(s, e, i, j, Resident(prog, s0, x, j), run);
      }
    }
  }

  lemma SettledReady(s: S.System, run: seq<S.Event>, i: CoreId, prog: Program, s0: Machine, x: nat, e: S.Event)
    requires Settled(s, run, i, prog, s0, x) && AccessBy(e, i, prog, s0, x) && e in run && Found(prog, s0, x)
    ensures Progress.Ready(s.caches[i], e.addr, Owns(run, i, e.addr))
  {
    EventUses(e, run);
  }

  lemma SuccessSettled(s: S.System, run: seq<S.Event>, i: CoreId, prog: Program, s0: Machine, x: nat, e: S.Event)
    requires Structure.Structured(s) && AccessBy(e, i, prog, s0, x) && e in run && Progress.Succeeds(s, e)
    requires Settled(s, run, i, prog, s0, x) || Awaiting(s, run, i, prog, s0, x)
    ensures Settled(S.Step(s, e), run, i, prog, s0, x + 1)
  {
    Progress.SucceedsWhenReady(s, e);
    Progress.IdleStays(s, e, i);
    AttemptCounts(s, i, prog, s0, x, e);
    if Settled(s, run, i, prog, s0, x) {
      FirstAttempt(s, run, i, prog, s0, x, e);
      SettledReady(s, run, i, prog, s0, x, e);
      SuccessMirrors(s, run, i, prog, s0, x, e, None);
    } else {
      Progress.IdleIsReady(s, i, e.addr, Owns(run, i, e.addr));
      SuccessMirrors(s, run, i, prog, s0, x, e, Some(IndexOf(e.addr)));
    }
  }

  /** When it misses, the core waits for the block, in the state in which it may store to it if it ever does. */
  lemma MissServed(s: S.System, run: seq<S.Event>, i: CoreId, prog: Program, s0: Machine, x: nat, e: S.Event)
    requires Structure.Structured(s) && AccessBy(e, i, prog, s0, x) && e in run && !Progress.Succeeds(s, e)
    requires Settled(s, run, i, prog, s0, x)
    ensures Progress.Served(S.Step(s, e), i, e.addr, Owns(run, i, e.addr))
    ensures Progress.Allowed(run, i, e.addr, Owns(run, i, e.addr))
  {
    EventUses(e, run);
    Progress.SucceedsWhenReady(s, e);
    Structure.AttemptEffect(s, e);
    Progress.GroupAsks(s, e);
    Progress.AskedServed(s, S.Step(s, e), i, e.addr, Owns(run, i, e.addr), Structure.AttemptGroup(s, e));
  }

  lemma MissAwaiting(s: S.System, run: seq<S.Event>, i: CoreId, prog: Program, s0: Machine, x: nat, e: S.Event)
    requires Structure.Structured(s) && AccessBy(e, i, prog, s0, x) && e in run && !Progress.Succeeds(s, e)
    requires Settled(s, run, i, prog, s0, x)
    ensures Awaiting(S.Step(s, e), run, i, prog, s0, x)
  {
    MissServed(s, run, i, prog, s0, x, e);
    FirstAttempt(s, run, i, prog, s0, x, e);
    Progress.SucceedsWhenReady(s, e);
    AttemptCounts(s, i, prog, s0, x, e);
    forall j: Index
      ensures Fits(S.Step(s, e).caches[i].tsram[j], Resident(prog, s0, x, j), run, i, j)
    {
      EventFits(s, e, i, j, Resident(prog, s0, x, j), run);
    }
  }

  /** Asking again does not change anything. */
  lemma RetryAwaiting(s: S.System, run: seq<S.Event>, i: CoreId, prog: Program, s0: Machine, x: nat, e: S.Event)
    requires Structure.Structured(s) && AccessBy(e, i, prog, s0, x) && e in run && !Progress.Succeeds(s, e)
    requires Awaiting(s, run, i, prog, s0, x)
    ensures S.Step(s, e) == s
  {
    EventUses(e, run);
    Progress.SucceedsWhenReady(s, e);
    if s.bus.phase[i] == S.Idle {
      Progress.IdleIsReady(s, i, e.addr, Owns(run, i, e.addr));
    }
  }

  /** An instruction that does not use the memory. */
  lemma SilentSettled(s: S.System, run: seq<S.Event>, i: CoreId, prog: Program, s0: Machine, x: nat)
    requires Settled(s, run, i, prog, s0, x) && !IsMemory(Nth(prog, s0, x).opcode)
    ensures Settled(s, run, i, prog, s0, x + 1)
  {
    assert forall j: Index :: Resident(prog, s0, x + 1, j) == Resident(prog, s0, x, j);
  }

  lemma StartSettled(ram: Ram, run: seq<S.Event>, i: CoreId, prog: Program, s0: Machine)
    ensures Settled(S.Start(ram), run, i, prog, s0, 0)
  {
  }
}
