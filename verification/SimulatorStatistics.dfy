/** The hit and miss counters of a core that has the memory system for itself. */
module SimulatorStatistics {
  import opened Types
  import opened CacheModel
  import opened Isa
  import opened PipelineModel
  import opened PipelineEffects
  import opened PipelineMemory
  import opened CoreAccounting
  import opened PipelineRefinement
  import opened Simulator
  import opened SimulatorHalts
  import S = SystemModel
  import Structure
  import FlatMemory
  import PrivateRuns
  import Progress
  import MissCounts

  // ----- what the counters say -----

  /** Every access counts once, with its first attempt or with its success. */
  predicate Tallied(s: S.System, i: CoreId, loads: nat, stores: nat) {
    var t := s.caches[i].stats;
    && t.readHits + t.readMisses == loads + (if s.missRead then 1 else 0)
    && t.writeHits + t.writeMisses == stores + (if s.missWrite then 1 else 0)
  }

  /** The miss flags say that the core waits, and for what. */
  predicate Flagged(s: S.System, v: CoreState) {
    && s.missRead == (!v.isHalted && v.pipe.memStall && Reads(v.pipe))
    && s.missWrite == (!v.isHalted && v.pipe.memStall && Stores(v.pipe))
  }

  /** What an attempt adds to the counters: a first one counts as a hit or as a miss, a retry does not count. */
  function Tried(first: bool, store: bool, done: bool): Stats {
    Stats(MissCounts.One(first && !store && done), MissCounts.One(first && !store && !done),
          MissCounts.One(first && store && done), MissCounts.One(first && store && !done))
  }

  /** An attempt of core i: a retry succeeds as soon as the core is idle. */
  lemma AttemptTallied(s: S.System, e: S.Event, loads: nat, stores: nat)
    requires !e.BusTick? && Tallied(s, e.core, loads, stores)
    requires e.LoadBy? ==> !s.missWrite
    requires e.StoreBy? ==> !s.missRead
    requires s.missRead || s.missWrite ==>
      s.bus.phase[e.core] == S.Idle ==> Progress.Ready(s.caches[e.core], e.addr, e.StoreBy?)
    requires !s.missRead && !s.missWrite ==> s.bus.phase[e.core] == S.Idle
    ensures var s', done := S.Step(s, e), Progress.Succeeds(s, e);
      && Tallied(s', e.core, if e.LoadBy? && done then loads + 1 else loads,
          if e.StoreBy? && done then stores + 1 else stores)
      && s'.missRead == (e.LoadBy? && !done) && s'.missWrite == (e.StoreBy? && !done)
      && s'.caches[e.core].stats ==
           MissCounts.Added(Tried(!s.missRead && !s.missWrite, e.StoreBy?, done), s.caches[e.core].stats)
  {
  }

  /** A core that waits runs, and its cache is going to have the block; one that does not wait is idle on the bus. */
  ghost predicate Keeps(s: S.System, c: CoreState, i: CoreId, run: seq<S.Event>) {
    && Closed(c.pipe)
    && (c.isHalted ||
        if c.pipe.memStall then
          && Requests(c) && Progress.Served(s, i, CacheAddress(c.pipe), Stores(c.pipe))
          && Progress.Allowed(run, i, CacheAddress(c.pipe), Stores(c.pipe))
        else s.bus.phase[i] == S.Idle)
  }

  /** The cycle of a core: it waits exactly if it asks and gets no answer, and then for the same access. */
  lemma CycleWaits(c: CoreState, word: DataMemory, prog: Program, ready: bool)
    requires Closed(c.pipe) && Running(c)
    ensures var c' := Cycle(SetMem(c, word), prog, ready);
      && !c'.isHalted && Closed(c'.pipe) && c'.pipe.memStall == (Asks(c.pipe) && !ready)
      && (c'.pipe.memStall ==> Running(c') && Reads(c'.pipe) == Reads(c.pipe) && Stores(c'.pipe) == Stores(c.pipe))
  {
    CycleSlots(SetMem(c, word).pipe, prog, ready);
  }

  /** A cycle of core i in which it asks for a word, and keeps asking for the same one if it has to wait. */
  lemma AskingTallied(c: CoreState, s: S.System, run: seq<S.Event>, i: CoreId, prog: Program, loads: nat, stores: nat)
    requires Structure.Structured(s) && Requests(c) && EventOf(c, i) in run && Keeps(s, c, i, run)
    requires Flagged(s, c) && Tallied(s, i, loads, stores)
    requires var (ready, word) := Answer(c, i, s); var c' := Cycle(SetMem(c, word), prog, ready);
      !ready ==> CacheAddress(c'.pipe) == CacheAddress(c.pipe)
    ensures var (ready, word) := Answer(c, i, s);
      var c', s' := Cycle(SetMem(c, word), prog, ready), S.Step(s, EventOf(c, i));
      && Keeps(s', c', i, run) && Flagged(s', c')
      && Tallied(s', i, if Reads(c.pipe) && ready then loads + 1 else loads,
          if Stores(c.pipe) && ready then stores + 1 else stores)
      && s'.caches[i].stats ==
           MissCounts.Added(Tried(!c.pipe.memStall, Stores(c.pipe), ready), s.caches[i].stats)
  {
    var e := EventOf(c, i);
    var (ready, word) := Answer(c, i, s);
    CycleWaits(c, word, prog, ready);
    AnswerSucceeds(c, i, s);
    if c.pipe.memStall && s.bus.phase[i] == S.Idle {
      Progress.IdleIsReady(s, i, e.addr, e.StoreBy?);
    }
    AttemptTallied(s, e, loads, stores);
    Progress.SucceedsWhenReady(s, e);
    if ready {
      Progress.IdleStays(s, e, i);
    } else {
      Progress.AttemptServed(s, e);
      EventUses(e, run);
    }
  }

  /** A cycle in which it asks for nothing. */
  lemma SilentTallied(c: CoreState, s: S.System, run: seq<S.Event>, i: CoreId, prog: Program)
    requires !Requests(c) && Keeps(s, c, i, run) && Flagged(s, c)
    ensures var c' := Cycle(SetMem(c, map[]), prog, true); Keeps(s, c', i, run) && Flagged(s, c')
  {
    if Running(c) {
      CycleWaits(c, map[], prog, true);
    }
  }

  /** Does the turn complete a load (or a store) of core i? */
  function Completes(w: Whole, t: Turn, i: CoreId, store: bool): nat {
    if t == CoreTurn(i) && Requests(w.cores[i]) && Reads(w.cores[i].pipe) == !store &&
        Answer(w.cores[i], i, w.system).0
    then 1 else 0
  }

  /** The loads (or the stores) that core i completes in a run. */
  function Completed(w: Whole, progs: Programs, turns: seq<Turn>, i: CoreId, store: bool): nat
    decreases |turns|
  {
    if turns == [] then 0
    else Completes(w, turns[0], i, store) + Completed(TakeTurn(w, progs, turns[0]), progs, turns[1..], i, store)
  }

  /** What the turn adds to the counters of core i. */
  function FirstTry(w: Whole, t: Turn, i: CoreId): Stats {
    if t == CoreTurn(i) && Requests(w.cores[i]) then
      Tried(!w.cores[i].pipe.memStall, Stores(w.cores[i].pipe), Answer(w.cores[i], i, w.system).0)
    else Stats(0, 0, 0, 0)
  }

  /** The loads and stores of core i that are answered at their first attempt, and those that are not. */
  function FirstTries(w: Whole, progs: Programs, turns: seq<Turn>, i: CoreId): Stats
    decreases |turns|
  {
    if turns == [] then Stats(0, 0, 0, 0)
    else MissCounts.Added(FirstTries(TakeTurn(w, progs, turns[0]), progs, turns[1..], i), FirstTry(w, turns[0], i))
  }

  /** Only core i uses the memory. */
  predicate Alone(run: seq<S.Event>, i: CoreId) {
    forall e :: e in run ==> e.BusTick? || e.core == i
  }

  /** When core i has to wait in this turn, it asks its cache for the same word again in its next one. */
  predicate AsksAgain(w: Whole, progs: Programs, t: Turn, i: CoreId) {
    t == CoreTurn(i) && !Answer(w.cores[i], i, w.system).0 ==>
      CacheAddress(TakeTurn(w, progs, t).cores[i].pipe) == CacheAddress(w.cores[i].pipe)
  }

  predicate Steadfast(w: Whole, progs: Programs, turns: seq<Turn>, i: CoreId)
    decreases |turns|
  {
    turns == [] || (AsksAgain(w, progs, turns[0], i) && Steadfast(TakeTurn(w, progs, turns[0]), progs, turns[1..], i))
  }

  /** The system as far as core i is concerned, which is alone with it. */
  ghost predicate Counting(w: Whole, flat: Ram, run: seq<S.Event>, i: CoreId, loads: nat, stores: nat) {
    && Structure.Structured(w.system) && FlatMemory.Coherent(w.system, flat) && PrivateRuns.Private(w.system, run)
    && Keeps(w.system, w.cores[i], i, run) && Flagged(w.system, w.cores[i]) && Tallied(w.system, i, loads, stores)
  }

  lemma BusCounts(w: Whole, flat: Ram, run: seq<S.Event>, i: CoreId, loads: nat, stores: nat)
    requires Counting(w, flat, run, i, loads, stores) && PrivateRuns.BlockPrivate(run) && Alone(run, i)
    ensures var s' := S.Tick(w.system);
      && Keeps(s', w.cores[i], i, run) && Flagged(s', w.cores[i]) && Tallied(s', i, loads, stores)
      && s'.caches[i].stats == w.system.caches[i].stats
  {
    var c := w.cores[i];
    MissCounts.TickStats(w.system);
    if !c.isHalted {
      if c.pipe.memStall {
        Progress.TickServed(w.system, i, CacheAddress(c.pipe), Stores(c.pipe), run, flat);
      } else {
        Progress.IdleStays(w.system, S.BusTick, i);
      }
    }
  }

  /** The turn of core i. */
  lemma OwnCounts(w: Whole, progs: Programs, flat: Ram, run: seq<S.Event>, i: CoreId, loads: nat, stores: nat)
    requires Counting(w, flat, run, i, loads, stores) && AsksAgain(w, progs, CoreTurn(i), i)
    requires Requests(w.cores[i]) ==> EventOf(w.cores[i], i) in run
    ensures var w' := TakeTurn(w, progs, CoreTurn(i));
      && Keeps(w'.system, w'.cores[i], i, run) && Flagged(w'.system, w'.cores[i])
      && Tallied(w'.system, i, loads + Completes(w, CoreTurn(i), i, false), stores + Completes(w, CoreTurn(i), i, true))
      && w'.system.caches[i].stats == MissCounts.Added(FirstTry(w, CoreTurn(i), i), w.system.caches[i].stats)
  {
    if Requests(w.cores[i]) {
      AskingTallied(w.cores[i], w.system, run, i, progs[i], loads, stores);
    } else {
      SilentTallied(w.cores[i], w.system, run, i, progs[i]);
    }
  }

  /** The memory system is as it should be behind every turn. */
  lemma SystemKept(w: Whole, t: Turn, flat: Ram, run: seq<S.Event>) returns (flat': Ram)
    requires Structure.Structured(w.system) && FlatMemory.Coherent(w.system, flat) && PrivateRuns.Private(w.system, run)
    requires PrivateRuns.BlockPrivate(run) && forall e :: e in EventsOf(w, t) ==> e in run
    ensures var s' := SystemAfter(w, t);
      Structure.Structured(s') && FlatMemory.Coherent(s', flat') && PrivateRuns.Private(s', run)
  {
    flat' := flat;
    if EventsOf(w, t) != [] {
      var e := EventsOf(w, t)[0];
      flat' := FlatMemory.FlatStep(w.system, flat, e);
      EventMatched(w.system, e, flat, run);
    }
  }

  /** Another core asks for nothing. */
  lemma OtherSilent(w: Whole, t: Turn, run: seq<S.Event>, i: CoreId)
    requires t.CoreTurn? && t.id != i && Alone(run, i) && forall e :: e in EventsOf(w, t) ==> e in run
    ensures SystemAfter(w, t) == w.system
  {
    hide S.Step;
    var es := EventsOf(w, t);
    assert es != [] ==> es[0] in es;
  }

  lemma TurnCounts(w: Whole, progs: Programs, t: Turn, flat: Ram, run: seq<S.Event>, i: CoreId, loads: nat, stores: nat)
    returns (flat': Ram)
    requires Counting(w, flat, run, i, loads, stores) && PrivateRuns.BlockPrivate(run) && Alone(run, i)
    requires AsksAgain(w, progs, t, i) && forall e :: e in EventsOf(w, t) ==> e in run
    ensures var w' := TakeTurn(w, progs, t);
      && Counting(w', flat', run, i, loads + Completes(w, t, i, false), stores + Completes(w, t, i, true))
      && w'.system.caches[i].stats == MissCounts.Added(FirstTry(w, t, i), w.system.caches[i].stats)
  {
    hide Tallied, Keeps, Flagged, AsksAgain, Structure.Structured, FlatMemory.Coherent, PrivateRuns.Private,
      PrivateRuns.BlockPrivate, Cycle, S.Step, S.Tick;
    flat' := SystemKept(w, t, flat, run);
    if t.BusTurn? {
      BusCounts(w, flat, run, i, loads, stores);
    } else if t.id == i {
      OwnCounts(w, progs, flat, run, i, loads, stores);
    } else {
      OtherSilent(w, t, run, i);
    }
  }

  lemma {:induction false} RunCounts(w: Whole, progs: Programs, turns: seq<Turn>, flat: Ram, run: seq<S.Event>,
                                     i: CoreId, loads: nat, stores: nat)
    returns (flat': Ram)
    requires Counting(w, flat, run, i, loads, stores) && PrivateRuns.BlockPrivate(run) && Alone(run, i)
    requires Steadfast(w, progs, turns, i) && forall e :: e in Trace(w, progs, turns) ==> e in run
    ensures Counting(Simulate(w, progs, turns), flat', run, i,
                     loads + Completed(w, progs, turns, i, false), stores + Completed(w, progs, turns, i, true))
    ensures Simulate(w, progs, turns).system.caches[i].stats ==
      MissCounts.Added(FirstTries(w, progs, turns, i), w.system.caches[i].stats)
    decreases |turns|
  {
    hide Counting, Completes, FirstTry, TakeTurn, AsksAgain, EventsOf, Alone, PrivateRuns.BlockPrivate;
    flat' := flat;
    if turns != [] {
      var w', t := TakeTurn(w, progs, turns[0]), turns[0];
      flat' := TurnCounts(w, progs, t, flat, run, i, loads, stores);
      flat' := RunCounts(w', progs, turns[1..], flat', run, i,
                         loads + Completes(w, t, i, false), stores + Completes(w, t, i, true));
    }
  }

  lemma PowerOnCounts(regs: seq<Regs>, ram: Ram, run: seq<S.Event>, i: CoreId)
    requires |regs| == 4
    ensures Counting(PowerOn(regs, ram), ram, run, i, 0, 0)
    ensures PowerOn(regs, ram).system.caches[i].stats == Stats(0, 0, 0, 0)
  {
    Structure.StartStructured(ram);
    FlatMemory.StartCoherent(ram);
    PrivateRuns.StartPrivate(ram, run);
    assert PowerOn(regs, ram).cores[i] == Boot(regs[i], map[]);
  }

  lemma CountingTells(w: Whole, flat: Ram, run: seq<S.Event>, i: CoreId, loads: nat, stores: nat)
    requires Counting(w, flat, run, i, loads, stores)
    ensures var c, t := w.cores[i], w.system.caches[i].stats;
      && t.readHits + t.readMisses == loads + (if !c.isHalted && c.pipe.memStall && Reads(c.pipe) then 1 else 0)
      && t.writeHits + t.writeMisses == stores + (if !c.isHalted && c.pipe.memStall && Stores(c.pipe) then 1 else 0)
  {
  }

  /** Hits and misses, for every program: if a core is the only one to use the memory, and asks again for the same word
      whenever it has to wait, then its hits are the accesses answered at their first attempt, and its misses those that
      are not.  Together they are the accesses that it has completed, and one more if one is still waiting. */
  lemma HitsAndMisses(progs: Programs, regs: seq<Regs>, ram: Ram, turns: seq<Turn>, i: CoreId)
    requires |regs| == 4
    requires var w := PowerOn(regs, ram); Alone(Trace(w, progs, turns), i) && Steadfast(w, progs, turns, i)
    ensures var w := PowerOn(regs, ram); var w' := Simulate(w, progs, turns); var c := w'.cores[i];
      var t := w'.system.caches[i].stats;
      && t == FirstTries(w, progs, turns, i)
      && t.readHits + t.readMisses == Completed(w, progs, turns, i, false)
         + (if !c.isHalted && c.pipe.memStall && Reads(c.pipe) then 1 else 0)
      && t.writeHits + t.writeMisses == Completed(w, progs, turns, i, true)
         + (if !c.isHalted && c.pipe.memStall && Stores(c.pipe) then 1 else 0)
  {
    hide PowerOn, FirstTries, Completed, Simulate, Trace, Steadfast, Counting, Reads, Stores;
    var w, run := PowerOn(regs, ram), Trace(PowerOn(regs, ram), progs, turns);
    assert PrivateRuns.BlockPrivate(run);
    PowerOnCounts(regs, ram, run, i);
    var flat := RunCounts(w, progs, turns, ram, run, i, 0, 0);
    CountingTells(Simulate(w, progs, turns), flat, run, i, Completed(w, progs, turns, i, false),
                  Completed(w, progs, turns, i, true));
  }

  // ----- programs of the fragment -----

  /** Where the pipeline of core i tracks its sequential machine, the access that waits keeps its address. */
  lemma OwnAsksAgain(w: Whole, progs: Programs, v: CoreState, run: seq<S.Event>, i: CoreId, a: Pipe, s0: Machine,
                     n: nat)
    requires w.cores[i] == SetMem(v, w.cores[i].pipe.mem) && Structure.Structured(w.system)
    requires ProperRun(progs[i], s0) && Steady(v, w.system, run, i, a, progs[i], s0, n)
    requires Requests(v) ==> EventOf(v, i) in run
    requires !Answer(v, i, w.system).0 && !v.pipe.memStall ==> !Slips(v.pipe)
    ensures AsksAgain(w, progs, CoreTurn(i), i)
  {
    var c := w.cores[i];
    ViewAsks(c, v, i, w.system);
    if !Answer(c, i, w.system).0 {
      var b, k := AskingTurn(v, w.system, run, i, a, progs[i], s0, n);
      AnchorAsks(v, a, progs[i], s0, n);
      AnchorAsks(Cycle(v, progs[i], false), b, progs[i], s0, k);
      CycleMem(v, map[], progs[i], false);
      assert SetMem(c, map[]) == SetMem(v, map[]);
    }
  }

  /** A turn of any core, or of the bus. */
  lemma SteadyTurn(w: Whole, progs: Programs, t: Turn, views: Cores, flat: Ram, run: seq<S.Event>, i: CoreId,
                   s0: Machine, a: Pipe, n: nat)
    returns (views': Cores, flat': Ram, b: Pipe, k: nat)
    requires Matched(w, views, flat, run) && PrivateRuns.BlockPrivate(run)
    requires forall e :: e in EventsOf(w, t) ==> e in run
    requires t.CoreTurn? && Requests(w.cores[t.id]) ==> AccessAddress(w.cores[t.id].pipe) < 0x10_0000
    requires ProperRun(progs[i], s0) && Steady(views[i], w.system, run, i, a, progs[i], s0, n)
    requires t == CoreTurn(i) && !Answer(w.cores[i], i, w.system).0 && !w.cores[i].pipe.memStall ==>
        !Slips(w.cores[i].pipe)
    ensures var w' := TakeTurn(w, progs, t);
      Matched(w', views', flat', run) && Steady(views'[i], w'.system, run, i, b, progs[i], s0, k)
    ensures AsksAgain(w, progs, t, i)
  {
    views', flat' := TurnMatched(w, progs, t, views, flat, run);
    assert Viewed(w.cores, views, flat, run, i);
    b, k := a, n;
    if t == CoreTurn(i) {
      ViewAsks(w.cores[i], views[i], i, w.system);
      OwnAsksAgain(w, progs, views[i], run, i, a, s0, n);
      b, k := OwnTurn(views[i], w.system, run, i, a, progs[i], s0, n);
    } else {
      OthersSteady(w, t, flat, run, i, views[i], a, progs[i], s0, n);
    }
  }

  lemma {:induction false} RunSteadfast(w: Whole, progs: Programs, turns: seq<Turn>, views: Cores, flat: Ram,
                                        run: seq<S.Event>, i: CoreId, s0: Machine, a: Pipe, n: nat)
    requires Matched(w, views, flat, run) && PrivateIn(run, w, progs, turns)
    requires InRange(w, progs, turns) && SlipFree(w, progs, turns, i)
    requires ProperRun(progs[i], s0) && Steady(views[i], w.system, run, i, a, progs[i], s0, n)
    ensures Steadfast(w, progs, turns, i)
    decreases |turns|
  {
    if turns != [] {
      FirstEvents(w, progs, turns, run);
      var views', flat', b, k := SteadyTurn(w, progs, turns[0], views, flat, run, i, s0, a, n);
      RunSteadfast(TakeTurn(w, progs, turns[0]), progs, turns[1..], views', flat', run, i, s0, b, k);
    }
  }

  /** A program of the fragment always asks again, unless something slips past the interlock. */
  lemma FragmentIsSteadfast(
    progs: Programs, regs: seq<Regs>, mem: DataMemory, ram: Ram, turns: seq<Turn>, run: seq<S.Event>, i: CoreId)
    requires |regs| == 4
    requires var w := PowerOn(regs, ram);
      && SameMemory(mem, ram) && InRange(w, progs, turns) && SlipFree(w, progs, turns, i)
      && PrivateIn(run, w, progs, turns)
    requires ProperRun(progs[i], Reset(regs[i], mem))
    ensures Steadfast(PowerOn(regs, ram), progs, turns, i)
  {
    PowerOnMatched(regs, mem, ram, run);
    PowerOnSteady(regs, mem, ram, run, progs[i], i);
    RunSteadfast(PowerOn(regs, ram), progs, turns, FirstViews(regs, mem), ram, run, i, Reset(regs[i], mem),
                 Start(regs[i], mem), 0);
  }
}
