/** Total correctness of the simulator: the cores of a block-private system halt, and within a known number of turns. */
module SimulatorHalts {
  import opened Types
  import opened Isa
  import opened PipelineModel
  import opened PipelineEffects
  import opened PipelineMemory
  import opened PipelineInvariant
  import opened PipelineRefinement
  import opened PipelineMisses
  import opened PipelineRuns
  import opened Simulator
  import S = SystemModel
  import Structure
  import FlatMemory
  import PrivateRuns
  import Progress
  import Waiting

  /** A pipeline that waits asks for the same word again and again. */
  lemma WaitAddress(a: Pipe, q: Pipe, prog: Program)
    requires Legal(a) && Quiet(a) && Carried(a) && HaltLast(a) && Awaits(a, q, prog)
    ensures AccessAddress(q) == AccessAddress(a) && Reads(q) == Reads(a) && Stores(q) == Stores(a)
    ensures Stores(a) ==> AccessData(q) == AccessData(a)
  {
    var i := a.m.instr;
    WriteBackKeeps(a);
    MemoryReads(a, i.rs);
    MemoryReads(a, i.rt);
    ReadSame(q.regs, RegsAfterW(a), i.rs, i.imm);
    ReadSame(q.regs, RegsAfterW(a), i.rt, i.imm);
    if i.opcode == SW {
      MemoryReads(a, i.rd);
      ReadSame(q.regs, RegsAfterW(a), i.rd, i.imm);
    }
  }

  /** Core i waits for the block of its access, or is idle and about to ask, or has halted. */
  ghost predicate Steady(
    v: CoreState, s: S.System, run: seq<S.Event>, i: CoreId, a: Pipe, prog: Program, s0: Machine, n: nat)
  {
    v.isHalted || (Anchored(v, a, prog, s0, n) && Patient(v, s, run, i, a))
  }

  ghost predicate Patient(v: CoreState, s: S.System, run: seq<S.Event>, i: CoreId, a: Pipe) {
    if v.pipe.memStall then
      Progress.Served(s, i, CacheAddress(a), Stores(a)) && Progress.Allowed(run, i, CacheAddress(a), Stores(a))
    else s.bus.phase[i] == S.Idle
  }

  lemma AnchorAsks(v: CoreState, a: Pipe, prog: Program, s0: Machine, n: nat)
    requires Anchored(v, a, prog, s0, n)
    ensures AccessAddress(v.pipe) == AccessAddress(a) && Reads(v.pipe) == Reads(a) && Stores(v.pipe) == Stores(a)
    ensures Stores(a) ==> AccessData(v.pipe) == AccessData(a)
    ensures v.pipe.memStall ==> Asks(v.pipe) && Running(v)
  {
    if v.pipe.memStall {
      WaitAddress(a, v.pipe, prog);
    }
  }

  /** The answer is whether the access succeeds. */
  lemma AnswerSucceeds(v: CoreState, i: CoreId, s: S.System)
    requires Requests(v)
    ensures Answer(v, i, s).0 == Progress.Succeeds(s, EventOf(v, i))
  {
  }

  /** A cycle that is answered leaves the core idle; one that is not leaves it waiting for the block. */
  lemma TurnPatient(v': CoreState, s: S.System, run: seq<S.Event>, e: S.Event, b: Pipe)
    requires Structure.Structured(s) && !e.BusTick? && e in run
    requires v'.pipe.memStall == !Progress.Succeeds(s, e)
    requires v'.pipe.memStall ==> CacheAddress(b) == e.addr && Stores(b) == e.StoreBy?
    requires s.bus.phase[e.core] != S.Idle ==> Progress.Served(s, e.core, e.addr, e.StoreBy?)
    ensures Patient(v', S.Step(s, e), run, e.core, b)
    ensures v'.pipe.memStall ==> S.Step(s, e).bus.phase[e.core] != S.Idle
    ensures v'.pipe.memStall && s.bus.phase[e.core] != S.Idle ==> S.Step(s, e) == s
  {
    Progress.SucceedsWhenReady(s, e);
    EventUses(e, run);
    if v'.pipe.memStall {
      Progress.AttemptServed(s, e);
    } else {
      Progress.IdleStays(s, e, e.core);
    }
  }

  /** An access that waits finds its core busy, or is answered. */
  lemma WaitsOrSucceeds(s: S.System, e: S.Event)
    requires Structure.Structured(s) && !e.BusTick? && Progress.Served(s, e.core, e.addr, e.StoreBy?)
    requires !Progress.Succeeds(s, e)
    ensures s.bus.phase[e.core] != S.Idle
  {
    Progress.SucceedsWhenReady(s, e);
    if s.bus.phase[e.core] == S.Idle {
      Progress.IdleIsReady(s, e.core, e.addr, e.StoreBy?);
    }
  }

  /** The cycle that began in a goes on, or the next one begins in b, or the core has halted. */
  ghost predicate Continues(v: CoreState, a: Pipe, n: nat, b: Pipe, k: nat, prog: Program) {
    || v.isHalted || (b == a && k == n && v.pipe.memStall)
    || (Advanced(a, b) && Supplied(a, b, prog) && k == if Issued(a) then n + 1 else n)
  }

  /** The cycle of core i that asks: either it is answered, or the core waits for the block. */
  lemma AskingTurn(v: CoreState, s: S.System, run: seq<S.Event>, i: CoreId, a: Pipe, prog: Program, s0: Machine, n: nat)
    returns (b: Pipe, k: nat)
    requires ProperRun(prog, s0) && Structure.Structured(s) && !v.isHalted && Requests(v) && EventOf(v, i) in run
    requires Steady(v, s, run, i, a, prog, s0, n)
    requires !Answer(v, i, s).0 && !v.pipe.memStall ==> !Slips(v.pipe)
    ensures var ready := Answer(v, i, s).0; var s' := S.Step(s, EventOf(v, i)); var v' := Cycle(v, prog, ready);
      && Steady(v', s', run, i, b, prog, s0, k)
      && v'.pipe.memStall == !ready && !v'.isHalted && Continues(v', a, n, b, k, prog)
      && (!ready ==> b == a && k == n && s'.bus.phase[i] != S.Idle && (v.pipe.memStall ==> s' == s))
  {
    var ready, e := Answer(v, i, s).0, EventOf(v, i);
    b, k := CycleFollows(v, a, prog, s0, n, ready);
    AnchorAsks(v, a, prog, s0, n);
    AnswerSucceeds(v, i, s);
    assert CacheAddress(a) == e.addr && Stores(a) == e.StoreBy?;
    if v.pipe.memStall && !ready {
      WaitsOrSucceeds(s, e);
    }
    TurnPatient(Cycle(v, prog, ready), s, run, e, b);
  }

  /** A cycle of core i that asks for nothing. */
  lemma SilentTurn(v: CoreState, s: S.System, run: seq<S.Event>, i: CoreId, a: Pipe, prog: Program, s0: Machine, n: nat)
    returns (b: Pipe, k: nat)
    requires ProperRun(prog, s0) && Steady(v, s, run, i, a, prog, s0, n) && !Requests(v)
    ensures Steady(Cycle(v, prog, true), s, run, i, b, prog, s0, k)
    ensures v.isHalted || !v.pipe.memStall
    ensures Cycle(v, prog, true).isHalted || !Cycle(v, prog, true).pipe.memStall
    ensures Continues(Cycle(v, prog, true), a, n, b, k, prog)
  {
    b, k := a, n;
    if Running(v) {
      AnchorAsks(v, a, prog, s0, n);
      b, k := CycleFollows(v, a, prog, s0, n, true);
    }
  }

  /** An iteration of the bus. */
  lemma BusSteady(v: CoreState, s: S.System, run: seq<S.Event>, i: CoreId, a: Pipe, flat: Ram)
    requires Structure.Structured(s) && FlatMemory.Coherent(s, flat) && PrivateRuns.Private(s, run)
    requires PrivateRuns.BlockPrivate(run) && Patient(v, s, run, i, a)
    ensures Patient(v, S.Tick(s), run, i, a)
  {
    if v.pipe.memStall {
      Progress.TickServed(s, i, CacheAddress(a), Stores(a), run, flat);
    } else {
      Progress.IdleStays(s, S.BusTick, i);
    }
  }

  /** The cycle of another core. */
  lemma OtherSteady(v: CoreState, s: S.System, run: seq<S.Event>, i: CoreId, a: Pipe, e: S.Event)
    requires Structure.Structured(s) && Patient(v, s, run, i, a) && !e.BusTick? && e.core != i
    ensures Patient(v, S.Step(s, e), run, i, a)
  {
    if v.pipe.memStall {
      Progress.EventServed(s, e, i, CacheAddress(a), Stores(a));
    } else {
      Progress.IdleStays(s, e, i);
    }
  }

  // ----- how long it takes -----

  /** The turns of the main loop: one iteration of the bus, then the cores in order. */
  function TurnAt(p: nat): Turn
    requires p < 5
  {
    if p == 0 then BusTurn else CoreTurn(p - 1)
  }

  function NextPlace(p: nat): nat
    requires p < 5
  {
    if p == 4 then 0 else p + 1
  }

  /** n turns of the main loop, from place p on. */
  function MainLoop(n: nat, p: nat): seq<Turn>
    requires p < 5
  {
    if n == 0 then [] else [TurnAt(p)] + MainLoop(n - 1, NextPlace(p))
  }

  /** How many turns it takes to the next cycle of core i, and that cycle. */
  function Distance(p: nat, i: CoreId): nat
    requires p < 5
  {
    if p <= i + 1 then i + 2 - p else i + 7 - p
  }

  /** How many times core i may ask in vain. */
  function Lag(v: CoreState, s: S.System, i: CoreId, p: nat): nat {
    if v.isHalted then 0
    else if !v.pipe.memStall then 170
    else
      var r := Waiting.Rank(s, i);
      if 1 <= p <= i + 1 || r == 0 then r else r - 1
  }

  /** How many turns it takes at most to the next answer. */
  function Delay(v: CoreState, s: S.System, i: CoreId, p: nat): nat
    requires p < 5
  {
    Distance(p, i) + 5 * Lag(v, s, i, p)
  }

  lemma DelayBound(v: CoreState, s: S.System, i: CoreId, p: nat)
    requires p < 5 && Structure.Structured(s)
    ensures Delay(v, s, i, p) <= 855
  {
    Waiting.RankBound(s, i);
  }

  lemma BusDelay(v: CoreState, s: S.System, i: CoreId)
    requires Structure.Structured(s)
    ensures Delay(v, S.Tick(s), i, 1) < Delay(v, s, i, 0)
  {
    if s.bus.phase[i] == S.Idle {
      Progress.IdleStays(s, S.BusTick, i);
    } else {
      Waiting.StepRank(s, S.BusTick, i);
    }
  }

  lemma OtherDelay(v: CoreState, s: S.System, i: CoreId, e: S.Event, p: nat)
    requires Structure.Structured(s) && !e.BusTick? && e.core != i && 1 <= p < 5 && p != i + 1
    ensures Delay(v, S.Step(s, e), i, NextPlace(p)) < Delay(v, s, i, p)
  {
    if s.bus.phase[i] == S.Idle {
      Progress.IdleStays(s, e, i);
    } else {
      Waiting.StepRank(s, e, i);
    }
  }

  lemma NoEventDelay(v: CoreState, s: S.System, i: CoreId, p: nat)
    requires 1 <= p < 5 && p != i + 1
    ensures Delay(v, s, i, NextPlace(p)) < Delay(v, s, i, p)
  {
  }

  /** A core that asks in vain has asked once less. */
  lemma OwnDelay(v: CoreState, v': CoreState, s: S.System, s': S.System, i: CoreId)
    requires Structure.Structured(s') && !v.isHalted && !v'.isHalted && v'.pipe.memStall && s'.bus.phase[i] != S.Idle
    requires v.pipe.memStall ==> s' == s
    ensures Delay(v', s', i, NextPlace(i + 1)) < Delay(v, s, i, i + 1)
  {
    Waiting.RankBound(s', i);
  }

  // ----- a turn of the main loop -----

  lemma BusTurnSteady(s: S.System, flat: Ram, run: seq<S.Event>, i: CoreId, v: CoreState, a: Pipe, prog: Program,
                      s0: Machine, n: nat)
    requires Structure.Structured(s) && FlatMemory.Coherent(s, flat) && PrivateRuns.Private(s, run)
    requires PrivateRuns.BlockPrivate(run) && Steady(v, s, run, i, a, prog, s0, n)
    ensures Steady(v, S.Tick(s), run, i, a, prog, s0, n)
  {
    if !v.isHalted {
      BusSteady(v, s, run, i, a, flat);
    }
  }

  lemma OtherTurnSteady(s: S.System, run: seq<S.Event>, i: CoreId, v: CoreState, a: Pipe, prog: Program, s0: Machine,
                        n: nat, e: S.Event)
    requires Structure.Structured(s) && Steady(v, s, run, i, a, prog, s0, n) && !e.BusTick? && e.core != i
    ensures Steady(v, S.Step(s, e), run, i, a, prog, s0, n)
  {
    if !v.isHalted {
      OtherSteady(v, s, run, i, a, e);
    }
  }

  /** The rest of the system moves; core i waits on. */
  lemma OthersSteady(w: Whole, t: Turn, flat: Ram, run: seq<S.Event>, i: CoreId, v: CoreState, a: Pipe, prog: Program,
                     s0: Machine, n: nat)
    requires Structure.Structured(w.system) && FlatMemory.Coherent(w.system, flat) && PrivateRuns.Private(w.system, run)
    requires PrivateRuns.BlockPrivate(run) && Steady(v, w.system, run, i, a, prog, s0, n) && t != CoreTurn(i)
    ensures Steady(v, SystemAfter(w, t), run, i, a, prog, s0, n)
  {
    if t.BusTurn? {
      BusTurnSteady(w.system, flat, run, i, v, a, prog, s0, n);
    } else if Requests(w.cores[t.id]) {
      OtherTurnSteady(w.system, run, i, v, a, prog, s0, n, EventOf(w.cores[t.id], t.id));
    }
  }

  /** It has one turn less to wait, whatever this turn has done. */
  lemma OthersDelay(s: S.System, es: seq<S.Event>, p: nat, i: CoreId, v: CoreState)
    requires p < 5 && p != i + 1 && Structure.Structured(s) && |es| <= 1 && (p == 0 ==> es == [S.BusTick])
    requires es != [] && p > 0 ==> !es[0].BusTick? && es[0].core == p - 1
    ensures Delay(v, if es == [] then s else S.Step(s, es[0]), i, NextPlace(p)) < Delay(v, s, i, p)
  {
    if es == [] {
      NoEventDelay(v, s, i, p);
    } else if p == 0 {
      BusDelay(v, s, i);
    } else {
      OtherDelay(v, s, i, es[0], p);
    }
  }

  lemma OthersTurn(w: Whole, p: nat, i: CoreId, v: CoreState)
    requires p < 5 && p != i + 1 && Structure.Structured(w.system)
    ensures Delay(v, SystemAfter(w, TurnAt(p)), i, NextPlace(p)) < Delay(v, w.system, i, p)
  {
    OthersDelay(w.system, EventsOf(w, TurnAt(p)), p, i, v);
  }

  /** A core asks what its view asks, and gets the same answer. */
  lemma ViewAsks(c: CoreState, v: CoreState, i: CoreId, s: S.System)
    requires c == SetMem(v, c.pipe.mem)
    ensures Requests(c) == Requests(v) && Answer(c, i, s).0 == Answer(v, i, s).0
    ensures Requests(c) ==> EventOf(c, i) == EventOf(v, i)
    ensures Slips(c.pipe) == Slips(v.pipe) && c.pipe.memStall == v.pipe.memStall
  {
  }

  /** Core i moves: it is answered, or has asked once less. */
  lemma OwnTurn(v: CoreState, s: S.System, run: seq<S.Event>, i: CoreId, a: Pipe, prog: Program, s0: Machine, n: nat)
    returns (b: Pipe, k: nat)
    requires ProperRun(prog, s0) && Structure.Structured(s) && Steady(v, s, run, i, a, prog, s0, n)
    requires Requests(v) ==> EventOf(v, i) in run
    requires !Answer(v, i, s).0 && !v.pipe.memStall ==> !Slips(v.pipe)
    ensures var ready := Answer(v, i, s).0; var v' := Cycle(v, prog, ready);
      var s' := if Requests(v) then S.Step(s, EventOf(v, i)) else s;
      && Steady(v', s', run, i, b, prog, s0, k) && Continues(v', a, n, b, k, prog)
      && (if Requests(v) then v'.pipe.memStall == !ready else v.isHalted || !v.pipe.memStall)
      && (if Requests(v) then !ready ==> b == a && k == n else v'.isHalted || !v'.pipe.memStall)
      && (!ready ==> Delay(v', s', i, NextPlace(i + 1)) < Delay(v, s, i, i + 1))
  {
    if Requests(v) {
      b, k := AskingTurn(v, s, run, i, a, prog, s0, n);
      var ready, s' := Answer(v, i, s).0, S.Step(s, EventOf(v, i));
      if !ready {
        Structure.StepStructured(s, EventOf(v, i));
        OwnDelay(v, Cycle(v, prog, ready), s, s', i);
      }
    } else {
      b, k := SilentTurn(v, s, run, i, a, prog, s0, n);
    }
  }

  /** A turn of the main loop brings the next answer of core i closer, or is it. */
  lemma LoopTurn(w: Whole, progs: Programs, p: nat, views: Cores, flat: Ram, run: seq<S.Event>, i: CoreId, s0: Machine,
                 a: Pipe, n: nat)
    returns (views': Cores, flat': Ram, b: Pipe, k: nat)
    requires p < 5 && Matched(w, views, flat, run) && PrivateRuns.BlockPrivate(run)
    requires forall e :: e in EventsOf(w, TurnAt(p)) ==> e in run
    requires p > 0 && Requests(w.cores[p - 1]) ==> AccessAddress(w.cores[p - 1].pipe) < 0x10_0000
    requires ProperRun(progs[i], s0) && Steady(views[i], w.system, run, i, a, progs[i], s0, n)
    requires p == i + 1 && !Answer(w.cores[i], i, w.system).0 && !w.cores[i].pipe.memStall ==> !Slips(w.cores[i].pipe)
    ensures var w' := TakeTurn(w, progs, TurnAt(p));
      && Matched(w', views', flat', run) && Steady(views'[i], w'.system, run, i, b, progs[i], s0, k)
      && ((p == i + 1 && Answer(w.cores[i], i, w.system).0)
          || Delay(views'[i], w'.system, i, NextPlace(p)) < Delay(views[i], w.system, i, p))
  {
    views', flat' := TurnMatched(w, progs, TurnAt(p), views, flat, run);
    if p == i + 1 {
      assert Viewed(w.cores, views, flat, run, i);
      ViewAsks(w.cores[i], views[i], i, w.system);
      b, k := OwnTurn(views[i], w.system, run, i, a, progs[i], s0, n);
    } else {
      OthersSteady(w, TurnAt(p), flat, run, i, views[i], a, progs[i], s0, n);
      OthersTurn(w, p, i, views[i]);
      b, k := a, n;
    }
  }

  // ----- the main loop -----

  lemma LoopStart(m: nat, p: nat)
    requires p < 5 && m > 0
    ensures MainLoop(m, p) != [] && MainLoop(m, p)[0] == TurnAt(p)
    ensures MainLoop(m, p)[1..] == MainLoop(m - 1, NextPlace(p))
  {
  }

  lemma FirstAnswer(w: Whole, progs: Programs, turns: seq<Turn>, i: CoreId)
    requires turns != []
    ensures var rest := Answers(TakeTurn(w, progs, turns[0]), progs, turns[1..], i);
      Answered(Answers(w, progs, turns, i)) ==
        Answered(rest) + (if turns[0] == CoreTurn(i) && Answer(w.cores[i], i, w.system).0 then 1 else 0)
  {
    var rest := Answers(TakeTurn(w, progs, turns[0]), progs, turns[1..], i);
    if turns[0] == CoreTurn(i) {
      assert ([Answer(w.cores[i], i, w.system).0] + rest)[1..] == rest;
    } else {
      assert [] + rest == rest;
    }
  }

  lemma FirstEvents(w: Whole, progs: Programs, turns: seq<Turn>, run: seq<S.Event>)
    requires turns != [] && forall e :: e in Trace(w, progs, turns) ==> e in run
    ensures forall e :: e in EventsOf(w, turns[0]) ==> e in run
    ensures forall e :: e in Trace(TakeTurn(w, progs, turns[0]), progs, turns[1..]) ==> e in run
  {
    assert Trace(w, progs, turns) == EventsOf(w, turns[0]) + Trace(TakeTurn(w, progs, turns[0]), progs, turns[1..]);
  }

  /** The conditions on a run of the main loop: no core shares a block it stores to, and none slips. */
  ghost predicate Orderly(w: Whole, progs: Programs, m: nat, p: nat, run: seq<S.Event>, i: CoreId)
    requires p < 5
  {
    && InRange(w, progs, MainLoop(m, p)) && PrivateIn(run, w, progs, MainLoop(m, p))
    && SlipFree(w, progs, MainLoop(m, p), i)
  }

  /** The conditions on a run, for its first turn and for the rest. */
  lemma LoopConditions(w: Whole, progs: Programs, m: nat, p: nat, run: seq<S.Event>, i: CoreId)
    requires p < 5 && m > 0 && Orderly(w, progs, m, p, run, i)
    ensures var w', rest := TakeTurn(w, progs, TurnAt(p)), MainLoop(m - 1, NextPlace(p));
      && Orderly(w', progs, m - 1, NextPlace(p), run, i)
      && Answered(Answers(w, progs, MainLoop(m, p), i)) ==
           Answered(Answers(w', progs, rest, i)) + (if p == i + 1 && Answer(w.cores[i], i, w.system).0 then 1 else 0)
    ensures forall e :: e in EventsOf(w, TurnAt(p)) ==> e in run
    ensures p > 0 && Requests(w.cores[p - 1]) ==> AccessAddress(w.cores[p - 1].pipe) < 0x10_0000
    ensures p == i + 1 && !Answer(w.cores[i], i, w.system).0 && !w.cores[i].pipe.memStall ==> !Slips(w.cores[i].pipe)
  {
    LoopStart(m, p);
    FirstAnswer(w, progs, MainLoop(m, p), i);
    FirstEvents(w, progs, MainLoop(m, p), run);
  }

  /** Core i is on its way through its program, in a proper run of the main loop. */
  ghost predicate Underway(w: Whole, progs: Programs, m: nat, p: nat, views: Cores, flat: Ram, run: seq<S.Event>,
                           i: CoreId, s0: Machine, a: Pipe, n: nat)
  {
    && p < 5 && Matched(w, views, flat, run) && Orderly(w, progs, m, p, run, i)
    && ProperRun(progs[i], s0) && Steady(views[i], w.system, run, i, a, progs[i], s0, n)
  }

  /** What the answers still to come and the delay until the next one say about the turns left. */
  function Credit(w: Whole, progs: Programs, m: nat, p: nat, v: CoreState, i: CoreId): nat
    requires p < 5
  {
    856 * Answered(Answers(w, progs, MainLoop(m, p), i)) + Delay(v, w.system, i, p)
  }

  /** Core i is underway, and for the turns left it has this credit. */
  ghost predicate Affords(w: Whole, progs: Programs, m: nat, p: nat, run: seq<S.Event>, i: CoreId, s0: Machine,
                          credit: nat)
  {
    p < 5 && exists views, flat, a, n :: Underway(w, progs, m, p, views, flat, run, i, s0, a, n)
                                         && credit == Credit(w, progs, m, p, views[i], i)
  }

  /** Every turn costs credit. */
  lemma LoopStep(w: Whole, progs: Programs, m: nat, p: nat, run: seq<S.Event>, i: CoreId, s0: Machine, credit: nat)
    returns (w': Whole, q: nat, less: nat)
    requires m > 0 && Affords(w, progs, m, p, run, i, s0, credit)
    ensures Affords(w', progs, m - 1, q, run, i, s0, less) && less < credit
  {
    var views, flat, a, n :| Underway(w, progs, m, p, views, flat, run, i, s0, a, n)
                             && credit == Credit(w, progs, m, p, views[i], i);
    w', q := TakeTurn(w, progs, TurnAt(p)), NextPlace(p);
    LoopConditions(w, progs, m, p, run, i);
    var views', flat', b, k := LoopTurn(w, progs, p, views, flat, run, i, s0, a, n);
    DelayBound(views'[i], w'.system, i, q);
    less := Credit(w', progs, m - 1, q, views'[i], i);
    assert Underway(w', progs, m - 1, q, views', flat', run, i, s0, b, k);
  }

  /** So core i gets an answer at least every 856 turns. */
  lemma {:induction false} LoopAnswers(
    w: Whole, progs: Programs, m: nat, p: nat, run: seq<S.Event>, i: CoreId, s0: Machine, credit: nat)
    requires Affords(w, progs, m, p, run, i, s0, credit)
    ensures credit >= m
    decreases m
  {
    hide *;
    if m > 0 {
      var w', q, less := LoopStep(w, progs, m, p, run, i, s0, credit);
      LoopAnswers(w', progs, m - 1, q, run, i, s0, less);
    }
  }

  lemma PowerOnSteady(regs: seq<Regs>, mem: DataMemory, ram: Ram, run: seq<S.Event>, prog: Program, i: CoreId)
    requires |regs| == 4 && SameMemory(mem, ram)
    ensures Steady(FirstViews(regs, mem)[i], PowerOn(regs, ram).system, run, i, Start(regs[i], mem), prog,
        Reset(regs[i], mem), 0)
  {
    PowerOnViewed(regs, mem, ram, run, i);
    StartTracks(regs[i], mem, prog);
  }

  /** Core i gets enough answers to finish. */
  lemma EnoughAnswers(progs: Programs, regs: seq<Regs>, mem: DataMemory, ram: Ram, m: nat, run: seq<S.Event>, i: CoreId)
    requires |regs| == 4
    requires var w, turns := PowerOn(regs, ram), MainLoop(m, 0);
      && SameMemory(mem, ram) && InRange(w, progs, turns) && PrivateIn(run, w, progs, turns)
      && SlipFree(w, progs, turns, i)
    requires ProperRun(progs[i], Reset(regs[i], mem))
    ensures 856 * Answered(Answers(PowerOn(regs, ram), progs, MainLoop(m, 0), i)) + 855 >= m
  {
    var w, turns := PowerOn(regs, ram), MainLoop(m, 0);
    PowerOnMatched(regs, mem, ram, run);
    PowerOnSteady(regs, mem, ram, run, progs[i], i);
    DelayBound(FirstViews(regs, mem)[i], w.system, i, 0);
    assert Underway(w, progs, m, 0, FirstViews(regs, mem), ram, run, i, Reset(regs[i], mem), Start(regs[i], mem), 0);
    LoopAnswers(w, progs, m, 0, run, i, Reset(regs[i], mem), Credit(w, progs, m, 0, FirstViews(regs, mem)[i], i));
  }

  /** Total correctness: in a system whose programs share no block that one of them stores to, a core that runs a
      program of the fragment halts, after at most 856 turns of the main loop for each cycle of work, and then its
      registers and its memory are those of the sequential machine. */
  lemma SimulatorTerminates(
    progs: Programs, regs: seq<Regs>, mem: DataMemory, ram: Ram, m: nat, run: seq<S.Event>, i: CoreId, total: nat)
    returns (flat: Ram)
    requires |regs| == 4
    requires var w, turns := PowerOn(regs, ram), MainLoop(m, 0);
      && SameMemory(mem, ram) && InRange(w, progs, turns) && PrivateIn(run, w, progs, turns)
      && SlipFree(w, progs, turns, i)
    requires var s0 := Reset(regs[i], mem); ProperRun(progs[i], s0) && HaltsAfter(progs[i], s0, total)
    requires m >= 856 * (4 * total + 7)
    ensures var w' := Simulate(PowerOn(regs, ram), progs, MainLoop(m, 0));
      && w'.cores[i].isHalted && w'.cores[i].instructions - 1 == total + 1
      && Computed(w'.cores[i], Steps(progs[i], Reset(regs[i], mem), total), flat, run, i)
      && FlatMemory.Coherent(w'.system, flat)
  {
    var turns := MainLoop(m, 0);
    EnoughAnswers(progs, regs, mem, ram, m, run, i);
    flat := CoresAreIndependent(progs, regs, mem, ram, turns, run, i);
    PipelineRefines(progs[i], regs[i], mem, Answers(PowerOn(regs, ram), progs, turns, i), total);
  }
}
