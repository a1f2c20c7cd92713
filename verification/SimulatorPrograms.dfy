/** The simulator and four programs: what can be told from the sequential runs of the programs alone. */
module SimulatorPrograms {
  import opened Types
  import opened Isa
  import opened PipelineModel
  import opened PipelineEffects
  import opened PipelineMemory
  import opened PipelineRefinement
  import opened PipelineRuns
  import opened PipelineOrder
  import opened PipelineTiming
  import opened PipelineSpacing
  import opened PipelineStalls
  import opened Simulator
  import opened SimulatorHalts
  import opened SimulatorLocality
  import S = SystemModel
  import Structure
  import FlatMemory
  import PrivateRuns

  // ----- the accesses of a sequential run -----

  /** What core i asks of its cache when it executes instruction j in the state s of the sequential machine. */
  function AccessEvent(i: CoreId, s: Machine, j: Instruction): S.Event {
    var a := Address(s.regs, j) % 0x10_0000;
    if j.opcode == LW then S.LoadBy(i, a) else S.StoreBy(i, a, ReadReg(s.regs, j.rd, j.imm))
  }

  /** The accesses of the first n instructions. */
  function Accesses(i: CoreId, prog: Program, s0: Machine, n: nat): seq<S.Event> {
    if n == 0 then []
    else
      var s := Steps(prog, s0, n - 1);
      Accesses(i, prog, s0, n - 1)
      + (if IsMemory(Fetch(prog, s.pc).opcode) then [AccessEvent(i, s, Fetch(prog, s.pc))] else [])
  }

  /** Every address used by the first n instructions is below 2^20. */
  ghost predicate Small(prog: Program, s0: Machine, n: nat) {
    forall k: nat :: k < n && IsMemory(Nth(prog, s0, k).opcode) ==>
        Address(Steps(prog, s0, k).regs, Nth(prog, s0, k)) < 0x10_0000
  }

  lemma {:induction false} AccessListed(i: CoreId, prog: Program, s0: Machine, n: nat, k: nat)
    requires k < n && IsMemory(Nth(prog, s0, k).opcode)
    ensures AccessEvent(i, Steps(prog, s0, k), Nth(prog, s0, k)) in Accesses(i, prog, s0, n)
  {
    if k < n - 1 {
      AccessListed(i, prog, s0, n - 1, k);
    }
  }

  // ----- one core -----

  /** How many instructions have left the memory stage. */
  function Gone(a: Pipe, n: nat): nat {
    if Holding(a.e) + Holding(a.m) <= n then n - Holding(a.e) - Holding(a.m) else 0
  }

  /** The lines and the miss counters of core i are where the sequential run of its program would leave them when x of
      its instructions have left the memory stage. */
  ghost predicate Located(v: CoreState, s: S.System, run: seq<S.Event>, i: CoreId, prog: Program, s0: Machine, x: nat,
                          total: nat)
  {
    if v.isHalted then Missed(s, i, prog, s0, total)
    else if v.pipe.memStall then Awaiting(s, run, i, prog, s0, x)
    else Settled(s, run, i, prog, s0, x)
  }

  /** Core i runs its program: the stages hold its last instructions, it has not gone beyond its HALT, and its cache is
      where the program has left it. */
  ghost predicate OnTrack(v: CoreState, s: S.System, run: seq<S.Event>, i: CoreId, a: Pipe, prog: Program,
                          s0: Machine, n: nat, total: nat)
  {
    && Steady(v, s, run, i, a, prog, s0, n)
    && (v.isHalted || (Ordered(a, prog, s0, n) && n <= total))
    && Located(v, s, run, i, prog, s0, Gone(a, n), total)
  }

  /** What a program has to fulfil by itself. */
  ghost predicate Fit(prog: Program, s0: Machine, total: nat) {
    ProperRun(prog, s0) && Sheltered(prog, s0) && HaltsAfter(prog, s0, total) && Small(prog, s0, total)
  }

  /** The core asks for what the sequential run of its program asks for. */
  lemma RequestIs(v: CoreState, s: S.System, run: seq<S.Event>, i: CoreId, a: Pipe, prog: Program, s0: Machine,
                  n: nat, total: nat)
    requires OnTrack(v, s, run, i, a, prog, s0, n, total) && Requests(v)
    ensures var x := Gone(a, n);
      && x < total && Holding(a.m) == 1 && IsMemory(Nth(prog, s0, x).opcode)
      && AccessAddress(v.pipe) == Address(Steps(prog, s0, x).regs, Nth(prog, s0, x))
      && EventOf(v, i) == AccessEvent(i, Steps(prog, s0, x), Nth(prog, s0, x))
      && AccessBy(EventOf(v, i), i, prog, s0, x)
  {
    hide Tracks, InOrder, RightOperands, OnTime, Located, Patient, Awaits;
    AnchorAsks(v, a, prog, s0, n);
    var k := SequentialAccess(a, prog, s0, n);
  }

  lemma RequestListed(v: CoreState, s: S.System, run: seq<S.Event>, i: CoreId, a: Pipe, prog: Program, s0: Machine,
                      n: nat, total: nat)
    requires OnTrack(v, s, run, i, a, prog, s0, n, total) && Fit(prog, s0, total) && Requests(v)
    ensures AccessAddress(v.pipe) < 0x10_0000 && EventOf(v, i) in Accesses(i, prog, s0, total)
  {
    RequestIs(v, s, run, i, a, prog, s0, n, total);
    AccessListed(i, prog, s0, total, Gone(a, n));
  }

  /** What could slip is sheltered by an access that gets its answer at once. */
  lemma NoSlipOnTrack(v: CoreState, s: S.System, run: seq<S.Event>, i: CoreId, a: Pipe, prog: Program, s0: Machine,
                      n: nat, total: nat)
    requires OnTrack(v, s, run, i, a, prog, s0, n, total) && Fit(prog, s0, total)
    requires Requests(v) ==> EventOf(v, i) in run
    requires !v.isHalted && !v.pipe.memStall && Slips(v.pipe)
    ensures Answer(v, i, s).0
  {
    var x := Gone(a, n);
    var k := SlipIsExposed(a, prog, s0, n);
    assert Accessing(Timed(prog, s0, k)) == x;
    RequestIs(v, s, run, i, a, prog, s0, n, total);
    FirstAttempt(s, run, i, prog, s0, x, EventOf(v, i));
    AnswerSucceeds(v, i, s);
  }

  lemma ContinuesOnTrack(v: CoreState, s: S.System, run: seq<S.Event>, i: CoreId, a: Pipe, prog: Program, s0: Machine,
                         n: nat, b: Pipe, k: nat, total: nat)
    requires Tracks(a, prog, s0, n) && Ordered(a, prog, s0, n) && n <= total && Fit(prog, s0, total)
    requires Steady(v, s, run, i, b, prog, s0, k) && Continues(v, a, n, b, k, prog)
    requires Located(v, s, run, i, prog, s0, Gone(b, k), total)
    ensures OnTrack(v, s, run, i, b, prog, s0, k, total)
  {
    if !v.isHalted && !(b == a && k == n) {
      OrderedKept(a, b, prog, s0, n);
      if Issued(a) {
        IssueBefore(a, prog, s0, n, total);
      }
    }
  }

  /** A cycle that is completed takes an instruction out of the memory stage, if there is one. */
  lemma GoneNext(a: Pipe, b: Pipe, prog: Program, s0: Machine, n: nat)
    requires InOrder(a, prog, s0, n) && Advanced(a, b) && Supplied(a, b, prog)
    ensures Gone(b, if Issued(a) then n + 1 else n) == Gone(a, n) + Holding(a.m)
  {
    HoldingKept(a, b, prog);
  }

  lemma OrderOnTrack(v: CoreState, s: S.System, run: seq<S.Event>, i: CoreId, a: Pipe, prog: Program, s0: Machine,
                     n: nat, total: nat)
    requires OnTrack(v, s, run, i, a, prog, s0, n, total) && !v.isHalted
    ensures InOrder(a, prog, s0, n) && Ordered(a, prog, s0, n) && Tracks(a, prog, s0, n) && n <= total
    ensures Steady(v, s, run, i, a, prog, s0, n) && Located(v, s, run, i, prog, s0, Gone(a, n), total)
  {
  }

  /** A core that asks for nothing has no access in its memory stage. */
  lemma SilentIs(v: CoreState, s: S.System, run: seq<S.Event>, i: CoreId, a: Pipe, prog: Program, s0: Machine,
                 n: nat, total: nat)
    requires OnTrack(v, s, run, i, a, prog, s0, n, total) && !Requests(v) && Running(v) && !v.pipe.memStall
    ensures Holding(a.m) == 1 ==> !IsMemory(Nth(prog, s0, Gone(a, n)).opcode)
  {
    hide OnTrack, Tracks, Ordered, Located, Settled, Awaiting;
    OrderOnTrack(v, s, run, i, a, prog, s0, n, total);
  }

  lemma AdvancedOnTrack(v': CoreState, a: Pipe, n: nat, b: Pipe, k: nat, prog: Program, s0: Machine)
    requires Continues(v', a, n, b, k, prog) && !v'.isHalted && !v'.pipe.memStall && InOrder(a, prog, s0, n)
    ensures Gone(b, k) == Gone(a, n) + Holding(a.m)
  {
    hide InOrder, Advanced, Supplied, Gone;
    GoneNext(a, b, prog, s0, n);
  }

  /** A core that latches halted has executed its whole program. */
  lemma LatchLocated(v: CoreState, s: S.System, run: seq<S.Event>, i: CoreId, a: Pipe, prog: Program, s0: Machine,
                     n: nat, total: nat)
    requires OnTrack(v, s, run, i, a, prog, s0, n, total) && HaltsAfter(prog, s0, total)
    requires !v.isHalted && Flushed(v.pipe)
    ensures Missed(s, i, prog, s0, total)
  {
    OrderOnTrack(v, s, run, i, a, prog, s0, n, total);
    LatchedAt(v, a, prog, s0, n, total);
  }

  lemma LatchedAt(v: CoreState, a: Pipe, prog: Program, s0: Machine, n: nat, total: nat)
    requires Anchored(v, a, prog, s0, n) && Flushed(v.pipe) && n <= total && HaltsAfter(prog, s0, total)
    ensures !v.pipe.memStall && Gone(a, n) == n == total
  {
    if n < total {
      RunsOnBefore(prog, s0, total, n);
    }
  }

  /** The access of core i: it succeeds, or waits. */
  lemma AccessLocated(v: CoreState, v': CoreState, s: S.System, run: seq<S.Event>, i: CoreId, prog: Program,
                      s0: Machine, x: nat, total: nat, e: S.Event)
    requires Structure.Structured(s) && Located(v, s, run, i, prog, s0, x, total) && !v.isHalted && !v'.isHalted
    requires AccessBy(e, i, prog, s0, x) && e in run && v'.pipe.memStall == !Progress.Succeeds(s, e)
    ensures Located(v', S.Step(s, e), run, i, prog, s0, if v'.pipe.memStall then x else x + 1, total)
  {
    if Progress.Succeeds(s, e) {
      SuccessSettled(s, run, i, prog, s0, x, e);
    } else if v.pipe.memStall {
      RetryAwaiting(s, run, i, prog, s0, x, e);
    } else {
      MissAwaiting(s, run, i, prog, s0, x, e);
    }
  }

  /** After its turn the cache of the core is where the program has left it. */
  lemma OwnTurnLocated(v: CoreState, v': CoreState, s: S.System, run: seq<S.Event>, i: CoreId, a: Pipe, prog: Program,
                       s0: Machine, n: nat, b: Pipe, k: nat, total: nat)
    requires Structure.Structured(s) && OnTrack(v, s, run, i, a, prog, s0, n, total) && Running(v) && !v'.isHalted
    requires Continues(v', a, n, b, k, prog)
    requires Requests(v) ==> EventOf(v, i) in run && v'.pipe.memStall == !Answer(v, i, s).0
    requires Requests(v) && v'.pipe.memStall ==> b == a && k == n
    requires !Requests(v) ==> !v.pipe.memStall && !v'.pipe.memStall
    ensures var s' := if Requests(v) then S.Step(s, EventOf(v, i)) else s;
      Located(v', s', run, i, prog, s0, Gone(b, k), total)
  {
    hide OnTrack, Steady, Ordered, Tracks, InOrder, Continues, Cycle, Gone, Requests, Answer, Flushed, Settled,
      Awaiting;
    OrderOnTrack(v, s, run, i, a, prog, s0, n, total);
    if !v'.pipe.memStall {
      AdvancedOnTrack(v', a, n, b, k, prog, s0);
    }
    if Requests(v) {
      RequestIs(v, s, run, i, a, prog, s0, n, total);
      AnswerSucceeds(v, i, s);
      AccessLocated(v, v', s, run, i, prog, s0, Gone(a, n), total, EventOf(v, i));
    } else {
      SilentIs(v, s, run, i, a, prog, s0, n, total);
      if Holding(a.m) == 1 {
        SilentSettled(s, run, i, prog, s0, Gone(a, n));
      }
    }
  }

  lemma OwnTurnOnTrack(v: CoreState, s: S.System, run: seq<S.Event>, i: CoreId, a: Pipe, prog: Program, s0: Machine,
                       n: nat, total: nat)
    returns (b: Pipe, k: nat)
    requires Fit(prog, s0, total) && Structure.Structured(s) && OnTrack(v, s, run, i, a, prog, s0, n, total)
    requires forall e :: e in Accesses(i, prog, s0, total) ==> e in run
    ensures var s' := if Requests(v) then S.Step(s, EventOf(v, i)) else s;
      OnTrack(Cycle(v, prog, Answer(v, i, s).0), s', run, i, b, prog, s0, k, total)
  {
    if Requests(v) {
      RequestListed(v, s, run, i, a, prog, s0, n, total);
    }
    if !v.isHalted && !v.pipe.memStall && Slips(v.pipe) {
      NoSlipOnTrack(v, s, run, i, a, prog, s0, n, total);
    }
    b, k := OwnTurn(v, s, run, i, a, prog, s0, n);
    hide Steady, Ordered, Tracks, Sheltered, ProperRun, HaltsAfter, Small, Settled, Awaiting;
    if !v.isHalted {
      OrderOnTrack(v, s, run, i, a, prog, s0, n, total);
      var v', s' := Cycle(v, prog, Answer(v, i, s).0), if Requests(v) then S.Step(s, EventOf(v, i)) else s;
      if Running(v) {
        OwnTurnLocated(v, v', s, run, i, a, prog, s0, n, b, k, total);
      } else {
        LatchLocated(v, s, run, i, a, prog, s0, n, total);
      }
      ContinuesOnTrack(v', s', run, i, a, prog, s0, n, b, k, total);
    }
  }

  // ----- four cores -----

  /** Four programs, the states in which they start, and how many instructions each executes. */
  datatype Plan = Plan(progs: Programs, starts: seq<Machine>, totals: seq<nat>)

  /** Where the cores stand. */
  datatype Places = Places(anchors: seq<Pipe>, counts: seq<nat>)

  ghost predicate FitPlan(plan: Plan) {
    && |plan.starts| == 4 && |plan.totals| == 4
    && forall i: CoreId :: Fit(plan.progs[i], plan.starts[i], plan.totals[i])
  }

  /** The list holds everything that the programs ask for. */
  ghost predicate Lists(run: seq<S.Event>, plan: Plan)
    requires |plan.starts| == 4 && |plan.totals| == 4
  {
    && S.BusTick in run
    && forall i: CoreId, e: S.Event :: e in Accesses(i, plan.progs[i], plan.starts[i], plan.totals[i]) ==> e in run
  }

  ghost predicate CoreOnTrack(views: Cores, s: S.System, run: seq<S.Event>, plan: Plan, at: Places, i: CoreId)
    requires |plan.starts| == 4 && |plan.totals| == 4 && |at.anchors| == 4 && |at.counts| == 4
  {
    OnTrack(views[i], s, run, i, at.anchors[i], plan.progs[i], plan.starts[i], at.counts[i], plan.totals[i])
  }

  ghost predicate AllOnTrack(views: Cores, s: S.System, run: seq<S.Event>, plan: Plan, at: Places) {
    && |plan.starts| == 4 && |plan.totals| == 4 && |at.anchors| == 4 && |at.counts| == 4
    && forall i: CoreId :: CoreOnTrack(views, s, run, plan, at, i)
  }

  /** What the turn asks for is listed, in range, and no instruction slips. */
  lemma TurnAllowed(w: Whole, t: Turn, views: Cores, flat: Ram, run: seq<S.Event>, plan: Plan, at: Places)
    requires Matched(w, views, flat, run) && FitPlan(plan)
    requires Lists(run, plan) && AllOnTrack(views, w.system, run, plan, at)
    ensures forall e :: e in EventsOf(w, t) ==> e in run
    ensures t.CoreTurn? && Requests(w.cores[t.id]) ==> AccessAddress(w.cores[t.id].pipe) < 0x10_0000
    ensures forall i: CoreId :: t == CoreTurn(i) && !Answer(w.cores[i], i, w.system).0 && !w.cores[i].pipe.memStall ==>
      !Slips(w.cores[i].pipe)
  {
    if t.CoreTurn? {
      var i, v := t.id, views[t.id];
      assert Viewed(w.cores, views, flat, run, i) && CoreOnTrack(views, w.system, run, plan, at, i);
      ViewAsks(w.cores[i], v, i, w.system);
      SameRequest(w.cores[i], v, i);
      if Requests(v) {
        RequestListed(v, w.system, run, i, at.anchors[i], plan.progs[i], plan.starts[i], at.counts[i], plan.totals[i]);
      }
      if !v.isHalted && !v.pipe.memStall && Slips(v.pipe) {
        NoSlipOnTrack(v, w.system, run, i, at.anchors[i], plan.progs[i], plan.starts[i], at.counts[i], plan.totals[i]);
      }
    }
  }

  /** The turns of the others do not change what core i finds in its cache. */
  lemma OthersLocated(w: Whole, t: Turn, flat: Ram, run: seq<S.Event>, v: CoreState, i: CoreId, prog: Program,
                      s0: Machine, x: nat, total: nat)
    requires Structure.Structured(w.system) && FlatMemory.Coherent(w.system, flat) && PrivateRuns.Private(w.system, run)
    requires PrivateRuns.BlockPrivate(run) && Located(v, w.system, run, i, prog, s0, x, total) && t != CoreTurn(i)
    ensures Located(v, SystemAfter(w, t), run, i, prog, s0, x, total)
  {
    if EventsOf(w, t) != [] {
      var e := EventsOf(w, t)[0];
      if v.isHalted {
        StatsStay(w.system, e, i);
      } else if v.pipe.memStall {
        OtherAwaiting(w.system, e, flat, run, i, prog, s0, x);
      } else {
        OtherSettled(w.system, e, flat, run, i, prog, s0, x);
      }
    }
  }

  /** The turns of the others leave a core on its track. */
  lemma OthersOnTrack(w: Whole, t: Turn, flat: Ram, run: seq<S.Event>, v: CoreState, i: CoreId, a: Pipe, prog: Program,
                      s0: Machine, n: nat, total: nat)
    requires Structure.Structured(w.system) && FlatMemory.Coherent(w.system, flat) && PrivateRuns.Private(w.system, run)
    requires PrivateRuns.BlockPrivate(run) && OnTrack(v, w.system, run, i, a, prog, s0, n, total) && t != CoreTurn(i)
    ensures OnTrack(v, SystemAfter(w, t), run, i, a, prog, s0, n, total)
  {
    OthersSteady(w, t, flat, run, i, v, a, prog, s0, n);
    OthersLocated(w, t, flat, run, v, i, prog, s0, Gone(a, n), total);
  }

  /** The core whose turn it is stays on its track. */
  lemma SelfOnTrack(w: Whole, i: CoreId, views: Cores, flat: Ram, run: seq<S.Event>, plan: Plan, at: Places)
    returns (b: Pipe, k: nat)
    requires Matched(w, views, flat, run) && FitPlan(plan)
    requires Lists(run, plan) && AllOnTrack(views, w.system, run, plan, at)
    ensures OnTrack(Cycle(views[i], plan.progs[i], Answer(w.cores[i], i, w.system).0), SystemAfter(w, CoreTurn(i)),
                    run, i, b,
                    plan.progs[i], plan.starts[i], k, plan.totals[i])
  {
    assert Viewed(w.cores, views, flat, run, i) && CoreOnTrack(views, w.system, run, plan, at, i);
    ViewAsks(w.cores[i], views[i], i, w.system);
    b, k := OwnTurnOnTrack(views[i], w.system, run, i, at.anchors[i], plan.progs[i], plan.starts[i], at.counts[i],
        plan.totals[i]);
  }

  /** All cores stay on their tracks. */
  lemma TurnOnTrack(w: Whole, t: Turn, views: Cores, flat: Ram, run: seq<S.Event>, plan: Plan, at: Places)
    returns (views': Cores, flat': Ram, at': Places)
    requires Matched(w, views, flat, run) && PrivateRuns.BlockPrivate(run) && FitPlan(plan) && Lists(run, plan)
    requires AllOnTrack(views, w.system, run, plan, at)
    ensures var w' := TakeTurn(w, plan.progs, t);
      Matched(w', views', flat', run) && AllOnTrack(views', w'.system, run, plan, at')
  {
    TurnAllowed(w, t, views, flat, run, plan, at);
    views', flat' := TurnMatched(w, plan.progs, t, views, flat, run);
    at' := at;
    if t.CoreTurn? {
      var b, k := SelfOnTrack(w, t.id, views, flat, run, plan, at);
      at' := Places(at.anchors[t.id := b], at.counts[t.id := k]);
    }
    forall i: CoreId
      ensures CoreOnTrack(views', SystemAfter(w, t), run, plan, at', i)
    {
      if t != CoreTurn(i) {
        assert CoreOnTrack(views, w.system, run, plan, at, i);
        OthersOnTrack(w, t, flat, run, views[i], i, at.anchors[i], plan.progs[i], plan.starts[i], at.counts[i],
            plan.totals[i]);
      }
    }
  }

  /** The misses of every core that has halted are those of its sequential run. */
  ghost predicate AllMissed(w: Whole, plan: Plan)
    requires |plan.starts| == 4 && |plan.totals| == 4
  {
    forall i: CoreId :: w.cores[i].isHalted ==> Missed(w.system, i, plan.progs[i], plan.starts[i], plan.totals[i])
  }

  lemma EndMissed(w: Whole, views: Cores, flat: Ram, run: seq<S.Event>, plan: Plan, at: Places)
    requires Matched(w, views, flat, run) && AllOnTrack(views, w.system, run, plan, at)
    ensures AllMissed(w, plan)
  {
    forall i: CoreId | w.cores[i].isHalted
      ensures Missed(w.system, i, plan.progs[i], plan.starts[i], plan.totals[i])
    {
      assert Viewed(w.cores, views, flat, run, i) && CoreOnTrack(views, w.system, run, plan, at, i);
    }
  }

  lemma {:induction false} RunOnTrack(w: Whole, turns: seq<Turn>, views: Cores, flat: Ram, run: seq<S.Event>,
                                      plan: Plan, at: Places)
    requires Matched(w, views, flat, run) && PrivateRuns.BlockPrivate(run) && FitPlan(plan) && Lists(run, plan)
    requires AllOnTrack(views, w.system, run, plan, at)
    ensures InRange(w, plan.progs, turns) && (forall i: CoreId :: SlipFree(w, plan.progs, turns, i))
    ensures forall e :: e in Trace(w, plan.progs, turns) ==> e in run
    ensures AllMissed(Simulate(w, plan.progs, turns), plan)
    decreases |turns|
  {
    if turns == [] {
      EndMissed(w, views, flat, run, plan, at);
    } else {
      TurnAllowed(w, turns[0], views, flat, run, plan, at);
      var views', flat', at' := TurnOnTrack(w, turns[0], views, flat, run, plan, at);
      RunOnTrack(TakeTurn(w, plan.progs, turns[0]), turns[1..], views', flat', run, plan, at');
    }
  }

  // ----- from power-on -----

  function PlanOf(progs: Programs, regs: seq<Regs>, mem: DataMemory, totals: seq<nat>): Plan
    requires |regs| == 4
  {
    Plan(progs, [Reset(regs[0], mem), Reset(regs[1], mem), Reset(regs[2], mem), Reset(regs[3], mem)], totals)
  }

  /** All that the sequential runs of the four programs do with memory. */
  function AccessList(plan: Plan): seq<S.Event>
    requires |plan.starts| == 4 && |plan.totals| == 4
  {
    [S.BusTick] + Accesses(0, plan.progs[0], plan.starts[0], plan.totals[0])
    + Accesses(1, plan.progs[1], plan.starts[1], plan.totals[1])
    + Accesses(2, plan.progs[2], plan.starts[2], plan.totals[2])
    + Accesses(3, plan.progs[3], plan.starts[3], plan.totals[3])
  }

  lemma ListComplete(plan: Plan)
    requires |plan.starts| == 4 && |plan.totals| == 4
    ensures Lists(AccessList(plan), plan)
  {
  }

  lemma FirstOnTrack(regs: seq<Regs>, mem: DataMemory, ram: Ram, run: seq<S.Event>, progs: Programs, totals: seq<nat>)
    returns (at: Places)
    requires |regs| == 4 && |totals| == 4 && SameMemory(mem, ram)
    ensures AllOnTrack(FirstViews(regs, mem), PowerOn(regs, ram).system, run, PlanOf(progs, regs, mem, totals), at)
  {
    at := Places(seq(4, i requires 0 <= i < 4 => Start(regs[i], mem)), [0, 0, 0, 0]);
    forall i: CoreId
      ensures CoreOnTrack(FirstViews(regs, mem), PowerOn(regs, ram).system, run, PlanOf(progs, regs, mem, totals),
                          at, i)
    {
      PowerOnSteady(regs, mem, ram, run, progs[i], i);
      StartOrdered(regs[i], mem, progs[i], Reset(regs[i], mem));
      StartSettled(ram, run, i, progs[i], Reset(regs[i], mem));
    }
  }

  /** Whatever the order of the turns, the simulation stays within the list of accesses, and nothing slips. */
  lemma PowerOnAllowed(progs: Programs, regs: seq<Regs>, mem: DataMemory, ram: Ram, totals: seq<nat>, turns: seq<Turn>)
    requires |regs| == 4 && |totals| == 4 && SameMemory(mem, ram)
    requires var plan := PlanOf(progs, regs, mem, totals); FitPlan(plan) && PrivateRuns.BlockPrivate(AccessList(plan))
    ensures var w := PowerOn(regs, ram);
      && InRange(w, progs, turns) && PrivateIn(AccessList(PlanOf(progs, regs, mem, totals)), w, progs, turns)
      && forall i: CoreId :: SlipFree(w, progs, turns, i)
    ensures AllMissed(Simulate(PowerOn(regs, ram), progs, turns), PlanOf(progs, regs, mem, totals))
  {
    var plan := PlanOf(progs, regs, mem, totals);
    var run := AccessList(plan);
    ListComplete(plan);
    PowerOnMatched(regs, mem, ram, run);
    var at := FirstOnTrack(regs, mem, ram, run, progs, totals);
    RunOnTrack(PowerOn(regs, ram), turns, FirstViews(regs, mem), ram, run, plan, at);
  }

  lemma PlanFits(progs: Programs, regs: seq<Regs>, mem: DataMemory, totals: seq<nat>, i: CoreId)
    requires |regs| == 4 && |totals| == 4 && FitPlan(PlanOf(progs, regs, mem, totals))
    ensures Fit(progs[i], Reset(regs[i], mem), totals[i])
  {
    var plan := PlanOf(progs, regs, mem, totals);
    assert Fit(plan.progs[i], plan.starts[i], plan.totals[i]) && plan.starts[i] == Reset(regs[i], mem);
  }

  /** Four programs on the simulator, in terms of their sequential runs alone.  If each keeps to the fragment, uses
      addresses below 2^20, exposes an instruction to a miss only beside an access that repeats the one before it, and
      halts, and if no block that one of them stores to is used by another, then on the simulator each halts within the
      stated number of turns, with the registers and the memory of its sequential run. */
  lemma ProgramsAreCorrect(
    progs: Programs, regs: seq<Regs>, mem: DataMemory, ram: Ram, totals: seq<nat>, m: nat, i: CoreId)
    returns (flat: Ram)
    requires |regs| == 4 && |totals| == 4 && SameMemory(mem, ram)
    requires var plan := PlanOf(progs, regs, mem, totals); FitPlan(plan) && PrivateRuns.BlockPrivate(AccessList(plan))
    requires m >= 856 * (4 * totals[i] + 7)
    ensures var w' := Simulate(PowerOn(regs, ram), progs, MainLoop(m, 0));
      && w'.cores[i].isHalted && w'.cores[i].instructions - 1 == totals[i] + 1
      && Computed(w'.cores[i], Steps(progs[i], Reset(regs[i], mem), totals[i]), flat,
                  AccessList(PlanOf(progs, regs, mem, totals)), i)
      && FlatMemory.Coherent(w'.system, flat)
  {
    var run := AccessList(PlanOf(progs, regs, mem, totals));
    PowerOnAllowed(progs, regs, mem, ram, totals, MainLoop(m, 0));
    PlanFits(progs, regs, mem, totals, i);
    flat := SimulatorTerminates(progs, regs, mem, ram, m, run, i, totals[i]);
  }

  /** Whatever the order of the turns: whenever a core has halted, it has computed what its sequential run computes. */
  lemma WheneverHalted(
    progs: Programs, regs: seq<Regs>, mem: DataMemory, ram: Ram, totals: seq<nat>, turns: seq<Turn>, i: CoreId)
    returns (flat: Ram)
    requires |regs| == 4 && |totals| == 4 && SameMemory(mem, ram)
    requires var plan := PlanOf(progs, regs, mem, totals); FitPlan(plan) && PrivateRuns.BlockPrivate(AccessList(plan))
    ensures var w' := Simulate(PowerOn(regs, ram), progs, turns);
      && FlatMemory.Coherent(w'.system, flat)
      && (w'.cores[i].isHalted ==>
            && Computed(w'.cores[i], Steps(progs[i], Reset(regs[i], mem), totals[i]), flat,
                        AccessList(PlanOf(progs, regs, mem, totals)), i)
            && w'.cores[i].instructions - 1 == totals[i] + 1)
  {
    var run := AccessList(PlanOf(progs, regs, mem, totals));
    PowerOnAllowed(progs, regs, mem, ram, totals, turns);
    PlanFits(progs, regs, mem, totals, i);
    flat := SimulatorIsCorrect(progs, regs, mem, ram, turns, run, i, totals[i]);
  }

  // ----- what a core prints -----

  /** The misses that the cache of a core counts, whatever the other cores do: those of a direct-mapped cache that sees
      the accesses of the sequential run alone. */
  lemma MissesOfRun(
    progs: Programs, regs: seq<Regs>, mem: DataMemory, ram: Ram, totals: seq<nat>, turns: seq<Turn>, i: CoreId)
    requires |regs| == 4 && |totals| == 4 && SameMemory(mem, ram)
    requires var plan := PlanOf(progs, regs, mem, totals); FitPlan(plan) && PrivateRuns.BlockPrivate(AccessList(plan))
    requires Simulate(PowerOn(regs, ram), progs, turns).cores[i].isHalted
    ensures var n, s0 := Simulate(PowerOn(regs, ram), progs, turns).system.caches[i].stats, Reset(regs[i], mem);
      && n.readMisses == Misses(progs[i], s0, totals[i], false)
      && n.writeMisses == Misses(progs[i], s0, totals[i], true)
  {
    PowerOnAllowed(progs, regs, mem, ram, totals, turns);
    assert PlanOf(progs, regs, mem, totals).starts[i] == Reset(regs[i], mem);
    assert Missed(Simulate(PowerOn(regs, ram), progs, turns).system, i, progs[i], Reset(regs[i], mem), totals[i]);
  }

  /** The decode stalls that a core prints, whatever the caches and the other cores do: the cycles in which the
      interlock holds up the sequential run without misses. */
  lemma StallsOfRun(
    progs: Programs, regs: seq<Regs>, mem: DataMemory, ram: Ram, totals: seq<nat>, turns: seq<Turn>, i: CoreId, k: nat)
    requires |regs| == 4 && |totals| == 4 && SameMemory(mem, ram)
    requires var plan := PlanOf(progs, regs, mem, totals); FitPlan(plan) && PrivateRuns.BlockPrivate(AccessList(plan))
    requires Simulate(PowerOn(regs, ram), progs, turns).cores[i].isHalted
    requires var s0 := Reset(regs[i], mem); EndsQuietly(progs[i], s0) && Timed(progs[i], s0, k).halted
    ensures Simulate(PowerOn(regs, ram), progs, turns).cores[i].pipe.decodeStalls ==
      HeldBefore(progs[i], Reset(regs[i], mem), k)
  {
    hide FitPlan, AccessList, Simulate, PowerOn, EndsQuietly, Timed, HeldBefore, PrivateRuns.BlockPrivate;
    PowerOnAllowed(progs, regs, mem, ram, totals, turns);
    PlanFits(progs, regs, mem, totals, i);
    var flat := CoresAreIndependent(progs, regs, mem, ram, turns, AccessList(PlanOf(progs, regs, mem, totals)), i);
    DecodeStallsExact(progs[i], regs[i], mem, Answers(PowerOn(regs, ram), progs, turns, i), k);
  }
}
