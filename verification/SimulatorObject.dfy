/** The simulator as one object: four core objects on the memory system, and the main loop that runs them until all of
    them have halted. */
module SimulatorObject {
  import opened Types
  import opened Isa
  import opened PipelineModel
  import opened PipelineEffects
  import opened PipelineMemory
  import opened PipelineController
  import opened ProcessorCore
  import opened Simulator
  import opened PipelineRefinement
  import opened SimulatorHalts
  import opened SimulatorPrograms
  import M = MultiCoreSim
  import S = SystemModel
  import FlatMemory
  import PrivateRuns

  /** What a core asks of its cache in this cycle. */
  function RequestFor(c: CoreState): M.Request {
    if !Requests(c) then M.Nothing
    else if Reads(c.pipe) then M.Read(CacheAddress(c.pipe))
    else M.Write(CacheAddress(c.pipe), AccessData(c.pipe))
  }

  function ReadyOf(answer: M.Answer): bool {
    match answer
    case NoAnswer => true
    case Loaded(word) => word.Some?
    case Stored(done) => done
  }

  /** The memory that the pipeline sees in the cycle: the word that it has asked for. */
  function WordsOf(answer: M.Answer, a: Word): DataMemory {
    if answer.Loaded? && answer.data.Some? then map[a := answer.data.value] else map[]
  }

  /** The answer of the memory system is the one of the model of the simulator. */
  lemma SameAnswer(c: CoreState, i: CoreId, s: S.System)
    ensures var answer := M.AnswerOf(s, i, RequestFor(c));
      Answer(c, i, s) == (ReadyOf(answer), WordsOf(answer, AccessAddress(c.pipe)))
  {
  }

  lemma SameSystem(w: Whole, i: CoreId)
    ensures S.Run(w.system, M.EventOf(i, RequestFor(w.cores[i]))) == SystemAfter(w, CoreTurn(i))
  {
    var es := M.EventOf(i, RequestFor(w.cores[i]));
    if es != [] {
      assert es[1..] == [];
    }
  }

  /** A turn of a core in the terms of the two objects. */
  lemma TurnMade(w: Whole, progs: Programs, i: CoreId)
    ensures var r, a := RequestFor(w.cores[i]), AccessAddress(w.cores[i].pipe);
      var answer := M.AnswerOf(w.system, i, r);
      TakeTurn(w, progs, CoreTurn(i)) ==
        Whole(w.cores[i := Cycle(SetMem(w.cores[i], WordsOf(answer, a)), progs[i], ReadyOf(answer))],
              S.Run(w.system, M.EventOf(i, r)))
  {
    SameAnswer(w.cores[i], i, w.system);
    SameSystem(w, i);
  }

  /** Ask a core what its memory stage is going to access. */
  method NextRequest(core: Core) returns (r: M.Request, a: Word)
    requires core.Valid()
    ensures r == RequestFor(core.View()) && a == AccessAddress(core.View().pipe)
  {
    var i, regs := core.pipeline.stages[MEM].instr, core.pipeline.regs[..];
    a := Sum(ReadReg(regs, i.rs, i.imm), ReadReg(regs, i.rt, i.imm));
    r := M.Nothing;
    var flushed := core.pipeline.IsFlushed();
    if !core.isHalted && !flushed && core.pipeline.stages[MEM].pc != EMPTY && IsMemory(i.opcode) {
      r := if i.opcode == LW then M.Read(a % 0x10_0000) else M.Write(a % 0x10_0000, ReadReg(regs, i.rd, i.imm));
    }
  }

  method NewCores(registers: seq<Regs>, programs: Programs, k: nat) returns (c: Core, d: Core)
    requires |registers| == 4 && k < 3
    ensures c.Valid() && c.View() == Boot(registers[k], map[]) && c.Code() == programs[k]
    ensures d.Valid() && d.View() == Boot(registers[k + 1], map[]) && d.Code() == programs[k + 1]
    ensures fresh(c.Repr) && fresh(d.Repr) && c.Repr !! d.Repr
  {
    c := new Core(registers[k], map[], programs[k]);
    d := new Core(registers[k + 1], map[], programs[k + 1]);
  }

  method NewFour(registers: seq<Regs>, programs: Programs) returns (c0: Core, c1: Core, c2: Core, c3: Core)
    requires |registers| == 4
    ensures c0.Valid() && c0.View() == Boot(registers[0], map[]) && c0.Code() == programs[0]
    ensures c1.Valid() && c1.View() == Boot(registers[1], map[]) && c1.Code() == programs[1]
    ensures c2.Valid() && c2.View() == Boot(registers[2], map[]) && c2.Code() == programs[2]
    ensures c3.Valid() && c3.View() == Boot(registers[3], map[]) && c3.Code() == programs[3]
    ensures fresh(c0.Repr) && fresh(c1.Repr) && fresh(c2.Repr) && fresh(c3.Repr)
    ensures c0.Repr !! c1.Repr !! c2.Repr !! c3.Repr
  {
    c0, c1 := NewCores(registers, programs, 0);
    c2, c3 := NewCores(registers, programs, 2);
  }

  /** The cycle of a core, with what its cache answers. */
  method RunOne(core: Core, answer: M.Answer, a: Word)
    requires core.Valid()
    modifies core.Footprint()
    ensures core.Code() == old(core.Code())
    ensures core.View() == Cycle(SetMem(old(core.View()), WordsOf(answer, a)), old(core.Code()), ReadyOf(answer))
  {
    core.Receive(WordsOf(answer, a));
    core.RunSingleCycle(ReadyOf(answer));
  }

  class Processors {
    const cores: seq<Core>
    ghost const Repr: set<object>

    /** No two cores share an object. */
    ghost predicate Valid() {
      && |cores| == 4 && (forall i: CoreId :: cores[i].Valid())
      && Own(0) !! Own(1) !! Own(2) !! Own(3)
      && Repr == Own(0) + Own(1) + Own(2) + Own(3)
    }

    ghost function Own(i: CoreId): set<object>
      requires |cores| == 4
    {
      cores[i].Repr
    }

    ghost function Views(): Cores
      requires Valid()
      reads Repr
    {
      [cores[0].View(), cores[1].View(), cores[2].View(), cores[3].View()]
    }

    ghost function Code(): Programs
      requires Valid()
      reads Repr
    {
      [cores[0].Code(), cores[1].Code(), cores[2].Code(), cores[3].Code()]
    }

    /** Every core is about to fetch its first instruction. */
    constructor (registers: seq<Regs>, programs: Programs)
      requires |registers| == 4
      ensures Valid() && fresh(Repr) && Code() == programs
      ensures Views() == [Boot(registers[0], map[]), Boot(registers[1], map[]),
                          Boot(registers[2], map[]), Boot(registers[3], map[])]
    {
      var c0, c1, c2, c3 := NewFour(registers, programs);
      cores := [c0, c1, c2, c3];
      Repr := c0.Repr + c1.Repr + c2.Repr + c3.Repr;
    }

    method Next(i: CoreId) returns (r: M.Request, a: Word)
      requires Valid()
      ensures r == RequestFor(Views()[i]) && a == AccessAddress(Views()[i].pipe)
    {
      r, a := NextRequest(cores[i]);
    }

    method AllHalted(ghost views: Cores) returns (halted: bool)
      requires Valid() && views == Views()
      ensures halted <==> forall i: CoreId :: views[i].isHalted
    {
      halted := true;
      for i := 0 to 4
        invariant halted <==> forall j: CoreId :: j < i ==> views[j].isHalted
      {
        assert views[i] == cores[i].View();
        if !cores[i].isHalted {
          halted := false;
        }
      }
    }

    lemma Separate(i: CoreId)
      requires Valid()
      ensures forall j: CoreId :: Own(j) <= Repr && (j != i ==> Own(j) !! Own(i))
      ensures cores[i].Footprint() <= Own(i)
    {
    }

    /** If only core i has been at work, and has kept its code, the others are as they were. */
    twostate lemma OthersKept(i: CoreId)
      requires Valid() && forall j: CoreId :: j != i ==> unchanged(Own(j))
      requires cores[i].Code() == old(cores[i].Code())
      ensures Views() == old(Views())[i := cores[i].View()] && Code() == old(Code())
    {
      assert forall j: CoreId :: j != i ==> cores[j].Footprint() <= Own(j) && cores[j].pipeline.instructions in Own(j);
    }

    /** The cycle of core i, with what its cache answers. */
    method RunCore(i: CoreId, answer: M.Answer, a: Word)
      requires Valid()
      modifies Repr
      ensures Code() == old(Code())
      ensures Views() == old(Views())[
        i := Cycle(SetMem(old(Views()[i]), WordsOf(answer, a)), old(Code()[i]), ReadyOf(answer))]
    {
      Separate(i);
      RunOne(cores[i], answer, a);
      OthersKept(i);
    }
  }

  // ----- the main loop -----

  lemma {:induction false} SimulateLast(w: Whole, progs: Programs, turns: seq<Turn>, t: Turn)
    ensures Simulate(w, progs, turns + [t]) == TakeTurn(Simulate(w, progs, turns), progs, t)
    decreases |turns|
  {
    if turns == [] {
      assert [t][1..] == [] && turns + [t] == [t];
    } else {
      assert (turns + [t])[1..] == turns[1..] + [t];
      SimulateLast(TakeTurn(w, progs, turns[0]), progs, turns[1..], t);
    }
  }

  lemma {:induction false} MainLoopLast(n: nat, p: nat)
    requires p < 5
    ensures MainLoop(n + 1, p) == MainLoop(n, p) + [TurnAt((p + n) % 5)]
  {
    if n > 0 {
      MainLoopLast(n - 1, NextPlace(p));
    }
  }

  /** One turn more of the main loop. */
  lemma TurnMore(w: Whole, progs: Programs, n: nat)
    ensures Simulate(w, progs, MainLoop(n + 1, 0)) == TakeTurn(Simulate(w, progs, MainLoop(n, 0)), progs, TurnAt(n % 5))
  {
    MainLoopLast(n, 0);
    SimulateLast(w, progs, MainLoop(n, 0), TurnAt(n % 5));
  }

  /** The memory system with the set of its objects. */
  class MemorySystem {
    const system: M.MultiCore
    ghost var Repr: set<object>

    ghost predicate Valid()
      reads this, Repr
    {
      && this in Repr && {system.bus, system.bus.ongoing, system.port, system.port.queue} <= Repr
      && system.bus.port == system.port && system.port.queue.Repr <= Repr && system.Footprint() <= Repr
      && this !in system.Footprint() && system.Valid()
    }

    ghost predicate Shows(s: S.System)
      requires Valid()
      reads this, Repr
    {
      system.Shows(s)
    }

    constructor (m: M.MultiCore, ghost s: S.System)
      requires m.Valid() && m.Shows(s)
      ensures Valid() && Shows(s) && fresh(this) && Repr == {this} + m.Footprint()
    {
      system := m;
      Repr := {this};
      new;
      Enclose(s, m.Footprint());
    }

    /** Take in the nodes that the queue has got, or other new objects. */
    ghost method Enclose(s: S.System, objects: set<object>)
      requires this in Repr && system.Valid() && system.Shows(s) && this !in system.Footprint()
      requires system.Footprint() <= Repr + objects
      modifies this`Repr
      ensures Valid() && Shows(s) && Repr == old(Repr) + objects
    {
      Repr := Repr + objects;
    }

    method BusTick(ghost s: S.System) returns (ghost s': S.System)
      requires Valid() && Shows(s)
      modifies Repr
      ensures Valid() && fresh(Repr - old(Repr)) && s' == S.Tick(s) && Shows(s')
    {
      s' := system.BusTick(s);
    }

    method Serve(c: CoreId, r: M.Request, ghost s: S.System) returns (answer: M.Answer, ghost s': S.System)
      requires Valid() && Shows(s)
      modifies Repr
      ensures Valid() && fresh(Repr - old(Repr))
      ensures s' == S.Run(s, M.EventOf(c, r)) && Shows(s') && answer == M.AnswerOf(s, c, r)
    {
      answer, s' := system.Serve(c, r, s);
      Enclose(s', system.port.Footprint());
    }
  }

  twostate lemma NewObjects(new m: M.MultiCore, contents: array<Word>)
    requires m.bus.memory.words == contents && fresh(m.flags) && fresh(m.bus) && fresh(m.bus.ongoing)
    requires fresh(m.bus.memory) && m.port == m.bus.port && m.table == m.bus.table
    requires fresh(m.port) && fresh(m.port.queue) && fresh(m.port.Footprint()) && fresh(m.table.Repr)
    ensures fresh(m.Footprint() - {contents})
  {
  }

  method NewSystem(contents: array<Word>) returns (m: M.MultiCore, ghost objects: set<object>)
    requires contents.Length == 0x10_0000
    ensures m.Valid() && m.Shows(S.Start(contents[..]))
    ensures objects == m.Footprint() && fresh(objects - {contents})
  {
    m := new M.MultiCore(contents);
    NewObjects(m, contents);
    objects := m.Footprint();
  }

  method PowerOnMemory(contents: array<Word>) returns (m: MemorySystem)
    requires contents.Length == 0x10_0000
    ensures m.Valid() && m.Shows(S.Start(contents[..])) && fresh(m.Repr - {contents})
  {
    var s, objects := NewSystem(contents);
    m := new MemorySystem(s, S.Start(contents[..]));
    assert m.Repr == {m} + objects;
  }

  /** h(r, p) is the state in round r of the main loop, after p of its five turns. */
  ghost predicate Looping(h: (nat, nat) -> Whole, progs: Programs) {
    && (forall r: nat, p: nat, q: nat :: p < 5 && q == p + 1 ==> h(r, q) == TakeTurn(h(r, p), progs, TurnAt(p)))
    && (forall r: nat, s: nat :: s == r + 1 ==> h(r, 5) == h(s, 0))
  }

  lemma RoundEnds(h: (nat, nat) -> Whole, progs: Programs, r: nat, s: nat)
    requires Looping(h, progs) && s == r + 1
    ensures h(r, 5) == h(s, 0)
  {
  }

  class Board {
    const memory: MemorySystem
    const processors: Processors

    ghost predicate Valid()
      reads memory, memory.Repr
    {
      memory.Valid() && processors.Valid() && processors.Repr !! memory.Repr
    }

    /** The cores and the memory system are in the state w. */
    ghost predicate Shows(w: Whole)
      requires Valid()
      reads memory, memory.Repr, processors.Repr
    {
      w.cores == processors.Views() && memory.Shows(w.system)
    }

    ghost function Code(): Programs
      requires Valid()
      reads memory, memory.Repr, processors.Repr
    {
      processors.Code()
    }

    constructor (m: MemorySystem, p: Processors)
      requires m.Valid() && p.Valid() && p.Repr !! m.Repr
      ensures Valid() && memory == m && processors == p && Code() == p.Code()
    {
      memory, processors := m, p;
    }

    /** What the memory system does leaves the cores alone. */
    twostate lemma ProcessorsKept()
      requires processors.Valid() && unchanged(processors.Repr)
      ensures processors.Views() == old(processors.Views()) && processors.Code() == old(processors.Code())
    {
    }

    method BusTurn(ghost w: Whole) returns (ghost w': Whole)
      requires Valid() && Shows(w)
      modifies memory.Repr
      ensures Valid() && fresh(memory.Repr - old(memory.Repr))
      ensures Shows(w') && Code() == old(Code())
      ensures w' == TakeTurn(w, Code(), Turn.BusTurn)
    {
      ghost var s' := memory.BusTick(w.system);
      ProcessorsKept();
      w' := Whole(w.cores, s');
    }

    /** A core asks its cache, if it has an access in its memory stage. */
    method Ask(i: CoreId, ghost w: Whole) returns (answer: M.Answer, a: Word, ghost s': S.System)
      requires Valid() && Shows(w)
      modifies memory.Repr
      ensures Valid() && fresh(memory.Repr - old(memory.Repr)) && memory.Shows(s')
      ensures processors.Views() == w.cores && Code() == old(Code())
      ensures var r := RequestFor(w.cores[i]);
        s' == S.Run(w.system, M.EventOf(i, r)) && answer == M.AnswerOf(w.system, i, r)
      ensures a == AccessAddress(w.cores[i].pipe)
    {
      var r;
      r, a := processors.Next(i);
      answer, s' := memory.Serve(i, r, w.system);
      ProcessorsKept();
    }

    /** What the cores do leaves the memory system alone. */
    twostate lemma MemoryKept(s: S.System)
      requires old(Valid()) && old(memory.Shows(s)) && unchanged(old(memory.Repr))
      ensures Valid() && memory.Shows(s) && memory.Repr == old(memory.Repr)
    {
    }

    /** It makes its cycle with the answer. */
    method Answered(i: CoreId, answer: M.Answer, a: Word, ghost s: S.System)
      requires Valid() && memory.Shows(s)
      modifies processors.Repr
      ensures Valid() && memory.Shows(s) && memory.Repr == old(memory.Repr)
      ensures Code() == old(Code())
      ensures processors.Views() == old(processors.Views())[
        i := Cycle(SetMem(old(processors.Views()[i]), WordsOf(answer, a)), Code()[i], ReadyOf(answer))]
    {
      processors.RunCore(i, answer, a);
      MemoryKept(s);
    }

    /** The turn of a core. */
    method CoreTurn(i: CoreId, ghost w: Whole) returns (ghost w': Whole)
      requires Valid() && Shows(w)
      modifies memory.Repr, processors.Repr
      ensures Valid() && fresh(memory.Repr - old(memory.Repr))
      ensures Shows(w') && Code() == old(Code())
      ensures w' == TakeTurn(w, Code(), Turn.CoreTurn(i))
    {
      var answer, a;
      ghost var s';
      answer, a, s' := Ask(i, w);
      TurnMade(w, Code(), i);
      Answered(i, answer, a, s');
      w' := Whole(processors.Views(), s');
    }

    /** The turns of the main loop in round r. */
    method BusPart(ghost h: (nat, nat) -> Whole, ghost progs: Programs, ghost r: nat)
      requires Valid() && Shows(h(r, 0)) && Looping(h, progs) && Code() == progs
      modifies memory.Repr
      ensures Valid() && fresh(memory.Repr - old(memory.Repr)) && Shows(h(r, 1)) && Code() == progs
    {
      assert h(r, 1) == TakeTurn(h(r, 0), progs, TurnAt(0));
      ghost var w := BusTurn(h(r, 0));
    }

    method CorePart(i: CoreId, ghost h: (nat, nat) -> Whole, ghost progs: Programs, ghost r: nat)
      requires Valid() && Shows(h(r, i + 1)) && Looping(h, progs) && Code() == progs
      modifies memory.Repr, processors.Repr
      ensures Valid() && fresh(memory.Repr - old(memory.Repr)) && Shows(h(r, i + 2)) && Code() == progs
    {
      assert h(r, i + 2) == TakeTurn(h(r, i + 1), progs, TurnAt(i + 1));
      ghost var w := CoreTurn(i, h(r, i + 1));
    }

    /** The cores take their turns, in order. */
    method CoreParts(ghost h: (nat, nat) -> Whole, ghost progs: Programs, ghost r: nat)
      requires Valid() && Shows(h(r, 1)) && Looping(h, progs) && Code() == progs
      modifies memory.Repr, processors.Repr
      ensures Valid() && fresh(memory.Repr - old(memory.Repr)) && Shows(h(r, 5)) && Code() == progs
    {
      hide *;
      ghost var p := 1;
      for i := 0 to 4
        invariant Valid() && fresh(memory.Repr - old(memory.Repr)) && Shows(h(r, p)) && Code() == progs
        invariant p == i + 1
      {
        CorePart(i, h, progs, r);
        p := i + 2;
      }
    }

    /** One round of the main loop: an iteration of the bus, then a cycle of each core. */
    method Round(ghost h: (nat, nat) -> Whole, ghost progs: Programs, ghost r: nat) returns (ghost next: nat)
      requires Valid() && Shows(h(r, 0)) && Looping(h, progs) && Code() == progs
      modifies memory.Repr, processors.Repr
      ensures Valid() && fresh(memory.Repr - old(memory.Repr)) && Shows(h(next, 0)) && Code() == progs
      ensures next == r + 1
    {
      hide *;
      BusPart(h, progs, r);
      CoreParts(h, progs, r);
      next := r + 1;
      RoundEnds(h, progs, r, next);
    }

    method AllHalted(ghost w: Whole) returns (halted: bool)
      requires Valid() && Shows(w)
      ensures halted <==> forall i: CoreId :: w.cores[i].isHalted
    {
      halted := processors.AllHalted(w.cores);
    }

    method NextRound(ghost h: (nat, nat) -> Whole, ghost progs: Programs, ghost r: nat)
      returns (halted: bool, ghost next: nat)
      requires Valid() && Shows(h(r, 0)) && Looping(h, progs) && Code() == progs
      modifies memory.Repr, processors.Repr
      ensures Valid() && fresh(memory.Repr - old(memory.Repr)) && Shows(h(next, 0)) && Code() == progs
      ensures next == r + 1 && (halted <==> forall i: CoreId :: h(next, 0).cores[i].isHalted)
    {
      hide *;
      next := Round(h, progs, r);
      halted := AllHalted(h(next, 0));
    }

    /** The main loop: rounds until every core has halted, which happens within the given number of rounds. */
    method RunUntilHalted(ghost h: (nat, nat) -> Whole, ghost progs: Programs, ghost bound: nat) returns (ghost r: nat)
      requires Valid() && Shows(h(0, 0)) && Looping(h, progs) && Code() == progs
      requires forall n: nat, i: CoreId :: n >= bound ==> h(n, 0).cores[i].isHalted
      modifies memory.Repr, processors.Repr
      ensures Valid() && Shows(h(r, 0)) && forall i: CoreId :: h(r, 0).cores[i].isHalted
    {
      hide *;
      r := 0;
      var halted := AllHalted(h(0, 0));
      while !halted
        invariant Valid() && fresh(memory.Repr - old(memory.Repr)) && Shows(h(r, 0)) && Code() == progs
        invariant halted <==> forall i: CoreId :: h(r, 0).cores[i].isHalted
        decreases bound - r
      {
        halted, r := NextRound(h, progs, r);
      }
    }
  }

  method Assemble(m: MemorySystem, registers: seq<Regs>, programs: Programs, ghost s: S.System)
    returns (board: Board)
    requires |registers| == 4 && m.Valid() && m.Shows(s)
    ensures board.Valid() && board.memory == m && m.Shows(s) && board.Code() == programs
    ensures board.processors.Views() == [Boot(registers[0], map[]), Boot(registers[1], map[]),
                                           Boot(registers[2], map[]), Boot(registers[3], map[])]
    ensures fresh(board.processors.Repr)
  {
    hide *;
    var p := new Processors(registers, programs);
    board := new Board(m, p);
  }

  /** Power-on: the memory holds the given words, and every core is about to fetch its first instruction. */
  method PowerOnBoard(registers: seq<Regs>, programs: Programs, contents: array<Word>) returns (board: Board)
    requires |registers| == 4 && contents.Length == 0x10_0000
    ensures board.Valid() && board.Shows(PowerOn(registers, contents[..])) && board.Code() == programs
    ensures fresh(board.memory.Repr - {contents}) && fresh(board.processors.Repr)
  {
    var m := PowerOnMemory(contents);
    board := Assemble(m, registers, programs, S.Start(contents[..]));
  }

  // ----- a simulation from power-on to the end -----

  /** The turns after which every core has halted. */
  function Bound(totals: seq<nat>): (m: nat)
    requires |totals| == 4
    ensures forall i: CoreId :: m >= 856 * (4 * totals[i] + 7)
  {
    856 * (4 * (totals[0] + totals[1] + totals[2] + totals[3]) + 7)
  }

  lemma HaltedBy(progs: Programs, regs: seq<Regs>, mem: DataMemory, ram: Ram, totals: seq<nat>, m: nat)
    requires |regs| == 4 && |totals| == 4 && SameMemory(mem, ram) && m >= Bound(totals)
    requires var plan := PlanOf(progs, regs, mem, totals); FitPlan(plan) && PrivateRuns.BlockPrivate(AccessList(plan))
    ensures forall i: CoreId :: Simulate(PowerOn(regs, ram), progs, MainLoop(m, 0)).cores[i].isHalted
  {
    forall i: CoreId
      ensures Simulate(PowerOn(regs, ram), progs, MainLoop(m, 0)).cores[i].isHalted
    {
      var flat := ProgramsAreCorrect(progs, regs, mem, ram, totals, m, i);
    }
  }

  lemma AllHaltBy(progs: Programs, regs: seq<Regs>, mem: DataMemory, ram: Ram, totals: seq<nat>, h: (nat, nat) -> Whole)
    requires |regs| == 4 && |totals| == 4 && SameMemory(mem, ram)
    requires var plan := PlanOf(progs, regs, mem, totals); FitPlan(plan) && PrivateRuns.BlockPrivate(AccessList(plan))
    requires forall r: nat, p: nat :: h(r, p) == InRound(PowerOn(regs, ram), progs, r, p)
    ensures forall r: nat, i: CoreId :: r >= Bound(totals) ==> h(r, 0).cores[i].isHalted
  {
    forall r: nat, i: CoreId | r >= Bound(totals)
      ensures h(r, 0).cores[i].isHalted
    {
      HaltedBy(progs, regs, mem, ram, totals, 5 * r + 0);
    }
  }

  /** Core i has done what its program does, and caches and main memory together hold what it has stored. */
  ghost predicate Done(c: CoreState, s: S.System, plan: Plan, i: CoreId)
    requires |plan.starts| == 4 && |plan.totals| == 4
  {
    && c.isHalted && c.instructions - 1 == plan.totals[i] + 1
    && exists flat: Ram ::
         && FlatMemory.Coherent(s, flat)
         && Computed(c, Steps(plan.progs[i], plan.starts[i], plan.totals[i]), flat, AccessList(plan), i)
  }

  lemma AllDone(
    progs: Programs, regs: seq<Regs>, mem: DataMemory, ram: Ram, totals: seq<nat>, turns: seq<Turn>, i: CoreId)
    requires |regs| == 4 && |totals| == 4 && SameMemory(mem, ram)
    requires var plan := PlanOf(progs, regs, mem, totals); FitPlan(plan) && PrivateRuns.BlockPrivate(AccessList(plan))
    requires Simulate(PowerOn(regs, ram), progs, turns).cores[i].isHalted
    ensures var w := Simulate(PowerOn(regs, ram), progs, turns);
      Done(w.cores[i], w.system, PlanOf(progs, regs, mem, totals), i)
  {
    var flat := WheneverHalted(progs, regs, mem, ram, totals, turns, i);
    assert PlanOf(progs, regs, mem, totals).starts[i] == Reset(regs[i], mem);
  }

  /** The state in round r of the main loop, after p turns. */
  function InRound(start: Whole, progs: Programs, r: nat, p: nat): Whole {
    Simulate(start, progs, MainLoop(5 * r + p, 0))
  }

  lemma NextInRound(start: Whole, progs: Programs, r: nat, p: nat)
    requires p < 5
    ensures InRound(start, progs, r, p + 1) == TakeTurn(InRound(start, progs, r, p), progs, TurnAt(p))
    ensures InRound(start, progs, r, 5) == InRound(start, progs, r + 1, 0)
  {
    hide Simulate, MainLoop, TakeTurn, PowerOn;
    TurnMore(start, progs, 5 * r + p);
    assert (5 * r + p) % 5 == p && 5 * r + p + 1 == 5 * r + (p + 1) && 5 * r + 5 == 5 * (r + 1) + 0;
  }

  lemma InRoundLoops(start: Whole, progs: Programs, h: (nat, nat) -> Whole)
    requires forall r: nat, p: nat :: h(r, p) == InRound(start, progs, r, p)
    ensures Looping(h, progs)
  {
    forall r: nat, p: nat, q: nat | p < 5 && q == p + 1
      ensures h(r, q) == TakeTurn(h(r, p), progs, TurnAt(p))
    {
      NextInRound(start, progs, r, p);
    }
    forall r: nat, s: nat | s == r + 1
      ensures h(r, 5) == h(s, 0)
    {
      NextInRound(start, progs, r, 0);
    }
  }

  /** The simulator: four programs whose sequential runs keep to the fragment, are sheltered, use addresses below 2^20,
      share no block that one of them stores to, and halt.  The main loop ends, and when it does, every core has halted
      with the registers and the memory of its sequential run. */
  method RunSimulator(
    registers: seq<Regs>, programs: Programs, contents: array<Word>, ghost mem: DataMemory, ghost totals: seq<nat>)
    returns (board: Board, ghost w: Whole, ghost turns: nat)
    requires |registers| == 4 && contents.Length == 0x10_0000 && |totals| == 4 && SameMemory(mem, contents[..])
    requires var plan := PlanOf(programs, registers, mem, totals);
      FitPlan(plan) && PrivateRuns.BlockPrivate(AccessList(plan))
    modifies contents
    ensures board.Valid() && board.Shows(w)
    ensures w == Simulate(PowerOn(registers, old(contents[..])), programs, MainLoop(turns, 0))
    ensures forall i: CoreId :: Done(w.cores[i], w.system, PlanOf(programs, registers, mem, totals), i)
  {
    ghost var ram := contents[..];
    ghost var start := PowerOn(registers, ram);
    ghost var h: (nat, nat) -> Whole := (r: nat, p: nat) => InRound(start, programs, r, p);
    InRoundLoops(start, programs, h);
    AllHaltBy(programs, registers, mem, ram, totals, h);
    board := PowerOnBoard(registers, programs, contents);
    ghost var r := board.RunUntilHalted(h, programs, Bound(totals));
    w, turns := h(r, 0), 5 * r + 0;
    forall i: CoreId
      ensures Done(w.cores[i], w.system, PlanOf(programs, registers, mem, totals), i)
    {
      AllDone(programs, registers, mem, ram, totals, MainLoop(5 * r + 0, 0), i);
    }
  }
}
