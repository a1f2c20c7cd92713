/** The whole simulator: four cores with their pipelines on the memory system. */
module Simulator {
  import opened Types
  import opened Isa
  import opened PipelineModel
  import opened PipelineEffects
  import opened PipelineMemory
  import opened PipelineRefinement
  import opened PipelineRuns
  import S = SystemModel
  import Structure
  import FlatMemory
  import PrivateRuns

  type Cores = s: seq<CoreState> | |s| == 4 witness seq(4, c => Boot(seq(16, i => 0), map[]))
  type Programs = s: seq<Program> | |s| == 4 witness seq(4, c => seq(0x400, i => Instruction(HALT, 0, 0, 0, 0)))

  /** The memory inside a pipeline is not used here: every word that it reads comes from its cache. */
  datatype Whole = Whole(cores: Cores, system: S.System)

  datatype Turn = BusTurn | CoreTurn(id: CoreId)

  predicate Requests(c: CoreState) { Running(c) && Asks(c.pipe) }

  /** The twenty address bits that the cache looks at. */
  function CacheAddress(p: Pipe): Addr { AccessAddress(p) % 0x10_0000 }

  /** What core c asks of its cache in this cycle. */
  function EventOf(c: CoreState, id: CoreId): S.Event
    requires Requests(c)
  {
    if Reads(c.pipe) then S.LoadBy(id, CacheAddress(c.pipe))
        else S.StoreBy(id, CacheAddress(c.pipe), AccessData(c.pipe))
  }

  /** The answer of the cache: is the access done, and which word has been read? */
  function Answer(c: CoreState, id: CoreId, s: S.System): (bool, DataMemory) {
    if !Requests(c) then (true, map[])
    else if Reads(c.pipe) then
      var word := S.Load(s, id, CacheAddress(c.pipe)).1;
      (word.Some?, if word.Some? then map[AccessAddress(c.pipe) := word.value] else map[])
    else (S.Store(s, id, CacheAddress(c.pipe), AccessData(c.pipe)).1, map[])
  }

  /** The memory system after a turn. */
  function SystemAfter(w: Whole, t: Turn): S.System {
    if t.BusTurn? then S.Tick(w.system)
    else if Requests(w.cores[t.id]) then S.Step(w.system, EventOf(w.cores[t.id], t.id)) else w.system
  }

  /** The cores after a turn. */
  function CoresAfter(w: Whole, progs: Programs, t: Turn): Cores {
    if t.BusTurn? then w.cores
    else
      var (ready, word) := Answer(w.cores[t.id], t.id, w.system);
      w.cores[t.id := Cycle(SetMem(w.cores[t.id], word), progs[t.id], ready)]
  }

  /** One iteration of the bus, or one cycle of a core. */
  function TakeTurn(w: Whole, progs: Programs, t: Turn): Whole {
    Whole(CoresAfter(w, progs, t), SystemAfter(w, t))
  }

  function Simulate(w: Whole, progs: Programs, turns: seq<Turn>): Whole
    decreases |turns|
  {
    if turns == [] then w else Simulate(TakeTurn(w, progs, turns[0]), progs, turns[1..])
  }

  /** The memory events of a turn. */
  function EventsOf(w: Whole, t: Turn): seq<S.Event> {
    if t.BusTurn? then [S.BusTick] else if Requests(w.cores[t.id]) then [EventOf(w.cores[t.id], t.id)] else []
  }

  function Trace(w: Whole, progs: Programs, turns: seq<Turn>): seq<S.Event>
    decreases |turns|
  {
    if turns == [] then [] else EventsOf(w, turns[0]) + Trace(TakeTurn(w, progs, turns[0]), progs, turns[1..])
  }

  /** Every address used is below 2^20. */
  predicate InRange(w: Whole, progs: Programs, turns: seq<Turn>)
    decreases |turns|
  {
    turns == [] ||
    (&& (turns[0].CoreTurn? && Requests(w.cores[turns[0].id]) ==> AccessAddress(w.cores[turns[0].id].pipe) < 0x10_0000)
     && InRange(TakeTurn(w, progs, turns[0]), progs, turns[1..]))
  }

  /** No instruction of core i slips past the interlock while an access waits. */
  predicate SlipFree(w: Whole, progs: Programs, turns: seq<Turn>, i: CoreId)
    decreases |turns|
  {
    turns == [] ||
    (&& (turns[0] == CoreTurn(i) && !Answer(w.cores[i], i, w.system).0 && !w.cores[i].pipe.memStall ==>
           !Slips(w.cores[i].pipe))
     && SlipFree(TakeTurn(w, progs, turns[0]), progs, turns[1..], i))
  }

  // ----- each core beside a core of its own with a memory that answers -----

  /** Apart from its memory, core i is in the state of its view, which knows the blocks that core i uses. */
  ghost predicate Viewed(cores: Cores, views: Cores, flat: Ram, run: seq<S.Event>, i: CoreId) {
    cores[i] == SetMem(views[i], cores[i].pipe.mem) && Knows(views[i].pipe.mem, flat, run, i)
  }

  ghost predicate Matched(w: Whole, views: Cores, flat: Ram, run: seq<S.Event>) {
    && Structure.Structured(w.system) && FlatMemory.Coherent(w.system, flat) && PrivateRuns.Private(w.system, run)
    && forall i: CoreId :: Viewed(w.cores, views, flat, run, i)
  }

  /** The memory system takes its part of a turn. */
  lemma EventMatched(s: S.System, e: S.Event, flat: Ram, run: seq<S.Event>)
    requires Structure.Structured(s) && FlatMemory.Coherent(s, flat) && PrivateRuns.Private(s, run)
    requires PrivateRuns.BlockPrivate(run) && e in run
    ensures var (s', flat') := (S.Step(s, e), FlatMemory.FlatStep(s, flat, e));
      && Structure.Structured(s') && FlatMemory.Coherent(s', flat') && PrivateRuns.Private(s', run)
      && (e.LoadBy? && S.Load(s, e.core, e.addr).1.Some? ==> S.Load(s, e.core, e.addr).1.value == flat[e.addr])
  {
    Structure.StepStructured(s, e);
    PrivateRuns.StepPrivate(s, e, run, flat);
    FlatMemory.StepCoherent(s, e, flat);
    if e.LoadBy? && S.Load(s, e.core, e.addr).1.Some? {
      FlatMemory.LoadIsFlat(s, e.core, e.addr, flat);
    }
  }

  lemma EventUses(e: S.Event, run: seq<S.Event>)
    requires e in run && !e.BusTick?
    ensures PrivateRuns.Uses(run, e.core, TagOf(e.addr), IndexOf(e.addr))
    ensures e.StoreBy? ==> PrivateRuns.Writes(run, e.core, TagOf(e.addr), IndexOf(e.addr))
  {
    var n :| 0 <= n < |run| && run[n] == e;
    assert PrivateRuns.Touches(run[n], e.core, TagOf(e.addr), IndexOf(e.addr));
  }

  /** The memory of a core after a cycle. */
  lemma CycleStores(c: CoreState, prog: Program, ready: bool)
    ensures Cycle(c, prog, ready).pipe.mem ==
      if Requests(c) && !Reads(c.pipe) && ready then c.pipe.mem[AccessAddress(c.pipe) := AccessData(c.pipe)]
          else c.pipe.mem
  {
    CycleMem(c, c.pipe.mem, prog, ready);
    assert SetMem(c, c.pipe.mem) == c;
  }

  /** A core and its view make the same cycle if the word from the cache is the one in the memory of the view. */
  lemma CoreFollows(c: CoreState, v: CoreState, word: DataMemory, prog: Program, ready: bool)
    requires c == SetMem(v, c.pipe.mem)
    requires Requests(c) && Reads(c.pipe) && ready ==>
      Lookup(word, AccessAddress(c.pipe)) == Lookup(v.pipe.mem, AccessAddress(c.pipe))
    ensures var d := Cycle(SetMem(c, word), prog, ready); d == SetMem(Cycle(v, prog, ready), d.pipe.mem)
  {
    CycleMem(v, word, prog, ready);
    assert SetMem(c, word) == SetMem(v, word);
  }

  /** What a view knows of a memory: the blocks that its core uses. */
  ghost predicate Knows(mem: DataMemory, flat: Ram, run: seq<S.Event>, i: CoreId) {
    forall a: Addr :: PrivateRuns.Uses(run, i, TagOf(a), IndexOf(a)) ==> Lookup(mem, a) == flat[a]
  }

  /** A store of core i reaches its own view, and concerns no other. */
  lemma StoreKnown(mem: DataMemory, flat: Ram, run: seq<S.Event>, e: S.Event, j: CoreId)
    requires PrivateRuns.BlockPrivate(run) && e.StoreBy? && e in run && Knows(mem, flat, run, j)
    ensures Knows(if j == e.core then mem[e.addr := e.data] else mem, flat[e.addr := e.data], run, j)
  {
    EventUses(e, run);
    var x := if j == e.core then mem[e.addr := e.data] else mem;
    forall a: Addr | PrivateRuns.Uses(run, j, TagOf(a), IndexOf(a))
      ensures Lookup(x, a) == flat[e.addr := e.data][a]
    {
      assert a != e.addr || j == e.core;
    }
  }

  /** The request of a core is the request of its view. */
  lemma SameRequest(c: CoreState, v: CoreState, i: CoreId)
    requires c == SetMem(v, c.pipe.mem)
    ensures Requests(c) == Requests(v) && Reads(c.pipe) == Reads(v.pipe)
    ensures AccessAddress(c.pipe) == AccessAddress(v.pipe) && AccessData(c.pipe) == AccessData(v.pipe)
    ensures Requests(c) ==> EventOf(c, i) == EventOf(v, i)
  {
  }

  lemma InRangeAddress(c: CoreState, i: CoreId)
    requires Requests(c) && AccessAddress(c.pipe) < 0x10_0000
    ensures var e := EventOf(c, i);
      && CacheAddress(c.pipe) == AccessAddress(c.pipe) == e.addr && e.core == i && !e.BusTick?
      && e.StoreBy? == !Reads(c.pipe)
      && (e.StoreBy? ==> e.data == AccessData(c.pipe))
  {
  }

  lemma AnswerWord(c: CoreState, i: CoreId, s: S.System)
    requires Requests(c) && Reads(c.pipe) && Answer(c, i, s).0
    ensures S.Load(s, i, CacheAddress(c.pipe)).1.Some?
    ensures Lookup(Answer(c, i, s).1, AccessAddress(c.pipe)) == S.Load(s, i, CacheAddress(c.pipe)).1.value
  {
  }

  /** A load that returns true brings the word that the view has. */
  lemma LoadKnown(c: CoreState, v: CoreState, i: CoreId, s: S.System, flat: Ram, run: seq<S.Event>)
    requires Structure.Structured(s) && FlatMemory.Coherent(s, flat)
    requires Requests(c) && Reads(c.pipe) && EventOf(c, i) in run && AccessAddress(c.pipe) < 0x10_0000
    requires Knows(v.pipe.mem, flat, run, i) && Answer(c, i, s).0
    ensures Lookup(Answer(c, i, s).1, AccessAddress(c.pipe)) == Lookup(v.pipe.mem, AccessAddress(c.pipe))
  {
    InRangeAddress(c, i);
    EventUses(EventOf(c, i), run);
    AnswerWord(c, i, s);
    FlatMemory.LoadIsFlat(s, i, CacheAddress(c.pipe), flat);
  }

  lemma AccessFlat(c: CoreState, i: CoreId, s: S.System, flat: Ram)
    requires Requests(c)
    ensures var e, ready := EventOf(c, i), Answer(c, i, s).0;
      FlatMemory.FlatStep(s, flat, e) == (if e.StoreBy? && ready then flat[e.addr := e.data] else flat)
  {
  }

  /** The cycle of a core that accesses memory: the view sees the same word, and stores the same. */
  lemma AccessTurn(c: CoreState, v: CoreState, i: CoreId, prog: Program, ready: bool, word: DataMemory)
    requires c == SetMem(v, c.pipe.mem) && Requests(c) && AccessAddress(c.pipe) < 0x10_0000
    requires Reads(c.pipe) && ready ==> Lookup(word, AccessAddress(c.pipe)) == Lookup(v.pipe.mem, AccessAddress(c.pipe))
    ensures var e := EventOf(c, i); var d := Cycle(SetMem(c, word), prog, ready);
      && d == SetMem(Cycle(v, prog, ready), d.pipe.mem)
      && Cycle(v, prog, ready).pipe.mem == (if e.StoreBy? && ready then v.pipe.mem[e.addr := e.data] else v.pipe.mem)
  {
    SameRequest(c, v, i);
    InRangeAddress(c, i);
    CycleStores(v, prog, ready);
    CoreFollows(c, v, word, prog, ready);
  }

  /** The cycle of a core that does not. */
  lemma QuietTurn(c: CoreState, v: CoreState, prog: Program)
    requires c == SetMem(v, c.pipe.mem) && !Requests(c)
    ensures var d := Cycle(SetMem(c, map[]), prog, true);
      d == SetMem(Cycle(v, prog, true), d.pipe.mem) && Cycle(v, prog, true).pipe.mem == v.pipe.mem
  {
    CycleStores(v, prog, true);
    CoreFollows(c, v, map[], prog, true);
  }

  lemma ViewsKnow(views: Cores, views': Cores, flat: Ram, run: seq<S.Event>, e: S.Event, ready: bool)
    requires PrivateRuns.BlockPrivate(run) && !e.BusTick? && e in run
    requires forall j: CoreId :: Knows(views[j].pipe.mem, flat, run, j)
    requires forall j: CoreId :: j != e.core ==> views'[j] == views[j]
    requires views'[e.core].pipe.mem ==
      if e.StoreBy? && ready then views[e.core].pipe.mem[e.addr := e.data] else views[e.core].pipe.mem
    ensures forall j: CoreId ::
      Knows(views'[j].pipe.mem, if e.StoreBy? && ready then flat[e.addr := e.data] else flat, run, j)
  {
    if e.StoreBy? && ready {
      forall j: CoreId
        ensures Knows(views'[j].pipe.mem, flat[e.addr := e.data], run, j)
      {
        StoreKnown(views[j].pipe.mem, flat, run, e, j);
      }
    }
  }

  lemma OneMoved(cores: Cores, views: Cores, cores': Cores, views': Cores, i: CoreId, flat: Ram, flat': Ram,
      run: seq<S.Event>)
    requires forall j: CoreId :: Viewed(cores, views, flat, run, j)
    requires forall j: CoreId :: j != i ==> cores'[j] == cores[j] && views'[j] == views[j]
    requires cores'[i] == SetMem(views'[i], cores'[i].pipe.mem)
    requires forall j: CoreId :: Knows(views'[j].pipe.mem, flat', run, j)
    ensures forall j: CoreId :: Viewed(cores', views', flat', run, j)
  {
    forall j: CoreId
      ensures Viewed(cores', views', flat', run, j)
    {
      assert Viewed(cores, views, flat, run, j);
    }
  }

  lemma AllKnow(cores: Cores, views: Cores, flat: Ram, run: seq<S.Event>)
    requires forall j: CoreId :: Viewed(cores, views, flat, run, j)
    ensures forall j: CoreId :: Knows(views[j].pipe.mem, flat, run, j)
  {
    forall j: CoreId
      ensures Knows(views[j].pipe.mem, flat, run, j)
    {
      assert Viewed(cores, views, flat, run, j);
    }
  }

  /** The core that accesses memory stays beside its view. */
  lemma AccessViewed(c: CoreState, v: CoreState, i: CoreId, s: S.System, prog: Program, flat: Ram, run: seq<S.Event>)
    requires Structure.Structured(s) && FlatMemory.Coherent(s, flat) && c == SetMem(v, c.pipe.mem)
    requires Requests(c) && EventOf(c, i) in run && AccessAddress(c.pipe) < 0x10_0000 && Knows(v.pipe.mem, flat, run, i)
    ensures var e := EventOf(c, i); var (ready, word) := Answer(c, i, s); var d := Cycle(SetMem(c, word), prog, ready);
      && d == SetMem(Cycle(v, prog, ready), d.pipe.mem)
      && Cycle(v, prog, ready).pipe.mem == (if e.StoreBy? && ready then v.pipe.mem[e.addr := e.data] else v.pipe.mem)
  {
    var (ready, word) := Answer(c, i, s);
    if Reads(c.pipe) && ready {
      LoadKnown(c, v, i, s, flat, run);
    }
    AccessTurn(c, v, i, prog, ready, word);
  }

  lemma AccessMatched(w: Whole, progs: Programs, i: CoreId, views: Cores, flat: Ram, run: seq<S.Event>)
    returns (views': Cores, flat': Ram)
    requires Matched(w, views, flat, run) && PrivateRuns.BlockPrivate(run)
    requires var c := w.cores[i]; Requests(c) && EventOf(c, i) in run && AccessAddress(c.pipe) < 0x10_0000
    ensures Matched(TakeTurn(w, progs, CoreTurn(i)), views', flat', run)
    ensures views' == views[i := Cycle(views[i], progs[i], Answer(w.cores[i], i, w.system).0)]
  {
    hide Structure.Structured, FlatMemory.Coherent, PrivateRuns.Private, PrivateRuns.BlockPrivate, Knows, Cycle, S.Step;
    var c, e := w.cores[i], EventOf(w.cores[i], i);
    var ready := Answer(c, i, w.system).0;
    assert Viewed(w.cores, views, flat, run, i);
    views' := views[i := Cycle(views[i], progs[i], ready)];
    flat' := FlatMemory.FlatStep(w.system, flat, e);
    EventMatched(w.system, e, flat, run);
    AccessFlat(c, i, w.system, flat);
    AccessViewed(c, views[i], i, w.system, progs[i], flat, run);
    AllKnow(w.cores, views, flat, run);
    ViewsKnow(views, views', flat, run, e, ready);
    OneMoved(w.cores, views, TakeTurn(w, progs, CoreTurn(i)).cores, views', i, flat, flat', run);
  }

  lemma QuietMatched(w: Whole, progs: Programs, i: CoreId, views: Cores, flat: Ram, run: seq<S.Event>)
    returns (views': Cores)
    requires Matched(w, views, flat, run) && !Requests(w.cores[i])
    ensures Matched(TakeTurn(w, progs, CoreTurn(i)), views', flat, run)
    ensures views' == views[i := Cycle(views[i], progs[i], true)]
  {
    assert Viewed(w.cores, views, flat, run, i);
    views' := views[i := Cycle(views[i], progs[i], true)];
    QuietTurn(w.cores[i], views[i], progs[i]);
    AllKnow(w.cores, views, flat, run);
    OneMoved(w.cores, views, TakeTurn(w, progs, CoreTurn(i)).cores, views', i, flat, flat, run);
  }

  /** A turn keeps every core beside its view. */
  lemma TurnMatched(w: Whole, progs: Programs, t: Turn, views: Cores, flat: Ram, run: seq<S.Event>)
    returns (views': Cores, flat': Ram)
    requires Matched(w, views, flat, run) && PrivateRuns.BlockPrivate(run)
    requires forall e :: e in EventsOf(w, t) ==> e in run
    requires t.CoreTurn? && Requests(w.cores[t.id]) ==> AccessAddress(w.cores[t.id].pipe) < 0x10_0000
    ensures Matched(TakeTurn(w, progs, t), views', flat', run)
    ensures views' == if t.BusTurn? then views
                      else views[t.id := Cycle(views[t.id], progs[t.id], Answer(w.cores[t.id], t.id, w.system).0)]
  {
    views', flat' := views, flat;
    if t.BusTurn? {
      EventMatched(w.system, S.BusTick, flat, run);
    } else if Requests(w.cores[t.id]) {
      views', flat' := AccessMatched(w, progs, t.id, views, flat, run);
    } else {
      views' := QuietMatched(w, progs, t.id, views, flat, run);
    }
  }

  // ----- runs -----

  /** What the cache answers to core i, cycle by cycle. */
  function Answers(w: Whole, progs: Programs, turns: seq<Turn>, i: CoreId): seq<bool>
    decreases |turns|
  {
    if turns == [] then []
    else
      (if turns[0] == CoreTurn(i) then [Answer(w.cores[i], i, w.system).0] else [])
      + Answers(TakeTurn(w, progs, turns[0]), progs, turns[1..], i)
  }

  lemma ViewRuns(w: Whole, progs: Programs, turns: seq<Turn>, i: CoreId, v: CoreState, v': CoreState)
    requires turns != [] && w.cores[i] == SetMem(v, w.cores[i].pipe.mem)
    requires v' == if turns[0] == CoreTurn(i) then Cycle(v, progs[i], Answer(w.cores[i], i, w.system).0) else v
    ensures RunCore(v, progs[i], Answers(w, progs, turns, i)) ==
      RunCore(v', progs[i], Answers(TakeTurn(w, progs, turns[0]), progs, turns[1..], i))
    ensures SlipFree(w, progs, turns, i)
            && NoSlips(v', progs[i], Answers(TakeTurn(w, progs, turns[0]), progs, turns[1..], i))
            ==> NoSlips(v, progs[i], Answers(w, progs, turns, i))
  {
    var rest := Answers(TakeTurn(w, progs, turns[0]), progs, turns[1..], i);
    if turns[0] == CoreTurn(i) {
      var x := Answer(w.cores[i], i, w.system).0;
      var answers := Answers(w, progs, turns, i);
      assert answers == [x] + rest && answers[1..] == rest && answers[0] == x;
    } else {
      assert Answers(w, progs, turns, i) == rest;
    }
  }

  /** The views at the end of a run: each core on its own, with a memory that answers as the cache did. */
  function Views(w: Whole, progs: Programs, turns: seq<Turn>, views: Cores): Cores {
    seq(4, i requires 0 <= i < 4 => RunCore(views[i], progs[i], Answers(w, progs, turns, i)))
  }

  ghost predicate AllSlipFree(w: Whole, progs: Programs, turns: seq<Turn>, views: Cores) {
    forall i: CoreId :: SlipFree(w, progs, turns, i) ==> NoSlips(views[i], progs[i], Answers(w, progs, turns, i))
  }

  lemma ViewsStep(w: Whole, progs: Programs, turns: seq<Turn>, views: Cores, views': Cores)
    requires turns != [] && forall i: CoreId :: w.cores[i] == SetMem(views[i], w.cores[i].pipe.mem)
    requires views' == if turns[0].BusTurn? then views
      else views[turns[0].id := Cycle(views[turns[0].id], progs[turns[0].id],
          Answer(w.cores[turns[0].id], turns[0].id, w.system).0)]
    ensures var w' := TakeTurn(w, progs, turns[0]);
      && Views(w, progs, turns, views) == Views(w', progs, turns[1..], views')
      && (AllSlipFree(w', progs, turns[1..], views') ==> AllSlipFree(w, progs, turns, views))
  {
    var w' := TakeTurn(w, progs, turns[0]);
    forall i: CoreId
      ensures RunCore(views[i], progs[i], Answers(w, progs, turns, i)) ==
          RunCore(views'[i], progs[i], Answers(w', progs, turns[1..], i))
      ensures SlipFree(w, progs, turns, i) && NoSlips(views'[i], progs[i], Answers(w', progs, turns[1..], i)) ==>
        NoSlips(views[i], progs[i], Answers(w, progs, turns, i))
      ensures SlipFree(w, progs, turns, i) ==> SlipFree(w', progs, turns[1..], i)
    {
      ViewRuns(w, progs, turns, i, views[i], views'[i]);
    }
  }

  lemma NoTurns(w: Whole, progs: Programs, views: Cores)
    ensures Views(w, progs, [], views) == views && AllSlipFree(w, progs, [], views)
  {
  }

  /** The simulator is four cores, each on its own with one flat memory. */
  lemma {:induction false} SimulateMatched(w: Whole, progs: Programs, turns: seq<Turn>, views: Cores, flat: Ram,
      run: seq<S.Event>)
    returns (flat': Ram)
    requires Matched(w, views, flat, run) && PrivateRuns.BlockPrivate(run) && InRange(w, progs, turns)
    requires forall e :: e in Trace(w, progs, turns) ==> e in run
    ensures Matched(Simulate(w, progs, turns), Views(w, progs, turns, views), flat', run)
    ensures AllSlipFree(w, progs, turns, views)
    decreases |turns|
  {
    if turns == [] {
      NoTurns(w, progs, views);
      flat' := flat;
    } else {
      var w' := TakeTurn(w, progs, turns[0]);
      var views', flat1 := TurnMatched(w, progs, turns[0], views, flat, run);
      assert forall i: CoreId :: Viewed(w.cores, views, flat, run, i) ==>
          w.cores[i] == SetMem(views[i], w.cores[i].pipe.mem);
      ViewsStep(w, progs, turns, views, views');
      flat' := SimulateMatched(w', progs, turns[1..], views', flat1, run);
    }
  }

  function PowerOn(regs: seq<Regs>, ram: Ram): Whole
    requires |regs| == 4
  {
    Whole([Boot(regs[0], map[]), Boot(regs[1], map[]), Boot(regs[2], map[]), Boot(regs[3], map[])], S.Start(ram))
  }

  function FirstViews(regs: seq<Regs>, mem: DataMemory): Cores
    requires |regs| == 4
  {
    [Boot(regs[0], mem), Boot(regs[1], mem), Boot(regs[2], mem), Boot(regs[3], mem)]
  }

  ghost predicate SameMemory(mem: DataMemory, ram: Ram) {
    forall a: Addr :: Lookup(mem, a) == ram[a]
  }

  lemma PowerOnViewed(regs: seq<Regs>, mem: DataMemory, ram: Ram, run: seq<S.Event>, i: CoreId)
    requires |regs| == 4 && SameMemory(mem, ram)
    ensures FirstViews(regs, mem)[i] == Boot(regs[i], mem)
    ensures Viewed(PowerOn(regs, ram).cores, FirstViews(regs, mem), ram, run, i)
  {
    assert PowerOn(regs, ram).cores[i] == Boot(regs[i], map[]);
  }

  lemma PowerOnMatched(regs: seq<Regs>, mem: DataMemory, ram: Ram, run: seq<S.Event>)
    requires |regs| == 4 && SameMemory(mem, ram)
    ensures Matched(PowerOn(regs, ram), FirstViews(regs, mem), ram, run)
  {
    Structure.StartStructured(ram);
    FlatMemory.StartCoherent(ram);
    PrivateRuns.StartPrivate(ram, run);
    var w := PowerOn(regs, ram);
    assert w.system == S.Start(ram);
    forall i: CoreId
      ensures Viewed(w.cores, FirstViews(regs, mem), ram, run, i)
    {
      PowerOnViewed(regs, mem, ram, run, i);
    }
  }

  /** The events of the simulation are all in the list, and no block that one core stores to is used by another. */
  ghost predicate PrivateIn(run: seq<S.Event>, w: Whole, progs: Programs, turns: seq<Turn>) {
    PrivateRuns.BlockPrivate(run) && forall e :: e in Trace(w, progs, turns) ==> e in run
  }

  /** Every core of the simulator runs as if it were alone with one flat memory, provided no block that one core stores
      to is used by another: same registers, same counters, cycle by cycle, for every program and every interleaving. */
  lemma CoresAreIndependent(
    progs: Programs, regs: seq<Regs>, mem: DataMemory, ram: Ram, turns: seq<Turn>, run: seq<S.Event>, i: CoreId)
    returns (flat: Ram)
    requires |regs| == 4
    requires var w := PowerOn(regs, ram);
      SameMemory(mem, ram) && InRange(w, progs, turns) && PrivateIn(run, w, progs, turns)
    ensures var w := PowerOn(regs, ram); var w' := Simulate(w, progs, turns);
      var c := RunCore(Boot(regs[i], mem), progs[i], Answers(w, progs, turns, i));
      && w'.cores[i] == SetMem(c, w'.cores[i].pipe.mem)
      && FlatMemory.Coherent(w'.system, flat) && Knows(c.pipe.mem, flat, run, i)
      && (SlipFree(w, progs, turns, i) ==> NoSlips(Boot(regs[i], mem), progs[i], Answers(w, progs, turns, i)))
  {
    var w := PowerOn(regs, ram);
    PowerOnMatched(regs, mem, ram, run);
    PowerOnViewed(regs, mem, ram, run, i);
    flat := SimulateMatched(w, progs, turns, FirstViews(regs, mem), ram, run);
    assert Viewed(Simulate(w, progs, turns).cores, Views(w, progs, turns, FirstViews(regs, mem)), flat, run, i);
  }

  /** The simulator as a whole: a core that runs a program of the fragment and halts has computed what the sequential
      machine computes, in its registers and in the memory that caches and main memory make up together. */
  lemma SimulatorIsCorrect(
    progs: Programs, regs: seq<Regs>, mem: DataMemory, ram: Ram, turns: seq<Turn>, run: seq<S.Event>, i: CoreId,
        total: nat)
    returns (flat: Ram)
    requires |regs| == 4
    requires var w := PowerOn(regs, ram);
      SameMemory(mem, ram) && InRange(w, progs, turns) && PrivateIn(run, w, progs, turns)
    requires var s0 := Reset(regs[i], mem); ProperRun(progs[i], s0) && HaltsAfter(progs[i], s0, total)
    requires SlipFree(PowerOn(regs, ram), progs, turns, i)
    ensures var w' := Simulate(PowerOn(regs, ram), progs, turns); var s := Steps(progs[i], Reset(regs[i], mem), total);
      && FlatMemory.Coherent(w'.system, flat)
      && (w'.cores[i].isHalted ==> Computed(w'.cores[i], s, flat, run, i) && w'.cores[i].instructions - 1 == total + 1)
  {
    flat := CoresAreIndependent(progs, regs, mem, ram, turns, run, i);
    PipelineRefines(progs[i], regs[i], mem, Answers(PowerOn(regs, ram), progs, turns, i), total);
  }

  /** The registers of core i, and the blocks that it uses, are those of the sequential machine. */
  ghost predicate Computed(c: CoreState, s: Machine, flat: Ram, run: seq<S.Event>, i: CoreId) {
    && (forall r: Reg :: r >= 2 ==> c.pipe.regs[r] == s.regs[r])
    && (forall a: Addr :: PrivateRuns.Uses(run, i, TagOf(a), IndexOf(a)) ==> flat[a] == Lookup(s.mem, a))
  }
}
