/** The whole memory system, and the main loop: one bus iteration, then one cycle of each core. */
module MultiCoreSim {
  import opened Types
  import opened CacheModel
  import opened BusPort
  import opened MainMemory
  import opened CacheController
  import opened CacheTable
  import opened BusController
  import S = SystemModel

  /** What a core asks of its cache in one cycle. */
  datatype Request = Nothing | Read(addr: Addr) | Write(addr: Addr, data: Word)

  function EventOf(c: CoreId, r: Request): seq<S.Event> {
    match r
    case Nothing => []
    case Read(a) => [S.LoadBy(c, a)]
    case Write(a, d) => [S.StoreBy(c, a, d)]
  }

  datatype Answer = NoAnswer | Loaded(data: Option<Word>) | Stored(done: bool)

  function AnswerOf(s: S.System, c: CoreId, r: Request): Answer {
    match r
    case Nothing => NoAnswer
    case Read(a) => Loaded(S.Load(s, c, a).1)
    case Write(a, d) => Stored(S.Store(s, c, a, d).1)
  }

  /** The events of cores 0, .. n-1, in this order. */
  function EventsOf(requests: seq<Request>, n: nat): seq<S.Event>
    requires n <= |requests| == 4
  {
    if n == 0 then [] else EventsOf(requests, n - 1) + EventOf(n - 1, requests[n - 1])
  }

  lemma {:induction false} RunAppend(s: S.System, es: seq<S.Event>, fs: seq<S.Event>)
    ensures S.Run(s, es + fs) == S.Run(S.Run(s, es), fs)
    decreases |es|
  {
    if es == [] {
      assert es + fs == fs;
    } else {
      assert (es + fs)[1..] == es[1..] + fs;
      RunAppend(S.Step(s, es[0]), es[1..], fs);
    }
  }

  /** The state and the answers when cores 0, .. n-1 have had their turns. */
  function After(s: S.System, requests: seq<Request>, n: nat): (S.System, seq<Answer>)
    requires n <= |requests| == 4
  {
    if n == 0 then (s, [])
    else
      var (s', answers) := After(s, requests, n - 1);
      (S.Run(s', EventOf(n - 1, requests[n - 1])), answers + [AnswerOf(s', n - 1, requests[n - 1])])
  }

  lemma AfterLast(s: S.System, requests: seq<Request>, n: nat)
    requires 0 < n <= |requests| == 4
    ensures After(s, requests, n).0 == S.Run(After(s, requests, n - 1).0, EventOf(n - 1, requests[n - 1]))
    ensures EventsOf(requests, n) == EventsOf(requests, n - 1) + EventOf(n - 1, requests[n - 1])
  {
  }

  lemma {:induction false} AfterIsRun(s: S.System, requests: seq<Request>, n: nat)
    requires n <= |requests| == 4
    ensures After(s, requests, n).0 == S.Run(s, EventsOf(requests, n))
  {
    if n > 0 {
      AfterIsRun(s, requests, n - 1);
      AfterLast(s, requests, n);
      RunAppend(s, EventsOf(requests, n - 1), EventOf(n - 1, requests[n - 1]));
    }
  }

  /** Each core gets the answer of the system as the bus and the cores before it have left it. */
  lemma {:induction false} AfterAnswers(s: S.System, requests: seq<Request>, n: nat, c: CoreId)
    requires c < n <= |requests| == 4
    ensures |After(s, requests, n).1| == n
    ensures After(s, requests, n).1[c] == AnswerOf(After(s, requests, c).0, c, requests[c])
  {
    if c < n - 1 {
      AfterAnswers(s, requests, n - 1, c);
    } else {
      AfterLength(s, requests, n - 1);
    }
  }

  lemma {:induction false} AfterLength(s: S.System, requests: seq<Request>, n: nat)
    requires n <= |requests| == 4
    ensures |After(s, requests, n).1| == n
  {
    if n > 0 {
      AfterLength(s, requests, n - 1);
    }
  }

  /** The events of a whole run of the main loop. */
  function LoopEvents(turns: seq<seq<Request>>): seq<S.Event>
    requires forall k :: 0 <= k < |turns| ==> |turns[k]| == 4
  {
    if turns == [] then [] else [S.BusTick] + EventsOf(turns[0], 4) + LoopEvents(turns[1..])
  }

  function Loop(s: S.System, turns: seq<seq<Request>>): S.System
    requires forall k :: 0 <= k < |turns| ==> |turns[k]| == 4
    decreases |turns|
  {
    if turns == [] then s else Loop(After(S.Tick(s), turns[0], 4).0, turns[1..])
  }

  /** The main loop is one of the interleavings that runs range over. */
  lemma {:induction false} LoopIsRun(s: S.System, turns: seq<seq<Request>>)
    requires forall k :: 0 <= k < |turns| ==> |turns[k]| == 4
    ensures Loop(s, turns) == S.Run(s, LoopEvents(turns))
    decreases |turns|
  {
    if turns != [] {
      var s', es := After(S.Tick(s), turns[0], 4).0, EventsOf(turns[0], 4);
      AfterIsRun(S.Tick(s), turns[0], 4);
      OneTurn(s, es);
      LoopIsRun(s', turns[1..]);
      RunAppend(s, [S.BusTick] + es, LoopEvents(turns[1..]));
    }
  }

  lemma OneTurn(s: S.System, es: seq<S.Event>)
    ensures S.Run(s, [S.BusTick] + es) == S.Run(S.Tick(s), es)
  {
    assert ([S.BusTick] + es)[1..] == es;
  }

  /** The objects that a bus, its queue, its caches and its memory consist of. */
  ghost function BusObjects(b: Controller): set<object>
    reads b, b.port, b.port.queue
  {
    {b, b.ongoing, b.memory, b.memory.words, b.port, b.port.queue} + b.port.Footprint() + b.table.Repr
  }

  /** The bus at power-on, with the four caches and the main memory on it. */
  method NewBus(contents: array<Word>) returns (b: Controller)
    requires contents.Length == 0x10_0000
    ensures b.Valid() && b.Started() && b.Shows(S.Start(contents[..]))
    ensures fresh(b) && fresh(b.ongoing) && fresh(b.memory) && b.memory.words == contents
    ensures fresh(b.port) && fresh(b.port.queue) && fresh(b.port.Footprint()) && fresh(b.table.Repr)
  {
    var p := new Port();
    var t := new Table();
    var m := new MainMemory(contents);
    b := new Controller(p, t, m);
    assert b.BusState() == S.Start(contents[..]).bus;
  }

  class MultiCore {
    const port: Port
    const table: Table
    const bus: Controller
    const flags: MissFlags

    ghost predicate Valid()
      reads bus, bus.ongoing, port, port.queue, port.queue.Repr
    {
      && bus.port == port && bus.table == table && bus.Valid() && bus.Started()
      && flags !in table.Repr + port.queue.Repr
    }

    ghost predicate Shows(s: S.System)
      requires bus.Wired()
      reads bus, bus.port, bus.port.queue, bus.port.phase, bus.memory, bus.memory.words, bus.ongoing, bus.table.Repr,
          flags
    {
      bus.Shows(s) && flags.Shows(s)
    }

    /** The objects that the memory system consists of; only the queue may get new nodes. */
    ghost function Footprint(): set<object>
      reads bus, bus.port, bus.port.queue
    {
      {flags} + BusObjects(bus)
    }

    /** Power-on with the given contents of the main memory. */
    constructor (contents: array<Word>)
      requires contents.Length == 0x10_0000
      ensures Valid() && Shows(S.Start(contents[..])) && bus.memory.words == contents
      ensures fresh(flags) && fresh(bus) && fresh(bus.ongoing) && fresh(bus.memory)
      ensures fresh(port) && fresh(port.queue) && fresh(port.Footprint()) && fresh(table.Repr)
    {
      var f := new MissFlags();
      var b := NewBus(contents);
      bus, port, table, flags := b, b.port, b.table, f;
    }

    method BusTick(ghost s: S.System) returns (ghost s': S.System)
      requires Valid() && Shows(s)
      modifies bus, bus.ongoing, port.Footprint(), bus.memory, bus.memory.words, table.Repr
      ensures Valid() && port.Footprint() == old(port.Footprint()) && s' == S.Tick(s) && Shows(s')
    {
      assert s.missRead == S.Tick(s).missRead && s.missWrite == S.Tick(s).missWrite;
      s' := bus.RunIteration(s);
    }

    /** A queue that has only got new nodes is still apart from everything else. */
    twostate lemma ValidKept(nodes: set<object>)
      requires old(Valid()) && nodes == old(port.queue.Repr)
      requires port.Valid() && fresh(port.queue.Repr - nodes) && unchanged(bus, bus.ongoing)
      ensures Valid()
    {
    }

    /** What the bus shows does not depend on the caches, the queue and the phases, which an access may change. */
    lemma AccessShows(s: S.System, s': S.System)
      requires bus.port == port && bus.table == table && bus.Valid()
      requires s.mem == bus.memory.State() && s.bus == bus.BusState().(queue := s.bus.queue, phase := s.bus.phase)
      requires s'.mem == s.mem && s'.bus == s.bus.(queue := s'.bus.queue, phase := s'.bus.phase)
      requires s'.caches == table.States() && port.Shows(s'.bus) && flags.Shows(s')
      ensures Shows(s')
    {
    }

    /** A load of core c: one step of the model. */
    method Load(c: CoreId, a: Addr, ghost s: S.System) returns (data: Option<Word>, ghost s': S.System)
      requires Valid() && Shows(s)
      modifies flags, port.Footprint(), table.Repr
      ensures Valid() && fresh(port.Footprint() - old(port.Footprint()))
      ensures (s', data) == S.Load(s, c, a) && Shows(s')
    {
      LoadTouches(s, c, a);
      ghost var nodes := port.queue.Repr;
      data, s' := table.Read(c, port, flags, a, s);
      ValidKept(nodes);
      AccessShows(s, s');
    }

    /** A store of core c: one step of the model. */
    method Store(c: CoreId, a: Addr, d: Word, ghost s: S.System) returns (done: bool, ghost s': S.System)
      requires Valid() && Shows(s)
      modifies flags, port.Footprint(), table.Repr
      ensures Valid() && fresh(port.Footprint() - old(port.Footprint()))
      ensures (s', done) == S.Store(s, c, a, d) && Shows(s')
    {
      StoreTouches(s, c, a, d);
      ghost var nodes := port.queue.Repr;
      done, s' := table.Write(c, port, flags, a, d, s);
      ValidKept(nodes);
      AccessShows(s, s');
    }

    /** The cache access of core c in its cycle, if there is one. */
    method Serve(c: CoreId, r: Request, ghost s: S.System) returns (answer: Answer, ghost s': S.System)
      requires Valid() && Shows(s)
      modifies flags, port.Footprint(), table.Repr
      ensures Valid() && fresh(port.Footprint() - old(port.Footprint()))
      ensures s' == S.Run(s, EventOf(c, r)) && Shows(s') && answer == AnswerOf(s, c, r)
    {
      match r
      case Nothing =>
        answer, s' := NoAnswer, s;
      case Read(a) =>
        var data;
        data, s' := Load(c, a, s);
        answer := Loaded(data);
      case Write(a, d) =>
        var done;
        done, s' := Store(c, a, d, s);
        answer := Stored(done);
    }

    /** The cores take their turns. */
    method CoreTurns(requests: seq<Request>, ghost s: S.System) returns (answers: seq<Answer>, ghost s': S.System)
      requires Valid() && Shows(s) && |requests| == 4
      modifies flags, port.Footprint(), table.Repr
      ensures Valid() && fresh(port.Footprint() - old(port.Footprint()))
      ensures (s', answers) == After(s, requests, 4) && Shows(s')
    {
      s', answers := s, [];
      for c := 0 to 4
        invariant Valid() && fresh(port.Footprint() - old(port.Footprint())) && Shows(s')
        invariant (s', answers) == After(s, requests, c)
      {
        var answer;
        answer, s' := Serve(c, requests[c], s');
        answers := answers + [answer];
      }
    }

    /** One turn of the main loop: the bus first, then the cores in order. */
    method Cycle(requests: seq<Request>, ghost s: S.System) returns (answers: seq<Answer>, ghost s': S.System)
      requires Valid() && Shows(s) && |requests| == 4
      modifies flags, bus, bus.ongoing, port.Footprint(), bus.memory, bus.memory.words, table.Repr
      ensures Valid() && fresh(port.Footprint() - old(port.Footprint()))
      ensures (s', answers) == After(S.Tick(s), requests, 4) && Shows(s')
    {
      s' := BusTick(s);
      answers, s' := CoreTurns(requests, s');
    }
  }
}
