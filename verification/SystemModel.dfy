/** The memory system as a state machine: four caches, the bus with its FIFO of transactions, and the main memory. */
module SystemModel {
  import opened Types
  import opened CacheModel

  datatype Phase = Idle | Waiting | Operation | Finally

  type Phases = s: seq<Phase> | |s| == 4 witness [Idle, Idle, Idle, Idle]

  /** `queue[0]` is the next transaction to be served. */
  datatype Bus = Bus(
    queue: seq<Transaction>, phase: Phases, ongoing: Transaction, active: bool, offset: Offset, firstShared: bool)

  datatype Memory = Memory(ram: Ram, busy: bool, counter: nat)

  /** `missRead` and `missWrite` are the two flags that all the caches share. */
  datatype System = System(caches: Caches, bus: Bus, mem: Memory, missRead: bool, missWrite: bool)

  // ----- the bus iteration -----

  /** Some cache other than the originator holds the block. */
  predicate SharedSignal(cs: Caches, t: Transaction) {
    exists c: nat :: c < 4 && Core(c) != t.origid && Matches(cs[c].tsram[IndexOf(t.addr)], TagOf(t.addr))
  }

  /** Some cache other than the originator has a modified line at this index, whatever its tag. */
  predicate ModifiedSignal(cs: Caches, t: Transaction) {
    exists c: nat :: c < 4 && Core(c) != t.origid && cs[c].tsram[IndexOf(t.addr)].mesi == Modified
  }

  /** Caches j, j+1, .. 3 see the transaction in this order, each as the ones before left it. */
  function SnoopAll(cs: Caches, t: Transaction, off: Offset, j: nat): (Caches, Transaction)
    requires j <= 4
    decreases 4 - j
  {
    if j == 4 then (cs, t)
    else SnoopAll(cs[j := SnoopedCache(cs[j], j, t, off)], SnoopedTransaction(cs[j], j, t), off, j + 1)
  }

  datatype MemoryAnswer = MemoryAnswer(mem: Memory, t: Transaction, ready: bool)

  /** The word that the memory takes or gives: a read is answered as a flush, a flush is stored. */
  function ServeWord(m: Ram, t: Transaction): (Ram, Transaction) {
    if IsFetch(t) then (m, t.(origid := MainMemory, cmd := Flush, data := m[t.addr]))
    else if t.cmd == Flush then (m[t.addr := t.data], t)
    else (m, t)
  }

  /** One cycle of the main memory: 16 cycles of delay (none for a direct transaction), then four words. */
  function MemoryCycle(m: Memory, t: Transaction, direct: bool): MemoryAnswer {
    if t.cmd == NoCmd then MemoryAnswer(m, t, false)
    else
      var counter := if m.busy then m.counter else if direct then 16 else 0;
      if counter >= 16 then
        var (ram, t') := ServeWord(m.ram, t);
        MemoryAnswer(Memory(ram, counter != 19, counter + 1), t', true)
      else MemoryAnswer(Memory(m.ram, true, counter + 1), t, false)
  }

  /** The phases once the core of the finished transaction has become idle. */
  function Retired(b: Bus): Phases {
    var last := b.ongoing.origid;
    if last.Core? && b.phase[last.id] == Finally then b.phase[last.id := Idle] else b.phase
  }

  /** The first half of an iteration: retire the finished transaction and, if the bus is free, take the next one.  A
      bubble only costs this iteration. */
  function BeginBus(b: Bus): Bus {
    var phase := Retired(b);
    if b.active then b.(phase := phase)
    else if b.queue == [] then b.(phase := phase, ongoing := b.ongoing.(origid := InvalidCaller))
    else
      var t := b.queue[0];
      if !t.origid.Core? then b.(queue := b.queue[1..], phase := phase, ongoing := t, firstShared := true)
      else Bus(b.queue[1..], phase[t.origid.id := Operation], t.(originalCaller := t.origid), true, 0, true)
  }

  function Begin(s: System): System { s.(bus := BeginBus(s.bus)) }

  /** The transaction as it is put on the bus for the current word. */
  function OnBus(s: System): Transaction {
    s.bus.ongoing.(
      addr := WithOffset(s.bus.ongoing.addr, s.bus.offset),
      shared := SharedSignal(s.caches, s.bus.ongoing))
  }

  /** The iteration is skipped: the first time another cache is seen modified. */
  predicate Skips(s: System) {
    ModifiedSignal(s.caches, s.bus.ongoing) && s.bus.firstShared
  }

  /** The bus after a word has reached the requester; with the last one the transaction is over. */
  function Advance(b: Bus, off: Offset, done: bool): Bus
    requires b.ongoing.origid.Core?
  {
    if done then b.(offset := off, phase := b.phase[b.ongoing.origid.id := Finally], active := false)
    else b.(offset := off)
  }

  /** After the snooping: memory advances and, when it is ready, a word reaches the requester. */
  function Complete(s: System, cs: Caches, t: Transaction, direct: bool): System
    requires s.bus.ongoing.origid.Core?
  {
    var a := MemoryCycle(s.mem, t, direct);
    if !a.ready then s.(caches := cs, mem := a.mem)
    else
      var r := s.bus.ongoing.origid.id;
      var x := Respond(cs[r], r, a.t, s.bus.offset);
      s.(caches := cs[r := x.cache], mem := a.mem, bus := Advance(s.bus, x.offset, x.done))
  }

  /** The second half of an iteration. */
  function Serve(s: System): System
    requires s.bus.ongoing.origid.Core?
  {
    if Skips(s) then s.(bus := s.bus.(firstShared := false))
    else
      var (cs, t) := SnoopAll(s.caches, OnBus(s), s.bus.offset, 0);
      Complete(s, cs, t, ModifiedSignal(s.caches, s.bus.ongoing))
  }

  /** One iteration of the bus (an active transaction always comes from a core). */
  function Tick(s: System): System {
    var b := Begin(s);
    if b.bus.active && b.bus.ongoing.origid.Core? then Serve(b) else b
  }

  // ----- loads and stores of the cores -----

  /** A transaction joins the queue; the phase of its core becomes Waiting. */
  function Enqueue(b: Bus, t: Transaction): Bus {
    var b' := b.(queue := b.queue + [t]);
    if t.origid.Core? then b'.(phase := b.phase[t.origid.id := Waiting]) else b'
  }

  function Request(c: CoreId, cmd: Cmd, a: Addr): Transaction {
    Transaction(Core(0), Core(c), cmd, a, 0, false)
  }

  /** The write-back of the line in the way: its base address, and the single word captured when it is queued. */
  function Eviction(cs: CacheState, c: CoreId, a: Addr): Transaction {
    Transaction(Core(0), Core(c), Flush, Join(cs.tsram[IndexOf(a)].tag, IndexOf(a), 0),
                cs.dram[Slot(IndexOf(a), OffsetOf(a))], false)
  }

  const BUBBLE := Transaction(Core(0), InvalidCaller, NoCmd, 0, 0, false)

  predicate Dirty(cs: CacheState, a: Addr) {
    cs.tsram[IndexOf(a)].mesi == Modified
  }

  predicate Hit(cs: CacheState, a: Addr) {
    Matches(cs.tsram[IndexOf(a)], TagOf(a))
  }

  /** What a miss queues: the write-back of a dirty victim, then the request for the block. */
  function QueueMiss(b: Bus, cs: CacheState, c: CoreId, cmd: Cmd, a: Addr): Bus {
    Enqueue(if Dirty(cs, a) then Enqueue(b, Eviction(cs, c, a)) else b, Request(c, cmd, a))
  }

  function Load(s: System, c: CoreId, a: Addr): (System, Option<Word>) {
    var cs := s.caches[c];
    if s.bus.phase[c] != Idle then (s, None)
    else if Hit(cs, a) then
      var st := if s.missRead then cs.stats else cs.stats.(readHits := cs.stats.readHits + 1);
      (s.(caches := s.caches[c := cs.(stats := st)], missRead := false), Some(cs.dram[Slot(IndexOf(a), OffsetOf(a))]))
    else
      var st := cs.stats.(readMisses := cs.stats.readMisses + 1);
      (s.(caches := s.caches[c := cs.(stats := st)], missRead := true, bus := QueueMiss(s.bus, cs, c, BusRd, a)), None)
  }

  function Store(s: System, c: CoreId, a: Addr, d: Word): (System, bool) {
    var cs := s.caches[c];
    var i := IndexOf(a);
    if s.bus.phase[c] != Idle then (s, false)
    else if Hit(cs, a) && cs.tsram[i].mesi != Shared then
      var st := if s.missWrite then cs.stats else cs.stats.(writeHits := cs.stats.writeHits + 1);
      var cs' := CacheState(cs.tsram[i := cs.tsram[i].(mesi := Modified)], cs.dram[Slot(i, OffsetOf(a)) := d], st);
      (s.(caches := s.caches[c := cs'], missWrite := false), true)
    else
      var st := cs.stats.(writeMisses := cs.stats.writeMisses + 1);
      var b := if Hit(cs, a) then Enqueue(Enqueue(s.bus, Request(c, BusRdX, a)), BUBBLE)
               else QueueMiss(s.bus, cs, c, BusRdX, a);
      (s.(caches := s.caches[c := cs.(stats := st)], missWrite := true, bus := b), false)
  }

  // ----- runs -----

  /** What can happen next: an iteration of the bus, or an attempt of a core to load or store. */
  datatype Event = BusTick | LoadBy(core: CoreId, addr: Addr) | StoreBy(core: CoreId, addr: Addr, data: Word)

  function Step(s: System, e: Event): System {
    match e
    case BusTick => Tick(s)
    case LoadBy(c, a) => Load(s, c, a).0
    case StoreBy(c, a, d) => Store(s, c, a, d).0
  }

  function Run(s: System, es: seq<Event>): System
    decreases |es|
  {
    if es == [] then s else Run(Step(s, es[0]), es[1..])
  }

  /** Power-on: every line Invalid, nothing on the bus, and any contents of the main memory. */
  function Start(ram: Ram): System {
    System(
      [EmptyCache(), EmptyCache(), EmptyCache(), EmptyCache()],
      Bus([], [Idle, Idle, Idle, Idle], Transaction(Core(0), Core(0), NoCmd, 0, 0, false), false, 0, true),
      Memory(ram, false, 0), false, false)
  }
}
