/** What holds of the queue, the phases and the memory countdown in every run, whatever the cores do. */
module Structure {
  import opened Types
  import opened CacheModel
  import opened SystemModel

  /** The transaction on the bus has been served but its core has not been told yet. */
  predicate Finished(b: Bus) {
    !b.active && b.ongoing.origid.Core? && b.phase[b.ongoing.origid.id] == Finally
  }

  /** All transactions that some core waits for, oldest first: the one on the bus (as it was queued) and the queued
      ones. */
  function Pending(b: Bus): seq<Transaction> {
    (if Recent(b) then [b.ongoing.(originalCaller := Core(0))] else []) + b.queue
  }

  predicate IsBubble(t: Transaction) {
    t.origid == InvalidCaller
  }

  predicate WellFormed(t: Transaction) {
    t.originalCaller == Core(0) && if t.origid.Core? then t.cmd != NoCmd else IsBubble(t) && t.cmd == NoCmd
  }

  /** The second transaction belongs to the first: a refill behind the write-back that makes room for it. */
  predicate Paired(flush: Transaction, fetch: Transaction) {
    fetch.origid == flush.origid && IsFetch(fetch) && IndexOf(fetch.addr) == IndexOf(flush.addr)
  }

  /** How a transaction may stand `distance` places behind another: a write-back is followed by its refill, a
      bubble stands behind an upgrade, and apart from such pairs no core has two transactions pending. */
  predicate Follows(x: Transaction, y: Transaction, distance: nat) {
    && (distance == 1 && x.cmd == Flush ==> Paired(x, y))
    && (distance == 1 && IsBubble(y) ==> x.cmd == BusRdX)
    && (distance == 2 && IsBubble(y) ==> x.cmd != Flush)
    && (x.origid.Core? && x.origid == y.origid ==> distance == 1 && x.cmd == Flush)
  }

  /** The pending transactions are a concatenation of groups, at most one for each core: a fetch, a write-back with
      its refill, or an upgrade with its bubble. */
  ghost predicate Groups(p: seq<Transaction>) {
    && (forall i :: 0 <= i < |p| ==> WellFormed(p[i]))
    && (forall i, j :: 0 <= i < j < |p| ==> Follows(p[i], p[j], j - i))
    && (p != [] ==> !IsBubble(p[0]) && p[|p| - 1].cmd != Flush)
  }

  predicate Queued(q: seq<Transaction>, c: CoreId) {
    exists i :: 0 <= i < |q| && q[i].origid == Core(c)
  }

  /** The phase of a core says where its group is; an idle core has nothing queued and nothing on the bus. */
  ghost predicate PhasesAgree(b: Bus) {
    && (b.active ==> b.ongoing.origid.Core? && b.ongoing.originalCaller == b.ongoing.origid)
    && (forall c: CoreId :: b.phase[c] == Operation <==> b.active && b.ongoing.origid == Core(c))
    && (forall c: CoreId :: b.phase[c] == Finally ==> !b.active && b.ongoing.origid == Core(c))
    && (forall c: CoreId :: b.phase[c] == Waiting ==> Queued(b.queue, c))
    && (forall i :: 0 <= i < |b.queue| && b.queue[i].origid.Core? ==> b.phase[b.queue[i].origid.id] != Idle)
  }

  /** Memory is busy only for the transaction on the bus; once its delay is over it and the bus count words together. */
  predicate Lockstep(s: System) {
    && (s.mem.busy ==> s.bus.active && s.mem.counter <= 19)
    && (s.bus.active ==> s.bus.offset == if s.mem.busy && s.mem.counter >= 16 then s.mem.counter - 16 else 0)
  }

  predicate CleanFetch(cs: Caches, t: Transaction) {
    IsFetch(t) && t.origid.Core? ==> !Dirty(cs[t.origid.id], t.addr)
  }

  /** A fetch without a write-back in front replaces a line that is not modified.  Entry 0 is exempt if it is on the
      bus (its write-back may be over). */
  ghost predicate CleanVictims(cs: Caches, p: seq<Transaction>, onBus: bool) {
    && (forall i, j :: 0 <= i < j < |p| && j == i + 1 && p[i].cmd != Flush ==> CleanFetch(cs, p[j]))
    && (p != [] && !onBus ==> CleanFetch(cs, p[0]))
  }

  predicate Recent(b: Bus) {
    b.active || Finished(b)
  }

  ghost predicate Structured(s: System) {
    && Groups(Pending(s.bus)) && PhasesAgree(s.bus) && Lockstep(s)
    && CleanVictims(s.caches, Pending(s.bus), Recent(s.bus))
  }

  lemma StartStructured(ram: Ram)
    ensures Structured(Start(ram))
  {
  }

  // ----- a bus iteration -----

  /** What is pending after the first half: the finished transaction and a bubble at the front are gone. */
  lemma BeginPending(b: Bus) returns (n: nat)
    requires Groups(Pending(b)) && PhasesAgree(b)
    ensures n <= |Pending(b)| && Pending(BeginBus(b)) == Pending(b)[n..]
    ensures n < |Pending(b)| ==> !IsBubble(Pending(b)[n]) || !Recent(BeginBus(b))
    ensures n < |Pending(b)| && !Recent(BeginBus(b)) ==> n > 0 && IsBubble(Pending(b)[n - 1])
  {
    var p, q := Pending(b), b.queue;
    n := 0;
    if !b.active {
      n := |p| - |q|;
      if q != [] {
        assert q == [q[0]] + q[1..];
        assert q[0] in p && q[0] == p[n];
        if !q[0].origid.Core? {
          n := n + 1;
        } else {
          assert Pending(BeginBus(b)) == [q[0]] + q[1..];
        }
      }
    }
  }

  lemma SuffixGroups(p: seq<Transaction>, n: nat)
    requires Groups(p) && n <= |p| && (n < |p| ==> !IsBubble(p[n]))
    ensures Groups(p[n..])
  {
    var q := p[n..];
    forall i, j | 0 <= i < j < |q|
      ensures Follows(q[i], q[j], j - i)
    {
      assert Follows(p[n + i], p[n + j], j - i);
    }
  }

  lemma SuffixClean(cs: Caches, p: seq<Transaction>, n: nat, onBus: bool, onBus': bool)
    requires CleanVictims(cs, p, onBus) && n <= |p|
    requires n < |p| && !onBus' ==> n > 0 && p[n - 1].cmd != Flush
    ensures CleanVictims(cs, p[n..], onBus')
  {
    var q := p[n..];
    assert forall i :: 0 <= i < |q| ==> q[i] == p[n + i];
  }

  lemma BeginPhases(b: Bus)
    requires Groups(Pending(b)) && PhasesAgree(b)
    ensures PhasesAgree(BeginBus(b))
  {
    var b', p := BeginBus(b), Pending(b);
    if !b.active && b.queue != [] {
      var n := |p| - |b.queue|;
      assert forall i :: 0 <= i < |b'.queue| ==> b'.queue[i] == b.queue[i + 1];
      forall i | 0 <= i < |b'.queue| && b'.queue[i].origid.Core?
        ensures b'.phase[b'.queue[i].origid.id] != Idle
      {
        assert b.queue[i + 1] == p[n + i + 1];
        if Finished(b) {
          assert Follows(p[0], p[n + i + 1], n + i + 1);
        }
      }
      forall c: CoreId | b'.phase[c] == Waiting
        ensures Queued(b'.queue, c)
      {
        var i :| 0 <= i < |b.queue| && b.queue[i].origid == Core(c);
        assert i > 0 && b'.queue[i - 1] == b.queue[i];
      }
    }
  }


  lemma BeginGroups(cs: Caches, b: Bus)
    requires Groups(Pending(b)) && PhasesAgree(b) && CleanVictims(cs, Pending(b), Recent(b))
    ensures Groups(Pending(BeginBus(b))) && CleanVictims(cs, Pending(BeginBus(b)), Recent(BeginBus(b)))
  {
    var p := Pending(b);
    var n := BeginPending(b);
    if 0 < n < |p| {
      assert Follows(p[n - 1], p[n], 1);
      assert WellFormed(p[n - 1]);
    }
    SuffixGroups(p, n);
    SuffixClean(cs, p, n, Recent(b), Recent(BeginBus(b)));
  }

  lemma BeginStructured(s: System)
    requires Structured(s)
    ensures Structured(Begin(s))
  {
    BeginPhases(s.bus);
    BeginGroups(s.caches, s.bus);
  }

  /** Snooping moves no tag and no data, dirties no line, and gives every command but NoCmd a command. */
  lemma {:induction false} SnoopFrame(cs: Caches, t: Transaction, off: Offset, j: nat)
    requires j <= 4 && t.cmd != NoCmd
    ensures var (cs', t') := SnoopAll(cs, t, off, j);
      && t'.cmd != NoCmd && t' == t.(cmd := t'.cmd, data := t'.data, origid := t'.origid)
      && (forall c: CoreId :: cs'[c].dram == cs[c].dram)
      && (forall c: CoreId, i: Index :: cs'[c].tsram[i].tag == cs[c].tsram[i].tag)
      && (forall c: CoreId, i: Index :: cs'[c].tsram[i].mesi == Modified ==> cs[c].tsram[i].mesi == Modified)
    decreases 4 - j
  {
    if j < 4 {
      SnoopFrame(cs[j := SnoopedCache(cs[j], j, t, off)], SnoopedTransaction(cs[j], j, t), off, j + 1);
    }
  }


  lemma AdvancePhases(b: Bus, off: Offset, done: bool)
    requires PhasesAgree(b) && b.active
    ensures PhasesAgree(Advance(b, off, done)) && Pending(Advance(b, off, done)) == Pending(b)
  {
  }

  lemma CompleteLockstep(s: System, cs: Caches, t: Transaction, direct: bool)
    requires Lockstep(s) && s.bus.active && t.cmd != NoCmd && s.bus.ongoing.origid.Core?
    ensures Lockstep(Complete(s, cs, t, direct))
  {
  }

  /** Only the requester's cache can gain a modified line, and it has no other fetch without a write-back pending. */
  lemma ServeClean(cs: Caches, cs': Caches, p: seq<Transaction>, onBus: bool, r: CoreId)
    requires Groups(p) && CleanVictims(cs, p, onBus) && p != [] && p[0].origid == Core(r)
    requires forall c: CoreId, i: Index :: c != r && cs'[c].tsram[i].mesi == Modified ==>
        cs[c].tsram[i].mesi == Modified
    ensures CleanVictims(cs', p, true)
  {
    forall i, j | 0 <= i < j < |p| && j == i + 1 && p[i].cmd != Flush
      ensures CleanFetch(cs', p[j])
    {
      assert Follows(p[0], p[j], j);
    }
  }

  /** Nothing but the cache of the requester, the memory and the state of the transfer changes after the snooping. */
  lemma CompleteFrame(s: System, cs: Caches, t: Transaction, direct: bool)
    requires s.bus.active && s.bus.ongoing.origid.Core?
    ensures var s' := Complete(s, cs, t, direct);
      && (s'.bus == s.bus || s'.bus == Advance(s.bus, s'.bus.offset, !s'.bus.active))
      && forall c: CoreId :: c != s.bus.ongoing.origid.id ==> s'.caches[c] == cs[c]
  {
  }

  lemma CompleteStructured(s: System, cs: Caches, t: Transaction, direct: bool)
    requires Structured(s) && s.bus.active && t.cmd != NoCmd
    requires forall c: CoreId, i: Index :: cs[c].tsram[i].mesi == Modified ==> s.caches[c].tsram[i].mesi == Modified
    ensures Structured(Complete(s, cs, t, direct))
  {
    var s' := Complete(s, cs, t, direct);
    CompleteFrame(s, cs, t, direct);
    CompleteLockstep(s, cs, t, direct);
    AdvancePhases(s.bus, s'.bus.offset, !s'.bus.active);
    ServeClean(s.caches, s'.caches, Pending(s.bus), true, s.bus.ongoing.origid.id);
  }

  lemma ServeStructured(s: System)
    requires Structured(s) && s.bus.active
    ensures Structured(Serve(s))
  {
    if Skips(s) {
      AdvancePhases(s.bus, s.bus.offset, false);
    } else {
      var (cs, t) := SnoopAll(s.caches, OnBus(s), s.bus.offset, 0);
      SnoopFrame(s.caches, OnBus(s), s.bus.offset, 0);
      assert WellFormed(Pending(s.bus)[0]);
      CompleteStructured(s, cs, t, ModifiedSignal(s.caches, s.bus.ongoing));
    }
  }

  // ----- loads and stores -----

  /** What a core adds to the queue at a time. */
  predicate IsGroup(g: seq<Transaction>, c: CoreId) {
    && 1 <= |g| <= 2 && g[0].origid == Core(c) && WellFormed(g[0])
    && (|g| == 1 ==> IsFetch(g[0]))
    && (|g| == 2 ==>
          && WellFormed(g[1])
          && ((g[0].cmd == Flush && Paired(g[0], g[1])) || (g[0].cmd == BusRdX && IsBubble(g[1]))))
  }

  function Append(b: Bus, c: CoreId, g: seq<Transaction>): Bus {
    b.(queue := b.queue + g, phase := b.phase[c := Waiting])
  }

  lemma AppendGroups(p: seq<Transaction>, c: CoreId, g: seq<Transaction>)
    requires Groups(p) && IsGroup(g, c) && forall i :: 0 <= i < |p| ==> p[i].origid != Core(c)
    ensures Groups(p + g)
  {
    var n, p' := |p|, p + g;
    forall i, j | 0 <= i < j < |p'|
      ensures Follows(p'[i], p'[j], j - i)
    {
      if j < n {
        assert Follows(p[i], p[j], j - i);
      }
    }
  }

  lemma AppendPhases(b: Bus, c: CoreId, g: seq<Transaction>)
    requires PhasesAgree(b) && b.phase[c] == Idle && IsGroup(g, c)
    ensures PhasesAgree(Append(b, c, g)) && Pending(Append(b, c, g)) == Pending(b) + g
    ensures Recent(Append(b, c, g)) == Recent(b)
    ensures forall i :: 0 <= i < |Pending(b)| ==> Pending(b)[i].origid != Core(c)
  {
    var n, q' := |b.queue|, Append(b, c, g).queue;
    assert forall i :: 0 <= i < n ==> q'[i] == b.queue[i];
    assert q'[n] == g[0];
    forall d: CoreId | Append(b, c, g).phase[d] == Waiting
      ensures Queued(q', d)
    {
      if d != c {
        var i :| 0 <= i < n && b.queue[i].origid == Core(d);
        assert q'[i].origid == Core(d);
      }
    }
  }

  lemma AppendClean(cs: Caches, p: seq<Transaction>, onBus: bool, c: CoreId, g: seq<Transaction>)
    requires Groups(p) && CleanVictims(cs, p, onBus) && IsGroup(g, c) && CleanFetch(cs, g[0])
    ensures CleanVictims(cs, p + g, onBus)
  {
  }

  lemma AppendStructured(s: System, c: CoreId, g: seq<Transaction>)
    requires Structured(s) && s.bus.phase[c] == Idle && IsGroup(g, c) && CleanFetch(s.caches, g[0])
    ensures Structured(s.(bus := Append(s.bus, c, g)))
  {
    AppendPhases(s.bus, c, g);
    AppendGroups(Pending(s.bus), c, g);
    AppendClean(s.caches, Pending(s.bus), Recent(s.bus), c, g);
  }

  /** The group that a miss queues. */
  function MissGroup(cs: CacheState, c: CoreId, cmd: Cmd, a: Addr): seq<Transaction> {
    if Dirty(cs, a) then [Eviction(cs, c, a), Request(c, cmd, a)] else [Request(c, cmd, a)]
  }

  /** What an attempt to load or store queues, if anything. */
  function AttemptGroup(s: System, e: Event): seq<Transaction>
    requires !e.BusTick?
  {
    var cs := s.caches[e.core];
    if s.bus.phase[e.core] != Idle then []
    else if !Hit(cs, e.addr) then MissGroup(cs, e.core, if e.LoadBy? then BusRd else BusRdX, e.addr)
    else if e.StoreBy? && cs.tsram[IndexOf(e.addr)].mesi == Shared then [Request(e.core, BusRdX, e.addr), BUBBLE]
    else []
  }

  lemma MissAppends(b: Bus, cs: CacheState, c: CoreId, cmd: Cmd, a: Addr)
    requires cmd == BusRd || cmd == BusRdX
    ensures var g := MissGroup(cs, c, cmd, a); QueueMiss(b, cs, c, cmd, a) == Append(b, c, g) && IsGroup(g, c)
  {
    var g := MissGroup(cs, c, cmd, a);
    if Dirty(cs, a) {
      AddressFields(a, cs.tsram[IndexOf(a)].tag, IndexOf(a), 0);
      assert b.queue + g == b.queue + [g[0]] + [g[1]];
      assert b.phase[c := Waiting][c := Waiting] == b.phase[c := Waiting];
    }
  }

  lemma UpgradeAppends(b: Bus, c: CoreId, a: Addr)
    ensures var g := [Request(c, BusRdX, a), BUBBLE];
      Enqueue(Enqueue(b, g[0]), g[1]) == Append(b, c, g) && IsGroup(g, c)
  {
    var g := [Request(c, BusRdX, a), BUBBLE];
    assert b.queue + g == b.queue + [g[0]] + [g[1]];
  }

  /** An attempt either hits, and concerns only the cache of its core, or queues a group for its idle core. */
  lemma AttemptEffect(s: System, e: Event)
    requires !e.BusTick?
    ensures var (g, s') := (AttemptGroup(s, e), Step(s, e));
      && s'.mem == s.mem && s'.bus == (if g == [] then s.bus else Append(s.bus, e.core, g))
      && (forall d: CoreId :: d != e.core || s.bus.phase[d] != Idle ==> s'.caches[d] == s.caches[d])
      && (g != [] ==>
            && s.bus.phase[e.core] == Idle && IsGroup(g, e.core) && CleanFetch(s.caches, g[0])
            && forall d: CoreId :: s'.caches[d].tsram == s.caches[d].tsram && s'.caches[d].dram == s.caches[d].dram)
  {
    MissAppends(s.bus, s.caches[e.core], e.core, if e.LoadBy? then BusRd else BusRdX, e.addr);
    UpgradeAppends(s.bus, e.core, e.addr);
  }

  /** Which group an idle core queues, by the line at the index of the address. */
  lemma AttemptQueues(s: System, e: Event)
    requires !e.BusTick? && s.bus.phase[e.core] == Idle
    ensures var l, g := s.caches[e.core].tsram[e.addr / 4 % 64], AttemptGroup(s, e);
      var found := l.tag == e.addr / 256 && l.mesi != Invalid;
      var t := if |g| == 2 && g[0].cmd == Flush then g[1] else if g != [] then g[0] else BUBBLE;
      && (g == [] <==> found && (e.StoreBy? ==> l.mesi != Shared))
      && (g != [] ==> t.addr == e.addr && t.cmd == if e.LoadBy? then BusRd else BusRdX)
      && (g != [] && found ==> |g| == 2 && g[1].cmd == NoCmd && g[1].origid == InvalidCaller)
      && (!found && l.mesi == Modified ==>
            |g| == 2 && g[0].cmd == Flush && g[0].addr == l.tag * 256 + e.addr / 4 % 64 * 4)
      && (!found && l.mesi != Modified ==> |g| == 1)
    ensures var g := AttemptGroup(s, e); g != [] ==>
      Step(s, e).bus.queue == s.bus.queue + g && Step(s, e).bus.phase == s.bus.phase[e.core := Waiting]
  {
    AttemptEffect(s, e);
  }

  /** The structure depends only on the lines of the cores that are not idle. */
  lemma LinesStructured(s: System, s': System)
    requires Structured(s) && s'.bus == s.bus && s'.mem == s.mem
    requires forall c: CoreId :: s.bus.phase[c] != Idle ==> s'.caches[c].tsram == s.caches[c].tsram
    ensures Structured(s')
  {
    var p := Pending(s.bus);
    assert forall i :: 0 <= i < |p| && p[i].origid.Core? ==> s.bus.phase[p[i].origid.id] != Idle;
  }

  lemma AttemptStructured(s: System, e: Event)
    requires Structured(s) && !e.BusTick?
    ensures Structured(Step(s, e))
  {
    var g := AttemptGroup(s, e);
    AttemptEffect(s, e);
    if g == [] {
      LinesStructured(s, Step(s, e));
    } else {
      AppendStructured(s, e.core, g);
      LinesStructured(s.(bus := Append(s.bus, e.core, g)), Step(s, e));
    }
  }

  lemma StepStructured(s: System, e: Event)
    requires Structured(s)
    ensures Structured(Step(s, e))
  {
    if e.BusTick? {
      BeginStructured(s);
      if Begin(s).bus.active {
        ServeStructured(Begin(s));
      }
    } else {
      AttemptStructured(s, e);
    }
  }

  /** The structure holds after every run from power-on, whatever the cores ask for and whenever. */
  lemma {:induction false} RunStructured(s: System, es: seq<Event>)
    requires Structured(s)
    ensures Structured(Run(s, es))
    decreases |es|
  {
    if es != [] {
      StepStructured(s, es[0]);
      RunStructured(Step(s, es[0]), es[1..]);
    }
  }

  /** The same, from power-on. */
  lemma EveryRunStructured(ram: Ram, es: seq<Event>)
    ensures Structured(Run(Start(ram), es))
  {
    StartStructured(ram);
    RunStructured(Start(ram), es);
  }
}
