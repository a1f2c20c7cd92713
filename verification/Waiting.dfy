/** A core that has queued something is idle again within 169 bus iterations, whatever the other cores do. */
module Waiting {
  import opened Types
  import opened CacheModel
  import opened SystemModel
  import opened Structure
  import opened Latency

  /** The most iterations that a queued transaction can take. */
  function Cost(t: Transaction): nat { if IsBubble(t) then 1 else 21 }

  function Work(q: seq<Transaction>): nat {
    if q == [] then 0 else Cost(q[0]) + Work(q[1..])
  }

  /** The work in the queue up to and including the last transaction of core c. */
  function WorkFor(q: seq<Transaction>, c: CoreId): nat {
    if q == [] then 0
    else
      var rest := WorkFor(q[1..], c);
      if rest > 0 || q[0].origid == Core(c) then Cost(q[0]) + rest else 0
  }

  /** The most iterations that the transaction on the bus still takes. */
  function Remaining(s: System): nat {
    if !s.bus.active then 0
    else
      var left := if !s.mem.busy then 20 else if s.mem.counter <= 20 then 20 - s.mem.counter else 0;
      left + (if s.bus.firstShared then 1 else 0)
  }

  /** The most iterations after which core c is idle. */
  function Rank(s: System, c: CoreId): nat {
    if s.bus.phase[c] == Idle then 0 else Remaining(s) + WorkFor(s.bus.queue, c) + 1
  }

  lemma {:induction false} WorkForQueued(q: seq<Transaction>, c: CoreId)
    ensures WorkFor(q, c) > 0 <==> Queued(q, c)
    ensures WorkFor(q, c) <= Work(q)
  {
    if q != [] {
      WorkForQueued(q[1..], c);
      if Queued(q[1..], c) {
        var i :| 0 <= i < |q[1..]| && q[1..][i].origid == Core(c);
        assert q[i + 1].origid == Core(c);
      }
      if Queued(q, c) {
        var i :| 0 <= i < |q| && q[i].origid == Core(c);
        if i > 0 {
          assert q[1..][i - 1].origid == Core(c);
        }
      }
    }
  }

  lemma {:induction false} WorkForAppend(q: seq<Transaction>, c: CoreId, g: seq<Transaction>)
    requires forall i :: 0 <= i < |g| ==> g[i].origid != Core(c)
    ensures WorkFor(q + g, c) == WorkFor(q, c)
  {
    if q == [] {
      WorkForQueued(g, c);
      assert q + g == g;
    } else {
      assert (q + g)[1..] == q[1..] + g;
      WorkForAppend(q[1..], c, g);
    }
  }

  /** Serving brings the end of the transaction nearer. */
  lemma ServeRemaining(s: System)
    requires Structured(s) && s.bus.active
    ensures Remaining(Serve(s)) < Remaining(s)
    ensures Serve(s).bus.queue == s.bus.queue
  {
    var (cs, t) := SnoopAll(s.caches, OnBus(s), s.bus.offset, 0);
    assert WellFormed(Pending(s.bus)[0]);
    SnoopFrame(s.caches, OnBus(s), s.bus.offset, 0);
    DoneWithLastWord(s, cs, t, ModifiedSignal(s.caches, s.bus.ongoing));
    CompleteFrame(s, cs, t, ModifiedSignal(s.caches, s.bus.ongoing));
  }

  /** Taking a transaction from the queue moves its cost to the bus. */
  lemma BeginRank(s: System, c: CoreId)
    requires Structured(s) && s.bus.phase[c] != Idle
    ensures var b := Begin(s);
      b.bus.phase[c] == Idle || (Remaining(b) + WorkFor(b.bus.queue, c) + (if b.bus.active then 0 else 1)
                                 <= Remaining(s) + WorkFor(s.bus.queue, c))
  {
    WorkForQueued(s.bus.queue, c);
    if s.bus.active {
      assert Begin(s) == s;
    } else if s.bus.queue != [] {
      WorkForQueued(s.bus.queue[1..], c);
      WorkForQueued(Begin(s).bus.queue, c);
      BeginPhases(s.bus);
    }
  }

  lemma ServeLeavesIdle(s: System, c: CoreId)
    requires Structured(s) && s.bus.active && s.bus.phase[c] == Idle
    ensures Serve(s).bus.phase[c] == Idle
  {
    var (cs, t) := SnoopAll(s.caches, OnBus(s), s.bus.offset, 0);
    CompleteFrame(s, cs, t, ModifiedSignal(s.caches, s.bus.ongoing));
  }

  lemma RankFalls(s: System, b: System, s': System, c: CoreId)
    requires s.bus.phase[c] != Idle && s'.bus.queue == b.bus.queue
    requires b.bus.phase[c] == Idle ==> s'.bus.phase[c] == Idle
    requires b.bus.phase[c] == Idle || (Remaining(b) + WorkFor(b.bus.queue, c) + (if b.bus.active then 0 else 1)
                                        <= Remaining(s) + WorkFor(s.bus.queue, c))
    requires if b.bus.active then Remaining(s') < Remaining(b) else Remaining(s') == Remaining(b)
    ensures Rank(s', c) < Rank(s, c)
  {
  }

  /** Each bus iteration brings every waiting core nearer to being idle. */
  lemma TickRank(s: System, c: CoreId)
    requires Structured(s) && s.bus.phase[c] != Idle
    ensures Rank(Tick(s), c) < Rank(s, c)
  {
    var b := Begin(s);
    BeginStructured(s);
    BeginRank(s, c);
    if b.bus.active {
      ServeRemaining(b);
      if b.bus.phase[c] == Idle {
        ServeLeavesIdle(b, c);
      }
      RankFalls(s, b, Serve(b), c);
    } else {
      RankFalls(s, b, b, c);
    }
  }

  /** A core that waits queues nothing more. */
  lemma OthersQueue(s: System, e: Event, c: CoreId)
    requires !e.BusTick? && s.bus.phase[c] != Idle
    ensures var g := AttemptGroup(s, e); forall i :: 0 <= i < |g| ==> g[i].origid != Core(c)
  {
  }

  /** A step of the run: an iteration brings a waiting core nearer to being idle; what other cores queue comes later. */
  lemma StepRank(s: System, e: Event, c: CoreId)
    requires Structured(s) && s.bus.phase[c] != Idle
    ensures if e.BusTick? then Rank(Step(s, e), c) < Rank(s, c) else Rank(Step(s, e), c) == Rank(s, c)
  {
    if e.BusTick? {
      TickRank(s, c);
    } else {
      AttemptEffect(s, e);
      OthersQueue(s, e, c);
      WorkForAppend(s.bus.queue, c, AttemptGroup(s, e));
    }
  }

  lemma RunFirst(s: System, es: seq<Event>, k: nat)
    requires es != [] && k < |es|
    ensures Run(s, es[..k + 1]) == Run(Step(s, es[0]), es[1..][..k])
  {
    assert es[..k + 1][1..] == es[1..][..k];
  }

  /** A core is idle at some moment of every run with as many bus iterations as its rank. */
  lemma {:induction false} IdleWithinRank(s: System, es: seq<Event>, c: CoreId)
    requires Structured(s) && Rank(s, c) <= Ticks(es)
    ensures exists k :: 0 <= k <= |es| && Run(s, es[..k]).bus.phase[c] == Idle
    decreases |es|
  {
    if s.bus.phase[c] == Idle {
      assert Run(s, es[..0]) == s;
    } else {
      StepStructured(s, es[0]);
      StepRank(s, es[0], c);
      IdleWithinRank(Step(s, es[0]), es[1..], c);
      var k :| 0 <= k <= |es[1..]| && Run(Step(s, es[0]), es[1..][..k]).bus.phase[c] == Idle;
      RunFirst(s, es, k);
    }
  }

  // ----- at most eight transactions are pending -----

  /** The place of a pending transaction: the first or the second of its core. */
  function Place(p: seq<Transaction>, k: nat): nat
    requires k < |p|
  {
    if k > 0 && p[k - 1].origid.Core? && (IsBubble(p[k]) || p[k].origid == p[k - 1].origid)
        then 2 * p[k - 1].origid.id + 1
    else if p[k].origid.Core? then 2 * p[k].origid.id
    else 8
  }

  lemma PlacesDiffer(p: seq<Transaction>, k: nat, l: nat)
    requires Groups(p) && k < l < |p|
    ensures Place(p, k) < 8 && Place(p, l) < 8 && Place(p, k) != Place(p, l)
  {
    assert Follows(p[k], p[l], l - k);
    assert Follows(p[l - 1], p[l], 1);
    assert WellFormed(p[k]) && WellFormed(p[l]) && WellFormed(p[l - 1]);
    if k > 0 {
      assert Follows(p[k - 1], p[k], 1) && Follows(p[k - 1], p[l], l - k + 1) && Follows(p[k - 1], p[l - 1], l - k);
      assert WellFormed(p[k - 1]);
    }
    if k < l - 1 {
      assert Follows(p[k], p[l - 1], l - 1 - k);
    }
  }

  lemma {:induction false} Pigeonhole(f: seq<nat>, n: nat)
    requires forall k :: 0 <= k < |f| ==> f[k] < n
    requires forall k, l :: 0 <= k < l < |f| ==> f[k] != f[l]
    ensures |f| <= n
  {
    if f != [] {
      assert f[0] < n;
      if j :| 0 <= j < |f| && f[j] == n - 1 {
        Pigeonhole(f[..j] + f[j + 1..], n - 1);
      } else {
        Pigeonhole(f, n - 1);
      }
    }
  }

  lemma AtMostEight(p: seq<Transaction>)
    requires Groups(p)
    ensures |p| <= 8
  {
    var f := seq(|p|, k requires 0 <= k < |p| => Place(p, k));
    forall k, l | 0 <= k < l < |f|
      ensures f[k] < 8 && f[l] < 8 && f[k] != f[l]
    {
      PlacesDiffer(p, k, l);
    }
    if |p| > 1 {
      assert f[0] < 8;
      assert forall k :: 0 < k < |f| ==> f[0] != f[k] && f[k] < 8;
      Pigeonhole(f, 8);
    }
  }

  lemma {:induction false} WorkBound(q: seq<Transaction>)
    ensures Work(q) <= 21 * |q|
  {
    if q != [] {
      WorkBound(q[1..]);
    }
  }

  /** No core is ever more than 169 iterations away from being idle. */
  lemma RankBound(s: System, c: CoreId)
    requires Structured(s)
    ensures Rank(s, c) <= 169
  {
    AtMostEight(Pending(s.bus));
    WorkForQueued(s.bus.queue, c);
    WorkBound(s.bus.queue);
  }

  /** Bounded waiting: whatever a core has queued, it is idle again at some moment of the next 169 bus iterations, for
      all the other cores may do and at any point of any run. */
  lemma BoundedWaiting(ram: Ram, past: seq<Event>, es: seq<Event>, c: CoreId)
    requires Ticks(es) >= 169
    ensures exists k :: 0 <= k <= |es| && Run(Run(Start(ram), past), es[..k]).bus.phase[c] == Idle
  {
    StartStructured(ram);
    RunStructured(Start(ram), past);
    RankBound(Run(Start(ram), past), c);
    IdleWithinRank(Run(Start(ram), past), es, c);
  }
}
