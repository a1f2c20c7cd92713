/** Conditions on neighbouring instructions of a sequential run under which no miss lets one of them slip. */
module PipelineSpacing {
  import opened Types
  import opened Isa
  import opened PipelineRefinement
  import opened PipelineTiming

  predicate DependsOn(prog: Program, s0: Machine, j: nat, back: nat) {
    back <= j && HeldUp(Nth(prog, s0, j), Nth(prog, s0, j - back), false)
  }

  /** Does the j-th instruction depend on one of the three before it? */
  predicate Waits(prog: Program, s0: Machine, j: nat) {
    DependsOn(prog, s0, j, 1) || DependsOn(prog, s0, j, 2) || DependsOn(prog, s0, j, 3)
  }

  /** The instruction behind the j-th one does not follow it directly: it waits for it, or for the one before, which the
      j-th one has followed directly. */
  predicate Separated(prog: Program, s0: Machine, j: nat) {
    || HeldUp(Nth(prog, s0, j + 1), Nth(prog, s0, j), true)
    || (j > 0 && !Waits(prog, s0, j) && HeldUp(Nth(prog, s0, j + 1), Nth(prog, s0, j - 1), StoreAt(prog, s0, j, 1)))
  }

  // ----- accesses that cannot miss -----

  function AccessAt(prog: Program, s0: Machine, x: nat): Addr {
    Address(Steps(prog, s0, x).regs, Nth(prog, s0, x)) % 0x10_0000
  }

  /** The block that the first x instructions have used last at this index. */
  function Resident(prog: Program, s0: Machine, x: nat, j: Index): Option<Tag> {
    if x == 0 then None
    else if IsMemory(Nth(prog, s0, x - 1).opcode) && IndexOf(AccessAt(prog, s0, x - 1)) == j then
      Some(TagOf(AccessAt(prog, s0, x - 1)))
    else Resident(prog, s0, x - 1, j)
  }

  /** The x-th instruction uses a block that is still resident. */
  predicate Found(prog: Program, s0: Machine, x: nat) {
    Resident(prog, s0, x, IndexOf(AccessAt(prog, s0, x))) == Some(TagOf(AccessAt(prog, s0, x)))
  }

  /** Which instruction is in the memory stage, or has left it last. */
  function Accessing(t: Slots): nat { if t.n > Unit(t.e) then t.n - Unit(t.e) - 1 else 0 }

  /** An instruction can slip only while such an access is in the memory stage. */
  ghost predicate Sheltered(prog: Program, s0: Machine) {
    forall k: nat :: var t := Timed(prog, s0, k); Exposed(prog, s0, t) ==> Found(prog, s0, Accessing(t))
  }

  // ----- conditions on neighbours -----

  /** If the k-th instruction depends on the j-th one, two or three steps back, and a memory access follows that one
      directly, then the k-th one also depends on an instruction in between. */
  predicate Spaced(prog: Program, s0: Machine, j: nat, k: nat) {
    var i, store := Nth(prog, s0, k), Nth(prog, s0, j).opcode == SW;
    IsMemory(Nth(prog, s0, j + 1).opcode) && HeldUp(i, Nth(prog, s0, j), store) ==>
      || HeldUp(i, Nth(prog, s0, j + 1), store) || (j + 3 == k && HeldUp(i, Nth(prog, s0, j + 2), store))
      || Separated(prog, s0, j)
  }

  ghost predicate SpacedRun(prog: Program, s0: Machine) {
    forall j: nat, k: nat :: j + 2 == k || j + 3 == k ==> Spaced(prog, s0, j, k)
  }

  /** The same, or the access cannot miss. */
  ghost predicate ShelteredRun(prog: Program, s0: Machine) {
    forall j: nat, k: nat :: j + 2 == k || j + 3 == k ==> Spaced(prog, s0, j, k) || Found(prog, s0, j + 1)
  }

  // ----- neighbours in the pipeline -----

  /** Instructions before the n-th one that stand in the stages behind decode. */
  predicate Within(t: Slots) {
    Unit(t.e) + Unit(t.m) + Unit(t.w) <= t.n && (!t.d ==> t.n == 0)
  }

  /** A gap in the stages tells that an instruction has waited, and two neighbours without a gap that it has not. */
  predicate Told(prog: Program, s0: Machine, t: Slots) {
    && Within(t)
    && (t.d && !t.e && t.n > 0 ==> Waits(prog, s0, t.n))
    && (t.e && !t.m && t.n > 1 ==> Waits(prog, s0, t.n - 1))
    && (t.e && t.m ==> !Separated(prog, s0, t.n - 2))
    && (t.m && t.w ==> !Separated(prog, s0, t.n - Unit(t.e) - 2))
  }

  lemma HeldWaits(prog: Program, s0: Machine, t: Slots)
    requires Within(t) && Held(prog, s0, t)
    ensures Waits(prog, s0, t.n)
  {
  }

  /** An instruction that leaves decode right behind the one before it. */
  lemma NotSeparated(prog: Program, s0: Machine, t: Slots)
    requires Told(prog, s0, t) && !Held(prog, s0, t) && t.e
    ensures !Separated(prog, s0, t.n - 1)
  {
    assert StoreAt(prog, s0, t.n, 2) == StoreAt(prog, s0, t.n - 1, 1);
  }

  lemma NextTold(prog: Program, s0: Machine, t: Slots)
    requires Told(prog, s0, t) && (Held(prog, s0, t) ==> Waits(prog, s0, t.n))
    requires !Held(prog, s0, t) && t.e ==> !Separated(prog, s0, t.n - 1)
    ensures Told(prog, s0, NextSlots(prog, s0, t))
  {
    hide Held, Waits, Separated, Nth;
  }

  lemma ToldKept(prog: Program, s0: Machine, t: Slots)
    requires Told(prog, s0, t)
    ensures Told(prog, s0, NextSlots(prog, s0, t))
  {
    if Held(prog, s0, t) {
      HeldWaits(prog, s0, t);
    } else if t.e {
      NotSeparated(prog, s0, t);
    }
    NextTold(prog, s0, t);
  }

  lemma {:induction false} AlwaysTold(prog: Program, s0: Machine, k: nat)
    ensures Told(prog, s0, Timed(prog, s0, k))
  {
    if k > 0 {
      AlwaysTold(prog, s0, k - 1);
      ToldKept(prog, s0, Timed(prog, s0, k - 1));
    }
  }

  lemma ExposedNotSpaced(prog: Program, s0: Machine, t: Slots)
    requires Told(prog, s0, t) && Exposed(prog, s0, t)
    ensures var x := Accessing(t);
      x > 0 && (x + 1 == t.n || x + 2 == t.n) && !Spaced(prog, s0, x - 1, t.n)
  {
    hide Separated, Waits, Nth, HeldUp;
  }

  /** In a run whose instructions are spaced nothing is exposed. */
  lemma SpacedNeverExposed(prog: Program, s0: Machine)
    requires SpacedRun(prog, s0)
    ensures NeverExposed(prog, s0)
  {
    forall k: nat
      ensures !Exposed(prog, s0, Timed(prog, s0, k))
    {
      AlwaysTold(prog, s0, k);
      if Exposed(prog, s0, Timed(prog, s0, k)) {
        ExposedNotSpaced(prog, s0, Timed(prog, s0, k));
      }
    }
  }

  lemma ExposedFound(prog: Program, s0: Machine, t: Slots)
    requires ShelteredRun(prog, s0) && Told(prog, s0, t) && Exposed(prog, s0, t)
    ensures Found(prog, s0, Accessing(t))
  {
    hide Spaced, Found, Told, Exposed, Accessing;
    ExposedNotSpaced(prog, s0, t);
    var j := Accessing(t) - 1;
    assert j + 2 == t.n || j + 3 == t.n;
  }

  lemma ShelteredRunIsSheltered(prog: Program, s0: Machine)
    requires ShelteredRun(prog, s0)
    ensures Sheltered(prog, s0)
  {
    hide ShelteredRun, Told, Exposed, Found, Timed;
    forall k: nat | Exposed(prog, s0, Timed(prog, s0, k))
      ensures Found(prog, s0, Accessing(Timed(prog, s0, k)))
    {
      AlwaysTold(prog, s0, k);
      ExposedFound(prog, s0, Timed(prog, s0, k));
    }
  }
}
