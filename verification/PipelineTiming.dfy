/** When the instructions of a sequential run leave decode, told from the run alone: the interlock keeps them apart, and
    nothing else does.  Registers and memory do not come into it. */
module PipelineTiming {
  import opened Types
  import opened Isa
  import opened PipelineModel
  import opened PipelineEffects
  import opened PipelineInvariant
  import opened PipelineRefinement
  import opened PipelineRuns

  /** Does the interlock hold instruction i up for instruction x?  A store is checked for its address registers only
      when write-back shows a store. */
  predicate HeldUp(i: Instruction, x: Instruction, store: bool) {
    && x.rd != 0 && x.rd != IMM_REG
    && if IsAlu(i.opcode) || i.opcode == LW || (i.opcode == SW && store) then x.rd == i.rs || x.rd == i.rt
       else x.rd == i.rd || x.rd == i.rs || x.rd == i.rt
  }

  /** The n-th instruction is the next one for decode, d says if it is there already; e, m and w say which of the stages
      behind decode are occupied, by the instructions before it. */
  datatype Slots = Slots(halted: bool, n: nat, d: bool, e: bool, m: bool, w: bool)

  function Unit(b: bool): nat { if b then 1 else 0 }

  /** Is the instruction `back` places before the last one a store? */
  predicate StoreAt(prog: Program, s0: Machine, n: nat, back: nat) {
    n > back && Nth(prog, s0, n - back - 1).opcode == SW
  }

  predicate HeldFrom(prog: Program, s0: Machine, t: Slots, occupied: bool, back: nat) {
    && occupied && t.n > back
    && HeldUp(Nth(prog, s0, t.n), Nth(prog, s0, t.n - back - 1), StoreAt(prog, s0, t.n, Unit(t.e) + Unit(t.m)))
  }

  predicate HeldByE(prog: Program, s0: Machine, t: Slots) { HeldFrom(prog, s0, t, t.e, 0) }

  predicate HeldByM(prog: Program, s0: Machine, t: Slots) { HeldFrom(prog, s0, t, t.m, Unit(t.e)) }

  predicate HeldByW(prog: Program, s0: Machine, t: Slots) { HeldFrom(prog, s0, t, t.w, Unit(t.e) + Unit(t.m)) }

  predicate Held(prog: Program, s0: Machine, t: Slots) {
    HeldByE(prog, s0, t) || HeldByM(prog, s0, t) || HeldByW(prog, s0, t)
  }

  /** One cycle without a miss. */
  function NextSlots(prog: Program, s0: Machine, t: Slots): Slots {
    if t.halted then t
    else if !t.d then Slots(false, t.n, true, false, t.e, t.m)
    else if Held(prog, s0, t) then Slots(false, t.n, true, false, t.e, t.m)
    else if Nth(prog, s0, t.n).opcode == HALT then t.(halted := true)
    else Slots(false, t.n + 1, true, true, t.e, t.m)
  }

  /** After k cycles without a miss. */
  function Timed(prog: Program, s0: Machine, k: nat): Slots {
    if k == 0 then Slots(false, 0, false, false, false, false) else NextSlots(prog, s0, Timed(prog, s0, k - 1))
  }

  /** A miss in this cycle lets an instruction slip: the one in decode is held up by write-back alone, and there is an
      access in the memory stage. */
  predicate Exposed(prog: Program, s0: Machine, t: Slots) {
    && !t.halted && t.d && t.m && t.n > Unit(t.e) && IsMemory(Nth(prog, s0, t.n - Unit(t.e) - 1).opcode)
    && HeldByW(prog, s0, t) && !HeldByE(prog, s0, t) && !HeldByM(prog, s0, t)
  }

  ghost predicate NeverExposed(prog: Program, s0: Machine) {
    forall k: nat :: !Exposed(prog, s0, Timed(prog, s0, k))
  }

  // ----- the pipeline keeps this time -----

  /** The stages are occupied as in t. */
  ghost predicate Times(p: Pipe, t: Slots, prog: Program, s0: Machine, n: nat) {
    if p.halted then t.halted
    else
      && t == Slots(false, n, p.d.pc != EMPTY, p.e.pc != EMPTY, p.m.pc != EMPTY, p.w.pc != EMPTY)
      && var k := Unit(t.e) + Unit(t.m);
         k <= n && if k == n then p.w.instr.opcode != SW else p.w.instr == Nth(prog, s0, n - k - 1)
  }

  lemma HazardHeld(p: Pipe, x: Stage)
    ensures Hazard(p, x) == (x.pc != EMPTY && HeldUp(p.d.instr, x.instr, p.w.instr.opcode == SW))
  {
  }

  lemma InstructionsTimed(p: Pipe, t: Slots, prog: Program, s0: Machine, n: nat)
    requires InOrder(p, prog, s0, n) && HaltLast(p) && Times(p, t, prog, s0, n) && !p.halted
    ensures (p.w.instr.opcode == SW) == StoreAt(prog, s0, n, Unit(t.e) + Unit(t.m))
    ensures t.e ==> n > 0 && p.e.instr == Nth(prog, s0, n - 1)
    ensures t.m ==> n > Unit(t.e) && p.m.instr == Nth(prog, s0, n - Unit(t.e) - 1)
    ensures t.w ==> n > Unit(t.e) + Unit(t.m) && p.w.instr == Nth(prog, s0, n - Unit(t.e) - Unit(t.m) - 1)
  {
  }

  lemma HazardTimed(p: Pipe, t: Slots, prog: Program, s0: Machine, n: nat)
    requires InOrder(p, prog, s0, n) && HaltLast(p) && Times(p, t, prog, s0, n) && !p.halted
    requires p.d.instr == Nth(prog, s0, n)
    ensures Hazard(p, p.e) == HeldByE(prog, s0, t)
    ensures Hazard(p, p.m) == HeldByM(prog, s0, t)
    ensures Hazard(p, p.w) == HeldByW(prog, s0, t)
  {
    InstructionsTimed(p, t, prog, s0, n);
    HazardHeld(p, p.e);
    HazardHeld(p, p.m);
    HazardHeld(p, p.w);
    hide Hazard, HeldUp, InOrder, HaltLast, Nth;
  }

  lemma SlipsTimed(p: Pipe, t: Slots, prog: Program, s0: Machine, n: nat)
    requires InOrder(p, prog, s0, n) && HaltLast(p) && Times(p, t, prog, s0, n)
    requires if p.halted then p.d.pc == EMPTY else p.d.pc != EMPTY ==> p.d.instr == Nth(prog, s0, n)
    ensures Slips(p) <==> Exposed(prog, s0, t)
  {
    if !p.halted && p.d.pc != EMPTY {
      InstructionsTimed(p, t, prog, s0, n);
      HazardTimed(p, t, prog, s0, n);
    }
    hide Hazard, HeldByE, HeldByM, HeldByW, InOrder, HaltLast, Nth;
  }

  /** What the pipeline does with its instructions in a cycle that completes, as far as time is concerned. */
  lemma StagesTimed(p: Pipe, q: Pipe, prog: Program, s0: Machine, n: nat)
    requires ProperRun(prog, s0) && Tracks(p, prog, s0, n) && Advanced(p, q) && Supplied(p, q, prog) && !q.halted
    ensures !p.halted && q.d.pc != EMPTY && (q.e.pc != EMPTY <==> Issued(p)) && (q.m.pc != EMPTY <==> p.e.pc != EMPTY)
    ensures (q.w.pc != EMPTY <==> p.m.pc != EMPTY) && (Issued(p) <==> Leaves(p))
    ensures q.w.instr == if p.m.pc == EMPTY then p.w.instr else p.m.instr
  {
    DecodeOccupied(p, q, prog, s0, n);
    HoldingKept(p, q, prog);
  }

  lemma LeavesTimed(p: Pipe, t: Slots, prog: Program, s0: Machine, n: nat)
    requires Tracks(p, prog, s0, n) && Times(p, t, prog, s0, n) && !p.halted && p.d.pc != EMPTY
    ensures Leaves(p) <==> !Held(prog, s0, t)
    ensures p.d.instr == Nth(prog, s0, n)
  {
    HazardTimed(p, t, prog, s0, n);
    hide Hazard, HeldByE, HeldByM, HeldByW, InOrder, HaltLast, Nth;
  }

  lemma NextTimed(p: Pipe, q: Pipe, t: Slots, prog: Program, s0: Machine, n: nat)
    requires InOrder(p, prog, s0, n) && HaltLast(p) && Times(p, t, prog, s0, n) && !p.halted && !q.halted
    requires q.d.pc != EMPTY && (q.e.pc != EMPTY <==> Leaves(p)) && (q.m.pc != EMPTY <==> p.e.pc != EMPTY)
    requires (q.w.pc != EMPTY <==> p.m.pc != EMPTY)
    requires q.w.instr == if p.m.pc == EMPTY then p.w.instr else p.m.instr
    requires p.d.pc != EMPTY ==> (Leaves(p) <==> !Held(prog, s0, t))
    requires Leaves(p) ==> Nth(prog, s0, n).opcode != HALT
    ensures Times(q, NextSlots(prog, s0, t), prog, s0, if Leaves(p) then n + 1 else n)
  {
    hide Held, InOrder, HaltLast, Nth, DataHazard;
    InstructionsTimed(p, t, prog, s0, n);
  }

  lemma TimesKept(p: Pipe, q: Pipe, t: Slots, prog: Program, s0: Machine, n: nat)
    requires ProperRun(prog, s0) && Tracks(p, prog, s0, n) && Times(p, t, prog, s0, n)
    requires Advanced(p, q) && Supplied(p, q, prog)
    ensures Times(q, NextSlots(prog, s0, t), prog, s0, if Issued(p) then n + 1 else n)
  {
    if !p.halted && p.d.pc != EMPTY {
      LeavesTimed(p, t, prog, s0, n);
    }
    if !q.halted {
      StagesTimed(p, q, prog, s0, n);
      NextTimed(p, q, t, prog, s0, n);
    }
    hide Held, InOrder, HaltLast, Nth, DataHazard, Advanced, Legal, Quiet, Carried;
  }
}
