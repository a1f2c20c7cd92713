/** Programs with branches to fixed addresses and NOPs that leave register 0 alone: where their runs can go. */
module ProgramFlow {
  import opened Types
  import opened Isa
  import opened PipelineEffects
  import opened PipelineRefinement

  const NOP: Instruction := Instruction(ADD, 0, 0, 0, 0)

  /** Where the HALT stands, and for each delay slot the target of the branch before it. */
  datatype Flow = Flow(last: nat, targets: map<nat, nat>)

  /** What matters of the instruction at address k. */
  predicate Listed(i: Instruction, k: nat, f: Flow) {
    && InFragment(i) && (i.opcode == HALT <==> k == f.last) && (i.rd == 0 ==> i == NOP || i.opcode == HALT)
    && (IsBranch(i.opcode) <==> k + 1 in f.targets)
    && (k + 1 in f.targets ==> i.rd == IMM_REG && i.imm == f.targets[k + 1])
  }

  predicate Follows(prog: Program, f: Flow) {
    && f.last < 0x200 && (forall k: nat :: k <= f.last ==> Listed(prog[k], k, f))
    && (forall k :: k in f.targets ==> 0 < k < f.last && f.targets[k] <= f.last && k + 1 !in f.targets)
  }

  /** Straight on, or from a delay slot to the target of its branch. */
  predicate Placed(s: Machine, f: Flow) {
    && s.regs[0] == 0 && s.pc <= f.last
    && (s.npc == s.pc + 1 || (s.pc in f.targets && s.npc == f.targets[s.pc]))
  }

  /** The program begins with the instructions that these words stand for. */
  predicate LoadedFrom(prog: Program, image: seq<Word>)
    requires |image| <= 0x400
  {
    forall k: nat :: k < |image| ==> prog[k] == Unpack(image[k])
  }

  /** The instruction memory with these words in front and zeros behind them. */
  function WithImage(image: seq<Word>): (prog: Program)
    requires |image| <= 0x400
    ensures LoadedFrom(prog, image)
  {
    seq(0x400, k requires 0 <= k < 0x400 => if k < |image| then Unpack(image[k]) else NOP)
  }

  lemma NopKeeps(regs: Regs, mem: DataMemory)
    requires regs[0] == 0
    ensures ExecRegs(regs, mem, NOP) == regs
  {
    assert OPERATIONS[0] == Sum;
    assert Alu(ADD, 0, 0) == OPERATIONS[0](0, 0) == Sum(0, 0);
  }

  lemma ZeroKept(regs: Regs, mem: DataMemory, i: Instruction, k: nat, f: Flow)
    requires regs[0] == 0 && Listed(i, k, f) && i.opcode != HALT
    ensures ExecRegs(regs, mem, i)[0] == 0
  {
    NopKeeps(regs, mem);
  }

  lemma StepPlaced(prog: Program, f: Flow, s: Machine)
    requires Follows(prog, f) && Placed(s, f)
    ensures Placed(Step(prog, s), f) && Step(prog, s).pc == if s.pc == f.last then f.last else s.npc
  {
    assert Listed(prog[s.pc], s.pc, f);
    if s.pc != f.last {
      ZeroKept(s.regs, s.mem, prog[s.pc], s.pc, f);
    }
  }

  lemma {:induction false} StaysPlaced(prog: Program, f: Flow, s0: Machine, n: nat)
    requires Follows(prog, f) && Placed(s0, f)
    ensures Placed(Steps(prog, s0, n), f)
  {
    if n > 0 {
      StaysPlaced(prog, f, s0, n - 1);
      StepPlaced(prog, f, Steps(prog, s0, n - 1));
    }
  }

  function At(prog: Program, s0: Machine, j: nat): nat { Steps(prog, s0, j).pc }

  /** From j to j + 1 the run goes to the next address, or from a delay slot to a target; it stays at its HALT. */
  predicate Moves(prog: Program, f: Flow, s0: Machine, j: nat) {
    var a, b := At(prog, s0, j), At(prog, s0, j + 1);
    && a <= f.last && b <= f.last
    && if a == f.last then b == f.last else b == a + 1 || (a in f.targets && b == f.targets[a])
  }

  lemma AlwaysMoves(prog: Program, f: Flow, s0: Machine, j: nat)
    requires Follows(prog, f) && Placed(s0, f)
    ensures Moves(prog, f, s0, j) && Listed(Nth(prog, s0, j), At(prog, s0, j), f)
  {
    StaysPlaced(prog, f, s0, j);
    StepPlaced(prog, f, Steps(prog, s0, j));
    assert Steps(prog, s0, j + 1) == Step(prog, Steps(prog, s0, j));
    assert Listed(prog[At(prog, s0, j)], At(prog, s0, j), f);
  }

  /** Three steps in a row. */
  lemma Window(prog: Program, f: Flow, s0: Machine, j: nat)
    requires Follows(prog, f) && Placed(s0, f)
    ensures Moves(prog, f, s0, j) && Moves(prog, f, s0, j + 1) && Moves(prog, f, s0, j + 2)
  {
    AlwaysMoves(prog, f, s0, j);
    AlwaysMoves(prog, f, s0, j + 1);
    AlwaysMoves(prog, f, s0, j + 2);
  }

  /** An address that no branch leads to is reached from the one before it. */
  lemma Before(prog: Program, f: Flow, s0: Machine, j: nat)
    requires Follows(prog, f) && Placed(s0, f) && s0.pc == 0
    requires var p := At(prog, s0, j); 0 < p < f.last && p !in f.targets.Values
    ensures j > 0 && At(prog, s0, j - 1) == At(prog, s0, j) - 1
  {
    AlwaysMoves(prog, f, s0, j - 1);
  }

  /** Such a program keeps to the fragment if no store behind the producer of its word has another store two or three
      places before it. */
  lemma FlowIsProper(prog: Program, f: Flow, s0: Machine)
    requires Follows(prog, f) && Placed(s0, f)
    requires forall n: nat :: Nth(prog, s0, n).opcode == SW && NearStore(prog, s0, n) ==>
      !Writes(Nth(prog, s0, n - 1)) || Nth(prog, s0, n).rd != Nth(prog, s0, n - 1).rd
    ensures ProperRun(prog, s0)
  {
    forall n: nat
      ensures Proper(prog, s0, n)
    {
      AlwaysMoves(prog, f, s0, n);
      StaysPlaced(prog, f, s0, n);
      NopKeeps(Steps(prog, s0, n).regs, Steps(prog, s0, n).mem);
    }
  }
}
