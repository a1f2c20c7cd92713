/** The pipeline of one core, moved in place. */
module PipelineController {
  import opened Types
  import opened Isa
  import opened PipelineModel

  const FETCH := 0
  const DECODE := 1
  const EXECUTE := 2
  const MEM := 3
  const WRITE_BACK := 4

  // ----- the stage loop, as a function -----

  /** What the loop does for one stage. */
  function RunStage(p: Pipe, stage: nat, ready: bool): Pipe {
    if stage == DECODE then (if p.d.pc == EMPTY then p else DecodeStage(p))
    else if stage == EXECUTE then (if p.e.pc == EMPTY then p else ExecuteStage(p))
    else if stage == MEM then (if p.m.pc == EMPTY then p else MemoryStage(p, ready))
    else (if p.w.pc == EMPTY then p else WriteBackStage(p))
  }

  function RunStages(p: Pipe, first: nat, next: nat, ready: bool): Pipe
    requires first <= next
  {
    if next == first then p else RunStage(RunStages(p, first, next - 1, ready), next - 1, ready)
  }

  function FirstStage(p: Pipe): nat { if p.memStall then MEM else if p.dataStall then EXECUTE else DECODE }

  lemma FetchKeeps(p: Pipe, prog: Program)
    ensures var q := if p.halted then p else FetchStage(p, prog); q == p.(f := q.f, pc := q.pc)
  {
  }

  lemma LastTwo(q: Pipe, first: nat, ready: bool)
    requires first <= MEM
    ensures RunStages(q, first, 5, ready) ==
        RunStage(RunStage(RunStages(q, first, MEM, ready), MEM, ready), WRITE_BACK, ready)
  {
    assert RunStages(q, first, WRITE_BACK, ready) == RunStage(RunStages(q, first, MEM, ready), MEM, ready);
  }

  /** Running the stages in a loop is running those in front of execute and then the others. */
  lemma LoopIsBack(p: Pipe, prog: Program, ready: bool)
    ensures var q := if p.halted then p else FetchStage(p, prog);
      RunStages(q, FirstStage(p), 5, ready) == Back(Front(p, prog), ready)
  {
    var q := if p.halted then p else FetchStage(p, prog);
    FetchKeeps(p, prog);
    var f := Front(p, prog);
    LastTwo(q, FirstStage(p), ready);
    if p.memStall {
      assert f == q;
    } else if p.dataStall {
      assert f == q && RunStages(q, EXECUTE, MEM, ready) == RunStage(q, EXECUTE, ready);
    } else {
      assert f == RunStage(q, DECODE, ready);
      assert RunStages(q, DECODE, EXECUTE, ready) == f;
      assert RunStages(q, DECODE, MEM, ready) == RunStage(f, EXECUTE, ready);
    }
  }

  // ----- the pipeline object -----

  class Pipeline {
    const stages: array<Stage>
    const regs: array<Word>
    const instructions: array<Instruction>
    var isHalted: bool
    var dataStall: bool
    var memStall: bool
    var pc: Pc
    var memory: DataMemory
    var stallsInDecode: nat
    var stallsInMem: nat

    ghost predicate Valid() {
      stages.Length == 5 && regs.Length == 16 && instructions.Length == 0x400
    }

    ghost function View(): Pipe
      requires Valid()
      reads this, stages, regs
    {
      Pipe(isHalted, dataStall, memStall, stages[FETCH], stages[DECODE], stages[EXECUTE], stages[MEM],
           stages[WRITE_BACK],
           regs[..], memory, pc, stallsInDecode, stallsInMem)
    }

    ghost function Code(): Program
      requires Valid()
      reads instructions
    {
      instructions[..]
    }

    constructor (registers: Regs, memory: DataMemory, program: Program)
      ensures Valid() && fresh(stages) && fresh(regs) && fresh(instructions)
      ensures View() == Start(registers, memory) && Code() == program
    {
      stages := new Stage[5](i => Clear(if i == FETCH then 0 else EMPTY));
      regs := new Word[16](i requires 0 <= i < 16 => registers[i]);
      instructions := new Instruction[0x400](i requires 0 <= i < 0x400 => program[i]);
      isHalted, dataStall, memStall := false, false, false;
      pc := 0;
      this.memory := memory;
      stallsInDecode, stallsInMem := 0, 0;
    }

    // ----- hazards -----

    /** Does the instruction in decode depend on the one in the given stage? */
    method CheckHazard(stage: nat) returns (hazard: bool)
      requires Valid() && stage < 5
      ensures hazard == Hazard(View(), stages[stage])
    {
      if stages[stage].pc == EMPTY {
        return false;
      }
      var r := stages[stage].instr.rd;
      var i := stages[DECODE].instr;
      if r == IMM_REG || r == 0 {
        hazard := false;
      } else if i.opcode <= SRL || i.opcode == LW || (i.opcode == SW && stages[WRITE_BACK].instr.opcode == SW) {
        hazard := r == i.rs || r == i.rt;
      } else {
        hazard := r == i.rd || r == i.rs || r == i.rt;
      }
    }

    method CheckForDataHazards() returns (hazard: bool)
      requires Valid()
      ensures hazard == DataHazard(View())
    {
      hazard := CheckHazard(EXECUTE);
      if !hazard {
        hazard := CheckHazard(MEM);
      }
      if !hazard {
        hazard := CheckHazard(WRITE_BACK);
      }
    }

    // ----- the stages -----

    method Fetch()
      requires Valid()
      modifies this, stages
      ensures View() == FetchStage(old(View()), Code())
    {
      if memStall {
        return;
      }
      // behind the last instruction the source reads whatever follows the array
      var i := if pc < 0x400 then instructions[pc] else Instruction(ADD, 0, 0, 0, 0);
      stages[FETCH] := stages[FETCH].(pc := pc, instr := i);
      if !dataStall {
        pc := (pc + 1) % 0x1_0000;
      }
    }

    /** Put the immediate into register 1 and the destination register into the result, and read the operands. */
    method EnterParams(stage: nat) returns (rs: Word, rt: Word)
      requires Valid() && stage < 5
      modifies stages, regs
      ensures regs[..] == Entered(old(regs[..]), old(stages[stage].instr))
      ensures stages[..] == old(stages[..])[stage := old(stages[stage]).(result := regs[old(stages[stage].instr.rd)])]
      ensures rs == regs[stages[stage].instr.rs] && rt == regs[stages[stage].instr.rt]
    {
      var i := stages[stage].instr;
      regs[IMM_REG] := i.imm;
      stages[stage] := stages[stage].(result := regs[i.rd]);
      rs, rt := regs[i.rs], regs[i.rt];
    }

    /** Call the entry of the operation table: it writes through the pointers to the result and to the program
        counter. */
    method CallOperation(stage: nat, rs: Word, rt: Word)
      requires Valid() && stage < 5
      modifies this`pc, stages
      ensures var (r, next) := Operate(old(stages[stage].operation), old(stages[stage].result), rs, rt, old(pc));
        stages[..] == old(stages[..])[stage := old(stages[stage]).(result := r)] && pc == next
    {
      var o := stages[stage].operation;
      if IsAlu(o) {
        stages[stage] := stages[stage].(result := OPERATIONS[o](rs, rt));
      } else if IsBranch(o) {
        if Taken(o, rs, rt) {
          pc := Target(stages[stage].result);
        }
      }
    }

    method Decode()
      requires Valid()
      modifies this, stages, regs
      ensures View() == DecodeStage(old(View()))
    {
      var opcode := stages[DECODE].instr.opcode;
      if opcode == HALT {
        isHalted := true;
        return;
      }
      stages[DECODE] := stages[DECODE].(operation := opcode);
      if IsBranch(opcode) {
        var rs, rt := EnterParams(DECODE);
        CallOperation(DECODE, rs, rt);
      }
    }

    method Execute()
      requires Valid()
      modifies this, stages, regs
      ensures View() == ExecuteStage(old(View()))
    {
      var opcode := stages[EXECUTE].instr.opcode;
      if !IsBranch(opcode) && !IsMemory(opcode) && opcode != HALT {
        var rs, rt := EnterParams(EXECUTE);
        CallOperation(EXECUTE, rs, rt);
      }
    }

    /** `ready` is what the cache returns. */
    method Access(ready: bool)
      requires Valid()
      modifies this, stages, regs
      ensures View() == MemoryStage(old(View()), ready)
    {
      var opcode := stages[MEM].instr.opcode;
      if IsMemory(opcode) {
        var rs, rt := EnterParams(MEM);
        var a := Sum(rs, rt);
        if ready {
          if opcode == LW {
            stages[MEM] := stages[MEM].(result := Lookup(memory, a));
          } else {
            memory := memory[a := stages[MEM].result];
          }
        }
        memStall := !ready;
      }
    }

    method WriteBack()
      requires Valid()
      modifies regs
      ensures View() == WriteBackStage(old(View()))
    {
      var i := stages[WRITE_BACK].instr;
      var r := if i.opcode == JAL then PC_REG else i.rd;
      regs[r] := stages[WRITE_BACK].result;
    }

    method RunOne(stage: nat, ready: bool)
      requires Valid() && 1 <= stage < 5
      modifies this, stages, regs
      ensures View() == RunStage(old(View()), stage, ready)
    {
      if stages[stage].pc != EMPTY {
        if stage == DECODE {
          Decode();
        } else if stage == EXECUTE {
          Execute();
        } else if stage == MEM {
          Access(ready);
        } else {
          WriteBack();
        }
      }
    }

    method ExecuteStages(ready: bool)
      requires Valid()
      modifies this, stages, regs
      ensures View() == Back(Front(old(View()), Code()), ready)
    {
      ghost var p := View();
      var first := if memStall then MEM else if dataStall then EXECUTE else DECODE;
      if !isHalted {
        Fetch();
      }
      ghost var q := View();
      var stage := first;
      while stage < 5
        invariant first <= stage <= 5 && View() == RunStages(q, first, stage, ready)
      {
        RunOne(stage, ready);
        stage := stage + 1;
      }
      LoopIsBack(p, Code(), ready);
    }

    method UpdateStats()
      requires Valid()
      modifies this`stallsInDecode, this`stallsInMem
      ensures View() == Count(old(View()))
    {
      stallsInDecode := stallsInDecode + if dataStall && !memStall then 1 else 0;
      stallsInMem := stallsInMem + if memStall then 1 else 0;
    }

    // ----- between cycles -----

    /** Hand the instructions on, from back to front. */
    method PipeBubbles()
      requires Valid()
      modifies stages
      ensures View() == Bubbles(old(View()))
    {
      ghost var was := stages[..];
      var stage := WRITE_BACK;
      while stage > FETCH
        invariant FETCH <= stage <= WRITE_BACK && (memStall ==> stage == WRITE_BACK)
        invariant dataStall && !memStall ==> stage >= EXECUTE
        invariant forall k :: 0 <= k <= stage ==> stages[k] == was[k]
        invariant forall k :: stage < k < 5 ==> stages[k] == Move(was[k - 1], was[k])
      {
        if memStall {
          stages[WRITE_BACK] := stages[WRITE_BACK].(pc := EMPTY);
          break;
        } else if dataStall && stage == EXECUTE {
          stages[EXECUTE] := stages[EXECUTE].(pc := EMPTY);
          break;
        } else if stages[stage - 1].pc == EMPTY {
          stages[stage] := stages[stage].(pc := EMPTY);
        } else {
          stages[stage] := stages[stage - 1];
        }
        stage := stage - 1;
      }
      if isHalted {
        stages[FETCH] := stages[FETCH].(pc := EMPTY);
        stages[DECODE] := stages[DECODE].(pc := EMPTY);
      }
    }

    method IsFlushed() returns (flushed: bool)
      requires Valid()
      ensures flushed == Flushed(View())
    {
      if !isHalted {
        return false;
      }
      var stage := FETCH;
      while stage < 5
        invariant 0 <= stage <= 5
        invariant forall k :: 0 <= k < stage ==> stages[k].pc == EMPTY
      {
        if stages[stage].pc != EMPTY {
          return false;
        }
        stage := stage + 1;
      }
      return true;
    }

    method RunIteration(ready: bool)
      requires Valid()
      modifies this, stages, regs
      ensures View() == Count(Back(Front(old(View()).(dataStall := DataHazard(old(View()))), Code()), ready))
    {
      dataStall := CheckForDataHazards();
      ExecuteStages(ready);
      UpdateStats();
    }
  }
}
