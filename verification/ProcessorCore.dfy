/** A core: the pipeline, the halt latch and the counters. */
module ProcessorCore {
  import opened Types
  import opened Isa
  import opened PipelineModel
  import opened PipelineController
  import opened PipelineMemory
  import opened PipelineRefinement
  import opened PipelineRuns

  class Core {
    const pipeline: Pipeline
    var isHalted: bool
    var cycles: int
    var instructions: nat
    ghost const Repr: set<object>

    ghost predicate Valid() {
      pipeline.Valid() && Footprint() <= Repr && pipeline.instructions in Repr
    }

    ghost function Footprint(): set<object> {
      {this, pipeline, pipeline.stages, pipeline.regs}
    }

    ghost function View(): CoreState
      requires Valid()
      reads Footprint()
    {
      CoreState(pipeline.View(), isHalted, cycles, instructions)
    }

    ghost function Code(): Program
      requires Valid()
      reads pipeline, pipeline.instructions
    {
      pipeline.Code()
    }

    constructor (registers: Regs, memory: DataMemory, program: Program)
      ensures Valid() && View() == Boot(registers, memory) && Code() == program
      ensures fresh(Repr)
    {
      var p := new Pipeline(registers, memory, program);
      pipeline := p;
      Repr := {this, p, p.stages, p.regs, p.instructions};
      isHalted, cycles, instructions := false, -1, 0;
    }

    method UpdateTrackingInfo()
      requires Valid()
      modifies this`cycles, this`instructions
      ensures cycles == old(cycles) + 1
      ensures instructions == old(instructions) +
        if pipeline.isHalted || pipeline.memStall || pipeline.dataStall then 0 else 1
    {
      cycles := cycles + 1;
      if !pipeline.isHalted && !pipeline.memStall && !pipeline.dataStall {
        instructions := instructions + 1;
      }
    }

    /** `ready` is what the cache returns, if the pipeline asks it. */
    method RunSingleCycle(ready: bool)
      requires Valid()
      modifies Footprint()
      ensures Valid() && View() == Cycle(old(View()), Code(), ready) && Code() == old(Code())
    {
      if isHalted {
        return;
      }
      var flushed := pipeline.IsFlushed();
      if flushed {
        isHalted := true;
        return;
      }
      UpdateTrackingInfo();
      pipeline.RunIteration(ready);
      pipeline.PipeBubbles();
    }

    /** The words that the cache may deliver in the next cycle. */
    method Receive(words: DataMemory)
      requires Valid()
      modifies pipeline`memory
      ensures Valid() && View() == SetMem(old(View()), words) && Code() == old(Code())
    {
      pipeline.memory := words;
    }

    /** The main loop, as far as it concerns this core. */
    method Run(answers: seq<bool>)
      requires Valid()
      modifies Footprint()
      ensures Valid() && View() == RunCore(old(View()), Code(), answers) && Code() == old(Code())
    {
      var i := 0;
      ghost var start := View();
      while i < |answers|
        invariant i <= |answers| && Valid() && Code() == old(Code())
        invariant RunCore(View(), Code(), answers[i..]) == RunCore(start, Code(), answers)
      {
        RunSingleCycle(answers[i]);
        assert answers[i..][1..] == answers[i + 1..];
        i := i + 1;
      }
    }
  }

  /** A program of the fragment, run from reset, leaves in the object what the sequential machine computes. */
  method RunProgram(registers: Regs, memory: DataMemory, program: Program, answers: seq<bool>, ghost total: nat)
    returns (core: Core)
    requires ProperRun(program, Reset(registers, memory)) && HaltsAfter(program, Reset(registers, memory), total)
    requires NoSlips(Boot(registers, memory), program, answers) && Answered(answers) >= 4 * total + 6
    ensures core.Valid() && core.isHalted
    ensures var s := Steps(program, Reset(registers, memory), total);
      (forall r: Reg :: r >= 2 ==> core.pipeline.regs[r] == s.regs[r]) && core.pipeline.memory == s.mem
    ensures core.instructions - 1 == total + 1
  {
    core := new Core(registers, memory, program);
    core.Run(answers);
    PipelineRefines(program, registers, memory, answers, total);
  }
}
