# A verified model of the multi-core MESI simulator

This project models the simulator at two levels and proves that they fit together.

**The memory system.** Four direct-mapped write-back caches (64 lines of four words), a bus that serves one queued
transaction at a time and moves one word per iteration, snooping in the order of the cores, and a main memory of 2^20 words
that answers after a countdown. `CacheModel.dfy` and `SystemModel.dfy` describe it as a state machine on values (`Tick`,
`Load`, `Store`). The classes in `BusQueue.dfy`, `BusPort.dfy`, `MainMemory.dfy`, `CacheController.dfy`, `CacheTable.dfy`,
`BusController.dfy` and `MultiCoreSim.dfy` work in place, as the source does, and each method is proved to move exactly as
that state machine.

**The cores.** `Isa.dfy` holds the instruction set and a sequential machine with one branch delay slot; `PipelineModel.dfy`
the five stages, interlock, bubbles, halting and counters; `PipelineController.dfy` and `ProcessorCore.dfy` the objects.

**The whole.** `Simulator.dfy` puts four cores on the memory system: every word that a pipeline loads comes from its cache.
`SimulatorObject.dfy` does the same with the objects: four core objects, the memory object, and the main loop over them.

## Results

* *Coherence.* `Structure.dfy` proves what holds in every run without conditions: the shape of the queue, the phases, and the
  lockstep of memory and bus. `Snooping.dfy`, `Exclusion.dfy` and `FlatMemory.dfy` prove the single-writer property and that
  the system refines one flat memory, under three guards: a write-back on the bus still finds its victim modified, a refill
  over a modified line does not meet a lower-numbered owner, and no store hits a word that the bus has already passed on.
* *Programs that need no guard.* The guards never fire if no block stored by one core is used by another
  (`PrivateRuns.dfy`); without dirty evictions two of the three are not needed under any sharing (`CleanRuns.dfy`).
* *The guards are needed.* `MemoryLimits.dfy`, `RefillLimits.dfy` and `EvictionLimits.dfy` construct, for each guard, a run
  from power-on in which a load returns a wrong word. What happens when a guard fails is stated exactly, for every run that
  has been guarded until then: for a late store in `FlatMemory.StoreHitExact`, for a whole refill over a modified line in
  `RefillExact.dfy`, and for a whole write-back that no longer finds its victim in `EvictionExact.dfy`, with its refill in
  `EvictionMended.dfy`.
* *Time.* Exact latencies (`Latency.dfy`), bounded waiting (`Waiting.dfy`), and progress of every access in block-private
  runs (`Progress.dfy`).
* *Instructions.* `IsaLaws.dfy` tells by bits, by counting and by order what the fields of an instruction word, the entries of
  the operation table and the branch conditions are; `PipelineJumps.dfy` carries branches and JAL to the pipeline.
* *The pipeline* refines the sequential machine for every program of the fragment and every pattern of misses in which no
  instruction slips past the interlock (`PipelineEffects.dfy` to `PipelineRuns.dfy`). The fragment is: ALU operations,
  loads, stores, conditional branches and HALT. Loads and ALU operations write registers 2 to 15, or leave register 0 as it
  is (NOPs); HALT, which writes back a stale result, names register 0 or 1. A store may follow the producer of its word
  directly unless another store stands two or three places before it. `PipelineTiming.dfy` and `PipelineOrder.dfy` tell
  from the sequential run alone, exactly, whether some pattern of misses lets an instruction slip; `PipelineSpacing.dfy`
  gives conditions on neighbouring instructions. `PipelinePrograms.dfy` starts from the instruction image of the counter
  program of core 0: it is in the fragment and never slips. All four counter programs leave their polling loop exactly when
  the counter modulo 4 is the number of their core.
  `PipelineLimits.dfy` shows what happens outside: a dependence on write-back alone, in the cycle in which an access
  misses, lets an instruction leave decode undecoded and fetches the next one twice; and a store behind a store takes the
  word of its destination register too early. Both are stated for all states, with the condition under which they do no
  harm, and shown by a program.
* *Counters.* Printed cycles are conserved, and the two stall counters exact, for every program and every pattern of misses
  (`CoreAccounting.dfy`); the decode stalls do not even depend on the misses (`PipelineStalls.dfy`). What the four hit and
  miss counters of a cache count is stated for every run and any number of cores (`MissCounts.dfy`); for a core that has the
  memory for itself the hits are the accesses answered at their first attempt (`SimulatorStatistics.dfy`).
* *The simulator as a whole* computes what the sequential machines compute, for every order of turns (`Simulator.dfy`), and
  terminates within a stated number of turns of the main loop (`SimulatorHalts.dfy`). `SimulatorPrograms.dfy` states this
  in terms of the sequential runs of the four programs alone; `PipelineOrder.dfy` ties the accesses of the pipeline to
  theirs. In a block-private system each cache misses exactly where a direct-mapped cache that sees the sequential run of
  its core alone misses (`Residence.dfy`, `SimulatorLocality.dfy`); an instruction that a miss could let slip does no harm
  beside an access whose block is still resident there. `SimulatorObject.dfy` carries the result over to the objects and
  their main loop.
* *A program of the repository.* `ProgramFlow.dfy`, `AddPrograms.dfy`, `AddImages.dfy`, `AddResults.dfy`, `AddRuns.dfy`,
  `AddTiming.dfy`, `AddMisses.dfy` and `AddParallel.dfy` follow the parallel addition of two vectors from its four
  instruction images to the end of the simulation: it keeps to the fragment, its cores store to blocks of their own, and the
  simulator ends with the sums in memory and with the numbers of instructions, decode stalls, read misses and write misses
  that the repository lists for it (`MultiCoreProject/asm tests/addparallel/stats0.txt`, lines 2 and 5 to 7). That none of
  its instructions slips is not the merit of the interlock alone: for its third store in a row the proof needs that the
  second one has brought the block into the cache.

Where comments and code of the source disagree, the model follows the code: a branch keeps nine bits of its target
(`MultiCoreProject/src/OpcodeHandlers.c:87`, where the comment says ten), branches compare unsigned words, and a modified
line that sees a flush stays modified (`MultiCoreProject/src/CacheController.c:415`).

The memory inside a pipeline object stands for whatever its cache answers; in `Simulator.dfy` that memory is replaced in
every cycle by the one word that the cache delivers, and `PipelineMemory.dfy` proves that a cycle needs no more.

## Model

| member | source | states |
|---|---|---|
| `AddParallel.ParallelSums` | `MultiCoreProject/asm tests/addparallel/addparallel_core0.asm:16-65` | the parallel addition that the repository ships, from its instruction images, on the whole simulator and for every content of the memory at power-on: within 856(4*5960+7) turns all four cores have halted, each prints 5961 instructions, 1995 decode stalls, 576 read misses and 256 write misses, and caches and main memory together hold the 4096 sums |
| `AddParallel.ShippedAddition` | `MultiCoreProject/asm tests/addparallel/imem0.txt:1-36` | the same with nothing left open but the contents of the main memory: the shipped images with zeros behind them, all registers zero at power-on |
| `AddParallel.WheneverAdded` | `MultiCoreProject/asm tests/addparallel/addparallel_core0.asm:16-65` | the same for every order of turns, not only that of the main loop: whenever all cores have halted |
| `AddParallel.RunAddition` | `MultiCoreProject/asm tests/addparallel/addparallel_core0.asm:16-65` | the same for the objects: their main loop ends, with these results |
| `SimulatorPrograms.ProgramsAreCorrect` | `MultiCoreSim.c:63-69` | total correctness in terms of the four sequential runs alone: if each program keeps to the fragment, uses addresses below 2^20, is sheltered (whenever a miss could let an instruction slip, the access uses a block that is still resident) and halts after N instructions, and if no block that one of them stores to is used by another, then after 856(4N+7) turns of the main loop the core is halted, with registers 2..15, the printed instruction count and the memory (main memory and caches together) of its sequential run |
| `SimulatorPrograms.WheneverHalted` | `MultiCoreSim.c:63-69` | the same for every order of turns, not only that of the main loop: whenever the core has halted |
| `SimulatorPrograms.RunOnTrack` | `MultiCoreSim.c:63-69` | during such a simulation, in any order of turns, every access is one of the sequential runs, in range, and nothing slips |
| `SimulatorHalts.SimulatorTerminates` | `MultiCoreSim.c:63-69` | total correctness: if no block stored by one core is used by another and no instruction slips past the interlock during a miss, a core whose program halts after N instructions is halted after 856(4N+7) turns of the main loop, with registers 2..15, the printed instruction count and the memory (main memory and caches together) of the sequential machine |
| `Simulator.SimulatorIsCorrect` | `MultiCoreSim.c:63-69` | the same for every order of turns, not only that of the main loop: whenever the core has halted |
| `Simulator.CoresAreIndependent` | `MultiCoreSim.c:63-69` | in a block-private system each core makes, cycle by cycle, the cycles of a core alone with a memory of its own; caches, bus and main memory present one flat memory |
| `SimulatorHalts.EnoughAnswers` | `MultiCoreSim.c:63-69` | in the first m turns of the main loop of a block-private run, 856 times the number of answers that a core gets from its cache is at least m - 855 |
| `SimulatorHalts.LoopAnswers` | `MultiCoreSim.c:63-69` | the same from any point of such a run on: 856 times the answers still to come, plus the bound on the delay until the next one, is at least the number of turns left |
| `SimulatorStatistics.HitsAndMisses` | `MultiCoreProject/src/CacheController.c:89-203` | for every program: if a core is the only one to use the memory and repeats a waiting access with the same address, then its read hits are the loads answered at their first attempt and its read misses those that are not; together they are the completed loads, plus one while a load waits; the same for stores |
| `MissCounts.MissesExact` | `MultiCoreProject/src/CacheController.c:137-249` | in every run from power-on, with any number of active cores: the read misses of a cache are the load attempts of its idle core whose line at the index of the address is invalid or has another tag, and the write misses the store attempts whose line is that or Shared |
| `MissCounts.CountersExact` | `MultiCoreProject/src/CacheController.c:89-249` | all four counters in every such run: an attempt that finds its block is a hit unless the last load (or store) of any core that was not put off has missed, since the two flags are shared |
| `SimulatorPrograms.MissesOfRun` | `MultiCoreProject/src/CacheController.c:137-249` | on the whole simulator, whatever the other cores do, the misses that the cache of a core counts are those of a direct-mapped cache that sees the accesses of its sequential run alone |
| `SimulatorPrograms.StallsOfRun` | `MultiCoreProject/src/PipelineController.c:379-387` | and the decode stalls that it prints are the cycles in which the interlock holds up the sequential run without misses |
| `SimulatorStatistics.FragmentIsSteadfast` | `MultiCoreProject/src/PipelineController.c:220-253` | every program of the fragment repeats its waiting accesses, unless something slips past the interlock |
| `PrivateRuns.PrivateRunsAreFlat` | `MultiCoreProject/src/CacheController.c:137-249` | in every run in which no block stored by one core is accessed by another, each load that returns true yields what one array of 2^20 words would hold, through misses, write-backs, index conflicts and any interleaving; and the single-writer property holds |
| `PrivateRuns.SingleCoreIsFlat` | `MultiCoreProject/src/CacheController.c:137-249` | the case of one active core |
| `PrivateRuns.PrivateGuarded` | `MultiCoreProject/src/BusController.c:244-332` | in block-private runs write-backs always find their victim modified, refills never meet a lower-numbered owner, and stores never come too late |
| `FlatMemory.RunCoherent` | `MultiCoreProject/src/BusController.c:244-332` | every guarded run refines a flat memory: all loads agree with it, and caches, bus and memory stay coherent with it |
| `FlatMemory.TickCoherent` | `MultiCoreProject/src/BusController.c:244-332` | a bus iteration changes nothing that the cores can see |
| `FlatMemory.StoreHitExact` | `MultiCoreProject/src/CacheController.c:228-237` | a store that returns true keeps the system coherent with the flat memory if and only if its word has not yet been passed on by the transfer on the bus, or the value is the one already there |
| `FlatMemory.LoadIsFlat` | `MultiCoreProject/src/CacheController.c:154-158` | a load that returns true yields the word of the flat memory |
| `FlatMemory.TransferOutcome` | `MultiCoreProject/src/CacheController.c:325-360` | after a served read the four words at the requester and in main memory are those of the logical memory (the owner's if some cache had the block modified), and the system is coherent |
| `FlatMemory.WriteBackOutcome` | `MultiCoreProject/src/CacheController.c:102-117` | after a served write-back the victim block in main memory is the evicted line word for word, at the base rebuilt from tag and index |
| `CleanRuns.CleanRunsAreFlat` | `MultiCoreProject/src/CacheController.c:137-249` | without dirty evictions and late stores every load yields the latest store, under any sharing |
| `CleanRuns.CleanRunsExclusive` | `MultiCoreProject/src/CacheController.c:303-418` | without dirty evictions a block held Exclusive or Modified in one cache is in no other cache, at every moment, with upgrade races and stores of the owner during transfers |
| `Exclusion.RunExclusive` | `MultiCoreProject/src/CacheController.c:303-418` | the single-writer property in every run whose bus iterations are safe, however late the stores are |
| `Exclusion.FetchOutcome` | `MultiCoreProject/src/CacheController.c:348-356` | after the last word of busRdX no other cache holds the block, after busRd every other copy is Shared, and the requester is Shared exactly if some other cache still matched |
| `Exclusion.StoreIsExclusive` | `MultiCoreProject/src/CacheController.c:209-249` | a store that returns true has the block alone and leaves its line Modified |
| `Exclusion.ServeFetch` | `MultiCoreProject/src/BusController.c:291-331` | an iteration that serves a read waits, or moves exactly one word to memory and requester, according to the countdown |
| `Exclusion.CopyGivesWay` | `MultiCoreProject/src/CacheController.c:365-418` | a copy of a block that another core fetches is given up with the first word served, a modified one only with the last |
| `Snooping.SnoopOwned` | `MultiCoreProject/src/CacheController.c:286-316` | one round of snooping past an owner: every other copy is downgraded, and the owner's word is on the bus |
| `Snooping.SnoopUnowned` | `MultiCoreProject/src/CacheController.c:286-316` | without an owner the transaction passes unchanged |
| `Snooping.SnoopFlush` | `MultiCoreProject/src/CacheController.c:413-417` | a write-back that still finds its victim modified is supplied by its own cache and changes no line |
| `MemoryLimits.LateStore` | `MultiCoreProject/src/CacheController.c:311-313` | a run from power-on, safe apart from one late store, in which a load returns an overwritten word |
| `EvictionLimits.StaleEviction` | `MultiCoreProject/src/CacheController.c:106` | a run from power-on in which a third core loads a wrong word: a load hits the owner of a dirty block, the owner evicts it, its queued write-back puts its one captured word over all four words, and the load of another word of the block returns that word |
| `RefillLimits.DisturbedRefill` | `MultiCoreProject/src/CacheController.c:296-298` | a run from power-on after which two caches hold a block, one of them Modified, and a load returns a word of another block |
| `EvictionExact.OverdueReached` | `MultiCoreProject/src/BusController.c:263-289` | every run from power-on, guarded until a write-back is taken off the queue whose victim nobody has modified any more in its own cache, meets the conditions of the next two theorems |
| `EvictionExact.WriteBackExact` | `MultiCoreProject/src/CacheController.c:102-117` | such a write-back, from its start to its end, whatever the cores do meanwhile: without another modified copy all four words of the block in memory become the one captured word; with one, the requester ends with a Shared copy beside it; and apart from the line of the requester, which its core cannot read before the refill replaces it, the system is coherent if and only if another cache has the block modified or the four words of the flat memory equal the captured word |
| `EvictionExact.WriteBackSupplied` | `MultiCoreProject/src/CacheController.c:303-316` | if another cache has the block modified, memory and the line of the requester get the words of that cache, which are those of the flat memory, unless it stores to a word that has already gone |
| `EvictionMended.WriteBackMended` | `MultiCoreProject/src/CacheController.c:325-360` | in the harmless cases the refill behind the write-back restores full coherence |
| `RefillExact.RefillExact` | `MultiCoreProject/src/CacheController.c:296-360` | a refill over a modified line that meets a lower-numbered owner, from its start to its end: the requester is left with a Modified line holding the first word of the new block and its three old words, and the system is coherent if and only if the command was busRdX and the three old words equal those of the block in the flat memory |
| `RefillExact.FirstMeeting` | `MultiCoreProject/src/CacheController.c:296-298` | in a guarded run the guard of the refills can only fail before the first word is moved |
| `RefillExact.MeetingReached` | `MultiCoreProject/src/BusController.c:263-289` | so every run from power-on that has been guarded until then meets the conditions of the theorem on refills |
| `MemoryLimits.WaitsAndGets` | `MultiCoreProject/src/BusController.c:244-332` | a core that waits alone gets its block, within its rank of bus iterations |
| `Structure.EveryRunStructured` | `MultiCoreProject/src/BusController.c:253-289` | in every run from power-on the pending transactions are a concatenation of per-core groups (read; flush then read; upgrade then bubble), phases agree with the queue, a core seen idle has nothing queued or active, and memory countdown and block offset move in lockstep |
| `Structure.BeginStructured` | `MultiCoreProject/src/BusController.c:253-289` | retiring and taking the next transaction keeps this |
| `Structure.ServeStructured` | `MultiCoreProject/src/BusController.c:291-331` | so does serving a word |
| `Structure.CompleteLockstep` | `MultiCoreProject/src/MainMemory.c:104-128` | the offset is the memory counter minus 16 once the delay is over, and 0 before; memory is busy only for the active transaction |
| `Structure.AttemptEffect` | `MultiCoreProject/src/CacheController.c:164-186` | an attempt hits, or queues exactly one group for its idle core |
| `Structure.AttemptQueues` | `MultiCoreProject/src/CacheController.c:137-249` | which one: busRd for a load and busRdX for a store, behind the write-back of a modified victim, or before the delay if a store finds the block Shared; nothing if the block is there |
| `Latency.ExactLatency` | `MultiCoreProject/src/BusController.c:265-331` | a dequeued transaction is over after exactly 5 iterations if a cache other than that of its core has a modified line at its index in the first one; otherwise after exactly 21 if one has it in some later iteration, and after 20 if none has, whatever the cores do |
| `Latency.OwnedBlockTakesFive` | `MultiCoreProject/src/BusController.c:301-315` | so a transaction for a block that any other cache has modified takes exactly 5 |
| `Latency.UnownedBlockTakesTwenty` | `MultiCoreProject/src/MainMemory.c:104-128` | and one that finds no other cache modified at its index takes 20 or 21 |
| `Latency.NextIteration` | `MultiCoreProject/src/MainMemory.c:113-127` | one iteration of that countdown |
| `Waiting.BoundedWaiting` | `MultiCoreProject/src/BusController.c:244-332` | at any point of any run every core is idle again within 169 bus iterations |
| `Waiting.StepRank` | `MultiCoreProject/src/BusController.c:244-332` | each bus iteration brings a waiting core strictly closer; what other cores do does not set it back |
| `Waiting.AtMostEight` | `MultiCoreProject/src/CacheController.c:164-186` | at most eight transactions are pending |
| `Progress.TickServed` | `MultiCoreProject/src/CacheController.c:325-360` | in a block-private run no bus iteration takes away the block that a core waits for or has got |
| `Progress.AttemptServed` | `MultiCoreProject/src/CacheController.c:137-249` | an access that fails leaves its core waiting for exactly that block |
| `Progress.SucceedsWhenReady` | `MultiCoreProject/src/CacheController.c:143-158` | an access succeeds if and only if the core is idle and has the block in a sufficient state |
| `Types.AddressFields` | `MultiCoreProject/src/CacheController.c:147-149` | tag, index and offset determine an address, and rewriting the offset keeps the other two |
| `IsaLaws.AddressBits` | `MultiCoreProject/src/CacheController.c:27-36` | which bits of an address each field takes: offset 0 and 1, index 2 to 7, tag 8 to 19; the low eight are the position in the data array |
| `BusQueue.TransactionQueue.Enqueue` | `MultiCoreProject/src/BusController.c:100-123` | the doubly linked list keeps its links inverse and acyclic, and appends to the FIFO |
| `BusQueue.TransactionQueue.Dequeue` | `MultiCoreProject/src/BusController.c:126-147` | removes the oldest element, or reports the empty queue |
| `BusPort.Port.AddTransaction` | `MultiCoreProject/src/BusController.c:215-227` | the queue and the phase of the core, for real and for delay transactions |
| `MainMemory.MainMemory.HandleTransaction` | `MultiCoreProject/src/MainMemory.c:104-128` | countdown, word service and release, as the memory cycle of the model |
| `MainMemory.MainMemory.ProcessCommand` | `MultiCoreProject/src/MainMemory.c:74-90` | a read is answered as a flush, a flush is stored |
| `CacheController.Cache.Read` | `MultiCoreProject/src/CacheController.c:137-171` | the object moves as the load of the model, including counters, flags and queued transactions |
| `CacheController.Cache.Write` | `MultiCoreProject/src/CacheController.c:209-249` | the object moves as the store of the model |
| `CacheController.Cache.HandleDirtyBlock` | `MultiCoreProject/src/CacheController.c:102-117` | what is queued for a dirty victim |
| `CacheController.Cache.Snoop` | `MultiCoreProject/src/CacheController.c:286-316` | line and packet after a cache has seen a transaction |
| `CacheController.Cache.HandleState` | `MultiCoreProject/src/CacheController.c:365-418` | the four state handlers |
| `CacheController.Cache.HandleResponse` | `MultiCoreProject/src/CacheController.c:325-360` | tag, data, state and block offset after a response |
| `CacheController.Cache.SharedOrModified` | `MultiCoreProject/src/CacheController.c:263-283` | shared looks at the tag, modified only at the index |
| `CacheTable.Table.IsAnyCacheSnoop` | `MultiCoreProject/src/BusController.c:163-171` | the loop over the caches is the snooping round of the model |
| `CacheTable.Table.IsSharedLine` | `MultiCoreProject/src/BusController.c:175-186` | the loop that collects the shared and modified signals |
| `BusController.Controller.RunIteration` | `MultiCoreProject/src/BusController.c:244-332` | one bus iteration of the object is one step of the model |
| `BusController.Controller.TakeNext` | `MultiCoreProject/src/BusController.c:257-289` | the first half of it |
| `BusController.Controller.CompleteIteration` | `MultiCoreProject/src/BusController.c:315-331` | memory and response |
| `MultiCoreSim.MultiCore.Cycle` | `MultiCoreSim.c:63-69` | the memory side of one turn of the main loop: the bus, then the accesses of the cores in order, whatever they ask |
| `SimulatorObject.Board.CoreTurn` | `MultiCoreProject/src/ProcessorCore.c:87-103` | the turn of a core object on the memory object: its memory stage asks its cache, and the pipeline makes its cycle with the answer; together one turn of the model |
| `SimulatorObject.Board.Round` | `MultiCoreSim.c:65-68` | one pass of the main loop on the objects: a bus iteration, then the turns of cores 0 to 3, as five turns of the model |
| `SimulatorObject.Board.RunUntilHalted` | `MultiCoreSim.c:63-69` | the main loop of the objects, passes until every core has halted, follows the model |
| `SimulatorObject.RunSimulator` | `MultiCoreSim.c:52-69` | the whole simulator as objects, from power-on: for four programs that meet the conditions of ProgramsAreCorrect the main loop ends, every core has halted with registers and instruction count of its sequential run, and caches and main memory together hold what it has stored |
| `MultiCoreSim.LoopIsRun` | `MultiCoreSim.c:63-69` | the main loop is one of the interleavings that the theorems range over |
| `PipelineRuns.PipelineRefines` | `MultiCoreProject/src/PipelineController.c:159-330` | for every program of the fragment and every pattern of memory answers without a slip: a core that halts has registers 2..15 and memory of the sequential machine with one delay slot and prints N+1 instructions, and it halts once memory has answered in 4N+6 cycles |
| `PipelineRefinement.CycleTracks` | `MultiCoreProject/src/PipelineController.c:159-330` | one cycle advances the sequential machine by the instruction that leaves decode, and keeps the invariant on the instructions in flight |
| `PipelineRefinement.InStepKept` | `MultiCoreProject/src/PipelineController.c:159-202` | fetch and decode keep pace with the sequential machine through taken branches and delay slots |
| `PipelineInvariant.ExecuteDrains` | `MultiCoreProject/src/PipelineController.c:205-279` | what the three stages behind decode are going to do is the same before and after a cycle |
| `PipelineInvariant.InterlockExact` | `MultiCoreProject/src/PipelineController.c:335-376` | decode is held up exactly if a register that the instruction in it names as operand (rs and rt; rd too unless it is an ALU operation, a load, or a store behind a store) is named as destination behind it |
| `PipelineInvariant.InterlockSeparates` | `MultiCoreProject/src/PipelineController.c:335-387` | an instruction that leaves decode reads no register that an older one in flight still has to write |
| `PipelineInvariant.OperandsReady` | `MultiCoreProject/src/PipelineController.c:335-387` | so its operands are those of the sequential machine |
| `PipelineMisses.AnswerEffect` | `MultiCoreProject/src/PipelineController.c:132-147` | a miss, the waiting and the answer add up to one cycle, unless the instruction in decode slips |
| `PipelineLimits.MissExact` | `MultiCoreProject/src/PipelineController.c:308-314` | a cycle that waits for memory ends in step with the sequential machine if and only if no instruction slips (no branch leading to its own delay slot) |
| `PipelineLimits.SlipFetchesTwice` | `MultiCoreProject/src/PipelineController.c:132-147` | an instruction that slips leaves decode undecoded, and the next one is going to be fetched twice |
| `PipelineLimits.SlipRun` | `MultiCoreProject/src/PipelineController.c:308-314` | a program and one miss after which a register differs from the sequential machine |
| `PipelineLimits.StaleStoreExact` | `MultiCoreProject/src/PipelineController.c:360-365` | a store in memory beside the producer of its word stores the old register: right if and only if the value does not change |
| `PipelineInvariant.StoreExemption` | `MultiCoreProject/src/PipelineController.c:360-365` | the interlock lets a store pass beside the producer of its word only if write-back has last held a store |
| `PipelineLimits.StaleStoreRun` | `MultiCoreProject/src/PipelineController.c:360-365` | a program whose store leaves another word in memory than the sequential machine |
| `PipelineEffects.CycleEffect` | `MultiCoreProject/src/PipelineController.c:76-87` | the effect of a cycle, stage by stage, for the instructions of the fragment |
| `CoreAccounting.StallsExact` | `MultiCoreProject/src/ProcessorCore.c:128-136` | for every program: memory stalls are the cycles in which an access got no answer, decode stalls the other cycles in which the interlock saw a dependence |
| `CoreAccounting.CycleConservation` | `MultiCoreProject/src/ProcessorCore.c:87-136` | printed cycles = printed instructions + decode stalls + memory stalls + at most four drain cycles, for every program and every pattern of misses |
| `CoreAccounting.CyclesConserved` | `MultiCoreProject/src/ProcessorCore.c:128-136` | the same balance at every moment of every run |
| `CoreAccounting.DrainTerminates` | `MultiCoreProject/src/ProcessorCore.c:87-103` | once HALT is decoded the core latches halted after at most as many answers as stages are to drain, and one more cycle |
| `CoreAccounting.DrainStep` | `MultiCoreProject/src/PipelineController.c:124-154` | a halted pipeline only empties: nothing enters, and without a memory stall everything moves on |
| `CoreAccounting.StallBound` | `MultiCoreProject/src/PipelineController.c:379-387` | decode is never held up for more than three cycles in a row |
| `PipelineOrder.UnexposedProgramsRefine` | `MultiCoreProject/src/PipelineController.c:159-330` | the refinement for every pattern of misses, for programs whose run without misses exposes no instruction |
| `PipelineOrder.NeverSlipsExact` | `MultiCoreProject/src/PipelineController.c:308-314` | no instruction slips past the interlock under any pattern of misses if and only if the run without misses never has an instruction in decode held by write-back alone beside an access |
| `PipelineTiming.TimesKept` | `MultiCoreProject/src/PipelineController.c:335-387` | which stages are occupied, and when an instruction leaves decode, follows from the sequential run alone, whatever registers and memory hold |
| `PipelineSpacing.SpacedNeverExposed` | `MultiCoreProject/src/PipelineController.c:335-387` | a condition on neighbouring instructions under which nothing is exposed |
| `PipelineSpacing.ShelteredRunIsSheltered` | `MultiCoreProject/src/PipelineController.c:335-387` | and one under which what is exposed stands beside an access to a block that is still resident |
| `SimulatorLocality.FirstAttempt` | `MultiCoreProject/src/CacheController.c:143-158` | in a block-private system an access succeeds at its first attempt if and only if its block is the one that the sequential run has used last at this index |
| `SimulatorLocality.SuccessSettled` | `MultiCoreProject/src/CacheController.c:154-158` | an access that succeeds leaves the lines and the miss counters where the sequential run leaves them |
| `Residence.TickFits` | `MultiCoreProject/src/CacheController.c:303-418` | because no bus iteration takes away a block that the core has, or its right to store to it if it ever does |
| `PipelineStalls.DecodeStallsExact` | `MultiCoreProject/src/PipelineController.c:379-387` | the decode stalls of a program do not depend on the misses |
| `PipelineOrder.SequentialAccess` | `MultiCoreProject/src/PipelineController.c:220-253` | the access in the memory stage has the address and the data of the sequential run |
| `PipelineRefinement.InOrderKept` | `MultiCoreProject/src/PipelineController.c:132-154` | the stages hold the last instructions executed, in order and without gaps, and write-back still shows the last store that it has held |
| `AddResults.AlwaysStands` | `MultiCoreProject/asm tests/addparallel/addparallel_core0.asm:16-65` | the state of the sequential machine before each instruction of such a program |
| `AddRuns.AddHalts` | `MultiCoreProject/asm tests/addparallel/addparallel_core0.asm:16-65` | such a program halts after 22 instructions a round and 328 more, and leaves the sums, and nothing else, in memory |
| `AddRuns.AddIsSheltered` | `MultiCoreProject/asm tests/addparallel/addparallel_core0.asm:16-65` | a miss can let an instruction of it slip past the interlock at most beside the store at address 20, and that one uses the block of the store at 17 |
| `AddParallel.PlanIsPrivate` | `MultiCoreProject/asm tests/addparallel/addparallel_core0.asm:16-65` | no core stores to a block that another one uses |
| `AddImages.ImageAdds` | `MultiCoreProject/asm tests/addparallel/imem0.txt:1-36` | the instruction images shipped for the four cores are these programs |
| `AddTiming.AddPace` | `MultiCoreProject/asm tests/addparallel/addparallel_core0.asm:16-65` | their runs take seven decode stalls a round and 203 more |
| `AddMisses.AddMissesExact` | `MultiCoreProject/asm tests/addparallel/addparallel_core0.asm:16-65` | their accesses miss twice for loads and once for stores in each round, and 64 times in the second loop |
| `PipelinePrograms.CounterIsProper` | `MultiCoreProject/asm tests/counter/counter_core0.asm:5-20` | a program of the repository, with NOPs on register 0 in its delay slots and stores right behind the instructions that compute their words, keeps to the fragment |
| `PipelinePrograms.CounterIsSpaced` | `MultiCoreProject/asm tests/counter/counter_core0.asm:5-20` | nothing in it can slip past the interlock |
| `PipelinePrograms.CounterRefines` | `MultiCoreProject/asm tests/counter/counter_core0.asm:5-20` | so the pipeline runs its shipped image as the sequential machine does, whatever words it finds in memory and under every pattern of misses |
| `PipelinePrograms.CounterPolls` | `MultiCoreProject/asm tests/counter/counter_core0.asm:5-10` | it raises the counter by one and gets to its polling loop with its number 0 in register 2 |
| `PipelinePrograms.OthersPoll` | `MultiCoreProject/asm tests/counter/counter_core1.asm:5-10` | the other counter programs get to theirs at once, each with its own number |
| `PipelinePrograms.PollingEnds` | `MultiCoreProject/asm tests/counter/counter_core0.asm:11-14` | such a polling loop is left exactly if the counter modulo 4 is the number in register 2 |
| `PipelineMemory.CycleMem` | `MultiCoreProject/src/PipelineController.c:226-252` | a cycle depends on the memory only through the one word that it loads |
| `Isa.PackUnpack` | `MultiCoreProject/headers/sim.h:21-33` | the instruction fields cover the word and do not overlap |
| `IsaLaws.LogicalOperations` | `MultiCoreProject/src/OpcodeHandlers.c:29-47` | the entries of the operation table for AND, OR and XOR, by the bits of the result |
| `IsaLaws.ShiftOperations` | `MultiCoreProject/src/OpcodeHandlers.c:61-79` | the entries for the three shifts, by the bits of the result: what falls out is lost, and an arithmetic right shift repeats the sign |
| `IsaLaws.ArithmeticOperations` | `MultiCoreProject/src/OpcodeHandlers.c:13-23` | the entries for ADD, SUB and MUL modulo 2^32: addition counts up, subtraction undoes it, multiplication adds repeatedly |
| `IsaLaws.LowTwoBits` | `MultiCoreProject/src/OpcodeHandlers.c:29-31` | AND with 3 is the remainder modulo 4 |
| `IsaLaws.Conditions` | `MultiCoreProject/src/OpcodeHandlers.c:85-135` | when each branch is taken, by the order of unsigned words |
| `IsaLaws.BranchGoes` | `MultiCoreProject/src/OpcodeHandlers.c:85-143` | behind the delay slot a taken branch goes to the address in the low nine bits of register rd, an untaken one to the next instruction |
| `IsaLaws.LoadBehindStore` | `MultiCoreProject/src/PipelineController.c:220-253` | a store and then a load: addresses are sums of two operands modulo 2^32, the load yields the stored word if they are equal and otherwise what was there, and nothing else changes |
| `PipelineJumps.BranchDecoded` | `MultiCoreProject/src/PipelineController.c:180-202` | the same for a branch that leaves decode, whatever stands in the other stages |
| `PipelineJumps.JalWrites` | `MultiCoreProject/src/PipelineController.c:257-279` | three cycles after JAL has left decode, register 15 holds what register rd held then |
| `IsaLaws.FieldBits` | `MultiCoreProject/headers/sim.h:21-33` | which bits of an instruction word each field takes: imm 0 to 11, rt 12 to 15, rs 16 to 19, rd 20 to 23, opcode 24 to 31 |
| `PipelineController.Pipeline.CheckHazard` | `MultiCoreProject/src/PipelineController.c:335-376` | the hazard check against one stage |
| `PipelineController.Pipeline.Fetch` | `MultiCoreProject/src/PipelineController.c:159-177` | fetch |
| `PipelineController.Pipeline.Decode` | `MultiCoreProject/src/PipelineController.c:180-202` | decode, with the branches and HALT |
| `PipelineController.Pipeline.Execute` | `MultiCoreProject/src/PipelineController.c:205-216` | execute |
| `PipelineController.Pipeline.Access` | `MultiCoreProject/src/PipelineController.c:220-253` | the memory stage, on the answer of the cache |
| `PipelineController.Pipeline.WriteBack` | `MultiCoreProject/src/PipelineController.c:257-279` | write-back |
| `PipelineController.Pipeline.EnterParams` | `MultiCoreProject/src/PipelineController.c:284-299` | immediate and operands |
| `PipelineController.Pipeline.CallOperation` | `MultiCoreProject/src/OpcodeHandlers.c:13-147` | what the entry of the operation table, as IsaLaws describes it, writes through its pointers |
| `PipelineController.Pipeline.ExecuteStages` | `MultiCoreProject/src/PipelineController.c:304-330` | the upward loop over the stages |
| `PipelineController.Pipeline.PipeBubbles` | `MultiCoreProject/src/PipelineController.c:132-154` | the downward loop that hands the instructions on |
| `PipelineController.Pipeline.IsFlushed` | `MultiCoreProject/src/PipelineController.c:91-109` | the test for an empty pipeline |
| `PipelineController.LoopIsBack` | `MultiCoreProject/src/PipelineController.c:304-330` | the loop over the stages is the sequence of the model |
| `ProcessorCore.Core.RunSingleCycle` | `MultiCoreProject/src/ProcessorCore.c:87-103` | one cycle of the core object is one cycle of the model |
| `ProcessorCore.Core.UpdateTrackingInfo` | `MultiCoreProject/src/ProcessorCore.c:128-136` | the two counters |
| `ProcessorCore.RunProgram` | `MultiCoreProject/src/ProcessorCore.c:87-103` | the object, run on a program of the fragment, ends with the state of the sequential machine |

## Left out

- File and argument handling, loading of instruction and memory images, and all traces and printing: the images are arbitrary
  values here, the counters are fields.
- Registration of callbacks and caches: the methods call each other directly, and all four caches are registered.
- The C bit fields and unions: addresses and instruction words are taken apart by division, with one lemma each.
- Failure of memory allocation: the queue always grows.
- Wrap-around of the 32-bit statistics counters: they are unbounded here.
- The phase lookup for the invalid caller (`MultiCoreProject/src/BusController.c:253`) reads behind a global array in the
  source; here it has no effect.
- Addresses of 2^20 and above: the theorems about whole programs ask that no access uses one, and the memory system is stated
  on 20-bit addresses.
- Fetching behind the last instruction (from address 1024 on) reads whatever follows the array in the source; here it yields
  an instruction that the proofs never let leave decode.
- Running a table entry that does not exist, which the source does for unassigned opcodes and when an ALU instruction has
  slipped past the interlock: the source calls a null pointer or reads behind the table, here the result stays as it is.
- A core whose instruction image is empty, which the source halts at once.
- Shifts by 32 or more, undefined in the source, are taken modulo 32.
- JAL is modelled as coded, but is not in the fragment: what it writes back is not a return address but the word of its
  target register (`PipelineJumps.JalWrites`).
- Store and load progress under true sharing of a written block: an exclusive grant can be revoked before the store retries.
- Hit totals of several active cores in terms of their programs: the two miss flags are shared by all cores, so the hits
  depend on the interleaving (`MissCounts.CountersExact`); the misses do not (`SimulatorPrograms.MissesOfRun`).
- Cycle totals of a program, and its memory stalls: they depend on the interleaving on the bus.
- ALU operations that change register 0, and loads into it: the source runs them, but its interlock does not look at
  register 0, so they are not in the fragment.
- PipelineController.Pipeline.Fetch: does not model what the source reads behind the instruction array.
- PipelineController.Pipeline.Access: takes the answer of the cache, and the word that it delivers, from outside;
  `SimulatorObject.Board.CoreTurn` asks the cache for them in the same cycle.
- MultiCoreSim.MultiCore.Cycle: takes the accesses of the cores as arguments; `SimulatorObject.Board.Round` runs the
  pipelines that make them.
