# The restartable-sequence machine of rseq-rs

This project models the critical sections of the crate, the kernel rules they rely on, and the
clients built on them, and proves that word operations are atomic however threads are scheduled.

## What is modelled

* **Blocks.** The six hand-written assembly blocks of each backend, instruction by instruction
  (`Aarch64.dfy`, `X86.dfy`), over a small instruction set (`Isa.dfy`) with 64-bit wrap-around words.
* **Meaning.** What each operation is meant to do when nothing interrupts it: answer, memory, the
  addresses it stores to and everything it depends on (`Ops.dfy`). This is the reference all proofs
  are against.
* **Machine.** Any number of threads on any CPUs run blocks one instruction at a time
  (`Machine.dfy`). Between any two instructions the kernel may preempt a thread, resume it on any idle
  CPU, deliver a signal whose handler runs operations of its own (nested to any depth), return from it,
  or carry out a membarrier on one CPU or on all. Each of these except preemption and signal return
  applies the fix-up: an instruction pointer inside the range of the armed descriptor goes to its abort
  point, and `rseq_cs` is cleared. Nothing clears `rseq_cs` after a commit.
* **Atomic machine.** The same threads, but every call takes effect in one step (`Atomic.dfy`). The one trace of
  a call before that step is the scratch store of a `store_if` to its `side`, which is a step of its own, taken
  only while the call would succeed, and possibly more than once.
* **Clients and surroundings.** Free lists, counters, the drain protocol, `Thread`'s public
  operations, word regions, the possible-CPU parser, and the membarrier statics across forks.

## How the proofs are built

1. *One pass.* Each block, left alone, does exactly what its call means and touches only what the
   call depends on (`Stepping.dfy`, `Semantics.dfy`).
2. *One thread.* All blocks share a static shape (`Blocks.WellFormed`): the range is entered only by
   arming, branches leave it forwards, inputs and status stay, the last store alone commits. From that
   shape, and nothing else about the block, a pass stays bound to its call's meaning on every memory
   that agrees with what the pass has seen so far, and a restart gives a fresh pass (`Sections.dfy`).
3. *All threads.* As long as no store lands on what another running thread's pending call depends on,
   what passes have seen stays current, so every step of the instruction machine is a step of the
   atomic machine or none (`Refinement.dfy`). Ok takes effect at the committing store, Miss and Abort at
   the branch that leaves the range, when what they read is still in memory.
4. *Why stores do not race.* Running threads have distinct CPUs and distinct concurrency ids. If every
   word is used under one key at a time, that is enough (`Keys.dfy`); regions used with one kind of key
   each give that (`Slots.dfy`). The free lists discharge the same condition for pointer chases from their
   own invariant, with other calls and work on popped nodes going on (`FreeList.dfy`).
5. *Any compilation, either backend.* Register assignment and interruption history make no difference
   (`Registers.dfy`, `Backends.dfy`), and the same holds for a block executed in place (`Hart.dfy`).
6. *Whole calls.* What one call has stored and loaded over all its passes, restarts included
   (`Calls.dfy`), which interruptions matter to that (`Interruptions.dfy`), when and how often it can abort
   (`Attempts.dfy`), and how many instructions it takes (`Progress.dfy`). What is counted along a run is counted by
   position (`Counts.dfy`).
7. *Runs that go wrong.* Concrete runs of the machine, on either backend and for any words and numbers
   (`Scenes.dfy`), show that conditions are needed; most of them are one half of an "if and only if"
   (`BadRuns.dfy`, `OneKey.dfy`, `Schedules.dfy`, `Hazards.dfy`, `Stranded.dfy`, `SwapPop.dfy`).

## What the proofs need, and what they found

* All stores to a word that running operations depend on are made under one key at a time.
  `Word::new` does not enforce this (src/words.rs:22), and it cannot be done without: swaps of one word are atomic
  in every otherwise disciplined run if and only if they are made under one key (`OneKey.OneKeyIff`). Under any two
  keys both of two swaps can succeed, and one of them is lost (`Hazards.TwoKeysRace`). A CPU and a concurrency id
  with the same number share a slot, so each region has to be used with one kind of key
  (`Slots.OneKindIsKeyed`, `Slots.MixedKindsShare`).
* `store_if` may have its word as `side` exactly if `side` is given the value the word is compared with;
  otherwise a restarted pass compares its own scratch store and misses with the word changed
  (`BadRuns.AliasIff`).
* The documentation of `store_if` says `side` is untouched on a miss (src/thread.rs:435-436). The pass
  that answers has not touched it (`Calls.LastPassStoreIf`), but an earlier pass of the same call may have.
  On a miss the promise holds in every run if and only if nobody else, handlers of the thread included, stores to the
  word during the call, or the thread is neither put back on a CPU nor sent a signal during it; fences never
  matter (`BadRuns.SideOnMiss`). On an abort it holds if and only if the thread is not moved to another index of the
  key's kind: preemptions, signals and fences do not matter, so on a pinned thread it holds
  (`BadRuns.SideOnAbort`).
* "Nothing is dereferenced" by `load_if_ne` on a miss or an abort (src/thread.rs:353-355) holds under the same
  two conditions (`BadRuns.ChaseOnMiss`, `BadRuns.ChaseOnAbort`); what every pass dereferences is
  `Safety.ChaseSafe`.
* A call whose thread keeps its index aborts if and only if that index is not the key's, however it is interrupted
  (`Attempts.MoveDecides`). A loop that looks its index up anew for every attempt aborts at most once for every
  move (`Attempts.LoopAttempts`); one that looks it up once can abort for ever after one
  (`Stranded.NeverAgain`).
* A drain sets a stop word, fences, and takes the counter (benches/drain.rs:3-6). Increments that look at the
  stop word are kept out until it is cleared, but clearing it right after taking is not exact: an increment may
  have read the counter before it was taken and read the stop word after it was cleared. Of all
  schedules a drainer may follow, those that take only while the stop word is set and fenced, and fence again
  between taking and clearing, are exact, and no others (`Schedules.ExactIffKept`). In particular one more
  fence is needed before clearing, and fencing without a stop word, as `steal_all` does, is not enough
  (`Schedules.DrainOrders`).
* A fence of one CPU does not drain a cid word: a pass on it that was begun before the fence can commit after
  it (`Hazards.CidSpared`), as src/rseq.rs:73 says.
* `pop_rseq` reads `next` outside the section (benches/freelist.rs:184) and takes exactly the first
  node off its list if and only if that link is still the same when it swaps (`SwapPop.SwapPopExact`).
  Two threads of one CPU suffice for a run in which it is not (`SwapPop.AbaRun`). The `load_if_ne` pop has
  no such run.
* A fence works again after a fork only while a retry is left: a process that fences exactly once after
  it was forked, and forks again, leaves a child whose fences fail for good
  (`Membarriers.FenceAfterForks`).

## Model

| member | source | states |
|---|---|---|
| Blocks.ArmCompareExchange | src/aarch64.rs:22-55 | the aarch64 block is armed, checked, loads, compares, and commits with its only store |
| Blocks.IntelCompareExchange | src/x86_64.rs:22-54 | the x86_64 block has the same shape |
| Blocks.ArmFetchAdd | src/aarch64.rs:88-117 | load, add and a committing store, after the index check |
| Blocks.IntelFetchAdd | src/x86_64.rs:87-114 | a committing `xadd`, after the index check |
| Blocks.ArmStoreIf | src/aarch64.rs:153-187 | the store to `side` comes after the compare and before the committing store |
| Blocks.IntelStoreIf | src/x86_64.rs:149-182 | the same shape on x86_64 |
| Blocks.ArmCompareExchangeIf | src/aarch64.rs:224-262 | two compares, each with its own miss exit, before the only store |
| Blocks.IntelCompareExchangeIf | src/x86_64.rs:219-256 | the same shape on x86_64 |
| Blocks.ArmLoadIfNe | src/aarch64.rs:300-335 | the chase load comes after the compare and feeds the committing store |
| Blocks.IntelLoadIfNe | src/x86_64.rs:294-329 | the same with a two-operand add |
| Blocks.ArmFetchAddAt | src/aarch64.rs:371-403 | two chase loads, then load, add and a committing store |
| Blocks.IntelFetchAddAt | src/x86_64.rs:365-395 | two chase loads, then a committing `xadd` |
| Blocks.EveryBlockWellFormed | ROADMAP.md:169-177 | all twelve blocks are well formed: entered only by arming, left forwards, inputs never written, the last store alone commits and goes to the word |
| Semantics.CompareExchangeFaithful | src/aarch64.rs:38-55 | from its index check, any block of this shape does exactly what `compare_exchange` means, touching nothing else |
| Semantics.FetchAddFaithful | src/aarch64.rs:104-117 | the same for `fetch_add`, as three instructions or as one |
| Semantics.StoreIfFaithful | src/aarch64.rs:169-187 | the same for `store_if`, both words together |
| Semantics.CompareExchangeIfFaithful | src/aarch64.rs:240-262 | the same for `compare_exchange_if`, with the value that failed its compare in a miss |
| Semantics.LoadIfNeFaithful | src/aarch64.rs:316-335 | the same for `load_if_ne`, with a wrapping signed offset |
| Semantics.FetchAddAtFaithful | src/aarch64.rs:387-403 | the same for `fetch_add_at` |
| Semantics.EveryBlockFaithful | src/attempt.rs:11-17 | on every memory, all twelve blocks answer and store what their call means |
| Sections.KickLeavesSection | ROADMAP.md:11-15 | after the kernel's fix-up no context of the thread is inside a range, and inputs and saved frames are intact |
| Sections.EntryStep | src/x86_64.rs:34-37 | before the range a block touches no memory, and enters the range exactly by storing its own descriptor |
| Sections.SectionStep | ROADMAP.md:164-174 | an instruction inside the range keeps the pass bound to its call's meaning on every memory that agrees with what it has seen |
| Sections.TailSettled | src/aarch64.rs:46-55 | past the range neither memory, nor indices, nor further interruptions can change the answer |
| Sections.ThreadStep | src/aarch64.rs:22-55 | an instruction of any thread keeps the armed invariant and the soundness of its pass |
| Refinement.ArmedRun | src/thread.rs:231-236 | in every run, under any signals nested to any depth: a context inside a range is the running one and has its own descriptor armed, saved frames are outside, inputs are intact |
| Refinement.CommitMeans | src/aarch64.rs:38-46 | the instruction that leaves the range carries out the whole meaning of the call on memory as it is at that instant |
| Refinement.StepRefines | ROADMAP.md:150-164 | every instruction and every kernel step is one step of the atomic machine, or invisible to it |
| Refinement.StepSafe | ROADMAP.md:169-177 | one step that races with nobody keeps the whole invariant |
| Refinement.RunRefines | src/thread.rs:239-248 | linearizability: every run whose stores do not race, of any number of threads under any interruptions, is a run in which every call takes effect in one step, except that a `store_if` that would succeed may store its `side` value early and again |
| Keys.Exclusion | src/thread.rs:461-475 | two running threads whose index checks pass hold different keys |
| Keys.ApartRunRefines | src/words.rs:12-25 | linearizability of all six operations, chases included: every run in which, at each step, no running call past its index check would store to a word that one with another key depends on |
| Keys.KeyedRunRefines | src/words.rs:12-25 | linearizability of all six operations from a static discipline alone: calls name only words of their own key and store what those may hold, chases lead through constant words or words of known values to words of the key, and plain stores stay off all of these; words then hold what they may |
| OneKey.OneKeyIff | src/words.rs:12-25 | swaps of one word under two keys, in otherwise keyed runs on either backend, are atomic in every run if and only if the keys are one |
| Hazards.TwoKeysRace | src/words.rs:12-25 | from rest, for any two different keys: a run in which threads with either index both swap the word and both succeed, although either update makes the other one miss |
| Safety.AtRestInv | src/rseq.rs:60-68 | every state between calls is a start of the runs spoken of here |
| IndexCheck.CheckedNext | src/aarch64.rs:104-111 | any step of any run, disciplined or not, leaves every pass that is past its index check with an index equal to its key |
| IndexCheck.OnePastTheCheck | src/aarch64.rs:104-111 | in every state of every run, of all six blocks: at most one running thread is past its index check under a given key |
| IndexCheck.AwayTouchesNothing | src/thread.rs:344-360 | a pass whose thread has another index neither loads nor stores |
| Safety.ReadIsCurrent | src/aarch64.rs:104-111 | whatever a running pass has read is still in memory |
| Safety.Doomed | src/x86_64.rs:34-45 | a descheduled thread inside a range resumes at its abort point, on whatever CPU |
| Safety.StaleHarmless | ROADMAP.md:175-175 | a descriptor left in `rseq_cs` after a commit moves no instruction pointer |
| Safety.TouchesFootprint | src/thread.rs:344-360 | every load and store of every pass, restarted later or not, falls on what the call depends on at that instant |
| Safety.ChaseSafe | src/thread.rs:350-355 | every chase of `load_if_ne` follows an index match and a passed compare, and goes through the value still in the word |
| Calls.LastPassLoadIfNe | src/thread.rs:350-355 | a pass that answers Miss or Abort has loaded nothing but its word |
| Calls.WholeLoadIfNe | src/thread.rs:350-355 | over a whole call with all its restarts: nothing but the word has been loaded at a Miss or Abort without interruptions, nor at a Miss if nobody else stored to the word |
| BadRuns.ChaseOnMiss | src/thread.rs:350-355 | on a Miss nothing has been dereferenced, in every run, if and only if there are no foreign stores to the word during the call, or no resumptions and no signals |
| BadRuns.ChaseOnAbort | src/thread.rs:350-355 | on an Abort nothing has been dereferenced, in every run, if and only if there are no resumptions with another index |
| Interruptions.AwayTracesNothing | src/thread.rs:344-360 | a call begun with another index than its key's, and kept there, neither loads nor stores in any pass |
| Interruptions.AbortUnmoved | src/thread.rs:434-437 | a call of any kind that aborts although its thread was not moved has neither loaded nor stored in any pass |
| Interruptions.MissSteady | src/thread.rs:434-437 | a call that misses without resumptions and signals has left no scratch store and no chase in any pass, whatever fences hit it and whoever stores to its word |
| Safety.NoFault | src/thread.rs:350-355 | if what a call depends on is mapped, no pass of it faults |
| Safety.CommitIsAtomic | ROADMAP.md:169-173 | a committing step leaves the memory its call means, and settles the answer |
| Safety.NonCommitStep | ROADMAP.md:172-172 | any other instruction stores nothing, except the side word of a `store_if` |
| Safety.StoreIfStep | src/thread.rs:410-459 | one instruction: both words change together at Ok; otherwise the word does not change, and `side` changes only to its new value while the compare still holds |
| Calls.LastPassStoreIf | src/thread.rs:434-437 | a pass that answers Miss or Abort has not stored to `side` |
| Calls.WholeStoreIf | src/thread.rs:410-437 | over a whole call with all its restarts: at Ok the last store is the word, after scratch stores only; else there are scratch stores only, none if the thread was not interrupted, and none at a Miss if nobody else stored to the word |
| Calls.FailedStoreIf | src/thread.rs:410-437 | until it succeeds a call leaves its word as it was, and `side` as it was or at its new value, as far as others do |
| Calls.WordKept | src/thread.rs:410-437 | the same for the word when `side` is the word itself, as far as that is allowed |
| BadRuns.SideOnMiss | src/thread.rs:434-437 | a Miss leaves `side` alone in every run if and only if there are no foreign stores to the word during the call, or no resumptions and no signals |
| BadRuns.SideOnAbort | src/thread.rs:434-437 | an Abort leaves `side` alone in every run if and only if there are no resumptions with another index; resumptions with the same one, signals, fences and foreign stores make no difference |
| BadRuns.AliasIff | src/thread.rs:410-437 | a Miss leaves the word as it was in every run of a lone thread if and only if `side` is another word or gets the compared value |
| Safety.CompareExchangeIfSnapshot | src/thread.rs:261-318 | Ok: both compares hold at the committing store; a second miss: the first compare holds at that instant; also when both words are one |
| Safety.ReturnsAnswer | src/attempt.rs:11-17 | the caller is handed the answer fixed at the commit |
| Fences.FenceCpuCuts | src/rseq.rs:70-79 | after a fence of a CPU no pass begun before it runs on that CPU, however the run goes on |
| Fences.FenceAllCuts | src/rseq.rs:81-87 | after a fence of all, no pass begun before it runs anywhere |
| Fences.NoOldCommit | src/rseq.rs:70-79 | no instruction of such a pass stores to, or loads from, anything if its word is a word of that CPU: it cannot commit |
| Fences.NoOldStep | src/rseq.rs:81-87 | after a fence of all, such a pass executes nothing any more, whatever its key |
| Fences.FenceCpuSpares | src/rseq.rs:73-74 | it spares exactly the passes on other CPUs, unchanged: a cid word is not drained by it |
| Hazards.CidSpared | src/rseq.rs:73-74 | from rest, a run in which a pass on a cid word, begun before a fence of the CPU of that number, commits after it |
| Conservation.EffectCounts | tests/stress.rs:68-107 | any call changes the sum of the words by its increment if it answers Ok, and by nothing if not |
| Conservation.Conserved | tests/stress.rs:46-199 | for every disciplined run of any calls on any words, none putting a foreign value in a counted word: final sum = initial sum + increments of exactly the calls that committed, modulo 2^64 |
| Conservation.KeyedConserved | tests/stress.rs:46-199 | the same for every run that keeps the key discipline |
| FreeList.ListsStep | benches/freelist.rs:191-207 | a push or pop that takes effect keeps lists and held nodes a partition of the nodes, spelled out in memory |
| FreeList.ListsRaceFree | src/thread.rs:362-374 | pops and pushes of different CPUs depend on different words, chases included |
| FreeList.FreeListRun | benches/freelist.rs:191-207 | for every run of pushes and `load_if_ne` pops, with any calls on words of held nodes and any keyed calls elsewhere: lists stay acyclic, disjoint, and a partition together with the held nodes; and the run refines the atomic machine |
| FreeList.ListChase | src/thread.rs:350-355 | no pass, restarted or not, ever chases through a freed or foreign node |
| FreeList.PopsUnique | tests/stress.rs:290-384 | where nothing is pushed, every node is handed out at most once, and what is handed out is what left the lists, whatever is done with the nodes handed out |
| FreeList.TagIsUse | tests/stress.rs:344-356 | adding to the tag of a popped node, under the key of whatever CPU the thread is on, is among those uses |
| FreeList.TagsConserved | tests/stress.rs:366-371 | and what has been added to tags is all there at the end |
| Drain.BumpCommit | src/thread.rs:301-318 | what leaving the range means for an increment whose reads may be out of date |
| Drain.DrainNext | benches/drain.rs:3-6 | every step that keeps the protocol keeps its invariant, whatever else runs |
| Drain.DrainStart | benches/drain.rs:3-6 | every state between calls with the stop word clear is a start of such runs |
| Drain.Drained | benches/drain.rs:3-6 | exactness: remaining + stolen = initial + committed, in every run whose takes and clears keep the protocol |
| Drain.BooksCounted | benches/drain.rs:3-6 | what is counted there: the positions of the run at which an increment commits, and what was in the counter whenever it was stored to |
| Drain.HeldCommitsNothing | benches/drain.rs:3-6 | between the fence and the clearing of the stop word no increment commits |
| Schedules.ProtocolExact | benches/drain.rs:3-6 | a schedule that keeps the protocol is exact at every moment of every run, with any updaters and other calls |
| Schedules.Breaks | benches/drain.rs:3-6 | every schedule that does not has a run, on either backend, for any CPU and words, whose books do not balance |
| Schedules.ExactIffKept | benches/drain.rs:3-6 | a schedule is exact if and only if it keeps the protocol |
| Schedules.DrainOrders | benches/drain.rs:152-164 | stop, fence, take, clear is not exact; fence, take is not; stop, fence, take, fence, clear is |
| SwapPop.SwapPopExact | benches/freelist.rs:177-189 | a pop by compare-and-swap takes exactly the first node off the list if and only if the link it read is still that node's link |
| SwapPop.AbaRun | benches/freelist.rs:177-189 | a run of two threads of one CPU in which it is not: the swap answers Ok and puts a node on the list that the other thread has popped and kept |
| Registers.RenamedExec | src/aarch64.rs:56-68 | renaming registers renames what an instruction reads and writes, and nothing else |
| Registers.AnyAllocation | src/aarch64.rs:56-68 | under every register assignment the operands allow, and any interruptions, the emitted block makes the same stores and loads and ends alike |
| Registers.TraceShown | src/aarch64.rs:56-68 | a trace shows of every instruction of a run what it stores and loads, where the run has got to |
| Registers.InputsStay | src/aarch64.rs:188-202 | until the commit every restart finds its inputs as they were at the call |
| Registers.LateStatus | src/aarch64.rs:60-64 | the `lateout` status may share the register of an input |
| Backends.Undisturbed | src/x86_64.rs:34-54 | from anywhere before its range, a pass nobody disturbs does what the call means |
| Backends.LastPassDecides | src/aarch64.rs:35-68 | however often a call is interrupted, it does what its last pass alone would do, in registers as assigned |
| Backends.BackendsAgree | src/x86_64.rs:381-395 | both backends give the same answer and memory, under any assignments and any two histories of interruptions |
| Backends.Terminates | src/aarch64.rs:98-117 | a call restarted k times executes at most k+1 times its block's length |
| Backends.EventsCounted | src/aarch64.rs:98-117 | every event of a history is one instruction or one restart |
| Progress.OwnStepsBounded | src/aarch64.rs:98-117 | in every run of the machine: the own instructions of a call are at most its thread's fix-ups plus one times its block's length |
| Progress.OwnStepsCounted | src/aarch64.rs:98-117 | the own instructions of a call are the positions of the run at which its program steps, each counted once |
| Progress.HitsCounted | ROADMAP.md:11-15 | the fix-ups are the positions at which its thread is resumed, signalled or fenced |
| Execution.Hart.Perform | src/aarch64.rs:11-72 | a block executed in place, with a kernel that may take the thread away before any instruction: the call takes effect as a whole, in one pass, on the memory the thread came back to; memory is then as the call has left it, or as the thread found it on its last return since; the indices are those of its last return; and answer, registers, `rseq_cs`, memory and indices are those of its instructions and returns, turn by turn |
| Execution.LatestIsLast | ROADMAP.md:11-15 | the last return of an interrupted call is the last turn away, with nothing but instructions after it |
| Execution.Executes | src/aarch64.rs:35-55 | one instruction goes on towards the call's meaning, or is the one that commits it |
| Execution.ComesBack | ROADMAP.md:11-15 | a pass interrupted before its commit starts over on the new memory and index |
| Threads.Thread.CpuId | src/thread.rs:53-59 | a CPU number if and only if it is below the two sentinels, which are the two largest 32-bit values |
| Threads.Thread.Cid | src/thread.rs:204-212 | a concurrency id only if the kernel fills the field |
| Threads.Thread.PrepareUnload | src/thread.rs:231-236 | clears `rseq_cs` and nothing else |
| Threads.Thread.CompareExchange | src/thread.rs:253-266 | takes effect as a whole in one pass; Ok with the expected value if and only if index and compare hold there, and then the update is stored; otherwise the held value in a miss, or an abort, and nothing is stored; what memory ends as, however the call is interrupted |
| Threads.Thread.CompareExchangeIf | src/thread.rs:301-318 | words of different keys abort without entering the section; otherwise one pass does it all: Ok if and only if index and both compares hold, and then the update is stored; a miss carries the value of the first compare that failed |
| Threads.Thread.FetchAdd | src/thread.rs:331-338 | Ok with the held value, which the count is added to, if and only if the index is the word's; otherwise an abort, never a miss |
| Threads.Thread.LoadIfNe | src/thread.rs:362-374 | Ok with the held value, which is replaced by what is at it plus the offset, if and only if the index is the word's and the value is not the avoided one; otherwise a miss or an abort |
| Threads.Thread.FetchAddAt | src/thread.rs:397-408 | Ok with the previous value of the word whose address is at the held value plus the offset, and the count added there, if and only if the index is the word's; otherwise an abort, never a miss |
| Threads.Thread.StoreIf | src/thread.rs:440-459 | words of different keys abort without entering the section; otherwise one pass stores both words, or none counts and the answer is the held value in a miss or an abort |
| Threads.OperandsOf | src/aarch64.rs:56-60 | every call finds its operands where its block reads them |
| Attempts.MoveDecides | benches/counter.rs:53-66 | a call whose thread keeps its index, preempted, signalled and fenced as it may be, aborts if and only if that is not the index of its key |
| Attempts.AttemptsRun | benches/counter.rs:53-66 | in every disciplined run, under nested handlers: the aborts of a program that looks its index up anew for every attempt, and its stale look if it has one, are at most the resumptions of its thread with another index of that kind |
| Attempts.LoopAttempts | benches/counter.rs:53-66 | so an add loop begins at most one attempt more than its thread migrates |
| Attempts.TallyCounted | benches/counter.rs:53-66 | what is counted there: calls the program begins, its calls settled on an index that is not their key's, and resumptions of its thread with another index, each at its position in the run |
| Clients.Add | benches/counter.rs:53-66 | the first attempt that is still on the CPU it looked up, any number below the sentinels that has a word, adds the count there and returns the old value; with such numbers throughout it comes after at most as many attempts as CPU numbers have changed under the loop's looks |
| Clients.StayingIsNoMove | benches/counter.rs:53-66 | looks that all read and confirm one number are no move at all |
| Clients.AddWord | benches/counter.rs:68-75 | a word looked up once: success if and only if the thread is on its CPU at some attempt; the first such one adds the count and returns the old value, and nothing else changes memory |
| Stranded.NeverAgain | benches/counter.rs:68-75 | for any call and any n: from rest with the right index, one migration, and n calls in a row are handed an abort without anything interrupting them |
| Clients.EveryFailureIsAMove | benches/counter.rs:53-66 | attempts that do not land are at most the changes of CPU number between and during looks |
| Clients.Push | benches/freelist.rs:191-207 | the loop ends at the first attempt on a CPU number below the sentinels that is confirmed and whose head is unchanged; then the node's link is the old head, the head is the node, and the node is in front of the list |
| Clients.StealAll | benches/drain.rs:152-164 | alone, the loop leaves the word of every number below the CPU count and the sentinels zero, changes nothing else, and returns the sum of those words, each counted once |
| Clients.SumAll | tests/stress.rs:46-66 | adding zero to every word reads their sum, of all numbers in order, and changes nothing |
| Conservation.SumSplits | tests/stress.rs:46-66 | one word sums to its value, and two lists of words to the sum of their sums |
| Conservation.SumOfZeros | tests/stress.rs:46-66 | words that are all zero sum to zero |
| Bits.WrapsModulo | src/aarch64.rs:104-111 | addition is modulo 2^64 |
| Membarriers.Membarrier.Fence | src/membarrier.rs:34-52 | the two statics and the kernel's registration after one call; true if and only if the kernel has logged one more command, for this memory map and CPU |
| Membarriers.Membarrier.FenceCpu | src/membarrier.rs:54-60 | a CPU number out of range or too wide fails without a call; true if and only if the kernel has logged the command for that CPU |
| Membarriers.Membarrier.Ready | src/membarrier.rs:30-32 | registers on first use only, and remembers the result |
| Membarriers.TrueMeansDone | src/membarrier.rs:34-52 | for every history of fences and forks and any kernel answers, failed retries included: the commands the kernel has logged are exactly the fences that said true, in order, each in the memory map of the process that was told |
| Membarriers.FenceAfterForks | src/membarrier.rs:34-52 | with a kernel that works, a fence succeeds if and only if no process of the line was forked after exactly one fence since its own fork |
| Membarriers.FailsForGood | src/membarrier.rs:46-51 | once it fails, it fails in that process and all its children |
| Membarriers.FaultsPass | src/membarrier.rs:40-51 | a command that fails for a reason of its own, at once, after the first registration or on the retry, leaves statics and registration such that the next fence succeeds unless it fails like that too |
| Membarriers.FailedRegistrations | src/membarrier.rs:30-51 | a first registration that fails, or one after a fork, is never tried again: whatever the kernel does from then on, no fence of the process or its children succeeds |
| Slots.MappingCovers | src/region.rs:17-21 | the mapping holds all words, is whole pages, and is less than a page longer |
| Slots.NewBacked | src/words.rs:102-112 | an allocated region is aligned and long enough |
| Slots.NewSlots | src/words.rs:102-146 | words are allocated if and only if there are some, their length rounded up to pages fits, and the kernel maps them; then every number below the one asked for has the word at its offset, and no other number has one |
| Slots.StaticBacked | src/words.rs:114-127 | a caller's slice is accepted if and only if its length is between one and what 32 bits hold, and is then aligned and long enough |
| Slots.StaticSlots | src/words.rs:114-146 | and then every number below the length of the slice has the word at its offset, and no other number has one |
| Slots.SlotInside | src/region.rs:56-60 | address arithmetic never wraps: the word is aligned and wholly inside the region |
| Slots.SlotMap | src/words.rs:135-146 | a number has a slot if and only if it is in range, and distinct numbers have disjoint ones |
| Slots.OneKindIsKeyed | src/words.rs:82-87 | regions used with one kind of key each keep the key discipline, for every operation, on one word, on two from the same or different regions, and on one word twice where that is allowed |
| Slots.MixedKindsShare | src/words.rs:135-146 | with both kinds no assignment of keys does: equal numbers share a word |
| Cpus.Possible | src/cpus.rs:13-31 | the count is the highest listed number plus one; an empty list, a part that is neither a number nor a range, or an overflow gives none |
| Cpus.SplitListed | src/cpus.rs:21-21 | splitting a printed list gives back its ranges |
| Cpus.ShownHighest | src/cpus.rs:22-27 | a printed range parses to its upper end |
| Cpus.EveryCpuHasASlot | src/cpus.rs:13-31 | for every list of ranges that fits the buffer, every listed CPU is below the count, and the count is the highest one plus one |
| Slots.WordsForAll | src/rseq.rs:95-99 | so the region the crate allocates has a word for every listed CPU, at its offset, and none beyond the highest one |
| Cpus.EveryPart | src/cpus.rs:20-29 | a list is accepted if and only if every part of it, at whatever position, is a number or two numbers with a dash between |
| Cpus.HighestTops | src/cpus.rs:20-29 | the highest CPU of an accepted list is that of one of its parts, and no part has a higher one |
| Cpus.PartAccepted | src/cpus.rs:22-27 | a part is refused if and only if it is neither; a number stands for itself, and a range for its second number |
| Cpus.NumberAccepts | src/cpus.rs:22-27 | every decimal below 2^32, with a plus sign or without one, is read as its value, and any above is refused |
| Cpus.NumberRefuses | src/cpus.rs:22-27 | anything empty, or with any other character in it, is no number |
| Cpus.LeadingZero | src/cpus.rs:22-27 | zeros in front of a number change nothing |
| Cpus.SplitJoins | src/cpus.rs:21-21 | any string is its parts with the separator between them, and no part holds a separator |
| Cpus.Trimmed | src/cpus.rs:16-16 | trimming takes off exactly the white space at both ends |

## Left out

- Weak memory ordering: memory is sequentially consistent, an instruction is one step, and a membarrier is one kernel step.
- System calls, `mmap`, the auxiliary vector and the thread pointer: only their outcomes appear, as choices of the environment.
- Registration, `bind` and unregistration at thread exit: the area is registered while the thread runs operations.
- The signature word, descriptor layout and field offsets: facts of encoding. The descriptor is its range and abort point.
- Processor flags: only the outcome of the last compare is kept, and every conditional branch follows its compare directly.
- Faults: an access to an unmapped address is not a step; `Safety.NoFault` says when none happens.
- The fallback stubs for other targets, `node_id`, `cpu`, `slice_ctrl` and formatting: single-branch accessors.
- benches/cached.rs, the compare-and-swap baseline list and the thread-local variants: the first follows from atomicity, the others are baselines.
- UTF-8 decoding and white space beyond ASCII in the possible-CPU list: the contents are characters.
- Keys.KeyedRunRefines: a `load_if_ne` needs a fixed set of values for its word, all leading to words of its key; where nodes change lists, Keys.ApartRunRefines applies, and FreeList.FreeListRun discharges its condition for pops.
- Drain.Drained: other calls running at the same time may be anything but `fetch_add_at`, whose target is in memory, and must not name the two words.
- FreeList.FreeListRun: heads and `next` fields are changed by pushes and pops only and are set up before the run; a second set of lists that nodes move between is not among the other calls allowed.
- Conservation.Conserved: a `store_if` with a counted word on the side, and a `load_if_ne` on a counted word, replace its value by one that has nothing to do with it and are excluded.
- Clients.Add: an attempt is one atomic step, as Refinement.RunRefines justifies, on whatever memory it meets.
- Clients.StealAll: nobody else stores meanwhile; with others running, Schedules.DrainOrders says what can happen.
- Schedules.ExactIffKept: updaters increment with `compare_exchange_if` on counter and stop word; a plain `fetch_add` looks at no stop word.
- Attempts.LoopAttempts: the bound is per program; a handler's loop that interrupts another one is counted against the same moves.
- Membarriers.Membarrier.Fence: one caller at a time; two threads that meet the same refusal share one retry.
- Execution.Hart.Perform: others change memory only while the thread is away; threads running at the same time are the subject of Refinement.RunRefines.
- Slots.MappingCovers: `mmap` and `munmap` themselves, and the life time of a region.
