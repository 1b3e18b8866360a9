# Verified models of the non-blocking containers

This project models the algorithms of the container repository in Dafny and proves what they are for: that the
concurrent deques and queues behave like plain sequences, and that the memory management beneath them neither loses nor
hands out a block twice. `dafny verify dfyconfig.toml` checks everything.

## How the models are built

A concurrent algorithm is a *machine*: a state with the shared words, one program counter with local snapshots for each
thread, and a function that gives the state after one atomic load, store or compare-and-swap of one thread. The number of
threads is arbitrary. A *run* is any interleaving of enabled steps from the initial state, so a lemma about `Exec(s, run)` is
about every reachable state. Fields marked as history record what happened (effects, finished calls, positions in the list)
and never influence a step. An algorithm that is studied as whole calls is a class with the source's fields and loops, each
method proved against a function or a sequence.

For the deques, `DequeSpec` is the reference: `Replay` runs a list of pushes and pops on a sequence that
starts empty, and fails if a pop does not find its value at its own end; `Accounted` says that the effects of a thread are
exactly those of its finished calls, in order and with the answers they returned, plus the current call once it has taken
effect. Together they say that each call takes effect exactly once, between its start and its answer. Flat combining uses the
same effects, `Effect`, for each entry of its log. What a thread invokes is read from the run alone: the operations and arguments
that the run gives to its steps from `Idle`.

| files | what they model |
|---|---|
| `deque_spec` | the sequential deque, effects and calls |
| `of_heap`, `of_moves` | slots, buffers and the chain of `deque/OFDeque.hpp`; what each successful swap does to it |
| `of_machine`, `of_inv`, `of_steps`, `of_cross`, `of_empty`, `of_deque`, `of_calls` | the same deque under any number of threads, any oracle |
| `of_alone` | its obstruction-freedom |
| `of_tidy` | what follows if the words `casType` leaves are kept apart from the addresses of buffers |
| `of_search`, `of_found` | the search of `findEdge` from any local hints, and that it finds exactly the edge of the chain |
| `of_hints`, `of_ops` | the machine with global hints, where each oracle's answer is one of `findEdge`; whole operations placed in a run |
| `of_stale` | when empty answers are honest, exactly; the run in which one is not |
| `of_edge`, `of_solo` | the same deque run by one thread at a time: `findEdge`, hints, buffer caches, `retire` |
| `mm_machine`, `mm_inv`, `mm_stable`, `mm_steps`, `mm_own`, `mm_deque`, `mm_calls`, `mm_runs`, `mm_alone` | `deque/MMDeque.hpp` on top of `cpp_harness/HazardTracker.cpp`, with nodes that are freed and reused |
| `hz_tracker`, `counting` | the hazard tracker as a class, and its bound on garbage |
| `bp_machine`, `bp_pool` | `cpp_harness/BlockPool.hpp` under any number of threads |
| `fc_machine`, `fc_deque`, `fc_helps` | flat combining, `deque/FCDeque.hpp` |
| `wf_machine`, `wf_inv`, `wf_steps`, `wf_queue`, `wf_args` | the enqueue side of the wait-free queue |
| `wf_helps`, `wf_waits`, `wf_free` | its helping: who is helped, how long a helper tries, and the bound on the steps of a call |
| `dq_machine`, `dq_inv`, `dq_steps`, `dq_queue`, `dq_puts`, `dq_gets`, `dq_args`, `dq_alone`, `ring` | the distributed queue over Michael-Scott queues |
| `kf_spec`, `kf_queue` | the unbounded-size k-FIFO queue, whole calls |
| `ts_list`, `ts_world`, `ts_deque` | the timestamped deque, whole calls by any thread ids |

## Assumptions

- Memory is sequentially consistent; counters, tags, timestamps and addresses are unbounded integers.
- `compare_exchange_weak` may fail for no reason: the anchor swaps of MMDeque, and in the timestamped deque the swing of a list
  end and the swap of `taken`. The latter makes a pop scan again, so `failures` bounds how often it may still do so.
- `BufferSize` is any constant of at least 4. OFDeque and MMDeque may hold any value, also the one that marks an empty answer:
  an empty answer is `None` in the models.
- OFDeque is the instance without elimination.
- `casType` does not set the payload of the slot it writes. The models let any word appear there.
- In `of_hints` a search of the edge, and each update of a hint, is one step. Any steps of other threads may come between
  them, and a thread makes the updates that an operation owes before it goes on.
- The timestamped deque holds no value equal to its empty answer, as the source requires of its elements; the k-FIFO queue
  aborts on the value 0, which marks an empty slot.

## What the proofs say about the code

- **A stale payload can make `doPop` of OFDeque answer empty wrongly.** The check of the neighbour's back link
  (`deque/OFDeque.hpp:546`) compares the payload without looking at the type. `casType` leaves the payload unset, so a slot
  that is no link any more may still show the address of a buffer. Only one branch is affected: the near slot was read sealed,
  the neighbour's near value slot far-typed, and the word that line 546 compared came from a slot that is no link
  (`deque/OFDeque.hpp:546-552`). `OFDeque.HonestEmpty` shows, for each single answer of any run, that an answer which did not
  come through that branch is honest. Over all runs, `OFStale.HonestIff` gives the exact condition on what `casType` may
  leave: all empty answers are honest if and only if no word it leaves is an address that a buffer may have. The other half
  is a run for every `BufferSize` of at least 4 and any three addresses, in which the hints move as in the source and
  each oracle's answer is the one `findEdge` gives, whatever the local hints. Refinement needs no such condition.
- **A pop that removes a buffer may need a second pass even when it runs alone.** After its own unlink, `doPop` keeps the old
  link word in its copy of the far slot (`deque/OFDeque.hpp:577-582`) while `casType` stored an unset payload; the boundary pop
  that follows compares the whole slot. `OFSolo.OFDeque.DoPop` gives the exact condition, and `OFSolo.SecondPass` a deque in
  which it happens. A push makes a second pass exactly when it first has to remove a buffer that another thread sealed.
- **The scan of the hazard tracker passes over one block after each erasure** (`cpp_harness/HazardTracker.cpp:72-84`), yet a
  thread's list stays bounded, if and only if blocks are collected and the frequency is positive (`HazardTracker.BoundedIff`).
- **The enqueue of the wait-free queue is wait-free, with a quadratic bound.** One turn of the help loop concerns one enqueue
  only, because a call that begins after another has published its phase takes a later one; and a pass that fails for that
  enqueue is paid for by a link or a move of the tail, of which there are few before it is done (`WFFree.WaitFree`).
- **The lists of waiting poppers in `doCombining` are not emptied between rounds.** This is harmless because a second round
  never happens (`FCDeque.OneRound`).

## Model

| member | source | states |
|---|---|---|
| OFDeque.DequeRefined | deque/OFDeque.hpp:326-620 | In every run of any threads on both sides, with any oracle, the effects in order replay on a plain deque and end in the values of the chain, and each thread's effects are those of its calls: nothing is lost or duplicated |
| OFCalls.RefinesInvoked | deque/OFDeque.hpp:326-620 | The same, tied to what the callers asked for: the operations of each thread's finished and running calls are, in order, those that the run gives it to invoke |
| OFCalls.CallsAsInvoked | deque/OFDeque.hpp:326-620 | In every run, no call gets another operation than was invoked, none is dropped and none is made up |
| OFAlone.ObstructionFree | deque/OFDeque.hpp:326-620 | Obstruction-freedom, from every reachable state of any threads: a thread that runs alone from there, with an oracle that names the far edge, makes at most 45 steps before its call returns, and at most 30 if it is about to ask the oracle |
| OFAlone.RankFalls | deque/OFDeque.hpp:336-604 | Every step of such a thread brings the end nearer; a pass that began at the far edge ends the call, unless a push had to remove a buffer in it, or the removal by a pop left another word in the link slot than it held |
| OFDeque.StepRefines | deque/OFDeque.hpp:336-604 | First swaps, seals and unlinks leave the deque unchanged; each successful second swap of a push or pop adds or removes exactly one value at its own end, and the pop answers with it |
| OFDeque.StepInv | deque/OFDeque.hpp:326-620 | Every enabled step of every thread keeps the whole invariant: chain, snapshots, crossing pairs, account of calls |
| OFDeque.NeverBothComplete | deque/OFDeque.hpp:74-95 | Two operations that have each bumped the slot the other is about to swap: at most one of the two swaps can still succeed, in every reachable state |
| OFDeque.SingleBufferShape | deque/OFDeque.hpp:356-535 | With one buffer in the chain its slots read LEFT+ VALUE* RIGHT+, and the deque is the values in between |
| OFDeque.SealedForever | deque/OFDeque.hpp:559-584 | A sealed slot stays sealed in every continuation of the run, and its buffer never holds a value again |
| OFDeque.UnlinkedOnce | deque/OFDeque.hpp:569-584 | No buffer is unlinked twice; one that is unlinked was the last of the chain on that side, sealed and without values, and is out of the chain for good |
| OFDeque.NeverMutuallySealed | deque/OFDeque.hpp:549-567 | A buffer of the chain and one it links to, on either side, are never sealed against each other |
| OFDeque.LastEmptyInstant | deque/OFDeque.hpp:522-594 | The recorded instant of emptiness is one at which the deque was empty |
| OFDeque.HonestEmpty | deque/OFDeque.hpp:522-594 | In every run: a pop answers empty only if the deque was empty at some instant inside its own call, unless its own last test of the back link took the word of a slot that is no link, with the near slot sealed and the neighbour's value slot far-typed |
| OFTidy.NeverFooled | deque/OFDeque.hpp:537-557 | If no word that `casType` leaves is an address of a buffer, no test of a back link is ever taken in, in any run |
| OFStale.TidyHonest | deque/OFDeque.hpp:537-557 | Then every empty answer of every run, with any oracle, has an instant inside its call at which the deque was empty |
| OFStale.EmptyNotHonest | deque/OFDeque.hpp:82-87 | If some word it may leave is an address, there is a run from the initial state, with real hints and searches and any `BufferSize` of at least 4, in which a pop answers empty although the deque held a value at every instant of its call |
| OFStale.HonestIff | deque/OFDeque.hpp:537-557 | With at least three addresses for buffers: all empty answers of all runs are honest if and only if no word that `casType` may leave is one of them |
| OFHints.LegalRun | deque/OFDeque.hpp:622-637 | Every run with global hints, in which the oracle answers as `findEdge` does, is a run of the machine with an arbitrary oracle |
| OFHints.PlayRun | deque/OFDeque.hpp:326-620 | The steps of one thread without interference, placed in a run with hints: their joint effect, and that the deque is never empty meanwhile |
| OFSearch.FoundInside | deque/OFDeque.hpp:724-739 | `findEdge` finds the inner edge of the hinted buffer from every local hint |
| OFSearch.FoundBehind | deque/OFDeque.hpp:688-723 | In an empty buffer it goes back to the border of the buffer before it, from every local hint |
| OFSearch.FoundBehindSeal | deque/OFDeque.hpp:765-786 | In a buffer sealed from its own side it goes back in the same way |
| OFSearch.FoundAtSeal | deque/OFDeque.hpp:743-764 | In a buffer sealed from the other side it ends at the seal, or goes on in the buffer beyond |
| OFFound.FoundIff | deque/OFDeque.hpp:641-797 | On every well-formed chain, from a hint on any of its buffers: whatever the local hints, the search finds a place if and only if that is the far edge |
| OFMoves.BumpMove | deque/OFDeque.hpp:74-80 | A bump of a guard's counter keeps the chain and the contents |
| OFMoves.PushMove | deque/OFDeque.hpp:89-95 | A value put in a far-typed slot next to one that is neither far-typed nor sealed keeps the chain and is added at that end of the whole deque |
| OFMoves.PopMove | deque/OFDeque.hpp:82-87 | A value slot next to a far-typed one, made far-typed, keeps the chain and removes just that value at that end |
| OFMoves.AppendMove | deque/OFDeque.hpp:382-422 | Linking a prepared buffer to the last one keeps the chain and adds the prepared value at that end |
| OFMoves.SealMove | deque/OFDeque.hpp:549-567 | Sealing the empty neighbour of an unsealed buffer keeps the chain and the contents |
| OFMoves.UnlinkMove | deque/OFDeque.hpp:568-584 | Unlinking a sealed neighbour keeps the chain and the contents |
| OFMoves.EmptyInside | deque/OFDeque.hpp:520-526 | A near-typed slot next to a far-typed one means that the whole deque is empty |
| OFMoves.EmptyAcross | deque/OFDeque.hpp:549-557 | A near slot without a value and an empty neighbour mean that the whole deque is empty |
| OFCross.SafeKept | deque/OFDeque.hpp:372-604 | A successful second swap of one thread leaves what any other pending second swap relies on, unless it disables that swap |
| OFInv.PhaseStable | deque/OFDeque.hpp:326-620 | The snapshots and loads of a thread stay meaningful under every step of others |
| OFInv.LiveBack | deque/OFDeque.hpp:74-102 | A snapshot that fails to match now never matches again |
| OFEmpty.EmptyStable | deque/OFDeque.hpp:537-557 | What a pop has concluded about emptiness across a border survives every step of others, whatever words they leave |
| OFEdge.EdgeUnique | deque/OFDeque.hpp:641-797 | A chain has at most one far edge for each side |
| OFEdge.SealedEdge | deque/OFDeque.hpp:423-452 | The edge lies across a seal exactly when the last buffer is sealed |
| OFEdge.BorderMeansEmptyEnd | deque/OFDeque.hpp:660-687 | The edge lies across a border exactly when the last buffer is empty and has a buffer before it |
| OFEdge.AfterUnlink | deque/OFDeque.hpp:569-584 | After an unlink the last buffer is unsealed, and the removed one still leads to it |
| OFSolo.OFDeque.constructor | deque/OFDeque.hpp:272-281 | One buffer filled around the middle, an empty deque, both global hints on an unsealed buffer |
| OFSolo.OFDeque.CasSafe | deque/OFDeque.hpp:74-80 | Succeeds if and only if the whole slot is as expected; then only its counter moves |
| OFSolo.OFDeque.CasType | deque/OFDeque.hpp:82-87 | The same with a new type and an arbitrary word |
| OFSolo.OFDeque.CasValue | deque/OFDeque.hpp:89-95 | The same with a value |
| OFSolo.OFDeque.CasLink | deque/OFDeque.hpp:97-103 | The same with a link |
| OFSolo.OFDeque.AtFarLink | deque/OFDeque.hpp:660-687 | One iteration of the search at the far link: the far edge, a changed hint, or a place strictly nearer to it; with the hint unchanged it is the turn that `OFSearch.Look` describes |
| OFSolo.OFDeque.AtNearLink | deque/OFDeque.hpp:688-723 | The same at the near link |
| OFSolo.OFDeque.AtValue | deque/OFDeque.hpp:724-739 | The same at a value slot |
| OFSolo.OFDeque.AtSeal | deque/OFDeque.hpp:740-790 | The same at a sealed value slot |
| OFSolo.OFDeque.FindEdge | deque/OFDeque.hpp:641-797 | From any hinted buffer of the chain and any drifted local hint, terminates with the far edge, which the search from that buffer finds, or reports that the hint has changed |
| OFSolo.OFDeque.Oracle | deque/OFDeque.hpp:622-637 | Terminates with the current hint and the far edge |
| OFSolo.OFDeque.IsSealed | deque/OFDeque.hpp:916-936 | The sealed value slot, or -1 if and only if there is none |
| OFSolo.OFDeque.FindActiveBuffer | deque/OFDeque.hpp:857-894 | From a buffer of the chain, or one that was unlinked and still leads to it, terminates at an unsealed buffer of the chain |
| OFSolo.OFDeque.UpdateHint | deque/OFDeque.hpp:827-855 | Terminates with the hint on an unsealed buffer of the chain |
| OFSolo.OFDeque.Retire | deque/OFDeque.hpp:799-811 | Both hints are on unsealed buffers of the chain before the buffer is handed to the hazard tracker |
| OFSolo.OFDeque.PushInto | deque/OFDeque.hpp:372-445 | Interior and straddling push: the value is added at its end of the deque |
| OFSolo.OFDeque.AllocBuffer | deque/OFDeque.hpp:384-399 | A new buffer of far-typed slots in the cache, invisible to the deque |
| OFSolo.OFDeque.Prepare | deque/OFDeque.hpp:401-411 | The cached buffer holds the back link and the value, and nothing else has changed |
| OFSolo.OFDeque.Append | deque/OFDeque.hpp:382-422 | Append: the value is added at its end, and the hint moves to an unsealed buffer |
| OFSolo.OFDeque.PushAcross | deque/OFDeque.hpp:423-453 | Pushes into the empty neighbour, or removes it if it is sealed; it finishes the push if and only if there was no seal |
| OFSolo.OFDeque.PushAt | deque/OFDeque.hpp:345-454 | One pass of the push loop at the far edge pushes, unless the last buffer was sealed, and then it removes that buffer |
| OFSolo.OFDeque.DoPush | deque/OFDeque.hpp:326-469 | Adds the value at its end; one pass, or two exactly when the last buffer was sealed; both hints stay on unsealed buffers |
| OFSolo.OFDeque.Unlink | deque/OFDeque.hpp:569-584 | The sealed last buffer is removed and retired, the contents stay, both hints are on unsealed buffers |
| OFSolo.OFDeque.Seal | deque/OFDeque.hpp:559-567 | The empty neighbour is sealed and nothing else but the guard's counter moves |
| OFSolo.OFDeque.PopInside | deque/OFDeque.hpp:519-535 | At an inner edge a pop always answers, with the end of the deque or with empty if there is none |
| OFSolo.OFDeque.PopBoundary | deque/OFDeque.hpp:587-604 | The boundary pop answers if and only if its copy of the far slot is what the slot holds |
| OFSolo.OFDeque.UnlinkAndPop | deque/OFDeque.hpp:568-604 | After its own unlink the pop answers in the same pass if and only if `casType` happened to leave the old link word |
| OFSolo.OFDeque.PopAcross | deque/OFDeque.hpp:537-604 | Across a border: empty, or seal, unlink and pop, with the same condition |
| OFSolo.OFDeque.PopAt | deque/OFDeque.hpp:492-605 | One pass of the pop loop at the far edge: exactly when it answers, and what |
| OFSolo.OFDeque.DoPop | deque/OFDeque.hpp:471-620 | Answers the end of the deque and removes it, or None if and only if it is empty; two passes exactly when it had to remove the last buffer of a deque that is not empty and `casType` left another word than the old link, else one; both hints stay on unsealed buffers |
| OFSolo.SecondPass | deque/OFDeque.hpp:569-604 | There is a deque with an empty last buffer on which a lone pop does make two passes, for every word other than the old link |
| MMDeque.DequeRefined | deque/MMDeque.hpp:135-235 | In every run the successful pushes and pops in order replay on a plain deque and end in the data of the linked nodes; each call takes the effect of the operation it holds exactly once and answers accordingly (`MMCalls.CallsAsInvoked`: it holds the one invoked) |
| MMCalls.RefinesInvoked | deque/MMDeque.hpp:135-235 | The same, tied to what the callers asked for: the operations of each thread's finished and running calls are, in order, those that the run gives it to invoke |
| MMCalls.CallsAsInvoked | deque/MMDeque.hpp:135-235 | In every run, no call gets another operation than was invoked, none is dropped and none is made up |
| MMAlone.ObstructionFree | deque/MMDeque.hpp:135-308 | Obstruction-freedom, from every reachable state: a thread that runs alone from there, with no spurious failure, makes at most (r + 1)(h + 2) + 45 steps before its call returns, with r blocks on its retired list and h slots |
| MMAlone.MostIs | deque/MMDeque.hpp:135-308 | The closed form of that bound |
| MMAlone.RetireIsTracker | cpp_harness/HazardTracker.cpp:58-88 | Alone, the machine's `retire`, one slot at a time, does to list, counter and blocks what the tracker's specification does at frequency 3 |
| MMAlone.PushSettles | deque/MMDeque.hpp:140-156 | A push does not end with the anchor as it saw it and unstable, unless a swap failed for no reason or another thread mended the link in its place |
| MMRuns.SlotsCleared | deque/MMDeque.hpp:204-207 | In every run, when a pop answers with a value its thread has no reservation left |
| MMDeque.StepRefines | deque/MMDeque.hpp:135-235 | Each successful anchor swap of a push or pop is exactly one push or pop at that end, the pop of that end's data; no other step, stabilisation included, changes the deque |
| MMDeque.StepInv | deque/MMDeque.hpp:135-308 | Every enabled step keeps the whole invariant: list, links, owners of nodes, reservations, snapshots |
| MMRuns.HonestEmpty | deque/MMDeque.hpp:183-235 | In every run, a pop answers empty only if the deque was empty at an instant since which the thread has been in that very pop |
| MMDeque.NeverTouchesFreed | deque/MMDeque.hpp:193-279 | No step of any run reads or writes a node that is back in the pool, though nodes are freed and reused |
| MMRuns.ReservedUntilCleared | cpp_harness/HazardTracker.cpp:46-88 | From the step that validates a reservation until its slot is overwritten or cleared, the reserved node is never back in the pool, over any steps of all threads |
| MMDeque.ReservedNotFreed | cpp_harness/HazardTracker.cpp:46-88 | One step of that: a validated reservation keeps its node out of the pool under every step of other threads, although `empty` reads one slot at a time |
| MMDeque.LinksAgree | deque/MMDeque.hpp:262-308 | All neighbour links agree, except the one pointer to the end that the anchor's status names |
| MMDeque.SmallIsStable | deque/MMDeque.hpp:140-190 | A deque of at most one node is stable |
| MMDeque.LateSwapsAreCurrent | deque/MMDeque.hpp:262-308 | A delayed stabiliser's swap of a neighbour link succeeds only while the anchor it read is still current |
| MMDeque.StepLate | cpp_harness/ConcurrentPrimitives.hpp:194-199 | Every step of others either leaves the anchor a stabiliser read or makes its counted link snapshot stale |
| MMSteps.PushGood | deque/MMDeque.hpp:140-156 | A successful push swap keeps the list and all other owners |
| MMSteps.PopGood | deque/MMDeque.hpp:187-203 | A successful pop swap keeps the list and makes the thread sole owner of the removed node |
| MMSteps.FreeGood | cpp_harness/HazardTracker.cpp:70-88 | A block is freed only after every slot was seen without it, and then no validated reservation names it |
| MMSteps.RepairGood | deque/MMDeque.hpp:277-282 | The swap of the neighbour link by a stabiliser keeps the list and mends the one link that may be wrong |
| HazardTracker.ScanSplits | cpp_harness/HazardTracker.cpp:70-88 | Each retired block is kept or freed exactly once, and only blocks in no slot are freed |
| HazardTracker.ScanExact | cpp_harness/HazardTracker.cpp:70-88 | Exactly which: a block is freed if and only if it is in no slot and the block before it was not freed; freed and kept blocks keep their order |
| HazardTracker.RunConserves | cpp_harness/HazardTracker.cpp:58-88 | Over any calls: list and freed blocks together are, as a multiset, the pointers retired; the last call frees only blocks in no slot during it, after those freed before, exactly those of the scan if the counter has met the frequency and none otherwise |
| HazardTracker.RunCounts | cpp_harness/HazardTracker.cpp:62-67 | The counter after any calls: it runs up to the frequency, and from then on in a circle from 1 |
| HazardTracker.ScanHalves | cpp_harness/HazardTracker.cpp:70-88 | A scan leaves at most half of the list plus half of the slots, although it skips one block after each it frees |
| HazardTracker.RetireBounded | cpp_harness/HazardTracker.cpp:58-68 | One call keeps the list within its room between two scans |
| HazardTracker.RunBounded | cpp_harness/HazardTracker.cpp:58-88 | After any calls, with slots fixed during each scan, the list has at most task_num*slotsPerThread + 2*freq blocks |
| HazardTracker.RunGrows | cpp_harness/HazardTracker.cpp:58-68 | Without collection, or with a frequency that is not positive, it grows with every call |
| HazardTracker.BoundedIff | cpp_harness/HazardTracker.cpp:58-88 | The bound holds for all sequences of calls if and only if blocks are collected and the frequency is positive |
| HazardTracker.Tracker.constructor | cpp_harness/HazardTracker.cpp:28-44 | No reservations, empty lists, counters at zero |
| HazardTracker.Tracker.Danger | cpp_harness/HazardTracker.cpp:75-80 | True if and only if the block is in some slot |
| HazardTracker.Tracker.Empty | cpp_harness/HazardTracker.cpp:70-88 | The loop computes the scan function on the caller's list and touches no other list |
| HazardTracker.Tracker.Retire | cpp_harness/HazardTracker.cpp:58-68 | No block is lost or made up; a call that does not scan appends the pointer and frees nothing; one that scans frees exactly the blocks of `ScanExact`, none of them in a slot; earlier frees and other threads' lists stay |
| HazardTracker.Tracker.Reserve | cpp_harness/HazardTracker.cpp:46-48 | Exactly the one slot changes |
| HazardTracker.Tracker.ClearAll | cpp_harness/HazardTracker.cpp:52-56 | Exactly the caller's slots become empty |
| BPPool.Conservation | cpp_harness/BlockPool.hpp:46-223 | In every run each block ever made is with a client, in exactly one local list or in exactly one group; `count` is the length of the local list, `nth` its (GROUP_SIZE+1)-th node from the bottom exactly when there is one, and every group has GROUP_SIZE blocks |
| BPPool.StepClients | cpp_harness/BlockPool.hpp:142-223 | A step hands out at most one block, which no client held; only `free` takes one from a client |
| BPPool.StepInv | cpp_harness/BlockPool.hpp:142-223 | Every enabled step keeps the invariant; the counted pointer makes a delayed swap of the pool harmless |
| BPPool.PopKeeps | cpp_harness/BlockPool.hpp:147-154 | Taking the top of the local list keeps the invariant |
| BPPool.AppendKeeps | cpp_harness/BlockPool.hpp:128-179 | A zeroed array of blocks becomes a proper local list |
| BPPool.TakeKeeps | cpp_harness/BlockPool.hpp:158-166 | Taking the top group keeps the invariant, with the `next_group` word read before the swap |
| BPPool.PushKeeps | cpp_harness/BlockPool.hpp:190-203 | Returning a block keeps the invariant |
| BPPool.StoreKeeps | cpp_harness/BlockPool.hpp:206-212 | Preparing the link of a group not yet published keeps the invariant |
| BPPool.GiveKeeps | cpp_harness/BlockPool.hpp:204-222 | Giving the lower half of a list away as a group keeps the invariant |
| FCDeque.Linearizable | deque/FCDeque.hpp:135-290 | In every run the operations in the order of the combiners take a plain deque, one push or pop at their own end after the other and with those very answers, from empty to its contents; a pop answers EMPTY if and only if it finds nothing; each thread's applied operations are its finished calls plus the current one once applied |
| FCDeque.CallsAsInvoked | deque/FCDeque.hpp:135-223 | In every run, the operations of each thread's finished and running calls are, in order, those that the run gives it to invoke |
| FCDeque.StepServes | deque/FCDeque.hpp:227-288 | A step applies nothing, or the one operation of a call that is published, not COMPLETE and not applied before: the deque gains or loses just that value at that end, with the answer that is logged |
| FCHelps.RoundServesAll | deque/FCDeque.hpp:226-290 | Helping, in every run: when a combiner comes to unlock, every call that was published and not yet applied when it took the lock has been applied |
| FCHelps.RoundEnds | deque/FCDeque.hpp:226-290 | From taking the lock on, a combiner makes at most 4n + 2 steps before it unlocks, with n threads, whatever the others do |
| FCHelps.ReturnsAlone | deque/FCDeque.hpp:135-223 | A thread that runs alone while the lock is free makes at most 4n + 10 steps before its call returns |
| FCDeque.OneRound | deque/FCDeque.hpp:226-290 | One thread combines at a time, in one round only, and its own request is COMPLETE when it unlocks |
| FCDeque.StepInv | deque/FCDeque.hpp:135-290 | Every step keeps the invariant that ties requests, waiting lists and the log together |
| FCDeque.ScanKeeps | deque/FCDeque.hpp:239-264 | The scan lists waiting poppers only, each once, while others publish |
| FCDeque.ServeKeeps | deque/FCDeque.hpp:266-288 | Serving a popper removes the value at that end and records it as the answer to be stored, or EMPTY if there is none, and keeps the invariant |
| WFQueue.ExactlyOnce | deque/scal-master/src/datastructures/wf_queue_ppopp11.h:140-235 | However many helpers run: an enqueue that has returned has its node in the queue at exactly one place, and every node in the queue belongs to one call (its item: `WFArgs.QueueHoldsArguments`) |
| WFArgs.QueueHoldsArguments | deque/scal-master/src/datastructures/wf_queue_ppopp11.h:175-206 | In every run, the arguments that a thread has passed to `enqueue`, as the run gives them, are in the order of its calls the items of its nodes in the order of the queue, and then that of its running call if its node is not in the queue yet |
| WFQueue.LinkedOnce | deque/scal-master/src/datastructures/wf_queue_ppopp11.h:191-235 | The list has no repetition, the tail is at its last node or the one before, and a descriptor is not pending only if its node is linked |
| WFQueue.StepLinks | deque/scal-master/src/datastructures/wf_queue_ppopp11.h:191-210 | A step leaves the queue as it was, or appends one node, that of a running call, which was not in it, with its item |
| WFQueue.LinkTarget | deque/scal-master/src/datastructures/wf_queue_ppopp11.h:195-206 | A link swap that succeeds links the node of a pending enqueue that no helper has linked |
| WFQueue.SettleKeeps | deque/scal-master/src/datastructures/wf_queue_ppopp11.h:220-230 | The swap that ends the pending state concerns a linked node, the one its owner's descriptor names; afterwards that descriptor has the same phase and node and is not pending; the invariant is kept |
| WFQueue.SwingKeeps | deque/scal-master/src/datastructures/wf_queue_ppopp11.h:231-232 | The tail moves to a linked node that it had not passed and whose descriptor is no longer pending; the invariant is kept |
| WFQueue.ReturnPassed | deque/scal-master/src/datastructures/wf_queue_ppopp11.h:175-235 | A call returns only after the tail has passed its node |
| WFQueue.RealTimeOrder | deque/scal-master/src/datastructures/wf_queue_ppopp11.h:175-189 | An enqueue that returned before another published its node lies before it in the queue |
| WFHelps.ReturnHelps | deque/scal-master/src/datastructures/wf_queue_ppopp11.h:158-189 | Helping, in every run: an enqueue returns only after every enqueue is linked whose node was published before it began |
| WFHelps.BoundedOvertaking | deque/scal-master/src/datastructures/wf_queue_ppopp11.h:140-189 | In every run, before the place of an enqueue in the list, or in the whole list while it is not linked, there are at most two nodes of each thread that were published later |
| WFWaits.BoundedPasses | deque/scal-master/src/datastructures/wf_queue_ppopp11.h:191-216 | In every run, a thread makes at most 6n+4 passes of the loop of `help_enqueue` for one and the same enqueue, with n threads |
| WFFree.WaitFree | deque/scal-master/src/datastructures/wf_queue_ppopp11.h:140-235 | Wait-freedom, in every run: a thread makes at most 102n^2+72n+19 steps in one call of `enqueue`, with n threads, however the others run |
| WFFree.OtherCall | deque/scal-master/src/datastructures/wf_queue_ppopp11.h:140-189 | What a helper knows in one turn of the help loop survives every step of others: the thread helped is still in the enqueue that was met, or begins its next one later and with a phase that this call does not help |
| WFQueue.StepInv | deque/scal-master/src/datastructures/wf_queue_ppopp11.h:140-235 | Every step of every thread keeps the invariant of list, descriptors and snapshots |
| DQQueue.HonestEmpty | deque/scal-master/src/datastructures/distributed_queue.h:59-94 | `get` returns false only if at one instant inside the call every backend had its head equal to its tail, and no contents |
| DQQueue.StepEffect | deque/scal-master/src/datastructures/ms_queue.h:90-235 | A step does to every backend nothing, one append at the back, or one removal of the front value, which is the answer of the step's own call |
| DQArgs.PutsAsInvoked | deque/scal-master/src/datastructures/distributed_queue.h:52-56 | In every run, the items that a thread has put with an index that falls to a backend, as the run gives them, are in the order of its calls the items of its nodes in that backend, and then that of its running put if its node is not in it yet |
| DQArgs.AllEntered | deque/scal-master/src/datastructures/ms_queue.h:90-110 | When a thread is in no call, the tail of each backend has reached all its nodes there |
| DQArgs.LatestIs | deque/scal-master/src/datastructures/distributed_queue.h:52-94 | The operation of a running call is the latest that the run gave the thread to invoke |
| DQArgs.GetBegins | deque/scal-master/src/datastructures/distributed_queue.h:68-79 | A get begins at the backend that the balancer names |
| DQAlone.ObstructionFree | deque/scal-master/src/datastructures/distributed_queue.h:52-94 | From every reachable state: a thread in a put or get that runs alone from there makes at most 32n + 5 steps before its call returns, with n backends |
| DQPuts.PutsEnterOnce | deque/scal-master/src/datastructures/distributed_queue.h:52-56 | In every run: a put that returns has the item of its operation in the backend it was balanced to (`DQArgs.LatestIs`: the operation is the one invoked), no node is in the backends twice, and every node in a backend beyond its sentinel is that of one put, running or entered |
| DQGets.GetsTakeOnce | deque/scal-master/src/datastructures/ms_queue.h:208-235 | In every run: no node is taken twice, the nodes taken are those that the heads have passed, each taking has the item of its node, and the items a thread has taken are in order the answers of its gets, plus the one about to return |
| DQPuts.AppendsPut | deque/scal-master/src/datastructures/ms_queue.h:90-110 | The value an advancing tail adds is the item of a running put that was not in its backend before |
| DQQueue.PutVisible | deque/scal-master/src/datastructures/ms_queue.h:99-102 | When an enqueue returns, the tail has reached its node, whoever moved it |
| DQQueue.RunInv | deque/scal-master/src/datastructures/distributed_queue.h:59-94 | The invariant holds in every run, and the recorded instant of emptiness is one |
| DQSteps.SecondPass | deque/scal-master/src/datastructures/distributed_queue.h:73-83 | When the first pass ends without an item, either all backends are empty at this instant or some tail has moved beyond its collected tag |
| DQSteps.CollectKeeps | deque/scal-master/src/datastructures/distributed_queue.h:73-79 | A backend found empty has its tag collected consistently |
| DQSteps.RecheckKeeps | deque/scal-master/src/datastructures/distributed_queue.h:83-92 | The second pass goes on while no tail has moved and ends with false after the last backend; where a tail has moved it begins again, at that backend |
| DQSteps.LinkKeeps | deque/scal-master/src/datastructures/ms_queue.h:96-99 | Linking a node behind the last one keeps the list |
| DQSteps.SwingKeeps | deque/scal-master/src/datastructures/ms_queue.h:99-104 | Moving the tail, by the owner or a helper, keeps the list |
| DQSteps.TakeKeeps | deque/scal-master/src/datastructures/ms_queue.h:225-231 | Moving the head keeps the list |
| KFifoSpec.Arrive | deque/scal-master/src/datastructures/unboundedsize_kfifo.h:273-310 | An item put in any empty slot of the last row keeps the rows in order and the overtaking bound |
| KFifoSpec.Leave | deque/scal-master/src/datastructures/unboundedsize_kfifo.h:240-269 | An item taken from any slot of the first row, once that row takes no more items, was one of the k oldest, and nobody has been overtaken k times |
| KFifoSpec.LateCounts | deque/scal-master/src/datastructures/unboundedsize_kfifo.h:240-310 | The overtaking count is the number of dequeues by which a later item left first |
| KFifoSpec.NewRow | deque/scal-master/src/datastructures/unboundedsize_kfifo.h:154-175 | A new last row keeps rows and bound |
| KFifoSpec.DropRow | deque/scal-master/src/datastructures/unboundedsize_kfifo.h:129-150 | Dropping an exhausted first row keeps rows and bound |
| KFifoSpec.NothingLeft | deque/scal-master/src/datastructures/unboundedsize_kfifo.h:240-269 | A single row without items means that no item is present |
| KFifoQueue.UnboundedSizeKFifo.constructor | deque/scal-master/src/datastructures/unboundedsize_kfifo.h:120-125 | One empty segment, nothing arrived |
| KFifoQueue.UnboundedSizeKFifo.FindIndex | deque/scal-master/src/datastructures/unboundedsize_kfifo.h:179-195 | From any starting slot: a slot of the wanted kind with its contents, or none if and only if there is none |
| KFifoQueue.UnboundedSizeKFifo.AdvanceTail | deque/scal-master/src/datastructures/unboundedsize_kfifo.h:154-175 | One blank segment more at the tail, all else as before |
| KFifoQueue.UnboundedSizeKFifo.AdvanceHead | deque/scal-master/src/datastructures/unboundedsize_kfifo.h:129-150 | The exhausted first segment goes, unless it is the last |
| KFifoQueue.UnboundedSizeKFifo.Dequeue | deque/scal-master/src/datastructures/unboundedsize_kfifo.h:240-269 | Returns one of the k oldest items present, or false only if there is none; no item is ever overtaken by more than k-1 later ones |
| KFifoQueue.UnboundedSizeKFifo.Enqueue | deque/scal-master/src/datastructures/unboundedsize_kfifo.h:273-310 | Terminates with the item in the queue and the overtaking bound kept |
| TSList.InsertOk | deque/scal-master/src/datastructures/ts_deque_buffer.h:305-407 | Inserting at an end keeps both walks over the list, its order and its live items |
| TSList.RemoveOk | deque/scal-master/src/datastructures/ts_deque_buffer.h:568-573 | Taking the live item at an end keeps them, whether or not the end pointer is swung |
| TSList.Mirror | deque/scal-master/src/datastructures/ts_deque_buffer.h:420-451 | For two items that are no sentinels (index not 0), the first is more to the right exactly when the second is more to the left |
| TSWorld.EndsMeet | deque/scal-master/src/datastructures/ts_deque_buffer.h:305-451 | The item at an end of the deque is at that end of its own thread's list |
| TSWorld.Winner | deque/scal-master/src/datastructures/ts_deque_buffer.h:453-562 | A candidate that beats the end of every list is the item at that end of the deque; without one the deque is empty |
| TSWorld.PushWorld | deque/scal-master/src/datastructures/ts_deque.h:50-64 | Insertion side and timestamp order all live items as the deque does: a new item with the latest timestamp comes at its end |
| TSWorld.PopWorld | deque/scal-master/src/datastructures/ts_deque_buffer.h:568-575 | Taking an end item keeps that order over all lists |
| TSDeque.Deque.constructor | deque/scal-master/src/datastructures/ts_deque_buffer.h:185-270 | Sentinels in every list, an empty deque |
| TSDeque.Deque.GetItem | deque/scal-master/src/datastructures/ts_deque_buffer.h:110-181 | The walk stops with the first live item from that end, or with none if and only if the list has none |
| TSDeque.Deque.FindBase | deque/scal-master/src/datastructures/ts_deque_buffer.h:313-325 | The first live item, or the far end of a list whose items are all taken |
| TSDeque.Deque.Insert | deque/scal-master/src/datastructures/ts_deque_buffer.h:305-407 | The stores of an insertion, with the exact new list and end pointers |
| TSDeque.Deque.InsertNow | deque/scal-master/src/datastructures/ts_timestamp.h:220-222 | The item ends up with the clock's value as its timestamp, and the clock moves on |
| TSDeque.Deque.Push | deque/scal-master/src/datastructures/ts_deque.h:50-64 | By any thread, on either side: the element is added at that end of the one deque |
| TSDeque.Deque.Recheck | deque/scal-master/src/datastructures/ts_deque_buffer.h:544-560 | Both end pointers are as remembered, and are remembered afterwards |
| TSDeque.Deque.Visit | deque/scal-master/src/datastructures/ts_deque_buffer.h:485-562 | One list's turn: the candidate beats this list and all that the old one beat |
| TSDeque.Deque.Scan | deque/scal-master/src/datastructures/ts_deque_buffer.h:453-562 | From any starting list: the item at the end of the deque, or none with an exact verdict on whether any end pointer had changed |
| TSDeque.Deque.Take | deque/scal-master/src/datastructures/ts_deque_buffer.h:568-575 | Once its swap of `taken` has succeeded, the item leaves the deque at its end and its element is the answer |
| TSDeque.Deque.TryRemove | deque/scal-master/src/datastructures/ts_deque_buffer.h:453-698 | One scan removes the end of the deque; if the swap of `taken` fails for no reason it changes nothing and asks for another scan; if there is nothing it asks for one if and only if an end pointer had changed |
| TSDeque.Deque.Pop | deque/scal-master/src/datastructures/ts_deque.h:66-94 | Answers what a plain deque answers; one scan, or two exactly when the deque is empty and an end pointer has changed since this thread last saw it, and one more for each swap of `taken` that failed for no reason |
| TSDeque.SecondScan | deque/scal-master/src/datastructures/ts_deque.h:66-94 | The first pop of an empty deque by a thread does make two scans, unless what it remembers already looks like the first end pointer |

## Left out

- OFStale.HonestIff: needs room for three buffers; with fewer addresses only the half that `OFStale.TidyHonest` states is proved.
- OFHints.LegalRun: a search and a hint update are single steps, and `updateHint` always updates, so runs in which `findEdge` sees other threads move, or `updateHint` finds its work done, are covered by the arbitrary oracle of `OFDeque` only.
- OFDeque.DequeRefined: the hazard reservations of buffers and the local hints as fields are not part of the concurrent model, and buffers are not reused.
- OFAlone.ObstructionFree: an oracle's answer is one step; that `findEdge`, running alone, finds exactly the far edge is `OFFound.FoundIff` and `OFSolo.OFDeque.FindEdge`.
- OFSolo.OFDeque.FindEdge: alone, a hint cannot change between reservation and use, so the repeated loads of `reserveHint` and `isSealed` are single loads, and hazard reservations are left out.
- OFSolo.OFDeque.AllocBuffer: buffers have fresh addresses; those handed to the hazard tracker are not allocated again.
- BPPool.Conservation: the mode that uses the C library's allocator is not modelled.
- FCHelps.RoundServesAll: that some thread comes to take the lock is a matter of the scheduler and is not stated.
- WFQueue.ExactlyOnce: the dequeue side and the reuse of nodes and descriptors are not modelled.
- WFFree.WaitFree: the bound is not meant to be the least one; a step is one atomic access as in `wf_machine`, so the fixed number of other instructions between two of them is not counted.
- DQQueue.HonestEmpty: the variants `GET_TRY_LOCAL_FIRST`, `NON_LINEARIZABLE_EMPTY` and `LOCALLY_LINEARIZABLE`, and `try_enqueue`, `try_dequeue` and `empty` of the Michael-Scott queue are not modelled; nodes are not reused.
- KFifoQueue.UnboundedSizeKFifo.Dequeue: whole calls only, so the branches for a segment removed meanwhile and for a lagging tail do not occur.
- KFifoQueue.UnboundedSizeKFifo.Enqueue: the same.
- HazardTracker.RunBounded: incrementing an iterator that `erase` returned as `end()` is undefined in C++ and is modelled as the end of the scan; `clearSlot` is not modelled.
- TSDeque.Deque.Pop: whole calls only, so the elimination shortcuts for items stamped after the pop began do not occur; interval and hardware timestamps and the reuse of items are not modelled.
- `deque/ElimTable.hpp`: elimination is switched off; its exchange tests for another state than the one it is written for.
- `deque/WSDeque.hpp`, `lcrq`, `wf_queue_ppopp12.h`: not modelled.
- The timestamped stacks and queues, the k-stack, the bounded k-FIFO queue and the dynamic distributed queue: variants of what is modelled.
- Memory orders, padding, pointers packed in 32 bits and counters that wrap around.
- The test harness, locked deques and queues, utilities and glue code.
