# Verification of the task dispatcher

The task dispatcher runs tasks on worker threads that switch between fibers. A fiber that waits
for a counter leaves its thread and is resumed when the counter reaches the awaited value. This
project models the concurrent machinery behind that and proves what it keeps in every run:

- **The scheduler's fiber hand-off and wait/wake protocol** (`SchedulerCore`, `FiberHandOff`,
  `SchedulerInv`, `SchedulerProof`, `SchedulerTheorems`, `SchedulerHazards`). A transition system
  with one atomic access per step and any number of threads, fibers, counters and waiting slots.
  `SchedulerCalls` and `WaitOutcomes` follow a wait from its call to its end.
- **Tasks on top of it** (`TaskLayer`, `TaskLayerInv`, `TaskTheorems`, `TaskOutcomes`,
  `TaskHazards`): submission, execution, the decrement of the counter, and acquiring and releasing counters access by access;
  every step projects to at most one protocol step.
- **Handing out counters** (`CounterPool`, `CounterPoolCalls`, `CounterPoolHazards`): the free queue, the handle pool and their interleavings.
- **The growing and shrinking Chase-Lev deque with reclamation** (`ChaseLev`, `ChaseLevInv`,
  `ChaseLevTheorems`, `ChaseLevCalls`), and the same deque as an object (`DequeObject`).
- **The bounded MPMC queue** (`MpmcProtocol`, `MpmcTheorems`, `MpmcCalls`), and as objects that queue and the
  ring of pinned resumable fibers (`RingQueues`).
- **A counter with its waiting slots as an object** (`CounterObject`), **stealing tasks**
  (`WorkStealing`), **partitioning ranges into batches** (`Batches`) and **versioned handles**
  (`VersionRing`).

Memory is sequentially consistent. An invariant `Inv` is proved inductive for each machine, and
theorems are stated either of every state of every run or of all states with `Inv`, which include
those. State fields marked as history are read by no guard and by no program variable. The deques
are used for tasks only when `gc_use_workstealing` (`scheduler.cc:38`) is set; the task layer has
the single task queue that is used otherwise.

## Hypotheses

The code relies on the following and does not enforce it. Each is a predicate of the model, and it
is proved what happens without it.

- **H1** (`SchedulerCore.SlotQuiet`): a waiting slot is taken again only when its previous occupant
  has looked at the count and the slot for the last time, and no checker that found the slot open
  is about to compare its target or to claim it. Without the first half a wait is resolved twice
  and another is lost (`SchedulerHazards.WithoutH1WaitsBreak`); without the second half a checker
  resolves a wait for a value its fiber does not wait for
  (`SchedulerHazards.StaleCheckerResolvesWrongWait`). Each forbidden point is reached by a run that
  respects H1 and H2 up to there.
- **H2** (`SchedulerCore.CounterQuiet`): a counter is reset only while all its waiting slots are
  free. Scans of it may be under way, and woken fibers may still be leaving. Without H2 a wait is
  forgotten (`SchedulerHazards.WithoutH2WaitIsForgotten`).
- **H3** (`TaskLayer.NoneMisled`), for "wait means done" only: nothing is added to a counter while a
  thread acts on its being 0, that is, while a waiter has seen 0 and not returned yet or a scan for
  waits for 0 is under way. Ordinary use violates H3: `SchedulerHazards.OutdatedScanWakesTooEarly`
  is a run in which one fiber submits twice on a counter and then waits, and is woken with the
  second task outstanding; acquiring the counter anew during the old scan does not help
  (`SchedulerHazards.ResetDuringScanWakesTooEarly`).
- **H4**: a handle is released at most once (`TaskLayer.ReleasesOnce`, `CounterPool.Disciplined`), and
  a counter used for tasks is released through `releaseCounterIfOnTarget(c, 0)`
  (`TaskLayer.OnTargetZero`). Without the first half its index ends up in the free queue twice
  (`CounterPoolHazards.WithoutH4CounterIsDuplicated`); without the second half the next use of the
  counter forgets tasks (`TaskHazards.WithoutH4ConservationBreaks`).
- **H5** (`TaskLayer.NoOverlap`): no submission on a handle overlaps its release. The count that
  `releaseCounterIfOnTarget` loads (`scheduler.cc:422`) may have changed when it releases the handle
  (line 428), and a submission may hold the index it read (line 685) for longer than the handle
  lives. Without H5 the next use of the counter forgets tasks
  (`TaskHazards.WithoutH5ConservationBreaks`).

Where fibers are needs none of these. Counter conservation needs H4 and H5 only, and of them only
this: whenever a handle is dropped, its count is 0 and no submission has the handle in its hands
(`TaskLayer.Settled`); across a reset it survives exactly if the count is 0
(`TaskHazards.ResetConservesExactly`). Callers can observe neither that nor H3, but a discipline they
can keep implies both (`TaskTheorems.Careful`, `TaskTheorems.CarefulRunIsHonest`): H4, H5, nothing
more is submitted on a counter that has returned to 0 until it is acquired again, its first
submission does not overlap with a wait, and it is not reset while a scan of it is under way.

## Where the code does less than it says

- The comment at `scheduler.cc:633` says that enqueuing a resumable fiber never fails because the
  queue is large enough. There is always room (`SchedulerTheorems.QueuesHaveRoom`), but an MPMC
  enqueue can answer "full" even on an empty queue while a dequeuer is between its CAS and its
  release of the cell (`MpmcTheorems.FullAnswerFromAnEmptyQueue`). The same holds for the unchecked
  enqueues at `scheduler.cc:454` and `scheduler.cc:517`, which would then lose a fiber.
- `Deque::steal` reads the slot after its CAS and can return an element pushed later
  (`ChaseLevTheorems.DelayedReadCanMiss`); when it cannot is stated by `LateReadIsRight`, and exactly
  when it does by `DelayedReadIsExact`.
- `releaseCounterIfOnTarget` can release a counter that is no longer on target (H5).
- `submit_batched` computes wrong ranges exactly when the number of batches times the batch size
  reaches 2^32, and divides by zero for an empty range (`Batches.SubmitBatched`).
- `VersionRing` handles look fresh again after 2^32 acquires
  (`VersionRing.ExpiryCorrectExactly`, `VersionRing.HandleFromTheLastPeriod`).

## Model

| member | source | states |
|---|---|---|
| SchedulerInv.InitInv | src/task-dispatcher/scheduler.cc:758-830 | the start state, in which every thread runs its own fiber and the rest are idle, satisfies the invariant |
| SchedulerProof.StepInv | src/task-dispatcher/scheduler.cc:434-737 | every step of every thread that respects H1 and H2 keeps the invariant of threads, fibers, slots, queues and pending wakes |
| SchedulerProof.RunInv | src/task-dispatcher/scheduler.cc:434-737 | the invariant holds in every state of every such run |
| FiberHandOff.StepHandOff | src/task-dispatcher/scheduler.cc:434-554 | every step of every thread, H1 and H2 or not, keeps the invariant of who runs, leaves, draws or resumes which fiber |
| FiberHandOff.FiberAtOnePlace | src/task-dispatcher/scheduler.cc:434-465 | a fiber is always exactly one of: idle, in transit to one thread, current on one thread, awaiting clean-up on one thread, parked with is_waiting_cleaned_up set |
| FiberHandOff.FibersPlacedInEveryRun | src/task-dispatcher/scheduler.cc:434-737 | this holds of every fiber in every state of every run of the code |
| FiberHandOff.SwitchEntersFreeStack | src/task-dispatcher/scheduler.cc:533-554 | the fiber a thread is about to switch to is neither current on a thread nor awaiting clean-up, so no stack in use is entered |
| SchedulerTheorems.ExactlyOneToken | src/task-dispatcher/scheduler.cc:562-650 | a parked fiber has exactly one wake token (open slot, claiming checker, queue entry or holder); no fiber has two, and one that runs task code has none |
| SchedulerTheorems.QueuesHaveRoom | src/task-dispatcher/scheduler.cc:628-634 | idle plus resumable entries never exceed the number of fibers, strictly so whenever one is about to be enqueued |
| SchedulerTheorems.NoLostWake | src/task-dispatcher/scheduler.cc:556-662 | if the count equals the target of an unclaimed wait past its own look at the count, an updater that produced this value is still scanning at or before its slot |
| SchedulerTheorems.QuietCounterHasNoMetWaiter | src/task-dispatcher/scheduler.cc:598-662 | with no update of the counter in flight, no unclaimed committed waiter has its target met |
| SchedulerTheorems.TokenMoves | src/task-dispatcher/scheduler.cc:472-653 | registering, returning early, a checker's claim and its enqueue, a dequeue, a put-back and a resumption are the only steps that move a fiber's wake token, each from and to one definite place |
| SchedulerTheorems.Balance | src/task-dispatcher/scheduler.cc:556-662 | over every run, registrations equal early returns plus wakes plus the open registration, and wakes equal resumptions plus the wake on its way |
| SchedulerTheorems.ResolvedExactlyOnce | src/task-dispatcher/scheduler.cc:562-650 | over every run a wait is resolved at most once, by its early return or by one checker, and a fiber is resumed at most once per wake |
| SchedulerTheorems.WokenForItsTarget | src/task-dispatcher/scheduler.cc:613-621 | a checker that claims a slot does so with exactly the value its fiber waits for |
| SchedulerCalls.WaitsAreRegisteredAsCalled | src/task-dispatcher/scheduler.cc:706-719 | over every run, the counter, target and pinning that a fiber passed to its latest wait are those of its own registration and of the slot open for it, and only the calling thread is about to switch to it if it was pinned |
| WaitOutcomes.NeverStuckInRuns | src/task-dispatcher/scheduler.cc:467-653 | in every state of every run a thread's next step is possible, except that a waiter panics once it has found all slots of its counter taken, and that it spins for an idle fiber |
| WaitOutcomes.PassedSlotsWereTaken | src/task-dispatcher/scheduler.cc:558-564 | a waiter that has come to a slot has, within this wait, found every lower one taken at its own CAS on it |
| WaitOutcomes.RegistersWhereFree | src/task-dispatcher/scheduler.cc:560-569 | a waiter that comes to a free slot takes that one and no other |
| WaitOutcomes.WaitEndsResolved | src/task-dispatcher/scheduler.cc:706-737 | over every run, a fiber that called wait and is back in task code has had that wait resolved in between, by its early return or one checker, for exactly the counter and the target it passed |
| WaitOutcomes.ResolvedForACountThatWas | src/task-dispatcher/scheduler.cc:571-620 | the counter had the awaited value at some moment before the resolution, and within the wait itself if it returned early |
| SchedulerTheorems.SafeInEveryRun | src/task-dispatcher/scheduler.cc:434-737 | in every state of every run that respects H1 and H2: every fiber in one place, wake tokens as above, no wait with a met target forgotten, and room in the fiber queues |
| SchedulerHazards.StaleOccupantBreaksWaits | src/task-dispatcher/scheduler.cc:572-590 | from every state with an occupant still looking at its freed slot and a new waiter for the value it compares, or for any value once it has compared, the code resolves the first wait twice and leaves the second without any token |
| SchedulerHazards.StaleOccupantIsReachable | src/task-dispatcher/scheduler.cc:556-653 | a run that respects H1 and H2 leads to such a state, for each of the four points where H1 forbids an occupant |
| SchedulerHazards.WithoutH1WaitsBreak | src/task-dispatcher/scheduler.cc:556-653 | hence exactly-once resolution fails for the code without H1 |
| SchedulerHazards.StaleCheckerResolvesWrongWait | src/task-dispatcher/scheduler.cc:613-621 | from every state with a checker that is about to compare, or has compared, the target left in a freed slot, a new waiter for another value is claimed with the wrong value |
| SchedulerHazards.StaleCheckerIsReachable | src/task-dispatcher/scheduler.cc:556-653 | a run that respects H1 and H2 leads to such a state, for both points where H1 forbids a checker |
| SchedulerHazards.OutdatedScanWakesTooEarly | src/task-dispatcher/scheduler.cc:655-662 | under H1 and H2 alone, a wait for 0 that follows two submissions can be resolved while the count is 1 |
| SchedulerHazards.ResetDuringScanWakesTooEarly | src/task-dispatcher/scheduler.cc:396-406 | the same after the counter was acquired anew while the old scan was under way |
| SchedulerHazards.ResetForgetsWait | src/task-dispatcher/scheduler.cc:79-85 | from every state in which a fiber waits on a counter nobody scans, a reset and one update lead to one in which its target is met and nobody is about to wake it |
| SchedulerHazards.WithoutH2WaitIsForgotten | src/task-dispatcher/scheduler.cc:79-85 | a run that respects H1 and H2 leads to such a state, so without H2 a wake is lost |
| TaskLayerInv.TasksStepInv | src/task-dispatcher/scheduler.cc:396-432 | every task step in which handles are released once and settled when dropped keeps tasks where they are recorded to be, calls where they need their counters, and counters equal to their outstanding tasks |
| TaskLayerInv.LayerStepInv | src/task-dispatcher/scheduler.cc:683-704 | every such step that respects H1, H2 and H3 keeps the protocol's invariant, and every thread that acts on a counter being 0 right about it |
| TaskTheorems.TaskRunInv | src/task-dispatcher/scheduler.cc:284-296 | tasks, calls and counters are in order in every state of every run in which handles are released once and settled when dropped |
| TaskTheorems.LayerRunInv | src/task-dispatcher/scheduler.cc:284-296 | all of it holds in every state of every such run that respects H1, H2 and H3 |
| TaskTheorems.CounterConservation | src/task-dispatcher/scheduler.cc:683-704 | in every state of every run in which handles are released once and settled when dropped, a counter equals its tasks counted in but not enqueued, plus those queued, plus those dequeued and not yet decremented, however often it returns to 0 |
| TaskHazards.ResetConservesExactly | src/task-dispatcher/scheduler.cc:399-401 | a reset keeps a counter conserved if and only if the count is 0 just before it |
| TaskHazards.RecyclingConservesExactly | src/task-dispatcher/scheduler.cc:396-429 | from every state in which a conserved counter is about to be dropped, its next acquisition by any thread finds it conserved if and only if the count is 0 at the drop |
| TaskHazards.SubmissionDuringReleaseBreaks | src/task-dispatcher/scheduler.cc:419-432 | from every state in which a release has found the count on target and not dropped the handle, a submission of n tasks, which H5 forbids, leads to a counter that falls short of its tasks |
| TaskHazards.DropIsReachable | src/task-dispatcher/scheduler.cc:396-432 | a run that respects all hypotheses leads to such a state with another thread in task code |
| TaskHazards.WithoutH5ConservationBreaks | src/task-dispatcher/scheduler.cc:683-686 | hence conservation fails for a run that respects H1 to H4 only |
| TaskHazards.WithoutH4ConservationBreaks | src/task-dispatcher/scheduler.cc:408-417 | conservation fails for a run that releases a counter off target and respects everything else |
| TaskTheorems.ResolutionMeansDone | src/task-dispatcher/scheduler.cc:572-621 | when a wait for 0 is resolved, by early return or by a checker, the count is 0 and every task submitted on the counter has finished and been decremented |
| TaskTheorems.WaitMeansDone | src/task-dispatcher/td-lean.hh:135-154 | from that moment to the end of the run all those tasks stay finished |
| TaskOutcomes.WaitReturnsDone | src/task-dispatcher/td-lean.hh:135-154 | over every run, when a fiber that called wait for 0, pinned or not, is back in task code, all tasks submitted on that counter before the call, and up to the resolution, have finished |
| TaskOutcomes.SubmissionAddsTasks | src/task-dispatcher/scheduler.cc:683-697 | a submission of n tasks adds n to the count of the counter it was called with and n new tasks of that counter to those its thread enqueues |
| TaskOutcomes.ReleaseDropsExactlyOnTarget | src/task-dispatcher/scheduler.cc:408-432 | a release goes on to drop the handle if and only if it has no target or the count it loads is the target it was called with |
| TaskTheorems.SubmissionBeforeResolutionBreaksWait | src/task-dispatcher/scheduler.cc:655-662 | whenever a wait for 0 is about to be resolved, a submission in between, which H3 forbids, leaves it about to be resolved with all the new tasks outstanding |
| TaskTheorems.CarefulRunIsHonest | src/task-dispatcher/td-lean.hh:80-91 | a run that respects H1, H2, H4 and H5 and whose callers submit nothing more on a counter that has returned to 0, do not overlap its first submission with a wait and do not acquire it during a scan respects H3 and drops only settled handles |
| TaskTheorems.DrainedUntilReset | src/task-dispatcher/scheduler.cc:419-432 | in every run of careful callers, a counter with tasks stays at 0 from the resolution of a wait for 0 on it until its reset for the next use |
| TaskTheorems.WaitThenRelease | src/task-dispatcher/td-lean.hh:143-151 | so releaseCounterIfOnTarget(c, 0), however much later it looks, finds the counter on target |
| CounterPool.StepInv | src/task-dispatcher/scheduler.cc:396-432 | every step of acquiring and releasing that respects H4 keeps the invariant |
| CounterPool.RunInv | src/task-dispatcher/scheduler.cc:396-432 | the invariant holds in every state of every such run |
| CounterPool.CounterAtOnePlace | src/task-dispatcher/scheduler.cc:396-432 | every counter index is in exactly one place: one position of the free queue, in the hands of one thread, or bound to one live handle |
| CounterPool.HandlePoolNeverExhausted | src/task-dispatcher/scheduler.cc:399-404 | whoever obtained a free counter finds a free handle |
| CounterPool.FreeQueueHasRoom | src/task-dispatcher/scheduler.cc:428-429 | whoever gives an index back finds room in the free queue |
| CounterPool.SafeInEveryRun | src/task-dispatcher/scheduler.cc:396-432 | in every state of every run that respects H4: every counter in one place, a handle for every counter obtained, room for every index given back |
| CounterPool.BindingIsStable | src/task-dispatcher/scheduler.cc:408-432 | a bound handle keeps its counter through every step but its own release |
| CounterPoolCalls.AcquireAnswers | src/task-dispatcher/scheduler.cc:396-406 | from its first step to its return, an acquisition takes the oldest free index, sets its count to 0 and answers with a live handle bound to it |
| CounterPoolCalls.ReleaseAnswers | src/task-dispatcher/scheduler.cc:408-432 | from its first step to its return, a release answers whether the count it loaded is its target, or that count; off target the handle stays bound, otherwise the index goes back to the free queue |
| CounterPoolHazards.SecondReleaseDuplicates | src/task-dispatcher/scheduler.cc:419-432 | from every state with a bound handle nobody works on, a second release begun before the first is over enqueues its counter twice |
| CounterPoolHazards.WithoutH4CounterIsDuplicated | src/task-dispatcher/scheduler.cc:396-432 | a run that respects H4 leads to such a state, so without H4 a counter can be in two places |
| CounterObject.CheckConserves | src/task-dispatcher/scheduler.cc:598-653 | a check neither loses nor duplicates a wait: those due and those remaining are those there were, the due ones have the value as target and the others do not |
| CounterObject.DueGoesBySlots | src/task-dispatcher/scheduler.cc:601-613 | the waits due at a value come in the order of their slots, each slot contributing its own exactly if it is due |
| CounterObject.Counter.AddWaitingFiber | src/task-dispatcher/scheduler.cc:556-596 | fails exactly if all slots are taken; returns early exactly if the count is on target, leaving the waits as they were; otherwise registers in the lowest free slot; reports the count |
| CounterObject.Counter.CheckWaitingFibers | src/task-dispatcher/scheduler.cc:598-653 | makes resumable exactly the waits due at the value, lowest slot first, and keeps all others in place |
| CounterObject.Counter.Increment | src/task-dispatcher/scheduler.cc:655-662 | afterwards no registered wait has its target met, and waits left plus waits woken are the waits before |
| CounterObject.Counter.Reset | src/task-dispatcher/scheduler.cc:79-85 | afterwards the count is 0 and no slot is taken, whoever waited |
| ChaseLevInv.StepInv | src/task-dispatcher/container/spmc_queue.hh:131-253 | every step of the owner, of a stealer and of a registration keeps the invariant |
| ChaseLevTheorems.RunInv | src/task-dispatcher/container/spmc_queue.hh:131-331 | the invariant holds in every state of every interleaving |
| ChaseLevTheorems.NeverStuck | src/task-dispatcher/container/spmc_queue.hh:131-331 | the owner and every stealer inside an operation can always take the next step |
| ChaseLevTheorems.StepRefinesSequence | src/task-dispatcher/container/spmc_queue.hh:131-221 | a push appends, a pop removes the back, a steal removes the front, each in one step and with the value in the buffer at that step; no other step, resizing and reclaiming included, changes the elements |
| ChaseLevCalls.PushAppendsExactly | src/task-dispatcher/container/spmc_queue.hh:131-153 | from its first step to its return, a push appends the element it was called with, at its last step, and changes nothing else at the back |
| ChaseLevCalls.PopAnswersExactly | src/task-dispatcher/container/spmc_queue.hh:155-199 | from its first step to its return, a pop fails if and only if there was no element at its load of top, or one and top had moved on at its CAS; otherwise it answers with the back at the load |
| ChaseLevCalls.StealAnswersExactly | src/task-dispatcher/container/spmc_queue.hh:201-221 | from its first step to its return, a steal fails if and only if bottom was not past the top it loaded, or top had moved on at its CAS; otherwise it claimed the front at the CAS and answers with what it then reads there; it notes the id of a buffer current after that |
| ChaseLevTheorems.Conservation | src/task-dispatcher/container/spmc_queue.hh:131-221 | over every interleaving the elements there plus those pushed are those taken plus those left, as multisets |
| ChaseLevTheorems.CapacityBounds | src/task-dispatcher/container/spmc_queue.hh:137-143 | size stays at most capacity minus one, live indices have distinct slots, capacity is a power of two and at least the initial one |
| ChaseLevCalls.ResizesExactly | src/task-dispatcher/container/spmc_queue.hh:137-191 | over every push and pop, the capacity doubles if and only if a push found only the spare slot free, and halves if and only if a pop found at most a third of it, but more than the initial capacity, in use |
| ChaseLevTheorems.HeldBufferIsNotDeleted | src/task-dispatcher/container/spmc_queue.hh:201-253 | a buffer a stealer loaded and may still read is not deleted, whenever the stealer registered or began |
| ChaseLevTheorems.ReclamationIsSafe | src/task-dispatcher/container/spmc_queue.hh:231-253 | in every state of every run from the start no buffer is deleted twice, the current one not at all, none that a stealer may still read; the undeleted ones are a chain of consecutive ids from unlinked to the current one, and the reclaim loop stops before its end |
| ChaseLevCalls.PushReclaims | src/task-dispatcher/container/spmc_queue.hh:145-146 | if during a push every stealer is idle or has noted an id of at least low, then at its return every buffer below low but the current one is deleted |
| ChaseLevTheorems.Destroy | src/task-dispatcher/container/spmc_queue.hh:117-129 | after the destructor every buffer ever created has been deleted exactly once |
| ChaseLevTheorems.DelayedReadIsExact | src/task-dispatcher/container/spmc_queue.hh:213-215 | the read after the CAS yields the claimed element if and only if no later push wrote another value over that slot of that buffer |
| ChaseLevTheorems.OverwriteNeedsTwoMoreSteals | src/task-dispatcher/container/spmc_queue.hh:131-153 | only a push into that buffer that loaded top at least two past the claimed index can do so |
| ChaseLevTheorems.LateReadIsRight | src/task-dispatcher/container/spmc_queue.hh:211-217 | over any run from a won CAS to the read, the read yields the element that was the front at the CAS, as long as no push into that buffer that loaded top at least two past the claimed index comes in between |
| ChaseLevTheorems.ImmediateReadIsRight | src/task-dispatcher/container/spmc_queue.hh:211-217 | with the CAS and the read as one step, a steal yields the front of the deque |
| ChaseLevTheorems.DelayedReadCanMiss | src/task-dispatcher/container/spmc_queue.hh:201-221 | a run from the start in which a stalled stealer finds a later element in its slot |
| DequeObject.Buffer.Resize | src/task-dispatcher/container/spmc_queue.hh:38-45 | the new buffer holds the elements of [t, b) at the same indices, after one put for each |
| DequeObject.Deque.constructor | src/task-dispatcher/container/spmc_queue.hh:112-115 | a new deque is empty and has its initial capacity |
| DequeObject.Deque.PushBottom | src/task-dispatcher/container/spmc_queue.hh:131-153 | appends to the sequence; doubles the capacity exactly when only the spare slot is free; over any m successful operations 2 * copied <= 6 * m + 3 * 2^log_initial_size, where copied counts the puts of the copy loops |
| DequeObject.Deque.PopBottom | src/task-dispatcher/container/spmc_queue.hh:155-199 | removes the last element, or fails exactly on the empty deque; halves the capacity exactly when at most a third, but more than the initial capacity, is in use; same bound on copying |
| DequeObject.Deque.Steal | src/task-dispatcher/container/spmc_queue.hh:201-221 | removes the first element, or fails exactly on the empty deque; same bound on copying |
| MpmcProtocol.StepInv | src/task-dispatcher/container/mpmc_queue.hh:30-76 | every step of every call keeps the invariant, including dequeuePos <= enqueuePos <= dequeuePos + capacity |
| MpmcTheorems.RunInv | src/task-dispatcher/container/mpmc_queue.hh:30-76 | the invariant holds in every state of every interleaving |
| MpmcTheorems.PositionsBounded | src/task-dispatcher/container/mpmc_queue.hh:19-26 | in every state of every run of a new queue, dequeuePos <= enqueuePos <= dequeuePos + capacity |
| MpmcTheorems.StepRefinesFifo | src/task-dispatcher/container/mpmc_queue.hh:30-76 | the successful CAS appends to a queue with room, or removes the front; no other step changes the contents |
| MpmcCalls.EnqueueAnswersExactly | src/task-dispatcher/container/mpmc_queue.hh:30-51 | from its first step to its return, an enqueue either answers true and has claimed exactly one position for the value it was called with, or answers false, has claimed none, and at some look of its own the position one capacity before the next had not been handed out |
| MpmcCalls.DequeueAnswersExactly | src/task-dispatcher/container/mpmc_queue.hh:53-76 | from its first step to its return, a dequeue either has claimed exactly one position and answers with the value enqueued there, or answers false, has claimed none, and at some look of its own the next position was not published |
| MpmcCalls.PositionsDiffer | src/task-dispatcher/container/mpmc_queue.hh:64-65 | two dequeues that answer with a value answer for different positions, in the order of their CASes |
| MpmcTheorems.DeliversOnceInOrder | src/task-dispatcher/container/mpmc_queue.hh:73-75 | a dequeue returns the value the enqueuer of its position claimed it with, and that position was never handed out before |
| MpmcTheorems.ClaimedPositions | src/task-dispatcher/container/mpmc_queue.hh:53-76 | a position claimed for dequeue was delivered with its value, or is held by exactly one dequeuer |
| MpmcTheorems.CellUsedByOneThread | src/task-dispatcher/container/mpmc_queue.hh:49-75 | at most one thread may read or write the data of a cell |
| MpmcTheorems.EnqueueFailsExactly | src/task-dispatcher/container/mpmc_queue.hh:33-48 | an enqueue answers false if and only if, at its sequence load, its position is the next one and the position one capacity before it has not been handed out |
| MpmcTheorems.DequeueFailsExactly | src/task-dispatcher/container/mpmc_queue.hh:57-72 | a dequeue answers false if and only if, at its sequence load, its position is the next one and is not published |
| MpmcTheorems.AloneFullAndEmptyAreExact | src/task-dispatcher/container/mpmc_queue.hh:33-72 | with no other call in flight these answers mean exactly full and empty |
| MpmcTheorems.FullAnswerFromAnEmptyQueue | src/task-dispatcher/container/mpmc_queue.hh:30-76 | a run after which an enqueue has answered false although the queue is empty |
| RingQueues.MpmcQueue.constructor | src/task-dispatcher/container/mpmc_queue.hh:19-26 | a new queue is empty and valid |
| RingQueues.MpmcQueue.Enqueue | src/task-dispatcher/container/mpmc_queue.hh:30-51 | run alone, stores exactly if there is room, and then at the back |
| RingQueues.MpmcQueue.Dequeue | src/task-dispatcher/container/mpmc_queue.hh:53-76 | run alone, fails exactly on the empty queue and otherwise removes the front |
| RingQueues.FifoQueue.Enqueue | src/task-dispatcher/container/mpsc_queue.hh:49-61 | appends, if fewer than N elements are present |
| RingQueues.FifoQueue.Dequeue | src/task-dispatcher/container/mpsc_queue.hh:25-47 | fails exactly on the empty ring and otherwise removes the oldest element |
| RingQueues.FifoQueue.Full | src/task-dispatcher/container/mpsc_queue.hh:64-71 | true exactly if all N slots are occupied |
| WorkStealing.VisitsEveryOtherOnce | src/task-dispatcher/scheduler.cc:169-171 | from any last target set by the code, the loop's targets are all deques but the thread's own, each once |
| WorkStealing.Worker.Prepare | src/task-dispatcher/scheduler.cc:146-162 | the stealers are exactly the other deques in order |
| WorkStealing.Worker.GetTask | src/task-dispatcher/scheduler.cc:164-180 | fails exactly if all deques are empty; otherwise takes the newest own task, or the oldest task of the first non-empty deque, counting up and around from the stealer whose index is congruent to the last target, which becomes the last target; changes nothing else |
| Batches.EachNumberInOneBatch | src/task-dispatcher/td.hh:156-168 | batches that adjoin from 0 to n contain every number of [0, n) in exactly one batch |
| Batches.TilesExactly | src/task-dispatcher/td.hh:163-168 | the computed batches are non-empty, adjoin and cover [0, n) if and only if their number times the batch size is below 2^32 |
| Batches.SubmitBatched | src/task-dispatcher/td.hh:182-194 | divides by zero exactly for an empty range or a maximum of zero; the assertion never fires; at most the allowed number of batches, right exactly under that condition, and then all but the last have the least size with which the maximum covers the range, and there are no more than needed |
| Batches.TwoHalvesWrap | src/task-dispatcher/td.hh:163-168 | 2^32 - 1 elements in at most two batches: the second starts at 2^31 and ends at 0, so the range is not covered |
| VersionRing.ExpiryCorrectExactly | src/task-dispatcher/container/version_ring.hh:23-23 | for any number of acquires, isExpired is right about whether the slot still belongs to the handle, if and only if fewer than 2^32 were made since or their number modulo 2^32 exceeds N |
| VersionRing.LiveHandleNeverExpired | src/task-dispatcher/container/version_ring.hh:23-23 | a handle whose slot was last written by its own acquire is never reported as expired |
| VersionRing.HandleFromTheLastPeriod | src/task-dispatcher/container/version_ring.hh:23-31 | after exactly 2^32 acquires an overwritten handle is reported as unexpired |
| VersionRing.Ring.Acquire | src/task-dispatcher/container/version_ring.hh:26-31 | appends to the values issued and keeps every slot holding the value of the acquire that owns it |
| VersionRing.Ring.HandleIsExact | src/task-dispatcher/container/version_ring.hh:23-35 | with fewer than 2^32 acquires since, a handle is unexpired if and only if its slot was last written by its own acquire, and then get returns the value it was acquired with |

## Left out

- C++ memory orderings: memory is sequentially consistent; each atomic access, each lock-protected region and each call of a queue or of the handle pool by the scheduler is one step.
- Order of attempts in `getNextTask`: a thread in its task loop may take from any of its sources next, which allows more runs than the fixed order.
- `atomic_counter_t::reset` is one step in the protocol and in the counter pool; the first acquisition's reset is part of the start state.
- The plain stores to a waiting slot before `in_use` is cleared are one step, and so are a checker's reads of the fiber and the pin of the slot it claimed together with the enqueue.
- In the task layer, obtaining a handle and writing its `counterIndex` are one step; `CounterPool` has them apart. A counter index is in the free queue, with one thread or bound, so the task layer does not show what a second release of one handle does; `CounterPoolHazards` does.
- Failures of MPMC calls inside the scheduler: the scheduler's queues are bounded sequences there, so the spurious "full" answer is shown of the queue itself and not of the scheduler.
- Capacity of the task queue and of the ring of pinned fibers: their assertions on overflow are not part of the scheduler's model.
- Manual `incrementCounter` and `decrementCounter` in the task layer; the wait/wake protocol allows any change of a counter.
- The value that `wait` returns, the count it loaded, is part of `CounterObject` and not of the protocol; the order in which the scheduler's queues hand out fibers and tasks is first-in first-out but no theorem depends on it.
- Integer widths: queue and deque positions, buffer ids and counter values are unbounded, and the `int` in `Deque::steal` does not truncate; 32-bit wrap-around is modelled where it decides the result, in the batches, the steal targets and the version ring.
- The `buffer` load and `id()` read at `spmc_queue.hh:327-328` are one step; with `was_idle` already set, a buffer could be deleted between the two.
- `Reclaimer::register_thread`: its CAS loop is one step that adds a stealer.
- RingQueues.MpmcQueue.Enqueue: without rivals the retry loop never repeats, so the object has no loop; the loop is part of MpmcProtocol.
- WorkStealing.Worker.GetTask: takes the deques as a value and returns them, so it says nothing about other threads acting during the call.
- VersionRing.Ring.Acquire: the fetch_add and the write of the value are one operation.
- `cc::atomic_linked_pool` is a pool that hands out any free handle, and `cc::int_div_ceil` is the mathematical ceiling; they are not part of this model.
- Start-up: the model starts with thread t on fiber t and thread 0 in task code; which idle fiber a thread draws first does not matter.
- Events, timeouts, backoff, thread start-up and shutdown, exception handling, logging and native fiber switching.
- `task` storage, `future`, `submit_each` variants, `SpinLock` and the arithmetic intrinsics.
