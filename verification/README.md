# RKNPU driver: a verified model

This project models the parts of the Rockchip RKNPU kernel driver in which several threads and
interrupt handlers meet: the gang scheduler, the IOMMU domain and power reference protocols it runs
under, the busy-time accounting, and the range arithmetic and rollback of buffers with an on-chip
cache head. `dafny verify dfyconfig.toml` checks everything.

## How the model is built

- `Npu` holds the vocabulary: SoC tables, core masks, submitted jobs, and the cutting of a core's task
  range into chunks.
- `Scheduler` is the scheduler as a step machine. A step is one critical section or one atomic
  operation of the source; a state holds the driver's fields, the calls still outstanding
  (`nextCalls`, `dec`, `commit`, the handler position `irq`) and the hardware (`armed`). Calls that one
  thread makes one after the other are simply outstanding together, so the machine has every
  interleaving the driver has, and more. Jobs are numbered in the order of their enqueue sections.
- `Fifo` proves what every run keeps, with arbitrary hardware behaviour and aborts at any time.
- `Gang`, `GangSteps`, `Coverage` and `Progress` prove what *normal* runs keep: no abort, and an
  interrupt status matches a job only while a chunk of that job is programmed on the core
  (`Scheduler.Normal`). Spurious interrupts that match nothing may arrive at any time.
- `Calls` has the whole calls (`rknpu_job_next`, `rknpu_job_done`, `rknpu_job_schedule`) as functions on
  states, and what they start and leave owed when nothing interferes.
- `Device` is the driver's own form: an object updated in place, with the driver's loops. Each method
  is proved to take exactly the machine's step, and the whole calls (`rknpu_job_schedule`,
  `rknpu_job_next`, `rknpu_job_done`, `rknpu_irq_handler`) to be runs of the machine, which carries the
  machine's theorems back to the object. `Balance` adds the unlocked load reads of AUTO submissions,
  `Wait` the blocking waits.
- `Iommu` has the domain switch, down to what the device is attached to, the locked get attempt and the
  thread-level protocol; `World` composes the protocol with the scheduler.
- `Power` and `PowerRails` are the reference protocol and the acquire/rollback sequence of power-on.
- `BusyTime` is the accounting on its own, `BusyRuns` the accounting driven by the scheduler's slots.
- `GemSync` has the sync ranges, `GemMap` the page table, the IOVA space and the live buffers.
- `Sums` is a small helper about sums.

Histories (`released`, `log`, `accepted`, `snapshots`, `occupied`, `holders`) record what happened and
never influence a step.

## Where the code does not do what one would expect

- `rknpu_submit` accepts masks 5 and 6 on three-core devices, submits without the PC flag and submits
  without a task object, but the commit path never programs them. `Progress.DeadlockFreedom` gives the
  exact condition under which a run that comes to rest has finished everything;
  `Progress.UnrunnableJobSticks` shows the failing family and `Npu.ForgottenMasks` which SoC admits it.
- `irq_entry` is never cleared, so after one interrupt on a core, even a mismatching one, no later
  abort frees that core's slot (`Fifo.AbortExact`). An abort frees the job all the same;
  `Fifo.AbortLeaves` says exactly when something still refers to it.
- AUTO submissions read the load counters without a lock and enqueue later. With P submitters at a time
  the loads stay within P job weights of each other, not within one (`Balance.GreedyBalance`), and P
  weights are reached (`Balance.BoundIsReached`).
- A failed attach of a freshly allocated domain is not followed by an attach of the old one. That does no
  harm exactly as long as the group's default domain is the current one (`Iommu.AttachmentExact`), which
  the driver's own update of the default domain maintains (`Iommu.HoldSafety`).
- The debugger's "on" ignores a failed power-on; the accounting survives exactly when the power-on did
  not fail (`Power.CmdOnExact`, `Power.FailedOnPowersOffHolder`).
- `hw_recoder_time` is shared by all cores of a gang, so a pop or a tick of one core discards the interval
  the others have not been credited for, and an abort discards its own. `BusyTime.BusyAccount` gives the
  exact loss and the exact condition under which there is none; single-core jobs without
  aborts meet it (`BusyRuns.BusyConservation`).
- The end of a cache sync request is computed in 64 bits without a check; the split is right exactly
  when a request beginning in the cache does not wrap (`GemSync.CacheSplitExact`).
- Freeing a buffer after the device has lost its domain leaves its mappings and its IOVA range behind
  while the pages go back (`GemMap.Space.FreeWithCache`).

## Model

| member | source | states |
|---|---|---|
| Npu.CommitMatchesQueues | src/rknpu_job.c:409-434 | for every mask the commit switch programs exactly the cores the job was queued on if the mask is supported, and no core otherwise |
| Npu.ForgottenMasks | src/rknpu_drv.c:165-310 | of the seven SoC tables only the three-core one admits masks the commit switch forgets, namely 5 and 6 |
| Npu.CoreRangeExact | src/rknpu_job.c:71-91 | the range of a core is the whole request on a single-core SoC, and otherwise the core's entry of subcore_task, counted from entry 2 for three-core jobs |
| Npu.ChunkShape | src/rknpu_job.c:340-344 | every chunk of a non-empty range has between 1 and max_submit_number tasks, and each chunk begins where the previous one ends |
| Npu.ChunkPrefix | src/rknpu_job.c:320-344 | the first k chunks execute exactly the first min(number, k * max) tasks of the range, in order |
| Npu.ChunkCoverage | src/rknpu_job.c:475-480 | the chunks programmed until submit_count reaches its bound execute every task of the range exactly once, in order, for every task number including zero |
| Scheduler.ApplyShape | src/rknpu_job.c:436-590 | no step, under any hardware behaviour, leaves a dangling job number or changes the submission history other than by appending |
| Fifo.OnCoreMembers | src/rknpu_job.c:552-560 | the per-core enqueue order contains exactly the jobs whose mask names the core |
| Fifo.StepKeeps | src/rknpu_job.c:436-590 | every step, abort and spurious interrupts included, keeps FIFO order, the load counter, the handler's hold on its slot and the place of every job |
| Fifo.FifoService | src/rknpu_job.c:449-460 | in every run a core's history, slot and queue are its enqueue order cut in three |
| Fifo.LoadConservation | src/rknpu_job.c:484-486 | in every run task_num is the summed weight of the queued and occupying jobs, each weight being the task number of the submitted range of that core; it equals all enqueued minus all released weight, is non-negative, and is zero on a drained core |
| Fifo.EnqueueWeighs | src/rknpu_job.c:552-560 | an enqueue appends the job on exactly the cores of its mask and adds to task_num the task number submitted for that core |
| Fifo.ReleasedAtMostOnce | src/rknpu_job.c:579-590 | whatever the interleaving of interrupts and aborts, a job leaves a core's slot at most once |
| Fifo.ReleaseFindsItsJob | src/rknpu_job.c:658-667 | the release section always finds the handler's own job in the slot, and an abort never touches a core whose handler is about to release it |
| Fifo.EntryStaysForever | src/rknpu_job.c:666-666 | once set, irq_entry stays set in every continuation of a run |
| Fifo.AbortExact | src/rknpu_job.c:580-589 | abort frees a slot exactly when the job is in it and no interrupt was ever taken there; after one interrupt no later abort frees it |
| Fifo.AbortLeaves | src/rknpu_job.c:568-590 | after an abort some queue, slot, handler or outstanding call refers to the job exactly on the cores that have it queued, have it in the slot after an interrupt, or have one of its calls outstanding |
| Gang.OneStepKeeps | src/rknpu_job.c:463-510 | a step that rewrites one core and one job keeps the whole invariant if it keeps the facts of its own pair, job and core |
| GangSteps.DecRunPair | src/rknpu_job.c:463-464 | when run_count reaches zero every core of the job holds it, none is started, and the commit calls go to exactly those cores |
| GangSteps.StepKeeps | src/rknpu_job.c:436-566 | every normal step keeps the counters, the one outstanding action per (job, core), the wake-up obligation, the hardware log and the interrupt count |
| GangSteps.Reachable | src/rknpu_job.c:436-566 | every state of every normal run from power-up satisfies the gang invariant |
| Coverage.HardwareLog | src/rknpu_job.c:409-464 | in every normal run the log of a core is the complete chunk sequences of the jobs that left it, in enqueue order, followed by a prefix of the current job's |
| Coverage.PairChunks | src/rknpu_job.c:475-486 | a job has no chunk on a core before it is popped there, an ordered prefix while it occupies the slot, and all chunks once it is gone |
| Coverage.ReleasedCoreRanItsRange | src/rknpu_job.c:475-490 | a core that gave a job up ran every task of the range submitted for it (the whole request, entry c, or entry c + 2 of subcore_task) exactly once, in order, in chunks the hardware can count |
| Coverage.ProgrammedBehindTheBarrier | src/rknpu_job.c:463-464 | a core is programmed only for the job in its slot, after every core of the job has popped it; at the first programming all slots hold it |
| Coverage.OlderFinishesFirst | src/rknpu_job.c:449-464 | once a job is programmed anywhere, every older job it shares a core with has finished on that core |
| Coverage.BarrierCounts | src/rknpu_job.c:153-157 | run_count is the number of cores that have not arrived, interrupt_count the number that have not finished, and DONE, fence signal and domain put happen together and at most once |
| Coverage.CompletesAfterAllCores | src/rknpu_job.c:492-510 | the completion block runs for a job that is not done, in one handler only, after every core released the job |
| Coverage.DoneMeansExecuted | src/rknpu_job.c:492-498 | a job marked DONE ran, on every core, exactly the range submitted for that core, and is in no slot, queue or handler |
| Coverage.DoneIsStable | src/rknpu_job.c:497-497 | no step takes DONE back |
| Progress.OldestNotBlocked | src/rknpu_job.c:449-458 | a core on which the oldest unfinished job is still queued is idle and has somebody on the way to fetch it |
| Progress.DeadlockFreedom | src/rknpu_job.c:409-513 | when a normal run comes to rest, all jobs are done if and only if every submitted job has a supported mask, the PC flag and a task object; then all queues, slots and load counters are empty |
| Progress.UnrunnableJobSticks | src/rknpu_job.c:784-792 | any job that passes the admission checks but is not runnable brings a run to rest unfinished with all its cores occupied |
| Progress.WorkLowersRank | src/rknpu_job.c:436-513 | every step that is neither a submission nor a spurious interrupt lowers a natural-number measure |
| Progress.WorkIsBounded | src/rknpu_job.c:436-513 | a run of such steps is at most as long as the measure of its first state |
| Progress.SomeWork | src/rknpu_job.c:436-513 | every state that is not at rest offers such a step |
| Progress.EventuallyDrained | src/rknpu_job.c:467-513 | every reachable state with runnable jobs can be driven, within the measure, to a state where each job is done with exactly one domain put and one fence signal and every core is empty |
| Progress.InterruptMeasure | src/rknpu_job.c:673-686 | the interrupts still needed are never negative, drop by exactly one at each accepted interrupt and change at no other step but a submission |
| Progress.InterruptsPerBatch | src/rknpu_job.c:475-480 | a drained batch took exactly the sum over (job, core) of max(1, ceil(task_number / max_submit_number)) accepted interrupts |
| Calls.NextCalledOwes | src/rknpu_job.c:436-465 | a whole next call leaves no decrement or commit owed that was not owed before |
| Calls.ScheduleStarts | src/rknpu_job.c:552-565 | a schedule call on idle cores puts the job into every slot of its mask and, if the commit path runs it, programs each core once, with the first chunk of the range submitted for it |
| Calls.ScheduleOwesNothing | src/rknpu_job.c:562-565 | when a schedule call returns every core has as many next calls outstanding as before, and neither the new job nor any other has a new decrement or commit owed |
| Calls.DoneCalledOwes | src/rknpu_job.c:467-513 | when rknpu_job_done returns the handler is idle and no call is owed that was not owed before |
| Device.RknpuDevice.ScheduleCoreIndex | src/rknpu_job.c:515-530 | returns the lowest index among the least loaded cores |
| Device.RknpuDevice.ResolveMask | src/rknpu_job.c:539-545 | an AUTO mask becomes the mask of the lowest-index least loaded core, any other stays |
| Device.RknpuDevice.Schedule | src/rknpu_job.c:547-566 | a failed domain get changes nothing; otherwise the job is enqueued and each of its cores gets its next call; on return nothing is owed, a job on idle cores has been started on all of them, and the gang invariant is kept |
| Device.RknpuDevice.SubmitJob | src/rknpu_job.c:778-862 | refuses with the right code, changing nothing, exactly the requests without tasks, with a mask beyond the SoC's, or whose allocation, fence or domain get fails; schedules the others with an AUTO mask resolved and starts them if their cores are idle |
| Device.RknpuDevice.Enqueue | src/rknpu_job.c:552-560 | the loop over the cores is the machine's single Submit step |
| Device.RknpuDevice.Pop | src/rknpu_job.c:447-461 | takes the NextCall step and reports the oldest queued job exactly when the slot was empty |
| Device.RknpuDevice.DecRun | src/rknpu_job.c:463-464 | takes the DecRun step; on zero every core of the commit switch has its call outstanding |
| Device.RknpuDevice.Commit | src/rknpu_job.c:384-407 | takes the Commit step |
| Device.RknpuDevice.JobNext | src/rknpu_job.c:436-465 | the whole call is a normal run that begins with its pop, moves the oldest queued job into an empty slot and leaves nothing owed |
| Device.RknpuDevice.IrqEntry | src/rknpu_job.c:656-667 | takes the IrqEnter step and returns the slot's job |
| Device.RknpuDevice.CountSubmit | src/rknpu_job.c:475-480 | takes the DoneInc step and decides between next chunk and release |
| Device.RknpuDevice.ReleaseCore | src/rknpu_job.c:484-490 | takes the Release step |
| Device.RknpuDevice.CountInterrupt | src/rknpu_job.c:492-492 | takes the CountDown step and tells the last core from the others |
| Device.RknpuDevice.CompleteJob | src/rknpu_job.c:495-510 | takes the Complete step |
| Device.RknpuDevice.JobDone | src/rknpu_job.c:467-513 | the whole call is a normal run: one more chunk, or release, completion if due, and the closing next call; the handler ends idle with nothing owed |
| Device.RknpuDevice.IrqHandler | src/rknpu_job.c:647-689 | the whole handler is a run for any status that ends idle with nothing owed; if the status matches only a programmed job it keeps the gang invariant and every job marked DONE has run its submitted range on every core |
| Device.RknpuDevice.AbortJob | src/rknpu_job.c:579-590 | the loop over the cores is the machine's single Abort step |
| Balance.LookKeeps | src/rknpu_job.c:515-530 | an unlocked read of one load counter, or leaving the loop, keeps every core with all claims on it within P weights of every load |
| Balance.ScanFindsLowestMin | src/rknpu_job.c:515-530 | undisturbed, the unlocked reads choose the lowest-index least loaded core |
| Balance.PutKeeps | src/rknpu_job.c:552-560 | an enqueue on the core chosen earlier keeps that bound, however stale the choice |
| Balance.GreedyBalance | src/rknpu_job.c:515-560 | from equal loads, P threads submitting AUTO jobs with no release in between keep all loads within P times the largest job weight of each other under every interleaving of reads, failed domain gets and enqueues; one thread, within one weight |
| Balance.BoundIsReached | src/rknpu_job.c:515-560 | for every P and every weight some run reaches the bound |
| Wait.JobWait | src/rknpu_job.c:200-276 | waits one to three times, again after a timeout exactly while the job is not committed or its own time is not up, and returns zero exactly if a chunk was programmed, the last wait did not time out and DONE is set |
| Wait.BlockingExact | src/rknpu_job.c:229-276 | in a normal run the wait returns zero exactly if its last wait saw DONE, times out exactly if it did not and a chunk had been programmed, and fails with EINVAL exactly if none had |
| Wait.BlockingSuccess | src/rknpu_job.c:866-877 | a blocking submit whose wait returns zero frees a job whose every range has run and that no slot, queue or handler refers to |
| Iommu.SwitchAllOrNothing | src/rknpu_iommu.c:87-181 | a switch arrives at the requested domain or changes no driver field; table entries are never lost and the counter stays their number; with the current domain as the group's default a failed switch leaves the attachment alone too |
| Iommu.SwitchSucceeds | src/rknpu_iommu.c:87-181 | a switch returns zero exactly if the IOMMU is enabled, the id in range, the bus there, and the domain already current or the device attached as believed, a domain known or allocated, and the attach successful; it then arrives there, and each failure has its code |
| Iommu.AttachmentExact | src/rknpu_iommu.c:118-175 | a switch leaves the device attached to the current table entry if and only if it never detached it, the attach worked, the group's default domain was the current one, or a known domain was asked for and the old one could be attached again |
| Iommu.IommuState.constructor | src/rknpu_iommu.c:75-85 | a fresh device is on domain 0, the only table entry and the one it is attached to, with no references |
| Iommu.IommuState.SwitchDomain | src/rknpu_iommu.c:87-181 | the in-place code, with its detach, attach and reattach calls, computes the switch and succeeds under exactly that condition |
| Iommu.IommuState.TryGet | src/rknpu_iommu.c:191-215 | one locked turn gets a reference exactly if the domain is current, or nobody holds one and the switch succeeds; it asks for another turn exactly if somebody holds another domain; otherwise no driver field changes |
| Iommu.IommuState.Put | src/rknpu_iommu.c:230-235 | drops one reference and nothing else |
| Iommu.MoveKeeps | src/rknpu_iommu.c:183-235 | every fine-grained move of any thread keeps mutual exclusion, the exact count and all holders on the current domain |
| Iommu.HoldSafety | src/rknpu_iommu.c:183-235 | in every interleaving of any number of threads the count is the number of holders, every holder's domain is the current one, and a device that started in step is attached to it |
| Iommu.SwitchOnlyWhenFree | src/rknpu_iommu.c:200-210 | the current domain changes only while nobody holds a reference |
| Iommu.GetIsAttempt | src/rknpu_iommu.c:191-215 | the fine-grained moves of an uncontended get, from lock to unlock, compose to the locked attempt |
| World.EventKeeps | src/rknpu_job.c:547-560 | every event keeps each unfinished job's own reference to its own domain |
| World.FinishNeverBlocked | src/rknpu_job.c:495-495 | whenever a job may complete, the reference it gives back is still there |
| World.FinishReleases | src/rknpu_job.c:495-497 | the completion block marks the job done and gives back exactly the reference it was enqueued with, disturbing no other thread |
| World.EnqueueLends | src/rknpu_job.c:547-560 | an enqueue hands the submitter's reference over to the new job and takes no other |
| World.OneDomainAtATime | src/rknpu_job.c:547-550 | all jobs queued or running at once have the device's current domain |
| World.ChunksUnderOwnDomain | src/rknpu_iommu.c:191-213 | no chunk is programmed while the device is on another domain than its job's, in the driver's books and in its attachment |
| World.DomainPinned | src/rknpu_iommu.c:200-210 | while a job is unfinished no event changes the device's domain |
| Power.PowerProtocol | src/rknpu_drv.c:353-419 | under every interleaving and any failures the count is callers' holds plus command-line holds plus deferred releases, the hardware is on exactly when it is positive, and it is never on without a holder or a release on its way |
| Power.HandOverLosesNothing | src/rknpu_drv.c:409-416 | the delayed work is queued only when it was not queued already, so the handed-over reference survives |
| Power.GetExact | src/rknpu_drv.c:371-384 | in every run a get fails, changing nothing, exactly if the hardware is off and the power-on fails; otherwise the caller holds a reference and the hardware is on |
| Power.ZeroDelayIsImmediate | src/rknpu_drv.c:404-407 | at delay zero a delayed put is a put: the last holder switches the hardware off at once or owes the release again, and nothing is queued |
| Power.CmdOffDropsAll | src/rknpu_debugger.c:111-120 | "off" drops exactly the outstanding command-line holds and no caller's |
| Power.CmdOnExact | src/rknpu_debugger.c:107-110 | "on" keeps the accounting if and only if its power-on was not needed or succeeded |
| Power.FailedOnPowersOffHolder | src/rknpu_debugger.c:107-120 | a failed "on", a get and an "off" leave the hardware off under a live holder |
| Power.RetriesBounded | src/rknpu_drv.c:353-369 | a run of deferred releases is bounded by three steps per power-off failure plus its initial measure |
| Power.EventuallyOff | src/rknpu_drv.c:404-419 | with no holder left, deferred releases alone switch the hardware off |
| Power.PowerControl.PowerGet | src/rknpu_drv.c:371-384 | takes the get section and reports its failure |
| Power.PowerControl.PowerPut | src/rknpu_drv.c:386-402 | takes the put section; it fails exactly when the last reference could not be powered off, which is then owed again |
| Power.PowerControl.PowerPutDelay | src/rknpu_drv.c:404-419 | takes the delayed-put section |
| Power.PowerControl.PowerSet | src/rknpu_debugger.c:107-120 | takes the section of the written command |
| PowerRails.Supply.PowerOn | src/rknpu_drv.c:963-1109 | returns zero exactly if no call fails, then every resource of the board is acquired once and the lock is free; otherwise nothing has changed |
| PowerRails.Supply.PowerOff | src/rknpu_drv.c:1111-1171 | success gives back exactly what power-on acquires, failure changes nothing |
| PowerRails.Supply.Cycle | src/rknpu_drv.c:963-1171 | power-on followed by a successful power-off is the identity |
| BusyTime.SnapshotsBounded | src/rknpu_drv.c:816-834 | for any mix of jobs a snapshot lies between zero and the time since the core's previous tick, and credit never exceeds occupancy |
| BusyTime.TickStores | src/rknpu_drv.c:820-832 | a tick stores in total_busy_time exactly what was credited since the last tick plus the running interval, and clears busy_time |
| BusyTime.LossOfStep | src/rknpu_drv.c:816-834 | the gap between occupancy and credit of a core grows at each event by exactly the interval that event discards on it |
| BusyTime.BusyAccount | src/rknpu_job.c:484-490 | for any mix of single-core jobs, gangs and aborts, the values stored in total_busy_time plus busy_time plus the running interval plus the losses is the time the slot was occupied, and the accounting is exact if and only if no event discarded an interval that had begun |
| BusyTime.GangLosesTime | src/rknpu_job.c:458-460 | whenever a second core pops a job, the first stays short of the whole time since the recorder was set, for ever |
| BusyTime.AbortLosesTime | src/rknpu_job.c:579-590 | a core whose job is aborted stays short of the time since the recorder was set |
| BusyTime.TickAllKeeps | src/rknpu_drv.c:816-834 | a pass of the timer over all cores at ascending times keeps the accounting bounds |
| BusyTime.TickAllExact | src/rknpu_drv.c:816-834 | a pass settles each core once at its own time, storing its credit plus the time since its job's recorder was set, by an earlier core of the same pass if that holds the job too |
| BusyTime.LoadTimer.Handler | src/rknpu_drv.c:806-838 | the loop over the cores ticks each of them once, in order, and stores what the tick should |
| BusyRuns.ScheduledAccount | src/rknpu_job.c:449-490 | in every run of scheduler and timer together, aborts included, the clock has the scheduler's slots, and a core's credit falls short of its occupancy by exactly the losses of the run |
| BusyRuns.NeverBlocked | src/rknpu_job.c:449-490 | the accounting refuses no step the scheduler offers |
| BusyRuns.BusyConservation | src/rknpu_job.c:484-490 | in every scheduler run of single-core jobs without aborts, whatever the hardware reports and whenever the timer ticks, the stored total_busy_time values plus busy_time plus the uncredited interval is exactly the time the slot was occupied |
| BusyRuns.BusySnapshot | src/rknpu_drv.c:820-832 | in such a run a tick reports the whole time since the last tick for a job that was there before it, and otherwise the time since the pop plus what was credited before |
| GemSync.SyncSegments | src/rknpu_gem.c:1762-1791 | every requested byte that exists is synced exactly once, in order, inside its own segment, and nothing else is |
| GemSync.PlaceOfPosition | src/rknpu_gem.c:1766-1773 | a DDR position belongs to one place of one segment |
| GemSync.CacheSplitExact | src/rknpu_gem.c:1663-1698 | the cache step takes the part of the request below the cache size and passes on the rest, if and only if a request beginning in the cache does not wrap |
| GemSync.SyncRange | src/rknpu_gem.c:1748-1791 | whenever the split is right, cache part and DDR part together are exactly the requested bytes that exist |
| GemMap.Space.MapSegments | src/rknpu_gem.c:603-626 | stops at the first failing segment with all earlier ones mapped in order, and succeeds exactly if no segment it needs fails |
| GemMap.Space.AllocWithCache | src/rknpu_gem.c:472-651 | succeeds exactly if the domain, the IOVA range and every mapping and allocation call it makes do; then exactly the new buffer is added, otherwise nothing has changed; disjointness and the exact page table are kept |
| GemMap.Translates | src/rknpu_gem.c:527-626 | each address of a live buffer translates to its cache or page byte, and an address outside every live buffer is not mapped |
| GemMap.Space.FreeWithCache | src/rknpu_gem.c:653-701 | takes away exactly the freed buffer; the space stays consistent if and only if the device still has a domain or the range was empty |
| GemMap.AllocThenFree | src/rknpu_gem.c:472-701 | freeing what was just allocated restores page table, IOVA space and allocations |
| GemMap.Determined | src/rknpu_gem.c:527-651 | the live buffers determine page table, IOVA space and allocations, whatever the history |
| GemMap.BufferLeavesNoTrace | src/rknpu_gem.c:653-701 | allocating a buffer, then allocating and freeing others in any order, then freeing it, ends where the other operations alone would have |
| GemMap.OthersUndisturbed | src/rknpu_gem.c:676-692 | freeing a buffer leaves the translation of every other live buffer alone |

## Left out

- Timeout cleaning and the unlink loop after a failed wait (`rknpu_job_timeout_clean`, src/rknpu_job.c:231-243): they remove jobs without adjusting `task_num`, so none of the conservation laws is claimed across them.
- Restart after abort: `rknpu_job_abort` starts no queue, so aborts are part of the safety results in `Fifo` and of the accounting in `BusyRuns`, not of the progress results.
- The domain put of `rknpu_job_abort`, which can come without a get or after the completion block's own put: `World` has paired callers only.
- Memory lifetime of jobs, fences and task objects, and the wait queues; the completion block is one step.
- Soft reset, during which `rknpu_job_next` returns at once, and integer overflow of task numbers and counters.
- Interrupt status decoding (`rknpu_fuzz_status`) and all register values: a status either matches or does not.
- Order of calls within one thread: calls still to be made are outstanding together, a superset of the real interleavings.
- Power.PowerControl.PowerSet: the two debugger writes are treated as atomic, though the source updates the counters outside `power_lock`.
- Power callers that put after a failed get.
- The kernel behind attach and detach: detaching is taken to fall back to the group's default domain and a failed attach to leave the attachment alone; whether an attach succeeds is an input.
- Wait.JobWait: the task counter read back after a timeout is not modelled, and soft reset, which also ends a wait, is not part of `Wait.BlockingExact`.
- Device.RknpuDevice.SubmitJob: a blocking submit goes on with the wait of module `Wait`; the abort that follows a refused domain get is left out with its domain put.
- GemMap.Space.AllocWithCache: assumes what the kernel promises, that a handed-out IOVA range is unused and large enough, that a failed `iommu_map` maps nothing and that the page list covers the size; it has one domain's page table.
- GemSync.SyncRange: claims the bytes and lengths only, not the start address of the cache maintenance; requests that begin in the cache and wrap are those for which `GemSync.CacheSplitExact` shows the split wrong.
- Segmented caches (`cache_with_sgt`): their mapping has a rollback and a sync of its own. The SRAM allocator: only its header is in the repository.
- DRM, PRIME, mmap, devfreq, debugfs files, probe and remove: they hand requests to kernel subsystems and hold no protocol state of the driver.
