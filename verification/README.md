# A verified model of a small i386 kernel

This project models the parts of the kernel in which state is shared and the order of steps matters, and proves what
they keep, in four layers.

* **Data structures.** The intrusive doubly linked list with two sentinels, on heap pointers, against a family of
  disjoint sequences (`IntrusiveLists`); the byte-packed bitmap and its sliding-window scan, against sets of naturals
  and a first-fit specification (`Bitmaps`); the 64-slot ring (`RingBuffers`).
* **Scheduler and synchronisation.** `Scheduling` has the operations of thread.c as functions on a value state and the
  invariant that each keeps; `Starvation` counts exactly how long a ready thread waits; `Preemption` says when a woken
  or new thread gets the processor. `Synchronisation` and `KernelMachine` add semaphores, mutexes and the I/O queue
  and take whole runs as sequences of atomic steps of the running thread; `Steps` says what each step changes as a
  relation on states that does not use those functions, proves the two equal, and draws the laws of locks and of the
  interrupt tail from it; `WakeOrder` adds the order of wake-ups. `Stranding` and `Deadlock` say exactly when the I/O
  queue leaves threads asleep, `Turns` puts runs together from calls and timer interrupts, and `SleepingRuns` has the
  runs in which it happens. `SchedulerObjects` and `SyncObjects` are the same operations in the code's own form: control
  blocks, bitmap bytes, semaphores and ring buffers changed in place, ready queues and waiter lists as intrusive lists
  of one family of lists; each method is proved equal to the function of the same name. A C function that blocks is cut
  where the processor goes to another thread.
* **Paging.** `Paging` defines the processor's two-level walk (32-bit paging, section 4.3 of the Intel SDM, volume 3A)
  and proves the recursive mapping and the two page-table edits against it. `AddressSpaces`, `PageAllocation`,
  `Translations` and `AddressSpaceRuns` follow both frame pools, all reservations and all directories over whole runs,
  with a ledger that says what each frame is. `PagingObjects` is memory.c in its own form: every table is read and
  written through the window of the active directory. `PoolLayout` is the arithmetic of mem_pool_init.
* **Contexts.** `Contexts` is a machine of registers and stack words on which the two kinds of saved frame are made and
  loaded, and runs of it; `ContextObjects` has switch.s and kernel.s instruction by instruction.

Beside these stand the text screen (`Terminal`, `TerminalObjects`), number printing (`Numbers`, `NumberBuffers`) and the
thread table (`ThreadTables`). `Options` and `Words` hold an option type and the bytes of a 32-bit word.

Code that runs with interrupts disabled is one atomic step, and so is one call of the page allocator. Machine words are
unbounded integers except where a wrap-around is written out. Pages above 2 MB, and the kernel's page tables, start
zeroed; nothing in the code zeroes them. The loader's directory is the start state.

Where the code departs from what its comments say, the model follows the code:

* A woken or new thread does not always run next although it outranks the running one: the running thread is demoted
  first, and priority 31 wraps to 0. The exact conditions, with or without a switch pending already, are
  `Preemption.WokenRunsNext` and `Preemption.CreatedRunsNext`, and for the steps of the machine `Steps.WakeThenTail` and
  `Steps.SpawnThenTail`; `Preemption.IdleKeepsTheProcessor` is the case on the kernel's own start.
* The comment in highest_rq_get, that some thread is always ready, holds if no thread waits in an I/O queue and none
  waits for a mutex while it holds one (`KernelMachine.AlwaysSomeoneReady`), and also if one thread never waits at all
  (`KernelMachine.IdleKeepsItReady`). `KernelMachine.LoneReaderStops` is a run without either, and
  `KernelMachine.StepKeeps` says exactly which step empties the queues.
* ioq_wait does not look at the buffer again once the thread has the mutex. A step leaves a reader asleep beside unread
  bytes, or a writer beside free room, exactly when a thread that queued for the mutex gets it in that situation
  (`Stranding.StrandedExactly`, over whole runs `Stranding.RunStrandsExactly`). It never happens if whoever finds the
  buffer empty or full finds the mutex free (`Stranding.DirectUseStrandsNobody`; a step keeps to that exactly under
  `Stranding.QueuesExactly`). The runs in which it happens are `SleepingRuns.ReaderSleepsBesideAByte` and
  `SleepingRuns.WriterSleepsBesideRoom`.
* A writer and a reader of one I/O queue can put each other to sleep for good: `SleepingRuns.WriterAndReaderDeadlock`
  is a run, and `Deadlock.DeadlockStays` says exactly which call of a third thread ends it.
* malloc_page undoes nothing when it fails, and v2p_mapping does not check the frame it takes for a page table.
  `PageAllocation.MallocPageKeeps` decides from the state before the call which of these happens;
  `AddressSpaceRuns.NullLeavesPagesMapped` and `AddressSpaceRuns.FrameZeroBecomesATable` are runs that get there.
* addr_v2p returns a number for an unmapped page whose table exists (`Paging.AddrV2PAgrees`); at the kernel's start
  every page of the heap is one (`AddressSpaceRuns.AddrV2PAnswersForNothing`).
* target_vaddr_malloc checks no bound on the bit it sets (`AddressSpaceRuns.TargetVaddrMallocKeeps`).
* itoa's text denotes its number exactly under the condition of `Numbers.ItoaRoundTrip`; a full thread table makes pids
  collide (`ThreadTables.PidsAreDistinct`); a backspace at the first cell leaves video memory
  (`TerminalObjects.Display.PutChar`).

## Model

| member | source | states |
|---|---|---|
| IntrusiveLists.InsertBefore | lib/kernel/list.c:11-18 | splices one element into a chain in front of a given node and leaves every other link of it right |
| IntrusiveLists.PushFront | lib/kernel/list.c:20-22 | the list's sequence gains the element at its front; every other list of the family keeps its sequence |
| IntrusiveLists.PushBack | lib/kernel/list.c:24-26 | the list's sequence gains the element at its back; every other list keeps its sequence |
| IntrusiveLists.Remove | lib/kernel/list.c:28-33 | without being told the list, takes the element out of the one sequence that has it and leaves all others intact |
| IntrusiveLists.PopFront | lib/kernel/list.c:35-39 | on a non-empty list, returns the first element and leaves the rest |
| IntrusiveLists.Find | lib/kernel/list.c:41-50 | terminates and reports exactly membership in the abstract sequence |
| IntrusiveLists.FirstElem | lib/kernel/list.c:52-52 | the first element, or the tail sentinel for an empty list |
| IntrusiveLists.Len | lib/kernel/list.c:54-62 | terminates with the length of the abstract sequence |
| IntrusiveLists.Empty | lib/kernel/list.c:64-64 | true exactly for the empty sequence |
| IntrusiveLists.Where | lib/kernel/list.c:28-33 | a linked element is at one place of one list, and unlinking it from the family deletes just that place |
| Bitmaps.Bitmap.constructor | lib/kernel/bitmap.c:8-13 | the caller's bytes become the empty set; bytes beyond the bitmap are untouched |
| Bitmaps.Bitmap.Get | lib/kernel/bitmap.c:15-19 | the byte and mask test is membership in the set |
| Bitmaps.Bitmap.Scan | lib/kernel/bitmap.c:22-35 | for a count of one or more, the first-fit position or -1; for a count of zero, the position after the first one that does not hold the value |
| Bitmaps.Bitmap.Set | lib/kernel/bitmap.c:37-41 | adds exactly one element to the set |
| Bitmaps.Bitmap.Clear | lib/kernel/bitmap.c:43-47 | removes exactly one element from the set |
| Bitmaps.FirstFitIsLeast | lib/kernel/bitmap.c:22-35 | first fit is the least start of enough consecutive equal bits, and -1 exactly when there is none |
| Bitmaps.FirstFitUnique | lib/kernel/bitmap.c:22-35 | whatever position is least in that sense is the one first fit names |
| Scheduling.HighestIsLeast | thread/thread.c:224-227 | the scan of the mask finds the smallest priority in use, and -1 exactly on an empty mask |
| Scheduling.LeaveOnlyKeeps | thread/thread.c:64-72 | removal leaves queues and mask right for all other threads, with the thread in no queue |
| Scheduling.JoinOnlyKeeps | thread/thread.c:36-40 | queueing at the back makes queues and mask right again |
| Scheduling.JumpOnlyKeeps | thread/thread.c:50-54 | queueing at the front makes queues and mask right again |
| Scheduling.DispatchKeeps | thread/thread.c:224-262 | the thread that heads the non-empty queue of smallest index becomes RUNNING and nothing else changes; dispatch fails exactly when no thread is live |
| Scheduling.ExpireKeeps | thread/thread.c:244-251 | the demoted thread is out of its queue and at the back of the next one modulo 32, READY, with a tick for every three priorities begun; every live thread is still queued once; nobody else changes |
| Scheduling.MainScheduleKeeps | thread/thread.c:236-262 | from any good state it succeeds and keeps the invariant; with no switch due nothing changes, with one due the running thread is demoted so and the head of the smallest queue runs, every other field as it was |
| Scheduling.TickKeeps | device/timer.c:27-36 | a timer interrupt and its tail take one tick off the running slice and nothing else, or, with no tick left or a switch due, do that demotion and dispatch |
| Scheduling.BlockKeeps | thread/thread.c:181-199 | the blocked thread is out of its own queue with its priority and slice as they were, the head of the smallest non-empty queue runs, and no other queue or control block changes; it fails exactly when no other thread is live |
| Scheduling.UnblockKeeps | thread/thread.c:202-209 | the woken thread is queued once, ahead of all others of its priority, with its slice as it was; need_schedule is set iff it was or the thread outranks the running one; nobody else changes |
| Scheduling.CreateKeeps | thread/thread.c:148-155 | a new thread is queued once, behind all others of its priority, with a tick for every three priorities begun; need_schedule likewise; nobody else changes |
| SchedulerObjects.Scheduler.RqJoin | thread/thread.c:36-48 | the pointer and mask writes put the thread at the back of its priority's queue, set its mask bit, and set need_schedule iff it was or the thread outranks the running one; no control block changes |
| SchedulerObjects.Scheduler.RqJump | thread/thread.c:50-62 | the same at the front of the queue |
| SchedulerObjects.Scheduler.RqLeave | thread/thread.c:64-82 | the thread is out of its priority's queue and of no other, the mask bit of an emptied queue is cleared, need_schedule is set iff it was or the thread is the running one, and no control block changes |
| SchedulerObjects.Scheduler.NextThreadPick | thread/thread.c:224-234 | the tag found by scan and first element belongs to the first thread of the smallest non-empty queue |
| SchedulerObjects.Scheduler.Demote | thread/thread.c:244-251 | the five statements after a slice compute the demotion of the value scheduler |
| SchedulerObjects.Scheduler.MainSchedule | thread/thread.c:236-262 | on lists and bytes: with no switch due nothing changes, with one due the running thread is demoted and the head of the smallest queue runs, every other field as it was |
| SchedulerObjects.Scheduler.ThreadBlock | thread/thread.c:181-199 | on lists and bytes: the thread leaves its queue with its priority and slice as they were, and the head of the smallest queue runs |
| SchedulerObjects.Scheduler.ThreadUnblock | thread/thread.c:202-209 | on lists and bytes: the thread goes to the front of its queue, READY, with its slice as it was |
| SchedulerObjects.Scheduler.TimerHandler | device/timer.c:27-36 | slice accounting in place |
| SchedulerObjects.Scheduler.ThreadRun | thread/thread.c:148-155 | a new control block with a tick for every three priorities begun, and a tag at the back of its queue, are added to the lists without disturbing any other |
| SchedulerObjects.Scheduler.IdleThreadMake | thread/thread.c:164-171 | from no thread at all, the running code becomes the one thread, queued at priority 31: the start of every run |
| Starvation.SliceRotates | thread/thread.c:236-251 | a slice expiry moves the head of the smallest queue to the back of the next one, with a tick for every three priorities begun, and dispatches the new head |
| Starvation.WaitZero | thread/thread.c:229-234 | nothing left to wait for is the same as running |
| Starvation.WaitDrops | thread/thread.c:220-262 | every expiry brings every waiting thread exactly one expiry nearer |
| Starvation.DispatchedExactly | thread/thread.c:220-262 | a ready thread is first dispatched after exactly W expiries, W the sum of priority gaps below it plus the threads ahead of it, 32 each at priority 31 |
| Starvation.WaitBound | thread/thread.c:220-262 | W is at most 32 times the number of other live threads |
| Starvation.SliceLasts | device/timer.c:27-36 | a slice lasts one interrupt per tick of the allowance and one more |
| Starvation.FreshSlice | thread/thread.h:118-118 | with a fresh slice at priority p a thread is demoted, and the head of the smallest queue runs, at timer interrupt p / 3 + 2 and at none before |
| Starvation.DispatchedWithin | thread/thread.h:118-118 | with no slice longer than 11 ticks, as in every run by `Steps.SlicesFit`, a ready thread runs within twelve interrupts per expiry |
| Preemption.NextAfterDemotion | thread/thread.c:236-262 | when a switch is due, another thread is dispatched iff it is first in its queue, no other thread outranks it, and the running one, demoted, does not either |
| Preemption.WokenRunsNext | thread/thread.c:50-62 | whether or not a switch was due already: one is due after a wake-up iff it was or the thread outranks the running one, and then the woken thread runs next iff its priority is at most that of every other thread and of the running one after demotion |
| Preemption.CreatedRunsNext | thread/thread.c:42-48 | the same for a new thread, which goes behind others of its priority: strictly below every other thread's |
| Preemption.WokenPreempts | thread/thread.c:202-209 | with no switch due before: a woken thread that outranks the running one runs next iff the running one's priority is below 31 or its own is 0 |
| Preemption.CreatedPreempts | thread/thread.c:148-155 | the same for a new thread |
| Preemption.IdleKeepsTheProcessor | thread/thread.c:164-171 | the kernel's first thread at priority 8 does not displace the idle thread at 31 |
| Preemption.BootInv | thread/thread.c:164-171 | the start: the idle thread alone, running, in queue 31 and no other, with a tick for every three priorities begun |
| RingBuffers.PushKeeps | device/ioqueue.c:52-64 | accepting a byte when not full appends it to the bytes accepted and overwrites no unread one, across the index wrap |
| RingBuffers.PopKeeps | device/ioqueue.c:32-49 | taking a byte when not empty yields the oldest unread one |
| RingBuffers.Capacity | device/ioqueue.c:15-19 | at most 63 bytes are pending; full and empty mean what they say |
| RingBuffers.IoRing.PutByte | device/ioqueue.c:52-64 | on the array and indices, the unread bytes gain one at the end |
| RingBuffers.IoRing.GetByte | device/ioqueue.c:32-49 | on the array and indices, returns and drops the oldest unread byte |
| Synchronisation.TakeKeeps | thread/sync.c:14-26 | taking a free semaphore keeps the whole synchronisation invariant |
| Synchronisation.EnqueueKeeps | thread/sync.c:16-23 | queueing on a taken semaphore keeps the invariant, and the thread was not in the list before |
| Synchronisation.ReleaseKeeps | thread/sync.c:28-38 | releasing and taking the first waiter off the list keeps the invariant |
| Synchronisation.AwaitKeeps | device/ioqueue.c:21-24 | entering a waiter slot keeps the invariant, and the slot was free |
| Synchronisation.OwnerIsAlone | device/ioqueue.c:32-38 | whoever owns a queue's mutex finds both slots free and nobody else in its wait |
| KernelMachine.StepKeeps | thread/sync.c:14-48 | no step fails an assertion; every step keeps the invariant; the ready queues run empty exactly when a step blocks while all others are blocked |
| Steps.StepExactly | thread/sync.c:14-48 | a step of any kind ends in a given state iff that state is the one described field by field: values, waiter lists, slots, bytes, places, owners, queues, control blocks, need_schedule; otherwise it ends in none |
| Steps.LockTakes | thread/sync.c:14-26 | mutex_lock on a free mutex, at once or when its loop resumes: value 0, the running thread its one owner, and every other mutex, waiter list, queue, place and the scheduler as they were |
| Steps.UnlockGives | thread/sync.c:28-38 | mutex_unlock: value 1 and no owner, with waiters or without; the first waiter is ready at the front of its queue and off the list; nothing else changes |
| Steps.TailSchedules | kernel/interrupt.c:171-171 | the interrupt tail never fails; with a switch due it demotes the running thread and dispatches the head of the smallest queue, with none due it changes nothing |
| Steps.TailDispatches | kernel/interrupt.c:171-171 | after the tail another thread runs iff a switch was due, no live thread nor the demoted one outranks it, and it is first of its queue but for that one |
| Steps.WakeThenTail | device/ioqueue.c:26-64 | a put, get or unlock that wakes a thread, then the tail: the woken thread runs iff a switch was due or it outranks the running one, and neither that one, once demoted, nor any other live thread outranks it; if neither, the running thread goes on |
| Steps.SpawnThenTail | thread/thread.c:148-155 | the same for a new thread, which must outrank every other live thread strictly |
| KernelMachine.RunKeeps | thread/sync.c:14-48 | the invariant over whole runs, under any interleaving of timer switches, wake-ups and barging |
| KernelMachine.MutualExclusion | thread/sync.c:14-48 | in every reachable state, val plus the number of threads that have the mutex is 1; which threads have it is `Steps.HasSinceItsLock` |
| Steps.HasSinceItsLock | thread/sync.c:40-48 | over whole runs, a thread has a mutex iff the last lock or unlock of it that the thread completed, those inside the I/O queue included, was a lock |
| Steps.LocksExclude | thread/sync.c:40-48 | over whole runs, no two threads have completed a lock of the same mutex last, and while one has, the value is 0 |
| Steps.SlicesFit | thread/thread.h:118-118 | in every run no thread has more ticks left than one for every three priorities begun |
| KernelMachine.NeverPanics | thread/sync.c:28-38 | in every run the assertions of sem_up and thread_unblock pass |
| KernelMachine.WaiterLists | thread/sync.c:16-23 | a waiter list holds exactly the threads blocked in that loop, the running thread is in none, and a free mutex with waiters has a woken thread in its loop |
| WakeOrder.StepIsFifo | thread/sync.c:14-38 | in one step the thread that queues goes to the back of that mutex's waiters, the one that is woken was at the front, and no list changes otherwise |
| WakeOrder.WaitersAreFifo | thread/sync.c:14-38 | over whole runs, the threads woken are those that queued, in the same order, and the rest are still waiting in that order |
| KernelMachine.SlotOwners | device/ioqueue.c:21-64 | a slot names exactly the thread blocked in ioq_wait, the sole owner of the mutex, so at most one slot is taken |
| KernelMachine.QueuesAreFifo | device/ioqueue.c:32-64 | for any producers and consumers, the bytes got are a prefix of the bytes put, and at most 63 are pending |
| KernelMachine.AlwaysSomeoneReady | thread/thread.c:224-227 | if no thread waits in an I/O queue, and none waits for a mutex while it holds one, no step of any run finds every queue empty |
| KernelMachine.IdleKeepsItReady | thread/thread.c:224-227 | the same if one thread never waits, whatever the others do |
| KernelMachine.LoneReaderStops | thread/thread.c:224-227 | without that discipline: reading an empty queue with no other thread empties the ready queues |
| Stranding.SleepsUnchecked | device/ioqueue.c:21-57 | a reader or a writer that queued for the mutex goes to sleep in the slot once it has it, whatever happened to the buffer meanwhile |
| Stranding.StrandedExactly | device/ioqueue.c:32-64 | a step strands a reader beside unread bytes iff a reader that queued for the mutex gets it while there are bytes, and a writer beside free room iff a writer that queued for it gets it while there is room |
| Stranding.RunStrandsExactly | device/ioqueue.c:32-64 | over whole runs: no state of the run has a stranded thread iff no step of it is such a late one |
| Stranding.QueuesExactly | device/ioqueue.c:34-57 | while nobody queues for the mutex of a queue, a step makes somebody queue iff it is a get from an empty or a put into a full buffer that finds the mutex taken |
| Stranding.DirectUseStrandsNobody | device/ioqueue.c:32-64 | in every run without such a step, a reader in the slot means an empty buffer and a writer in the slot a full one |
| Stranding.BootStrandsNobody | thread/thread.c:164-178 | the kernel's start is a state from which that holds |
| Deadlock.DeadlockStays | device/ioqueue.c:32-64 | one thread in the slot of a full (empty) buffer and one queueing for the mutex it holds: both stay so in every step but a get from (put into) that buffer |
| Deadlock.DeadlockIsForever | device/ioqueue.c:32-64 | over whole runs without such a call both threads stay asleep |
| Turns.Turn | thread/thread.c:220-262 | if no other awake thread is in a wait, timer interrupts alone bring any awake thread to the processor, and nothing else changes |
| SleepingRuns.ReaderSleepsBesideAByte | device/ioqueue.c:32-49 | eight calls from the kernel's start, with any two bytes and only timer interrupts between: a reader resumes with the mutex free and a byte unread, and goes to sleep in the slot |
| SleepingRuns.WriterSleepsBesideRoom | device/ioqueue.c:52-64 | a run from the kernel's start: a writer resumes with the mutex free and room in the buffer, and goes to sleep in the slot |
| SleepingRuns.WriterAndReaderDeadlock | device/ioqueue.c:32-64 | a run from the kernel's start in which one writer and one reader end in a deadlock |
| KernelMachine.BootKeeps | thread/thread.c:164-178 | a state with the idle thread alone satisfies the invariant |
| KernelMachine.StartBoots | thread/thread.c:164-178 | such a state, with a mutex and an I/O queue, exists |
| SyncObjects.KernelData.SemDown | thread/sync.c:14-26 | on semaphore objects and linked waiter lists, one pass of the loop, with list_elem_find and list_push_back, ends in the state the machine's step says |
| SyncObjects.KernelData.QueueUp | thread/sync.c:18-20 | the running thread's pend_tag goes to the back of the waiter list unless it is on it; no other list of the kernel changes |
| SyncObjects.KernelData.SemUp | thread/sync.c:28-38 | list_pop_front, the wake-up and the increment, in this order, end in the state the machine's step says |
| SyncObjects.KernelData.IoqGetchar | device/ioqueue.c:32-49 | from the test of its loop, on the array and indices, returns the oldest unread byte and wakes a producer, or goes to wait |
| SyncObjects.KernelData.IoqPutchar | device/ioqueue.c:52-64 | from the test of its loop, on the array and indices, stores the byte and wakes a consumer, or goes to wait |
| SyncObjects.KernelData.IdleThreadMake | thread/thread.c:164-178 | from mutexes and queues that nobody has used, and no thread, the state is a start of the machine's runs |
| SyncObjects.KernelData.ThreadRun | thread/thread.c:148-155 | a thread with its two tags is added as the machine's step says |
| Paging.PteVaddrBits | kernel/memory.c:113-117 | the 32-bit mask, shift and sum has directory index 1023, the address's directory index as table index, and four times its table index as offset |
| Paging.PdeVaddrBits | kernel/memory.c:120-123 | the same for the directory-entry address, whose table index is 1023 as well |
| Paging.EntryBits | kernel/memory.c:149-158 | or-ing the flags into an aligned address changes no address bit and sets the present bit |
| Paging.RecursivePte | kernel/memory.c:113-117 | under a self-mapped directory the walk of pte_vaddr_get(v) is the physical address of v's own entry |
| Paging.RecursivePde | kernel/memory.c:120-123 | under a self-mapped directory the walk of pde_vaddr_get(v) is the physical address of v's directory entry |
| Paging.RecursivePteAbsent | kernel/memory.c:137-147 | without a present directory entry the table address is not translated at all |
| Paging.AddrV2PAgrees | kernel/memory.c:231-234 | addr_v2p equals the processor's walk iff the page is mapped or its table is missing, and faults iff the table is missing |
| AddressSpaceRuns.AddrV2PAnswersForNothing | kernel/memory.c:231-234 | at the kernel's start no page of the heap is mapped, and addr_v2p returns its offset in frame 0 for every address there |
| Paging.SetPteMaps | kernel/memory.c:146-149 | with a table present, afterwards every byte of the page walks into the frame and every other page of entries 1..1022 walks as before |
| Paging.NewTableMaps | kernel/memory.c:154-163 | with a fresh frame as table, the same, although the table was allocated, linked and cleared |
| AddressSpaces.KernelBranch | kernel/memory.c:146-149 | kernel mappings never take the absent-entry branch, whichever directory is active |
| AddressSpaces.KernelKeeps | kernel/memory.c:137-153 | giving a kernel page a free frame keeps the allocator's invariant |
| AddressSpaces.UserKeeps | kernel/memory.c:137-153 | giving a user page a free frame in an existing table keeps the invariant |
| AddressSpaces.TableKeeps | kernel/memory.c:154-160 | turning a free frame into a page table keeps the invariant |
| AddressSpaces.LedgerIsTables | kernel/memory.c:125-164 | the page tables of all directories give object o the frame f exactly when the allocation ledger does |
| PageAllocation.PageMaps | kernel/memory.c:176-183 | one page, decided before the call: NULL iff the pool is exhausted, the "pte repeat" assertion iff a frame is left and the page is mapped, frame 0 as a table iff a user page has a frame but none is left for its missing table, and otherwise the lowest free frame of its pool, and the lowest of the kernel's for a missing table |
| PageAllocation.VaddrGetIsFirstFit | kernel/memory.c:82-110 | reserves exactly the lowest run of contiguous free pages, and fails iff there is none |
| PageAllocation.FreeMeansUnmapped | kernel/memory.c:88-95 | a page whose reservation bit is clear has no frame |
| PageAllocation.MapPagesKeeps | kernel/memory.c:176-184 | the loop maps all pages iff the frames suffice for them and for the page tables missing in the range; it takes frame 0 for a table iff one is needed with none left; otherwise it stops with as many pages mapped as the pool had frames; the assertion never fires; no frame below one that it took is left free in that pool, and later pages get higher frames |
| PageAllocation.MallocPageKeeps | kernel/memory.c:166-185 | success, NULL and frame 0 as a page table are each decided, iff, by the free run of virtual pages, the free frames and the missing page tables before the call, with the exact state each leaves; frames are taken lowest first, in the order of the pages |
| Translations.KernelHalfAgrees | user/process.c:73-75 | every directory translates every kernel address as the kernel's own does |
| Translations.WalkIsLedger | kernel/memory.c:137-164 | an address is translated iff the ledger has a frame for its page, and then into that frame |
| Translations.TranslationsStay | kernel/memory.c:137-185 | an address that is translated stays translated to the same place |
| Translations.OthersUntouched | kernel/memory.c:166-185 | an allocation, complete or not, changes no translation but those of its own pages |
| Translations.PagesAreMapped | kernel/memory.c:166-185 | after success every byte of the pages is translated, into frames that were free |
| Translations.FramesOwnedOnce | kernel/memory.c:125-164 | a pool bit is set iff some mapped page or page table has the frame, never two of them, and user-pool frames are user pages |
| Translations.DistinctPagesDistinctFrames | kernel/memory.c:166-185 | two translated addresses share a frame only as the same page of the same space, or the same kernel page |
| Translations.UserStoresReachUserPages | kernel/memory.c:137-164 | a translated user address never leads to a page table, a directory or kernel data |
| AddressSpaceRuns.TargetVaddrMallocKeeps | kernel/memory.c:206-228 | all ways target_vaddr_malloc ends, decided before the call: it leaves the bitmap iff the kind is right and the page outside the pool; otherwise it panics iff the thread is of the wrong kind, or a frame is left and the page has one; NULL iff the kind is right and no frame is left; frame 0 as a table iff a frame is left for the page but none for its missing table |
| AddressSpaceRuns.NewDirectoryKeeps | user/process.c:73-80 | a blank page filled as page_dir_create does is a directory that keeps the invariant |
| AddressSpaceRuns.PageDirCreateKeeps | user/process.c:66-81 | succeeds iff a kernel page and a kernel frame are free, and then adds one directory on the lowest free kernel frame, with an empty pool of user pages; otherwise changes no directory |
| AddressSpaceRuns.StoreKeeps | kernel/memory.c:137-164 | a store through any translated address, bar pages that hold directories, changes the one word addressed, to what is stored, and keeps the allocator's invariant |
| AddressSpaceRuns.RunKeeps | kernel/memory.c:166-228 | the invariant over all sequences of allocations, new directories and stores; no frame ever changes owner |
| AddressSpaceRuns.BootKeeps | mbr_and_loader/loader.s:154-198 | the loader's tables with empty pools satisfy the invariant |
| AddressSpaceRuns.KernelHalfAgreesForever | user/process.c:66-81 | every directory ever created has the kernel's entries 768..1022 and translations at all later times |
| AddressSpaceRuns.FramesOwnedOnceForever | kernel/memory.c:125-185 | in every reachable state set bits and owners correspond one to one, after failed allocations as well |
| AddressSpaceRuns.TranslationsStayForever | kernel/memory.c:137-185 | in every run a translated address keeps its frame |
| AddressSpaceRuns.FrameZeroBecomesATable | kernel/memory.c:154-160 | a reachable state in which a request for one user page, by either call, makes physical frame 0 a page table |
| AddressSpaceRuns.NullLeavesPagesMapped | kernel/memory.c:173-184 | a reachable state in which malloc_page returns NULL and leaves three pages mapped |
| PagingObjects.PagePool.PaddrGet | kernel/memory.c:126-134 | the lowest clear bit of the bitmap is set and its frame returned, and no other bit changes; or all are set and nothing is returned |
| PagingObjects.PagePool.VaddrGet | kernel/memory.c:82-95 | the loop of bitmap_set reserves exactly the run that first fit found |
| PagingObjects.Mmu.AddrV2P | kernel/memory.c:231-234 | the load through the window and the sum, or a page fault |
| PagingObjects.Mmu.ClearTable | kernel/memory.c:160-160 | 4096 byte stores through the window clear exactly the new page table |
| PagingObjects.Mmu.FillDirectory | user/process.c:73-79 | 1024 byte loads and stores through two windows copy the kernel half, and the self entry is set |
| Words.PutMixes | lib/string.c:13-20 | once the j lowest bytes of a word are copied into another, copying byte j leaves the j + 1 lowest copied and the others as they were |
| PagingObjects.Memory.constructor | kernel/memory.c:31-69 | the cleared bitmaps and the loader's tables are the start state of the runs |
| PagingObjects.Memory.V2PMapping | kernel/memory.c:137-164 | its loads and stores through the recursive entry perform exactly one of the edits whose meaning is proved |
| PagingObjects.Memory.MapPages | kernel/memory.c:173-184 | the loop ends as the recursive specification says |
| PagingObjects.Memory.MallocPage | kernel/memory.c:166-185 | ends as the specification says, on bitmaps in bytes and tables behind the window |
| PagingObjects.Memory.TargetVaddrMalloc | kernel/memory.c:206-228 | ends as the specification says, for every page number |
| PagingObjects.Memory.PageDirCreate | user/process.c:66-81 | ends as the specification says and never faults |
| PagingObjects.Memory.PageDirActivate | user/process.c:47-55 | the directory of the thread to run becomes the active one, found through the recursive window; no pool, table or reservation changes |
| PoolLayout.PoolsTile | kernel/memory.c:31-69 | the two pools tile [2 MB, all_mem) but for less than a page, the heap has a page for each kernel frame, and each bitmap fills exactly the bytes set aside for it |
| PoolLayout.BitmapsFit | kernel/memory.c:41-67 | the bitmaps end at or below the idle thread's page iff memory is below 2 MB + 87378 pages, which covers 32 MB |
| PoolLayout.UserBitmapFits | user/process.c:84-91 | the pages asked for hold the bitmap of any number of user pages, and are the fewest with room for more than bits / 8 + 1 bytes |
| Contexts.LoadResumes | thread/switch.s:32-60 | context_load gives back what a frame of either kind was made from, whatever the registers are before |
| Contexts.TrapSaves | thread/switch.s:16-26 | task_trap leaves a fast frame with the callee-saved registers and return address, and nothing else changed |
| Contexts.IntrSaves | kernel/kernel.s:15-28 | an interrupt entry, from either privilege level, leaves a full frame of all sixteen registers |
| Contexts.SyscallReturns | kernel/kernel.s:114-136 | a system call gets ebx, ecx, edx as arguments and comes back with every register as before but eax, the handler's result |
| Contexts.SwitchResumes | thread/switch.s:16-60 | a switch keeps every suspended thread's frame and resumes the chosen one with what was saved for it |
| Contexts.SuspendedStays | thread/switch.s:16-60 | while a thread is suspended, whatever the others do, its record and its stack stay |
| Contexts.ContextRoundTrip | thread/switch.s:16-60 | over whole runs: after an interrupt a thread resumes with all registers; after task_trap with the preserved registers, stack pointer and return address; its stack is untouched |
| Contexts.FreshThreadStarts | thread/thread.c:115-131 | a new thread's first load enters kernel_thread_entry with its function and argument in the argument slots |
| Contexts.BlockRestoresInterrupts | thread/thread.c:181-199 | thread_block stores intr_disable's result in a local, and however long the thread sleeps leaves with interrupts as it was entered |
| Contexts.StartRuns | thread/thread.c:164-171 | the idle thread alone is a good state, in which a thread can be created and an interrupt can come |
| ContextObjects.Processor.TaskTrap | thread/switch.s:16-26 | the pushes and the store leave a fast frame of the running thread's preserved registers, and every other word as it was |
| ContextObjects.Processor.ContextLoad | thread/switch.s:32-60 | from any frame of either kind the pops resume what was saved in it |
| ContextObjects.Processor.IntrEntry | kernel/kernel.s:15-28 | delivery and the pushes, from either privilege level, leave a full frame of all registers, and every other word as it was |
| ContextObjects.Processor.SyscallEntry | kernel/kernel.s:114-128 | the three arguments lie on top, above them and 0x80 a full frame of the registers, and every other word is as it was |
| ContextObjects.Processor.SyscallExit | kernel/kernel.s:48-56 | above a full frame of some registers it comes back with exactly those but eax, the result |
| ContextObjects.Processor.StackInit | thread/thread.c:115-131 | the stores leave a fast frame that enters kernel_thread_entry with func and arg as arguments, and every word outside it as it was |
| Terminal.PutCharShows | lib/kernel/print.c:67-86 | one character, scrolling included: the screen goes on showing the window of the document |
| Terminal.PutStrShows | lib/kernel/print.c:88-94 | the same for any string no backspace of which meets the first cell |
| Terminal.TextIsConsecutive | lib/kernel/print.c:78-84 | plain text fills consecutive cells, wraps at 80 columns, and changes no other cell |
| Terminal.ControlsMove | lib/kernel/print.c:67-82 | a line end moves to the next multiple of 80 and changes no cell; a backspace moves back one cell and blanks it |
| Terminal.TerminalRefinesText | lib/kernel/print.c:51-94 | from a blank screen and any string without backspace: the cells are the last 25 rows of the text and the cursor is below 2000 |
| TerminalObjects.Display.Memcpy | lib/kernel/print.c:51-57 | the forward byte loop, for any two regions: every byte is the one the source had, or, when the destination starts inside the source, a repetition of the bytes up to it |
| TerminalObjects.OriginIsSource | lib/kernel/print.c:51-57 | so the copy is right iff the destination is not above the source or does not overlap it |
| TerminalObjects.Display.CleanLastLine | lib/kernel/print.c:59-65 | the last row becomes blank and no other byte changes |
| TerminalObjects.Display.CheckOutOfScreen | lib/kernel/print.c:23-30 | past the last cell, everything moves up one row and the cursor to the start of the last |
| TerminalObjects.Display.PutChar | lib/kernel/print.c:67-86 | on video memory, ends as the specification says; it stores outside video memory iff a backspace meets the first cell |
| TerminalObjects.Display.PutStr | lib/kernel/print.c:88-94 | on video memory, ends as the specification says for every string |
| Numbers.ItoaRoundTrip | lib/stdio.c:7-37 | for bases 2..36 the text parses back to the number iff it is non-negative, or the base is 10 and it is not the least integer |
| Numbers.ItoaUnique | lib/stdio.c:7-37 | where it does, it is the only text for the number without a leading zero |
| Numbers.HexReadsBack | lib/kernel/print.c:96-115 | put_int's text has the number as its hexadecimal value and no leading zero |
| Numbers.HexUnique | lib/kernel/print.c:96-115 | it is the only such text |
| NumberBuffers.ReverseInPlace | lib/stdio.c:30-36 | the swapping loop reverses the text in place and touches nothing after it |
| NumberBuffers.StoreDigits | lib/stdio.c:18-23 | the digit loop, with C's truncating division, stores the digits lowest first |
| NumberBuffers.Itoa | lib/stdio.c:7-37 | the buffer holds the text, a zero, and what it held before |
| NumberBuffers.HexDigits | lib/kernel/print.c:96-114 | for every 32-bit value, eight digits and the wrap of the 8-bit index included, the part of the buffer printed is the text |
| NumberBuffers.PutInt | lib/kernel/print.c:96-115 | prints that text and never leaves the screen |
| ThreadTables.PidsAreDistinct | thread/thread.c:89-100 | no two threads share a pid exactly as long as at most 128 were created |
| ThreadTables.SlotsNameTheirThreads | thread/thread.c:89-100 | after threads were created in order, slot i names the i-th of them for every i below 128, the other slots are free, and each such thread finds itself under its pid |
| ThreadTables.ThreadTable.PidAlloc | thread/thread.c:90-100 | the loop puts the thread into the first free slot, whose index is the pid, and changes no other; with none left nothing changes and the pid stays 0 |

## Left out

- Boot code: only the page directory and first table it leaves, as the start state.
- Port I/O, interrupt controller, timer chip and descriptor tables: hardware effects; the interrupt flag and the cursor are kept as state.
- TLB, cr3 and task-state-segment loads: only which directory is active, and that an interrupt from user mode starts at the end of the running thread's page.
- process_entry: it relies on inline assembly and on no interrupt arriving first; its request for one stack page is a `Target` step. A process's control block and bitmap are `Malloc` steps before its `CreateDir` step.
- A process whose page_dir_create failed: it would run in the kernel's directory with a pool of user pages; page_dir_create returning NULL is modelled, what process_run does with it is not.
- keyboard.c, console.c, the system-call wrappers, tss.c, descriptor packing and the rest of lib/string.c: table lookups, thin wrappers and simple loops.
- lib/kernel/print.s: an older duplicate that is not built.
- mutex.holder: mutex_unlock clears it after interrupts may be on again, so nothing true of it can be said.
- Locks around the page allocator: calls of the allocator are atomic here; target_vaddr_malloc's return without unlocking on failure is not modelled.
- Context switches inside an interrupt handler that blocks: runs of `Contexts` have handlers that return without blocking.
- The page-protection and user bits of entries, and the contents of data pages: entries carry the three flag bits, but walks test only the present bit.
- What happens after v2p_mapping used physical frame 0 as a page table: the memory it leaves is the outcome `Corrupted`, and a run ends there.
- elapsed_ticks, names and all_list: nothing reads them.
- Semaphores with an initial value above 1: the code has none; the invariant is about mutexes.
- SyncObjects.KernelData.SemDown: requires that the step has a next state, which `KernelMachine.StepKeeps` says is so unless every other thread is blocked.
- SchedulerObjects.Scheduler.ThreadBlock: requires that another thread is live; with none the code would index the queues with -1.
- What happens after target_vaddr_malloc set a bit outside its bitmap: the store itself is not made, and a run has no such step.
- NumberBuffers.Itoa: bases 0 and 1 are excluded, on which the C loop divides by zero or does not end; negating the least integer is undefined in C and wraps here.
- Contexts.ContextRoundTrip: addresses and words are unbounded, and stack overflow into the control block is excluded by the steps' conditions.
