# DisastrOS in Dafny

DisastrOS is the kernel of a small operating system simulator: processes that fork, sleep, wait for their children and exit,
a timer interrupt that rotates a ready list, and message queues on which readers block when a queue is empty and writers when
it is full. Nearly every function updates global lists in place, and what the kernel is for holds only because all syscalls
respect each other's bookkeeping. This project models the kernel and proves what holds in every state of every run.

## How it is laid out

- `LinkedList.dfy`, `PoolAllocator.dfy`: the two data structures at the bottom, on the heap. The intrusive doubly linked list
  refines a sequence, including the refusal of an item that still carries a link; the allocator, whose free list is threaded
  through an int array, refines `Pool`, a chain of free block indices. `Links.dfy` has the link fields as values, for the
  lists of the kernel: what `List_insert` and `List_detach` write, and when a list is threaded through them.
- `Machine.dfy`: the kernel as a state machine. `State` holds the globals, one function per syscall says what it makes of
  the state, `Step` is a syscall or a timer interrupt (interrupts are masked during a trap, disastrOS.c:239-240), `Run` a
  sequence of them. `Defined` is what the code takes for granted: a call outside it dereferences a null pointer or reads a
  freed block.
- `Kernel.dfy`, `Directory.dfy`: the kernel in the form of the source, a class with the globals as fields and one method per
  C function, loops included. Every method is proved to do to the state exactly what the machine's function says; on the way
  the scanned list of queues is proved to be a map, and the insertions that `List_insert` could refuse are proved never
  refused: those of control blocks, which move between lists, and that of a queue, whose block comes with the links it was
  freed with.
- `Invariants.dfy` and `Frames.dfy`, `Scheduling.dfy`, `Processes.dfy`, `QueueCalls.dfy`, `Runs.dfy`: the invariant `Inv` and
  the proof that every step keeps it.
- `Outcomes.dfy`: what every event comes to, said of the states before and after it and with the numbers callers see: for each
  call when it is refused and with which answer, when it blocks, and what is different afterwards. `StepEnds` proves it of the
  machine's step, which the class equals.
- The results on top: `WhoIsWhere.dfy` (every process in one place, with exactly one reason to wake; the queue directory),
  `Sleeping.dfy` (the clock, and when a sleeper is woken), `Answers.dfy` (what a caller finds when it runs again),
  `Numbers.dfy` (pids, fds, and children in order of birth),
  `Dispatching.dfy` (bounded waiting, the idle process, rotation, sleepers), `Fifo.dfy` (what goes through a queue),
  `Waiters.dfy` (no lost queue wakeup), `Exits.dfy` and `Reaping.dfy` (no lost exit, exact reaping), `Descriptors.dfy`,
  `PointerBlocks.dfy` (what the lists take from their pool, and what is lost).
- `Failures.dfy`: concrete runs from the start in which a guarantee is lost that holds under the conditions proved elsewhere.

## Where the code falls short

Four properties one would expect are false of the code. Each is proved with the exact condition under which it holds.

- A queue can be destroyed while processes are blocked on it, because destroy looks only at open descriptors and reads and
  writes do not need one. `StrandsExactly` gives the condition, `ReaderIsStranded` a run, and `NoLostQueueWakeup` shows that
  it cannot happen when processes use only queues they hold open.
- An exit hands the children to init but leaves their parent links, so init is not told when they exit. `TreeExactly` and
  `MissesExactly` give the conditions, `InheritedExitIsMissed` a run, and `NoLostExit` the guarantee for processes that exit
  after their children.
- The comment in disastrOS_wait.c:34-35 promises an error for a pid that is no child. The scan ends on the last child instead
  of on null, so the error is never given: the call reports another child (`WrongChild` says exactly when) or blocks
  (`BlocksForNobody` says exactly when) and stays blocked in every run (`BlockedForever`). `WrongChildIsReported` and
  `NobodyIsAwaited` are runs.
- A child reaped with open descriptors leaves its entries in the queues. `MatchedExactly` gives the condition;
  `ReapingOrphans` and `OrphanStays` show that each such entry stays in every run, `OrphanedQueueStays` that its queue can
  never be destroyed, and `QueueIsOrphaned` is a run.

Two pools leak. Reading a message does not free its block, so a system accepts at most 327680 writes in its life
(`LifetimeOfWrites`). Waking readers, delivering an exit and destroying a queue under waiters lose pointer blocks, 2048 at most
in a life (`PointerBlocksLeak`, `LossIsBounded`).

## Model

| member | source | states |
|---|---|---|
| LinkedList.ListHead.constructor | linked_list.c:4-8 | a fresh head is a valid empty list |
| LinkedList.ListHead.Find | linked_list.c:10-19 | the scan ends and finds the item exactly when it is a member |
| LinkedList.ListHead.Insert | linked_list.c:21-54 | an item with a link is refused and nothing changes; any other is put in front or right behind prev, all links and ends kept right |
| LinkedList.ListHead.Detach | linked_list.c:56-79 | the item leaves the list and loses its links, the rest keeps its order |
| LinkedList.ListHead.LinkedIffNotAlone | linked_list.c:22-23 | a member carries a link exactly when it is not the only one |
| LinkedList.ListHead.Traversals | linked_list.c:10-19 | following next from the first gives the list, following prev from the last its reverse |
| LinkedList.Move | linked_list.c:21-79 | detach from one list and insert at the end of another is never refused and leaves both valid |
| PoolAllocator.PoolAllocator.Init | pool_allocator.c:19-47 | fails exactly when memory is short, else the chain is all blocks in order |
| PoolAllocator.PoolAllocator.ThreadChain | pool_allocator.c:39-45 | the loop links every block to the next and ends the chain |
| PoolAllocator.PoolAllocator.GetBlock | pool_allocator.c:49-65 | takes the head of the chain and returns its address, or nothing when the chain is empty |
| PoolAllocator.PoolAllocator.ReleaseBlock | pool_allocator.c:67-91 | the verdict on the address, and the block back at the head of the chain on success only |
| PoolAllocator.PoolRuns | pool_allocator.c:49-91 | after any gets and releases the chain has no repetition and free and handed-out blocks make up the pool |
| PoolAllocator.EmptyIffAllOut | pool_allocator.c:50-51 | there is nothing to get exactly when all blocks are out |
| PoolAllocator.TakePut | pool_allocator.c:49-91 | get then release restores the chain, release then get returns the same block |
| PoolAllocator.VerdictMeaning | pool_allocator.c:72-84 | release succeeds exactly on the start of a handed-out block; the start of a free one is a double free, any other byte unaligned |
| PoolAllocator.BlocksDisjoint | pool_allocator.c:27-37 | blocks are disjoint byte ranges, disjoint from the bookkeeping behind them, which ends inside the memory |
| Machine.Due | disastrOS_timer.c:44-70 | exactly the leading timers not later than now, used for waking and for insertion |
| Machine.FdIndex | disastrOS_descriptor.c:67-76 | the first descriptor with the fd, or none |
| Directory.QueueIndex | disastrOS_mq.c:44-53 | the first queue with the id, or none |
| Directory.CatalogUpdate | disastrOS_mq.c:44-53 | changing a queue in the list changes that key of the map and keeps ids unique |
| Directory.CatalogAppend | disastrOS_open_mq.c:32-33 | appending a queue with a new id adds that key |
| Directory.CatalogRemove | disastrOS_destroy_mq.c:25-27 | taking a queue off the list removes that key and keeps ids unique |
| KernelCode.Kernel.constructor | disastrOS.c:218-257 | the initial state, which has the invariant |
| Links.TieThreads | linked_list.c:21-54 | the writes of an insertion thread the list with the item behind prev, or in front |
| Links.UntieThreads | linked_list.c:56-79 | the writes of a detach thread the rest of the list and leave the item without links |
| Links.CarriesIffNotAlone | linked_list.c:22-23 | a member of a threaded list carries a link exactly when it is not alone |
| KernelCode.Kernel.Insert | linked_list.c:21-54 | the link test refuses exactly the control blocks that are on a list; any other goes behind prev or in front, the links of all three lists kept right |
| KernelCode.Kernel.InsertLast | linked_list.c:21-54 | a control block on none of the lists is never refused and goes to the end |
| KernelCode.Kernel.Detach | linked_list.c:56-79 | a member leaves its list, is on none and carries no link, so it can be inserted again |
| KernelCode.Kernel.WakeDue | disastrOS_schedule.c:22-30 | the loop ends and wakes exactly the due sleepers, in timer order in front of the ready list |
| KernelCode.Kernel.WakeOne | disastrOS_schedule.c:23-29 | one round: the sleeper is on the waiting list and leaves it, ready, behind the one woken before, timer removed and freed |
| KernelCode.Kernel.PassOn | disastrOS_schedule.c:33-39 | the running process to the end of the ready list, its head runs |
| KernelCode.Kernel.Schedule | disastrOS_schedule.c:8-45 | is the machine's schedule |
| KernelCode.Kernel.TimerListAdd | disastrOS_timer.c:44-61 | inserts behind all timers that are not later, fails exactly when no block is free |
| KernelCode.Kernel.Sleep | disastrOS_sleep.c:7-33 | is the machine's sleep, whose outcome and waking time are those of SleepOutcome and SleepsExactly |
| KernelCode.Kernel.Fork | disastrOS_fork.c:7-30 | is the machine's fork |
| KernelCode.Kernel.ScanChildren | disastrOS_wait.c:21-32 | stops at the first match, else on the last child |
| KernelCode.Kernel.ReapChild | disastrOS_wait.c:46-56 | the child, found on the zombie list and among the children, leaves both, its pid and value go to the caller, its block is free |
| KernelCode.Kernel.Wait | disastrOS_wait.c:7-67 | is the machine's wait |
| KernelCode.Kernel.GiveChildrenAway | disastrOS_exit.c:22-35 | all children in order at the end of init's list, parent links unchanged |
| KernelCode.Kernel.TellParent | disastrOS_exit.c:48-60 | the waiting parent gets pid and value, leaves the waiting list, and loses the child from its list, where it is found |
| KernelCode.Kernel.DropTimersOf | disastrOS_exit.c:65-74 | exactly the process's timers leave the list, and their blocks go back to the pool in that order |
| KernelCode.Kernel.ReleaseDescriptor | disastrOS_close_mq.c:26-32 | the entry, found in the descriptor's queue, leaves it and both blocks are free |
| KernelCode.Kernel.DropDescriptors | disastrOS_exit.c:78-87 | the loop releases both sides of every descriptor of the process |
| KernelCode.Kernel.FreeProcess | disastrOS_exit.c:65-92 | timers, descriptors, zombie list entry and control block of the process are gone |
| KernelCode.Kernel.DeliverTo | disastrOS_exit.c:42-93 | the branch of exit in which the parent was waiting, found on the waiting list |
| KernelCode.Kernel.Exit | disastrOS_exit.c:15-101 | is the machine's exit, both branches |
| KernelCode.Kernel.MessageQueueListById | disastrOS_mq.c:44-53 | the scan finds the first queue with the id |
| KernelCode.Kernel.AddQueue | disastrOS_open_mq.c:32-33 | a new empty queue at the end of the list, unless the recycled block still carries a link: then it is on no list |
| KernelCode.Kernel.CreateAndAttach | disastrOS_open_mq.c:32-67 | a create whose block carries no link is never refused and gets its descriptor |
| KernelCode.Kernel.NewDescriptor | disastrOS_open_mq.c:52-67 | the process's side of a new descriptor, with the next fd, which is the answer |
| KernelCode.Kernel.AttachTo | disastrOS_open_mq.c:52-67 | a descriptor on both sides, or the error when no block is free |
| KernelCode.Kernel.Open | disastrOS_open_mq.c:10-68 | is the machine's open, whose answers are those of OpenOutcome |
| KernelCode.Kernel.DescriptorListByFd | disastrOS_descriptor.c:67-76 | the scan finds the first descriptor with the fd |
| KernelCode.Kernel.Close | disastrOS_close_mq.c:10-34 | is the machine's close |
| KernelCode.Kernel.Destroy | disastrOS_destroy_mq.c:9-29 | is the machine's destroy |
| KernelCode.Kernel.RemoveQueue | disastrOS_destroy_mq.c:25-27 | the queue leaves mq_list, its block loses its links and goes back to the pool |
| KernelCode.Kernel.WakeReaders | disastrOS_write_mq.c:55-70 | the loop wakes all readers in order, to the end of the ready list, each with the answer that BlockedIsTurnedAway fixes at -20 |
| KernelCode.Kernel.WakeWriters | disastrOS_read_mq.c:64-80 | the loop wakes all writers in order, each found on the waiting list and with the answer -20 too, and gives back one pointer block for each |
| KernelCode.Kernel.MessageAlloc | disastrOS_mq.c:130-139 | the copy loop stores exactly the bytes of the message |
| KernelCode.Kernel.BlockOn | disastrOS_write_mq.c:36-44 | the caller waits on the queue and the head of the ready list runs |
| KernelCode.Kernel.Write | disastrOS_write_mq.c:11-75 | is the machine's write, whose answers are those of WriteOutcome |
| KernelCode.Kernel.CopyOut | disastrOS_read_mq.c:85-89 | the copy loop fills the start of the buffer with the message and leaves the rest |
| KernelCode.Kernel.Read | disastrOS_read_mq.c:12-96 | is the machine's read, and the buffer holds exactly the first message or is unchanged |
| KernelCode.Kernel.Interrupt | disastrOS.c:58-72 | keeps the invariant and is the machine's interrupt step, which moves the clock as TimeIsInterrupts says |
| KernelCode.Kernel.Trap | disastrOS.c:100-152 | keeps the invariant and is the machine's step for the call |
| KernelCode.InvPrepares | linked_list.c:22-23 | with the invariant every call finds what it needs: no insertion is refused, of a recycled queue block neither, and whatever is detached is on its list |
| Invariants.BootInv | disastrOS.c:218-257 | the initial state has the invariant |
| Scheduling.ScheduleKeeps | disastrOS_schedule.c:8-45 | internal_schedule keeps the invariant |
| Processes.SleepKeeps | disastrOS_sleep.c:7-33 | sleep keeps the invariant |
| Processes.ForkKeeps | disastrOS_spawn.c:11-33 | fork and spawn's bookkeeping keep the invariant |
| Processes.ScanFinds | disastrOS_wait.c:21-32 | what the scan ends on, for pid 0, a child's pid and any other |
| Processes.ScanFirst | disastrOS_wait.c:21-32 | for pid 0 the scan ends on the first child that has exited, else on the last child |
| Processes.WaitKeeps | disastrOS_wait.c:7-67 | wait keeps the invariant |
| Processes.ExitKeeps | disastrOS_exit.c:15-101 | exit keeps the invariant, children left behind or not |
| QueueCalls.OpenKeeps | disastrOS_open_mq.c:10-68 | open keeps the invariant |
| QueueCalls.AttachHandles | disastrOS_open_mq.c:52-64 | the unchecked pointer block is there whenever the descriptor block is, and both sides agree |
| QueueCalls.CloseKeeps | disastrOS_close_mq.c:10-34 | close keeps the invariant |
| QueueCalls.DestroyKeeps | disastrOS_destroy_mq.c:9-29 | destroy keeps the invariant |
| QueueCalls.WriteKeeps | disastrOS_write_mq.c:11-75 | write keeps the invariant |
| QueueCalls.ReadKeeps | disastrOS_read_mq.c:12-96 | read keeps the invariant |
| Runs.StepKeeps | disastrOS.c:100-152 | every syscall and interrupt keeps the invariant |
| Runs.RunKeeps | disastrOS.c:100-152 | every state of every run has the invariant |
| Outcomes.StepEnds | disastrOS.c:100-152 | every syscall and interrupt comes to one of the outcomes below |
| Outcomes.OpenOutcome | disastrOS_open_mq.c:10-68 | open answers -8 for a queue that is there, -9 for one that is not, -10 for an exclusive open of one that is in use, and -11 when no block is left; else with the fd of the one new descriptor and entry, above all fds the caller has |
| Outcomes.OpenThenClose | disastrOS_close_mq.c:15-33 | closing the fd that open answered with restores descriptors, queues and the order of both pools |
| Outcomes.MadeAndDestroyed | disastrOS_destroy_mq.c:19-28 | a queue made, closed and destroyed leaves no trace |
| Outcomes.CloseOutcome | disastrOS_close_mq.c:10-34 | close answers 0 and takes exactly the descriptor with this fd and its entry away, or -12 if there is none |
| Outcomes.DestroyOutcome | disastrOS_destroy_mq.c:9-29 | destroy answers 0 and takes exactly the queue away, -12 if it is not there, -13 if it is in use |
| Outcomes.WriteOutcome | disastrOS_write_mq.c:11-75 | write answers -146 for more than 64 bytes, -11 without the queue, blocks exactly at 256 messages, else puts the message last, answers with its length and wakes all readers in order with -20 |
| Outcomes.ReadOutcome | disastrOS_read_mq.c:12-96 | read blocks exactly at an empty queue, answers -15 when the first message does not fit, else takes it, answers with its length and wakes all writers in order with -20 |
| Outcomes.ForkOutcome | disastrOS_fork.c:7-30 | the new process is blank, last of the caller's children and of the ready list, and its pid, above all others, is the answer |
| Outcomes.SleepOutcome | disastrOS_sleep.c:7-33 | sleep is never refused: the caller waits with a timer that many cycles ahead, behind those that are not later |
| Outcomes.WaitOutcome | disastrOS_wait.c:7-67 | wait answers -5 without children, else takes the scanned child if it has exited, with pid and value, the cell untouched if none was given, else blocks |
| Outcomes.ExitOutcome | disastrOS_exit.c:15-101 | exit gives the children in order to init, and is told to the parent exactly if that one is blocked in a wait for it or for any child, which then runs; else the caller is a zombie |
| Outcomes.ScheduleOutcome | disastrOS_schedule.c:8-45 | the due sleepers, the ready and who ran, in this order, become who runs and the ready, and nobody's answer changes |
| WhoIsWhere.EveryoneOnce | disastrOS_schedule.c:22-39 | running, ready, waiting and zombie together are the live processes, each exactly once |
| WhoIsWhere.OneReason | disastrOS_sleep.c:18-25 | of one timer, one place among the readers or the writers of one queue, and a wait, a waiting process has never more than one as reason to be woken, and all have one exactly when nobody is stranded |
| WhoIsWhere.OneReasonInRuns | disastrOS_sleep.c:18-25 | after every run from the start in which processes use queues they hold open, a waiting process has exactly one reason |
| WhoIsWhere.EveryRun | disastrOS_pcb.c:26-40 | after every run from the start the live processes are in one place each, the waiting ones have at most one reason, and free and used blocks are 2048 control blocks, 2048 timers and 4 queues |
| WhoIsWhere.StatusInRuns | disastrOS_schedule.c:25-38 | after every run from the start whoever is on the ready list is marked Ready, and whoever takes over is marked Running unless a sleep or a wait gave the processor up |
| WhoIsWhere.QueueInOrder | disastrOS_read_mq.c:34-92 | after every run from the start num_written is the number of messages and at most 256, readers wait only at an empty queue and writers only at a full one, nobody twice |
| WhoIsWhere.DirectoryFollowsRun | disastrOS_mq.c:44-53 | after any run a queue is found exactly when it was created and not destroyed since |
| WhoIsWhere.CreateIsNeverRefused | disastrOS_mq.c:24-37 | after every run from the start mq_list is threaded, free queue blocks carry no link, and a create with a new id puts the queue at the end of the list |
| WhoIsWhere.LinkedBlockIsRefused | disastrOS_open_mq.c:32-33 | whatever the state, a created queue is found afterwards exactly when its block carried no link |
| Dispatching.StepAdvances | disastrOS_schedule.c:22-39 | no step moves a ready process back, counting pending timers, and every schedule moves it forward |
| Dispatching.BoundedDispatch | disastrOS_schedule.c:22-39 | whatever calls interleave, a ready process runs within as many schedules as there are processes before it and pending timers, and one more |
| Dispatching.ReadyProcessRuns | disastrOS_schedule.c:33-39 | the same for position i and T timers: by schedule i + T + 1 |
| Dispatching.IdleRun | disastrOS_test.c:17-24 | with an idle process that never blocks or exits, no call ever finds the ready list empty and somebody always runs |
| Dispatching.IdleFromBoot | disastrOS_test.c:74-84 | from the start, when init first makes the idle process |
| Dispatching.PureRotation | disastrOS_schedule.c:33-39 | without timers one schedule per ready process and one more gives each exactly one turn, nobody twice, and restores the order |
| Dispatching.WakesExactlyTheDue | disastrOS_schedule.c:22-30 | exactly the due sleepers are woken, in order, and only future timers are left |
| Dispatching.StableInsertion | disastrOS_timer.c:44-61 | a new timer goes behind earlier and equal times and before later ones |
| Dispatching.SleepNeverFails | disastrOS_sleep.c:10-23 | in no reachable state can sleep fail: the caller has no timer and a block is free |
| Sleeping.TimeIsInterrupts | disastrOS.c:62 | after every run from the start the time is the number of interrupts |
| Sleeping.SleepsExactly | disastrOS_sleep.c:15-18 | after a sleep for c cycles the caller is waiting all along exactly as long as every schedule has fewer than c interrupts since the call up to it |
| Sleeping.NotYetMeans | disastrOS_timer.c:63-70 | which is: until the c-th interrupt, or until the first schedule if c is not positive |
| Sleeping.SleeperIsWoken | disastrOS_schedule.c:22-30 | from the start: before its next call the caller waits before the c-th interrupt, and is ready or runs after it, its answer as it was |
| Answers.AnswerStays | disastrOS.c:100-120 | whoever is ready or runs finds what it was last answered, until it makes a call |
| Answers.BlockedIsTurnedAway | disastrOS_write_mq.c:55-70 | whoever is blocked in a read or write is still blocked or has been turned away with -20, in every run until it makes a call |
| Answers.AnswerTellsSuccess | disastrOS_read_mq.c:64-93 | a read or write passed its message on exactly if the answer its caller finds when it runs again is not negative, and is then the length |
| Numbers.ForkNumbers | disastrOS_pcb.c:46 | the n-th fork makes process n |
| Numbers.GoneForEver | disastrOS_pcb.c:46 | a pid is never used again |
| Numbers.OpenNumbers | disastrOS_open_mq.c:52-67 | the n-th descriptor a process gets has fd n - 1, whatever it has closed |
| Numbers.OldestFirst | disastrOS_wait.c:23-32 | when processes exit after their children, wait for any child answers with the oldest that has exited |
| Fifo.FifoStep | disastrOS_write_mq.c:48-73 | per step, queued and sent equals received and queued, exactly when the step does not destroy the queue with messages in it |
| Fifo.FifoDelivery | disastrOS_read_mq.c:53-93 | over any such run the successful writes in order are the successful reads and then what is queued, byte for byte, for each queue separately |
| Fifo.ReadIsPrefixOfWritten | disastrOS_read_mq.c:53-93 | from the start, what was read is a prefix of what was written |
| Fifo.MessageBlocksLeak | disastrOS_read_mq.c:59-95 | reads give no block back: writes accepted in a run are exactly the blocks used up |
| Fifo.LifetimeOfWrites | disastrOS_mq.c:130-139 | from the start: accepted writes and free blocks are 327680 together |
| PointerBlocks.BlocksStep | disastrOS_write_mq.c:60-69 | per step, free pointer blocks and those with an entry are what they were, less one for every reader woken and exit delivered and for everybody blocked on a destroyed queue |
| PointerBlocks.PointerBlocksLeak | disastrOS_exit.c:53-54 | the same over any run, and the pool never runs below zero |
| PointerBlocks.LossIsBounded | disastrOS_pcb.c:61-71 | from the start free, used and lost pointer blocks are 2048 together |
| Waiters.StrandsExactly | disastrOS_destroy_mq.c:19-27 | whoever is blocked on a queue keeps it in every step but a destroy under waiters, and loses it in that one |
| Waiters.HeldIsNotDestroyed | disastrOS_destroy_mq.c:20-23 | a queue whose waiters hold it open is refused by destroy |
| Waiters.NoLostQueueWakeup | disastrOS_read_mq.c:34-92 | when processes use only queues they hold open, every blocked reader waits at an existing empty queue and every blocked writer at a full one, in every run |
| Waiters.WakeupsFromBoot | disastrOS_read_mq.c:34-92 | the same from the start, with nothing asked of the first state |
| Exits.TreeExactly | disastrOS_exit.c:22-35 | children lists and parent links stay in agreement in every step but an exit with children, which breaks it |
| Exits.MissesExactly | disastrOS_exit.c:37-60 | when exactly an exit leaves somebody blocked in a wait it should have ended |
| Exits.NoLostExit | disastrOS_exit.c:37-60 | when processes exit after their children, nobody blocked in wait has a matching child that has exited, in every run |
| Exits.ExitsFromBoot | disastrOS_exit.c:37-60 | the same from the start, with nothing asked of the first state |
| Exits.AwaitedIsWaiting | disastrOS_exit.c:48-60 | after every run from the start the parent an exit wakes is on the waiting list, once, and the child on its list, if that parent made it |
| Reaping.WaitOutcome | disastrOS_wait.c:7-67 | wait fails exactly for want of children, else reaps the scanned child if it has exited, else blocks |
| Reaping.ExitOutcome | disastrOS_exit.c:37-100 | an exit is delivered with pid and value to the parent waiting for it, or leaves a zombie with the value |
| Reaping.ReportedOnce | disastrOS_wait.c:45-57 | over any run no child is reported twice |
| Reaping.NobodyLost | disastrOS_pcb.c:46 | over any run the processes made are those there and those reported |
| Reaping.ReportsAreTruthful | disastrOS_exit.c:17-60 | over any run every reported value is the one the child passed to exit |
| Reaping.ReportsGoRight | disastrOS_exit.c:22-35 | over any run every report goes to the process the child was born to, or to init |
| Reaping.ReapingIsExact | disastrOS_wait.c:45-57 | from the start: no child reported twice, none lost, and every report has the value the child passed to exit and goes to the process it was born to or handed to |
| Reaping.WrongChild | disastrOS_wait.c:25-42 | wait for a pid reports another child exactly when that pid is no child and the last child has exited |
| Reaping.BlocksForNobody | disastrOS_wait.c:25-66 | a wait ends up waiting for nobody exactly when it names a pid that was not born to the caller, there are children, and the one the scan ends on has not exited |
| Reaping.BlockedForever | disastrOS_wait.c:34-66 | a process waiting for a pid that is no child's never leaves the waiting list, in any run |
| Descriptors.PoolsInLockstep | disastrOS_descriptor.c:23-37 | after every run both descriptor pools chain the same blocks in the same order |
| Descriptors.BlocksAreUsed | disastrOS_descriptor.c:23-37 | after every run the blocks of the descriptor pool that are out are exactly those with an entry in a queue, so that open finds none left exactly when all 2048 have one |
| Descriptors.EntryIsUnique | disastrOS_open_mq.c:52-67 | a descriptor has exactly one entry, in its queue and nowhere else, and its fd is unique in its process |
| Descriptors.MatchedExactly | disastrOS_wait.c:45-57 | every entry keeps its holder in every step but the reaping of a process with open descriptors, which breaks it |
| Descriptors.ReapingOrphans | disastrOS_wait.c:45-57 | every descriptor a child is reaped with leaves an entry in its queue whose holder is gone |
| Descriptors.OrphanStays | disastrOS_close_mq.c:26-32 | such an entry stays, without a holder, in every run |
| Descriptors.OrphanedQueueStays | disastrOS_destroy_mq.c:20-23 | so its queue is there after every run and destroy is refused |
| Failures.ReaderIsStranded | disastrOS_destroy_mq.c:19-27 | a run in which a queue is destroyed under a blocked reader |
| Failures.InheritedExitIsMissed | disastrOS_exit.c:22-60 | a run in which init is not told of the exit of a child it inherited |
| Failures.WrongChildIsReported | disastrOS_wait.c:34-57 | a run after which wait for a pid that does not exist reports a child |
| Failures.NobodyIsAwaited | disastrOS_wait.c:34-66 | a run into a wait that never ends |
| Failures.QueueIsOrphaned | disastrOS_wait.c:45-57 | a run after which a queue has an entry nobody holds |

## Left out

- Context switching, stacks, signals, the interval timer and the varargs entry: foreign calls; a syscall or an interrupt is one atomic step.
- Printing, logging and the test programs.
- The resource syscalls, near copies of the queue calls with another record type.
- Exit of init and of a process whose parent's control block is already freed: the code then reads through a null or dangling pointer, so such events are not `Defined`.
- Reads of a queue that does not exist: the code dereferences null; such events are not `Defined` either.
- Exhaustion of the pools whose allocation is not checked (control blocks, child and waiter pointers, queues, messages): `Defined` asks for a free block, counted by `pcbFree`, `pcbPtrFree` and `msgFree`; the queue pool is modelled block by block. So are the timer pool and both descriptor pools, whose availability is proved.
- KernelCode.Kernel.WakeWriters: the assertion that freeing a writer's pointer block succeeds (disastrOS_read_mq.c:79) is not stated block by block, because that pool is a count; `LossIsBounded` shows that the count never passes the size of the pool.
- KernelCode.Kernel.Wait: the error branch at disastrOS_wait.c:36-42 is not written out; the scanned pointer is never null there, as the children list is not empty.
- KernelCode.Kernel.Fork: the error branch at disastrOS_fork.c:10-13 is not written out; an exhausted pool is dereferenced inside the allocation before it.
- Control blocks, messages and queues are values kept in maps and sequences and named by pid, block or id, not heap records: aliasing between them is not captured. The link fields of control blocks and queue blocks are modelled, in `Links`. Those of timers, messages, descriptors and pointer blocks are not: their allocators reset both links, so their insertions cannot be refused.
- Signal masks, which are set and never acted on, and the stale call record of a recycled control block, which is read only while its process waits in a later call.
- Overflow of time, pids, fds and offsets: integers are unbounded. Message lengths are not negative and a caller's buffers are as long as it says.
