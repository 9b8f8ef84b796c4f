# The Kaya nucleus in Dafny

Kaya's nucleus keeps a fixed table of process control blocks (pcbs). The free
list, the ready queue and every semaphore queue are circular doubly linked lists
through the same two pcb fields; the process tree is a set of doubly linked
sibling lists through four others. The Active Semaphore List (ASL) is a sorted
list of descriptors, taken from a fixed pool, each owning one queue. On top of
these, system calls 1-4, 7 and 8, device, quantum and clock interrupts and the
scheduler are the steps of one state machine.

The project has two layers, each the partner of the other.

* **On values.** `Nucleus.dfy` states the machine: the state (queues, semaphore
  values, process forest, counters, `currentProcess`, `waitFlag`), one function
  per kernel step doing what the C code does, the invariant `Inv`, and runs of
  the machine from `main` on. `Keeps`, `Kill`, `Subtree`, `Safety`, `Counting`,
  `Fairness`, `Devices` and `Contexts` prove theorems about every step and every
  run (`Contexts`: which processor state a process is loaded with), and
  `Witnesses` exhibits runs from `main` into each state in which the code fails.
  `Forest` and `Seqs` hold the process forest and facts about sequences.
* **In memory.** `Pcb.dfy` (the queues, tree links and free list of
  `phase1/pcb.c`), `Asl.dfy` (`phase1/asl.c`) and `Kernel.dfy` (the globals and
  handlers of `phase2`) are imperative: classes whose methods update pointers in
  place, with the loops and branches of the C code. Each method is proved to
  take the value it represents to the value the first layer prescribes.
  `Kernels.Kernel.Boot` and `Kernels.Kernel.Handle` are the two entry points: the
  first reaches a `Booted` state, the second takes one step of the machine and
  keeps both the representation (`Rep`) and the invariant (`Inv`), so the
  theorems about runs apply to the pointer program. `KernelFacts.dfy` holds the
  heap-free facts these methods use, and `PowerOn.dfy` builds the tables, boots
  and enters the kernel once.

MAXPROC is any `n >= 1`. LDST, WAIT, HALT and PANIC become an outcome value, and
so do the ways in which control is lost (`Return`, `Fault`). A processor state
is `Cpu(v0, rest)`. Semaphore addresses lie strictly between 0 and MAXINT, the
sentinels' addresses; NULL and MAXINT are the same value (`h/const.h:65`,
`h/const.h:70`). `born` and `clock` in the forest are creation stamps with no
counterpart in the C code; they make the parent relation acyclic and bound the
recursion of `terminateRecursively`.

## Where the code and its comments differ

The code is modelled as written. Each departure has a condition that holds
exactly when the code does what its comment says, stated on the state before the
call.

* `outBlocked` (`phase1/asl.c:63`) means to ask whether the queue becomes empty
  but looks at the element after the head. It frees the descriptor of a queue
  that still has members exactly when `p` is second of two or more
  (`Kill.OutBlockedExact`). For SYS 2 this means: the kernel's structures survive
  exactly when no victim is second in its queue once the victims before it have
  left (`Kill.KillExact`, `Subtree.TerminateExact`, `Safety.StepKeepsExactly`).
  Otherwise whoever is left on that queue is dropped from the ASL; and if one of
  them is itself a later victim, `outBlocked` does not find it and its NULL goes
  into `freePcb` (`Kill.NullExact`, `Safety.OutcomeExact`). Both happen in states
  reachable from `main` (`Witnesses.TerminateLoses`, `Witnesses.TerminateStrands`).
* `outBlocked` promises NULL for a process that is on no semaphore queue
  (`phase1/asl.c:53-56`). For one that is not blocked at all, p_semAdd is NULL,
  which is the upper sentinel's address; the guard then goes through the
  sentinel's empty s_procQ. This is so exactly for p_semAdd == NULL
  (`Asls.Asl.OutBlocked`); no kernel path does it.
* SYS 2 on a process without a parent hands NULL to `freePcb`
  (`phase2/exceptions.c:87`): outcome `Fault`, for the first process right after
  boot already (`Witnesses.RootFaults`).
* SYS 2 does not clear `currentProcess` (`phase2/exceptions.c:43-46`). If the
  scheduler then waits, the pointer is stale, and a clock tick in that wait makes
  the waiters ready but loads the interrupted state instead of calling the
  scheduler (`Safety.TickInWait`). However many ticks follow, none of them
  dispatches anybody (`Fairness.TicksDispatchNobody`, `Witnesses.TicksStarve`).
* A failing SYS 1 stores -1 and returns without LDST
  (`phase2/exceptions.c:27-30`): outcome `Failed`; the caller is taken to go on.
* Killing a device waiter does not raise the semaphore
  (`phase2/exceptions.c:77-82`). The deficit grows by exactly the number of waiters
  killed there (`Devices.DebtIsKilledWaiters`).
* A device interrupt without a waiter (`phase2/interrupts.c:190-204`) goes
  through NULL if there is such a deficit and returns without LDST if not
  (`Safety.OutcomeExact`); the former is reachable (`Witnesses.InterruptFaults`).
* A terminal's receive interrupt is charged to the receive semaphore exactly when
  the receive status is READY; a received character (status 5) is charged to the
  transmitter (`phase2/interrupts.c:178-181`, `Devices.InterruptMeetsWait`,
  `Devices.ReceivedCharMisses`).
* HALT is unreachable: the process that executes SYS 2 has a parent that survives
  (`Subtree.SomeoneSurvives`, `Safety.OutcomeExact`).

Assumed of the surroundings (`Nucleus.Enabled`, `Nucleus.Image`): system calls
and quantum ends happen only while a process runs; interrupt and SYS 8
coordinates name real devices (lines 3-7, devices 0-7); SYS 3 and SYS 4 name a
word strictly between 0 and MAXINT that is not a cell of `devSemTable`; user
semaphores are not negative at boot. `Kernels.Kernel.Verhogen` and
`Kernels.Kernel.Passeren` refine their steps for cells of `devSemTable` too.

A run (`Nucleus.IsRun`) goes on after LDST, WAIT and a failed SYS 1. It ends with
PANIC, `Return` or `Fault`, and with a SYS 2 that drops somebody
(`Nucleus.GoesOn`, `Safety.GoesOnExactly`).

## Model

| member | source | states |
|---|---|---|
| Pcbs.InsertProcQ | phase1/pcb.c:31-44 | the ring of q becomes the ring of q followed by p; links outside q and p are untouched |
| Pcbs.OutProcQ | phase1/pcb.c:57-90 | p leaves the ring wherever it stands, tail pointer included; NULL and no change when it is not there; other rings untouched; the search ends |
| Pcbs.RemoveProcQ | phase1/pcb.c:95-102 | the head is returned and the ring is that of the rest; NULL exactly for the empty queue |
| Pcbs.RingUnlinked | phase1/pcb.c:57-90 | linking the two neighbours of a member to each other leaves exactly the ring of the others, whichever position it had |
| Pcbs.InsertChild | phase1/pcb.c:156-167 | exactly which child, parent and sibling links change |
| Pcbs.InsertChildExact | phase1/pcb.c:156-167 | the links describe the forest with p as first child if and only if p came with clean sibling links |
| Pcbs.OutChild | phase1/pcb.c:173-197 | exactly which links change when the first, a middle, the last or the only child is cut off; NULL exactly for a process without a parent |
| Pcbs.CutFamilies | phase1/pcb.c:173-197 | after outChild the links describe the same forest with only p's edge to its parent gone |
| Pcbs.RemoveChild | phase1/pcb.c:202-207 | the newest child is returned and the links describe the forest without its edge; NULL and no change when there is no child |
| Pcbs.CleanFamilies | phase1/pcb.c:213-228 | cleaning a pcb without relatives leaves the forest as it was |
| Pcbs.PcbPool.FreePcb | phase1/pcb.c:47-50 | p, cleaned, becomes the last of the free list, and no link outside it changes |
| Pcbs.PcbPool.AllocPcb | phase1/pcb.c:109-118 | the head of the free list, cleaned; NULL exactly when the list is empty |
| Pcbs.PcbPool.InitPcbs | phase1/pcb.c:123-130 | every pcb is clean and on the free list, in table order |
| Asls.Asl.InitASL | phase1/asl.c:110-121 | two sentinels in use, all other descriptors free, no semaphore active |
| Asls.Asl.SearchSemd | phase1/asl.c:136-142 | the descriptor whose address is below a while its successor's is not; the walk ends at the upper sentinel |
| Asls.Asl.AllocateSemd | phase1/asl.c:156-176 | pops the free list; NULL exactly when it is empty; in use plus free stays constant |
| Asls.Asl.FreeSemd | phase1/asl.c:145-149 | pushes the descriptor on the free list; in use plus free stays constant |
| Asls.Asl.HeadBlocked | phase1/asl.c:94-105 | the first process of the map's queue at a, NULL exactly when a is not active |
| Asls.Asl.InsertBlocked | phase1/asl.c:33-51 | the map's queue at a gains p at its end and p_semAdd is a; TRUE and no change exactly when a is inactive and n semaphores are active |
| Asls.Asl.OutBlocked | phase1/asl.c:57-73 | the map operation of the guard as written; the result is p exactly when p is queued at its p_semAdd; the code goes through NULL exactly when p_semAdd is NULL; other queues untouched |
| Asls.Asl.RemoveBlocked | phase1/asl.c:81-89 | the longest waiter leaves, and the descriptor is freed exactly when the queue becomes empty |
| Asls.DescriptorAdded | phase1/asl.c:40-50 | a new descriptor at its sorted place represents the map with one more singleton queue |
| Asls.DescriptorRemoved | phase1/asl.c:63-69 | unlinking a descriptor represents the map without that address, all other queues as before |
| Kill.OutBlockedExact | phase1/asl.c:53-73 | outBlocked agrees with its comment if and only if p is not the second of two or more |
| Keeps.ActiveBound | phase1/asl.c:33-51 | while some process is not blocked fewer than n semaphores are active, by a pigeonhole argument |
| Kernels.Kernel.BlockOn | phase2/exceptions.c:246-246 | when fewer than n semaphores are active insertBlocked never answers TRUE, so its result may be ignored |
| Forest.PostUnder | phase2/exceptions.c:64-69 | the order of killing visits exactly the process and its descendants |
| Forest.PostNoDup | phase2/exceptions.c:64-69 | the order of killing visits nobody twice |
| Subtree.TerminateIs | phase2/exceptions.c:58-94 | if no NULL is met, exactly the process and its descendants are freed, once each; the counters fall and each non-device semaphore rises by its number of victims; survivors keep queue, order and values, except that a queue where a victim was met second is gone |
| Subtree.TerminateEnds | phase2/exceptions.c:58-94 | the kill goes through NULL if and only if a victim is met second in its queue and a later victim waits on the same semaphore |
| Subtree.TerminateClean | phase2/exceptions.c:58-94 | if no victim is met second, every queue loses exactly its victims and the whole invariant holds again |
| Subtree.PruneSubtree | phase2/exceptions.c:66-69 | victims lose all tree links, and survivors keep theirs except the edge to the subtree's root |
| Kill.KillExact | phase2/exceptions.c:70-93 | killing a list of live processes meets no NULL and keeps queues, counters and semaphore values consistent if and only if no victim is second in its queue once the victims before it have left |
| Kill.NullExact | phase2/exceptions.c:83-83 | running the kill hands NULL to freePcb if and only if the state before it has a victim met second with a later victim on the same semaphore |
| Kill.SecondDrops | phase2/exceptions.c:83-83 | killing the second of a queue drops everybody else on that queue from the ASL |
| Kill.DroppedForGood | phase2/exceptions.c:83-83 | a dropped process either is a later victim, and then the kill goes through NULL, or is on no queue after the kill |
| Kill.DropsSomeone | phase2/exceptions.c:70-93 | whenever a victim is met second and no NULL follows, a live process that is no victim ends up on no queue |
| Subtree.TerminateExact | phase2/exceptions.c:43-94 | for a process with a parent SYS 2 comes to its end with the invariant re-established if and only if no victim is met second in its queue |
| Subtree.SomeoneSurvives | phase2/exceptions.c:43-46 | after SYS 2 of a process with a parent at least one process is alive, also when others were dropped |
| Subtree.StageStep | phase2/exceptions.c:66-69 | removing the next child and terminating it takes the loop from its i-th state to its next, and goes through NULL exactly if the first i + 1 children do |
| Subtree.StageLastKill | phase2/exceptions.c:70-93 | freeing the root after the loop gives the state of the whole subtree kill, and goes through NULL exactly if the root is not found |
| Keeps.VFindsWaiter | phase2/exceptions.c:221-227 | a V that leaves a user semaphore at or below zero finds a waiter, and only such a V does |
| Keeps.DevBlockKeeps | phase2/exceptions.c:271-318 | SYS 7 and SYS 8 always block, and the invariant holds with the soft-block count raised |
| Keeps.DevWakeKeeps | phase2/interrupts.c:187-196 | a device V with a waiter leaves the value at or below zero and keeps the invariant |
| Keeps.WakeAllKeeps | phase2/interrupts.c:215-225 | the mass V keeps the invariant |
| Keeps.CreateKeeps | phase2/exceptions.c:23-39 | SYS 1 keeps the invariant, with or without a free pcb |
| Keeps.SchedulerKeeps | phase2/scheduler.c:20-46 | with someone alive and nobody running, the scheduler dispatches the head, waits with soft-blocked processes, or panics, and re-establishes the invariant |
| Safety.BootKeeps | phase2/initial.c:56-81 | main establishes the invariant with one live process |
| Safety.StepKeeps | phase2/exceptions.c:23-321 | every step that goes on keeps the partition of pcbs, both counters, the values against the queues, and the forest |
| Safety.StepKeepsExactly | phase2/exceptions.c:23-321 | of the steps after which control goes on, SYS 2 with a victim met second breaks the invariant and all others keep it |
| Safety.AlwaysInv | phase2/initial.c:27-82 | the invariant holds in every state reachable from main |
| Safety.OutcomeExact | phase2/interrupts.c:187-204 | for every step, exactly when it fails, returns unhandled or goes through NULL, in terms of the state before it; HALT never happens |
| Safety.SchedulerDecides | phase2/scheduler.c:22-45 | for any consistent state with nobody running: HALT exactly when nobody lives, WAIT exactly when someone waits for a device or the clock, PANIC exactly when someone lives and all wait for other semaphores, given an empty ready queue |
| Safety.StepDecides | phase2/scheduler.c:22-45 | for every step of the machine that neither fails nor drops anybody, WAIT, PANIC and LDST happen exactly under those conditions at the moment of the choice |
| Safety.AlwaysDecides | phase2/scheduler.c:22-45 | the same of every step from every reachable state: WAIT and PANIC only from the scheduler with nobody ready, each exactly under its condition on the live processes |
| Safety.TickInWait | phase2/interrupts.c:226-231 | a tick during a wait reaches the scheduler if and only if currentProcess is NULL; otherwise it is a freed pcb and the wait goes on with ready processes |
| Counting.StepCounts | phase2/exceptions.c:217-251 | how each step moves a user semaphore's value and queue length: P, V and killed waiters, nothing else |
| Counting.CompletedExactly | phase2/exceptions.c:217-251 | over any run from value k >= 0, completed Ps are the smaller of attempted minus killed while waiting, and k plus Vs |
| Counting.AtMostKInside | phase2/exceptions.c:217-251 | over any run in which only a process inside does V, at most k are inside; mutual exclusion for k = 1 |
| Fairness.QueueStep | phase1/asl.c:33-89 | each step leaves a semaphore queue alone, takes its head, removes the killed or appends one newcomer; only a clock tick empties one |
| Fairness.NoOvertaking | phase1/asl.c:33-89 | over any run, while x waits nobody behind it on that semaphore leaves alive |
| Fairness.ReadyStep | phase2/scheduler.c:22-45 | a ready process never moves back and moves up by one at each dispatch of another |
| Fairness.BoundedWaiting | phase2/scheduler.c:22-45 | a process at position k < n runs or is terminated before k + 1 dispatches |
| Fairness.TicksDispatchNobody | phase2/interrupts.c:226-231 | over any run of clock ticks from such a wait nobody is dispatched, the wait stays stale and whoever is ready stays ready |
| Fairness.TicksForever | phase2/interrupts.c:213-231 | from a wait with a stale currentProcess there are runs of any number of clock ticks |
| Devices.WaitIndexInjective | phase2/interrupts.c:138-142 | two SYS 8 calls share a semaphore if and only if they name the same sub-device; never the clock's |
| Devices.WaitIndexLayout | phase2/interrupts.c:138-142 | disk 0 comes first, devices and lines follow in order, eight to a line, terminal receivers after transmitters, last before the clock |
| Devices.InterruptMeetsWait | phase2/interrupts.c:114-189 | an interrupt is charged to the semaphore SYS 8 uses for the sub-device ackTerminal chose, transmitter before receiver; for a receive interrupt if and only if the receive status is READY |
| Devices.ReceivedCharMisses | phase2/interrupts.c:178-181 | the concrete case in which a received character goes to the transmitter's semaphore |
| Devices.SavedKept | phase2/interrupts.c:177-196 | a step changes the saved state of a process neither free nor running only in v0, and only if a device wakes it; v0 is then d_status on lines 3-6, t_transm_status for a terminal's transmitter and t_recv_status for its receiver |
| Devices.WokenLeaves | phase2/interrupts.c:177-196 | the longest waiter of the device goes to the end of the ready queue with that register in v0 and waits nowhere |
| Devices.WaitThenWake | phase2/interrupts.c:177-196 | over any run between SYS 8 and the interrupt that finds the caller at the head of the device's queue, the caller becomes ready with the registers it had and that register in v0 |
| Devices.InterruptWakesAsker | phase2/interrupts.c:187-196 | over any run from main, whoever a device interrupt finds waiting issued SYS 8 for just that semaphore and has waited there ever since |
| Devices.IOReturns | phase2/exceptions.c:295-321 | over any run from SYS 8 through the answering interrupt to the caller's next dispatch, what LDST loads is the register file of the call with d_status, t_transm_status or t_recv_status in v0, by the device |
| Devices.DebtIsKilledWaiters | phase2/exceptions.c:70-85 | over any run the distance of a device semaphore below minus its queue length grows by exactly the waiters killed there |
| Contexts.Resumes | phase2/exceptions.c:237-321 | over any run, a process that gives up the processor and next gets it is loaded with exactly the state it gave it up with: after a quantum's end at once, after a P when a V on that semaphore has found it at the head, after SYS 7 when the clock has ticked, and after SYS 8, with the reported status in v0, when an interrupt charged to that semaphore has found it at the head |
| Contexts.LeavesSaved | phase2/exceptions.c:245-246 | whoever gives up the processor alive has the state it entered the kernel with saved, and waits on the semaphore its call names or, at a quantum's end, is ready |
| Contexts.StaysLoads | phase2/exceptions.c:217-251 | a process that keeps the processor over a step is loaded with the state it entered with; only SYS 1 answers in v0, 0 or -1 |
| Contexts.ReturnsState | phase2/interrupts.c:190-205 | an unhandled interrupt returns the interrupted state unchanged |
| Contexts.ReleasedStep | phase2/interrupts.c:187-225 | a waiter that is not terminated leaves its queue only by the V or the interrupt that finds it at the head, or by the clock tick, and is then ready or running |
| Contexts.FirstRuns | phase2/exceptions.c:23-39 | over any run, a new process is first loaded with the state SYS 1 was given for it |
| Contexts.CreateSaves | phase2/exceptions.c:25-35 | SYS 1 saves that state in the first free pcb, makes it ready and the newest child of its creator |
| Contexts.CreateUnder | phase2/exceptions.c:34-34 | the new process descends from its creator and whoever the creator descends from, and nobody else's ancestry changes |
| Contexts.TickReleases | phase2/interrupts.c:213-231 | a tick moves every clock waiter to the end of the ready queue in order of arrival, raises the semaphore and lowers the soft-block count by as many, and changes no other queue or semaphore |
| Contexts.StartValues | phase2/initial.c:65-67 | at the start each of the 49 device semaphores is 0 and every other word is the image's |
| KernelFacts.WakeSomeEnds | phase2/interrupts.c:215-225 | the tick's loop starts at the state found and ends with every waiter appended to the ready queue in order |
| KernelFacts.WakeSomeStep | phase2/interrupts.c:217-223 | one turn of the tick's loop takes the state after k waiters to the state after k + 1 |
| Kernels.Kernel.Scheduler | phase2/scheduler.c:20-46 | the pointer code refines the scheduler step |
| Kernels.Kernel.CreateProcess | phase2/exceptions.c:23-39 | allocPcb, insertChild and insertProcQ together refine the SYS 1 step |
| Kernels.Kernel.Verhogen | phase2/exceptions.c:217-229 | the pointer code refines the V step |
| Kernels.Kernel.Passeren | phase2/exceptions.c:237-251 | the pointer code refines the P step |
| Kernels.Kernel.WaitForClock | phase2/exceptions.c:271-286 | the pointer code refines the SYS 7 step |
| Kernels.Kernel.WaitForIODevice | phase2/exceptions.c:295-321 | the pointer code refines the SYS 8 step |
| Kernels.Kernel.OnDevice | phase2/exceptions.c:71-76 | the loop over devSemTable finds out exactly whether the address is one of its 49 cells |
| Kernels.Kernel.KillWaiting | phase2/exceptions.c:70-85 | outBlocked and freePcb refine the kill of one blocked victim, and go through NULL exactly when it is not on its queue |
| Kernels.Kernel.KillRunning | phase2/exceptions.c:86-89 | outChild and freePcb refine the kill of the running process, and go through NULL exactly when it has no parent |
| Kernels.Kernel.KillReady | phase2/exceptions.c:90-93 | outProcQ and freePcb refine the kill of a ready victim |
| Kernels.Kernel.TerminateRecursively | phase2/exceptions.c:58-94 | the recursive loop over children ends, refines the kill of the whole subtree, and goes through NULL exactly when the machine says so |
| Kernels.Kernel.TerminateProcess | phase2/exceptions.c:43-46 | the pointer code refines the SYS 2 step, including a caller without a parent, dropped processes and the NULL |
| Kernels.Kernel.DeviceInterrupt | phase2/interrupts.c:169-205 | the pointer code refines the device step, also when nobody waits |
| Kernels.Kernel.QuantumEnd | phase2/interrupts.c:207-212 | the pointer code refines the quantum step |
| Kernels.Kernel.ClockTick | phase2/interrupts.c:213-232 | the loop over the clock queue ends and refines the mass V and the dispatch decision |
| Kernels.Kernel.Boot | phase2/initial.c:56-81 | from tables in any state, main reaches a booted state of the machine, represented in memory, with the invariant |
| Kernels.Kernel.Handle | phase2/exceptions.c:360-392 | every entry takes one step of the machine in memory and, when it goes on, keeps the invariant |
| PowerOns.PowerOn | phase2/initial.c:16-81 | from freshly laid out tables with any contents, main loads the first process and leaves a booted, represented state |
| Witnesses.RootFaults | phase2/exceptions.c:86-87 | a reachable state in which SYS 2 of a parentless process goes through NULL |
| Witnesses.TerminateLoses | phase2/exceptions.c:83-83 | a reachable state in which SYS 2 drops a live process from every queue |
| Witnesses.TerminateStrands | phase2/exceptions.c:83-83 | a reachable state in which SYS 2 of a process with a parent goes through NULL |
| Witnesses.InterruptFaults | phase2/interrupts.c:190-195 | a reachable state in which an interrupt for a killed waiter goes through NULL |
| Witnesses.StaleWaitReached | phase2/exceptions.c:43-46 | a reachable wait whose currentProcess has been freed, with a process waiting for the clock |
| Witnesses.TicksStarve | phase2/interrupts.c:213-231 | runs of any number of clock ticks from a reachable state in which a process is ready from the first tick on and nobody is dispatched |

## Left out

- Subtree.TerminateIs: says nothing of a kill that goes through NULL, because memory is then no longer the kernel's; when that happens is decided by Subtree.TerminateEnds.
- Kernels.Kernel.TerminateProcess: promises the outcome of a step that goes through NULL but no representation after it, for the same reason.
- SYS 5, SYS 6, program traps, TLB exceptions and the user-mode check of `syscallDispatch` are not modelled; they change no queue, tree or counter except through SYS 2.
- CPU time (`time`, `p_time`, STCK) is not modelled.
- Processor states are v0 and an opaque rest; `stateCopy` is an assignment. For the first process the caller of `Boot` supplies the whole state.
- Semaphore values are unbounded integers; overflow of a 32-bit word is not modelled.
- Device registers: the ACK command writes are left out, the status registers are parameters; `getLineNumber` and `getDeviceNumber` are replaced by the line and device they select. Line 0, which the handler treats like the clock, is not distinguished from it.
- The timers (LDIT, setTIMER), the new-area setup in `main` and the actual effect of LDST, WAIT, HALT and PANIC are outside the model.
- phase3 and the user programs in `p1test.c` and `p2test.c` are not part of this model.
