# Verified model of the OS simulator

A Dafny model of the parts of the simulator that are finished in the C sources: the time-slot
barrier with the CPU and loader threads on it, and the physical memory with its page copies and
page table entries. `dafny verify dfyconfig.toml` checks the whole project.

## What is modelled

**The time-slot barrier** (`Barrier`, `BarrierSafety`, `BarrierProgress`, `DeviceList`) is
`src/timer.c`: the timer thread, any number of device threads inside `next_slot` and
`detach_event`, and `main` in `stop_timer`. It is a transition system, because the point of the
code is how the threads interleave: every lock, test, wait, signal and unlock is a step, mutexes
have owners, condition variables have wait sets, and `pthread_cond_wait` may wake spuriously
(POSIX.1-2017, System Interfaces, `pthread_cond_wait()`). `Barrier.OwnerDo` and
`Barrier.ClockDo` are the steps; a run is any sequence of enabled steps. Counters of arrivals,
counted arrivals, releases and completed calls are history: no step reads them.

**The threads of the simulator** (`Simulator`, `SimulatorInv`, `SimulatorSteps`,
`SimulatorSafety`, `SimulatorQuantum`, `SimulatorCompletion`, `SimulatorProgress`,
`SimulatorLiveness`, `SimulatorEnding`, `SimulatorOneCpu`, `SimulatorOneCpuEnds`) are `cpu_routine` and `ld_routine`
of `src/os.c`, with `run` of `src/cpu.c`, as programs of the barrier's devices. Their steps
interleave with all steps of the barrier, and a device runs its program only while it is outside
`next_slot` and `detach_event`. The loader is device 0 and the CPUs follow in the order of
`dev_list`; `DeviceList` proves that `main` builds the list so. The ready queue is a bag:
`get_proc` returns NULL or any member, `put_proc` and `add_proc` insert or lose the process. The
repository leaves the queue operations unwritten; the bag covers whatever they will do. Results
that need more say so: `SimulatorCompletion.Honest` asks that NULL means empty and that nothing
is lost. No result needs `time_slot` to be positive.

**Physical memory** (`Frames`, `Memphy`, `Swap`) is `src/mm-memphy.c`, `__swap_cp_page`,
`__mm_swap_page` and `__sys_memmap`, on heap objects: a linked free list, byte arrays, and the
loops of the source. A ghost sequence lists the nodes of the free list and a ghost set the frames
taken and not returned. `Swap.Store` states the same operations on values for results about runs.

**Bits** (`Bits`, `Pte`, `Widths`) are the macros of `include/bitops.h` and `include/mm.h` and the
page table entry procedures of `src/mm.c`, on 32-bit words and an array of them.

## What the proofs say about the code

- The barrier is correct although `done` is set under `event_lock` and cleared under `timer_lock`:
  the two writes are never both possible, by the phase of the round and not by exclusion.
- The simulated clock never stalls, but the simulation need not end: a CPU that is idle at the
  head of its loop does not look at `done` (`src/os.c:55-62`), so it never stops when nothing is
  left to run. Past the deadline every CPU has stopped or is idle in this way, and the simulation
  ends exactly when none is idle; a moment after `done` at which no CPU is idle is enough.
- With one CPU the configuration decides: some run hangs exactly when `SimulatorOneCpu.Backlog`, the
  work left at the end of the slot in which the last process is added, is 0. Some run ends exactly
  when a process is configured. So one process of one instruction can do either, and whether it
  ends is a race between the CPU's last `get_proc` and the loader setting `done`.
- With the queue operations as they stand no CPU ever stops, and the simulation ends exactly when
  there are no CPUs.
- Every process does finish, given one CPU and a queue that is honest in the sense above: after
  the last process has been added some work is done in every slot, so all is done by the slot
  `SimulatorLiveness.Deadline`, in every interleaving and with every choice of `get_proc`.
- `pte_set_swap` sets PRESENT as well; SWAPPED is what tells the two kinds of entry apart.
- `init_pte` refuses frame 0, which is the first frame that a formatted device hands out.
- `MEMPHY_format` leaves the link of the only node of a one-frame device uninitialised.
- `MEMPHY_seq_read` and `MEMPHY_seq_write`, meant for sequential devices, refuse exactly those.

## Model

| member | source | states |
|---|---|---|
| `DeviceList.Timer.AttachEvent` | src/timer.c:95-118 | a new device becomes the head of the list and the rest of the list stays; once the timer has started nothing is attached |
| `DeviceList.AttachAll` | src/os.c:214-221 | after main has attached everything the list is the loader followed by the CPUs in reverse order, all distinct: the device numbering of the other modules |
| `BarrierSafety.StepKeepsInv` | src/timer.c:21-132 | every lock, test, wait, signal, unlock, spurious wake-up and call of any thread keeps the barrier invariant, for any number of devices |
| `BarrierSafety.LockstepClock` | src/timer.c:21-77 | a working device has completed exactly as many next_slot calls as the clock shows; live devices are never more than one call apart |
| `BarrierSafety.NoLostWakeup` | src/timer.c:30-93 | a sleeping timer with no signal pending sleeps on a device that has neither arrived nor finished; a sleeping device with none pending has not been released; only the expected thread is in each wait set |
| `BarrierSafety.RaceFree` | src/timer.c:29-81 | `done`, `fsh` and `_time` never have two conflicting accesses as next steps, although `done` is written under two mutexes and `_time` read under none |
| `BarrierSafety.ArrivalsAccounted` | src/timer.c:29-76 | releases <= counted arrivals <= arrivals <= releases + 1: no arrival is erased before it is counted and each release consumes one |
| `BarrierSafety.TickNeedsEveryone` | src/timer.c:28-45 | a step that changes the time adds one to it and finds every device finished or arrived and counted |
| `BarrierSafety.ClockFrozenWhileWorking` | src/timer.c:79-81 | while a device works, no sequence of steps of the others changes the time, so unlocked reads of it agree |
| `BarrierSafety.NothingUsesFreedDevices` | src/timer.c:120-132 | the timer exits only when every device has detached; when stop_timer has freed the list no thread has a step left |
| `BarrierSafety.OneOperationPerStep` | src/timer.c:21-93 | every step is one operation on one device: at most one flag, mutex or wait set changes, except that a wait also releases its mutex |
| `BarrierSafety.EndsExactly` | src/timer.c:22-58 | the timer leaves its loop exactly at its head when timer_stop is set or after a round that counted every device as finished; main goes on exactly when the threads it joins have ended |
| `BarrierSafety.SignalWakesOne` | src/timer.c:51-65 | a signal unblocks exactly one waiter, if there is one |
| `BarrierSafety.SpuriousWakeups` | src/timer.c:30-76 | a sleeping thread can wake up without a signal at any time, which changes nothing else |
| `BarrierProgress.OwnerBlockedExactly` | src/timer.c:61-93 | a device inside next_slot or detach_event stands still exactly when it asks for a mutex while the timer is in the matching critical section, or sleeps with no signal pending |
| `BarrierProgress.TimerBlockedExactly` | src/timer.c:28-53 | the timer stands still exactly when it has left its loop, asks for a mutex of a device inside the matching critical section, or sleeps with no signal pending |
| `BarrierProgress.NoDeadlock` | src/timer.c:28-93 | if no protocol step is enabled, a device is in its own code or everything has finished; spurious wake-ups are not needed |
| `BarrierProgress.MeasureDecreases` | src/timer.c:28-93 | every protocol step but the tick decreases a natural number |
| `BarrierProgress.RoundTicks` | src/timer.c:28-93 | a maximal run of protocol steps, in any interleaving, ends with a tick, a device in its own code, or everything finished, and without a tick it is no longer than the measure |
| `BarrierProgress.ShutdownEnds` | src/timer.c:54-58 | once all devices are gone every interleaving has at most 18 n + 12 steps and can only end with the list freed |
| `BarrierProgress.NoRoundAfterStop` | src/timer.c:22 | once timer_stop is set the timer starts no new round: outside a scan it never scans or ticks again, and from the head of its loop it touches no device |
| `BarrierProgress.OneTickAfterStop` | src/timer.c:120-122 | after timer_stop is set the clock ticks at most once more, and only when the timer was in a scan |
| `BarrierProgress.StopEnds` | src/timer.c:120-132 | once timer_stop is set every interleaving has at most 9 n + 6 steps and can only end with the list freed |
| `SimulatorSteps.OsStepKeepsInv` | src/os.c:47-141 | every step of the timer, a CPU or the loader keeps the simulator invariant, for any ready queue |
| `SimulatorSafety.SimulatorRunsOnBarrier` | src/os.c:47-141 | every run of the simulator is, seen from the barrier, a run of the barrier with one device for each CPU and one for the loader |
| `SimulatorSafety.BarrierStepsAreFree` | src/timer.c:21-93 | the programs restrict the barrier in nothing but the calls: every other step, spurious wake-ups included, can be taken and leaves the programs alone |
| `SimulatorSafety.ProgramsAreFree` | src/os.c:47-141 | a CPU or the loader takes a step exactly when its thread is outside next_slot and detach_event, whatever the queue returns or loses |
| `SimulatorSafety.GetReturnsAnything` | src/os.c:57-81 | get_proc moves any process of the queue to the CPU or returns NULL, whatever the queue holds |
| `SimulatorSafety.OfferInsertsOrLoses` | src/os.c:74-130 | add_proc and put_proc insert exactly one copy of the process or lose it |
| `SimulatorSafety.LoaderAddsNext` | src/os.c:117-131 | a step of the loader adds process i, in slot Due(i), or nothing; the added process goes to the queue or is lost |
| `SimulatorSafety.EachProcessInOnePlace` | src/os.c:53-98 | every process added is in exactly one of: queue, one CPU, finished, lost |
| `SimulatorSafety.OneInstructionPerSlot` | src/os.c:53-98 | two instructions of one process, or of one CPU, are always in different slots, in order |
| `SimulatorSafety.InstructionsInOrder` | src/cpu.c:61-70 | a process executes instructions 0, 1, 2, ... each once whatever its CPUs; a finished one has executed all |
| `SimulatorSafety.IdleHasNoTimeLeft` | src/os.c:51-92 | a CPU without a process has time_left 0, except between finishing a process and the next get_proc |
| `SimulatorSafety.PutBackAfterFullQuantum` | src/os.c:70-92 | a process put back has executed exactly time_slot instructions since its dispatch and is unfinished |
| `SimulatorQuantum.LoopHeadDecides` | src/os.c:53-75 | at the head of its loop a CPU retires its process exactly when everything is executed, gives it back exactly when time_slot instructions have been executed since its dispatch and some are left, and keeps it otherwise |
| `SimulatorQuantum.StayIsOneQuantum` | src/os.c:70-92 | preemption: as long as a CPU keeps a process it executes at most time_slot instructions of it, in every interleaving |
| `SimulatorQuantum.QuantumOnOneCpu` | src/os.c:70-92 | the last time_slot instructions of a process put back were executed on the CPU that puts it back, one in each of the time_slot slots before the current one |
| `SimulatorSafety.DispatchMarksStart` | src/os.c:88-92 | the start of a quantum is recorded at dispatches and nowhere else, as the number of instructions executed so far |
| `SimulatorSafety.StopsAfterLastAdd` | src/os.c:78-82 | a stopped CPU made its failing get_proc in a slot strictly later than every add_proc, with all processes added |
| `SimulatorSafety.NothingAddedAfterDone` | src/os.c:114-138 | once the loader has set `done`, no run adds anything |
| `SimulatorSafety.LoaderSchedule` | src/os.c:112-135 | process i is added exactly in slot Due(i) |
| `SimulatorSafety.DueClosedForm` | src/os.c:114-135 | Due(i) is the maximum of start(j) + (i - j) over j <= i: a bound that is attained, for unsorted start times too |
| `SimulatorCompletion.AllStoppedMeansAllFinished` | src/os.c:53-141 | with an honest queue, when all CPUs have stopped every configured process has finished and executed all its instructions, and the queue is empty |
| `SimulatorCompletion.IdleCpuNeverStops` | src/os.c:55-62 | a CPU idle at the loop head with nothing left to run never stops, in any continuation |
| `SimulatorCompletion.EmptyWorkloadNeverStops` | src/os.c:55-62 | with no process configured no CPU ever stops |
| `SimulatorCompletion.NullQueueRunsNothing` | src/sched.c:49-55 | with get_proc always NULL, as it is written, nothing is executed, no CPU stops and the timer is never stopped |
| `SimulatorProgress.SomeoneGoesOn` | src/os.c:47-141 | until everything has finished some thread has a step that is not a spurious wake-up |
| `SimulatorProgress.OsRankDecreases` | src/os.c:47-141 | every step but ticks and spurious wake-ups decreases a natural number |
| `SimulatorProgress.ClockNeverStalls` | src/os.c:47-141 | any run of more than 40 n + 46 steps for n CPUs, of whatever threads, spurious wake-ups aside, contains a tick |
| `SimulatorLiveness.StepKeepsGoing` | src/os.c:47-141 | with an honest queue every step keeps: after the last process has been added, the clock and the steps of work left together never pass the deadline |
| `SimulatorLiveness.EveryProcessFinishes` | src/os.c:47-141 | with an honest queue and a CPU, from the slot Due(last) + 1 + (instructions + 2 for each process) on every process has finished and executed each of its instructions once, for every interleaving |
| `SimulatorLiveness.EveryLongRunFinishes` | src/os.c:47-141 | and so it has after Deadline * (40 n + 47) steps of whatever threads for n CPUs, spurious wake-ups aside |
| `SimulatorLiveness.HonestGoesOn` | src/os.c:47-141 | until everything has ended some thread has an honest step that is not a spurious wake-up, so such runs never get stuck |
| `SimulatorEnding.NoneIdleWhenDoneStops` | src/os.c:55-82 | if no CPU is idle at some moment after `done` is set, all CPUs have stopped past the deadline of every honest continuation |
| `SimulatorEnding.EndsExactlyWhenNoneIdle` | src/os.c:55-82 | past the deadline of an honest run every CPU has stopped or is idle with nothing left, and some continuation ends the simulation exactly when none is idle |
| `SimulatorEnding.NoneIdleHasToEnd` | src/os.c:262-269 | and then every continuation ends: at most 80 n + 93 steps for n CPUs, spurious wake-ups aside, and it can be extended until the device list is freed |
| `SimulatorEnding.HungNeverEnds` | src/os.c:55-62 | with nothing left and a CPU idle, main stays in its joins in every continuation, honest or not |
| `SimulatorEnding.NullQueueEndsExactlyWithoutCpus` | src/sched.c:49-55 | with get_proc always NULL main gets past its joins in some run, and the simulation ends in some run, exactly when there are no CPUs |
| `SimulatorOneCpuEnds.OneCpuHangsExactly` | src/os.c:55-82 | with one CPU and an honest queue a run that hangs exists exactly when the backlog of the configuration is 0, for every configuration |
| `SimulatorOneCpuEnds.BacklogHasToEnd` | src/os.c:55-82 | with a backlog all threads but the timer have stopped past the deadline of every honest run |
| `SimulatorOneCpuEnds.OneCpuEndsExactly` | src/os.c:55-82 | with one CPU and an honest queue a run that ends exists exactly when a process is configured |
| `SimulatorOneCpuEnds.TheSmallestRace` | src/os.c:55-138 | one process of one instruction has a run that hangs and a run that ends; one of two instructions has no run that hangs |
| `SimulatorOneCpuEnds.BacklogClosedForm` | src/os.c:114-135 | the backlog is the maximum over i of the slots that processes from i on occupy the CPU, less the slots from the addition of i to the last addition: a bound that is attained |
| `Frames.FormatPartitions` | src/mm-memphy.c:115-141 | the formatted list and no held frame partition the frames |
| `Frames.TakePartitions` | src/mm-memphy.c:143-159 | taking the first free frame keeps the partition |
| `Frames.ReturnPartitions` | src/mm-memphy.c:169-180 | returning a frame keeps the partition exactly when the frame is held |
| `Frames.FrameInside` | src/mm-memphy.c:117-138 | every free or held frame lies inside the storage |
| `Memphy.Device.constructor` | src/mm-memphy.c:185-199 | zeroed storage of the given size and, from two frames on, the list of all frames of 256 bytes in order |
| `Memphy.Device.Format` | src/mm-memphy.c:115-141 | the heap list is an acyclic chain of distinct nodes 0 .. n-1; refused without a whole frame; with one frame the list is well formed exactly when malloc happened to leave a null link |
| `Memphy.Device.GetFreeFp` | src/mm-memphy.c:143-159 | returns and unlinks the first frame, or -1; keeps acyclicity and the partition of free and held frames |
| `Memphy.Device.PutFreeFp` | src/mm-memphy.c:169-180 | puts the frame first; the partition is kept exactly when the frame was held |
| `Memphy.Device.MvCsr` | src/mm-memphy.c:17-30 | the cursor ends at the offset, or at 0 when the offset is not inside the device |
| `Memphy.SeqRead` | src/mm-memphy.c:38-50 | refuses absent and non-random devices without any effect |
| `Memphy.Read` | src/mm-memphy.c:58-69 | the byte at the address, or -1 and no effect |
| `Memphy.SeqWrite` | src/mm-memphy.c:77-90 | refuses absent and non-random devices without any effect |
| `Memphy.Write` | src/mm-memphy.c:98-109 | changes exactly the addressed byte, or -1 and no effect |
| `Memphy.SwapCpPage` | src/mm.c:192-208 | the destination frame becomes the old source frame and every other byte stays, also for one device and equal frames |
| `Frames.CopyAhead` | src/mm.c:197-205 | within one device the loop never overwrites a source byte it has still to read |
| `Frames.IsFrameMeans` | src/mm-memphy.c:117-138 | the frames that can be copied are the frames of 256 bytes that a formatted device of this storage has |
| `Frames.CopyPageBytes` | src/mm.c:192-208 | byte by byte: 256 bytes from the start of the source frame on, all others as before |
| `Frames.CopyPageMeans` | src/mm.c:192-208 | the copied page is in the destination frame and every other frame is unchanged |
| `Frames.SwapOutThenIn` | src/mm.c:192-208 | a page copied out to a frame and back, into any frame of any later memory, is restored |
| `Swap.SwapIsolation` | src/mm-vm.c:39-43 | from initialised devices, over any run of swaps out and in, RAM writes and returned frames, every taken swap frame keeps the bytes copied into it and is not free |
| `Swap.PageComesBack` | src/mm-vm.c:39-43 | a page swapped out comes back unchanged after any run that did not return its frame |
| `Swap.OpMeans` | src/mm.c:192-208 | each operation of the run model: which bytes and frames it changes, that it leaves all others, and that a returned frame is free again |
| `Swap.MmSwapPage` | src/mm-vm.c:39-43 | the swap frame becomes the RAM frame and nothing else changes |
| `Swap.TakeAndSwapOut` | src/libmem.c:199-208 | taking a free swap frame and swapping out to it on the heap objects is one swap-out of the run model |
| `Swap.InitMemory` | src/os.c:224-236 | two initialised devices of two frames or more are the start of the run model |
| `Swap.SwapPageIn` | src/mm.c:192-208 | copying a swap frame to RAM on the heap objects is one swap-in of the run model |
| `Swap.StoreInRam` | src/mm-memphy.c:98-109 | writing a byte of RAM on the heap objects is one RAM write of the run model |
| `Swap.ReturnFrame` | src/mm-memphy.c:169-180 | returning a taken swap frame on the heap objects is one return of the run model |
| `Swap.SysMemmap` | src/sys_mem.c:17-45 | each operation of the memory system call does its one thing and leaves the rest |
| `Swap.Conversions` | src/sys_mem.c:17-38 | a register read as an int, a register passed as a byte and a byte stored in a register: the value modulo 2^32, 256 and 2^32 in the range of the type |
| `Swap.ByteThroughRegister` | src/sys_mem.c:32-38 | a byte survives the unsigned registers; a register survives a byte exactly when it is a sign extension |
| `Pte.SetFpnWord` | src/mm.c:70-78 | the whole word, bit by bit: PRESENT is bit 31, SWAPPED bit 30, the frame number bits 0 to 12, all others kept |
| `Pte.SetSwapWord` | src/mm.c:54-63 | the whole word: bits 31 and 30 set, type in bits 0 to 4, offset in bits 5 to 25, all others kept |
| `Pte.InitWords` | src/mm.c:24-42 | what init_pte writes: the same words with bit 28 cleared |
| `Pte.DecodeWord` | include/mm.h:18-56 | bit 30 tells the kinds apart; the fields are at the bits above |
| `Pte.SetFpnMeans` | src/mm.c:70-78 | on any word: decodes to the frame number cut to 13 bits, PRESENT set, bits 13 to 29 kept |
| `Pte.SetSwapMeans` | src/mm.c:54-63 | on any word: decodes to type and offset cut to 5 and 21 bits, PRESENT set, bits 26 to 29 kept |
| `Pte.LastWriteWins` | src/mm.c:54-78 | after any calls on any word the entry decodes to the last arguments, exactly when they fit |
| `Pte.OnlyLastCallMatters` | include/mm.h:29-56 | the decoded entry does not depend on what the overlapping fields held before |
| `Pte.PteSetFpn` | src/mm.c:70-78 | changes exactly one entry, to the specified word |
| `Pte.PteSetSwap` | src/mm.c:54-63 | changes exactly one entry, to the specified word |
| `Pte.InitPte` | src/mm.c:14-46 | refuses exactly a present online entry for frame 0; ignores entries not to be present; otherwise is the setter followed by clearing DIRTY |
| `Widths.FrameOfAddress` | include/mm.h:54-88 | the page number of a 22-bit address is the address divided by the frame size of the devices, the offset the remainder |
| `Widths.RamNumbersThatSurvive` | include/mm.h:7-14 | the frame numbers an online entry gives back are exactly those of a device of PAGING_MEMRAMSZ bytes |
| `Widths.SwapNumbersThatSurvive` | include/mm.h:35-56 | the swap offsets an entry gives back are exactly those of a device of PAGING_MEMSWPSZ bytes, for every swap type |
| `Widths.RamFramesSurvive` | src/mm.c:70-78 | every frame that a formatted RAM device of at most 2^21 bytes has free or held survives the entry |
| `Widths.SwapFramesSurvive` | src/mm.c:54-63 | every frame of a formatted swap device of at most 2^29 bytes survives the entry |
| `Bits.Nbits` | include/bitops.h:30-35 | the position of the highest bit set, for every nonzero word, and 0 for 0 |
| `Bits.HighestBitIsFloorLog` | include/bitops.h:30-35 | a position is that of the highest bit exactly when it is the floor of the binary logarithm |
| `Bits.HighestBitUnique` | include/bitops.h:30-35 | there is only one such position |
| `Bits.Genmask` | include/bitops.h:27-28 | exactly the bits from l to h; the value 2^(h+1) - 2^l |
| `Bits.RoundsUp` | include/bitops.h:8 | DIV_ROUND_UP is the least number of pieces of the given size that cover n |
| `Bits.AddressSplits` | include/mm.h:54-88 | page number and offset are in range for every word and reassemble to it exactly when it fits the 22-bit bus |
| `Bits.AddressSplitUnique` | include/mm.h:54-88 | no other page number and offset give that address |

## Left out

- Swap.SysMemmap: does not take SYSMEM_INC_OP, because `inc_vma_limit` ends in `alloc_pages_range`, which is unfinished and stores through a null pointer.
- Swap.TakeAndSwapOut: asks for a free swap frame, because `pg_getpage` ignores the failure of `MEMPHY_get_freefp` and its use of the frame number is unfinished.
- The unfinished bodies: `get_mlq_proc`, `enqueue`, `dequeue`, `find_victim_page`, the swap half of `pg_getpage`, `get_free_vmrg_area`, the growth in `__alloc`, `__free`, `get_vm_area_node_at_brk`, `validate_overlap_vm_area`, `vmap_page_range`, `alloc_pages_range`. The queue operations appear as the bag described above.
- What an instruction does beyond advancing the program counter: the memory library behind `run` is unfinished.
- `queue_lock`: put, add and get on the bag are single steps.
- SimulatorOneCpuEnds.OneCpuHangsExactly: gives the condition on the configuration for one CPU. For more CPUs it depends on which process get_proc picks, and `SimulatorEnding.EndsExactlyWhenNoneIdle` gives the condition on the state.
- Wrap-around of the 64-bit clock, of `time_left`, of the 32-bit program counter and of the sum in `DIV_ROUND_UP`: these are unbounded numbers here.
- The unsynchronised flags `done` of `src/os.c` and `timer_stop` of `src/timer.c` (read at line 22 and written at line 121 without a lock) are read and written in single steps, as if their accesses were atomic.
- Platforms on which plain `char` is unsigned: `BYTE` is taken as a signed char, which `Swap.ByteThroughRegister` depends on.
- `free_pcb_memph` (`src/libmem.c:404-425`): it has no caller, and it pairs non-present pages with RAM frames.
- `src/mem.c` and `src/paging.c`, the older memory management that paging replaces.
- Loading processes and reading the configuration, printing and dumping, `__sys_killall`, `__sys_listsyscall`, `libsyscall`, and the generated system call table: start times, sizes and addresses are given.
- `get_vma_by_num`, `enlist_vm_rg_node`, `enlist_pgn_node` and the freeing loop of `stop_timer`: single walks over, or insertions at the head of, linked lists that no property above refers to.
