# ra2m in Dafny

ra2m simulates hardware as a set of asynchronous processes that a scheduler moves through time in
delta-cycles. This project models its hard core and proves what it is for:

- **The simulation kernel.** `Kernel` is a step system in which one step is one atomic action of a
  process or of the scheduler, so a run is any interleaving, and every theorem about it is about all
  runs. `KernelCensus` proves that every process is in exactly one place and that the shared counters
  say so; `KernelOnce` that each order has its effect once; `KernelReads` that heap, waiters and log
  agree with the ticks at which the scheduler read the orders; `KernelTiming`, on top of it, exactly
  when an order takes effect at its tick (always, unless it is pushed in the gap between the empty
  queue and the update of the clock), which waits a notification releases, and that time bounds the
  number of cycles. `KernelLate` is a run that is late. `KernelResume`, `KernelEvents` and `KernelReady`
  are about event waits: a released process is ready, no loop over an event can spin inside a cycle, and
  exactly when a wait lets its process go on. `EventNames` is the registry of events.
- **Ports under the kernel.** `KernelHandOver` puts port locks and bounded channels around the kernel's
  state and shows that its runs are kernel runs; it proves what the two hand-over counters count and
  when a hand-over is forgotten, and `KernelSample` what the scheduler's one sample of them is good for.
  `KernelQuiet` says exactly when a process can come back while a cycle is being closed, and that runs in
  which none can are on time; `KernelLost` are two runs in which one can although the counters say
  otherwise.
- **simulate.** `KernelSimulate` is the loop as written, with both waits and the catching up of
  hand-overs, for deterministic processes: what it returns and why, and that it can be cut in two.
  `KernelSimulateRun` proves that this loop is a run of the step system. `Scheduler` is the imperative
  form: each method makes exactly one of the steps, and `Delay` and `Event` are the futures that the
  processes await.
- **The network DMA.** `NDma` and `NDmaNode` are one engine on values and as an object, `Switch` joins
  the nodes, `NDmaNetwork` is the step system of any number of nodes with their memories, and
  `NDmaInvariant`, `NDmaSafety` and `NDmaResults` prove token conservation, response routing, absence
  of panics, exactly one answer in a known number of steps, and that each answered transfer copied the
  bytes its own read saw. `Dma` is the engine with a single memory port, error answers included, and
  `DmaFabric` joins it to the memory fabric: an answered request copied bytes in the flat memory.
- **The memory fabric.** `AddrRange` is the routing table, `MemBus` the crossbar, the RAM and the
  return path over nested crossbars, `Fabric` the proof that a crossbar with its RAMs refines one flat
  byte memory under any interleaving. `PreAllocatedStore` is the stack and payload store.
- **Packets.** `PacketTiming` compares the two timing modes, `Burst` and `Dispatch` order packets.
- **Trace files.** `Trace` proves what the reader recovers of what the printer wrote.
- **Arithmetic.** `Clock` gives the exact condition for cycle/tick round trips, `WideInt` proves the
  multi-word addition and shifts. `Arithmetic`, `Gathering`, `Memory` and `Wrappers` are helpers.

Fields and parameters that are history (serial numbers of orders, transfer numbers, logs) are only
written and copied, never read by a step. A panic of the source is a value of the model (`Panic`,
`Fault`, `None`), so that its absence is a theorem. `dafny verify dfyconfig.toml` checks the project.

## Model

| member | source | states |
|---|---|---|
| KernelCensus.StepKeepsAccounts | ra2m_sim/ra2m_sim_kernel/src/scheduler.rs:173-503 | Every step of a process or of the scheduler keeps each registered process in exactly one place (runnable, blocked, queued order, heap wake-up, event waiter) and the counters equal to the places |
| KernelCensus.AlwaysAccounted | ra2m_sim/ra2m_sim_kernel/src/scheduler.rs:173-268 | In every interleaving from a reset simulation: one place each, alive_prc plus woken but uncredited is the number of runnable processes, locked_prc the number blocked, hw_prc the total |
| KernelCensus.CycleEndMeansQuiet | ra2m_sim/ra2m_sim_kernel/src/scheduler.rs:331-338 | While the scheduler waits, alive_prc == 0 exactly when no process can run; so a cycle only ends when none can |
| KernelOnce.AlwaysOnce | ra2m_sim/ra2m_sim_kernel/src/scheduler.rs:386-503 | In every run each issued order is once in the queue, the heap, a waiter list or the log: none is lost, none takes effect twice |
| KernelReads.StepKeeps | ra2m_sim/ra2m_sim_kernel/src/scheduler.rs:386-503 | Every step keeps heap entries, waiters and log in agreement with the ticks at which orders were read |
| KernelTiming.OnTimeIff | ra2m_sim/ra2m_sim_kernel/src/scheduler.rs:386-465 | In every run an order issued at c for t takes effect at exactly max(c + 1, t) if and only if it was not pushed while the queue is closed (between the empty queue and the update of the clock), or the clock then stayed, or moved to a tick below t |
| KernelTiming.DueTakesEffect | ra2m_sim/ra2m_sim_kernel/src/scheduler.rs:386-503 | And it does take effect: from the end of its tick on, counted from its issue or, when it was pushed while the queue was closed, from the tick at which that ended; never before |
| KernelTiming.NoNotificationMissed | ra2m_sim/ra2m_sim_kernel/src/scheduler.rs:400-496 | In every run a fired notification releases exactly the waits for its event issued before its tick and not released earlier, whatever the queue order of notify and wait; a wait pushed while the queue was closed counts from the end of that |
| KernelTiming.CyclesBoundedByTime | ra2m_sim/ra2m_sim_kernel/src/scheduler.rs:431-465 | In every run each delta-cycle moves time strictly forward within the duration and nothing else moves it, so there are at most as many cycles as ticks passed |
| KernelTiming.PastIsRefused | ra2m_sim/ra2m_sim_kernel/src/scheduler.rs:176-192 | An order may be pushed for the present tick or a later one, and for no earlier one |
| KernelTiming.NewEventIsKnown | ra2m_sim/ra2m_sim_kernel/src/event.rs:92-108 | A new event can always be made, and may be awaited and triggered from then on, not before |
| KernelSample.SampledArePickedUp | ra2m_sim/ra2m_sim_kernel/src/scheduler.rs:352-383 | In every run, every hand-over announced before a sample has been picked up by a process that resumed before the counters are cleared |
| KernelLate.DisturbedRunIsLate | ra2m_sim/ra2m_sim_kernel/src/scheduler.rs:352-465 | A concrete run: a process unlocked after the queue was read asks for one tick at tick 0 and is not even queued when the clock shows 5 |
| KernelResume.ReleasedProcessIsReady | ra2m_sim/ra2m_sim_kernel/src/event.rs:53-68 | In every run a process released by a notification gets Ready at its next poll |
| KernelResume.ReleasedIsPolledFirst | ra2m_sim/ra2m_sim_kernel/src/event.rs:53-68 | In every run each process released by a notification may run but is yet to be polled for that very event, and does not count as running before |
| KernelEvents.ReadyOncePerCycle | ra2m_sim/ra2m_sim_kernel/src/event.rs:112-143 | Between two Ready answers to one process the triggered events were cleared, whatever events fired |
| KernelEvents.SecondAwaitHalts | ra2m_sim/ra2m_sim_kernel/src/event.rs:53-68 | After one Ready, the next await of the same cycle registers the process in the scheduler and takes it out of the alive ones |
| KernelReady.GoesOnIff | ra2m_sim/ra2m_sim_kernel/src/event.rs:53-143 | In every run a process that awaits an event, or is polled after a release, goes on at once if and only if a notification of that event took effect at the present tick and no earlier wait let it go on at that tick; a first wait that does not stops it and orders one WaitOn |
| EventNames.SameUidIffSameName | ra2m_sim/ra2m_sim_kernel/src/event.rs:92-108 | However events are looked up, two look-ups return the same number if and only if they ask for the same name |
| EventNames.EventKeeper.EventUid | ra2m_sim/ra2m_sim_kernel/src/event.rs:92-108 | The number of a known name, or the next one, under which it is then known |
| EventNames.EventKeeper.EventName | ra2m_sim/ra2m_sim_kernel/src/event.rs:148-162 | A name with that number, and none exactly when there is none |
| KernelSimulate.JumpMovesForward | ra2m_sim/ra2m_sim_kernel/src/scheduler.rs:431-465 | The clock jumps strictly forward and not beyond the duration, or simulate returns; it jumps exactly when some task falls into the duration and no early exit was requested |
| KernelSimulate.DrainStopsIff | ra2m_sim/ra2m_sim_kernel/src/scheduler.rs:422-428 | Reading the queue ends the simulation if and only if it holds an Exit order |
| KernelSimulate.ByOrderIff | ra2m_sim/ra2m_sim_kernel/src/scheduler.rs:317-508 | simulate returns on an order if and only if in some of its cycles the queue holds an Exit when it is read |
| KernelSimulate.SimulateReturns | ra2m_sim/ra2m_sim_kernel/src/scheduler.rs:422-458 | simulate returns its own tick: with NoHwPrc exactly when no task is left, with EndOfTick exactly when one is but all lie beyond the duration or a stop was requested; or, when a cycle read an Exit, with the kind of the first one queued, leaving the orders behind it |
| KernelSimulate.SplitSimulation | ra2m_sim/ra2m_sim_kernel/src/scheduler.rs:317-508 | simulate(d1) then simulate(d2) equals simulate(d2) in state and history exactly when no cycle of the first read an Exit order, or that order was the last queued and asked for the very return that follows anyway |
| KernelSimulateRun.DrainAllIsRun | ra2m_sim/ra2m_sim_kernel/src/scheduler.rs:386-429 | The loop over the order queue is a run of the step system |
| KernelSimulateRun.FireAllIsRun | ra2m_sim/ra2m_sim_kernel/src/scheduler.rs:468-503 | The loop over the due heap entries with its final credit is a run of the step system |
| KernelSimulateRun.SimulateIsRun | ra2m_sim/ra2m_sim_kernel/src/scheduler.rs:317-508 | With processes that act by steps, the whole of simulate, both waits and the catching up included, is a run of the step system from any state a run reaches |
| KernelSimulateRun.ProcessesExist | ra2m_sim/ra2m_sim_kernel/src/scheduler.rs:330-380 | There are deterministic processes that act by steps, end each cycle and pick up each hand-over |
| Scheduler.Scheduler.PushOrder | ra2m_sim/ra2m_sim_kernel/src/scheduler.rs:173-217 | Stores the order; a halting order also takes its process out of alive_prc |
| Scheduler.Delay.Poll | ra2m_sim/ra2m_sim_kernel/src/delay.rs:46-71 | Ready exactly when the tick is reached; before it, a poll in a tick other than that of its making panics, and all other polls together order one wake-up |
| Scheduler.Scheduler.IsTriggeredNow | ra2m_sim/ra2m_sim_kernel/src/event.rs:130-143 | True exactly for a fired event and a process not served in this cycle, which it then records |
| Scheduler.Event.Poll | ra2m_sim/ra2m_sim_kernel/src/event.rs:50-69 | Ready when triggered, otherwise registered once over all polls; the first poll and the poll after a release are the steps of the kernel |
| Scheduler.Scheduler.RegisterNewPrc | ra2m_sim/ra2m_sim_kernel/src/scheduler.rs:221-225 | The process counts as alive and as hardware process |
| Scheduler.Scheduler.UnregisterPrc | ra2m_sim/ra2m_sim_kernel/src/scheduler.rs:229-239 | The process leaves both counts |
| Scheduler.Scheduler.LockPrc | ra2m_sim/ra2m_sim_kernel/src/scheduler.rs:244-254 | The process moves from alive to locked |
| Scheduler.Scheduler.UnlockPrc | ra2m_sim/ra2m_sim_kernel/src/scheduler.rs:256-268 | The process moves back and counts as unlocked |
| Scheduler.Scheduler.UnlockEvt | ra2m_sim/ra2m_sim_kernel/src/scheduler.rs:270-273 | One more hand-over announced, nothing else changes |
| Scheduler.Scheduler.AcceptOrder | ra2m_sim/ra2m_sim_kernel/src/scheduler.rs:387-428 | Turns one order into a heap entry at its due tick, a waiter, or the return of simulate |
| Scheduler.Scheduler.DrainOrders | ra2m_sim/ra2m_sim_kernel/src/scheduler.rs:386-429 | The loop leaves the state of the recursive specification of the whole queue and stops exactly on an Exit |
| Scheduler.Scheduler.JumpToNextTask | ra2m_sim/ra2m_sim_kernel/src/scheduler.rs:431-465 | Returns NoHwPrc exactly without tasks, EndOfTick exactly when all lie beyond the duration or at a forced early exit; otherwise goes to the smallest tick |
| Scheduler.Scheduler.WakeUp | ra2m_sim/ra2m_sim_kernel/src/scheduler.rs:478-482 | One delayed process runs again and is credited later |
| Scheduler.Scheduler.TriggerEvent | ra2m_sim/ra2m_sim_kernel/src/scheduler.rs:483-496 | The event is recorded as fired and all its waiters, and only they, are released |
| Scheduler.Scheduler.PopAndFire | ra2m_sim/ra2m_sim_kernel/src/scheduler.rs:475-498 | Pops a heap entry of the smallest tick and lets it take effect |
| Scheduler.Scheduler.FireTick | ra2m_sim/ra2m_sim_kernel/src/scheduler.rs:468-503 | Fires all entries of the tick and only then credits alive_prc |
| Scheduler.Scheduler.WaitHwThread | ra2m_sim/ra2m_sim_kernel/src/scheduler.rs:331-349 | Goes on at once when no process is alive, otherwise when the last one halted |
| Scheduler.Scheduler.CatchUpUnlocked | ra2m_sim/ra2m_sim_kernel/src/scheduler.rs:355-358 | Yields as long as fewer processes resumed than were announced in the one sample, and ends |
| Scheduler.Scheduler.ResolveUnlocked | ra2m_sim/ra2m_sim_kernel/src/scheduler.rs:352-380 | Samples unlock_evt once; if positive, catches up with it and waits for the end of the cycle again |
| Scheduler.Scheduler.CloseCycle | ra2m_sim/ra2m_sim_kernel/src/scheduler.rs:330-429 | From the wait for the processes, over the sampled hand-overs, to the empty order queue |
| Scheduler.Scheduler.Simulate | ra2m_sim/ra2m_sim_kernel/src/scheduler.rs:317-508 | The whole loop terminates in the state of its specification and returns its tick, with NoHwPrc or EndOfTick exactly when no task is left or none is due, unless an Exit order was read |
| KernelHandOver.StepKeepsInv | ra2m_sim/ra2m_sim_kernel/src/port/mod.rs:229-286 | Under every step of ports, channels, processes and scheduler: each blocked process waits at exactly one port or channel, each port counts its queue plus a waiter that was handed the lock, and the counters keep their difference |
| KernelHandOver.RunsAreKernelRuns | ra2m_sim/ra2m_sim_kernel/src/port/half_duplex.rs:24-62 | Every run with port locks and bounded channels is, seen from the scheduler, a run of the kernel, which orders nothing in the gap before the clock unless that run does |
| KernelHandOver.CountersCountHandOvers | ra2m_sim/ra2m_sim_kernel/src/port/mod.rs:229-286 | In every run unlock_evt - unlocked_prc is the number of waiters handed a lock and not resumed, up to those already outstanding at the last clear, for any number of ports, channels and processes |
| KernelHandOver.LostExactlyAtUnevenClears | ra2m_sim/ra2m_sim_kernel/src/scheduler.rs:352-383 | No hand-over is forgotten up to a step if and only if every clear so far found the two counters equal |
| KernelHandOver.SafeToClose | ra2m_sim/ra2m_sim_kernel/src/scheduler.rs:352-359 | While none was forgotten, none is outstanding if and only if the counters are equal, which a sample of zero implies |
| KernelHandOver.ChannelsKeepPackets | ra2m_sim/ra2m_sim_kernel/src/port/half_duplex.rs:24-62 | In every run each channel holds just the packets sent and not received yet, and never more than its capacity |
| KernelHandOver.SendsOrBlocks | ra2m_sim/ra2m_sim_kernel/src/port/half_duplex.rs:31-62 | A process sends at once exactly when there is room and receives at once exactly when there is a packet; otherwise it blocks |
| KernelHandOver.DropHandsOver | ra2m_sim/ra2m_sim_kernel/src/port/mod.rs:229-286 | A dropped guard hands the lock to the waiter that waited longest; the lock can be taken at once afterwards exactly when nobody waited |
| KernelQuiet.NobodyComesBack | ra2m_sim/ra2m_sim_kernel/src/scheduler.rs:352-465 | Over any run from a state in which nobody runs, no waiter was handed a lock and no blocked end of a channel can go on: nobody runs and nothing is ordered up to the update of the clock |
| KernelQuiet.ComesBackIff | ra2m_sim/ra2m_sim_kernel/src/port/half_duplex.rs:41-62 | With nobody running while a cycle is closed, a process can come back before the update of the clock if and only if a waiter was handed its lock or a blocked end of a channel can go on |
| KernelQuiet.EqualCountersLeaveChannels | ra2m_sim/ra2m_sim_kernel/src/scheduler.rs:352-383 | While no hand-over was forgotten and nobody is alive, equal counters exclude exactly the returns by a lock: one can come back if and only if the counters differ or a channel is ready |
| KernelQuiet.QuietRunsAreOnTime | ra2m_sim/ra2m_sim_kernel/src/scheduler.rs:352-503 | If at each clear nobody is alive, the counters are equal and no channel is ready, every delay and notification takes effect at exactly max(c + 1, t), whatever ports and channels did in between |
| KernelLost.ChainedHandOverIsLost | ra2m_sim/ra2m_sim_kernel/src/scheduler.rs:352-383 | A concrete run of two chained hand-overs: the sample saw only the first, the clear forgets the second, and that waiter can come back before the clock is updated |
| KernelLost.SampleMissesChannel | ra2m_sim/ra2m_sim_kernel/src/port/half_duplex.rs:341-350 | A concrete run in which a packet waits for a blocked receiver while the scheduler samples zero and closes the cycle: the receiver can come back before the clock is updated |
| KernelHandOver.PortMutex.Lock | ra2m_sim/ra2m_sim_kernel/src/port/mod.rs:229-257 | Taken at once exactly when free, otherwise counted and queued last |
| KernelHandOver.PortMutex.Resume | ra2m_sim/ra2m_sim_kernel/src/port/mod.rs:248-250 | The waiter that was handed the lock holds it and counts as unlocked |
| KernelHandOver.PortMutex.Drop | ra2m_sim/ra2m_sim_kernel/src/port/mod.rs:279-286 | Announces a hand-over exactly when a waiter gets the lock, which goes to the first one |
| NDma.NewPartitioned | ra2m_cpn/src/net/dma.rs:113-124 | A new engine has every token free |
| NDma.ReservePartitioned | ra2m_cpn/src/net/dma.rs:342-360 | Popping a token for a layer keeps each token free, reserved or occupied, exactly one of them |
| NDma.FreePartitioned | ra2m_cpn/src/net/dma.rs:331-341 | Releasing an occupied slot keeps that partition |
| NDma.StorePartitioned | ra2m_cpn/src/net/dma.rs:267-276 | Filling the slot of a reserved token keeps that partition |
| NDmaNode.NDmaNode.constructor | ra2m_cpn/src/net/dma.rs:113-124 | Starts with all tokens free |
| NDmaNode.NDmaNode.WaitSlot | ra2m_cpn/src/net/dma.rs:342-360 | Takes the last free token, or waits exactly when there is none |
| NDmaNode.NDmaNode.RemoveSlotAt | ra2m_cpn/src/net/dma.rs:331-341 | Push and swap_remove return the slot, leave it empty in place, and release its token |
| NDmaNode.NDmaNode.DmaToInnerReq | ra2m_cpn/src/net/dma.rs:362-416 | Stores the request and sends its read, locally or over the network, with the token on the stack |
| NDmaNode.NDmaNode.Ingress | ra2m_cpn/src/net/dma.rs:258-293 | Stores where an external packet came from and issues its payload with the server token pushed; a payload that is not a request panics with the slot filled |
| NDmaNode.NDmaNode.ForwardResp | ra2m_cpn/src/net/dma.rs:418-503 | Turns a read response into the write, answers a finished transfer, or sends an external one back; panics exactly as the value model says |
| Switch.FirstRegistrationHolds | ra2m_cpn/src/net/switch.rs:184-200 | A node is reached at the port it was first registered with; later registrations never move it |
| Switch.RoutedByRegistration | ra2m_cpn/src/net/switch.rs:119-200 | After any registrations a packet goes on unchanged by the port its destination - on the way back its source - was registered with first, and bounces as unreachable exactly when it never was |
| Switch.Switch.RegisterPort | ra2m_cpn/src/net/switch.rs:184-190 | Refuses a second registration and leaves the table as it was |
| Switch.Switch.ForwardLayer | ra2m_cpn/src/net/switch.rs:119-149 | Each packet leaves by the port of its destination, or bounces when that is unknown |
| Switch.Switch.BackwardLayer | ra2m_cpn/src/net/switch.rs:153-182 | Each response leaves by the port of its source, or bounces |
| NDmaInvariant.ReserveKeepsInv | ra2m_cpn/src/net/dma.rs:342-360 | Reserving a token keeps the network invariant |
| NDmaInvariant.SubmitKeepsInv | ra2m_cpn/src/net/dma.rs:362-416 | Accepting a DMA request does not fail and keeps the network invariant |
| NDmaInvariant.IngressKeepsInv | ra2m_cpn/src/net/dma.rs:258-293 | Accepting an external packet does not fail and keeps the network invariant |
| NDmaInvariant.RouteKeepsInv | ra2m_cpn/src/net/switch.rs:119-182 | Both directions of the switch find their port and keep the network invariant |
| NDmaInvariant.TurnedKeepsInv | ra2m_cpn/src/net/dma.rs:440-479 | The in-place turn of a read response into a local or remote write keeps the network invariant |
| NDmaInvariant.AnsweredKeepsInv | ra2m_cpn/src/net/dma.rs:481-489 | Answering the initiator keeps the network invariant |
| NDmaInvariant.SentBackKeepsInv | ra2m_cpn/src/net/dma.rs:493-501 | Sending an external response back keeps the network invariant |
| NDmaSafety.HomeResponse | ra2m_cpn/src/net/dma.rs:433-491 | At its initiator a response finds its own slot and turns or answers, without a panic |
| NDmaSafety.ServerResponse | ra2m_cpn/src/net/dma.rs:493-501 | At a server a response finds its own slot and goes back to its source, without a panic |
| NDmaSafety.MemResponseKeepsInv | ra2m_cpn/src/net/dma.rs:233-255 | mem_layer never panics on what it can receive |
| NDmaSafety.EgressKeepsInv | ra2m_cpn/src/net/dma.rs:296-322 | egress_layer never panics on what it can receive |
| NDmaSafety.ServeKeepsInv | ra2m_cpn/src/mem/np_ram.rs:122-146 | The memory access stays in bounds and logs exactly the bytes it saw or wrote |
| NDmaSafety.StepKeepsInv | ra2m_cpn/src/net/dma.rs:219-503 | Every step of every layer, memory and switch succeeds and keeps the invariant |
| NDmaSafety.NeverPanics | ra2m_cpn/src/net/dma.rs:219-503 | From fresh nodes, in any interleaving of any number of error-free transfers, no slot, stack or routing panic fires |
| NDmaResults.AnsweredOnce | ra2m_cpn/src/net/dma.rs:481-489 | Each request is in flight unanswered, or its initiator was sent exactly one packet: by its own node, and equal to the request it submitted |
| NDmaResults.AnsweredMeansCopied | ra2m_cpn/src/net/dma.rs:362-492 | An answered transfer wrote at its destination, after its read, exactly the bytes its source held at that read: local or remote, overlapping or not |
| NDmaResults.CopyStays | ra2m_cpn/src/net/dma.rs:440-489 | The copy is in the destination memory as long as no later write touches it |
| NDmaResults.AccessesAreTransfers | ra2m_cpn/src/mem/np_ram.rs:122-146 | Every access to a memory was made for exactly one transfer |
| NDmaResults.AnsweredAccessesTwice | ra2m_cpn/src/net/dma.rs:362-492 | An answered transfer made exactly two accesses: one read and, later, one write |
| NDmaResults.TokensNameTheirSlots | ra2m_cpn/src/net/dma.rs:258-503 | In every reachable state tokens are partitioned and each packet's stack is its initiator token, plus a server token inside another node, naming slots of that very transfer |
| NDmaResults.NoTokenShared | ra2m_cpn/src/net/dma.rs:331-360 | Two packets in flight never use the same slot |
| NDmaResults.IdleMeansAllTokensBack | ra2m_cpn/src/net/dma.rs:331-360 | With nothing in flight every token is free or reserved by a layer: none is lost |
| NDmaResults.PacketStepsCountDown | ra2m_cpn/src/net/dma.rs:219-503 | Every step on a packet brings its answer exactly one step nearer |
| NDmaResults.StepsAreCounted | ra2m_cpn/src/net/dma.rs:219-503 | Along any run the steps taken for a transfer are exactly those it then needs less |
| NDmaResults.AnswerTakesTwoLegs | ra2m_cpn/src/net/dma.rs:362-503 | A request is answered, with itself, exactly when its packet took the steps of its read leg and its write leg, two at home and six elsewhere |
| NDmaResults.PacketsCanMove | ra2m_cpn/src/net/dma.rs:258-264 | A packet can take a step unless it waits in front of a node whose ingress layer has no token |
| Memory.Overwrite | ra2m_cpn/src/mem/np_ram.rs:138-139 | Copying into a slice changes exactly its bytes |
| AddrRange.Floor | ra2m_sim/ra2m_sim_kernel/src/protocol/addr.rs:237 | The last entry of range(..=addr): the greatest offset not above the address, if any |
| AddrRange.SeparatedIsDisjoint | ra2m_sim/ra2m_sim_kernel/src/protocol/addr.rs:194-201 | For non-empty ranges, separated means that no address belongs to two of them |
| AddrRange.InsertKeepsSeparated | ra2m_sim/ra2m_sim_kernel/src/protocol/addr.rs:210-228 | Rejected as an overlap exactly when the offset lies in a registered range; an accepted range keeps the table disjoint if and only if it ends at or before every later offset, which nothing checks |
| AddrRange.DecreasingOrderOverlaps | ra2m_sim/ra2m_sim_kernel/src/protocol/addr.rs:217-227 | A concrete insertion that is accepted and overlaps its successor |
| AddrRange.FindIsScan | ra2m_sim/ra2m_sim_kernel/src/protocol/addr.rs:230-252 | On a disjoint table the look-up of a non-empty access is the unique range that contains it; exactly when each error is returned |
| AddrRange.FindWithin | ra2m_sim/ra2m_sim_kernel/src/protocol/addr.rs:230-252 | On a disjoint table the look-up succeeds exactly for the accesses, empty ones included, that some range holds whole |
| AddrRange.IncreasingRegisters | ra2m_sim/ra2m_sim_kernel/src/protocol/addr.rs:210-228 | Ranges registered in increasing order are all accepted and leave a disjoint table that holds them |
| AddrRange.OnlyAnnounced | ra2m_sim/ra2m_sim_kernel/src/protocol/addr.rs:225-227 | The table holds nothing that was not registered |
| AddrRange.AddrRangeMap.InsertRange | ra2m_sim/ra2m_sim_kernel/src/protocol/addr.rs:210-228 | Adds the range, or reports the overlap and changes nothing |
| AddrRange.AddrRangeMap.AddrRangeLookup | ra2m_cpn/src/mem/xbar.rs:154-193 | The nested loops over ports and ranges register them in port order and panic exactly when a registration fails |
| MemBus.XBar.ForwardLayer | ra2m_cpn/src/mem/xbar.rs:195-258 | Each request is routed with its index pushed and its address made relative, or sent back with the right error |
| MemBus.RoutedIff | ra2m_cpn/src/mem/xbar.rs:205-255 | A read or write is routed if and only if one range holds all it reaches over - its length, or stride times iterations - to that range's port at its address in the range; otherwise it comes back as unmapped or crossing a range |
| MemBus.XBar.BackwardLayer | ra2m_cpn/src/mem/xbar.rs:261-293 | Each response leaves by the popped inbound port |
| MemBus.NpRam.HandleRequest | ra2m_cpn/src/mem/np_ram.rs:97-160 | Reads append the slice, writes change exactly it in place, errors leave the memory alone |
| MemBus.HandledIff | ra2m_cpn/src/mem/np_ram.rs:97-160 | A RAM handles exactly the contiguous reads and writes at an address in its bounds, a write with just as many bytes; each other request has its own error or panics, and leaves the memory alone |
| MemBus.HopOffsetIsRangeStart | ra2m_cpn/src/mem/xbar.rs:227-240 | What a hop subtracts is the start of the range that holds the access, and its port is that range's |
| MemBus.OutRewrites | ra2m_cpn/src/mem/xbar.rs:225-249 | Over nested crossbars a request changes only by the sum of the range offsets and by the inbound indices on its stack |
| MemBus.InReturnsBy | ra2m_cpn/src/mem/xbar.rs:271-288 | Its response comes back through the same inbound ports in reverse, with the original stack, and panics exactly when a crossbar has no such port |
| MemBus.RoundTrip | ra2m_cpn/src/mem/xbar.rs:225-288 | Out along any path, through a RAM and back: stack restored, same ports |
| MemBus.RejectedKeepsIndexOnRouteError | ra2m_cpn/src/mem/xbar.rs:205-255 | A rejected packet differs from the request in mode only, except that after a failed look-up its inbound index is still on the stack |
| Fabric.FlatExists | ra2m_sim/ra2m_sim_kernel/src/protocol/addr.rs:194-201 | Every correct table with its RAMs represents a flat memory |
| Fabric.ReadRefines | ra2m_cpn/src/mem/np_ram.rs:125-129 | A routed read is in bounds and returns what the flat memory holds |
| Fabric.WriteRefines | ra2m_cpn/src/mem/np_ram.rs:130-140 | A routed write is in bounds and is the flat write |
| Fabric.RouteKeeps | ra2m_cpn/src/mem/xbar.rs:195-258 | The forward layer does not panic and keeps the refinement |
| Fabric.ServeKeeps | ra2m_sim/ra2m_sim_kernel/src/port/full_duplex.rs:130-151 | Serving a request or dropping it keeps the refinement, without a slice out of bounds |
| Fabric.ReturnKeeps | ra2m_cpn/src/mem/xbar.rs:261-293 | The backward layer does not panic and restores the stack |
| Fabric.RamsAreFlat | ra2m_cpn/src/mem/np_ram.rs:97-160 | In any run nothing panics and the RAMs together are the flat memory after the accesses so far |
| Fabric.ServedAsFlat | ra2m_cpn/src/mem/xbar.rs:195-293 | A delivered answer to a contiguous access that one range holds carries what the flat memory held at its one access, or its data is there; stack and port are the requester's |
| Fabric.MappedIsAnswered | ra2m_cpn/src/mem/xbar.rs:205-293 | In any run a contiguous read or write that one range holds is delivered as a response only, after its access; any other never reaches a RAM and is delivered as refused only |
| Fabric.RefusedLeavesMemory | ra2m_cpn/src/mem/xbar.rs:205-255 | Request and table alone decide who is refused; a request not served made no access |
| Fabric.AccessesAreRequests | ra2m_cpn/src/mem/np_ram.rs:122-146 | Every access of the memory belongs to exactly one request |
| Fabric.StrideIsNeverAnswered | ra2m_sim/ra2m_sim_kernel/src/port/full_duplex.rs:138-146 | A request that the RAM cannot handle never gets an answer |
| PreAllocatedStore.PreAllocatedStore.constructor | ra2m_sim/ra2m_sim_containers/src/preallocatedstore.rs:17-25 | Starts empty |
| PreAllocatedStore.PreAllocatedStore.Len | ra2m_sim/ra2m_sim_containers/src/preallocatedstore.rs:48-53 | The number of elements in either variant |
| PreAllocatedStore.PreAllocatedStore.Push | ra2m_sim/ra2m_sim_containers/src/preallocatedstore.rs:74-92 | Appends, and moves to the vector exactly when the static slots run out |
| PreAllocatedStore.PreAllocatedStore.Pop | ra2m_sim/ra2m_sim_containers/src/preallocatedstore.rs:94-106 | Removes and returns the last element, None exactly when empty |
| PreAllocatedStore.PreAllocatedStore.ExtendFromSlice | ra2m_sim/ra2m_sim_containers/src/preallocatedstore.rs:108-128 | Appends all, and moves to the vector exactly when they do not fit into the static slots |
| PreAllocatedStore.PreAllocatedStore.IntoVec | ra2m_sim/ra2m_sim_containers/src/preallocatedstore.rs:130-135 | The plain sequence |
| Dma.Dma.TakeSlot | ra2m_cpn/src/mem/dma.rs:117-133 | Takes the last free token, or waits exactly when there is none |
| Dma.Dma.AcceptRequest | ra2m_cpn/src/mem/dma.rs:135-165 | Stores the request and sends its read with the token on the stack |
| Dma.Dma.ReleaseSlot | ra2m_cpn/src/mem/dma.rs:214-223 | Push and swap_remove return the request, empty its slot in place and release its token |
| Dma.Dma.ForwardLayer | ra2m_cpn/src/mem/dma.rs:170-266 | One round turns a read into the write, answers success or error, or panics, as the value model says |
| Dma.StepKeepsInv | ra2m_cpn/src/mem/dma.rs:116-267 | Every step succeeds and keeps tokens, slots, packets and history in agreement, unless a crossbar's index takes the place of the token |
| Dma.EachRequestAnsweredOnce | ra2m_cpn/src/mem/dma.rs:116-267 | Whatever the memory answers, errors included: no panic, no token lost, each request waits or its initiator was sent that very request once, without an error exactly when its write came back, else with the error that came back; without one just its read and one write were sent, to its destination with its pattern and exactly the bytes the read came back with |
| Dma.RouteErrorReachesItsRequest | ra2m_cpn/src/mem/dma.rs:176-257 | After a failed look-up in a crossbar the Dma answers the request that failed if and only if the inbound index left on the stack equals its token |
| Dma.ErrorAnswersAnotherRequest | ra2m_cpn/src/mem/dma.rs:176-257 | A concrete run behind a crossbar: the failed look-up of one request answers another one, the first is never answered, and the next response panics |
| DmaFabric.StepKeepsInv | ra2m_cpn/src/mem/dma.rs:116-267 | Engine, crossbar, RAMs and other requesters interleaved: for mapped addresses no step panics, and the history of each request is what happened to its packets in the fabric |
| DmaFabric.RunsAreBoth | ra2m_cpn/src/mem/dma.rs:116-267 | Every such run is, step by step, a run of the engine and a run of the fabric |
| DmaFabric.AnsweredMeansCopied | ra2m_cpn/src/mem/dma.rs:138-209 | Whatever else is interleaved, a request for mapped addresses never fails, and once answered it read once and then wrote once, both accesses its own: the bytes the flat memory held at its source at that read, put at its destination |
| PacketTiming.Packet.constructor | ra2m_sim/ra2m_sim_kernel/src/port/packet.rs:41-49 | Ready at the current tick plus the optional delay |
| PacketTiming.Packet.HandleDelay | ra2m_sim/ra2m_sim_kernel/src/port/packet.rs:62-67 | A timed packet is held until it is ready |
| PacketTiming.Packet.AccountDelay | ra2m_sim/ra2m_sim_kernel/src/port/packet.rs:73-84 | Adds the delay and waits for it in AT mode only |
| PacketTiming.Packet.AppendDelay | ra2m_sim/ra2m_sim_kernel/src/port/packet.rs:90-92 | Adds the delay and never waits |
| PacketTiming.Packet.Delay | ra2m_sim/ra2m_sim_kernel/src/port/packet.rs:96-100 | What is left to wait, never negative |
| PacketTiming.Packet.Rewrap | ra2m_sim/ra2m_sim_kernel/src/protocol/network.rs:92-115 | Wrapping and unwrapping keep the unpaid delay and the timed option |
| PacketTiming.ArrivalMonotone | ra2m_sim/ra2m_sim_kernel/src/port/packet.rs:62-100 | Whatever the modes of two runs, the packet that is held no longer arrives no later |
| PacketTiming.ModesAgree | ra2m_sim/ra2m_sim_kernel/src/port/mod.rs:24-32 | LT, AT and any mix that toggles on the way give the same arrival tick |
| PacketTiming.UncontendedArrival | ra2m_sim/ra2m_sim_kernel/src/port/packet.rs:62-100 | Uncontended, a packet arrives at its first ready tick plus the sum of all delays appended to it or accounted for at ports, through any wraps |
| PacketTiming.HeldArrival | ra2m_sim/ra2m_sim_kernel/src/port/packet.rs:62-100 | Held by busy ports anywhere, in any modes and through any wraps, it arrives at the latest of its ready tick plus all delays and of each hold plus the delays behind the next wrap |
| Burst.InsertByUid | ra2m_sim/ra2m_sim_kernel/src/port/half_duplex.rs:647-666 | The cursor loop inserts before the first packet with a greater uid |
| Burst.InsertKeepsSorted | ra2m_sim/ra2m_sim_kernel/src/port/half_duplex.rs:647-666 | That keeps the list sorted and adds exactly that packet |
| Burst.SendBurst | ra2m_sim/ra2m_sim_kernel/src/port/half_duplex.rs:240-258 | The burst goes out last packet first, complete |
| Burst.WaitBurst | ra2m_sim/ra2m_sim_kernel/src/port/half_duplex.rs:612-669 | The received packets, all of them, sorted by uid |
| Burst.SortedIsUnique | ra2m_sim/ra2m_sim_kernel/src/port/packet.rs:103-116 | With distinct uids there is one sorted order of a burst |
| Burst.BurstComesBackInOrder | ra2m_sim/ra2m_sim_kernel/src/port/half_duplex.rs:599-669 | Any arrival order of uid-preserving responses is returned in request order |
| Burst.RequestBurst | ra2m_sim/ra2m_sim_kernel/src/port/full_duplex.rs:95-113 | Send and receive together: sent in reverse, returned in request order |
| Dispatch.Queue.Enqueue | ra2m_sim/ra2m_sim_kernel/src/port/dispatch.rs:42-80 | Waits exactly while full, else inserts by uid and stays sorted within its depth |
| Dispatch.Queue.Dequeue | ra2m_sim/ra2m_sim_kernel/src/port/dispatch.rs:84-107 | Waits exactly while too short, else splits off the head |
| Dispatch.Queue.Flush | ra2m_sim/ra2m_sim_kernel/src/port/dispatch.rs:110-112 | Empties the queue |
| Dispatch.Dispatch.constructor | ra2m_sim/ra2m_sim_kernel/src/port/dispatch.rs:173-197 | One empty queue per session with its depth |
| Dispatch.Dispatch.PollPort | ra2m_sim/ra2m_sim_kernel/src/port/dispatch.rs:142-152 | A packet that names session k joins queue k and one that names none queue 0, in uid order, and no other queue changes; it waits exactly while that queue is full, and panics exactly when there is no such queue |
| Dispatch.Dispatch.WaitBurst | ra2m_sim/ra2m_sim_kernel/src/port/dispatch.rs:315-329 | The head of one session's queue; other sessions are untouched |
| Dispatch.DequeueTakesSmallest | ra2m_sim/ra2m_sim_kernel/src/port/dispatch.rs:98-106 | The dequeued packets are the ones with the smallest uids |
| Dispatch.NothingLost | ra2m_sim/ra2m_sim_kernel/src/port/dispatch.rs:42-152 | In any run without a flush: queues sorted and bounded, and each session has got or still has queued exactly what arrived naming it, the first also what names none |
| Dispatch.OnlyOwnPackets | ra2m_sim/ra2m_sim_kernel/src/port/dispatch.rs:142-152 | In any run every packet in queue i, or read from it, names session i, or i is 0 and it names none |
| Dispatch.ArrivesOnlyThere | ra2m_sim/ra2m_sim_kernel/src/port/dispatch.rs:142-152 | One arrival changes just the queue of the session that the packet names, or queue 0 |
| Dispatch.SessionBurstInOrder | ra2m_sim/ra2m_sim_kernel/src/port/full_duplex.rs:244-268 | Each burst of a session: from an empty queue, once its responses have arrived in any order and whatever other sessions do, they are queued in request order, and reading them leaves the queue empty for the next burst |
| Dispatch.TaggedBurstComesBack | ra2m_sim/ra2m_sim_kernel/src/port/full_duplex.rs:244-268 | Responses that keep the uids of a burst and the session set on it, arriving in any order among packets for others, are what reading as many from that session returns, in request order |
| Dispatch.SendTaggedBurst | ra2m_sim/ra2m_sim_kernel/src/port/full_duplex.rs:244-263 | Every packet gets the session, then the burst goes out last packet first |
| Trace.DecodePrefix | tools/parsers/src/parser.rs:32-39 | No proper prefix of an encoding decodes, and bytes behind it do not matter |
| Trace.PrintAll | ra2m_sim/ra2m_sim_output/src/trace.rs:245-249 | The macro writes each record and a newline |
| Trace.ReadTrace | tools/parsers/src/parser.rs:14-61 | The loop with its buffer and counters computes the recursive reader |
| Trace.ReadRecord | tools/parsers/src/parser.rs:24-56 | A record with at most ten newline bytes is decoded and the reader starts afresh; with more it stops there |
| Trace.ReadUndoesPrint | tools/parsers/src/parser.rs:14-61 | Of records of which only the last may end in 0x0A the reader returns those before the first with more than ten newline bytes before its last byte, an error when that is the very first |
| Trace.AllComeBackIff | tools/parsers/src/parser.rs:46-53 | All of them come back if and only if none holds more than ten newline bytes before its last byte |
| Trace.TableHoldsValues | tools/parsers/src/parser.rs:37 | The map holds for each port exactly its values in order |
| Trace.TruncatedLastRecord | tools/parsers/src/parser.rs:44-52 | A stream cut inside its last record loses nothing else after one complete record; without one, by the number of chunks |
| Trace.NewlineAtEndLosesRecord | tools/parsers/src/parser.rs:29-39 | Two records whose encoding ends in 0x0A come back as one |
| Clock.CycleComesBackIff | ra2m_sim/ra2m_sim_kernel/src/types/clock.rs:84-95 | A cycle is recovered from its tick if and only if the part of a tick cut off is at most the quarter period |
| Clock.QuarterIs | ra2m_sim/ra2m_sim_kernel/src/types/clock.rs:84-95 | The sampling point lies a quarter of the period behind the edge, rounded to the nearest and halves up |
| Clock.TicksAndCycles | ra2m_sim/ra2m_sim_kernel/src/types/clock.rs:84-95 | The tick of a cycle is the last that starts at or before its sampling point, and the cycle of a tick the last whose edge is at or before its start |
| Clock.AllCyclesComeBackIff | ra2m_sim/ra2m_sim_kernel/src/types/clock.rs:84-95 | Every cycle is recovered if and only if the worst cut, computed from period, timescale and their common divisor, is at most the quarter period |
| Clock.CutAtMost | ra2m_sim/ra2m_sim_kernel/src/unit.rs:147-151 | No cycle is cut by more than the worst cut |
| Clock.CutReached | ra2m_sim/ra2m_sim_kernel/src/unit.rs:147-151 | Some cycle is cut by exactly the worst cut |
| Clock.FineOrDividingTimescale | ra2m_sim/ra2m_sim_kernel/src/types/clock.rs:84-95 | A timescale within the quarter period plus one, or dividing the period, meets the condition |
| Clock.StrictlyIncreasingIff | ra2m_sim/ra2m_sim_kernel/src/types/clock.rs:84-89 | Distinct cycles get distinct increasing ticks if and only if a tick is no longer than a period |
| WideInt.SlicedAdd | ra2m_sim/ra2m_sim_kernel/src/types/uint.rs:37-61 | Words and carry are the exact sum for operands of any lengths |
| WideInt.SumExactIff | ra2m_sim/ra2m_sim_kernel/src/types/uint.rs:56-60 | The words are the sum modulo the width, and exact if and only if there is no carry |
| WideInt.ShlWord | ra2m_sim/ra2m_sim_kernel/src/types/uint.rs:119-123 | Adding the shifted-in bits to a shifted word never overflows and loses no bit |
| WideInt.SlicedShl | ra2m_sim/ra2m_sim_kernel/src/types/uint.rs:113-126 | Multiplication by a power of two modulo the width, for any word count and shift |
| WideInt.ExtraBitIsCut | ra2m_sim/ra2m_sim_kernel/src/types/uint.rs:142-143 | The mask keeps one bit too many, which the cut to 64 bits removes |
| WideInt.SlicedShr | ra2m_sim/ra2m_sim_kernel/src/types/uint.rs:129-146 | Floor division by a power of two, for any word count and shift |

## Left out

- KernelSimulate.SplitSimulation: the processes, and the user's request to exit early, are deterministic functions of the state with its history that do not look at the duration; Kernel covers all other interleavings.
- Scheduler.Scheduler.Simulate: the processes take their turns at the scheduler's waits as such a function.
- KernelHandOver.CountersCountHandOvers: a failed try_lock, its counting and its queueing are one step (no await lies between them, and processes that share one worker thread are not interleaved there), as are the two counts of a process that comes back from a channel.
- KernelHandOver.PortMutex.Lock: that one step.
- KernelHandOver: a channel has one sending and one receiving end, each used under its port lock; a process is spawned by a process or while nothing is simulated.
- The runtime's wakers and the 500 ms timeouts of the scheduler's waits, with the panic at a forced exit in a deadlock: host time.
- The capacity of the order queue, which always has room.
- A process that awaits two delays or events at once.
- The counters that a reset of SchedulerAPI does not reset: runs start with all counters zero.
- NDmaSafety.NeverPanics: transfers are error-free, that is between known nodes and inside their memories; the error branches of NDma cannot be reached behind its ports' expect and panic there.
- NDmaResults.PacketsCanMove: safety only; nodes can fill all their slots with their own requests and then wait for each other.
- NDmaNode.NDmaNode.WaitSlot: the look at the free list and the pop are one step, no other process takes the token in between.
- NDma has one memory per node behind its mem port; that a crossbar with RAMs behaves so is Fabric.
- Dma.EachRequestAnsweredOnce: not for runs in which a crossbar leaves an index on the stack that is not the token, where it fails (Dma.ErrorAnswersAnotherRequest); slot_freed is never triggered there, so no liveness.
- DmaFabric.AnsweredMeansCopied: requests for mapped addresses only, for the same reason; one engine, the other requesters are arbitrary.
- Fabric.RamsAreFlat: requests respect the assertion on the length of write data and carry a pattern when they carry an address; one crossbar with single-port RAMs.
- Machine integers: addresses, ticks and uids are unbounded, so overflow and uid wrap-around are not modelled.
- PacketTiming.ModesAgree: busy ports hold the packet until the same ticks in both modes; that contention itself shifts with the mode is covered only by PacketTiming.ArrivalMonotone.
- PacketTiming leaves out how delays come about: random latencies and bandwidths are arbitrary naturals.
- Burst and Dispatch leave out status checks, traces and delays of packets, and the events on which enqueue and dequeue wait (KernelEvents covers their retry loops).
- Trace.ReadUndoesPrint: a record is a length-prefixed port and a length-prefixed value, and text is bytes without a check of its encoding; for encodings that end in 0x0A only the failure is shown, because crafted lists of such records can still come back whole; the last record may be one.
- Clock: f64 rounding in unit.rs, with round(p / 4) taken as (p + 2) / 4, and the rounding up of a borrowed Time.
- WideInt: sliced_sub, sliced_mul, sliced_div and normalize are unfinished in the source; the whole file is disabled in types/mod.rs.
- Elaboration, port binding, procedural macros, logging, history spans, FFI bridges, SparseVec and GrowOnlyVec: not modelled.
