# Verified models of the RTICX runtime

RTICX is a modular RTIC: a Rust framework of interrupt-driven tasks for microcontrollers. This project models, in Dafny 4.11,
the four parts of it whose correctness does not show in any one function, and proves what they are for. `dafny verify
dfyconfig.toml` checks all of it.

* **The async channel** (`rticx-async`). An N-slot channel with any number of senders and one receiver. `channel_core.dfy` has
  one function per critical section, `channel_protocol.dfy` the interleavings of those sections with per-sender program
  counters, cancellation included, `channel_ownership.dfy`, `channel_queue.dfy`, `channel_delivery.dfy` and
  `channel_wakeups.dfy` the parts of the invariant, `channel_theorems.dfy` what holds of every run, `channel_operations.dfy`
  what each operation answers and does. `channel_closing.dfy` says when `NoSender` can be reported too early,
  `channel_reuse.dfy` what a second `split` does. `wait_queue.dfy` is the intrusive doubly linked list on the heap,
  `channel_heap.dfy` the channel as an object over that list, proved to compute the functions of `channel_core.dfy`, and
  `channel_futures.dfy` the links that the `send` futures hold into it.
* **Spawning and dispatching** (the code emitted by `rticx-sw-pass` and `rticx-async-pass`, with `rticx-spsc` and `ExecSlot`).
  `async_dispatch.dfy` is one async priority group as a machine with one step per access; `async_invariant.dfy` and
  `async_theorems.dfy` prove it, `async_operations.dfy` says what each operation does and that a wake-up leads to a poll;
  `async_runtime.dfy` is the same code with its loops and flags updated in place, where any number of spawns and wake-ups can
  happen between two accesses. `sw_dispatch.dfy` and `sw_runtime.dfy` do the same for software tasks, the latter over the ring
  buffer of `spsc.dfy`: there, spawns happen before each dequeue of a token, between it and the dequeue of its input, and
  during the task's `exec`.
* **Resource locking** (`rticx-core` ceilings, `rticx-cortex-m`). `ceilings.dfy`, `priorities.dfy`, `srp.dfy` and
  `basepri_calls.dfy` for BASEPRI; `control_stack.dfy` has what the two lock machines share; `source_masks.dfy` and
  `source_locks.dfy` for interrupt source masks on armv6-m. Hardware behaviour follows the Armv7-M Architecture Reference
  Manual (DDI 0403), sections B1.4.3 and B1.5.4.
* **The static analysis** that gives each ready queue a single producing core and each priority group a dispatcher:
  `analysis.dfy`.

Each machine has a step function that returns `None` where the code is not at that point (or would read what is not there) and a
`Run` over a list of actions; a theorem about "every run" quantifies over all such lists.

Where the code and its own text differ, the model follows the code:

* A comment (distributions/rticx-cortex-m/src/export.rs:50-52) says that the hardware raises BASEPRI on interrupt entry. It does
  not; a handler is protected by its active priority, and `run` restores BASEPRI to what it was before the handler.
* `try_recv` looks at the ready queue and at the sender count in two critical sections. `NoSender` therefore does not imply that
  the channel is drained. For every capacity of at least one and every reachable state, it can be reported with a message queued
  if and only if a handle is left when `try_recv` finds the ready queue empty (`ChannelClosing.NoSenderMisleadsIff`).
* `split` may be called again. It resets neither the ready queue nor `receiver_dropped` (an empty ready queue is asserted in
  debug builds only). `ChannelReuse.SecondSplit`: all guarantees hold again if and only if no message is queued and the receiver
  was not dropped; after a drop, every `send` on the new handles is refused.
* The source-mask `lock` uses the task's static priority and enables its whole mask on exit, a task bound to a core exception
  has no enable bit to clear, and a mask of several words (M23 parts) is written one word after another outside of any
  critical section. So the locks exclude for some applications only. A task slips into a source-masked lock taken at priority
  p, with ceiling c, if its priority is above p and at most c, and it is an exception, or locks are nested, or some task of
  lower priority has a lock of its own whose exit enables it, and that task either slips in itself or comes while the mask is
  being cleared: its interrupt is in a later word than the one it enables. `SourceLocks.ExclusionIff`: no run lets two frames
  into one resource if and only if no task slips into a lock on a resource that it shares; both for the runs in which no frame
  nests locks inside a source-masked one and for all runs. With nesting that means that no frame ever masks sources
  (`NestedLocksBreakExclusion`); with masks of one word nobody comes in between (`OneWordOpened`). `MasksInForceIff` gives the
  exact condition for all cleared bits to stay clear.
* A failed cross-core pend can leave queued tokens without an interrupt. For software tasks: exactly when it finds the
  dispatcher outside `exec` and not pended, with a token on the ready queue (`SwDispatch.LostPendStrands`). For async tasks
  also inside `exec`: exactly when it finds a token that phase A of this execution does not drain any more and nothing pended,
  and phase B does not pend because it installs nothing (`AsyncTheorems.LostPendStrands`). The progress theorems are
  if-and-only-ifs in a flag that is set when a failed pend meets such a token and cleared by the next pend, that of phase B
  included.
* Ring-buffer indices grow for ever; on a word that wraps, both tests stay right exactly when DEPTH divides the word's range
  (`Spsc.WrappedIndices`).

Assumptions: steps are sequentially consistent; a `send` future is always polled with the waker of its first poll, as the
emitted wake functions guarantee; task priorities are 1 to 2^bits with 1 to 7 priority bits, idle has priority 0; a resource
shared only by the idle task has ceiling 0, whose code wraps to 0 and masks nothing; fewer than 256 slots, so that slot
indices fit `u8`; the pend of a wake function succeeds (it is a hook of the distribution without a result); the register
accesses at the entry of a BASEPRI or PRIMASK lock are one step, since whatever preempts between them leaves both registers as
they were (`Srp.RegistersRestored`).

## Model

| member | source | states |
|---|---|---|
| ChannelTheorems.RunInv | rticx-async/src/channel.rs:67-419 | the whole invariant survives every interleaving of sends, receives, clones, drops and cancellations |
| ChannelTheorems.SlotOwnership | rticx-async/src/channel.rs:67-113 | each slot index is in exactly one place: free queue, ready queue, one waiter's cell, one sender's or the receiver's hand, or retired, the last only after the receiver was dropped |
| ChannelTheorems.PushesNeverOverflow | rticx-async/src/channel.rs:90-106 | whoever holds a slot index finds room for it on either queue, so the unchecked pushes are safe |
| ChannelTheorems.IdleChannelHasAllSlots | rticx-async/src/channel.rs:239-306 | no slot leaks: with no call in progress and no message queued all N slots are free, whatever was sent, cancelled or dropped before |
| ChannelTheorems.SlotAccessIsSafe | rticx-async/src/channel.rs:108-112 | every slot written is uninitialised, every slot read is initialised |
| ChannelTheorems.DeliveredInCommitOrder | rticx-async/src/channel.rs:199-216 | the values received are a prefix of the values committed, and the rest is what the ready queue's slots hold, in order |
| ChannelTheorems.NoOvertaking | rticx-async/src/channel.rs:218-295 | waiters imply an empty free queue, nobody takes a free slot past a waiter, grants follow arrival order |
| ChannelTheorems.NoLostReceiverWakeup | rticx-async/src/channel.rs:377-388 | a pending `recv` with something to report was woken, or its waker is stored and a sender is about to wake it |
| ChannelTheorems.NoLostSenderWakeup | rticx-async/src/channel.rs:257-296 | a parked `send` off the wait queue was woken, or the dropping receiver is about to wake it; one still queued has no slot to take, and its poll would fail only while `Receiver::drop` has still to come to it |
| ChannelTheorems.NobodyWaitsAfterDrop | rticx-async/src/channel.rs:403-419 | after `Receiver::drop` the wait queue is empty for ever, all waiters were woken and each of their polls fails |
| ChannelTheorems.SendFailsIffReceiverDropped | rticx-async/src/channel.rs:257-296 | a poll of `send` fails if and only if the receiver has been dropped |
| ChannelTheorems.NoSenderMeansNoHandles | rticx-async/src/channel.rs:362-375 | `NoSender` means that every handle is gone; with none left at the pop, it also means drained |
| ChannelClosing.HandlesCanMislead | rticx-async/src/channel.rs:362-375 | in every reachable state in which `try_recv` has found the ready queue empty and a handle is left, the senders can go on so that `NoSender` is reported with a message queued |
| ChannelClosing.NoSenderMisleadsIff | rticx-async/src/channel.rs:362-375 | that can happen if and only if a handle was left when `try_recv` found the ready queue empty, for every capacity of at least 1 |
| ChannelTheorems.DrainEnds | rticx-async/src/channel.rs:412-414 | the first loop of `Receiver::drop` has at most N rounds in any run, whatever the senders push meanwhile |
| ChannelTheorems.WakingEnds | rticx-async/src/channel.rs:416-418 | the second one wakes no more senders than waited when the receiver was dropped |
| ChannelReuse.SecondSplit | rticx-async/src/channel.rs:67-83 | a second `split` gives a channel with the whole invariant if and only if no message is queued and the receiver was not dropped; otherwise an index is on both queues, or every `send` is refused |
| ChannelOperations.SplitIsFresh | rticx-async/src/channel.rs:67-83 | `split`: all slots free, in order, and empty; one handle, nobody waiting |
| ChannelOperations.TrySendAnswers | rticx-async/src/channel.rs:218-237 | `Full` if somebody waits, else `NoReceiver` after the receiver's drop, else `Full` if no slot is free, each with the value handed back and nothing changed; else the first free slot is taken for that value |
| ChannelOperations.TrySendTakesIff | rticx-async/src/channel.rs:218-237 | in every reachable state a `try_send` takes a slot if and only if one is free and the receiver lives |
| ChannelOperations.TrySendAfterDrop | rticx-async/src/channel.rs:223-225 | one that looks at the flag after the receiver's drop ends in `NoReceiver`, whatever the others do |
| ChannelOperations.FirstPoll | rticx-async/src/channel.rs:257-296 | the first poll of `send` takes the last free slot if one is free, nobody waits and the receiver lives; fails after the drop; else joins the end of the wait queue with its waker |
| ChannelOperations.LaterPoll | rticx-async/src/channel.rs:268-282 | a later poll goes on with the sender's own value and the slot from its cell, which it empties, if and only if the sender is off the wait queue and the receiver lives; still queued, it changes nothing |
| ChannelOperations.CommitPublishes | rticx-async/src/channel.rs:199-216 | the value is in the slot, the slot last on the ready queue, and the stored waker is called |
| ChannelOperations.DropperCleansUp | rticx-async/src/channel.rs:248-255 | the dropper takes the sender off the queue and empties its cell; a granted slot goes to the first waiter, who is woken, or is free; the value comes back unless the future was cancelled |
| ChannelOperations.ValueKept | rticx-async/src/channel.rs:199-306 | a value in a call stays the same until it is committed exactly once, handed back in an error or dropped with a cancelled future; nothing else is committed |
| ChannelOperations.PopFindsNext | rticx-async/src/channel.rs:363-367 | `try_recv` finds a message if and only if one is queued, in a slot that holds the next of the committed values |
| ChannelOperations.TryRecvAnswers | rticx-async/src/channel.rs:362-375 | then exactly that value is received, its slot emptied and passed to the first waiter or freed; else `NoSender` if no handle is left, and otherwise `Empty`, or a pending `recv`, with nothing changed |
| ChannelOperations.RecvRegisters | rticx-async/src/channel.rs:377-380 | `recv` stores its waker, and calls a different one that was stored |
| ChannelOperations.HandlesComeAndGo | rticx-async/src/channel.rs:321-346 | `clone` makes one more handle and `drop` removes one, with the count |
| ChannelOperations.LastHandleWakes | rticx-async/src/channel.rs:331-333 | the last handle to go calls the receiver's waker |
| ChannelOperations.ReceiverDropCleansUp | rticx-async/src/channel.rs:403-419 | an uninterrupted drop sets the flag, empties and retires every queued slot and wakes every waiter in arrival order |
| ChannelOwnership.SenderStepOwned | rticx-async/src/channel.rs:199-306 | every sender step keeps the unique-place invariant |
| ChannelOwnership.ReceiverStepOwned | rticx-async/src/channel.rs:361-419 | so does every receiver step |
| ChannelOwnership.GivenBackOwned | rticx-async/src/channel.rs:90-106 | a slot that a cancelled sender gives back has one place again: the cell of the first waiter, or the free queue if nobody waits |
| ChannelQueue.SenderStepQueue | rticx-async/src/channel.rs:239-306 | every sender step keeps the wait queue in arrival order, with one entry per parked sender |
| ChannelQueue.ReceiverStepQueue | rticx-async/src/channel.rs:361-419 | so does every receiver step |
| ChannelDelivery.SenderStepDelivery | rticx-async/src/channel.rs:199-216 | every sender step keeps committed values, ready slots and their contents in step |
| ChannelDelivery.ReceiverStepDelivery | rticx-async/src/channel.rs:362-369 | so does every receiver step |
| ChannelWakeups.SenderStepReceiverWake | rticx-async/src/channel.rs:199-216 | every sender step keeps the receiver's wake-up due |
| ChannelWakeups.ReceiverStepReceiverWake | rticx-async/src/waker_registration.rs:18-40 | registering, replacing and taking the waker keep it due |
| ChannelWakeups.SenderStepSendersWake | rticx-async/src/channel.rs:90-106 | every sender step keeps the parked senders covered by a wake-up or a place in the queue |
| ChannelWakeups.ReceiverStepSendersWake | rticx-async/src/channel.rs:403-419 | so does every receiver step, the drop loops included |
| ChannelCore.WithoutAt | rticx-async/src/wait_queue.rs:118-152 | taking a sender off a queue without repetitions deletes exactly its position |
| ChannelCore.WithoutKeepsOrder | rticx-async/src/wait_queue.rs:118-152 | and keeps arrival order |
| WaitQueues.Link.RemoveFromList | rticx-async/src/wait_queue.rs:118-152 | deletes this link at any position, everything else in order; after a pop or removal it changes nothing |
| WaitQueues.DoublyLinkedList.Pop | rticx-async/src/wait_queue.rs:39-68 | returns and removes the head; links stay mutually inverse, popped flags exact |
| WaitQueues.DoublyLinkedList.Push | rticx-async/src/wait_queue.rs:70-86 | appends |
| WaitQueues.DoublyLinkedList.IsEmpty | rticx-async/src/wait_queue.rs:88-90 | true exactly for the empty list |
| WaitQueues.DoublyLinkedList.Splice | rticx-async/src/wait_queue.rs:126-151 | the four arms keep head, tail, next and prev right |
| ChannelHeap.Channel.constructor | rticx-async/src/channel.rs:67-83 | the initialisation loop leaves all indices free, in order |
| ChannelHeap.Channel.ReturnFreeSlot | rticx-async/src/channel.rs:90-106 | on the linked list: the head waiter gets the slot in its cell and is woken, or the slot is free |
| ChannelHeap.Channel.PollSend | rticx-async/src/channel.rs:257-296 | computes `ChannelCore.PollSend`, and says for each case what is answered and how queues, cells and link change |
| ChannelHeap.Channel.DropSend | rticx-async/src/channel.rs:248-255 | the dropper: off the queue, then a granted slot goes on |
| ChannelHeap.Channel.RemoveWaiting | rticx-async/src/channel.rs:249-251 | unlinking at any position deletes this sender from the waiters |
| ChannelHeap.Channel.TakeFree | rticx-async/src/channel.rs:227 | removes and returns the first free slot, if there is one |
| ChannelHeap.Channel.PushReady | rticx-async/src/channel.rs:207-212 | appends to the ready queue |
| ChannelHeap.Channel.PopReady | rticx-async/src/channel.rs:363-364 | removes and returns the first ready slot, if there is one |
| ChannelHeap.Channel.Register | rticx-async/src/waker_registration.rs:18-31 | keeps an equal waker, else replaces and wakes the old one |
| ChannelHeap.Channel.WakeReceiver | rticx-async/src/waker_registration.rs:33-40 | takes and wakes the stored waker |
| ChannelHeap.Channel.DropReceiver | rticx-async/src/channel.rs:403-419 | the two loops hand out every ready slot once, last first, and wake every waiter in arrival order |
| ChannelFutures.Futures.PoppedIffOffTheList | rticx-async/src/wait_queue.rs:114-116 | whatever calls were made, the link of a `send` says it is popped exactly when its sender is off the wait queue |
| ChannelFutures.Futures.Poll | rticx-async/src/channel.rs:257-296 | a poll of any future in any order meets the needs of the list; it fails exactly after the drop, is pending while queued, and otherwise hands over what the cell holds and empties it |
| ChannelFutures.Futures.Unlink | rticx-async/src/channel.rs:249-251 | the first section of the dropper, in any state: the sender is off the queue, all other links still fit |
| AsyncTheorems.RunInv | compilation-passes/rticx-async-pass/src/codegen/mod.rs:353-518 | the invariant of one async group survives every interleaving of dispatcher, spawns and wakes |
| AsyncTheorems.ExecIsNeverStuck | compilation-passes/rticx-async-pass/src/codegen/mod.rs:389-417 | no input is dequeued from an empty queue, no live future overwritten, none polled or dropped that is not there |
| AsyncTheorems.UncheckedPushesFit | compilation-passes/rticx-async-pass/src/codegen/mod.rs:436-443 | ready queue, overflow queue and `deferred` never exceed the sum of the capacities |
| AsyncTheorems.InstancesInSpawnOrder | compilation-passes/rticx-async-pass/src/codegen/mod.rs:483-512 | per task, installed inputs are a prefix of the accepted ones despite deferral; at most one instance lives and all earlier ones completed, each dropped once |
| AsyncTheorems.NothingIsStuck | compilation-passes/rticx-async-pass/src/codegen/mod.rs:477-518 | outside `exec` an overflow token's task runs; a task no poll has seen since it was installed or woken has the interrupt pended or about to be; and tokens wait without a pended interrupt if and only if a failed pend has stranded them |
| AsyncTheorems.LaterHistory | compilation-passes/rticx-async-pass/src/codegen/mod.rs:353-518 | what was accepted, taken and completed at some point of a run is a prefix of what is later |
| AsyncTheorems.LostPendStrands | compilation-passes/rticx-async-pass/src/codegen/mod.rs:735-741 | a failed cross-core pend, met at any point of an execution, leaves a token and no interrupt after it if and only if it finds a token that phase A does not drain any more, nothing pended, and phase B does not pend |
| AsyncTheorems.FirstSpawnStranded | compilation-passes/rticx-async-pass/src/codegen/mod.rs:735-741 | it happens in every group with an interrupt: the first spawn after initialisation, if its pend fails |
| AsyncTheorems.StrandedUntilPend | compilation-passes/rticx-async-pass/src/codegen/mod.rs:735-741 | and nothing is taken or completed until somebody pends |
| AsyncTheorems.QuiescentMeansDone | compilation-passes/rticx-async-pass/src/codegen/mod.rs:477-518 | with nothing pended, a task that is not running has completed every accepted input, and a running one was polled after its installation and its last wake-up |
| AsyncTheorems.ExecIsBounded | compilation-passes/rticx-async-pass/src/codegen/mod.rs:483-516 | one execution takes at most 15 times the capacities plus 13 per task plus 9 steps, however often it is preempted |
| AsyncOperations.WakeIsSeen | compilation-passes/rticx-async-pass/src/codegen/mod.rs:353-365 | a wake of a task with a live future is followed by a poll of it by the end of the next execution, whatever happens before and meanwhile, unless that instance is over |
| AsyncOperations.WakeMarksOwnSlot | compilation-passes/rticx-async-pass/src/codegen/mod.rs:362 | a wake of `t` sets the flag and counts an event of slot `t`, and of no other |
| AsyncOperations.SpawnAcceptsIff | compilation-passes/rticx-sw-pass/src/common/codegen.rs:210-222 | `spawn` accepts if and only if the system is initialised and the task's queue has room; a refused one changes nothing |
| AsyncOperations.InstallsOrDefers | compilation-passes/rticx-async-pass/src/codegen/mod.rs:389-447 | a task that is not running gets the oldest of its inputs as a live, marked future; the token of a running one goes to the end of the overflow queue |
| AsyncOperations.PollsRunningAndPending | rticx-async/src/executor.rs:67-108 | an instance is polled if and only if it runs and is marked, which clears the mark; when ready it is completed with its own input, dropped and released |
| AsyncOperations.CollectMovesAll | compilation-passes/rticx-async-pass/src/codegen/mod.rs:495-501 | phase B moves the whole overflow queue, in order |
| AsyncInvariant.AdvanceBalance | compilation-passes/rticx-async-pass/src/codegen/mod.rs:389-417 | every dispatcher step keeps, per task, tokens equal to queued inputs |
| AsyncInvariant.EnvEvents | compilation-passes/rticx-async-pass/src/codegen/mod.rs:353-365 | so it is after every step of a wake function |
| AsyncInvariant.EnvBalance | compilation-passes/rticx-sw-pass/src/common/codegen.rs:205-230 | so does every step of `spawn` |
| AsyncInvariant.AdvanceTasks | rticx-async/src/executor.rs:56-108 | every dispatcher step keeps the life cycle of every task's slot |
| AsyncInvariant.AdvanceEvents | rticx-async/src/executor.rs:67-108 | after every dispatcher step an install or wake-up that no poll has seen is still recorded in `pending` |
| AsyncInvariant.AdvanceWakes | rticx-async/src/executor.rs:74-82 | after every dispatcher step a recorded wake-up that this execution has passed makes it run again |
| AsyncRuntime.Slot.TryAllocate | rticx-async/src/executor.rs:56-60 | succeeds once, until released |
| AsyncRuntime.Slot.CheckAndClearPending | rticx-async/src/executor.rs:78-82 | reports and clears the flag |
| AsyncRuntime.Runtime.Exec | compilation-passes/rticx-async-pass/src/codegen/mod.rs:477-518 | the dispatcher with its loops, preempted anywhere: extends the trace of machine steps, beginning with one entry, terminates, keeps all histories as prefixes, leaves nothing stuck |
| AsyncRuntime.Runtime.TryInstall | compilation-passes/rticx-async-pass/src/codegen/mod.rs:394-417 | succeeds exactly when the task was not running, and then takes the oldest queued input; otherwise it takes nothing |
| AsyncRuntime.Runtime.Poll | rticx-async/src/executor.rs:88-108 | a running, woken instance is polled and sees every wake-up until then; it stops running exactly when it is completed, with the input it was installed with; one that is not running is left alone |
| AsyncRuntime.Runtime.PhaseA | compilation-passes/rticx-async-pass/src/codegen/mod.rs:483-490 | drains the ready queue although spawns keep arriving; completes nothing |
| AsyncRuntime.Runtime.PhaseB | compilation-passes/rticx-async-pass/src/codegen/mod.rs:495-516 | if it took any input, the interrupt is pended again when it ends |
| AsyncRuntime.Runtime.QueueInput | compilation-passes/rticx-sw-pass/src/common/codegen.rs:210-222 | `spawn` accepts and appends the input, or hands it back, exactly when the system is not initialised or the queue full |
| AsyncRuntime.Runtime.SetPending | compilation-passes/rticx-async-pass/src/codegen/mod.rs:353-365 | the wake function sets the flag of its own slot and no other, and counts the event, before it pends |
| SwDispatch.ExecutedInSpawnOrder | compilation-passes/rticx-sw-pass/src/codegen/mod.rs:160-209 | every accepted spawn is executed once, with its own input, in spawn order of the whole group; the rest is queued in that order |
| SwDispatch.ExecIsNeverStuck | compilation-passes/rticx-sw-pass/src/codegen/mod.rs:164-170 | `dequeue_unchecked` always finds the input |
| SwDispatch.ReadyQueueFits | compilation-passes/rticx-sw-pass/src/codegen/mod.rs:174-177 | the ready queue of the sum of the capacities always has room for the unchecked push |
| SwDispatch.NothingIsStuck | compilation-passes/rticx-sw-pass/src/common/codegen.rs:205-230 | outside `exec` accepted spawns wait without a pended interrupt if and only if a failed cross-core pend has stranded them |
| SwDispatch.LostPendStrands | compilation-passes/rticx-sw-pass/src/common/codegen.rs:179-184 | in every run of every group, a failed pend strands spawns if and only if it finds the dispatcher outside `exec`, not pended, and a token queued |
| SwDispatch.FirstSpawnStranded | compilation-passes/rticx-sw-pass/src/common/codegen.rs:179-184 | it happens in every group: the first spawn after initialisation, if its pend fails |
| SwDispatch.StrandedUntilPend | compilation-passes/rticx-sw-pass/src/common/codegen.rs:179-184 | and lasts until somebody pends the dispatcher: nothing is executed before |
| SwDispatch.RefinesPush | compilation-passes/rticx-sw-pass/src/common/codegen.rs:216-227 | input and token together append to one FIFO of pairs |
| SwDispatch.RefinesPop | compilation-passes/rticx-sw-pass/src/codegen/mod.rs:160-171 | token and input together are the head of that FIFO |
| SwDispatch.RunInv | compilation-passes/rticx-sw-pass/src/codegen/mod.rs:199-210 | the refinement survives every interleaving |
| SwDispatch.SpawnAcceptsIff | compilation-passes/rticx-sw-pass/src/common/codegen.rs:210-222 | `spawn` accepts if and only if the system is initialised and the task's queue has room; a refused one changes nothing |
| SwDispatch.ExecExecutesAll | compilation-passes/rticx-sw-pass/src/codegen/mod.rs:199-210 | from any point of an execution that nobody interrupts, every spawn whose token is queued is executed, and the ready queue is left empty |
| SwRuntime.Runtime.Spawn | compilation-passes/rticx-sw-pass/src/common/codegen.rs:210-230 | over the ring buffers: appends and pends, or hands the input back, exactly when the queue is full or the system not initialised |
| SwRuntime.Runtime.TakeToken | compilation-passes/rticx-sw-pass/src/codegen/mod.rs:202-203 | the token dequeued is that of the head of the FIFO; none exactly when nothing waits |
| SwRuntime.Runtime.TakeInput | compilation-passes/rticx-sw-pass/src/codegen/mod.rs:165-167 | the unchecked dequeue finds the input that was spawned with the token, whatever was spawned since |
| SwRuntime.Runtime.Branch | compilation-passes/rticx-sw-pass/src/codegen/mod.rs:164-170 | one token's branch, with spawns before the input is dequeued and during `exec`, moves the head of the line to the executed |
| SwRuntime.Runtime.Exec | compilation-passes/rticx-sw-pass/src/codegen/mod.rs:199-210 | the dispatcher's loop, with spawns arriving between all its accesses, executes what was queued and what arrives, each once and in order, and leaves both queues empty |
| Spsc.ResidueTests | rticx-spsc/src/lib.rs:23-58 | the residue tests decide full and empty |
| Spsc.WrappedIndices | rticx-spsc/src/lib.rs:23-70 | with indices in a word that wraps, both tests are right after any number of operations if and only if DEPTH divides the word's range |
| Spsc.WrapBreaksTests | rticx-spsc/src/lib.rs:48-58 | otherwise, just after the writer has wrapped, elements are queued and a test is wrong |
| Spsc.Queue.Enqueue | rticx-spsc/src/lib.rs:23-33 | appends unless DEPTH - 1 elements are queued |
| Spsc.Queue.EnqueueUnchecked | rticx-spsc/src/lib.rs:43-46 | appends, given room |
| Spsc.Queue.Dequeue | rticx-spsc/src/lib.rs:48-58 | removes and returns the oldest element, if any |
| Spsc.Queue.DequeueUnchecked | rticx-spsc/src/lib.rs:66-70 | removes and returns the oldest element of a non-empty queue |
| Spsc.ProducerMissesWindow | rticx-spsc/src/lib.rs:73-80 | after `split` the producer never writes a cell of the live window |
| Spsc.InterleavingIsFifo | rticx-spsc/src/lib.rs:73-80 | with the accesses of both sides interleaved, checked and unchecked: FIFO, at most DEPTH - 1 elements, refusals exactly when full or empty |
| Spsc.OfferAppends | rticx-spsc/src/lib.rs:23-46 | an enqueue by itself is admitted if and only if fewer than DEPTH - 1 elements are queued, and appends |
| Spsc.AskDelivers | rticx-spsc/src/lib.rs:48-70 | a dequeue by itself finds an element if and only if one is queued, and delivers the oldest |
| Ceilings.UpdateResourcePriorities | rticx-core/src/analysis/mod.rs:102-126 | the nested loop leaves every resource at its ceiling, or names an unknown resource |
| Ceilings.CeilingIsMax | rticx-core/src/analysis/mod.rs:102-126 | the ceiling is the highest priority among the sharers |
| Ceilings.GetFieldMut | rticx-core/src/parser/ast.rs:158-162 | finds the field of that name if there is one |
| Priorities.CodeOrder | distributions/rticx-cortex-m/src/export.rs:26-28 | the encoding is strictly decreasing on 1..2^bits |
| Priorities.CodeZero | distributions/rticx-cortex-m/src/export.rs:26-28 | the code is 0 exactly for the top level and, by wrapping, for 0 |
| Priorities.BasepriMasksUpToCeiling | distributions/rticx-cortex-m/src/export.rs:87-95 | BASEPRI at the code of c masks exactly the levels up to c |
| Srp.BasepriMaxIsMax | distributions/rticx-cortex-m/src/export.rs:90-91 | the BASEPRI_MAX write computes the maximum of the ceilings |
| Srp.TakenIffAboveEverything | distributions/rticx-cortex-m/src/export.rs:80-97 | an interrupt is taken exactly when it outranks every active handler and every ceiling held |
| Srp.RunInv | distributions/rticx-cortex-m/src/export.rs:54-97 | BASEPRI and PRIMASK stand for the control stack in every reachable state |
| Srp.PreemptorsOutrankHolders | rticx-core/src/analysis/mod.rs:102-126 | every frame has a priority strictly above all frames and all held ceilings below it |
| Srp.MutualExclusion | distributions/rticx-cortex-m/src/export.rs:80-97 | two locks on one resource held at once have one holder |
| Srp.AtMostOneBlocker | distributions/rticx-cortex-m/src/export.rs:80-97 | per priority p at most one frame below p holds ceilings of p or more |
| Srp.DelayedOnlyBySrp | distributions/rticx-cortex-m/src/export.rs:80-97 | a pended task is held back only by an active frame or ceiling of at least its priority |
| Srp.WhatIsPossible | distributions/rticx-cortex-m/src/export.rs:54-97 | a frame may lock exactly what it declares, and leave exactly what is on top |
| Srp.LockKeepsOut | distributions/rticx-cortex-m/src/export.rs:80-97 | `lock` keeps out the tasks up to the ceiling in addition to those kept out before, and nobody else; its end undoes it |
| Srp.HandlerKeepsOut | distributions/rticx-cortex-m/src/export.rs:54-67 | a handler keeps out the tasks up to its own priority in addition, and its return undoes that |
| Srp.LockNeverWaits | distributions/rticx-cortex-m/src/export.rs:80-97 | whenever a frame calls `lock`, no other frame is inside the resource, so there is nothing to wait for |
| Srp.RegistersRestored | distributions/rticx-cortex-m/src/export.rs:54-97 | equal control stacks have equal registers, so leaving restores what entering found |
| Srp.ReturnRestores | distributions/rticx-cortex-m/src/export.rs:58-61 | the shortcut for priority 1 writes what BASEPRI was |
| Srp.StackDepth | rticx-core/src/analysis/mod.rs:102-126 | no more frames than distinct task priorities, plus idle |
| BasepriCalls.Cpu.Lock | distributions/rticx-cortex-m/src/export.rs:80-97 | the closure runs at the raised ceiling, nested to any depth; both registers are as at entry afterwards |
| BasepriCalls.Cpu.Run | distributions/rticx-cortex-m/src/export.rs:54-67 | a handler leaves BASEPRI as it found it, with and without the shortcut |
| BasepriCalls.Cpu.Execute | distributions/rticx-cortex-m/rticx-macro/src/lib.rs:225-239 | register-level execution of nested locks and preempting handlers is the logical one by ceilings |
| BasepriCalls.OnlyHigherSeen | distributions/rticx-cortex-m/src/export.rs:80-97 | in every tree of calls, code of another frame is seen only with a priority above the running one and every ceiling held, and BASEPRI stands for at least the system ceiling |
| BasepriCalls.ClosureKeepsOut | distributions/rticx-cortex-m/src/export.rs:80-97 | inside a closure the handlers up to its ceiling are kept out |
| BasepriCalls.HandlerRunsIff | distributions/rticx-cortex-m/src/export.rs:54-67 | a handler runs to its end if and only if its priority is above the running one and every ceiling held and interrupts are on |
| SourceMasks.SetBit | distributions/rticx-cortex-m/src/export.rs:127-139 | adds the bit; fails exactly when it is out of bounds |
| SourceMasks.CreateMask | distributions/rticx-cortex-m/src/export.rs:142-153 | the mask of exactly the listed interrupts |
| SourceMasks.ComputeMaskChunks | distributions/rticx-cortex-m/src/export.rs:157-170 | the least number of words in which all interrupts fit |
| SourceMasks.OrAssign | distributions/rticx-cortex-m/src/export.rs:117-123 | union of masks |
| SourceMasks.ComputeMask | distributions/rticx-cortex-m/src/export.rs:213-219 | union of the levels from..to |
| SourceMasks.GenerateGlobals | distributions/rticx-cortex-m/rticx-macro/src/lib.rs:268-325 | each level's mask has exactly its NVIC interrupts, and no `set_bit` is out of bounds |
| SourceMasks.LockMask | distributions/rticx-cortex-m/src/export.rs:194-199 | table and `compute_mask` together disable exactly the NVIC interrupts above the task's priority and up to the ceiling |
| SourceMasks.Nvic.SetEnableMask | distributions/rticx-cortex-m/src/export.rs:223-230 | enables exactly the mask's interrupts besides |
| SourceMasks.Nvic.ClearEnableMask | distributions/rticx-cortex-m/src/export.rs:234-241 | disables exactly the mask's interrupts |
| SourceLocks.MaskOfIsComputed | distributions/rticx-cortex-m/src/export.rs:198 | the mask of the machine is the computed one |
| SourceLocks.WhatIsPossible | distributions/rticx-cortex-m/src/export.rs:185-210 | a frame may lock exactly what it declares, unless it is itself entering or leaving a lock |
| SourceLocks.HandlerBegins | distributions/rticx-cortex-m/rticx-macro/src/lib.rs:225-239 | a handler starts on top, no longer pending, and its return leaves what it found |
| SourceLocks.EntryKeepsOut | distributions/rticx-cortex-m/src/export.rs:197-199 | an uninterrupted entry keeps out exactly the tasks with an enable bit above the frame and up to the ceiling, in addition to those kept out before |
| SourceLocks.OneWordAtATime | distributions/rticx-cortex-m/src/export.rs:221-241 | each step of an entry or exit writes the mask's bits of one word, and no other enable bit |
| SourceLocks.MasksApart | distributions/rticx-cortex-m/src/export.rs:198-203 | without nesting, the mask of a lock whose closure runs is disjoint from that of any lock above it, unless the upper frame slipped in |
| SourceLocks.RunInv | distributions/rticx-cortex-m/src/export.rs:185-241 | for every application, nested or not, between any two word writes: enable bits and PRIMASK fit the control stack, and every handler above a lock outranks its ceiling, slipped in, or came before its own word was cleared |
| SourceLocks.MutualExclusion | distributions/rticx-cortex-m/src/export.rs:185-241 | in a sealed application, while a closure on a resource runs, every call of `lock` on that resource further up is the same frame's, for masks of any number of words |
| SourceLocks.ExclusionIff | distributions/rticx-cortex-m/src/export.rs:185-241 | exclusion holds in all runs, without nesting or with it, and with entries and exits preempted between words, if and only if the application is sealed: no task slips into a lock on a resource that it shares |
| SourceLocks.SlippingBreaksExclusion | distributions/rticx-cortex-m/src/export.rs:192-203 | whoever slips into a lock on a resource that it shares, the idle task's included, breaks exclusion in some run |
| SourceLocks.EnabledRestored | distributions/rticx-cortex-m/src/export.rs:221-241 | in all runs of all applications, between any two word writes, what no lock has cleared and not set again is enabled, and outside all locks every interrupt in use is |
| SourceLocks.MasksInForceIff | distributions/rticx-cortex-m/src/export.rs:192-241 | what a lock has cleared stays clear until it sets it again, in all runs, if and only if no task with an enable bit slips into any lock |
| SourceLocks.ExactlyMaskedOff | distributions/rticx-cortex-m/src/export.rs:192-241 | while no lock is being left, that means that exactly what the locks have cleared is off |
| SourceLocks.InnerExitUnmasks | distributions/rticx-cortex-m/src/export.rs:192-203 | an inner exit leaves the outer mask in the enable bits if and only if no NVIC task lies above the frame and up to both ceilings |
| SourceLocks.NestedLocksBreakExclusion | rticx-core/src/codegen/shared_resources.rs:94-113 | if locks may nest, exclusion holds in all runs if and only if no frame, idle included, ever masks sources |
| SourceLocks.ExceptionBreaksExclusion | distributions/rticx-cortex-m/rticx-macro/src/lib.rs:271-280 | a core exception that shares a source-masked resource with a frame below it, idle included, breaks exclusion in some run |
| SourceLocks.ClearingBreaksExclusion | distributions/rticx-cortex-m/src/export.rs:234-241 | with two words: a task that comes while the lower frame clears its mask, and whose own exit enables a sharer in a word that is cleared already, breaks exclusion in some run |
| SourceLocks.OneWordOpened | distributions/rticx-cortex-m/src/export.rs:106-111 | with masks of one word nobody can come in between |
| Analysis.GroupByPriority | compilation-passes/rticx-sw-pass/src/analyze.rs:74-87 | the group of each priority lists exactly its declarations, in order: names, capacities, and the own core or the core each declaration names |
| Analysis.SelectedInOrder | compilation-passes/rticx-sw-pass/src/analyze.rs:74-87 | each declaration stands in its group after as many as were declared before it with that priority |
| Analysis.MixedIff | compilation-passes/rticx-sw-pass/src/common/analyze.rs:38-55 | a group is refused for its spawners exactly when two declarations of that priority name different cores |
| Analysis.CheckDisjointPriorities | compilation-passes/rticx-sw-pass/src/common/analyze.rs:17-34 | passes if and only if no priority is in both maps, else names the first |
| Analysis.CheckUniformSpawnBy | compilation-passes/rticx-sw-pass/src/common/analyze.rs:38-55 | passes if and only if each group has one spawning core, else names the first that has not |
| Analysis.AssignDispatchers | compilation-passes/rticx-sw-pass/src/common/analyze.rs:62-86 | fails exactly when there are too few; the n-th priority in ascending order gets the n-th dispatcher |
| Analysis.RankOrder | compilation-passes/rticx-sw-pass/src/common/analyze.rs:75-85 | positions ascend with the priority and are distinct |
| Analysis.DispatchersDistinct | compilation-passes/rticx-sw-pass/src/common/analyze.rs:57-61 | two groups never get the same position of the dispatcher list |
| Analysis.InGroup | compilation-passes/rticx-sw-pass/src/analyze.rs:79-85 | every task is in the group of its priority with its name, its capacity, and the own core or the core it names |
| Analysis.NobodyTwice | compilation-passes/rticx-sw-pass/src/analyze.rs:74-87 | the groups together have as many members as there are tasks |
| Analysis.AnalyseSubapp | compilation-passes/rticx-sw-pass/src/analyze.rs:43-68 | on the declarations: accepts if and only if no priority is shared by local and multi-core tasks, multi-core tasks of one priority name one core, and dispatchers suffice; then every group lists its declarations; else it says which error comes first |
| Analysis.AnalyseAsyncSubapp | compilation-passes/rticx-async-pass/src/analyze.rs:44-100 | the same with priority 0 split off to the idle executor and refused for cross-core tasks, before all else |

## Left out

- Token streams: parsing, name generation, `rticx-expand` and trait checks. The meaning of the emitted code is modelled, not its text.
- Weak memory ordering and fences, raw-pointer validity, `transmute` of wakers and `recover_slot`: steps are atomic and sequentially consistent, slots are well typed.
- `DoublyLinkedList::wait_until`: its test and its push are not atomic, so it guarantees no wake-up.
- The user's code in tasks and futures: `exec` of a software task and `poll` of a future are opaque; what they spawn or wake are ordinary preempting steps.
- The runtime check that `spawn` is called on the right core: a call refused by it changes nothing.
- ChannelHeap.Channel.PollSend: the pointer to a sender's slot cell is the sender's identity and the cells are one map, so aliasing between two `send` futures' local variables is not modelled.
- ChannelHeap.Channel.DropSend: the composition without anything interleaving; with interleavings its three sections are separate steps of the protocol, and `Futures.Unlink`, `TakeCell` and `ReturnFreeSlot` are proved for each by itself.
- ChannelHeap.Channel.DropReceiver: likewise; the protocol has one step per iteration of its loops.
- ChannelReuse.SecondSplit: `split` needs the channel exclusively, so no call is in progress; handles that were leaked instead of dropped are not used again.
- AsyncRuntime.Runtime.Exec: the ring buffers and the `deferred` array are sequences here; that a ring buffer is one is proved in Spsc, that they are never too short in AsyncTheorems.UncheckedPushesFit.
- Spsc.InterleavingIsFifo: indices are unbounded; WrappedIndices says what a wrapping word needs. The unchecked operations are taken only where their callers may call them, which SwDispatch and AsyncTheorems prove.
- BasepriCalls.Cpu.Execute: the code is a tree whose `Interrupt` nodes are the points at which a pending interrupt is considered; that one held back is considered again is a later node of the tree. The set of pended interrupts itself is part of Srp.
- Values committed after the receiver has drained the ready queue are never read, and slots drained by `Receiver::drop` are not reused; both are as in the code.
- `SubAnalysis::run` of the core pass, the auto-assign pass, the deadline pass and `generate_async_prio_limit`: filters and rankings that would add easy members only.
- The priority setup in `post_init` beyond the encoding it uses, peripherals, boot, monotonics, the stack-overflow check and the example applications: hardware and foreign code.
- The closures passed to `lock` are entries of the control stack in Srp and SourceLocks, and a tree of nested calls in BasepriCalls.
