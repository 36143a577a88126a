# A verified model of evering

evering passes messages between a client and a server over two single-producer
single-consumer rings. A client driver hands out ids for operations, keeps each one's
state until the response arrives, and wakes the task that waits for it; a small runtime
puts back-pressure on submitters when the driver or the ring is full; a single-threaded
executor polls the tasks in rounds. This project models these parts and what holds
between them, and proves it for every run.

`dafny verify dfyconfig.toml` checks everything.

## How the model is laid out

Each part exists in two forms. Classes with mutable fields perform the operations as the
source does, one load and store after the other, and are proved against specification
functions. State machines over values say what all the parts may do together, in any
interleaving, and carry the theorems over whole runs.

| files | part of the source |
|---|---|
| `Prelude.dfy`, `Bits.dfy`, `Offsets.dfy` | shared notions; masked wrapping arithmetic on 32-bit indices and its meaning modulo the ring size |
| `RingSteps.dfy`, `RingTheorems.dfy` | one ring as micro-steps with stale peer indices; refinement of a bounded FIFO |
| `Queue.dfy` | `Queue` and `Drain` as objects, the other end running between any two accesses |
| `Teardown.dfy` | a connected pair of ends over two interleaved rings, and its disposal |
| `Driver.dfy` | `DriverInner` and `Op`, in place and as functions on a driver value |
| `Protocol.dfy`, `ProtocolTheorems.dfy` | every client of one driver, with ids reused and operations dropped anywhere |
| `Session.dfy`, `SessionTheorems.dfy` | client, rings and a server answering each request once in any order |
| `Backpressure*.dfy` | the loaded runtime: slots, rings, parked submitters, rounds |
| `Runtime.dfy` | the runtime and the executor loop as a class whose every state is a state of that machine |
| `Executor.dfy`, `Join.dfy` | round scheduling of arbitrary futures; the join handle |
| `Shm.dfy` | shared-memory layout, offset tokens, the one-time allocator |

Loads of a peer's index return any value published since the previous such load. Fields
and constructor arguments marked as history record what has happened; they never decide
what an operation does, except that they bound which stale values a load may return.

## What the proofs found

* Back-pressure is sound only for some ring sizes. Over all power-of-two sizes, a
  submitter can be left parked with nothing in flight exactly when ring A has one entry,
  or two while ring B has at least two, or ring B has more entries than ring A
  (`BackpressureTight.StrandingExactly`). The runs that strand it are constructed.
* It does not survive cancellation. The waker of an aborted submitter stays in the deque
  and uses up the wake-up of a drained response, so that whatever the sizes some run
  strands a live submitter, with every slot free and nothing in flight. The one exception
  is a ring B that can carry no response at all next to a ring A that takes entries
  (`BackpressureAbort.AbortStrandingExactly`).
* A server that insists on sending its response fails in some run exactly when ring A
  takes entries at all and ring B has no more entries than the driver has slots
  (`SessionTheorems.ResponseCanFailExactly`). The driver has `size_a` slots, so the default
  sizes 32 and 32 allow it: 32 operations may be in flight and ring B holds 31. The
  servers of the examples answer such a failure with a panic.
* The two results pull in opposite directions: nobody is stranded only if ring B is at
  most as large as ring A, and a response always fits only if it is larger.
* Dropping a submit future that holds a driver slot and waits for ring space loses the
  slot for good (`ProtocolTheorems.ForsakenSlotIsLost`), and the driver's own drop then
  panics (`ProtocolTheorems.DriverMayBeDroppedExactly`).
* `remove` notices a vacant slot but not a reused one: dropping a handle that already
  yielded its output is harmless exactly if its id has not been issued again
  (`Drivers.StaleDrop`). Awaiting a handle drops it in time, which is why the client
  protocol assumes it.
* On the producer's side `len` never under-reports and on the consumer's side it never
  over-reports; it is exact only when nothing runs.

## Assumptions

* The server takes and answers each request once, in any order. In the loaded runtime it
  waits while ring B has no room; when that happens is a result of its own.
* A client drops each handle once, does not poll it after Ready, and has dropped a handle
  that returned Ready before its id is issued again. It completes each operation at most
  once and only after sending it. The last two are derived, not assumed, where the rings
  are part of the model.
* In the loaded runtime tasks are scripts of one operation after another, the root future
  spawns them but submits nothing itself (it is polled with a waker that does nothing),
  and tasks are woken only by the parked deque or by their operation.
* Where rings and server are part of the model, the client submits with `try_submit`, as
  the runtime does; the client protocol by itself also submits to a full slab, which grows.
* Arithmetic in `ShmHeader::create` is checked for overflow, as in a debug build.

## Model

| member | source | states |
|---|---|---|
| Offsets.IncIsNext | evering/src/uring.rs:240-242 | wrapping, incrementing and masking a 32-bit index moves to the slot of the next element, across the wrap of the count |
| Offsets.SameSlot | evering/src/uring.rs:332-333 | indices at most a lap apart are equal exactly for the same element count or a full lap between |
| Offsets.LenIsDistance | evering/src/uring.rs:315-319 | masked wrapping subtraction of two indices is the number of elements between them |
| Offsets.LenBelowSize | evering/src/uring.rs:315-319 | whatever two indices are read, the reported length is at most the ring size less one |
| RingSteps.FullTest | evering/src/uring.rs:332-335 | the full test against a stale head holds exactly if the elements beyond that head's count are the size less one |
| RingSteps.ProduceInv | evering/src/uring.rs:325-367 | every producer micro-step, drawing an item and writing it being two, keeps the ring's invariant at any moment |
| RingSteps.ConsumeInv | evering/src/uring.rs:369-434 | every consumer micro-step, at any moment, keeps the ring's invariant |
| RingSteps.RunInv | evering/src/uring.rs:325-434 | the invariant holds throughout every interleaving of the two ends |
| RingTheorems.ProducerRefinesFifo | evering/src/uring.rs:325-367 | the store of the tail is a push onto a FIFO bounded by the size less one; every other producer step is invisible |
| RingTheorems.ConsumerRefinesFifo | evering/src/uring.rs:369-434 | the store of the head is a pop of the oldest element; every other consumer step is invisible |
| RingTheorems.RunIsSafe | evering/src/uring.rs:325-434 | in every run the received sequence is a prefix of the accepted one, the slot being written is none the consumer may read, and a slot read holds exactly the next element |
| RingTheorems.SizeOneAcceptsNothing | evering/src/uring.rs:332-335 | in every run of a ring of size one nothing is ever accepted |
| RingTheorems.BulkSendOutcome | evering/src/uring.rs:343-367 | `enqueue_bulk` returns the smaller of the item count and the room left against the one head it loaded, having appended exactly that many leading items and drawn just those from its iterator |
| RingTheorems.SendOutcome | evering/src/uring.rs:325-341 | `enqueue` stores its argument if the loaded head leaves room and otherwise gives it back |
| RingTheorems.DrainOutcome | evering/src/uring.rs:387-434 | a drain run dry yields exactly the elements up to its snapshot; abandoned midway it has yielded a prefix and the next take goes on behind it |
| RingTheorems.ProducerLen | evering/src/uring.rs:315-319 | `len` on the producer's side is never below the number of elements left when it returns |
| RingTheorems.ConsumerLen | evering/src/uring.rs:315-319 | `len` on the consumer's side is never above the number of elements present when it returns |
| RingTheorems.QuiescentLen | evering/src/uring.rs:315-319 | with nothing running `len` is the number of elements stored |
| Queues.Queue.constructor | evering/src/uring.rs:230-238 | an empty queue with its mask |
| Queues.Queue.StorePublish | evering/src/uring.rs:360-361 | writing a free slot and then publishing the tail puts one element behind the contents and overwrites none still to be read |
| Queues.Queue.LenForProducer | evering/src/uring.rs:315-319 | while the consumer runs: exactly what was stored less what had been released at the loaded head, never below the contents on return, exact if that head is the latest |
| Queues.Queue.LenForConsumer | evering/src/uring.rs:315-319 | while the producer runs: exactly what had been stored at the loaded tail less what was taken, never above the contents on return, exact if that tail is the latest |
| Queues.Queue.LenQuiescent | evering/src/uring.rs:315-319 | with nothing running, exactly the number of elements stored |
| Queues.Queue.Enqueue | evering/src/uring.rs:325-341 | appends the value if the loaded head leaves room, otherwise rejects it and stores nothing |
| Queues.Queue.EnqueueBulk | evering/src/uring.rs:343-367 | appends exactly the leading items that fit against the loaded head, draws no other from the iterator and returns their number |
| Queues.Queue.StoreItems | evering/src/uring.rs:350-366 | the loop against one loaded head: stores leading items until they run out or that head's room does, drawing just those |
| Queues.Queue.Dequeue | evering/src/uring.rs:369-385 | takes the oldest element off the front of the contents if the loaded tail shows one |
| Queues.Queue.DropInPlace | evering/src/uring.rs:402-412 | drops every element accepted and not received, each once, oldest first |
| Queues.Drain.constructor | evering/src/uring.rs:387-400 | takes its snapshot of the tail and consumes nothing |
| Queues.Drain.Next | evering/src/uring.rs:422-434 | yields and releases the next element up to the snapshot, however far the producer has run |
| Queues.Drain.Collect | evering/src/uring.rs:422-434 | run dry it yields exactly the elements up to the snapshot, in order |
| Teardown.StepInv | evering/src/uring.rs:280-306 | sends, receives, releases and drops of both ends keep the pair's invariant |
| Teardown.RunKeepsInv | evering/src/uring.rs:161-206 | the invariant holds in every run of the two ends, each sending where the other receives |
| Teardown.DropsAreEnabled | evering/src/uring.rs:402-412 | the drop loops only ever meet written slots |
| Teardown.DisposalConserves | evering/src/uring.rs:280-306 | exactly one end disposes, after the other has gone, and then every value sent either way was returned, received or dropped, once |
| Teardown.DisposalCompletes | evering/src/uring.rs:290-294 | a disposal ends after exactly as many drops as there are elements left |
| Drivers.PollsWait | evering/src/driver.rs:132-146 | any polls with any wakers leave an operation waiting for a waker equivalent to the last one and change nothing else |
| Drivers.NoLostWakeup | evering/src/driver.rs:132-174 | completion wakes the last poll's task once, or nobody if there was none; the next poll returns payload and extension and the driver is as before submission |
| Drivers.CancelledKeepsSlot | evering/src/driver.rs:156-188 | a cancelled operation keeps slot and resource until the response comes, which is refused with the extension given at submission |
| Drivers.StaleDrop | evering/src/driver.rs:176-188 | dropping a handle that has yielded its output is harmless exactly if its id is vacant |
| Drivers.StaleDropSequence | evering/src/driver.rs:132-188 | submitted, completed and polled to Ready, a handle drops without effect; if its id was issued again first, the drop panics before the stranger's completion and discards its result after it |
| Drivers.DriverInner.WithCapacity | evering/src/driver.rs:37-41 | an empty driver of the given capacity |
| Drivers.DriverInner.Submit | evering/src/driver.rs:117-122 | inserts under a vacant id; a full slab grows |
| Drivers.DriverInner.TrySubmit | evering/src/driver.rs:124-130 | inserts under a vacant id exactly if there is room, otherwise gives the extension back |
| Drivers.DriverInner.Poll | evering/src/driver.rs:132-154 | the in-place state changes have exactly the specified effect and result |
| Drivers.DriverInner.Complete | evering/src/driver.rs:156-174 | the in-place state changes have exactly the specified effect and result |
| Drivers.DriverInner.Remove | evering/src/driver.rs:176-188 | the in-place state changes have exactly the specified effect and result |
| Drivers.Op.Poll | evering/src/op.rs:75-85 | on Ready the data leaves the handle together with payload and extension, otherwise it stays |
| Drivers.Op.Drop | evering/src/op.rs:87-96 | a cancellation that recycles moves the data into the slot; otherwise the data goes with the handle |
| Protocol.SubmitInv | evering/src/driver.rs:117-122 | issuing any vacant id, growing a full slab, keeps the client protocol's invariant |
| Protocol.TrySubmitInv | evering/src/driver.rs:124-130 | issuing any vacant id when there is room keeps it |
| Protocol.ForsakeInv | examples/evering-utils/src/runtime.rs:86-103 | dropping a submit future at its second await point keeps it |
| Protocol.PollInv | evering/src/op.rs:75-85 | polling a handle keeps it |
| Protocol.DropInv | evering/src/op.rs:87-96 | dropping a handle in any state keeps it, whether its cancellation recycles or is a no-op |
| Protocol.CompleteInv | evering/src/driver.rs:156-174 | completing an operation in flight, cancelled or not, keeps it |
| ProtocolTheorems.NothingPanics | evering/src/driver.rs:132-188 | in every run, whatever was submitted with or without room, no `expect` and no `unreachable!` fires, now or in any legal next step |
| ProtocolTheorems.EveryEndIsUnique | evering/src/driver.rs:147-187 | a completed operation ends delivered, unread or returned as an error, with its own payload and extension, and its slot is released exactly then |
| ProtocolTheorems.EndsAreFinal | evering/src/driver.rs:132-188 | an end once reached never changes |
| ProtocolTheorems.InFlightIdIsReserved | evering/src/driver.rs:156-188 | between sending and completion an id cannot be issued again; the slot is cancelled exactly if the handle is gone |
| ProtocolTheorems.ResourceLifetime | evering/src/op.rs:47-96 | a resource is always in exactly one of handle, cancelled slot, released and handed back; in flight it is owned by handle or slot and released exactly if its cancellation was a no-op |
| ProtocolTheorems.CompletionWokeLastPoll | evering/src/driver.rs:134-167 | a completed operation still unread has woken its last poll's task, and nobody if never polled |
| ProtocolTheorems.InFlightFits | evering/src/driver.rs:124-130 | operations in flight never outnumber the slots in use, nor these the capacity |
| ProtocolTheorems.ForsakenSlotIsLost | examples/evering-utils/src/runtime.rs:86-103 | a slot forsaken while waiting for ring space is never free again in any continuation |
| ProtocolTheorems.ForsakenAreLost | examples/evering-utils/src/runtime.rs:86-103 | a slot is lost exactly if its submission has been forsaken: no other step loses one |
| ProtocolTheorems.ForsakenExactly | examples/evering-utils/src/runtime.rs:86-103 | a submission counts as forsaken exactly if a step before dropped it unsent |
| ProtocolTheorems.DriverMayBeDroppedExactly | evering/src/driver.rs:191-200 | the assertion in the driver's drop holds exactly if nothing is in flight, every live handle has been sent and no submission was ever forsaken |
| Session.DrainMeetsItsRequest | examples/evering-utils/src/runtime.rs:142-150 | completing the id a response carries, whatever that slot holds, completes the very request it answers |
| SessionTheorems.ActionRefinesProtocol | examples/evering-utils/src/runtime.rs:72-161 | every action of client, rings and server is a step of the client protocol or leaves the driver alone |
| SessionTheorems.ResponsesFindTheirRequests | examples/evering-utils/src/runtime.rs:142-150 | each response drained meets the slot of the request it answers, whatever was permuted, cancelled or reused; nothing panics |
| SessionTheorems.RoutingIsCorrect | evering/src/driver.rs:147-151 | whoever gets an output gets the answer to its own request with its own extension |
| SessionTheorems.InFlightIsOnTheWay | evering/src/op.rs:75-96 | an operation in flight is once in exactly one of ring A, the server and ring B; its resource is owned by handle or slot and not released, unless its cancellation was a no-op |
| SessionTheorems.InFlightAccounting | examples/evering-utils/src/runtime.rs:19-26 | entries on their way never outnumber the slots in use, nor these the capacity |
| SessionTheorems.NeverBlocked | examples/evering-threaded/src/main.rs:69 | with more entries in ring B than driver slots the server always has room for its response |
| SessionTheorems.ResponseCanFailExactly | examples/evering-threaded/src/main.rs:69 | a server can be left without room for its response exactly if ring B has no more entries than the driver has slots and ring A takes entries |
| BackpressureCounts.NoOtherRingWaiter | examples/evering-utils/src/runtime.rs:94-101 | a task that finds the ring full is the only one holding a slot while waiting for ring space |
| BackpressureSchedule.ParkedIsRescued | examples/evering-utils/src/runtime.rs:106-117 | if a polled submitter finds every slot taken and nothing is in flight, one polled later in the round is bound to send |
| BackpressureDrain.DrainAlternate | examples/evering-utils/src/runtime.rs:142-150 | while a ring waiter stays parked, each completion in a drain is preceded by a woken submitter |
| BackpressureSafety.StepSafe | examples/evering-utils/src/runtime.rs:72-161 | for rings of any sizes every step of server, drain, root, tasks and executor keeps the runtime's bookkeeping and the count of finished operations |
| BackpressureTheorems.StepInv | examples/evering-utils/src/runtime.rs:72-161 | with ring A of at least four entries and ring B no larger, every step also keeps submitters from being stranded |
| BackpressureTheorems.RunInv | examples/evering-utils/src/runtime.rs:72-161 | the first holds in every run for rings of any sizes, the second for rings of those sizes |
| BackpressureTheorems.NothingPanics | examples/evering-utils/src/runtime.rs:72-161 | for rings of any sizes nothing panics in any run, now or in any next step |
| BackpressureTheorems.NobodyIsStranded | examples/evering-utils/src/runtime.rs:72-161 | in every run with ring A of at least four entries and ring B no larger, a task parked at a round boundary implies an operation in flight, and at most one ring waiter is parked |
| BackpressureTheorems.BoundaryProgress | examples/evering-utils/src/runtime.rs:106-161 | for rings of any sizes, at a round boundary nothing is queued and all tasks are done exactly if as many responses were drained as operations spawned; with the sizes above, otherwise an operation is in flight |
| BackpressureTheorems.RoundsFinishOperations | examples/evering-utils/src/runtime.rs:140-161 | between round boundaries the operations left shrink by exactly the responses drained |
| BackpressureLiveness.TransfersRunDown | examples/evering-utils/src/runtime.rs:72-161 | each send, take, answer and drain uses up one of the transfers still to happen and nothing else does; four come with each operation spawned |
| BackpressureLiveness.RoundsEnd | local-executor/src/executor.rs:51-62 | every client step brings the end of its round nearer and the server cannot delay it |
| BackpressureLiveness.ClientNeverStuck | local-executor/src/executor.rs:56-61 | for rings of any sizes the client has a next step in every phase; `pop_front` never finds the queue empty |
| BackpressureLiveness.WorkCanGoOn | examples/evering-utils/src/runtime.rs:140-161 | while a task is unfinished at a round boundary, a drain, an answer or a take is due |
| BackpressureLiveness.TransfersCounted | examples/evering-utils/src/runtime.rs:72-161 | the transfers between two points of a run are exactly those that were left and are no longer, plus four for each operation spawned |
| BackpressureLiveness.AllScriptsFinish | examples/evering-utils/src/runtime.rs:106-161 | without further spawning, after more round boundaries than four times the operations left, between which a transfer happens whenever one is due, every task has finished |
| BackpressureTight.StrandedByLargeB | examples/evering-utils/src/runtime.rs:142-150 | a run strands a submitter whenever ring B is larger than a ring A of at least two entries |
| BackpressureTight.StrandedBySizeOne | examples/evering-utils/src/runtime.rs:94-101 | a run strands a submitter if ring A has one entry, whatever ring B has |
| BackpressureTight.StrandedBySizeTwo | examples/evering-utils/src/runtime.rs:85-117 | a run strands a submitter if ring A has two entries and ring B at least two |
| BackpressureTight.RunMute | examples/evering-utils/src/runtime.rs:85-117 | with one entry in ring B and at least two in ring A, nothing parks until something is in flight, and that stays so |
| BackpressureTight.StrandingExactly | examples/evering-utils/src/runtime.rs:19-26 | over all power-of-two sizes, stranding is possible exactly if ring A has one entry, or two while ring B has at least two, or ring B has more than ring A |
| BackpressureAbort.StrandedByAborts | examples/evering-utils/src/runtime.rs:106-117 | if parked tasks may be aborted, some run strands a live submitter with every slot free, for all rings of two or more entries |
| BackpressureAbort.AbortStrandingExactly | examples/evering-utils/src/runtime.rs:106-117 | with aborts, stranding a live submitter is possible for all sizes exactly if ring A has one entry or ring B at least two |
| BackpressureAbortSafety.MoveSound | examples/evering-utils/src/runtime.rs:72-161 | aborts of tasks in any state, and every other step, keep slots, tasks and what is in flight consistent |
| BackpressureAbortSafety.AbortsNeverPanic | evering/src/driver.rs:132-188 | in every run with aborts nothing panics, now or in any next move |
| BackpressureAbortSafety.InFlightKeepsSlots | evering/src/driver.rs:176-188 | in every run with aborts what is in flight keeps its slot, each once, and slots never outnumber the capacity |
| BackpressureAbortSafety.CancelledExactly | evering/src/op.rs:87-96 | an operation in flight is cancelled exactly if its task was aborted after sending it, and it has been in flight since |
| BackpressureAbortSafety.DrainAfterAborts | evering/src/driver.rs:156-173 | draining the response of an aborted operation frees its slot and wakes no task awaiting one; any other completes its slot and wakes the task that polled it |
| BackpressureAbortSafety.AbortedSubmitterLosesSlot | examples/evering-utils/src/runtime.rs:94-101 | aborting a task that waits for ring space loses its slot in every continuation |
| Runtimes.Runtime.constructor | examples/evering-utils/src/runtime.rs:19-26 | the start of the machine, with as many driver slots as ring A has entries |
| Runtimes.Runtime.DrainOneResponse | examples/evering-utils/src/runtime.rs:142-150 | wakes the longest parked submitter, then completes the response, which wakes its task, and never panics |
| Runtimes.Runtime.DrainResponses | examples/evering-utils/src/runtime.rs:142-150 | drains as many responses as the loaded tail shows while the server runs; for each, a parked submitter and then the task awaiting it are queued, in order |
| Runtimes.Runtime.SpawnTask | local-executor/src/executor.rs:65-75 | the new task is queued at once, behind all others |
| Runtimes.Runtime.PollRoot | examples/evering-utils/src/runtime.rs:151-152 | polling the root turns each script into a task, queued in order behind those the drain woke |
| Runtimes.Runtime.PollForSlot | examples/evering-utils/src/runtime.rs:85-92 | takes a vacant slot, or exactly if there is none pushes the task to the back of the deque and changes nothing else |
| Runtimes.Runtime.PollForRing | examples/evering-utils/src/runtime.rs:94-101 | pushes the task to the back of the deque exactly if ring A is full or looks full on a stale index, and otherwise appends the entry; nothing else changes |
| Runtimes.Runtime.PollOperation | evering/src/op.rs:75-85 | frees the slot and ends the operation exactly if its response has arrived, otherwise suspends with the task's waker registered |
| Runtimes.Runtime.PollTask | examples/evering-utils/src/runtime.rs:72-117 | a poll of a task ends, moves no other task, and leaves it at the back of the deque exactly if it still wants a slot or ring space |
| Runtimes.Runtime.PollQueued | local-executor/src/executor.rs:56-61 | polls exactly the tasks queued at the count, in order, once each; no other task moves |
| Runtimes.Runtime.Round | local-executor/src/executor.rs:51-62 | a turn extends the run of the machine; it polls the submitters and tasks the drain wakes and then the tasks the root spawns, in order; each ends parked, awaiting or finished; operations stay accounted for and, with rings of the right sizes, nobody is stranded |
| Executors.Executor.Wake | local-executor/src/executor.rs:42-44 | queues the task at the back |
| Executors.Executor.PollQueued | local-executor/src/executor.rs:56-61 | polls exactly the tasks queued at the count, in order, as any world that logs polls can tell; what they wake waits for the next round in the order of waking |
| Executors.Executor.BlockOn | local-executor/src/executor.rs:46-63 | in any world that logs wakes by root and tasks, all that had been queued by a count, including what the root just woke, and nothing else has been polled by the end of that batch, first in first out, and the rest is still queued; the output is what the root returned |
| Executors.FifoAtTurn | local-executor/src/executor.rs:51-62 | at the beginning of every turn, what has been polled and behind it what is queued is what was queued first and behind it every wake since |
| Executors.PollAllPolls | local-executor/src/executor.rs:58-61 | a batch is polled in order, once per occurrence |
| Executors.AliveIs | local-executor/src/executor.rs:17-29 | the closed form lists, in spawn order, exactly the tasks spawned by then that yield at least as often as there have been turns since |
| Executors.OneRound | local-executor/src/executor.rs:17-29 | a round over the tasks alive polls each once and requeues exactly those that yield once more, in order |
| Executors.RoundRobin | local-executor/src/executor.rs:17-75 | tasks yielding given numbers of times and spawned by the root in given turns are scheduled exactly as the closed form says, from the turn that spawns them, until the root finishes |
| Join.TaskCell.Poll | local-executor/src/task.rs:144-158 | polls the future only while pending; on its output stores it and wakes the reader |
| Join.TaskCell.Read | local-executor/src/task.rs:160-169 | takes the output out or leaves the reader's waker |
| Join.TaskCell.Abort | local-executor/src/task.rs:140-142 | drops future and output; later reads stay pending |
| Join.JoinHandover | local-executor/src/task.rs:136-170 | every sequence of polls, reads and aborts has exactly the history read off the sequence: first read after completion gets the output, last reader before it is woken |
| Join.DeliveredAtMostOnce | local-executor/src/task.rs:136-170 | a finished future is never polled again, at most one output is delivered and at most one waker woken |
| Shm.AlignUpExactly | examples/evering-ipc/src/shm.rs:286-289 | `align_up` is the least multiple not below its argument, zero included, exactly if its addition does not overflow |
| Shm.Create | examples/evering-ipc/src/shm.rs:57-92 | returns the only layout that packs header, buffers and free memory, and tells exactly why it refuses: an array too large, an offset that leaves the word, or a region that ends too early; only a buffer B whose alignment ends exactly at the top of the address space is refused though it has a layout |
| Shm.LayoutIsUnique | examples/evering-ipc/src/shm.rs:63-73 | the offsets are determined, and the region holds them exactly if it is larger than their end |
| Shm.LayoutIsSound | examples/evering-ipc/src/shm.rs:63-86 | the four areas are ordered, disjoint and inside the region, and in any suitably aligned mapping every element of both buffers is aligned and inside its buffer |
| Shm.TokenRoundTrip | examples/evering-ipc/src/shm.rs:149-163 | a pointer carried to another mapping keeps offset and alignment, comes back unchanged in its own, and distinct pointers have distinct tokens |
| Shm.ShmHeader.GetAllocator | examples/evering-ipc/src/shm.rs:128-147 | the free memory is handed out once; a second caller panics |

## Left out

- The hardware memory model: interleavings with monotone stale loads stand for acquire and release; data races are excluded by the slot-ownership part of `RingTheorems.RunIsSafe`.
- BackpressureTheorems.NobodyIsStranded: rings are sequences there, not arrays of slots; a stale index of the server's may make ring A look as full as there are operations in flight, because every drained response has shown its request was taken.
- Runtimes.Runtime.Round: the rings are fields of sequence type shared with a nondeterministic server; the array-level queue is verified in `Queues`, and tasks do not carry payloads.
- Cancellation in the loaded runtime is the root future aborting tasks (`BackpressureAbort`); a task that drops a submit future or an `Op` and goes on is covered by the client protocol and the session only.
- Executors.Executor.BlockOn: laws about wakes and polls are stated for worlds that log them, as any world can be made to; it runs a given number of turns, since the source's loop need not end; nested `block_on` is excluded.
- Executors.Executor.PollQueued: a future is a function on a world of the caller's choosing; wakes while the root is polled come before the count.
- Join.TaskCell.Poll: the future's answers are supplied by the environment; a task polling, reading or aborting itself from inside its own poll (a borrow panic) is excluded.
- Shm.Create: without overflow checks the source wraps where the model fails; `ftruncate` and `mmap` are not modelled, nor is the allocator behind the block it is given.
- Shm.TokenRoundTrip: addresses are unbounded; the base plus offset stays inside a mapping in the source.
- Drivers.DriverInner.Submit: which vacant key the slab picks and how far it grows are left open; a capacity request is met exactly.
- Drivers.Op.Poll: what `complete_ext` makes of data and payload is the implementor's; it is returned as is.
- Ring sizes of `2^32` and more; `Builder::build_header` would truncate them.
- `into_raw` and `from_raw` (they only postpone disposal), allocation and deallocation, `UringEither`, the resource helpers, `Builder` setters, handles and thread-locals.
- The concrete servers, clients and benchmarks; the server is any that answers each request once.
