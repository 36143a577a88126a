/** The client runtime under load: tasks that submit one operation after another, the
    driver with its slots, the two rings, the deque of parked submitters, the
    executor's queue, and a server. One round of `block_on` is: drain the responses
    (waking one parked submitter before completing each), poll the root future, then
    poll every task that was queued when the executor counted.

    Nothing is cancelled here. A task is woken only by the parked deque or by the
    waker of its operation; the root future spawns tasks but submits nothing itself.
    The server takes and answers requests at any moment, each once, in any order. */
module Backpressure {
  import opened Prelude
  import opened Drivers

  type TaskId = nat

  datatype TaskState =
    | WantSlot              // in `wait_for_ok` around `try_submit_ext`, or about to enter it
    | WantRing(id: OpId)    // holds a driver slot, in `wait_for_ok` around `send`
    | Awaiting(id: OpId)    // awaits the `Op`
    | Finished

  /** `left` operations of the task's script are still to be finished. */
  datatype Task = Task(state: TaskState, left: nat)

  datatype Phase =
    | Boundary
    | Draining(snapshot: nat)               // responses of the loaded tail not yet drained
    | Root
    | Executing(count: nat)                 // tasks the executor has yet to poll this round
    | Polling(task: TaskId, count: nat)

  datatype System = System(
    sizeA: nat, sizeB: nat,
    tasks: seq<Task>, queue: seq<TaskId>, pending: seq<TaskId>,
    driver: Driver<(), (), ()>, ringA: seq<OpId>, held: seq<OpId>, ringB: seq<OpId>,
    phase: Phase, panicked: bool,
    // History: which task a slot was issued to, operations spawned, responses drained.
    owner: map<OpId, TaskId>, spawned: nat, drained: nat)

  /** `Runtime::new`: the driver has as many slots as ring A has entries. */
  function Start(sizeA: nat, sizeB: nat): System {
    System(sizeA, sizeB, [], [], [], Driver(map[], sizeA), [], [], [], Boundary, false, map[], 0, 0)
  }

  /** Sent and not yet drained. */
  function InFlight(s: System): seq<OpId> {
    s.ringA + s.held + s.ringB
  }

  datatype Step =
    | Take
    | Respond(i: nat)
    | StartRound(snapshot: nat)
    | DrainOne
    | EndDrain
    | Spawn(ops: nat)
    | StartExec
    | StartPoll
    | EndRound
    | GetSlot(id: OpId)
    | ParkForSlot
    | SendEntry
    | ParkForRing
    | PollOperation(instance: nat)
    | PollFinished

  predicate PollingIn(s: System) {
    s.phase.Polling? && s.phase.task < |s.tasks|
  }

  function Current(s: System): Task
    requires PollingIn(s)
  {
    s.tasks[s.phase.task]
  }

  /** `send` decides on an index of the server's that may be stale. Every response
      drained has shown the client that its request had been taken, so the ring can
      look at most as full as there are requests in flight. */
  predicate RingMayLookFull(s: System) {
    |s.ringA| + 1 <= s.sizeA <= |InFlight(s)| + 1
  }

  predicate Can(s: System, step: Step) {
    match step
    case Take => s.ringA != []
    case Respond(i) => i < |s.held| && |s.ringB| + 1 < s.sizeB
    case StartRound(snapshot) => s.phase.Boundary? && snapshot <= |s.ringB|
    case DrainOne => s.phase.Draining? && s.phase.snapshot > 0 && s.ringB != []
    case EndDrain => s.phase == Draining(0)
    case Spawn(ops) => s.phase.Root? && ops > 0
    case StartExec => s.phase.Root?
    case StartPoll => s.phase.Executing? && s.phase.count > 0 && s.queue != []
    case EndRound => s.phase == Executing(0)
    case GetSlot(id) => PollingIn(s) && Current(s).state.WantSlot? && HasRoom(s.driver) && id !in s.driver.ops
    case ParkForSlot => PollingIn(s) && Current(s).state.WantSlot? && !HasRoom(s.driver)
    case SendEntry => PollingIn(s) && Current(s).state.WantRing? && |s.ringA| + 1 < s.sizeA
    case ParkForRing => PollingIn(s) && Current(s).state.WantRing? && RingMayLookFull(s)
    case PollOperation(_) => PollingIn(s) && Current(s).state.Awaiting?
    case PollFinished => PollingIn(s) && Current(s).state.Finished?
  }

  function Do(s: System, step: Step): System
    requires Can(s, step)
  {
    match step
    case Take => s.(ringA := s.ringA[1..], held := s.held + [s.ringA[0]])
    case Respond(i) => s.(held := s.held[..i] + s.held[i + 1..], ringB := s.ringB + [s.held[i]])
    case StartRound(snapshot) => s.(phase := Draining(snapshot))
    case DrainOne => CompleteNext(WakeParked(s))
    case EndDrain => s.(phase := Root)
    case Spawn(ops) =>
      s.(tasks := s.tasks + [Task(WantSlot, ops)], queue := s.queue + [|s.tasks|], spawned := s.spawned + ops)
    case StartExec => s.(phase := Executing(|s.queue|))
    case StartPoll => s.(phase := Polling(s.queue[0], s.phase.count - 1), queue := s.queue[1..])
    case EndRound => s.(phase := Boundary)
    case GetSlot(id) =>
      SetState(s, WantRing(id)).(driver := Insert(s.driver, id, ()), owner := s.owner[id := s.phase.task])
    case ParkForSlot => Park(s)
    case SendEntry => SetState(s, Awaiting(Current(s).state.id)).(ringA := s.ringA + [Current(s).state.id])
    case ParkForRing => Park(s)
    case PollOperation(instance) => PollCurrent(s, Waker(s.phase.task, instance))
    case PollFinished => Suspend(s)
  }

  function SetState(s: System, state: TaskState): System
    requires PollingIn(s)
  {
    s.(tasks := s.tasks[s.phase.task := Current(s).(state := state)])
  }

  /** The poll returns and the executor goes on. */
  function Suspend(s: System): System
    requires s.phase.Polling?
  {
    s.(phase := Executing(s.phase.count))
  }

  /** `wait_for_ok` leaves the task's waker at the back of the deque. */
  function Park(s: System): System
    requires s.phase.Polling?
  {
    Suspend(s).(pending := s.pending + [s.phase.task])
  }

  /** The drain loop wakes one parked submitter first ... */
  function WakeParked(s: System): System {
    if s.pending == [] then s else s.(pending := s.pending[1..], queue := s.queue + [s.pending[0]])
  }

  /** ... and then completes the response, which wakes the operation's task. */
  function CompleteNext(s: System): System
    requires s.phase.Draining? && s.phase.snapshot > 0 && s.ringB != []
  {
    var (driver, outcome) := CompleteOp(s.driver, s.ringB[0], ());
    s.(driver := driver, ringB := s.ringB[1..], drained := s.drained + 1,
       phase := Draining(s.phase.snapshot - 1),
       queue := if outcome.Accepted? && outcome.woken.Some? then s.queue + [outcome.woken.value.task] else s.queue,
       panicked := s.panicked || outcome.CompletePanic?)
  }

  /** Ready ends the operation; the script goes on with its next one in the same poll. */
  function PollCurrent(s: System, waker: Waker): System
    requires PollingIn(s) && Current(s).state.Awaiting?
  {
    var id := Current(s).state.id;
    var (driver, r) := PollOp(s.driver, id, waker);
    match r
    case Pending => Suspend(s.(driver := driver))
    case Ready(_, _) =>
      var left := if Current(s).left > 0 then Current(s).left - 1 else 0;
      var state := if left == 0 then Finished else WantSlot;
      var s' := s.(driver := driver, owner := s.owner - {id},
                   tasks := s.tasks[s.phase.task := Task(state, left)]);
      if left == 0 then Suspend(s') else s'
    case PollPanic => s.(driver := driver, panicked := true)
  }

  ghost predicate Next(s: System, s': System) {
    exists step: Step :: Can(s, step) && s' == Do(s, step)
  }

  ghost predicate Run(sizeA: nat, sizeB: nat, run: seq<System>) {
    && |run| > 0 && run[0] == Start(sizeA, sizeB)
    && forall i {:trigger Next(run[i], run[i + 1])} :: 0 <= i < |run| - 1 ==> Next(run[i], run[i + 1])
  }

  /** A submitter is parked and nothing is in flight that could ever wake it. */
  predicate Stranded(s: System) {
    s.phase.Boundary? && s.pending != [] && InFlight(s) == []
  }

  // ---------------------------------------------------------------- invariant

  /** The tasks the executor will still poll, in order: the one it is polling first. */
  function ToPoll(s: System): seq<TaskId> {
    (if s.phase.Polling? then [s.phase.task] else []) + s.queue
  }

  /** No task is queued twice, parked twice, or both. */
  predicate Places(s: System) {
    && Distinct(ToPoll(s)) && Distinct(s.pending)
    && (forall t :: t in ToPoll(s) ==> t < |s.tasks| && t !in s.pending)
    && (forall t :: t in s.pending ==> t < |s.tasks|)
  }

  predicate OwnedBy(s: System, id: OpId, t: TaskId) {
    id in s.driver.ops && id in s.owner && s.owner[id] == t
  }

  predicate TaskOk(s: System, t: TaskId)
    requires t < |s.tasks|
  {
    match s.tasks[t].state
    case WantSlot => s.tasks[t].left > 0 && (t in ToPoll(s) || t in s.pending)
    case WantRing(id) =>
      && s.tasks[t].left > 0 && (t in ToPoll(s) || t in s.pending)
      && OwnedBy(s, id, t) && s.driver.ops[id].state.Submitted? && id !in InFlight(s)
    case Awaiting(id) =>
      && s.tasks[t].left > 0 && t !in s.pending && OwnedBy(s, id, t)
      && (match s.driver.ops[id].state
          case Submitted => id in InFlight(s) && s.phase.Polling? && s.phase.task == t
          case Waiting(waker) => waker.task == t && id in InFlight(s) && t !in ToPoll(s)
          case Completed(_) => id !in InFlight(s) && t in ToPoll(s)
          case Cancelled(_) => false)
    case Finished => s.tasks[t].left == 0 && t !in ToPoll(s) && t !in s.pending
  }

  predicate SlotOk(s: System, id: OpId) {
    && id in s.owner && s.owner[id] < |s.tasks|
    && (s.tasks[s.owner[id]].state == WantRing(id) || s.tasks[s.owner[id]].state == Awaiting(id))
  }

  ghost predicate Linked(s: System) {
    && !s.panicked && Places(s)
    && (forall t :: 0 <= t < |s.tasks| ==> TaskOk(s, t))
    && (forall id :: id in s.driver.ops ==> SlotOk(s, id))
    && s.owner.Keys == s.driver.ops.Keys
    && Distinct(InFlight(s)) && (forall id :: id in InFlight(s) ==> id in s.driver.ops)
    && |s.driver.ops| <= s.driver.capacity == s.sizeA
    && |s.ringA| < s.sizeA && |s.ringB| < s.sizeB
  }

  /** Slots whose response has arrived and has not been read. */
  ghost function Arrived(s: System): set<OpId> {
    set id | id in s.driver.ops && s.driver.ops[id].state.Completed?
  }

  /** What each phase of a round knows. The last clause of each of the middle phases
      is where ring B's size enters: one drain completes fewer than `sizeB`. */
  ghost predicate PhaseOk(s: System) {
    match s.phase
    case Boundary => s.queue == [] && Arrived(s) == {}
    case Draining(snapshot) => snapshot <= |s.ringB| && |Arrived(s)| + snapshot < s.sizeB
    case Root => |Arrived(s)| < s.sizeB
    case Executing(count) => count == |s.queue| && |Arrived(s)| < s.sizeB
    case Polling(_, count) => count == |s.queue| && |Arrived(s)| < s.sizeB
  }

  predicate IsR(s: System, t: TaskId) {
    t < |s.tasks| && s.tasks[t].state.WantRing?
  }

  predicate IsS(s: System, t: TaskId) {
    t < |s.tasks| && s.tasks[t].state.WantSlot?
  }

  /** The task's response has arrived: polled, it gives its slot back. */
  predicate IsC(s: System, t: TaskId) {
    && t < |s.tasks| && s.tasks[t].state.Awaiting?
    && s.tasks[t].state.id in s.driver.ops && s.driver.ops[s.tasks[t].state.id].state.Completed?
  }

  /** At most one task holds a slot while it waits for ring space. */
  ghost predicate OneRingWaiter(s: System) {
    forall t, u :: (t in s.queue || t in s.pending) && (u in s.queue || u in s.pending) && IsR(s, t) && IsR(s, u) ==> t == u
  }

  /** Position `i` is a task whose poll is bound to send: it holds a slot already, or
      a slot is free or will be by the time its turn comes. */
  ghost predicate WillSend(s: System, i: nat) {
    && i < |ToPoll(s)|
    && (IsR(s, ToPoll(s)[i]) || (IsS(s, ToPoll(s)[i]) && (|s.driver.ops| < s.sizeA || ArrivedBefore(s, i))))
  }

  ghost predicate ArrivedBefore(s: System, i: nat)
    requires i <= |ToPoll(s)|
  {
    exists j: nat :: j < i && IsC(s, ToPoll(s)[j])
  }

  /** The strengthening of "nobody is stranded" that every single step keeps. */
  ghost predicate Rescue(s: System) {
    s.pending == [] || InFlight(s) != [] || exists i: nat :: WillSend(s, i)
  }

  /** While a ring waiter stays parked through a drain, a parked submitter was woken
      ahead of every completion. */
  ghost predicate Alternate(s: System) {
    (s.phase.Boundary? || s.phase.Draining? || InFlight(s) == []) && (exists t :: t in s.pending && IsR(s, t)) ==>
      forall i :: 0 < i < |ToPoll(s)| && IsC(s, ToPoll(s)[i]) ==> !IsC(s, ToPoll(s)[i - 1])
  }

  /** Operations of all scripts not yet finished. */
  function Remaining(tasks: seq<Task>): nat {
    if tasks == [] then 0 else Remaining(tasks[..|tasks| - 1]) + tasks[|tasks| - 1].left
  }

  ghost predicate Counted(s: System) {
    Remaining(s.tasks) + s.drained == s.spawned + |Arrived(s)|
  }

  /** What holds whatever the ring sizes. */
  ghost predicate Safe(s: System) {
    Linked(s) && PhaseOk(s) && Counted(s)
  }

  /** What keeps submitters from being stranded. */
  ghost predicate Sched(s: System) {
    OneRingWaiter(s) && Rescue(s) && Alternate(s)
  }

  ghost predicate Inv(s: System) {
    Safe(s) && Sched(s)
  }
}
