/** What aborts leave intact in the loaded runtime, over every run with aborts: nothing
    panics, and an aborted operation's slot stays taken until its response is drained. */
module BackpressureAbortSafety {
  import opened Prelude
  import opened Drivers
  import opened Backpressure
  import opened BackpressureSteps
  import opened BackpressureAbort

  // ---------------------------------------------------------------- invariant

  predicate TaskFine(s: System, t: TaskId)
    requires t < |s.tasks|
  {
    match s.tasks[t].state
    case WantSlot => true
    case WantRing(id) => OwnedBy(s, id, t) && s.driver.ops[id].state.Submitted? && id !in InFlight(s)
    case Awaiting(id) =>
      && OwnedBy(s, id, t)
      && (match s.driver.ops[id].state
          case Submitted => id in InFlight(s)
          case Waiting(waker) => waker.task == t && id in InFlight(s)
          case Completed(_) => id !in InFlight(s)
          case Cancelled(_) => false)
    case Finished => true
  }

  /** A slot is used by the task it was issued to, or that task has finished: aborted
      before sending, which loses the slot, or while the operation was in flight. */
  predicate SlotFine(s: System, id: OpId)
    requires id in s.driver.ops
  {
    && id in s.owner && s.owner[id] < |s.tasks|
    && match s.tasks[s.owner[id]].state
       case WantSlot => false
       case WantRing(i) => i == id
       case Awaiting(i) => i == id
       case Finished =>
         || (s.driver.ops[id].state.Submitted? && id !in InFlight(s))
         || (s.driver.ops[id].state.Cancelled? && id in InFlight(s))
  }

  predicate Flights(s: System) {
    Distinct(InFlight(s)) && forall id :: id in InFlight(s) ==> id in s.driver.ops
  }

  predicate Queues(s: System) {
    && (forall t :: t in s.queue ==> t < |s.tasks|) && (forall t :: t in s.pending ==> t < |s.tasks|)
    && (s.phase.Polling? ==> s.phase.task < |s.tasks| && s.phase.count == |s.queue|)
    && (s.phase.Executing? ==> s.phase.count == |s.queue|)
  }

  ghost predicate TasksFine(s: System) {
    forall t :: 0 <= t < |s.tasks| ==> TaskFine(s, t)
  }

  ghost predicate SlotsFine(s: System) {
    forall id :: id in s.driver.ops ==> SlotFine(s, id)
  }

  ghost predicate Sound(s: System) {
    && !s.panicked && Flights(s) && Queues(s) && TasksFine(s) && SlotsFine(s)
    && |s.driver.ops| <= s.driver.capacity == s.sizeA
  }

  // -------------------------------------------------------------------- steps

  /** Whatever leaves tasks, slots and what is in flight alone. */
  lemma KeptSound(s: System, s': System)
    requires Sound(s) && Queues(s') && Distinct(InFlight(s'))
    requires s'.tasks == s.tasks && s'.driver == s.driver && s'.owner == s.owner && s'.sizeA == s.sizeA && !s'.panicked
    requires forall id :: id in InFlight(s') <==> id in InFlight(s)
    ensures Sound(s')
  {
    forall t | 0 <= t < |s'.tasks| ensures TaskFine(s', t) {
      assert TaskFine(s, t);
    }
    forall id | id in s'.driver.ops ensures SlotFine(s', id) {
      assert SlotFine(s, id);
    }
  }

  lemma Permuted(a: seq<OpId>, b: seq<OpId>)
    requires Distinct(a) && multiset(a) == multiset(b)
    ensures Distinct(b) && forall id :: id in b <==> id in a
  {
    DistinctMultiset(a);
    forall i, j | 0 <= i < j < |b| ensures b[i] != b[j] {
      if b[i] == b[j] {
        TwiceInMultiset(b, i, j);
      }
    }
    forall id ensures id in b <==> id in a {
      assert id in multiset(b) <==> id in multiset(a);
    }
  }

  lemma TakeSound(s: System)
    requires Sound(s) && Can(s, Take)
    ensures Sound(Do(s, Take))
  {
    var s' := Do(s, Take);
    assert s.ringA == [s.ringA[0]] + s.ringA[1..];
    assert multiset(InFlight(s')) == multiset(InFlight(s));
    Permuted(InFlight(s), InFlight(s'));
    KeptSound(s, s');
  }

  lemma RespondSound(s: System, i: nat)
    requires Sound(s) && Can(s, Respond(i))
    ensures Sound(Do(s, Respond(i)))
  {
    var s' := Do(s, Respond(i));
    assert s.held == s.held[..i] + [s.held[i]] + s.held[i + 1..];
    assert multiset(InFlight(s')) == multiset(InFlight(s));
    Permuted(InFlight(s), InFlight(s'));
    KeptSound(s, s');
  }

  lemma TailMembers(q: seq<nat>)
    requires q != []
    ensures q[0] in q && forall t :: t in q[1..] ==> t in q
  {
    assert q == [q[0]] + q[1..];
  }

  /** Steps that only move the round on, or a task between queues. */
  lemma RoundSound(s: System, step: Step)
    requires Sound(s) && Can(s, step)
    requires || step.StartRound? || step.EndDrain? || step.StartExec? || step.StartPoll? || step.EndRound?
             || step.ParkForSlot? || step.ParkForRing? || step.PollFinished?
    ensures Sound(Do(s, step))
  {
    var s' := Do(s, step);
    assert InFlight(s') == InFlight(s);
    if step.StartPoll? {
      TailMembers(s.queue);
    }
    KeptSound(s, s');
  }

  lemma SpawnSound(s: System, ops: nat)
    requires Sound(s) && Can(s, Spawn(ops))
    ensures Sound(Do(s, Spawn(ops)))
  {
    var s' := Do(s, Spawn(ops));
    assert InFlight(s') == InFlight(s);
    forall t | 0 <= t < |s'.tasks| ensures TaskFine(s', t) {
      assert t < |s.tasks| ==> TaskFine(s, t);
    }
    forall id | id in s'.driver.ops ensures SlotFine(s', id) {
      assert SlotFine(s, id);
    }
  }

  /** A step that changes task `t`, slot `id`, which is `t`'s before or after or both, and
      whether `id` is in flight, and nothing about any other task or slot. */
  ghost predicate OneTask(s: System, s': System, t: TaskId, id: OpId) {
    && t < |s.tasks| == |s'.tasks|
    && (forall u :: 0 <= u < |s.tasks| && u != t ==> s'.tasks[u] == s.tasks[u])
    && (id in s.driver.ops ==> id in s.owner && s.owner[id] == t)
    && (forall i :: i != id ==> (i in s'.driver.ops <==> i in s.driver.ops))
    && (forall i :: i != id && i in s.driver.ops ==>
          s'.driver.ops[i] == s.driver.ops[i] && (i in s.owner ==> i in s'.owner && s'.owner[i] == s.owner[i]))
    && (forall i :: i != id ==> (i in InFlight(s') <==> i in InFlight(s)))
    && (forall i :: i in s.driver.ops && i in s.owner && s.owner[i] == t ==> i == id)
  }

  lemma OtherTask(s: System, s': System, t: TaskId, id: OpId, u: TaskId)
    requires OneTask(s, s', t, id) && u < |s.tasks| && u != t && TaskFine(s, u)
    ensures TaskFine(s', u)
  {
  }

  lemma OtherSlot(s: System, s': System, t: TaskId, id: OpId, i: OpId)
    requires OneTask(s, s', t, id) && i != id && i in s.driver.ops && SlotFine(s, i)
    requires s.owner[i] != t
    ensures i in s'.driver.ops && SlotFine(s', i)
  {
  }

  lemma OneTaskSound(s: System, s': System, t: TaskId, id: OpId)
    requires Sound(s) && OneTask(s, s', t, id)
    requires TaskFine(s', t) && (id in s'.driver.ops ==> SlotFine(s', id))
    ensures TasksFine(s') && SlotsFine(s')
  {
    forall u | 0 <= u < |s'.tasks| ensures TaskFine(s', u) {
      if u != t {
        assert TaskFine(s, u);
        OtherTask(s, s', t, id, u);
      }
    }
    forall i | i in s'.driver.ops ensures SlotFine(s', i) {
      if i != id {
        assert SlotFine(s, i);
        OtherSlot(s, s', t, id, i);
      }
    }
  }

  /** A task uses at most one slot. */
  lemma OwnSlot(s: System, t: TaskId, id: OpId)
    requires Sound(s) && t < |s.tasks| && (s.tasks[t].state == WantRing(id) || s.tasks[t].state == Awaiting(id))
    ensures OwnedBy(s, id, t) && forall i :: i in s.driver.ops && s.owner[i] == t ==> i == id
  {
    assert TaskFine(s, t);
    forall i | i in s.driver.ops && i in s.owner && s.owner[i] == t ensures i == id {
      assert SlotFine(s, i);
    }
  }

  lemma NoSlot(s: System, t: TaskId)
    requires Sound(s) && t < |s.tasks| && s.tasks[t].state.WantSlot?
    ensures forall i :: i in s.driver.ops ==> i in s.owner && s.owner[i] != t
  {
    forall i | i in s.driver.ops ensures i in s.owner && s.owner[i] != t {
      assert SlotFine(s, i);
    }
  }

  lemma GetSlotSound(s: System, id: OpId)
    requires Sound(s) && Can(s, GetSlot(id))
    ensures Sound(Do(s, GetSlot(id)))
  {
    var s', t := Do(s, GetSlot(id)), s.phase.task;
    NoSlot(s, t);
    assert InFlight(s') == InFlight(s) && id !in InFlight(s);
    OneTaskSound(s, s', t, id);
  }

  lemma SendEntrySound(s: System)
    requires Sound(s) && Can(s, SendEntry)
    ensures Sound(Do(s, SendEntry))
  {
    var s', t, id := Do(s, SendEntry), s.phase.task, Current(s).state.id;
    OwnSlot(s, t, id);
    assert TaskFine(s, t);
    assert s.ringA + (s.held + s.ringB) == InFlight(s) && s.ringA + [id] + (s.held + s.ringB) == InFlight(s');
    InsertDistinct(s.ringA, s.held + s.ringB, id);
    OneTaskSound(s, s', t, id);
  }

  lemma PollOperationSound(s: System, instance: nat)
    requires Sound(s) && Can(s, PollOperation(instance))
    ensures Sound(Do(s, PollOperation(instance)))
  {
    var s', t, id := Do(s, PollOperation(instance)), s.phase.task, Current(s).state.id;
    OwnSlot(s, t, id);
    assert TaskFine(s, t);
    assert InFlight(s') == InFlight(s);
    PollKeepsSlots(s, instance);
    OneTaskSound(s, s', t, id);
  }

  lemma PollKeepsSlots(s: System, instance: nat)
    requires Can(s, PollOperation(instance)) && Current(s).state.id in s.driver.ops
    ensures |Do(s, PollOperation(instance)).driver.ops| <= |s.driver.ops|
  {
    var id := Current(s).state.id;
    var ops, ops' := s.driver.ops, Do(s, PollOperation(instance)).driver.ops;
    assert ops'.Keys == ops.Keys || ops'.Keys == ops.Keys - {id};
    assert |ops'| == |ops'.Keys| && |ops| == |ops.Keys|;
  }

  // ------------------------------------------------------------- draining

  /** The slot of the next response: its task awaits it, or has been aborted. */
  lemma NextSlot(s: System) returns (id: OpId, t: TaskId)
    requires Sound(s) && s.ringB != []
    ensures id == s.ringB[0] && id in InFlight(s) && OwnedBy(s, id, t) && t < |s.tasks|
    ensures if s.driver.ops[id].state.Cancelled? then s.tasks[t].state.Finished?
            else s.tasks[t].state == Awaiting(id) && (s.driver.ops[id].state.Submitted? || s.driver.ops[id].state.Waiting?)
    ensures s.driver.ops[id].state.Waiting? ==> s.driver.ops[id].state.waker.task == t
  {
    id := s.ringB[0];
    assert id in s.ringB && id in InFlight(s);
    assert SlotFine(s, id);
    t := s.owner[id];
    assert TaskFine(s, t);
  }

  lemma WakeSound(s: System)
    requires Sound(s) && s.phase.Draining?
    ensures Sound(WakeParked(s))
  {
    if s.pending != [] {
      TailMembers(s.pending);
      assert InFlight(WakeParked(s)) == InFlight(s);
      KeptSound(s, WakeParked(s));
    }
  }

  lemma CompleteSound(s: System)
    requires Sound(s) && s.phase.Draining? && s.phase.snapshot > 0 && s.ringB != []
    ensures Sound(CompleteNext(s))
  {
    var s' := CompleteNext(s);
    var id, t := NextSlot(s);
    DropFirst(s.ringA + s.held, s.ringB);
    assert InFlight(s') == s.ringA + s.held + s.ringB[1..];
    assert (s.driver.ops - {id}).Keys == s.driver.ops.Keys - {id};
    if s.driver.ops[id].state.Cancelled? {
      CancelledDrained(s, s', id, t);
    } else {
      assert TaskFine(s, t);
      OwnSlot(s, t, id);
      assert s'.driver.ops.Keys == s.driver.ops.Keys;
      OneTaskSound(s, s', t, id);
    }
  }

  lemma CancelledDrained(s: System, s': System, id: OpId, t: TaskId)
    requires Sound(s) && OwnedBy(s, id, t) && s.driver.ops[id].state.Cancelled?
    requires s'.tasks == s.tasks && s'.owner == s.owner && s'.driver == Vacate(s.driver, id)
    requires forall i :: i in InFlight(s') <==> i in InFlight(s) && i != id
    ensures TasksFine(s') && SlotsFine(s')
  {
    forall u | 0 <= u < |s'.tasks| ensures TaskFine(s', u) {
      assert TaskFine(s, u);
    }
    forall i | i in s'.driver.ops ensures SlotFine(s', i) {
      assert SlotFine(s, i);
    }
  }

  lemma StepSound(s: System, step: Step)
    requires Sound(s) && Can(s, step)
    ensures Sound(Do(s, step))
  {
    match step
    case Take => TakeSound(s);
    case Respond(i) => RespondSound(s, i);
    case Spawn(ops) => SpawnSound(s, ops);
    case DrainOne => WakeSound(s); CompleteSound(WakeParked(s));
    case GetSlot(id) => GetSlotSound(s, id);
    case SendEntry => SendEntrySound(s);
    case PollOperation(instance) => PollOperationSound(s, instance);
    case StartRound(_) => RoundSound(s, step);
    case EndDrain => RoundSound(s, step);
    case StartExec => RoundSound(s, step);
    case StartPoll => RoundSound(s, step);
    case EndRound => RoundSound(s, step);
    case ParkForSlot => RoundSound(s, step);
    case ParkForRing => RoundSound(s, step);
    case PollFinished => RoundSound(s, step);
  }

  // --------------------------------------------------------------- aborting

  /** Aborting a task that waits to submit; a slot it holds stays taken, unsent. */
  lemma AbortSubmitterSound(s: System, t: TaskId)
    requires Sound(s) && May(s, Abort(t)) && !s.tasks[t].state.Awaiting?
    ensures Sound(AbortTask(s, t))
  {
    var s' := AbortTask(s, t);
    assert InFlight(s') == InFlight(s);
    assert TaskFine(s, t);
    forall u | 0 <= u < |s'.tasks| ensures TaskFine(s', u) {
      assert TaskFine(s, u);
    }
    forall id | id in s'.driver.ops ensures SlotFine(s', id) {
      assert SlotFine(s, id);
    }
  }

  /** Aborting a task that awaits its operation: in flight the operation is cancelled and
      keeps its slot; a response that has arrived is discarded and frees it. */
  lemma AbortAwaitingSound(s: System, t: TaskId)
    requires Sound(s) && May(s, Abort(t)) && s.tasks[t].state.Awaiting?
    ensures Sound(AbortTask(s, t))
    ensures var id := s.tasks[t].state.id;
      if id in InFlight(s) then id in AbortTask(s, t).driver.ops && AbortTask(s, t).driver.ops[id].state.Cancelled?
      else id !in AbortTask(s, t).driver.ops
  {
    var s', id := AbortTask(s, t), s.tasks[t].state.id;
    assert TaskFine(s, t);
    OwnSlot(s, t, id);
    assert InFlight(s') == InFlight(s);
    assert (s.driver.ops - {id}).Keys == s.driver.ops.Keys - {id};
    assert id in s'.driver.ops ==> s'.driver.ops.Keys == s.driver.ops.Keys;
    OneTaskSound(s, s', t, id);
  }

  lemma MoveSound(s: System, m: Move)
    requires Sound(s) && May(s, m)
    ensures Sound(Make(s, m))
  {
    match m
    case Base(step) => StepSound(s, step);
    case Abort(t) =>
      if s.tasks[t].state.Awaiting? {
        AbortAwaitingSound(s, t);
      } else {
        AbortSubmitterSound(s, t);
      }
  }

  lemma {:induction false} RunSound(sizeA: nat, sizeB: nat, run: seq<System>, i: nat)
    requires AbortRun(sizeA, sizeB, run) && i < |run|
    ensures Sound(run[i])
  {
    if i > 0 {
      var p := i - 1;
      RunSound(sizeA, sizeB, run, p);
      assert NextMove(run[p], run[p + 1]);
      var m: Move :| May(run[p], m) && run[p + 1] == Make(run[p], m);
      MoveSound(run[p], m);
    }
  }

  // ------------------------------------------------------------- main results

  /** Aborts make nothing panic, now or in any next move. */
  lemma AbortsNeverPanic(sizeA: nat, sizeB: nat, run: seq<System>, i: nat)
    requires AbortRun(sizeA, sizeB, run) && i < |run|
    ensures !run[i].panicked
    ensures forall m: Move :: May(run[i], m) ==> !Make(run[i], m).panicked
  {
    RunSound(sizeA, sizeB, run, i);
    forall m: Move | May(run[i], m) ensures !Make(run[i], m).panicked {
      MoveSound(run[i], m);
    }
  }

  /** What is in flight keeps its slot, once each, and slots never outnumber the capacity. */
  lemma InFlightKeepsSlots(sizeA: nat, sizeB: nat, run: seq<System>, i: nat)
    requires AbortRun(sizeA, sizeB, run) && i < |run|
    ensures var s := run[i];
      && Distinct(InFlight(s)) && (forall id :: id in InFlight(s) ==> id in s.driver.ops)
      && |s.driver.ops| <= s.driver.capacity == s.sizeA
  {
    RunSound(sizeA, sizeB, run, i);
  }

  /** The task `t` that awaits `id`, in flight, is aborted. */
  predicate AbortsTask(s: System, s': System, id: OpId, t: TaskId) {
    May(s, Abort(t)) && s.tasks[t].state == Awaiting(id) && id in InFlight(s) && s' == AbortTask(s, t)
  }

  ghost predicate AbortsInFlight(s: System, s': System, id: OpId) {
    exists t: TaskId :: AbortsTask(s, s', id, t)
  }

  ghost predicate CancelledAt(s: System, id: OpId) {
    id in s.driver.ops && s.driver.ops[id].state.Cancelled?
  }

  /** Since some abort of its task, `id` has been in flight. */
  ghost predicate AbortedSince(run: seq<System>, i: nat, id: OpId)
    requires i < |run|
  {
    exists h: nat :: AbortedAt(run, h, i, id)
  }

  ghost predicate AbortedAt(run: seq<System>, h: nat, i: nat, id: OpId)
    requires i < |run|
  {
    h < i && AbortsInFlight(run[h], run[h + 1], id) && forall k :: h < k <= i ==> id in InFlight(run[k])
  }

  /** Steps that leave every slot in flight as it is, and what is in flight too. */
  lemma OtherStepCancels(s: System, step: Step, id: OpId)
    requires Sound(s) && Can(s, step) && !step.DrainOne? && !step.SendEntry? && !step.PollOperation?
    ensures id in InFlight(Do(s, step)) <==> id in InFlight(s)
    ensures id in InFlight(s) ==> (CancelledAt(Do(s, step), id) <==> CancelledAt(s, id))
  {
    var s' := Do(s, step);
    if step.Take? {
      assert s.ringA == [s.ringA[0]] + s.ringA[1..];
    } else if step.Respond? {
      assert s.held == s.held[..step.i] + [s.held[step.i]] + s.held[step.i + 1..];
    } else {
      assert InFlight(s') == InFlight(s);
    }
  }

  lemma PollCancels(s: System, instance: nat, id: OpId)
    requires Sound(s) && Can(s, PollOperation(instance))
    ensures InFlight(Do(s, PollOperation(instance))) == InFlight(s)
    ensures CancelledAt(Do(s, PollOperation(instance)), id) <==> CancelledAt(s, id)
  {
    assert TaskFine(s, s.phase.task);
  }

  lemma DrainCancels(s: System, id: OpId)
    requires Sound(s) && Can(s, DrainOne) && id in InFlight(Do(s, DrainOne))
    ensures id in InFlight(s) && (CancelledAt(Do(s, DrainOne), id) <==> CancelledAt(s, id))
  {
    var s' := Do(s, DrainOne);
    var next, t := NextSlot(s);
    DropFirst(s.ringA + s.held, s.ringB);
    assert InFlight(s') == s.ringA + s.held + s.ringB[1..];
    DrainEffect(s, next, t);
    assert id in s'.driver.ops - {next} <==> id in s.driver.ops - {next};
  }

  lemma SendCancels(s: System, id: OpId)
    requires Sound(s) && Can(s, SendEntry) && id in InFlight(Do(s, SendEntry))
    ensures CancelledAt(Do(s, SendEntry), id) <==> id in InFlight(s) && CancelledAt(s, id)
  {
    assert TaskFine(s, s.phase.task);
  }

  lemma StepCancels(s: System, step: Step, id: OpId)
    requires Sound(s) && Can(s, step) && id in InFlight(Do(s, step))
    ensures CancelledAt(Do(s, step), id) <==> id in InFlight(s) && CancelledAt(s, id)
  {
    if step.DrainOne? {
      DrainCancels(s, id);
    } else if step.SendEntry? {
      SendCancels(s, id);
    } else if step.PollOperation? {
      PollCancels(s, step.instance, id);
    } else {
      OtherStepCancels(s, step, id);
    }
  }

  lemma MoveCancels(s: System, s': System, id: OpId)
    requires Sound(s) && NextMove(s, s') && id in InFlight(s')
    ensures CancelledAt(s', id) <==> (id in InFlight(s) && CancelledAt(s, id)) || AbortsInFlight(s, s', id)
  {
    var m: Move :| May(s, m) && s' == Make(s, m);
    if AbortsInFlight(s, s', id) {
      var t: TaskId :| AbortsTask(s, s', id, t);
      AbortAwaitingSound(s, t);
    }
    match m
    case Base(step) => StepCancels(s, step, id);
    case Abort(t) => AbortCancels(s, t, id);
  }

  lemma AbortCancels(s: System, t: TaskId, id: OpId)
    requires Sound(s) && May(s, Abort(t)) && id in InFlight(AbortTask(s, t))
    ensures CancelledAt(AbortTask(s, t), id) ==> CancelledAt(s, id) || AbortsInFlight(s, AbortTask(s, t), id)
    ensures CancelledAt(s, id) ==> CancelledAt(AbortTask(s, t), id)
    ensures id in InFlight(s)
  {
    assert InFlight(AbortTask(s, t)) == InFlight(s);
    assert TaskFine(s, t);
    if s.tasks[t].state == Awaiting(id) {
      AbortAwaitingSound(s, t);
      assert AbortsTask(s, AbortTask(s, t), id, t);
    }
  }

  /** An operation in flight is cancelled exactly if its task was aborted after sending
      it, the operation having been in flight ever since. */
  lemma {:induction false} CancelledExactly(sizeA: nat, sizeB: nat, run: seq<System>, i: nat, id: OpId)
    requires AbortRun(sizeA, sizeB, run) && i < |run| && id in InFlight(run[i])
    ensures id in run[i].driver.ops
    ensures run[i].driver.ops[id].state.Cancelled? <==> AbortedSince(run, i, id)
  {
    RunSound(sizeA, sizeB, run, i);
    if i > 0 {
      var p := i - 1;
      RunSound(sizeA, sizeB, run, p);
      assert NextMove(run[p], run[p + 1]);
      MoveCancels(run[p], run[p + 1], id);
      if id in InFlight(run[p]) {
        CancelledExactly(sizeA, sizeB, run, p, id);
      }
      SinceOneMore(run, p, id);
    }
  }

  lemma SinceOneMore(run: seq<System>, p: nat, id: OpId)
    requires p + 1 < |run| && id in InFlight(run[p + 1])
    ensures AbortedSince(run, p + 1, id) <==>
      (id in InFlight(run[p]) && AbortedSince(run, p, id)) || AbortsInFlight(run[p], run[p + 1], id)
  {
    if AbortsInFlight(run[p], run[p + 1], id) {
      assert AbortedAt(run, p, p + 1, id);
    }
    if id in InFlight(run[p]) && AbortedSince(run, p, id) {
      var h: nat :| AbortedAt(run, h, p, id);
      assert AbortedAt(run, h, p + 1, id);
    }
    if AbortedSince(run, p + 1, id) {
      var h: nat :| AbortedAt(run, h, p + 1, id);
      assert h < p ==> AbortedAt(run, h, p, id);
    }
  }

  /** Draining the response of an aborted operation frees its slot and wakes nobody but a
      parked submitter; any other response completes its slot and also wakes the task
      that awaits it if it has polled. No other slot changes. */
  lemma DrainAfterAborts(sizeA: nat, sizeB: nat, run: seq<System>, i: nat)
    requires AbortRun(sizeA, sizeB, run) && i < |run| && Can(run[i], DrainOne)
    ensures var s, s' := run[i], Do(run[i], DrainOne);
      var id := s.ringB[0];
      && id in s.driver.ops && id in s.owner
      && var woken := if s.pending == [] then [] else [s.pending[0]];
      && s'.driver.ops - {id} == s.driver.ops - {id} && s'.ringB == s.ringB[1..]
      && (if s.driver.ops[id].state.Cancelled? then
            id !in s'.driver.ops && s'.queue == s.queue + woken
          else
            && id in s'.driver.ops && s'.driver.ops[id].state.Completed?
            && s'.queue == s.queue + woken + (if s.driver.ops[id].state.Waiting? then [s.owner[id]] else []))
  {
    RunSound(sizeA, sizeB, run, i);
    var id, t := NextSlot(run[i]);
    DrainEffect(run[i], id, t);
  }

  lemma DrainEffect(s: System, id: OpId, t: TaskId)
    requires Can(s, DrainOne) && s.ringB[0] == id && OwnedBy(s, id, t)
    requires !s.driver.ops[id].state.Completed?
    requires s.driver.ops[id].state.Waiting? ==> s.driver.ops[id].state.waker.task == t
    ensures var s' := Do(s, DrainOne);
      var woken := if s.pending == [] then [] else [s.pending[0]];
      && s'.driver.ops - {id} == s.driver.ops - {id} && s'.ringB == s.ringB[1..]
      && (if s.driver.ops[id].state.Cancelled? then
            id !in s'.driver.ops && s'.queue == s.queue + woken
          else
            && id in s'.driver.ops && s'.driver.ops[id].state.Completed?
            && s'.queue == s.queue + woken + (if s.driver.ops[id].state.Waiting? then [t] else []))
  {
    assert (s.driver.ops - {id}) - {id} == s.driver.ops - {id};
  }

  // ------------------------------------------------------------- lost slots

  /** The slot of a submission dropped before it was sent. */
  predicate LostSlot(s: System, id: OpId) {
    && id in s.driver.ops && s.driver.ops[id].state.Submitted? && id !in InFlight(s)
    && id in s.owner && s.owner[id] < |s.tasks| && s.tasks[s.owner[id]].state.Finished?
  }

  lemma AbortLoses(s: System, t: TaskId)
    requires Sound(s) && May(s, Abort(t)) && s.tasks[t].state.WantRing?
    ensures LostSlot(AbortTask(s, t), s.tasks[t].state.id)
  {
    assert TaskFine(s, t);
    assert InFlight(AbortTask(s, t)) == InFlight(s);
  }

  lemma AbortKeepsLost(s: System, t: TaskId, id: OpId)
    requires Sound(s) && May(s, Abort(t)) && LostSlot(s, id)
    ensures LostSlot(AbortTask(s, t), id)
  {
    assert TaskFine(s, t);
    assert InFlight(AbortTask(s, t)) == InFlight(s);
  }

  lemma PollKeepsLost(s: System, step: Step, id: OpId)
    requires Sound(s) && Can(s, step) && LostSlot(s, id) && (step.SendEntry? || step.PollOperation? || step.GetSlot?)
    ensures LostSlot(Do(s, step), id)
  {
    assert TaskFine(s, s.phase.task);
  }

  lemma DrainKeepsLost(s: System, id: OpId)
    requires Sound(s) && Can(s, DrainOne) && LostSlot(s, id)
    ensures LostSlot(Do(s, DrainOne), id)
  {
    var s' := Do(s, DrainOne);
    var next, t := NextSlot(s);
    DropFirst(s.ringA + s.held, s.ringB);
    assert InFlight(s') == s.ringA + s.held + s.ringB[1..];
    DrainEffect(s, next, t);
    assert id in s'.driver.ops - {next} && (s'.driver.ops - {next})[id] == (s.driver.ops - {next})[id];
  }

  lemma MoveKeepsLost(s: System, s': System, id: OpId)
    requires Sound(s) && NextMove(s, s') && LostSlot(s, id)
    ensures LostSlot(s', id)
  {
    var m: Move :| May(s, m) && s' == Make(s, m);
    match m
    case Abort(t) => AbortKeepsLost(s, t, id);
    case Base(step) =>
      if step.DrainOne? {
        DrainKeepsLost(s, id);
      } else if step.SendEntry? || step.PollOperation? || step.GetSlot? {
        PollKeepsLost(s, step, id);
      } else {
        OtherStepCancels(s, step, id);
      }
  }

  lemma {:induction false} LostForever(sizeA: nat, sizeB: nat, run: seq<System>, i: nat, j: nat, id: OpId)
    requires AbortRun(sizeA, sizeB, run) && i <= j < |run| && LostSlot(run[i], id)
    ensures LostSlot(run[j], id)
  {
    if i < j {
      var p := j - 1;
      LostForever(sizeA, sizeB, run, i, p, id);
      RunSound(sizeA, sizeB, run, p);
      assert NextMove(run[p], run[p + 1]);
      MoveKeepsLost(run[p], run[p + 1], id);
    }
  }

  /** Aborting a task that waits for ring space loses its slot: no continuation of the
      run frees it, and none puts it in flight. */
  lemma AbortedSubmitterLosesSlot(sizeA: nat, sizeB: nat, run: seq<System>, i: nat, j: nat, t: TaskId)
    requires AbortRun(sizeA, sizeB, run) && i < j < |run|
    requires May(run[i], Abort(t)) && run[i].tasks[t].state.WantRing? && run[i + 1] == AbortTask(run[i], t)
    ensures LostSlot(run[j], run[i].tasks[t].state.id)
  {
    RunSound(sizeA, sizeB, run, i);
    AbortLoses(run[i], t);
    LostForever(sizeA, sizeB, run, i + 1, j, run[i].tasks[t].state.id);
  }
}
