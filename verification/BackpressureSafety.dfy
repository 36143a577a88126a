/** What the loaded runtime keeps for rings of any size: its bookkeeping, what each phase
    of a round knows, and the count of finished operations. Nothing ever panics. */
module BackpressureSafety {
  import opened Drivers
  import opened Backpressure
  import opened BackpressureSteps
  import opened BackpressureCounts

  lemma CurrentNotQueued(s: System)
    requires Linked(s) && s.phase.Polling?
    ensures ToPoll(s)[0] == s.phase.task && ToPoll(s)[1..] == s.queue
    ensures s.phase.task !in s.queue && s.phase.task !in s.pending && s.phase.task in ToPoll(s)
  {
    assert ToPoll(s)[0] == s.phase.task && ToPoll(s)[1..] == s.queue;
    TailDistinct(ToPoll(s));
  }

  lemma ReadyCounts(s: System, instance: nat)
    requires Linked(s) && Can(s, PollOperation(instance))
    requires var id := Current(s).state.id; id in s.driver.ops && s.driver.ops[id].state.Completed?
    ensures var s' := Do(s, PollOperation(instance));
      && Arrived(s') == Arrived(s) - {Current(s).state.id} && Current(s).state.id in Arrived(s)
      && Remaining(s'.tasks) + 1 == Remaining(s.tasks)
      && s'.ringA == s.ringA && s'.held == s.held && s'.ringB == s.ringB
  {
    var s' := Do(s, PollOperation(instance));
    var cur, id := s.phase.task, Current(s).state.id;
    assert TaskOk(s, cur);
    assert s'.driver == Vacate(s.driver, id);
    RemainingUpdate(s.tasks, cur, s'.tasks[cur]);
  }

  /** The submitter woken first, if any is parked, as a sequence. */
  function Woken(s: System): seq<TaskId> {
    if s.pending == [] then [] else [s.pending[0]]
  }

  /** One drain iteration seen from outside: `t` awaited the response to `id`. */
  predicate DrainStep(s: System, s': System, id: OpId, t: TaskId) {
    && s.phase.Draining? && s.phase.snapshot > 0 && s.ringB != [] && s.ringB[0] == id
    && OwnedBy(s, id, t) && t < |s.tasks| && s.tasks[t].state == Awaiting(id)
    && s.driver.ops[id].state.Waiting? && t !in ToPoll(s) && t !in s.pending
    && s' == s.(driver := Update(s.driver, id, Completed(())), ringB := s.ringB[1..], drained := s.drained + 1,
                phase := Draining(s.phase.snapshot - 1), queue := s.queue + Woken(s) + [t],
                pending := if s.pending == [] then [] else s.pending[1..])
    && |InFlight(s')| == |InFlight(s)| - 1
  }

  lemma WokenView(s: System)
    requires Linked(s) && s.phase.Draining?
    ensures WakeParked(s) == s.(queue := s.queue + Woken(s), pending := if s.pending == [] then [] else s.pending[1..])
    ensures forall u :: u in ToPoll(s) || u in s.pending ==> u in ToPoll(WakeParked(s)) || u in WakeParked(s).pending
  {
    if s.pending != [] {
      assert s.pending == [s.pending[0]] + s.pending[1..];
      assert ToPoll(WakeParked(s)) == ToPoll(s) + [s.pending[0]];
    }
  }

  lemma DrainIsDrainStep(s: System) returns (id: OpId, t: TaskId)
    requires Linked(s) && Can(s, DrainOne)
    ensures Linked(Do(s, DrainOne)) && DrainStep(s, Do(s, DrainOne), id, t)
  {
    var woken := WakeParked(s);
    WakeParkedLinked(s);
    WokenView(s);
    id, t := CompleteNextIs(woken);
    DrainedLinked(woken, CompleteNext(woken), id, t);
    Compose(s, woken, CompleteNext(woken), id, t);
  }

  lemma Compose(s: System, woken: System, s': System, id: OpId, t: TaskId)
    requires woken == s.(queue := s.queue + Woken(s), pending := if s.pending == [] then [] else s.pending[1..])
    requires id in woken.driver.ops && Drained(woken, s', id, t) && OwnedBy(s, id, t)
    requires t < |s.tasks| && s.tasks[t].state == Awaiting(id) && s.driver.ops[id].state.Waiting?
    requires t !in ToPoll(s) && t !in s.pending && |InFlight(s')| == |InFlight(woken)| - 1
    ensures DrainStep(s, s', id, t)
  {
    assert InFlight(woken) == InFlight(s) && woken.ringB == s.ringB;
  }

  lemma DrainViews(s: System, s': System, id: OpId, t: TaskId)
    requires Linked(s) && DrainStep(s, s', id, t)
    ensures ToPoll(s') == ToPoll(s) + Woken(s) + [t]
    ensures Arrived(s') == Arrived(s) + {id} && id !in Arrived(s)
    ensures IsC(s', t) && forall u: TaskId :: u < |s.tasks| && u != t ==> (IsC(s', u) <==> IsC(s, u))
  {
    assert Arrived(s') == Arrived(s) + {id};
    forall u: TaskId | u < |s.tasks| && u != t ensures IsC(s', u) <==> IsC(s, u) {
      assert TaskOk(s, u);
    }
  }

  // ------------------------------------------------------- phases and counts

  /** The executor never polls a task that has finished. */
  lemma FinishedIsNotPolled(s: System)
    requires Linked(s)
    ensures !Can(s, PollFinished)
  {
    if PollingIn(s) {
      CurrentNotQueued(s);
      assert TaskOk(s, s.phase.task);
    }
  }

  lemma ServerSafe(s: System, step: Step)
    requires Safe(s) && Can(s, step) && (step.Take? || step.Respond?)
    ensures Safe(Do(s, step)) && (InFlight(Do(s, step)) == [] <==> InFlight(s) == [])
  {
    if step.Take? {
      TakeLinked(s);
    } else {
      RespondLinked(s, step.i);
    }
    assert Arrived(Do(s, step)) == Arrived(s);
  }

  /** Steps that only move the round to its next phase. */
  lemma IdleSafe(s: System, step: Step)
    requires Safe(s) && Can(s, step) && (step.StartRound? || step.EndDrain? || step.StartExec? || step.EndRound?)
    ensures Safe(Do(s, step)) && Arrived(Do(s, step)) == Arrived(s)
    ensures step.StartRound? || step.EndRound? ==> Arrived(s) == {} && s.queue == []
  {
    IdleLinked(s, Do(s, step));
    assert Arrived(Do(s, step)) == Arrived(s);
    if step.EndRound? && Arrived(s) != {} {
      var id :| id in Arrived(s);
      var i := ArrivedIsQueued(s, id);
    }
  }

  lemma StartPollSafe(s: System)
    requires Safe(s) && Can(s, StartPoll)
    ensures Safe(Do(s, StartPoll)) && ToPoll(Do(s, StartPoll)) == ToPoll(s)
  {
    StartPollLinked(s);
    assert Arrived(Do(s, StartPoll)) == Arrived(s);
  }

  lemma SpawnSafe(s: System, ops: nat)
    requires Safe(s) && Can(s, Spawn(ops))
    ensures Safe(Do(s, Spawn(ops)))
  {
    SpawnLinked(s, ops);
    RemainingAppend(s.tasks, Task(WantSlot, ops));
    assert Arrived(Do(s, Spawn(ops))) == Arrived(s);
  }

  lemma DrainSafe(s: System)
    requires Safe(s) && Can(s, DrainOne)
    ensures Safe(Do(s, DrainOne))
  {
    var id, t := DrainIsDrainStep(s);
    DrainViews(s, Do(s, DrainOne), id, t);
  }

  lemma SubmitterSafe(s: System, step: Step)
    requires Safe(s) && Can(s, step) && (step.GetSlot? || step.SendEntry?)
    ensures Safe(Do(s, step)) && Arrived(Do(s, step)) == Arrived(s)
  {
    var s' := Do(s, step);
    if step.GetSlot? {
      GetSlotLinked(s, step.id);
    } else {
      SendEntryLinked(s);
    }
    RemainingUpdate(s.tasks, s.phase.task, s'.tasks[s.phase.task]);
    assert Arrived(s') == Arrived(s);
  }

  lemma ParkSafe(s: System, step: Step)
    requires Safe(s) && Can(s, step) && (step.ParkForSlot? || step.ParkForRing?)
    ensures Safe(Do(s, step)) && Arrived(Do(s, step)) == Arrived(s)
  {
    ParkLinked(s);
    assert Arrived(Do(s, step)) == Arrived(s);
  }

  lemma PollOperationSafe(s: System, instance: nat)
    requires Safe(s) && Can(s, PollOperation(instance))
    ensures Safe(Do(s, PollOperation(instance)))
  {
    CurrentNotQueued(s);
    assert TaskOk(s, s.phase.task);
    if s.driver.ops[Current(s).state.id].state.Submitted? {
      PollPendingLinked(s, instance);
    } else {
      PollReadyLinked(s, instance);
      ReadyCounts(s, instance);
    }
  }

  /** Every step keeps the runtime safe, whatever the sizes of the rings. */
  lemma StepSafe(s: System, step: Step)
    requires Safe(s) && Can(s, step)
    ensures Safe(Do(s, step))
  {
    match step
    case Take => ServerSafe(s, step);
    case Respond(_) => ServerSafe(s, step);
    case StartPoll => StartPollSafe(s);
    case Spawn(ops) => SpawnSafe(s, ops);
    case DrainOne => DrainSafe(s);
    case GetSlot(_) => SubmitterSafe(s, step);
    case SendEntry => SubmitterSafe(s, step);
    case ParkForSlot => ParkSafe(s, step);
    case ParkForRing => ParkSafe(s, step);
    case PollOperation(instance) => PollOperationSafe(s, instance);
    case PollFinished => FinishedIsNotPolled(s);
    case StartRound(_) => IdleSafe(s, step);
    case EndDrain => IdleSafe(s, step);
    case StartExec => IdleSafe(s, step);
    case EndRound => IdleSafe(s, step);
  }
}
