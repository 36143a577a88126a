/** What the back-pressure protocol guarantees over every run: nobody is stranded, the
    client never gets stuck, and all scripts finish if the server answers. */
module BackpressureTheorems {
  import opened Drivers
  import opened Backpressure
  import opened BackpressureSteps
  import opened BackpressureCounts
  import opened BackpressureSafety
  import opened BackpressureSchedule
  import opened BackpressureDrain

  lemma InitSafe(sizeA: nat, sizeB: nat)
    requires 1 <= sizeA && 1 <= sizeB
    ensures Inv(Start(sizeA, sizeB))
  {
    assert Arrived(Start(sizeA, sizeB)) == {};
  }

  lemma ServerStepSched(s: System, step: Step)
    requires Inv(s) && Can(s, step) && (step.Take? || step.Respond?)
    ensures Sched(Do(s, step))
  {
    ServerSafe(s, step);
    ServerSched(s, Do(s, step));
  }

  lemma RoundSched(s: System, step: Step)
    requires Inv(s) && Can(s, step)
    requires step.StartRound? || step.EndDrain? || step.StartExec? || step.StartPoll? || step.EndRound? || step.Spawn?
    ensures Sched(Do(s, step))
  {
    match step
    case StartRound(snapshot) => StartRoundSched(s, snapshot);
    case EndDrain => EndDrainSched(s);
    case StartExec => StartExecSched(s);
    case StartPoll => StartPollSched(s);
    case EndRound => EndRoundSched(s);
    case Spawn(ops) => SpawnSched(s, ops);
  }

  lemma DrainStepSched(s: System)
    requires Inv(s) && Sized(s) && Can(s, DrainOne)
    ensures Sched(Do(s, DrainOne))
  {
    var id, t := DrainIsDrainStep(s);
    DrainSched(s, Do(s, DrainOne), id, t);
  }

  lemma PollOperationSched(s: System, instance: nat)
    requires Inv(s) && Can(s, PollOperation(instance))
    ensures Sched(Do(s, PollOperation(instance)))
  {
    CurrentNotQueued(s);
    assert TaskOk(s, s.phase.task);
    if s.driver.ops[Current(s).state.id].state.Submitted? {
      PollPendingLinked(s, instance);
      PollPendingSched(s, Do(s, PollOperation(instance)));
    } else {
      PollReadySched(s, instance);
    }
  }

  lemma PollSched(s: System, step: Step)
    requires Inv(s) && Sized(s) && Can(s, step)
    requires step.GetSlot? || step.ParkForSlot? || step.SendEntry? || step.ParkForRing?
    ensures Sched(Do(s, step))
  {
    match step
    case GetSlot(id) => GetSlotSched(s, id);
    case ParkForSlot => ParkForSlotSched(s);
    case SendEntry => SendEntrySched(s);
    case ParkForRing => ParkForRingSched(s);
  }

  /** Every step keeps the runtime from stranding anybody, for rings of the right sizes. */
  lemma StepInv(s: System, step: Step)
    requires Inv(s) && Sized(s) && Can(s, step)
    ensures Inv(Do(s, step))
  {
    StepSafe(s, step);
    if step.Take? || step.Respond? {
      ServerStepSched(s, step);
    } else if step.DrainOne? {
      DrainStepSched(s);
    } else if step.PollOperation? {
      PollOperationSched(s, step.instance);
    } else if step.GetSlot? || step.ParkForSlot? || step.SendEntry? || step.ParkForRing? {
      PollSched(s, step);
    } else if step.PollFinished? {
      FinishedIsNotPolled(s);
    } else {
      RoundSched(s, step);
    }
  }

  lemma StepKeepsSizes(s: System, step: Step)
    requires Can(s, step)
    ensures Do(s, step).sizeA == s.sizeA && Do(s, step).sizeB == s.sizeB
  {
  }

  lemma NextInv(s: System, s': System)
    requires Safe(s) && Next(s, s')
    ensures Safe(s') && s'.sizeA == s.sizeA && s'.sizeB == s.sizeB
    ensures Sched(s) && Sized(s) ==> Sched(s')
  {
    var step: Step :| Can(s, step) && s' == Do(s, step);
    StepSafe(s, step);
    StepKeepsSizes(s, step);
    if Sched(s) && Sized(s) {
      StepInv(s, step);
    }
  }

  lemma {:induction false} RunInv(sizeA: nat, sizeB: nat, run: seq<System>, i: nat)
    requires Run(sizeA, sizeB, run) && 1 <= sizeA && 1 <= sizeB && i < |run|
    ensures Safe(run[i]) && run[i].sizeA == sizeA && run[i].sizeB == sizeB
    ensures 4 <= sizeA && sizeB <= sizeA ==> Sched(run[i])
  {
    if i == 0 {
      InitSafe(sizeA, sizeB);
    } else {
      var p := i - 1;
      RunInv(sizeA, sizeB, run, p);
      assert Next(run[p], run[p + 1]);
      NextInv(run[p], run[i]);
    }
  }

  ghost predicate Reachable(sizeA: nat, sizeB: nat, s: System) {
    exists run :: Run(sizeA, sizeB, run) && run[|run| - 1] == s
  }

  lemma ReachStart(sizeA: nat, sizeB: nat)
    ensures Reachable(sizeA, sizeB, Start(sizeA, sizeB))
  {
    var run := [Start(sizeA, sizeB)];
    assert Run(sizeA, sizeB, run) && run[|run| - 1] == Start(sizeA, sizeB);
  }

  lemma ReachNext(sizeA: nat, sizeB: nat, s: System, step: Step)
    requires Reachable(sizeA, sizeB, s) && Can(s, step)
    ensures Reachable(sizeA, sizeB, Do(s, step))
  {
    var run :| Run(sizeA, sizeB, run) && run[|run| - 1] == s;
    var s' := Do(s, step);
    assert Next(s, s');
    Extend(sizeA, sizeB, run, s');
  }

  lemma Extend(sizeA: nat, sizeB: nat, run: seq<System>, s': System)
    requires Run(sizeA, sizeB, run) && Next(run[|run| - 1], s')
    ensures Reachable(sizeA, sizeB, s')
  {
    var longer := run + [s'];
    forall i {:trigger Next(longer[i], longer[i + 1])} | 0 <= i < |longer| - 1
      ensures Next(longer[i], longer[i + 1])
    {
      if i < |run| - 1 {
        assert Next(run[i], run[i + 1]);
      }
    }
    assert Run(sizeA, sizeB, longer) && longer[|longer| - 1] == s';
  }

  lemma ReachInv(sizeA: nat, sizeB: nat, s: System)
    requires Reachable(sizeA, sizeB, s) && 1 <= sizeA && 1 <= sizeB
    ensures Safe(s) && s.sizeA == sizeA && s.sizeB == sizeB
    ensures 4 <= sizeA && sizeB <= sizeA ==> Sched(s)
  {
    var run :| Run(sizeA, sizeB, run) && run[|run| - 1] == s;
    RunInv(sizeA, sizeB, run, |run| - 1);
  }

  // ------------------------------------------------------------- main results

  /** Whatever the ring sizes, nothing panics, now or in any next step. */
  lemma NothingPanics(sizeA: nat, sizeB: nat, run: seq<System>, i: nat)
    requires Run(sizeA, sizeB, run) && 1 <= sizeA && 1 <= sizeB && i < |run|
    ensures !run[i].panicked
    ensures forall step: Step :: Can(run[i], step) ==> !Do(run[i], step).panicked
  {
    RunInv(sizeA, sizeB, run, i);
    forall step: Step | Can(run[i], step) ensures !Do(run[i], step).panicked {
      StepSafe(run[i], step);
    }
  }

  /** No stranded submitter: whenever a round of the executor has ended with a task
      parked, some operation is in flight whose response will wake a parked task, and no
      task but one holds a slot while it is parked for ring space. */
  lemma NobodyIsStranded(sizeA: nat, sizeB: nat, run: seq<System>, i: nat)
    requires Run(sizeA, sizeB, run) && 4 <= sizeA && 1 <= sizeB <= sizeA && i < |run|
    ensures !Stranded(run[i])
    ensures forall t, u :: t in run[i].pending && u in run[i].pending && IsR(run[i], t) && IsR(run[i], u) ==> t == u
  {
    RunInv(sizeA, sizeB, run, i);
    if run[i].phase.Boundary? {
      assert ToPoll(run[i]) == [];
    }
  }

  predicate AllFinished(s: System) {
    forall t :: 0 <= t < |s.tasks| ==> s.tasks[t].state.Finished?
  }

  /** At a round boundary nothing waits to be polled, exactly as many operations have
      been finished as responses have been drained, and every task has finished exactly
      if that is all of them. Unless somebody can be stranded, either every task has
      finished or some operation is in flight. */
  lemma BoundaryProgress(sizeA: nat, sizeB: nat, run: seq<System>, i: nat)
    requires Run(sizeA, sizeB, run) && 1 <= sizeA && 1 <= sizeB && i < |run| && run[i].phase.Boundary?
    ensures var s := run[i];
      && s.queue == []
      && Remaining(s.tasks) + s.drained == s.spawned
      && (AllFinished(s) <==> s.drained == s.spawned)
      && (4 <= sizeA && sizeB <= sizeA ==> AllFinished(s) || InFlight(s) != [])
  {
    RunInv(sizeA, sizeB, run, i);
    BoundaryFacts(run[i]);
  }

  lemma BoundaryFacts(s: System)
    requires Safe(s) && s.phase.Boundary?
    ensures Sched(s) ==> AllFinished(s) || InFlight(s) != []
    ensures AllFinished(s) <==> Remaining(s.tasks) == 0
  {
    assert ToPoll(s) == [];
    RemainingZero(s.tasks);
    forall t | 0 <= t < |s.tasks|
      ensures s.tasks[t].state.Finished? <==> s.tasks[t].left == 0
      ensures s.tasks[t].state.Finished? || t in s.pending || InFlight(s) != []
    {
      assert TaskOk(s, t);
    }
  }

  /** Between two round boundaries, what is left to finish shrinks by exactly the
      responses drained, up to what has been newly spawned. */
  lemma RoundsFinishOperations(sizeA: nat, sizeB: nat, run: seq<System>, i: nat, j: nat)
    requires Run(sizeA, sizeB, run) && 1 <= sizeA && 1 <= sizeB && i <= j < |run|
    requires run[i].phase.Boundary? && run[j].phase.Boundary?
    ensures Remaining(run[j].tasks) - run[j].spawned + (run[j].drained - run[i].drained)
            == Remaining(run[i].tasks) - run[i].spawned
  {
    BoundaryProgress(sizeA, sizeB, run, i);
    BoundaryProgress(sizeA, sizeB, run, j);
  }

  /** Transfers still to happen: each operation is sent, taken, answered and drained. */
  ghost function Transfers(s: System): int {
    4 * (Remaining(s.tasks) - |Arrived(s)| - |InFlight(s)|) + 3 * |s.ringA| + 2 * |s.held| + |s.ringB|
  }

  lemma {:induction false} OwnersCard(ids: set<OpId>, owner: map<OpId, TaskId>)
    requires ids <= owner.Keys
    requires forall x, y :: x in ids && y in ids && owner[x] == owner[y] ==> x == y
    ensures |set id | id in ids :: owner[id]| == |ids|
    decreases |ids|
  {
    if ids != {} {
      var x :| x in ids;
      var rest := ids - {x};
      OwnersCard(rest, owner);
      assert (set id | id in ids :: owner[id]) == (set id | id in rest :: owner[id]) + {owner[x]};
    }
  }

  /** Each slot in flight or arrived belongs to a task of its own with work left. */
  lemma SlotsCovered(s: System)
    requires Linked(s)
    ensures |InFlight(s)| + |Arrived(s)| <= Remaining(s.tasks)
  {
    var ids := Way(s) + Arrived(s);
    forall id | id in ids
      ensures id in s.owner && s.owner[id] < |s.tasks| && s.tasks[s.owner[id]].state == Awaiting(id)
      ensures s.tasks[s.owner[id]].left > 0 && (id in Way(s) ==> id !in Arrived(s))
    {
      SentIsAwaited(s, id);
    }
    OwnersCard(ids, s.owner);
    RemainingCovers(s.tasks, set id | id in ids :: s.owner[id]);
    DistinctCard(InFlight(s));
    assert Way(s) !! Arrived(s);
  }

  lemma SentIsAwaited(s: System, id: OpId)
    requires Linked(s) && (id in InFlight(s) || id in Arrived(s))
    ensures id in s.owner && s.owner[id] < |s.tasks| && s.tasks[s.owner[id]].state == Awaiting(id)
    ensures s.tasks[s.owner[id]].left > 0 && (id in InFlight(s) ==> id !in Arrived(s))
  {
    assert SlotOk(s, id);
    assert TaskOk(s, s.owner[id]);
  }

  lemma TransfersAreNatural(s: System)
    requires Linked(s)
    ensures Transfers(s) >= 0
  {
    SlotsCovered(s);
  }
}
