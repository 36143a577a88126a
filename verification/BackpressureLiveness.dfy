/** Every script finishes if the server answers: the client can always go on, each round
    ends, only finitely many transfers can happen, while anything is left to do some
    transfer is due, and so a bounded number of rounds in which due transfers happen
    finishes everything. */
module BackpressureLiveness {
  import opened Prelude
  import opened Drivers
  import opened Backpressure
  import opened BackpressureSteps
  import opened BackpressureCounts
  import opened BackpressureSafety
  import opened BackpressureTheorems

  predicate IsTransfer(step: Step) {
    step.SendEntry? || step.Take? || step.Respond? || step.DrainOne?
  }

  function SpawnedBy(step: Step): nat {
    if step.Spawn? then step.ops else 0
  }

  lemma PollOperationTransfers(s: System, instance: nat)
    requires Linked(s) && Can(s, PollOperation(instance))
    ensures Transfers(Do(s, PollOperation(instance))) == Transfers(s)
  {
    CurrentNotQueued(s);
    var id := Current(s).state.id;
    assert TaskOk(s, s.phase.task);
    if s.driver.ops[id].state.Submitted? {
      PollPendingLinked(s, instance);
    } else {
      ReadyCounts(s, instance);
      assert |Arrived(s) - {id}| == |Arrived(s)| - 1;
    }
  }

  lemma DrainTransfers(s: System)
    requires Linked(s) && Can(s, DrainOne)
    ensures Transfers(Do(s, DrainOne)) == Transfers(s) - 1
  {
    var id, t := DrainIsDrainStep(s);
    DrainViews(s, Do(s, DrainOne), id, t);
  }

  lemma PollTransfers(s: System, step: Step)
    requires Linked(s) && Can(s, step) && (step.GetSlot? || step.SendEntry?)
    ensures Transfers(Do(s, step)) == Transfers(s) - (if step.SendEntry? then 1 else 0)
  {
    var s' := Do(s, step);
    assert Arrived(s') == Arrived(s);
    RemainingUpdate(s.tasks, s.phase.task, s'.tasks[s.phase.task]);
  }

  lemma SpawnTransfers(s: System, ops: nat)
    requires Linked(s) && Can(s, Spawn(ops))
    ensures Transfers(Do(s, Spawn(ops))) == Transfers(s) + 4 * ops
  {
    assert Arrived(Do(s, Spawn(ops))) == Arrived(s);
    RemainingAppend(s.tasks, Task(WantSlot, ops));
  }

  /** Steps that only move a task between queues or the round to its next phase. */
  lemma OtherTransfers(s: System, step: Step)
    requires Linked(s) && Can(s, step)
    requires !IsTransfer(step) && !step.Spawn? && !step.PollOperation? && !step.GetSlot?
    ensures Transfers(Do(s, step)) == Transfers(s)
  {
    var s' := Do(s, step);
    assert s'.tasks == s.tasks && s'.driver == s.driver && InFlight(s') == InFlight(s);
    assert Arrived(s') == Arrived(s);
  }

  lemma ServerTransfers(s: System, step: Step)
    requires Linked(s) && Can(s, step) && (step.Take? || step.Respond?)
    ensures Transfers(Do(s, step)) == Transfers(s) - 1
  {
    assert Arrived(Do(s, step)) == Arrived(s);
  }

  /** Every transfer uses up one of the transfers still to happen, no other step does,
      and only spawning adds any: four for each operation. */
  lemma TransfersRunDown(s: System, step: Step)
    requires Linked(s) && Can(s, step)
    ensures Transfers(Do(s, step)) == Transfers(s) + 4 * SpawnedBy(step) - (if IsTransfer(step) then 1 else 0)
    ensures Transfers(s) >= 0
  {
    TransfersAreNatural(s);
    if step.Take? || step.Respond? {
      ServerTransfers(s, step);
    } else if step.DrainOne? {
      DrainTransfers(s);
    } else if step.PollOperation? {
      PollOperationTransfers(s, step.instance);
    } else if step.GetSlot? || step.SendEntry? {
      PollTransfers(s, step);
    } else if step.Spawn? {
      SpawnTransfers(s, step.ops);
    } else {
      OtherTransfers(s, step);
    }
  }

  // ------------------------------------------------------------ the client

  predicate IsServer(step: Step) {
    step.Take? || step.Respond?
  }

  /** What is left of the current round, to be compared lexicographically. */
  function RoundLeft(s: System): (nat, nat, nat) {
    match s.phase
    case Boundary => (0, 0, 0)
    case Draining(snapshot) => (3, snapshot, 0)
    case Root => (2, 0, 0)
    case Executing(count) => (1, 2 * count, 0)
    case Polling(t, count) => (1, 2 * count + 1, if t < |s.tasks| then PollLeft(s.tasks[t]) else 0)
  }

  function PollLeft(task: Task): nat {
    3 * task.left + (match task.state case WantSlot => 2 case WantRing(_) => 1 case Awaiting(_) => 0 case Finished => 0)
  }

  predicate Before(a: (nat, nat, nat), b: (nat, nat, nat)) {
    a.0 < b.0 || (a.0 == b.0 && (a.1 < b.1 || (a.1 == b.1 && a.2 < b.2)))
  }

  lemma PollOperationEnds(s: System, instance: nat)
    requires Linked(s) && Can(s, PollOperation(instance))
    ensures Before(RoundLeft(Do(s, PollOperation(instance))), RoundLeft(s))
  {
    CurrentNotQueued(s);
    assert TaskOk(s, s.phase.task);
  }

  /** Each round ends: every client step but those that begin one or spawn a task
      brings it nearer, and the server cannot hold it up. */
  lemma RoundsEnd(s: System, step: Step)
    requires Linked(s) && Can(s, step) && !step.StartRound? && !step.Spawn?
    ensures if IsServer(step) then RoundLeft(Do(s, step)) == RoundLeft(s)
            else Before(RoundLeft(Do(s, step)), RoundLeft(s))
  {
    if step.PollOperation? {
      PollOperationEnds(s, step.instance);
    } else if step.PollFinished? {
      FinishedIsNotPolled(s);
    }
  }

  /** The client is never stuck within a round: in particular the executor's queue is
      never empty when a counted task is to be popped, and no poll runs into a state
      it cannot handle. */
  lemma ClientNeverStuck(s: System) returns (step: Step)
    requires Safe(s)
    ensures Can(s, step) && !IsServer(step) && !step.Spawn?
    ensures s.phase.Executing? && s.phase.count > 0 ==> s.queue != []
  {
    match s.phase
    case Boundary => step := StartRound(|s.ringB|);
    case Draining(snapshot) => step := if snapshot == 0 then EndDrain else DrainOne;
    case Root => step := StartExec;
    case Executing(count) => step := if count == 0 then EndRound else StartPoll;
    case Polling(t, count) =>
      CurrentNotQueued(s);
      assert TaskOk(s, t);
      match s.tasks[t].state
      case WantSlot =>
        if HasRoom(s.driver) {
          var id := FreshNumber(s.driver.ops.Keys);
          step := GetSlot(id);
        } else {
          step := ParkForSlot;
        }
      case WantRing(_) => step := if |s.ringA| + 1 < s.sizeA then SendEntry else ParkForRing;
      case Awaiting(_) => step := PollOperation(0);
  }

  /** At a round boundary, the next drain has a response to deliver, or the server has a
      request to answer and room to answer it, or a request to take. */
  predicate Due(s: System) {
    || (s.ringB != [] && Can(s, StartRound(|s.ringB|)) && Can(Do(s, StartRound(|s.ringB|)), DrainOne))
    || Can(s, Respond(0))
    || Can(s, Take)
  }

  /** While a task has not finished, a transfer is due at every round boundary. */
  lemma WorkCanGoOn(sizeA: nat, sizeB: nat, run: seq<System>, i: nat)
    requires Run(sizeA, sizeB, run) && 4 <= sizeA && 2 <= sizeB <= sizeA && i < |run| && run[i].phase.Boundary?
    requires !AllFinished(run[i])
    ensures Due(run[i])
  {
    RunInv(sizeA, sizeB, run, i);
    BoundaryProgress(sizeA, sizeB, run, i);
    assert InFlight(run[i]) == run[i].ringA + run[i].held + run[i].ringB;
  }

  // --------------------------------------------------------- counting transfers

  ghost predicate Moved(s: System, s': System) {
    exists step: Step :: IsTransfer(step) && Can(s, step) && s' == Do(s, step)
  }

  /** How many of the steps from `i` to `j` were transfers. */
  ghost function Moves(run: seq<System>, i: nat, j: nat): nat
    requires i <= j < |run|
  {
    if i == j then 0 else Moves(run, i, j - 1) + if Moved(run[j - 1], run[j]) then 1 else 0
  }

  lemma StepSpawns(s: System, step: Step)
    requires Can(s, step)
    ensures Do(s, step).spawned == s.spawned + SpawnedBy(step)
  {
  }

  lemma NextTransfers(s: System, s': System)
    requires Linked(s) && Next(s, s')
    ensures s.spawned <= s'.spawned
    ensures Transfers(s') == Transfers(s) + 4 * (s'.spawned - s.spawned) - (if Moved(s, s') then 1 else 0)
  {
    var step: Step :| Can(s, step) && s' == Do(s, step);
    if Moved(s, s') {
      step :| IsTransfer(step) && Can(s, step) && s' == Do(s, step);
    }
    TransfersRunDown(s, step);
    StepSpawns(s, step);
  }

  lemma RunTransfers(sizeA: nat, sizeB: nat, run: seq<System>, p: nat)
    requires Run(sizeA, sizeB, run) && 1 <= sizeA && 1 <= sizeB && p + 1 < |run|
    ensures run[p].spawned <= run[p + 1].spawned
    ensures Transfers(run[p + 1]) == Transfers(run[p]) + 4 * (run[p + 1].spawned - run[p].spawned)
                                     - (if Moved(run[p], run[p + 1]) then 1 else 0)
  {
    RunInv(sizeA, sizeB, run, p);
    assert Next(run[p], run[p + 1]);
    NextTransfers(run[p], run[p + 1]);
  }

  /** The transfers between two points of a run are exactly those that were left, with
      the ones added by spawning, and are no longer; there are never fewer than none. */
  lemma {:induction false} TransfersCounted(sizeA: nat, sizeB: nat, run: seq<System>, i: nat, j: nat)
    requires Run(sizeA, sizeB, run) && 1 <= sizeA && 1 <= sizeB && i <= j < |run|
    ensures run[i].spawned <= run[j].spawned
    ensures Moves(run, i, j) == Transfers(run[i]) - Transfers(run[j]) + 4 * (run[j].spawned - run[i].spawned)
    ensures Transfers(run[j]) >= 0
    decreases j - i
  {
    RunInv(sizeA, sizeB, run, j);
    TransfersAreNatural(run[j]);
    if i < j {
      TransfersCounted(sizeA, sizeB, run, i, j - 1);
      RunTransfers(sizeA, sizeB, run, j - 1);
    }
  }

  /** At a round boundary every task has finished exactly if no transfer is left. */
  lemma NothingLeft(s: System)
    requires Safe(s) && s.phase.Boundary?
    ensures AllFinished(s) <==> Transfers(s) == 0
    ensures |InFlight(s)| <= Transfers(s) <= 4 * Remaining(s.tasks)
  {
    BoundaryFacts(s);
    SlotsCovered(s);
  }

  /** What all rounds but the last bring about, counted in rounds. */
  lemma {:induction false} RoundsRunDown(sizeA: nat, sizeB: nat, run: seq<System>, bs: seq<nat>, k: nat)
    requires Run(sizeA, sizeB, run) && 4 <= sizeA && 2 <= sizeB <= sizeA && Responsive(run, bs) && k < |bs|
    ensures Transfers(run[bs[k]]) == 0 || Transfers(run[bs[k]]) + k <= Transfers(run[bs[0]])
  {
    if k > 0 {
      RoundsRunDown(sizeA, sizeB, run, bs, k - 1);
      var b, b' := bs[k - 1], bs[k];
      assert b < b';
      TransfersCounted(sizeA, sizeB, run, b, b');
      RunInv(sizeA, sizeB, run, b);
      NothingLeft(run[b]);
      if !AllFinished(run[b]) {
        WorkCanGoOn(sizeA, sizeB, run, b);
      }
    }
  }

  /** Round boundaries of a run without further spawning, between any two of which some
      transfer happens if one is due at the first. */
  ghost predicate Responsive(run: seq<System>, bs: seq<nat>) {
    && |bs| > 0 && bs[0] < |run|
    && (forall k :: 0 <= k < |bs| ==>
          bs[k] < |run| && run[bs[k]].phase.Boundary? && run[bs[k]].spawned == run[bs[0]].spawned)
    && (forall k :: 0 < k < |bs| ==>
          bs[k - 1] < bs[k] && (Due(run[bs[k - 1]]) ==> Moves(run, bs[k - 1], bs[k]) > 0))
  }

  /** All submitting tasks finish if the server answers everything: once there have been
      more such boundaries than four times the operations left at the first, every task
      has finished at the last. */
  lemma AllScriptsFinish(sizeA: nat, sizeB: nat, run: seq<System>, bs: seq<nat>)
    requires Run(sizeA, sizeB, run) && 4 <= sizeA && 2 <= sizeB <= sizeA && Responsive(run, bs)
    requires |bs| > 4 * Remaining(run[bs[0]].tasks)
    ensures AllFinished(run[bs[|bs| - 1]]) && run[bs[|bs| - 1]].drained == run[bs[0]].spawned
  {
    var last := bs[|bs| - 1];
    RoundsRunDown(sizeA, sizeB, run, bs, |bs| - 1);
    RunInv(sizeA, sizeB, run, bs[0]);
    NothingLeft(run[bs[0]]);
    RunInv(sizeA, sizeB, run, last);
    NothingLeft(run[last]);
    BoundaryProgress(sizeA, sizeB, run, last);
  }
}
