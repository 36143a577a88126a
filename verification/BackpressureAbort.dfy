/** The loaded runtime when tasks may be aborted. Dropping a submit future that has parked
    leaves its waker in the deque, where it uses up the wake-up of a drained response.
    Aborting drops whatever the task awaits: a submit future, whose driver slot is lost if
    it had one, or an `Op`, which is cancelled. */
module BackpressureAbort {
  import opened Prelude
  import opened Drivers
  import opened Backpressure
  import opened BackpressureTheorems
  import opened BackpressureTight

  datatype Move = Base(step: Step) | Abort(t: TaskId)

  /** The root future aborts tasks while it is polled. */
  predicate May(s: System, m: Move) {
    match m
    case Base(step) => Can(s, step)
    case Abort(t) => s.phase.Root? && t < |s.tasks| && !s.tasks[t].state.Finished?
  }

  function Make(s: System, m: Move): System
    requires May(s, m)
  {
    match m
    case Base(step) => Do(s, step)
    case Abort(t) => AbortTask(s, t)
  }

  function AbortTask(s: System, t: TaskId): System
    requires t < |s.tasks|
  {
    var s' := s.(tasks := s.tasks[t := Task(Finished, 0)]);
    match s.tasks[t].state
    case Awaiting(id) =>
      var (driver, r) := RemoveOp(s.driver, id, Some(Some(())));
      s'.(driver := driver, panicked := s.panicked || r.RemovePanic?,
          owner := if r.Discarded? then s.owner - {id} else s.owner)
    case WantSlot => s'
    case WantRing(_) => s'
    case Finished => s'
  }

  ghost predicate NextMove(s: System, s': System) {
    exists m: Move :: May(s, m) && s' == Make(s, m)
  }

  ghost predicate AbortRun(sizeA: nat, sizeB: nat, run: seq<System>) {
    && |run| > 0 && run[0] == Start(sizeA, sizeB)
    && forall i {:trigger NextMove(run[i], run[i + 1])} :: 0 <= i < |run| - 1 ==> NextMove(run[i], run[i + 1])
  }

  ghost predicate CanReach(sizeA: nat, sizeB: nat, s: System) {
    exists run :: AbortRun(sizeA, sizeB, run) && run[|run| - 1] == s
  }

  /** A task that has not been aborted is parked, and nothing is in flight. */
  predicate StrandedAlive(s: System) {
    s.phase.Boundary? && InFlight(s) == [] && exists t :: t in s.pending && t < |s.tasks| && !s.tasks[t].state.Finished?
  }

  lemma BaseCanReach(sizeA: nat, sizeB: nat, s: System)
    requires Reachable(sizeA, sizeB, s)
    ensures CanReach(sizeA, sizeB, s)
  {
    var run :| Run(sizeA, sizeB, run) && run[|run| - 1] == s;
    forall i {:trigger NextMove(run[i], run[i + 1])} | 0 <= i < |run| - 1
      ensures NextMove(run[i], run[i + 1])
    {
      assert Next(run[i], run[i + 1]);
      var step: Step :| Can(run[i], step) && run[i + 1] == Do(run[i], step);
      assert May(run[i], Base(step)) && run[i + 1] == Make(run[i], Base(step));
    }
    assert AbortRun(sizeA, sizeB, run) && run[|run| - 1] == s;
  }

  lemma CanMove(sizeA: nat, sizeB: nat, s: System, m: Move)
    requires CanReach(sizeA, sizeB, s) && May(s, m)
    ensures CanReach(sizeA, sizeB, Make(s, m))
  {
    var run :| AbortRun(sizeA, sizeB, run) && run[|run| - 1] == s;
    var longer := run + [Make(s, m)];
    forall i {:trigger NextMove(longer[i], longer[i + 1])} | 0 <= i < |longer| - 1
      ensures NextMove(longer[i], longer[i + 1])
    {
      if i < |run| - 1 {
        assert NextMove(run[i], run[i + 1]);
      } else {
        assert May(longer[i], m) && longer[i + 1] == Make(longer[i], m);
      }
    }
    assert AbortRun(sizeA, sizeB, longer) && longer[|longer| - 1] == Make(s, m);
  }

  lemma CanStep(sizeA: nat, sizeB: nat, s: System, step: Step)
    requires CanReach(sizeA, sizeB, s) && Can(s, step)
    ensures CanReach(sizeA, sizeB, Do(s, step))
  {
    CanMove(sizeA, sizeB, s, Base(step));
  }

  // ------------------------------- as many aborted submitters as responses to come

  ghost predicate Dead(s: System, lo: nat, hi: nat) {
    lo <= hi <= |s.tasks| && forall i: nat :: lo <= i < hi ==> s.tasks[i] == Task(Finished, 0)
  }

  /** All `a` slots await a response; of the `a + 1` parked tasks `p` have been aborted. */
  ghost predicate Aborted(s: System, a: nat, b: nat, p: nat) {
    && p <= a && At(s, a, b) && s.phase.Root? && |s.tasks| == 2 * a + 1
    && Awaits(s, 0, a) && Dead(s, a, a + p) && WantsSlots(s, a + p, 2 * a + 1)
    && s.queue == [] && Up(s.pending, a, 2 * a + 1)
    && Slots(s, 0, a) && WaitingSlots(s, 0, a) && Up(s.held, 0, a) && s.ringB == []
  }

  /** `j` responses have been drained, each waking an aborted task. */
  ghost predicate Eaten(s: System, a: nat, b: nat, j: nat) {
    && j <= a && At(s, a, b) && s.phase.Boundary? && |s.tasks| == 2 * a + 1
    && Dead(s, 0, j) && Awaits(s, j, a) && Dead(s, a, 2 * a) && WantsSlots(s, 2 * a, 2 * a + 1)
    && s.queue == [] && Up(s.pending, a + j, 2 * a + 1)
    && Slots(s, j, a) && WaitingSlots(s, j, a) && Up(s.held, j, a) && s.ringB == []
  }

  lemma {:induction false} AbortAll(a: nat, b: nat, p: nat) returns (s: System)
    requires 2 <= a && p <= a
    ensures CanReach(a, b, s) && Aborted(s, a, b, p)
  {
    if p == 0 {
      var parked := ParkAll(a, b, 2 * a + 1, a + 1);
      BaseCanReach(a, b, parked);
      CanStep(a, b, parked, EndRound);
      var s1 := Do(parked, EndRound);
      CanStep(a, b, s1, StartRound(0));
      var s2 := Do(s1, StartRound(0));
      CanStep(a, b, s2, EndDrain);
      s := Do(s2, EndDrain);
    } else {
      var before := AbortAll(a, b, p - 1);
      CanMove(a, b, before, Abort(a + p - 1));
      s := Make(before, Abort(a + p - 1));
    }
  }

  /** A round that drains the one response there is, up to the polls. */
  lemma DrainToDead(a: nat, b: nat, s: System, j: nat) returns (s': System)
    requires CanReach(a, b, s) && Eaten(s, a, b, j) && j < a && 2 <= b
    ensures CanReach(a, b, s')
    ensures s' == s.(held := s.held[1..], pending := s.pending[1..], queue := [a + j, j], drained := s.drained + 1,
                     driver := Update(s.driver, j, Completed(())), phase := Executing(2))
  {
    assert s.held[0] == j && s.pending[0] == a + j;
    CanStep(a, b, s, Respond(0));
    var s1 := Do(s, Respond(0));
    assert s1 == s.(held := s.held[1..], ringB := [j]);
    CanStep(a, b, s1, StartRound(1));
    var s2 := Do(s1, StartRound(1));
    CanStep(a, b, s2, DrainOne);
    var s3 := Do(s2, DrainOne);
    assert s3 == s.(held := s.held[1..], pending := s.pending[1..], queue := [a + j, j], drained := s.drained + 1,
                    driver := Update(s.driver, j, Completed(())), phase := Draining(0));
    CanStep(a, b, s3, EndDrain);
    var s4 := Do(s3, EndDrain);
    CanStep(a, b, s4, StartExec);
    s' := Do(s4, StartExec);
  }

  /** The aborted task's poll does nothing; the other one reads its response. */
  lemma PollDead(a: nat, b: nat, s: System, dead: TaskId, t: TaskId) returns (s': System)
    requires CanReach(a, b, s) && s.phase == Executing(2) && s.queue == [dead, t] && dead != t
    requires dead < |s.tasks| && s.tasks[dead].state.Finished? && t < |s.tasks| && s.tasks[t] == Task(Awaiting(t), 1)
    requires t in s.driver.ops && s.driver.ops[t].state == Completed(())
    ensures CanReach(a, b, s')
    ensures s' == s.(tasks := s.tasks[t := Task(Finished, 0)], queue := [], phase := Boundary,
                     driver := Vacate(s.driver, t), owner := s.owner - {t})
  {
    CanStep(a, b, s, StartPoll);
    var s1 := Do(s, StartPoll);
    CanStep(a, b, s1, PollFinished);
    var s2 := Do(s1, PollFinished);
    assert s2 == s.(queue := [t], phase := Executing(1));
    CanStep(a, b, s2, StartPoll);
    var s3 := Do(s2, StartPoll);
    CanStep(a, b, s3, PollOperation(0));
    var s4 := Do(s3, PollOperation(0));
    CanStep(a, b, s4, EndRound);
    s' := Do(s4, EndRound);
  }

  lemma EatOne(a: nat, b: nat, s: System, j: nat) returns (s': System)
    requires CanReach(a, b, s) && Eaten(s, a, b, j) && j < a && 2 <= b
    ensures CanReach(a, b, s') && Eaten(s', a, b, j + 1)
  {
    var drained := DrainToDead(a, b, s, j);
    s' := PollDead(a, b, drained, a + j, j);
    assert s'.driver.ops == s.driver.ops - {j};
    assert s'.driver.ops.Keys == s.driver.ops.Keys - {j};
    assert |s'.driver.ops| == |s'.driver.ops.Keys| == |s.driver.ops.Keys| - 1;
  }

  lemma {:induction false} EatAll(a: nat, b: nat, j: nat) returns (s: System)
    requires 2 <= a && 2 <= b && j <= a
    ensures CanReach(a, b, s) && Eaten(s, a, b, j)
  {
    if j == 0 {
      var aborted := AbortAll(a, b, a);
      CanStep(a, b, aborted, StartExec);
      var s1 := Do(aborted, StartExec);
      CanStep(a, b, s1, EndRound);
      s := Do(s1, EndRound);
    } else {
      var before := EatAll(a, b, j - 1);
      s := EatOne(a, b, before, j - 1);
    }
  }

  /** Rings of any sizes that carry entries: the last response wakes an aborted task, and
      the one submitter alive stays parked although every slot is free. */
  lemma StrandedByAborts(a: nat, b: nat) returns (s: System)
    requires 2 <= a && 2 <= b
    ensures CanReach(a, b, s) && StrandedAlive(s) && s.driver.ops == map[]
  {
    s := EatAll(a, b, a);
    assert s.pending[0] == 2 * a && s.tasks[2 * a] == Task(WantSlot, 1);
  }

  // ------------------------------------------------------- the exact condition

  lemma StrandedTaskIsAlive(sizeA: nat, sizeB: nat, s: System)
    requires Reachable(sizeA, sizeB, s) && 1 <= sizeA && 1 <= sizeB && Stranded(s)
    ensures StrandedAlive(s)
  {
    ReachInv(sizeA, sizeB, s);
    var t := s.pending[0];
    assert t in s.pending && TaskOk(s, t);
  }

  lemma AbortMute(s: System, t: TaskId)
    requires Mute(s) && May(s, Abort(t))
    ensures Mute(AbortTask(s, t))
  {
    assert InFlight(AbortTask(s, t)) == InFlight(s);
  }

  lemma {:induction false} AbortRunMute(sizeA: nat, run: seq<System>, i: nat)
    requires AbortRun(sizeA, 1, run) && 2 <= sizeA && i < |run|
    ensures Mute(run[i])
  {
    if i > 0 {
      var p := i - 1;
      AbortRunMute(sizeA, run, p);
      assert NextMove(run[p], run[p + 1]);
      MoveMute(run[p], run[i]);
    }
  }

  lemma MoveMute(s: System, s': System)
    requires Mute(s) && NextMove(s, s')
    ensures Mute(s')
  {
    var m: Move :| May(s, m) && s' == Make(s, m);
    match m
    case Base(step) => StepMute(s, step);
    case Abort(t) => AbortMute(s, t);
  }

  /** With aborts the sizes that keep submitters from being stranded no longer do: for
      rings of any sizes some run strands a live submitter, except where no response can
      ever be sent and ring A takes entries. */
  lemma AbortStrandingExactly(sizeA: nat, sizeB: nat)
    requires 1 <= sizeA && 1 <= sizeB
    ensures (exists s: System :: CanReach(sizeA, sizeB, s) && StrandedAlive(s)) <==> sizeA == 1 || sizeB >= 2
  {
    if sizeA == 1 {
      var s := StrandedBySizeOne(sizeB);
      BaseCanReach(sizeA, sizeB, s);
      StrandedTaskIsAlive(sizeA, sizeB, s);
    } else if sizeB >= 2 {
      var s := StrandedByAborts(sizeA, sizeB);
    } else {
      forall s: System | CanReach(sizeA, sizeB, s) ensures !StrandedAlive(s) {
        var run :| AbortRun(sizeA, sizeB, run) && run[|run| - 1] == s;
        AbortRunMute(sizeA, run, |run| - 1);
      }
    }
  }
}
