/** The scheduling invariant of the loaded runtime, step by step: nobody is stranded
    because somebody about to be polled is bound to send. */
module BackpressureSchedule {
  import opened Drivers
  import opened Backpressure
  import opened BackpressureCounts
  import opened BackpressureSafety

  /** The sizes the argument needs: ring A holds at least three entries, and one
      drain cannot return all the driver's slots at once. */
  predicate Sized(s: System) {
    4 <= s.sizeA && s.sizeB <= s.sizeA
  }

  // ------------------------------------------------ how each part is carried on

  lemma RescueKept(s: System, s': System)
    requires Rescue(s) && s'.sizeA == s.sizeA && |s'.driver.ops| <= |s.driver.ops|
    requires (s.pending == [] ==> s'.pending == []) && (InFlight(s) != [] ==> InFlight(s') != [])
    requires ToPoll(s) <= ToPoll(s')
    requires forall t :: t in ToPoll(s) ==>
      (IsR(s, t) ==> IsR(s', t)) && (IsS(s, t) ==> IsS(s', t)) && (IsC(s, t) ==> IsC(s', t))
    ensures Rescue(s')
  {
    if exists i: nat :: WillSend(s, i) {
      var i: nat :| WillSend(s, i);
      assert ToPoll(s)[i] == ToPoll(s')[i] && ToPoll(s)[i] in ToPoll(s);
      if ArrivedBefore(s, i) {
        var j: nat :| j < i && IsC(s, ToPoll(s)[j]);
        assert ToPoll(s)[j] == ToPoll(s')[j] && ToPoll(s)[j] in ToPoll(s);
        assert ArrivedBefore(s', i);
      }
      assert WillSend(s', i);
    }
  }

  predicate Watched(s: System) {
    s.phase.Boundary? || s.phase.Draining? || InFlight(s) == []
  }

  ghost predicate RingWaiterParked(s: System) {
    exists t :: t in s.pending && IsR(s, t)
  }

  /** Dropping up to one task in front and adding non-arrived ones behind. */
  lemma AlternateKept(s: System, s': System, off: nat)
    requires Alternate(s) && (Watched(s') ==> Watched(s)) && (RingWaiterParked(s') ==> RingWaiterParked(s))
    requires off <= |ToPoll(s)| && ToPoll(s)[off..] <= ToPoll(s')
    requires forall t :: t in ToPoll(s) && IsC(s', t) ==> IsC(s, t)
    requires forall i :: |ToPoll(s)| - off <= i < |ToPoll(s')| ==> !IsC(s', ToPoll(s')[i])
    ensures Alternate(s')
  {
    if Watched(s') && RingWaiterParked(s') {
      assert RingWaiterParked(s);
      forall i | 0 < i < |ToPoll(s')| && IsC(s', ToPoll(s')[i])
        ensures !IsC(s', ToPoll(s')[i - 1])
      {
        assert ToPoll(s')[i] == ToPoll(s)[off..][i] == ToPoll(s)[i + off];
        assert ToPoll(s')[i - 1] == ToPoll(s)[off..][i - 1] == ToPoll(s)[i - 1 + off];
        assert ToPoll(s)[i + off] in ToPoll(s) && ToPoll(s)[i - 1 + off] in ToPoll(s);
      }
    }
  }

  predicate Waits(s: System, t: TaskId) {
    t in s.queue || t in s.pending
  }

  lemma OneRingWaiterKept(s: System, s': System)
    requires OneRingWaiter(s)
    requires forall t :: Waits(s', t) && IsR(s', t) ==> Waits(s, t) && IsR(s, t)
    ensures OneRingWaiter(s')
  {
    forall t, u | Waits(s', t) && Waits(s', u) && IsR(s', t) && IsR(s', u)
      ensures t == u
    {
      assert Waits(s, t) && Waits(s, u);
    }
  }

  // --------------------------------------------------- steps that move nobody

  /** Server steps touch only where the requests in flight are. */
  lemma ServerSched(s: System, s': System)
    requires Sched(s) && s' == s.(ringA := s'.ringA, held := s'.held, ringB := s'.ringB)
    requires |s.ringB| <= |s'.ringB| && (InFlight(s') == [] <==> InFlight(s) == [])
    ensures Sched(s')
  {
    assert ToPoll(s') == ToPoll(s) && Arrived(s') == Arrived(s);
    assert ToPoll(s)[0..] == ToPoll(s);
    RescueKept(s, s');
    AlternateKept(s, s', 0);
    OneRingWaiterKept(s, s');
  }

  lemma StartRoundSched(s: System, snapshot: nat)
    requires Safe(s) && Sched(s) && Can(s, StartRound(snapshot))
    ensures Sched(Do(s, StartRound(snapshot)))
  {
    var s' := Do(s, StartRound(snapshot));
    assert ToPoll(s') == ToPoll(s) == [] && Arrived(s') == Arrived(s) == {};
    RescueKept(s, s');
  }

  /** The round moves on without changing who is going to be polled. */
  lemma PhaseSched(s: System, s': System)
    requires Safe(s) && Sched(s) && s' == s.(phase := s'.phase, queue := s'.queue) && !s.phase.Boundary?
    requires ToPoll(s') == ToPoll(s) && (Watched(s') ==> Watched(s))
    requires forall t :: t in s'.queue ==> t in s.queue
    ensures Sched(s')
  {
    assert Arrived(s') == Arrived(s);
    assert ToPoll(s)[0..] == ToPoll(s);
    RescueKept(s, s');
    AlternateKept(s, s', 0);
    OneRingWaiterKept(s, s');
  }

  lemma EndDrainSched(s: System)
    requires Safe(s) && Sched(s) && Can(s, EndDrain)
    ensures Sched(Do(s, EndDrain))
  {
    assert Arrived(Do(s, EndDrain)) == Arrived(s);
    PhaseSched(s, Do(s, EndDrain));
  }

  lemma StartExecSched(s: System)
    requires Safe(s) && Sched(s) && Can(s, StartExec)
    ensures Sched(Do(s, StartExec))
  {
    assert Arrived(Do(s, StartExec)) == Arrived(s);
    PhaseSched(s, Do(s, StartExec));
  }

  lemma StartPollSched(s: System)
    requires Safe(s) && Sched(s) && Can(s, StartPoll)
    ensures Sched(Do(s, StartPoll))
  {
    var s' := Do(s, StartPoll);
    assert ToPoll(s') == ToPoll(s) && Arrived(s') == Arrived(s);
    PhaseSched(s, s');
  }

  lemma EndRoundSched(s: System)
    requires Safe(s) && Sched(s) && Can(s, EndRound)
    ensures Sched(Do(s, EndRound))
  {
    var s' := Do(s, EndRound);
    assert ToPoll(s') == ToPoll(s) == [];
    assert Arrived(s') == Arrived(s) == {} by {
      if Arrived(s) != {} {
        var id :| id in Arrived(s);
        var i := ArrivedIsQueued(s, id);
      }
    }
    RescueKept(s, s');
    OneRingWaiterKept(s, s');
  }

  lemma SpawnViews(s: System, ops: nat)
    requires Linked(s) && Can(s, Spawn(ops))
    ensures var s' := Do(s, Spawn(ops));
      && ToPoll(s') == ToPoll(s) + [|s.tasks|] && ToPoll(s)[0..] == ToPoll(s) && Arrived(s') == Arrived(s)
      && InFlight(s') == InFlight(s) && !IsC(s', |s.tasks|) && !IsR(s', |s.tasks|)
      && forall t: TaskId :: t < |s.tasks| ==> (IsC(s', t) <==> IsC(s, t)) && (IsR(s', t) <==> IsR(s, t)) && (IsS(s', t) <==> IsS(s, t))
  {
    assert ToPoll(Do(s, Spawn(ops))) == ToPoll(s) + [|s.tasks|];
  }

  lemma SpawnAlternate(s: System, ops: nat)
    requires Linked(s) && Alternate(s) && Can(s, Spawn(ops))
    ensures Alternate(Do(s, Spawn(ops)))
  {
    SpawnViews(s, ops);
    AlternateKept(s, Do(s, Spawn(ops)), 0);
  }

  lemma SpawnSched(s: System, ops: nat)
    requires Safe(s) && Sched(s) && Can(s, Spawn(ops))
    ensures Sched(Do(s, Spawn(ops)))
  {
    var s' := Do(s, Spawn(ops));
    SpawnViews(s, ops);
    RemainingAppend(s.tasks, Task(WantSlot, ops));
    RescueKept(s, s');
    SpawnAlternate(s, ops);
    OneRingWaiterKept(s, s');
  }

  // ------------------------------------------------------- steps inside a poll

  lemma GetSlotViews(s: System, id: OpId)
    requires Linked(s) && Can(s, GetSlot(id))
    ensures var s' := Do(s, GetSlot(id));
      && ToPoll(s') == ToPoll(s) && Arrived(s') == Arrived(s)
      && IsR(s', s.phase.task) && !IsC(s', s.phase.task)
      && forall t: TaskId :: t < |s.tasks| && t != s.phase.task ==> (IsC(s', t) <==> IsC(s, t)) && (IsR(s', t) <==> IsR(s, t))
  {
    var s' := Do(s, GetSlot(id));
    assert ToPoll(s') == ToPoll(s);
    assert Arrived(s') == Arrived(s);
    forall t: TaskId | t < |s.tasks| && t != s.phase.task ensures IsC(s', t) <==> IsC(s, t) {
      assert TaskOk(s, t);
    }
  }

  lemma GetSlotSched(s: System, id: OpId)
    requires Safe(s) && Sched(s) && Can(s, GetSlot(id))
    ensures Sched(Do(s, GetSlot(id)))
  {
    var s' := Do(s, GetSlot(id));
    CurrentNotQueued(s);
    GetSlotViews(s, id);
    assert ToPoll(s)[0..] == ToPoll(s);
    RemainingUpdate(s.tasks, s.phase.task, s'.tasks[s.phase.task]);
    assert WillSend(s', 0);
    AlternateKept(s, s', 0);
    OneRingWaiterKept(s, s');
  }

  /** Once something has been sent in this round, nobody can be stranded. */
  lemma InFlightRescues(s: System)
    requires InFlight(s) != [] && !s.phase.Boundary? && !s.phase.Draining?
    ensures Rescue(s) && Alternate(s)
  {
  }

  lemma ParkForRingSched(s: System)
    requires Safe(s) && Sched(s) && Sized(s) && Can(s, ParkForRing)
    ensures Sched(Do(s, ParkForRing))
  {
    var s' := Do(s, ParkForRing);
    CurrentNotQueued(s);
    InFlightRescues(s');
    assert Arrived(s') == Arrived(s);
    forall t | Waits(s', t) && IsR(s', t)
      ensures t == s.phase.task
    {
      if t != s.phase.task {
        assert t in s.queue ==> t in ToPoll(s)[1..];
        NoOtherRingWaiter(s, t);
      }
    }
  }

  lemma SendEntrySched(s: System)
    requires Safe(s) && Sched(s) && Can(s, SendEntry)
    ensures Sched(Do(s, SendEntry))
  {
    var s' := Do(s, SendEntry);
    CurrentNotQueued(s);
    assert s'.ringA[|s.ringA|] in InFlight(s');
    InFlightRescues(s');
    assert Arrived(s') == Arrived(s);
    RemainingUpdate(s.tasks, s.phase.task, s'.tasks[s.phase.task]);
    OneRingWaiterKept(s, s');
  }

  lemma PollPendingSched(s: System, s': System)
    requires Safe(s) && Sched(s) && PollingIn(s) && InFlight(s) != []
    requires s' == Suspend(s).(driver := s'.driver) && Arrived(s') == Arrived(s)
    ensures Sched(s')
  {
    InFlightRescues(s');
    OneRingWaiterKept(s, s');
  }

  // ------------------------------------------------ a submitter finds no slot

  lemma IndexOf(q: seq<nat>, x: nat) returns (i: nat)
    requires x in q
    ensures i < |q| && q[i] == x
  {
    i :| 0 <= i < |q| && q[i] == x;
  }

  /** What is behind the polled task and not an arrived response is a submitter. */
  lemma BehindIsSubmitter(s: System, i: nat)
    requires Linked(s) && s.phase.Polling? && 0 < i < |ToPoll(s)| && !IsC(s, ToPoll(s)[i])
    ensures IsS(s, ToPoll(s)[i]) || IsR(s, ToPoll(s)[i])
  {
    var t := ToPoll(s)[i];
    assert ToPoll(s)[0] == s.phase.task && t in ToPoll(s);
    assert TaskOk(s, t);
  }

  /** Two arrived responses, alternating with woken submitters, have one between. */
  lemma SubmitterBetween(s: System, i: nat, j: nat) returns (m: nat)
    requires Linked(s) && s.phase.Polling? && 0 < i < j < |ToPoll(s)|
    requires IsC(s, ToPoll(s)[i]) && IsC(s, ToPoll(s)[j]) && !IsC(s, ToPoll(s)[j - 1])
    ensures i < m < |ToPoll(s)| && (IsS(s, ToPoll(s)[m]) || IsR(s, ToPoll(s)[m]))
  {
    m := j - 1;
    BehindIsSubmitter(s, m);
  }

  /** The heart of the matter: if the submitter being polled finds every slot taken and
      nothing is in flight, a later one in this round is bound to send. */
  lemma ParkedIsRescued(s: System) returns (m: nat)
    requires Safe(s) && Sched(s) && Sized(s) && Can(s, ParkForSlot) && InFlight(s) == []
    ensures 0 < m < |ToPoll(s)|
    ensures IsR(s, ToPoll(s)[m]) || (IsS(s, ToPoll(s)[m]) && exists j: nat :: 0 < j < m && IsC(s, ToPoll(s)[j]))
  {
    var cur := s.phase.task;
    assert ToPoll(s)[0] == cur;
    ManyArrived(s);
    assert Reserved(s) != {};
    var r :| r in Reserved(s);
    var w := ReservedOwner(s, r);
    if w in ToPoll(s) {
      m := IndexOf(ToPoll(s), w);
    } else {
      assert w in s.pending && IsR(s, w);
      var x, y := TwoOf(Arrived(s));
      var i := ArrivedIsQueued(s, x);
      var j := ArrivedIsQueued(s, y);
      assert i != 0 && j != 0 && i != j;
      if i < j {
        m := SubmitterBetween(s, i, j);
      } else {
        m := SubmitterBetween(s, j, i);
      }
    }
  }

  lemma ParkForSlotRescue(s: System)
    requires Safe(s) && Sched(s) && Sized(s) && Can(s, ParkForSlot)
    ensures Rescue(Park(s))
  {
    if InFlight(s) == [] {
      var m := ParkedIsRescued(s);
      CurrentNotQueued(s);
      BehindWillSend(s, m);
      assert WillSend(Park(s), m - 1);
    }
  }

  lemma BehindWillSend(s: System, m: nat)
    requires s.phase.Polling? && 0 < m < |ToPoll(s)| && ToPoll(s)[1..] == s.queue
    requires IsR(s, ToPoll(s)[m]) || (IsS(s, ToPoll(s)[m]) && exists j: nat :: 0 < j < m && IsC(s, ToPoll(s)[j]))
    ensures WillSend(Park(s), m - 1)
  {
    var s' := Park(s);
    assert ToPoll(s')[m - 1] == ToPoll(s)[m];
    if !IsR(s, ToPoll(s)[m]) {
      var j: nat :| 0 < j < m && IsC(s, ToPoll(s)[j]);
      assert ToPoll(s')[j - 1] == ToPoll(s)[j] && IsC(s', ToPoll(s')[j - 1]);
      assert ArrivedBefore(s', m - 1);
    }
  }

  lemma ParkForSlotSched(s: System)
    requires Safe(s) && Sched(s) && Sized(s) && Can(s, ParkForSlot)
    ensures Sched(Do(s, ParkForSlot))
  {
    var s' := Park(s);
    assert Arrived(s') == Arrived(s);
    ParkForSlotRescue(s);
    CurrentNotQueued(s);
    assert ToPoll(s') == ToPoll(s)[1..];
    ParkedNoWaiter(s);
    AlternateKept(s, s', 1);
    OneRingWaiterKept(s, s');
  }

  lemma ParkedNoWaiter(s: System)
    requires Can(s, ParkForSlot)
    ensures RingWaiterParked(Park(s)) ==> RingWaiterParked(s)
    ensures forall t :: Waits(Park(s), t) && IsR(Park(s), t) ==> Waits(s, t) && IsR(s, t)
  {
    var s' := Park(s);
    assert !IsR(s', s.phase.task);
    if RingWaiterParked(s') {
      var t :| t in s'.pending && IsR(s', t);
      assert t in s.pending && IsR(s, t);
    }
  }

  // ------------------------------------------------------ a response is read

  /** What reading an arrived response changes in everybody's eyes. */
  predicate Read(s: System, s': System) {
    && PollingIn(s) && IsC(s, s.phase.task) && !IsC(s', s.phase.task) && !IsR(s', s.phase.task)
    && s'.pending == s.pending && InFlight(s') == InFlight(s) && s'.sizeA == s.sizeA
    && s'.queue == s.queue && |s'.driver.ops| < s.sizeA
    && |s'.tasks| == |s.tasks|
    && (forall t: TaskId :: t < |s.tasks| && t != s.phase.task ==> s'.tasks[t] == s.tasks[t] && (IsC(s', t) <==> IsC(s, t)))
    && ((IsS(s', s.phase.task) && s'.phase == s.phase) || s'.phase == Executing(s.phase.count))
  }

  lemma ReadyIsRead(s: System, instance: nat)
    requires Linked(s) && Can(s, PollOperation(instance))
    requires var id := Current(s).state.id; id in s.driver.ops && s.driver.ops[id].state.Completed?
    ensures Read(s, Do(s, PollOperation(instance)))
  {
    var s' := Do(s, PollOperation(instance));
    var cur, id := s.phase.task, Current(s).state.id;
    assert TaskOk(s, cur);
    assert s'.driver == Vacate(s.driver, id);
    assert |s'.driver.ops.Keys| == |s.driver.ops.Keys - {id}|;
    OthersUnread(s, s', id);
  }

  /** Freeing the polled task's slot leaves everybody else's response where it is. */
  lemma OthersUnread(s: System, s': System, id: OpId)
    requires Linked(s) && PollingIn(s) && Current(s).state == Awaiting(id) && s'.driver == Vacate(s.driver, id)
    requires |s'.tasks| == |s.tasks|
    requires forall t: TaskId :: t < |s.tasks| && t != s.phase.task ==> s'.tasks[t] == s.tasks[t]
    ensures forall t: TaskId :: t < |s.tasks| && t != s.phase.task ==> (IsC(s', t) <==> IsC(s, t))
  {
    assert TaskOk(s, s.phase.task);
    forall t: TaskId | t < |s.tasks| && t != s.phase.task ensures IsC(s', t) <==> IsC(s, t) {
      assert TaskOk(s, t);
    }
  }

  lemma PollReadySched(s: System, instance: nat)
    requires Safe(s) && Sched(s) && Can(s, PollOperation(instance))
    requires var id := Current(s).state.id; id in s.driver.ops && s.driver.ops[id].state.Completed?
    ensures Sched(Do(s, PollOperation(instance)))
  {
    var s' := Do(s, PollOperation(instance));
    ReadyIsRead(s, instance);
    ReadyCounts(s, instance);
    CurrentNotQueued(s);
    ReadRescue(s, s');
    ReadAlternate(s, s');
    OneRingWaiterKept(s, s');
  }

  lemma ReadRescue(s: System, s': System)
    requires Linked(s) && Rescue(s) && Read(s, s')
    ensures Rescue(s')
  {
    CurrentNotQueued(s);
    if s.pending != [] && InFlight(s) == [] {
      var i: nat :| WillSend(s, i);
      if s'.phase == s.phase {
        assert ToPoll(s')[0] == s.phase.task;
        assert WillSend(s', 0);
      } else {
        assert i != 0 && ToPoll(s)[i] == s.queue[i - 1];
        assert ToPoll(s')[i - 1] == ToPoll(s)[i];
        assert WillSend(s', i - 1);
      }
    }
  }

  lemma ReadAlternate(s: System, s': System)
    requires Linked(s) && Alternate(s) && Read(s, s')
    ensures Alternate(s')
  {
    CurrentNotQueued(s);
    var off := if s'.phase == s.phase then 0 else 1;
    assert ToPoll(s') == ToPoll(s)[off..];
    if RingWaiterParked(s') {
      var t :| t in s'.pending && IsR(s', t);
      assert IsR(s, t);
    }
    AlternateKept(s, s', off);
  }
}
