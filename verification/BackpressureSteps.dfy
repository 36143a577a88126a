/** Every step of the loaded runtime keeps its bookkeeping straight. */
module BackpressureSteps {
  import opened Prelude
  import opened Drivers
  import opened Backpressure

  lemma Perm(s: System, s': System)
    requires Linked(s)
    requires s' == s.(ringA := s'.ringA, held := s'.held, ringB := s'.ringB)
    requires |s'.ringA| < s.sizeA && |s'.ringB| < s.sizeB
    requires multiset(InFlight(s')) == multiset(InFlight(s))
    ensures Linked(s') && (InFlight(s') == [] <==> InFlight(s) == [])
  {
    var a, b := InFlight(s), InFlight(s');
    assert |multiset(a)| == |a| && |multiset(b)| == |b|;
    DistinctMultiset(a);
    forall i, j | 0 <= i < j < |b| ensures b[i] != b[j] {
      if b[i] == b[j] {
        TwiceInMultiset(b, i, j);
      }
    }
    forall id ensures id in b <==> id in a {
      assert id in multiset(b) <==> id in multiset(a);
    }
    forall t | 0 <= t < |s'.tasks| ensures TaskOk(s', t) {
      assert TaskOk(s, t);
    }
    forall id | id in s'.driver.ops ensures SlotOk(s', id) {
      assert SlotOk(s, id);
    }
  }

  lemma {:induction false} DistinctMultiset(q: seq<nat>)
    requires Distinct(q)
    ensures forall x :: multiset(q)[x] <= 1
  {
    if q != [] {
      var r := q[..|q| - 1];
      DistinctMultiset(r);
      assert q == r + [q[|q| - 1]];
      assert q[|q| - 1] !in r;
    }
  }

  lemma TwiceInMultiset(q: seq<nat>, i: nat, j: nat)
    requires i < j < |q| && q[i] == q[j]
    ensures multiset(q)[q[i]] >= 2
  {
    assert q == q[..i] + [q[i]] + q[i + 1..j] + [q[j]] + q[j + 1..];
  }

  lemma TakeLinked(s: System)
    requires Linked(s) && Can(s, Take)
    ensures Linked(Do(s, Take)) && (InFlight(Do(s, Take)) == [] <==> InFlight(s) == [])
  {
    var s' := Do(s, Take);
    assert s.ringA == [s.ringA[0]] + s.ringA[1..];
    Perm(s, s');
  }

  lemma RespondLinked(s: System, i: nat)
    requires Linked(s) && Can(s, Respond(i))
    ensures Linked(Do(s, Respond(i))) && (InFlight(Do(s, Respond(i))) == [] <==> InFlight(s) == [])
  {
    var s' := Do(s, Respond(i));
    assert s.held == s.held[..i] + [s.held[i]] + s.held[i + 1..];
    Perm(s, s');
  }

  // ------------------------------------------------------------ client steps

  /** Steps that move no task and no slot. */
  lemma IdleLinked(s: System, s': System)
    requires Linked(s) && !s.phase.Polling? && !s'.phase.Polling? && s' == s.(phase := s'.phase)
    ensures Linked(s')
  {
    forall t | 0 <= t < |s'.tasks| ensures TaskOk(s', t) {
      assert TaskOk(s, t);
    }
    forall id | id in s'.driver.ops ensures SlotOk(s', id) {
      assert SlotOk(s, id);
    }
  }

  lemma AppendDistinct(q: seq<nat>, x: nat)
    requires Distinct(q) && x !in q
    ensures Distinct(q + [x])
  {
  }

  lemma SpawnLinked(s: System, ops: nat)
    requires Linked(s) && Can(s, Spawn(ops))
    ensures Linked(Do(s, Spawn(ops)))
  {
    var s' := Do(s, Spawn(ops));
    assert ToPoll(s') == ToPoll(s) + [|s.tasks|];
    AppendDistinct(ToPoll(s), |s.tasks|);
    forall t | 0 <= t < |s'.tasks| ensures TaskOk(s', t) {
      assert t < |s.tasks| ==> TaskOk(s, t);
    }
    forall id | id in s'.driver.ops ensures SlotOk(s', id) {
      assert SlotOk(s, id);
    }
  }

  lemma StartPollLinked(s: System)
    requires Linked(s) && Can(s, StartPoll)
    ensures Linked(Do(s, StartPoll)) && ToPoll(Do(s, StartPoll)) == ToPoll(s)
  {
    var s' := Do(s, StartPoll);
    assert ToPoll(s') == ToPoll(s);
    forall t | 0 <= t < |s'.tasks| ensures TaskOk(s', t) {
      assert TaskOk(s, t);
    }
    forall id | id in s'.driver.ops ensures SlotOk(s', id) {
      assert SlotOk(s, id);
    }
  }

  lemma GetSlotLinked(s: System, id: OpId)
    requires Linked(s) && Can(s, GetSlot(id))
    ensures Linked(Do(s, GetSlot(id))) && ToPoll(Do(s, GetSlot(id))) == ToPoll(s)
  {
    var s' := Do(s, GetSlot(id));
    var cur := s.phase.task;
    assert TaskOk(s, cur);
    assert ToPoll(s') == ToPoll(s) && ToPoll(s)[0] == cur;
    forall t | 0 <= t < |s'.tasks| ensures TaskOk(s', t) {
      assert TaskOk(s, t);
    }
    forall i | i in s'.driver.ops ensures SlotOk(s', i) {
      assert i == id || SlotOk(s, i);
    }
  }

  lemma TailDistinct(q: seq<nat>)
    requires Distinct(q) && q != []
    ensures Distinct(q[1..])
    ensures forall x :: x in q[1..] <==> x in q && x != q[0]
  {
    assert q == [q[0]] + q[1..];
  }

  lemma ParkPlaces(s: System)
    requires Linked(s) && PollingIn(s)
    ensures Places(Park(s)) && ToPoll(s)[0] == s.phase.task && ToPoll(Park(s)) == ToPoll(s)[1..]
    ensures forall t :: t in ToPoll(Park(s)) <==> t in ToPoll(s) && t != s.phase.task
  {
    assert ToPoll(s)[0] == s.phase.task && ToPoll(Park(s)) == ToPoll(s)[1..];
    TailDistinct(ToPoll(s));
    AppendDistinct(s.pending, s.phase.task);
  }

  lemma ParkLinked(s: System)
    requires Linked(s) && PollingIn(s) && (Current(s).state.WantSlot? || Current(s).state.WantRing?)
    ensures Linked(Park(s)) && ToPoll(Park(s)) == ToPoll(s)[1..]
  {
    var s' := Park(s);
    ParkPlaces(s);
    assert InFlight(s') == InFlight(s);
    forall t | 0 <= t < |s'.tasks| ensures TaskOk(s', t) {
      ParkTask(s, t);
    }
    forall i | i in s'.driver.ops ensures SlotOk(s', i) {
      assert SlotOk(s, i);
    }
  }

  lemma ParkTask(s: System, t: TaskId)
    requires Linked(s) && PollingIn(s) && (Current(s).state.WantSlot? || Current(s).state.WantRing?) && t < |s.tasks|
    ensures TaskOk(Park(s), t)
  {
    ParkPlaces(s);
    assert TaskOk(s, t);
    assert InFlight(Park(s)) == InFlight(s);
  }

  lemma SendEntryLinked(s: System)
    requires Linked(s) && Can(s, SendEntry)
    ensures Linked(Do(s, SendEntry)) && ToPoll(Do(s, SendEntry)) == ToPoll(s)
    ensures InFlight(Do(s, SendEntry)) != []
  {
    var s' := Do(s, SendEntry);
    var cur := s.phase.task;
    var id := Current(s).state.id;
    assert TaskOk(s, cur);
    assert ToPoll(s') == ToPoll(s) && ToPoll(s)[0] == cur;
    assert s.ringA + [id] + (s.held + s.ringB) == InFlight(s');
    assert s.ringA + (s.held + s.ringB) == InFlight(s);
    InsertDistinct(s.ringA, s.held + s.ringB, id);
    forall t | 0 <= t < |s'.tasks| ensures TaskOk(s', t) {
      assert TaskOk(s, t);
    }
    forall i | i in s'.driver.ops ensures SlotOk(s', i) {
      assert SlotOk(s, i);
    }
  }

  lemma InsertDistinct(a: seq<nat>, b: seq<nat>, x: nat)
    requires Distinct(a + b) && x !in a + b
    ensures Distinct(a + [x] + b)
    ensures forall y :: y in a + [x] + b <==> y == x || y in a + b
  {
    var q, r := a + b, a + [x] + b;
    forall i, j | 0 <= i < j < |r| ensures r[i] != r[j] {
      var i', j' := if i < |a| then i else i - 1, if j < |a| then j else j - 1;
      if i != |a| && j != |a| {
        assert r[i] == q[i'] && r[j] == q[j'];
      } else if i == |a| {
        assert r[j] == q[j'];
      } else {
        assert r[i] == q[i'];
      }
    }
  }

  /** The poll right after sending registers the task and suspends it. */
  lemma PollPendingLinked(s: System, instance: nat)
    requires Linked(s) && Can(s, PollOperation(instance))
    requires var id := Current(s).state.id; id in s.driver.ops && s.driver.ops[id].state.Submitted?
    ensures var s' := Do(s, PollOperation(instance));
      && Linked(s') && ToPoll(s') == ToPoll(s)[1..] && InFlight(s) != []
      && s' == Suspend(s).(driver := s'.driver) && Arrived(s') == Arrived(s) && s'.driver.ops.Keys == s.driver.ops.Keys
  {
    var cur, id := s.phase.task, Current(s).state.id;
    PollPendingIs(s, instance);
    var s' := Suspend(s).(driver := Update(s.driver, id, Waiting(Waker(cur, instance))));
    assert ToPoll(s)[0] == cur && ToPoll(s') == ToPoll(s)[1..];
    Registered(s, s', id, Waker(cur, instance));
    WaitingIsNotArrived(s, s', id, Waker(cur, instance));
    assert TaskOk(s, cur);
  }

  lemma WaitingIsNotArrived(s: System, s': System, id: OpId, waker: Waker)
    requires id in s.driver.ops && s.driver.ops[id].state.Submitted? && s'.driver == Update(s.driver, id, Waiting(waker))
    ensures Arrived(s') == Arrived(s) && s'.driver.ops.Keys == s.driver.ops.Keys
  {
  }

  lemma PollPendingIs(s: System, instance: nat)
    requires Can(s, PollOperation(instance))
    requires var id := Current(s).state.id; id in s.driver.ops && s.driver.ops[id].state.Submitted?
    ensures Do(s, PollOperation(instance)) ==
      Suspend(s).(driver := Update(s.driver, Current(s).state.id, Waiting(Waker(s.phase.task, instance))))
  {
  }

  lemma Registered(s: System, s': System, id: OpId, waker: Waker)
    requires Linked(s) && PollingIn(s) && Current(s).state == Awaiting(id) && waker.task == s.phase.task
    requires id in s.driver.ops && s.driver.ops[id].state.Submitted?
    requires s' == Suspend(s).(driver := Update(s.driver, id, Waiting(waker)))
    requires ToPoll(s)[0] == s.phase.task && ToPoll(s') == ToPoll(s)[1..]
    ensures Linked(s')
  {
    var cur := s.phase.task;
    assert TaskOk(s, cur);
    TailDistinct(ToPoll(s));
    assert InFlight(s') == InFlight(s);
    forall t | 0 <= t < |s'.tasks| ensures TaskOk(s', t) {
      assert TaskOk(s, t);
      assert t != cur ==> s.tasks[t].state != Awaiting(id) && s.tasks[t].state != WantRing(id);
    }
    forall i | i in s'.driver.ops ensures SlotOk(s', i) {
      assert SlotOk(s, i);
    }
  }

  /** A response that has arrived is read: the operation ends and its slot is free. */
  lemma PollReadyLinked(s: System, instance: nat)
    requires Linked(s) && Can(s, PollOperation(instance))
    requires var id := Current(s).state.id; id in s.driver.ops && s.driver.ops[id].state.Completed?
    ensures Linked(Do(s, PollOperation(instance)))
  {
    var s' := Do(s, PollOperation(instance));
    var cur, id := s.phase.task, Current(s).state.id;
    assert TaskOk(s, cur);
    assert ToPoll(s)[0] == cur;
    assert s'.driver == Vacate(s.driver, id);
    assert Current(s).left > 0;
    var left := Current(s).left - 1;
    assert s'.tasks == s.tasks[cur := Task(if left == 0 then Finished else WantSlot, left)];
    assert ToPoll(s') == if left == 0 then ToPoll(s)[1..] else ToPoll(s);
    Ended(s, s', id);
  }

  /** Reading the response of slot `id`, as a relation between the states around it. */
  predicate EndsWith(s: System, s': System, id: OpId) {
    && PollingIn(s) && Current(s).state == Awaiting(id) && Current(s).left > 0
    && id in s.driver.ops && s.driver.ops[id].state.Completed?
    && var left := Current(s).left - 1;
    && s' == s.(driver := Vacate(s.driver, id), owner := s.owner - {id}, phase := s'.phase,
                tasks := s.tasks[s.phase.task := Task(if left == 0 then Finished else WantSlot, left)])
    && s'.phase == (if left == 0 then Executing(s.phase.count) else s.phase)
    && ToPoll(s)[0] == s.phase.task && ToPoll(s') == if left == 0 then ToPoll(s)[1..] else ToPoll(s)
  }

  lemma EndedTask(s: System, s': System, id: OpId, t: TaskId)
    requires Linked(s) && EndsWith(s, s', id) && t < |s.tasks|
    ensures TaskOk(s', t)
  {
    EndedQueue(s, s', id);
    assert TaskOk(s, s.phase.task) && TaskOk(s, t);
    if t != s.phase.task {
      OtherTaskOk(s, s', id, t);
    }
  }

  /** Whoever else has a task or a slot keeps it. */
  lemma OtherTaskOk(s: System, s': System, id: OpId, t: TaskId)
    requires t < |s.tasks| == |s'.tasks| && TaskOk(s, t) && s'.tasks[t] == s.tasks[t]
    requires id in s.owner && s.owner[id] != t && s'.driver == Vacate(s.driver, id) && s'.owner == s.owner - {id}
    requires s'.ringA == s.ringA && s'.held == s.held && s'.ringB == s.ringB && s'.pending == s.pending
    requires t in ToPoll(s') <==> t in ToPoll(s)
    requires !(s.phase.Polling? && s.phase.task == t)
    ensures TaskOk(s', t)
  {
    assert InFlight(s') == InFlight(s);
  }

  lemma Ended(s: System, s': System, id: OpId)
    requires Linked(s) && EndsWith(s, s', id)
    ensures Linked(s')
  {
    forall t | 0 <= t < |s'.tasks| ensures TaskOk(s', t) {
      EndedTask(s, s', id, t);
    }
    forall i | i in s'.driver.ops ensures SlotOk(s', i) {
      EndedSlot(s, s', id, i);
    }
    EndedPlaces(s, s', id);
  }

  lemma EndedSlot(s: System, s': System, id: OpId, i: OpId)
    requires Linked(s) && EndsWith(s, s', id) && i in s'.driver.ops
    ensures SlotOk(s', i)
  {
    assert TaskOk(s, s.phase.task) && SlotOk(s, i);
    assert i in s.driver.ops && i != id;
  }

  lemma EndedPlaces(s: System, s': System, id: OpId)
    requires Linked(s) && EndsWith(s, s', id)
    ensures Places(s') && InFlight(s') == InFlight(s) && id !in InFlight(s)
    ensures forall t :: t != s.phase.task ==> (t in ToPoll(s') <==> t in ToPoll(s))
    ensures s.phase.task in ToPoll(s') <==> Current(s).left > 1
  {
    EndedQueue(s, s', id);
    assert InFlight(s') == InFlight(s) && id !in InFlight(s) by {
      assert TaskOk(s, s.phase.task);
    }
    forall t | t in ToPoll(s') ensures t < |s'.tasks| && t !in s'.pending {
      assert t in ToPoll(s);
    }
  }

  lemma EndedQueue(s: System, s': System, id: OpId)
    requires Distinct(ToPoll(s)) && EndsWith(s, s', id)
    ensures Distinct(ToPoll(s'))
    ensures forall t :: t != s.phase.task ==> (t in ToPoll(s') <==> t in ToPoll(s))
    ensures s.phase.task in ToPoll(s') <==> Current(s).left > 1
  {
    TailDistinct(ToPoll(s));
  }

  // ------------------------------------------------------------- draining

  lemma WakeParkedLinked(s: System)
    requires Linked(s) && s.phase.Draining?
    ensures Linked(WakeParked(s))
    ensures ToPoll(WakeParked(s)) == ToPoll(s) + (if s.pending == [] then [] else [s.pending[0]])
  {
    if s.pending != [] {
      var s' := WakeParked(s);
      var p := s.pending[0];
      assert p in s.pending && s.pending == [p] + s.pending[1..];
      assert ToPoll(s') == ToPoll(s) + [p];
      AppendDistinct(ToPoll(s), p);
      TailDistinct(s.pending);
      forall t | t in ToPoll(s') ensures t < |s'.tasks| && t !in s'.pending {
        assert t == p || t in ToPoll(s);
      }
      forall t | 0 <= t < |s'.tasks| ensures TaskOk(s', t) {
        assert TaskOk(s, t);
      }
      forall i | i in s'.driver.ops ensures SlotOk(s', i) {
        assert SlotOk(s, i);
      }
    }
  }

  /** The operation whose response is drained, and the task that awaits it. */
  lemma NextResponse(s: System) returns (id: OpId, t: TaskId)
    requires Linked(s) && s.phase.Draining? && s.ringB != []
    ensures id == s.ringB[0] && id in InFlight(s) && OwnedBy(s, id, t) && t < |s.tasks|
    ensures s.tasks[t].state == Awaiting(id) && t !in ToPoll(s) && t !in s.pending
    ensures s.driver.ops[id].state.Waiting? && s.driver.ops[id].state.waker.task == t
  {
    id := s.ringB[0];
    assert id in s.ringB && id in InFlight(s);
    assert SlotOk(s, id);
    t := s.owner[id];
    assert TaskOk(s, t);
  }

  lemma DropFirst(a: seq<nat>, b: seq<nat>)
    requires Distinct(a + b) && b != []
    ensures Distinct(a + b[1..])
    ensures forall y :: y in a + b[1..] <==> y in a + b && y != b[0]
    ensures |a + b[1..]| == |a + b| - 1
  {
    var q, r := a + b, a + b[1..];
    assert q[|a|] == b[0];
    forall i, j | 0 <= i < j < |r| ensures r[i] != r[j] {
      var i', j' := if i < |a| then i else i + 1, if j < |a| then j else j + 1;
      assert r[i] == q[i'] && r[j] == q[j'];
    }
    forall y ensures y in r <==> y in q && y != b[0] {
      if y in r {
        var i :| 0 <= i < |r| && r[i] == y;
        assert q[if i < |a| then i else i + 1] == y;
      }
      if y in q && y != b[0] {
        var i :| 0 <= i < |q| && q[i] == y;
        assert r[if i < |a| then i else i - 1] == y;
      }
    }
  }

  /** Draining one response, as a relation between the states around it. */
  predicate Drained(s: System, s': System, id: OpId, t: TaskId)
    requires id in s.driver.ops
  {
    && s.phase.Draining? && s.phase.snapshot > 0 && s.ringB != [] && s.ringB[0] == id
    && s' == s.(driver := Update(s.driver, id, Completed(())), ringB := s.ringB[1..], drained := s.drained + 1,
                phase := Draining(s.phase.snapshot - 1), queue := s.queue + [t])
  }

  lemma CompleteNextIs(s: System) returns (id: OpId, t: TaskId)
    requires Linked(s) && s.phase.Draining? && s.phase.snapshot > 0 && s.ringB != []
    ensures id == s.ringB[0] && id in InFlight(s) && OwnedBy(s, id, t) && t < |s.tasks|
    ensures s.tasks[t].state == Awaiting(id) && t !in ToPoll(s) && t !in s.pending
    ensures s.driver.ops[id].state.Waiting?
    ensures Drained(s, CompleteNext(s), id, t)
  {
    id, t := NextResponse(s);
  }

  lemma DrainedLinked(s: System, s': System, id: OpId, t: TaskId)
    requires Linked(s) && OwnedBy(s, id, t) && Drained(s, s', id, t) && t < |s.tasks|
    requires s.tasks[t].state == Awaiting(id) && t !in ToPoll(s) && t !in s.pending
    ensures Linked(s') && ToPoll(s') == ToPoll(s) + [t] && |InFlight(s')| == |InFlight(s)| - 1
  {
    assert ToPoll(s') == ToPoll(s) + [t];
    AppendDistinct(ToPoll(s), t);
    DropFirst(s.ringA + s.held, s.ringB);
    assert InFlight(s') == s.ringA + s.held + s.ringB[1..];
    forall u | 0 <= u < |s'.tasks| ensures TaskOk(s', u) {
      assert TaskOk(s, u);
      assert u != t ==> s.tasks[u].state != Awaiting(id) && s.tasks[u].state != WantRing(id);
    }
    forall i | i in s'.driver.ops ensures SlotOk(s', i) {
      assert SlotOk(s, i);
    }
  }
}
