/** Counting driver slots: every slot in use is in flight, has its response waiting to
    be read, or is reserved by a task that has not sent its entry yet. */
module BackpressureCounts {
  import opened Prelude
  import opened Drivers
  import opened Backpressure

  function Elements(q: seq<nat>): set<nat> {
    set x | x in q
  }

  ghost function Way(s: System): set<OpId> {
    Elements(InFlight(s))
  }

  ghost function Reserved(s: System): set<OpId> {
    set id | id in s.driver.ops && id in s.owner && IsR(s, s.owner[id])
  }

  lemma {:induction false} DistinctCard(q: seq<nat>)
    requires Distinct(q)
    ensures |Elements(q)| == |q|
  {
    if q != [] {
      var r, x := q[..|q| - 1], q[|q| - 1];
      DistinctCard(r);
      assert q == r + [x];
      assert x !in r;
      assert Elements(q) == Elements(r) + {x};
    }
  }

  lemma SubsetCard(a: set<nat>, b: set<nat>)
    requires a <= b
    ensures |a| <= |b|
  {
    assert b == a + (b - a);
  }

  lemma SlotsPartition(s: System)
    requires Linked(s)
    ensures |s.driver.ops| <= |InFlight(s)| + |Reserved(s)| + |Arrived(s)|
  {
    forall id | id in s.driver.ops
      ensures id in Way(s) || id in Reserved(s) || id in Arrived(s)
    {
      assert SlotOk(s, id);
      assert TaskOk(s, s.owner[id]);
    }
    UnionCard(s.driver.ops.Keys, Way(s), Reserved(s), Arrived(s));
    DistinctCard(InFlight(s));
    assert |s.driver.ops| == |s.driver.ops.Keys|;
  }

  lemma UnionCard(u: set<nat>, a: set<nat>, b: set<nat>, c: set<nat>)
    requires u <= a + b + c
    ensures |u| <= |a| + |b| + |c|
  {
    SubsetCard(u, a + b + c);
  }

  /** An arrived response belongs to a task the executor is going to poll. */
  lemma ArrivedIsQueued(s: System, id: OpId) returns (i: nat)
    requires Linked(s) && id in Arrived(s)
    ensures i < |ToPoll(s)| && IsC(s, ToPoll(s)[i]) && s.tasks[ToPoll(s)[i]].state == Awaiting(id)
  {
    assert SlotOk(s, id);
    var t := s.owner[id];
    assert TaskOk(s, t);
    i :| 0 <= i < |ToPoll(s)| && ToPoll(s)[i] == t;
  }

  lemma SetAtMostOne(a: set<OpId>)
    requires forall x, y :: x in a && y in a ==> x == y
    ensures |a| <= 1
  {
    if a != {} {
      var x :| x in a;
      assert a == {x};
    }
  }

  lemma ReservedOwner(s: System, id: OpId) returns (t: TaskId)
    requires Linked(s) && id in Reserved(s)
    ensures t < |s.tasks| && s.tasks[t].state == WantRing(id) && OwnedBy(s, id, t) && id !in InFlight(s)
    ensures t in ToPoll(s) || t in s.pending
  {
    assert SlotOk(s, id);
    t := s.owner[id];
    assert TaskOk(s, t);
  }

  /** Unless the polled task has just taken a slot, at most one slot is reserved. */
  lemma ReservedSmall(s: System)
    requires Linked(s) && OneRingWaiter(s) && (s.phase.Polling? ==> !IsR(s, s.phase.task))
    ensures |Reserved(s)| <= 1
  {
    forall x, y | x in Reserved(s) && y in Reserved(s)
      ensures x == y
    {
      var t := ReservedOwner(s, x);
      var u := ReservedOwner(s, y);
      assert IsR(s, t) && IsR(s, u);
    }
    SetAtMostOne(Reserved(s));
  }

  /** The key sub-invariant: when ring A looks full to a task, no other task holds a
      slot while waiting for ring space. */
  lemma NoOtherRingWaiter(s: System, t: TaskId)
    requires Linked(s) && Can(s, ParkForRing) && t != s.phase.task && (t in ToPoll(s) || t in s.pending)
    ensures !IsR(s, t)
  {
    var cur := s.phase.task;
    assert ToPoll(s)[0] == cur && cur in ToPoll(s);
    assert TaskOk(s, cur);
    if IsR(s, t) {
      assert TaskOk(s, t);
      TwoMore(s, s.tasks[cur].state.id, s.tasks[t].state.id);
    }
  }

  lemma TwoMore(s: System, a: OpId, b: OpId)
    requires Linked(s) && a != b && a in s.driver.ops && b in s.driver.ops
    requires a !in InFlight(s) && b !in InFlight(s)
    ensures |InFlight(s)| + 2 <= |s.driver.ops|
  {
    var way := Way(s);
    DistinctCard(InFlight(s));
    assert a !in way && b !in way + {a};
    assert |way + {a} + {b}| == |way| + 2;
    SubsetCard(way + {a} + {b}, s.driver.ops.Keys);
    assert |s.driver.ops| == |s.driver.ops.Keys|;
  }

  /** With nothing in flight and no free slot, either there is a reserved slot or more
      responses have arrived than one drain can deliver. */
  lemma ManyArrived(s: System)
    requires Linked(s) && OneRingWaiter(s) && s.phase.Polling? && !IsR(s, s.phase.task)
    requires InFlight(s) == [] && |s.driver.ops| == s.sizeA
    ensures |Arrived(s)| >= s.sizeA - 1
    ensures Reserved(s) == {} ==> |Arrived(s)| >= s.sizeA
  {
    SlotsPartition(s);
    ReservedSmall(s);
  }

  lemma TwoOf(a: set<OpId>) returns (x: OpId, y: OpId)
    requires |a| >= 2
    ensures x in a && y in a && x != y
  {
    x :| x in a;
    assert |a - {x}| >= 1;
    y :| y in a - {x};
  }

  // ---------------------------------------------------------------- Remaining

  lemma {:induction false} RemainingUpdate(tasks: seq<Task>, t: nat, task: Task)
    requires t < |tasks|
    ensures Remaining(tasks[t := task]) + tasks[t].left == Remaining(tasks) + task.left
  {
    var n := |tasks| - 1;
    var tasks' := tasks[t := task];
    if t == n {
      assert tasks'[..n] == tasks[..n];
    } else {
      RemainingUpdate(tasks[..n], t, task);
      assert tasks'[..n] == tasks[..n][t := task];
    }
  }

  lemma RemainingAppend(tasks: seq<Task>, task: Task)
    ensures Remaining(tasks + [task]) == Remaining(tasks) + task.left
  {
    assert (tasks + [task])[..|tasks|] == tasks;
  }

  lemma {:induction false} RemainingZero(tasks: seq<Task>)
    ensures Remaining(tasks) == 0 <==> forall t :: 0 <= t < |tasks| ==> tasks[t].left == 0
  {
    if tasks != [] {
      var n := |tasks| - 1;
      RemainingZero(tasks[..n]);
      if Remaining(tasks) == 0 {
        forall t | 0 <= t < |tasks| ensures tasks[t].left == 0 {
          assert t < n ==> tasks[..n][t] == tasks[t];
        }
      }
    }
  }

  /** Tasks holding distinct slots have at least that many operations left. */
  lemma {:induction false} RemainingCovers(tasks: seq<Task>, holders: set<TaskId>)
    requires forall t :: t in holders ==> t < |tasks| && tasks[t].left > 0
    ensures |holders| <= Remaining(tasks)
  {
    if tasks == [] {
      assert holders == {};
    } else {
      var n := |tasks| - 1;
      var rest := holders - {n};
      RemainingCovers(tasks[..n], rest);
      if n in holders {
        assert holders == rest + {n};
      } else {
        assert holders == rest;
      }
    }
  }
}
