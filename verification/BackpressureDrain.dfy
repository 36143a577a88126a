/** Draining one response keeps the scheduling invariant: the submitter woken ahead of
    the completion either will send or is not needed. */
module BackpressureDrain {
  import opened Drivers
  import opened Backpressure
  import opened BackpressureCounts
  import opened BackpressureSafety
  import opened BackpressureSchedule

  /** The submitter at the head of the deque wants a slot or ring space. */
  lemma ParkedWants(s: System)
    requires Linked(s) && s.pending != []
    ensures (IsS(s, s.pending[0]) || IsR(s, s.pending[0])) && !IsC(s, s.pending[0])
  {
    assert s.pending[0] in s.pending;
    assert TaskOk(s, s.pending[0]);
  }

  /** If the last response in flight has been drained and somebody is still parked,
      the submitter woken for it will send. */
  lemma DrainRescue(s: System, s': System, id: OpId, t: TaskId)
    requires Linked(s) && OneRingWaiter(s) && Sized(s) && DrainStep(s, s', id, t)
    ensures Rescue(s')
  {
    DrainViews(s, s', id, t);
    if s'.pending != [] && InFlight(s') == [] {
      ParkedWants(s);
      var n := |ToPoll(s)|;
      assert ToPoll(s')[n] == s.pending[0];
      if Arrived(s) != {} {
        var x :| x in Arrived(s);
        var i := ArrivedIsQueued(s, x);
        assert ToPoll(s')[i] == ToPoll(s)[i];
        assert IsC(s', ToPoll(s')[i]);
        assert ArrivedBefore(s', n);
      } else {
        SlotsPartition(s);
        ReservedSmall(s);
        assert |s'.driver.ops.Keys| == |s.driver.ops.Keys|;
        assert |s'.driver.ops| == |s.driver.ops| <= 2;
      }
      assert WillSend(s', n);
    }
  }

  lemma DrainAlternate(s: System, s': System, id: OpId, t: TaskId)
    requires Linked(s) && Alternate(s) && DrainStep(s, s', id, t)
    ensures Alternate(s')
  {
    DrainViews(s, s', id, t);
    if RingWaiterParked(s') {
      var w :| w in s'.pending && IsR(s', w);
      assert w in s.pending && IsR(s, w);
      ParkedWants(s);
      var n := |ToPoll(s)|;
      forall i | 0 < i < |ToPoll(s')| && IsC(s', ToPoll(s')[i])
        ensures !IsC(s', ToPoll(s')[i - 1])
      {
        if i < n {
          assert ToPoll(s')[i] == ToPoll(s)[i] && ToPoll(s')[i - 1] == ToPoll(s)[i - 1];
          assert ToPoll(s)[i] in ToPoll(s) && ToPoll(s)[i - 1] in ToPoll(s);
        } else {
          assert ToPoll(s')[n] == s.pending[0] && s.pending[0] != t;
        }
      }
    }
  }

  lemma DrainSched(s: System, s': System, id: OpId, t: TaskId)
    requires Linked(s) && Sched(s) && Sized(s) && DrainStep(s, s', id, t)
    ensures Sched(s')
  {
    DrainViews(s, s', id, t);
    DrainRescue(s, s', id, t);
    DrainAlternate(s, s', id, t);
    forall u | Waits(s', u) && IsR(s', u) ensures Waits(s, u) && IsR(s, u) {
      assert u in s'.queue ==> u in s.queue || u in s.pending || u == t;
    }
    OneRingWaiterKept(s, s');
  }
}
