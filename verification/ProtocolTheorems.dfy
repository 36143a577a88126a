/** What the driver guarantees, over every run of the client protocol. */
module ProtocolTheorems {
  import opened Prelude
  import opened Drivers
  import opened Protocol

  lemma StepInv<P, E>(w: World<P, E>, step: Step<P, E>)
    requires Inv(w) && Can(w, step)
    ensures Inv(Do(w, step))
  {
    match step
    case Submit(id, ext, capacity) => SubmitInv(w, id, ext, capacity);
    case TrySubmit(id, ext) => TrySubmitInv(w, id, ext);
    case Forsake(s) => ForsakeInv(w, s);
    case Send(s) => SendInv(w, s);
    case PollHandle(s, waker) => PollInv(w, s, waker);
    case DropHandle(s, recycle) => DropInv(w, s, recycle);
    case Complete(s, payload) => CompleteInv(w, s, payload);
  }

  lemma {:induction false} RunInv<P(!new), E(!new)>(capacity: nat, run: seq<World<P, E>>, i: nat)
    requires Run(capacity, run) && i < |run|
    ensures Inv(run[i])
  {
    if i > 0 {
      var p := i - 1;
      RunInv(capacity, run, p);
      assert Next(run[p], run[p + 1]);
      var step: Step<P, E> :| Can(run[p], step) && run[i] == Do(run[p], step);
      StepInv(run[p], step);
    }
  }

  /** No `expect` and no `unreachable!` fires, now or in whatever legal step comes next. */
  lemma NothingPanics<P(!new), E(!new)>(capacity: nat, run: seq<World<P, E>>, i: nat)
    requires Run(capacity, run) && i < |run|
    ensures !run[i].panicked
    ensures forall step: Step<P, E> :: Can(run[i], step) ==> !Do(run[i], step).panicked
  {
    RunInv(capacity, run, i);
    forall step: Step<P, E> | Can(run[i], step)
      ensures !Do(run[i], step).panicked
    {
      StepInv(run[i], step);
    }
  }

  /** A completed operation ends in one way only, and its slot is free from exactly
      then on: its payload, and where they are handed over its extension, are the
      ones given for this very serial, whatever ids were reused in between. */
  lemma EveryEndIsUnique<P(!new), E(!new)>(capacity: nat, run: seq<World<P, E>>, i: nat, s: Serial)
    requires Run(capacity, run) && i < |run| && s in run[i].answers
    ensures var w := run[i];
      && s < |w.exts| && s < |w.ids|
      && (s in w.fates <==> !Occupies(w, s))
      && (s !in w.fates ==>
            w.ids[s] in w.driver.ops && w.driver.ops[w.ids[s]] == RawOp(Completed(w.answers[s]), w.exts[s]))
      && (s in w.fates ==>
            || w.fates[s] == Delivered(w.answers[s], w.exts[s])
            || w.fates[s] == Unread(w.answers[s])
            || w.fates[s] == ReturnedAsErr(w.answers[s], w.exts[s]))
  {
    RunInv(capacity, run, i);
    Facts(run[i], s);
  }

  /** Once an operation has ended, its end and its payload never change. */
  lemma {:induction false} EndsAreFinal<P(!new), E(!new)>(capacity: nat, run: seq<World<P, E>>, i: nat, j: nat, s: Serial)
    requires Run(capacity, run) && i <= j < |run| && s in run[i].fates
    ensures s in run[j].fates && run[j].fates[s] == run[i].fates[s]
    ensures s in run[i].answers && s in run[j].answers && run[j].answers[s] == run[i].answers[s]
  {
    if i < j {
      var p := j - 1;
      EndsAreFinal(capacity, run, i, p, s);
      RunKeepsEnd(capacity, run, p, s);
    } else {
      RunInv(capacity, run, i);
    }
  }

  lemma RunKeepsEnd<P(!new), E(!new)>(capacity: nat, run: seq<World<P, E>>, p: nat, s: Serial)
    requires Run(capacity, run) && p + 1 < |run| && s in run[p].fates
    ensures s in run[p + 1].fates && run[p + 1].fates[s] == run[p].fates[s]
    ensures s in run[p].answers && s in run[p + 1].answers && run[p + 1].answers[s] == run[p].answers[s]
  {
    RunInv(capacity, run, p);
    assert Next(run[p], run[p + 1]);
    NextKeepsEnd(run[p], run[p + 1], s);
  }

  lemma NextKeepsEnd<P(!new), E(!new)>(w: World<P, E>, w': World<P, E>, s: Serial)
    requires Inv(w) && Next(w, w') && s in w.fates
    ensures s in w'.fates && w'.fates[s] == w.fates[s]
    ensures s in w.answers && s in w'.answers && w'.answers[s] == w.answers[s]
  {
    var step: Step<P, E> :| Can(w, step) && w' == Do(w, step);
    EndedStaysEnded(w, step, s);
  }

  lemma EndedStaysEnded<P, E>(w: World<P, E>, step: Step<P, E>, s: Serial)
    requires Inv(w) && Can(w, step) && s in w.fates
    ensures s in Do(w, step).fates && Do(w, step).fates[s] == w.fates[s]
    ensures s in w.answers && s in Do(w, step).answers && Do(w, step).answers[s] == w.answers[s]
  {
    assert s in w.answers && AnswerOk(w, s);
    match step
    case PollHandle(t, waker) =>
      assert HandleOk(w, t);
      PollElsewhere(w, t, waker);
    case DropHandle(t, recycle) =>
      assert HandleOk(w, t);
      DropElsewhere(w, t, recycle);
    case Complete(t, payload) =>
      assert Occupies(w, t) && t !in w.answers;
      CompleteElsewhere(w, t, payload);
    case Submit(_, _, _) =>
    case TrySubmit(_, _) =>
    case Forsake(_) =>
    case Send(_) =>
  }

  /** Between its sending and its completion an operation keeps its id, so no
      submission can be given that id meanwhile, cancelled or not. */
  lemma InFlightIdIsReserved<P(!new), E(!new)>(capacity: nat, run: seq<World<P, E>>, i: nat, s: Serial)
    requires Run(capacity, run) && i < |run| && s in run[i].inFlight
    ensures s < |run[i].ids| && run[i].ids[s] in run[i].driver.ops && Occupies(run[i], s)
    ensures !MayIssue(run[i], run[i].ids[s])
    ensures (s in run[i].handles) != run[i].driver.ops[run[i].ids[s]].state.Cancelled?
  {
    RunInv(capacity, run, i);
    FlightFacts(run[i], s);
  }

  lemma FlightFacts<P, E>(w: World<P, E>, s: Serial)
    requires Inv(w) && s in w.inFlight
    ensures s < |w.ids| && w.ids[s] in w.driver.ops && w.ids[s] in w.occupant && w.occupant[w.ids[s]] == s
    ensures (s in w.handles) != w.driver.ops[w.ids[s]].state.Cancelled?
    ensures s !in w.handedOut && (s in w.released <==> s in w.unkept)
    ensures s !in w.unkept ==> HandleOwns(w, s) != SlotOwns(w, s)
  {
    assert Occupies(w, s);
    Facts(w, s);
  }

  /** While an operation is in flight its resource has exactly one owner, the live
      handle or the cancelled slot, unless its cancellation was a no-op; it is released
      or handed back at most once, and before the completion exactly if its cancellation
      did not keep it. */
  lemma ResourceLifetime<P(!new), E(!new)>(capacity: nat, run: seq<World<P, E>>, i: nat, s: Serial)
    requires Run(capacity, run) && i < |run| && s < |run[i].ids|
    ensures var w := run[i];
      && OwnedOnce(w, s) && Distinct(w.released) && Distinct(w.handedOut)
      && (s in w.inFlight ==> s !in w.handedOut && (s in w.released <==> s in w.unkept))
      && (s in w.inFlight && s !in w.unkept ==> HandleOwns(w, s) != SlotOwns(w, s))
  {
    RunInv(capacity, run, i);
    Facts(run[i], s);
  }

  /** A completed operation still waiting to be read has woken the task of its last
      pending poll, and no other; one never polled has woken nobody. */
  lemma CompletionWokeLastPoll<P(!new), E(!new)>(capacity: nat, run: seq<World<P, E>>, i: nat, s: Serial)
    requires Run(capacity, run) && i < |run| && s in run[i].answers && s !in run[i].fates
    ensures var w := run[i];
      s in w.handles && s in w.woken && Woke(w.woken[s], w.handles[s].polled)
  {
    RunInv(capacity, run, i);
    Facts(run[i], s);
  }

  // -------------------------------------------------------------- capacity

  lemma {:induction false} InjectionBound(from: set<Serial>, to: set<OpId>, ids: seq<OpId>)
    requires forall s :: s in from ==> s < |ids| && ids[s] in to
    requires forall s, t :: s in from && t in from && s != t ==> ids[s] != ids[t]
    ensures |from| <= |to|
    decreases |from|
  {
    if from != {} {
      var s :| s in from;
      InjectionBound(from - {s}, to - {ids[s]}, ids);
    }
  }

  /** Operations in flight never outnumber the slots in use, nor these the capacity. */
  lemma InFlightFits<P, E>(w: World<P, E>)
    requires Inv(w)
    ensures |w.inFlight| <= |w.driver.ops| <= w.driver.capacity
  {
    forall s | s in w.inFlight
      ensures s < |w.ids| && w.ids[s] in w.driver.ops && w.occupant[w.ids[s]] == s
    {
      Facts(w, s);
    }
    InjectionBound(w.inFlight, w.driver.ops.Keys, w.ids);
  }

  /** A slot taken by a submission whose future was dropped before the entry was sent. */
  predicate Lost<P, E>(w: World<P, E>, s: Serial) {
    && Occupies(w, s) && s !in w.handles && s !in w.inFlight
    && w.ids[s] in w.driver.ops && w.driver.ops[w.ids[s]].state.Submitted?
  }

  lemma LostElsewhere<P, E>(w: World<P, E>, w': World<P, E>, t: Serial, id: OpId, s: Serial)
    requires Elsewhere(w, w', t, id) && s != t && Lost(w, s)
    ensures Lost(w', s)
  {
    FrameOccupies(w, w', t, id, s);
  }

  lemma NewlyLost<P, E>(w: World<P, E>, w': World<P, E>, t: Serial, id: OpId, s: Serial)
    requires Inv(w) && Elsewhere(w, w', t, id) && |w'.ids| == |w.ids| && Lost(w', s)
    requires !Lost(w', t)
    ensures Lost(w, s)
  {
    FrameOccupies(w, w', t, id, s);
  }

  lemma HandleKeepsLost<P, E>(w: World<P, E>, step: Step<P, E>, s: Serial)
    requires Can(w, step) && Lost(w, s) && (step.Submit? || step.TrySubmit? || step.Forsake? || step.Send?)
    requires s < |w.ids| && w.occupant.Keys == w.driver.ops.Keys
    ensures Lost(Do(w, step), s)
  {
  }

  lemma LostStaysLost<P, E>(w: World<P, E>, step: Step<P, E>, s: Serial)
    requires Inv(w) && Can(w, step) && Lost(w, s)
    ensures Lost(Do(w, step), s)
  {
    match step
    case PollHandle(t, waker) =>
      PollElsewhere(w, t, waker);
      LostElsewhere(w, Do(w, step), t, w.handles[t].id, s);
    case DropHandle(t, recycle) =>
      DropElsewhere(w, t, recycle);
      LostElsewhere(w, Do(w, step), t, w.handles[t].id, s);
    case Complete(t, payload) =>
      CompleteElsewhere(w, t, payload);
      LostElsewhere(w, Do(w, step), t, w.ids[t], s);
    case Submit(_, _, _) => HandleKeepsLost(w, step, s);
    case TrySubmit(_, _) => HandleKeepsLost(w, step, s);
    case Forsake(_) => HandleKeepsLost(w, step, s);
    case Send(_) => HandleKeepsLost(w, step, s);
  }

  lemma {:induction false} LostForever<P(!new), E(!new)>(capacity: nat, run: seq<World<P, E>>, i: nat, j: nat, s: Serial)
    requires Run(capacity, run) && i <= j < |run| && Lost(run[i], s)
    ensures Lost(run[j], s)
  {
    if i < j {
      var p := j - 1;
      LostForever(capacity, run, i, p, s);
      RunInv(capacity, run, p);
      assert Next(run[p], run[p + 1]);
      NextKeepsLost(run[p], run[j], s);
    }
  }

  lemma NextKeepsLost<P(!new), E(!new)>(w: World<P, E>, w': World<P, E>, s: Serial)
    requires Inv(w) && Next(w, w') && Lost(w, s)
    ensures Lost(w', s)
  {
    var step: Step<P, E> :| Can(w, step) && w' == Do(w, step);
    LostStaysLost(w, step, s);
  }

  lemma ForsakenIsLost<P, E>(w: World<P, E>, s: Serial)
    requires Inv(w) && Can(w, Step<P, E>.Forsake(s))
    ensures Lost(Do(w, Step<P, E>.Forsake(s)), s)
  {
    assert HandleOk(w, s);
    Facts(w, s);
  }

  /** Dropping a submit future that waits for ring space loses its slot for good: in
      no continuation is the id ever free again. */
  lemma ForsakenSlotIsLost<P(!new), E(!new)>(capacity: nat, run: seq<World<P, E>>, i: nat, j: nat, s: Serial)
    requires Run(capacity, run) && i < j < |run|
    requires Can(run[i], Step<P, E>.Forsake(s)) && run[i + 1] == Do(run[i], Step<P, E>.Forsake(s))
    ensures Lost(run[j], s)
  {
    RunInv(capacity, run, i);
    ForsakenIsLost(run[i], s);
    LostForever(capacity, run, i + 1, j, s);
  }

  /** Polling, dropping and completing leave the slot they touch used or free, not lost. */
  lemma PollLosesNothing<P, E>(w: World<P, E>, s: Serial, waker: Waker)
    requires s in w.handles
    ensures !Lost(DoPoll(w, s, waker), s)
  {
    var h, w' := w.handles[s], DoPoll(w, s, waker);
    assert s in w'.handles by {
      match PollOp(w.driver, h.id, waker).1
      case Pending => assert w'.handles == w.handles[s := h.(polled := Some(waker))];
      case Ready(_, _) => assert w'.handles == w.handles[s := h.(data := None)];
      case PollPanic => assert w'.handles == w.handles;
    }
  }

  lemma DropLosesNothing<P, E>(w: World<P, E>, s: Serial, recycle: bool)
    requires Local(w, s) && s in w.handles && w.handles[s].sent && !DoDrop(w, s, recycle).panicked
    ensures !Lost(DoDrop(w, s, recycle), s)
  {
    var id := w.ids[s];
    var (driver, r) := RemoveOp(w.driver, id, Callback(w.handles[s], recycle));
    assert DoDrop(w, s, recycle).driver == driver;
    assert id in driver.ops ==> r == RemovePanic || !driver.ops[id].state.Submitted?;
  }

  lemma CompleteLosesNothing<P, E>(w: World<P, E>, s: Serial, payload: P)
    requires s < |w.ids| && !DoComplete(w, s, payload).panicked
    ensures !Lost(DoComplete(w, s, payload), s)
  {
    var id := w.ids[s];
    var (driver, r) := CompleteOp(w.driver, id, payload);
    assert DoComplete(w, s, payload).driver == driver;
    assert id in driver.ops ==> r == CompletePanic || !driver.ops[id].state.Submitted?;
  }

  /** Issuing and sending lose nothing either. */
  lemma HandleLosesNothing<P, E>(w: World<P, E>, step: Step<P, E>, s: Serial)
    requires Inv(w) && Can(w, step) && (step.Submit? || step.TrySubmit? || step.Send?) && Lost(Do(w, step), s)
    ensures Lost(w, s)
  {
    if !step.Send? && s == |w.ids| {
      NoSuchSerial(w, s);
    }
  }

  lemma PollOnlyKeepsLost<P, E>(w: World<P, E>, t: Serial, waker: Waker, s: Serial)
    requires Inv(w) && Can(w, Step<P, E>.PollHandle(t, waker)) && Lost(DoPoll(w, t, waker), s)
    ensures Lost(w, s)
  {
    PollElsewhere(w, t, waker);
    PollLosesNothing(w, t, waker);
    NewlyLost(w, DoPoll(w, t, waker), t, w.handles[t].id, s);
  }

  lemma DropOnlyKeepsLost<P, E>(w: World<P, E>, t: Serial, recycle: bool, s: Serial)
    requires Inv(w) && Can(w, Step<P, E>.DropHandle(t, recycle)) && Lost(DoDrop(w, t, recycle), s)
    ensures Lost(w, s)
  {
    LocalHolds(w, t);
    DropBasics(w, t, recycle);
    DropElsewhere(w, t, recycle);
    DropLosesNothing(w, t, recycle);
    NewlyLost(w, DoDrop(w, t, recycle), t, w.handles[t].id, s);
  }

  lemma CompleteOnlyKeepsLost<P, E>(w: World<P, E>, t: Serial, payload: P, s: Serial)
    requires Inv(w) && Can(w, Complete(t, payload)) && Lost(DoComplete(w, t, payload), s)
    ensures Lost(w, s)
  {
    LocalHolds(w, t);
    CompleteBasics(w, t, payload);
    CompleteElsewhere(w, t, payload);
    CompleteLosesNothing(w, t, payload);
    NewlyLost(w, DoComplete(w, t, payload), t, w.ids[t], s);
  }

  /** A slot becomes lost by no other step than forsaking it. */
  lemma OnlyForsakingLoses<P, E>(w: World<P, E>, step: Step<P, E>, s: Serial)
    requires Inv(w) && Can(w, step) && Lost(Do(w, step), s)
    ensures Lost(w, s) || step == Forsake(s)
  {
    match step
    case PollHandle(t, waker) => PollOnlyKeepsLost(w, t, waker, s);
    case DropHandle(t, recycle) => DropOnlyKeepsLost(w, t, recycle, s);
    case Complete(t, payload) => CompleteOnlyKeepsLost(w, t, payload, s);
    case Submit(_, _, _) => HandleLosesNothing(w, step, s);
    case TrySubmit(_, _) => HandleLosesNothing(w, step, s);
    case Send(_) => HandleLosesNothing(w, step, s);
    case Forsake(_) =>
  }

  lemma StepForsakes<P, E>(w: World<P, E>, step: Step<P, E>)
    requires Can(w, step)
    ensures Do(w, step).forsaken == w.forsaken + if step.Forsake? then {step.s} else {}
  {
    match step
    case PollHandle(s, waker) => PollOneSerial(w, s, waker);
    case DropHandle(s, recycle) => DropOneSerial(w, s, recycle);
    case Complete(s, payload) => CompleteRecords(w, s, payload);
    case Submit(_, _, _) =>
    case TrySubmit(_, _) =>
    case Send(_) =>
    case Forsake(_) =>
  }

  /** The history of forsaken submissions names exactly the lost slots. */
  lemma {:induction false} ForsakenAreLost<P(!new), E(!new)>(capacity: nat, run: seq<World<P, E>>, i: nat, s: Serial)
    requires Run(capacity, run) && i < |run|
    ensures s in run[i].forsaken <==> Lost(run[i], s)
  {
    if i > 0 {
      var p := i - 1;
      ForsakenAreLost(capacity, run, p, s);
      RunInv(capacity, run, p);
      assert Next(run[p], run[p + 1]);
      NextForsaken(run[p], run[i], s);
    }
  }

  lemma NextForsaken<P(!new), E(!new)>(w: World<P, E>, w': World<P, E>, s: Serial)
    requires Inv(w) && Next(w, w') && (s in w.forsaken <==> Lost(w, s))
    ensures s in w'.forsaken <==> Lost(w', s)
  {
    var step: Step<P, E> :| Can(w, step) && w' == Do(w, step);
    StepForsakes(w, step);
    StepLoses(w, step, s);
  }

  lemma StepLoses<P, E>(w: World<P, E>, step: Step<P, E>, s: Serial)
    requires Inv(w) && Can(w, step)
    ensures Lost(Do(w, step), s) <==> Lost(w, s) || step == Forsake(s)
  {
    if Lost(w, s) {
      LostStaysLost(w, step, s);
    }
    if Lost(Do(w, step), s) {
      OnlyForsakingLoses(w, step, s);
    }
    if step == Forsake(s) {
      ForsakenIsLost(w, s);
    }
  }

  /** When the driver may be dropped: exactly when nothing is in flight, every live
      handle has been sent, and no submit future has ever been dropped while it waited
      to send. After a single such loss the driver's drop panics. */
  lemma DriverMayBeDroppedExactly<P(!new), E(!new)>(capacity: nat, run: seq<World<P, E>>, i: nat)
    requires Run(capacity, run) && i < |run|
    ensures var w := run[i];
      MayDrop(w.driver) <==>
        w.inFlight == {} && (forall s :: s in w.handles ==> w.handles[s].sent) && w.forsaken == {}
  {
    RunInv(capacity, run, i);
    var w := run[i];
    if MayDrop(w.driver) {
      forall s | s in w.inFlight || s in w.handles ensures s !in w.inFlight && w.handles[s].sent {
        AllCompleted(w, s);
      }
      forall s: Serial ensures s !in w.forsaken {
        ForsakenAreLost(capacity, run, i, s);
      }
    } else {
      var id :| id in w.driver.ops && !w.driver.ops[id].state.Completed?;
      NotCompleted(w, id);
      ForsakenAreLost(capacity, run, i, w.occupant[id]);
    }
  }

  /** A serial is forsaken exactly if its `Forsake` step was taken before. */
  lemma {:induction false} ForsakenExactly<P(!new), E(!new)>(capacity: nat, run: seq<World<P, E>>, i: nat, s: Serial)
    requires Run(capacity, run) && i < |run|
    ensures s in run[i].forsaken <==> exists h :: 0 <= h < i && Forsook(run[h], run[h + 1], s)
  {
    if i > 0 {
      var p := i - 1;
      ForsakenExactly(capacity, run, p, s);
      RunInv(capacity, run, p);
      assert Next(run[p], run[p + 1]);
      NextForsook(run[p], run[p + 1], s);
    }
  }

  ghost predicate Forsook<P, E>(w: World<P, E>, w': World<P, E>, s: Serial) {
    Can(w, Step<P, E>.Forsake(s)) && w' == Do(w, Step<P, E>.Forsake(s))
  }

  lemma NextForsook<P(!new), E(!new)>(w: World<P, E>, w': World<P, E>, s: Serial)
    requires Next(w, w')
    ensures s in w'.forsaken <==> s in w.forsaken || Forsook(w, w', s)
  {
    var step: Step<P, E> :| Can(w, step) && w' == Do(w, step);
    StepForsakes(w, step);
    if Forsook(w, w', s) {
      StepForsakes(w, Step<P, E>.Forsake(s));
    }
  }

  lemma AllCompleted<P, E>(w: World<P, E>, s: Serial)
    requires Inv(w) && MayDrop(w.driver)
    ensures s !in w.inFlight && (s in w.handles ==> w.handles[s].sent)
  {
    assert s in w.handles ==> HandleOk(w, s);
    assert s in w.inFlight ==> Occupies(w, s);
    assert Occupies(w, s) ==> SlotOk(w, w.ids[s]);
  }

  lemma NotCompleted<P, E>(w: World<P, E>, id: OpId)
    requires Inv(w) && id in w.driver.ops && !w.driver.ops[id].state.Completed?
    ensures var s := w.occupant[id];
      s in w.inFlight || (s in w.handles && !w.handles[s].sent) || Lost(w, s)
  {
    var s := w.occupant[id];
    assert SlotOk(w, id);
    assert s in w.handles ==> HandleOk(w, s);
  }
}
