/** What holds in every run of the client, the rings and the server together. */
module SessionTheorems {
  import opened Prelude
  import opened Drivers
  import opened Protocol
  import opened ProtocolTheorems
  import opened Session

  /** The client's driver goes through a run of the driver protocol alone, so every
      theorem about that protocol holds here too; sending and draining are its only
      sends and completions. */
  lemma ActionRefinesProtocol<E(!new)>(sys: System<E>, a: Action<E>)
    requires SessionInv(sys) && May(sys, a)
    ensures Act(sys, a).world == sys.world || Protocol.Next(sys.world, Act(sys, a).world)
  {
    match a
    case Client(step) => assert Protocol.Can(sys.world, step);
    case SendEntry(s) =>
      var step: Step<Answer, E> := Send(s);
      assert Protocol.Can(sys.world, step);
    case Take =>
    case Respond(_) =>
    case Drain =>
      DrainMeetsItsRequest(sys);
      var step: Step<Answer, E> := Complete(sys.ringB[0].answer.request, sys.ringB[0].answer);
      assert Protocol.Can(sys.world, step);
  }

  /** Nothing panics, and each response drained completes the slot of the very request
      it answers: however the server permutes its answers, whatever was cancelled and
      however often ids were reused. */
  lemma ResponsesFindTheirRequests<E(!new)>(sizeA: nat, sizeB: nat, run: seq<System<E>>, i: nat)
    requires Session.Run(sizeA, sizeB, run) && i < |run|
    ensures !run[i].world.panicked
    ensures run[i].ringB != [] ==>
      var r := run[i].ringB[0];
      && r.id in run[i].world.occupant && run[i].world.occupant[r.id] == r.answer.request
      && r.answer.request in run[i].world.inFlight
  {
    RunKeepsInv(sizeA, sizeB, run, i);
    if run[i].ringB != [] {
      DrainMeetsItsRequest(run[i]);
    }
  }

  /** Whoever awaits operation `s` and gets an output gets the answer to `s`, with the
      extension submitted with it. */
  lemma RoutingIsCorrect<E(!new)>(sizeA: nat, sizeB: nat, run: seq<System<E>>, i: nat, s: Serial)
    requires Session.Run(sizeA, sizeB, run) && i < |run| && s in run[i].world.fates && run[i].world.fates[s].Delivered?
    ensures s < |run[i].world.exts|
    ensures run[i].world.fates[s] == Delivered(AnswerTo(s), run[i].world.exts[s])
  {
    RunKeepsInv(sizeA, sizeB, run, i);
    DeliveredIsAnswer(run[i], s);
  }

  lemma DeliveredIsAnswer<E>(sys: System<E>, s: Serial)
    requires SessionInv(sys) && s in sys.world.fates && sys.world.fates[s].Delivered?
    ensures s < |sys.world.exts| && sys.world.fates[s] == Delivered(AnswerTo(s), sys.world.exts[s])
  {
    assert s in sys.world.answers && AnswerOk(sys.world, s);
  }

  /** Between its sending and the draining of its response an operation is in exactly
      one of the three places, once, its slot stays its own, and its resource has one
      owner and is not released, unless its cancellation was a no-op. */
  lemma InFlightIsOnTheWay<E(!new)>(sizeA: nat, sizeB: nat, run: seq<System<E>>, i: nat, s: Serial)
    requires Session.Run(sizeA, sizeB, run) && i < |run|
    ensures var sys := run[i];
      multiset(OnTheWay(sys))[s] == if s in sys.world.inFlight then 1 else 0
    ensures s in run[i].world.inFlight ==>
      var w := run[i].world;
      && Occupies(w, s) && s !in w.handedOut
      && (if s in w.unkept then s in w.released else s !in w.released && HandleOwns(w, s) != SlotOwns(w, s))
  {
    RunKeepsInv(sizeA, sizeB, run, i);
    if s in run[i].world.inFlight {
      FlightFacts(run[i].world, s);
    }
  }

  lemma CountInFlight<E>(sys: System<E>)
    requires SessionInv(sys)
    ensures |sys.ringA| + |sys.held| + |sys.ringB| == |sys.world.inFlight| <= |sys.world.driver.ops| <= sys.sizeA
  {
    assert |multiset(OnTheWay(sys))| == |OnTheWay(sys)|;
    InFlightFits(sys.world);
  }

  /** Requests and responses on their way never outnumber the driver slots in use. */
  lemma InFlightAccounting<E(!new)>(sizeA: nat, sizeB: nat, run: seq<System<E>>, i: nat)
    requires Session.Run(sizeA, sizeB, run) && i < |run|
    ensures var sys := run[i];
      |sys.ringA| + |sys.held| + |sys.ringB| <= |sys.world.driver.ops| <= sizeA
  {
    RunKeepsInv(sizeA, sizeB, run, i);
    CountInFlight(run[i]);
  }

  // --------------------------------------------- when can a response not be sent?

  /** The server holds a request and has no room for its response. */
  predicate Blocked<E>(sys: System<E>) {
    sys.held != [] && |sys.ringB| + 1 >= sys.sizeB
  }

  ghost predicate Reachable<E(!new)>(sizeA: nat, sizeB: nat, sys: System<E>) {
    exists run: seq<System<E>> :: Session.Run(sizeA, sizeB, run) && run[|run| - 1] == sys
  }

  lemma ReachNext<E(!new)>(sizeA: nat, sizeB: nat, sys: System<E>, a: Action<E>)
    requires Reachable(sizeA, sizeB, sys) && May(sys, a)
    ensures Reachable(sizeA, sizeB, Act(sys, a))
  {
    var run :| Session.Run(sizeA, sizeB, run) && run[|run| - 1] == sys;
    var longer := run + [Act(sys, a)];
    forall i {:trigger Session.Next(longer[i], longer[i + 1])} | 0 <= i < |longer| - 1
      ensures Session.Next(longer[i], longer[i + 1])
    {
      if i < |run| - 1 {
        assert Session.Next(run[i], run[i + 1]);
      } else {
        assert May(longer[i], a) && longer[i + 1] == Act(longer[i], a);
      }
    }
    assert Session.Run(sizeA, sizeB, longer) && longer[|longer| - 1] == Act(sys, a);
  }

  /** `k` slots in use, `b` responses undrained, `h` requests at the server. */
  predicate Piled<E>(sys: System<E>, sizeA: nat, sizeB: nat, k: nat, h: nat, b: nat) {
    && sys.sizeA == sizeA && sys.sizeB == sizeB && sys.world.driver.capacity == sizeA
    && |sys.world.driver.ops| == k && sys.ringA == [] && |sys.held| == h && |sys.ringB| == b
    && forall s :: s in sys.world.handles ==> sys.world.handles[s].data.Some?
  }

  lemma SubmitOne<E(!new)>(sys: System<E>, id: OpId, ext: E)
    requires id !in sys.world.driver.ops && |sys.world.driver.ops| < sys.world.driver.capacity
    requires forall s :: s in sys.world.handles ==> sys.world.handles[s].data.Some?
    ensures var a: Action<E> := Client(TrySubmit(id, ext));
      && May(sys, a)
      && var sys' := Act(sys, a);
      && sys' == sys.(world := sys'.world)
      && sys'.world.driver.capacity == sys.world.driver.capacity
      && |sys'.world.driver.ops| == |sys.world.driver.ops| + 1
      && |sys.world.ids| in sys'.world.handles && !sys'.world.handles[|sys.world.ids|].sent
      && forall s :: s in sys'.world.handles ==> sys'.world.handles[s].data.Some?
  {
  }

  /** With a free slot and a ring A that takes entries at all, one more request can
      be brought to the server. */
  lemma OneMoreHeld<E(!new)>(sizeA: nat, sizeB: nat, sys: System<E>, k: nat, b: nat, ext: E) returns (sys': System<E>)
    requires Reachable(sizeA, sizeB, sys) && Piled(sys, sizeA, sizeB, k, 0, b) && k < sizeA && sizeA >= 2
    ensures Reachable(sizeA, sizeB, sys') && Piled(sys', sizeA, sizeB, k + 1, 1, b)
  {
    var id := FreshNumber(sys.world.driver.ops.Keys);
    var submit: Action<E> := Client(TrySubmit(id, ext));
    SubmitOne(sys, id, ext);
    var submitted := Act(sys, submit);
    ReachNext(sizeA, sizeB, sys, submit);
    var send: Action<E> := SendEntry(|sys.world.ids|);
    var sent := Act(submitted, send);
    ReachNext(sizeA, sizeB, submitted, send);
    var take: Action<E> := Take;
    sys' := Act(sent, take);
    ReachNext(sizeA, sizeB, sent, take);
  }

  lemma {:induction false} CanPile<E(!new)>(sizeA: nat, sizeB: nat, k: nat, ext: E) returns (sys: System<E>)
    requires sizeA >= 2 && k <= sizeA && k < sizeB
    ensures Reachable(sizeA, sizeB, sys) && Piled(sys, sizeA, sizeB, k, 0, k)
  {
    if k == 0 {
      sys := Session.Start(sizeA, sizeB);
      assert Session.Run(sizeA, sizeB, [sys]) && [sys][|[sys]| - 1] == sys;
    } else {
      var before := CanPile<E>(sizeA, sizeB, k - 1, ext);
      var held := OneMoreHeld(sizeA, sizeB, before, k - 1, k - 1, ext);
      var respond: Action<E> := Respond(0);
      sys := Act(held, respond);
      ReachNext(sizeA, sizeB, held, respond);
    }
  }

  /** Exactly when sending a response can fail: some run leaves the server holding a
      request with ring B full if and only if ring B has no more entries than the
      driver has slots (and requests can be sent at all). With the default sizes,
      32 and 32, it can. */
  lemma ResponseCanFailExactly<E(!new)>(sizeA: nat, sizeB: nat, ext: E)
    requires sizeA >= 1 && sizeB >= 1
    ensures (exists sys: System<E> :: Reachable(sizeA, sizeB, sys) && Blocked(sys)) <==> sizeA >= 2 && sizeB <= sizeA
  {
    if sizeA >= 2 && sizeB <= sizeA {
      var piled := CanPile<E>(sizeA, sizeB, sizeB - 1, ext);
      var sys := OneMoreHeld(sizeA, sizeB, piled, sizeB - 1, sizeB - 1, ext);
      assert Reachable(sizeA, sizeB, sys) && Blocked(sys);
    } else {
      forall sys: System<E> | Reachable(sizeA, sizeB, sys)
        ensures !Blocked(sys)
      {
        var run :| Session.Run(sizeA, sizeB, run) && run[|run| - 1] == sys;
        NeverBlocked(sizeA, sizeB, run, |run| - 1);
      }
    }
  }

  lemma {:induction false} NeverBlocked<E(!new)>(sizeA: nat, sizeB: nat, run: seq<System<E>>, i: nat)
    requires Session.Run(sizeA, sizeB, run) && i < |run| && (sizeA <= 1 || sizeB > sizeA)
    ensures !Blocked(run[i])
  {
    RunKeepsInv(sizeA, sizeB, run, i);
    CountInFlight(run[i]);
    if sizeA <= 1 {
      NothingSent(sizeA, sizeB, run, i);
    }
  }

  /** Without room in ring A no request ever leaves the client. */
  lemma {:induction false} NothingSent<E(!new)>(sizeA: nat, sizeB: nat, run: seq<System<E>>, i: nat)
    requires Session.Run(sizeA, sizeB, run) && i < |run| && sizeA <= 1
    ensures run[i].ringA == [] && run[i].held == [] && run[i].ringB == []
  {
    if i > 0 {
      var p := i - 1;
      NothingSent(sizeA, sizeB, run, p);
      RunKeepsInv(sizeA, sizeB, run, p);
      assert Session.Next(run[p], run[p + 1]);
      StaysUnsent(run[p], run[i]);
    }
  }

  lemma StaysUnsent<E(!new)>(sys: System<E>, sys': System<E>)
    requires Session.Next(sys, sys') && sys.sizeA <= 1
    requires sys.ringA == [] && sys.held == [] && sys.ringB == []
    ensures sys'.ringA == [] && sys'.held == [] && sys'.ringB == []
  {
    var a: Action<E> :| May(sys, a) && sys' == Act(sys, a);
    match a
    case Client(_) =>
    case SendEntry(_) =>
    case Take =>
    case Respond(_) =>
    case Drain =>
  }
}
