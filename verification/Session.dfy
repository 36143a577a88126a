/** A client driver, the two bounded rings and a server that answers each request it
    has taken once, in any order it likes. Submit futures and operations may be
    dropped at any moment. Responses are completed by the id they carry. */
module Session {
  import opened Prelude
  import opened Drivers
  import opened Protocol
  import opened ProtocolTheorems

  datatype Sqe = Sqe(id: OpId, request: Serial)
  datatype Answer = AnswerTo(request: Serial)
  datatype Rqe = Rqe(id: OpId, answer: Answer)

  datatype System<E> = System(
    sizeA: nat, sizeB: nat, world: World<Answer, E>, ringA: seq<Sqe>, held: seq<Sqe>, ringB: seq<Rqe>)

  /** `Runtime::new`: as many driver slots as ring A has entries. */
  function Start<E>(sizeA: nat, sizeB: nat): System<E> {
    System(sizeA, sizeB, Protocol.Start(sizeA), [], [], [])
  }

  datatype Action<E> =
    | Client(step: Step<Answer, E>)  // any client step but sending, completing and growing the slab
    | SendEntry(s: Serial)           // the entry fits ring A
    | Take                           // the server takes the next request
    | Respond(i: nat)                // the server answers some request it holds
    | Drain                          // the client completes the next response

  predicate May<E>(sys: System<E>, a: Action<E>) {
    match a
    case Client(step) => !step.Send? && !step.Complete? && !step.Submit? && Protocol.Can(sys.world, step)
    case SendEntry(s) => Protocol.Can(sys.world, Send(s)) && |sys.ringA| + 1 < sys.sizeA
    case Take => sys.ringA != []
    case Respond(i) => i < |sys.held| && |sys.ringB| + 1 < sys.sizeB
    case Drain => sys.ringB != []
  }

  function Act<E>(sys: System<E>, a: Action<E>): System<E>
    requires May(sys, a)
  {
    match a
    case Client(step) => sys.(world := Protocol.Do(sys.world, step))
    case SendEntry(s) =>
      sys.(world := Protocol.Do(sys.world, Send(s)), ringA := sys.ringA + [Sqe(sys.world.handles[s].id, s)])
    case Take => sys.(ringA := sys.ringA[1..], held := sys.held + [sys.ringA[0]])
    case Respond(i) =>
      var e := sys.held[i];
      sys.(held := sys.held[..i] + sys.held[i + 1..], ringB := sys.ringB + [Rqe(e.id, AnswerTo(e.request))])
    case Drain =>
      var r := sys.ringB[0];
      sys.(ringB := sys.ringB[1..], world := CompleteSlot(sys.world, r.id, r.answer.request, r.answer))
  }

  ghost predicate Next<E(!new)>(sys: System<E>, sys': System<E>) {
    exists a: Action<E> :: May(sys, a) && sys' == Act(sys, a)
  }

  ghost predicate Run<E(!new)>(sizeA: nat, sizeB: nat, run: seq<System<E>>) {
    && |run| > 0 && run[0] == Start(sizeA, sizeB)
    && forall i {:trigger Next(run[i], run[i + 1])} :: 0 <= i < |run| - 1 ==> Next(run[i], run[i + 1])
  }

  // ---------------------------------------------------------------- invariant

  function Requests(q: seq<Sqe>): seq<Serial> {
    seq(|q|, i requires 0 <= i < |q| => q[i].request)
  }

  function Answered(q: seq<Rqe>): seq<Serial> {
    seq(|q|, i requires 0 <= i < |q| => q[i].answer.request)
  }

  /** Every request on its way, in whichever of the three places it is. */
  function OnTheWay<E>(sys: System<E>): seq<Serial> {
    Requests(sys.ringA) + Requests(sys.held) + Answered(sys.ringB)
  }

  predicate IdIs<E>(w: World<Answer, E>, s: Serial, id: OpId) {
    s < |w.ids| && w.ids[s] == id
  }

  ghost predicate AllInFlight<E>(sys: System<E>) {
    multiset(OnTheWay(sys)) == multiset(sys.world.inFlight)
  }

  ghost predicate Entries<E>(sys: System<E>) {
    && (forall e :: e in sys.ringA ==> IdIs(sys.world, e.request, e.id))
    && (forall e :: e in sys.held ==> IdIs(sys.world, e.request, e.id))
    && (forall r :: r in sys.ringB ==> IdIs(sys.world, r.answer.request, r.id))
    && (forall s :: s in sys.world.answers ==> sys.world.answers[s] == AnswerTo(s))
    && (sys.sizeA == 0 || |sys.ringA| < sys.sizeA) && (sys.sizeB == 0 || |sys.ringB| < sys.sizeB)
    && sys.world.driver.capacity == sys.sizeA
  }

  ghost predicate Routed<E>(sys: System<E>) {
    AllInFlight(sys) && Entries(sys)
  }

  ghost predicate SessionInv<E>(sys: System<E>) {
    Inv(sys.world) && Routed(sys)
  }

  /** What no client step but sending, completing and growing touches. */
  predicate Keeps<E>(w: World<Answer, E>, w': World<Answer, E>) {
    && w'.inFlight == w.inFlight && w'.answers == w.answers && w.ids <= w'.ids
    && w'.driver.capacity == w.driver.capacity
  }

  lemma PollKeeps<E>(w: World<Answer, E>, s: Serial, waker: Waker)
    requires s in w.handles
    ensures Keeps(w, DoPoll(w, s, waker))
  {
  }

  lemma DropKeeps<E>(w: World<Answer, E>, s: Serial, recycle: bool)
    requires s in w.handles
    ensures Keeps(w, DoDrop(w, s, recycle))
  {
  }

  lemma ClientKeeps<E>(w: World<Answer, E>, step: Step<Answer, E>)
    requires Protocol.Can(w, step) && !step.Send? && !step.Complete? && !step.Submit?
    ensures Keeps(w, Protocol.Do(w, step))
  {
    match step
    case TrySubmit(_, _) =>
    case Forsake(_) =>
    case PollHandle(s, waker) => PollKeeps(w, s, waker);
    case DropHandle(s, recycle) => DropKeeps(w, s, recycle);
  }

  lemma KeptRouted<E>(sys: System<E>, w': World<Answer, E>)
    requires Routed(sys) && Keeps(sys.world, w')
    ensures Routed(sys.(world := w'))
  {
    assert OnTheWay(sys.(world := w')) == OnTheWay(sys);
  }

  lemma ClientInv<E>(sys: System<E>, step: Step<Answer, E>)
    requires SessionInv(sys) && May(sys, Client(step))
    ensures SessionInv(Act(sys, Client(step)))
  {
    var w' := Protocol.Do(sys.world, step);
    ClientKeeps(sys.world, step);
    KeptRouted(sys, w');
    StepInv(sys.world, step);
  }

  lemma SendRouted<E>(sys: System<E>, s: Serial)
    requires Routed(sys) && May(sys, Action<E>.SendEntry(s))
    requires s !in sys.world.inFlight && IdIs(sys.world, s, sys.world.handles[s].id)
    ensures Routed(Act(sys, Action<E>.SendEntry(s)))
  {
    var sys' := Act(sys, Action<E>.SendEntry(s));
    assert Requests(sys'.ringA) == Requests(sys.ringA) + [s];
    assert multiset(OnTheWay(sys')) == multiset(OnTheWay(sys)) + multiset{s};
    assert multiset(sys'.world.inFlight) == multiset(sys.world.inFlight) + multiset{s};
  }

  lemma SendEntryInv<E>(sys: System<E>, s: Serial)
    requires SessionInv(sys) && May(sys, Action<E>.SendEntry(s))
    ensures SessionInv(Act(sys, Action<E>.SendEntry(s)))
  {
    assert HandleOk(sys.world, s);
    SendRouted(sys, s);
    StepInv(sys.world, Step<Answer, E>.Send(s));
  }

  lemma TakeRouted<E>(sys: System<E>)
    requires Routed(sys) && May(sys, Action<E>.Take)
    ensures Routed(Act(sys, Action<E>.Take))
  {
    var sys' := Act(sys, Action<E>.Take);
    assert Requests(sys.ringA) == [sys.ringA[0].request] + Requests(sys'.ringA);
    assert Requests(sys'.held) == Requests(sys.held) + [sys.ringA[0].request];
    assert multiset(OnTheWay(sys')) == multiset(OnTheWay(sys));
  }

  lemma RespondOnTheWay<E>(sys: System<E>, i: nat)
    requires May(sys, Action<E>.Respond(i))
    ensures multiset(OnTheWay(Act(sys, Action<E>.Respond(i)))) == multiset(OnTheWay(sys))
  {
    var sys' := Act(sys, Action<E>.Respond(i));
    var s := sys.held[i].request;
    var before, after := Requests(sys.held[..i]), Requests(sys.held[i + 1..]);
    assert Requests(sys.held) == before + [s] + after;
    assert Requests(sys'.held) == before + after;
    assert Answered(sys'.ringB) == Answered(sys.ringB) + [s];
  }

  lemma RespondRouted<E>(sys: System<E>, i: nat)
    requires Routed(sys) && May(sys, Action<E>.Respond(i))
    ensures Routed(Act(sys, Action<E>.Respond(i)))
  {
    RespondOnTheWay(sys, i);
    assert IdIs(sys.world, sys.held[i].request, sys.held[i].id);
  }

  /** A response always meets the slot of the very request it answers: completing the id
      it carries, whatever that slot holds, completes that request. */
  lemma DrainMeetsItsRequest<E>(sys: System<E>)
    requires SessionInv(sys) && sys.ringB != []
    ensures var r := sys.ringB[0];
      && r.id in sys.world.occupant && sys.world.occupant[r.id] == r.answer.request
      && Protocol.Can(sys.world, Complete(r.answer.request, r.answer))
      && CompleteSlot(sys.world, r.id, r.answer.request, r.answer)
         == Protocol.Do(sys.world, Complete(r.answer.request, r.answer))
  {
    var r := sys.ringB[0];
    var s := r.answer.request;
    assert Answered(sys.ringB)[0] == s;
    assert s in multiset(OnTheWay(sys));
    assert s in sys.world.inFlight;
    assert r in sys.ringB && IdIs(sys.world, s, r.id);
    Facts(sys.world, s);
  }

  lemma DrainOnTheWay<E>(sys: System<E>, sys': System<E>)
    requires sys.ringB != [] && sys'.ringA == sys.ringA && sys'.held == sys.held && sys'.ringB == sys.ringB[1..]
    ensures multiset(OnTheWay(sys)) == multiset(OnTheWay(sys')) + multiset{sys.ringB[0].answer.request}
  {
    assert Answered(sys.ringB) == [sys.ringB[0].answer.request] + Answered(sys'.ringB);
  }

  lemma CancelOne(a: multiset<Serial>, b: multiset<Serial>, s: Serial)
    requires a + multiset{s} == b + multiset{s}
    ensures a == b
  {
    assert a == (a + multiset{s}) - multiset{s};
    assert b == (b + multiset{s}) - multiset{s};
  }

  lemma DrainRouted<E>(sys: System<E>, s: Serial, w': World<Answer, E>)
    requires Routed(sys) && sys.ringB != [] && s == sys.ringB[0].answer.request && s in sys.world.inFlight
    requires sys.ringB[0].answer == AnswerTo(s)
    requires w'.inFlight == sys.world.inFlight - {s} && w'.answers == sys.world.answers[s := AnswerTo(s)]
    requires w'.ids == sys.world.ids && w'.driver.capacity == sys.world.driver.capacity
    ensures Routed(sys.(ringB := sys.ringB[1..], world := w'))
  {
    var sys' := sys.(ringB := sys.ringB[1..], world := w');
    assert AllInFlight(sys') by {
      DrainOnTheWay(sys, sys');
      assert multiset(sys.world.inFlight) == multiset(w'.inFlight) + multiset{s};
      CancelOne(multiset(OnTheWay(sys')), multiset(w'.inFlight), s);
    }
  }

  lemma DrainInv<E>(sys: System<E>)
    requires SessionInv(sys) && May(sys, Action<E>.Drain)
    ensures SessionInv(Act(sys, Action<E>.Drain))
  {
    var r := sys.ringB[0];
    var s := r.answer.request;
    DrainMeetsItsRequest(sys);
    CompleteKeeps(sys.world, s, r.answer);
    DrainRouted(sys, s, Protocol.Do(sys.world, Complete(s, r.answer)));
    StepInv(sys.world, Complete(s, r.answer));
  }

  lemma CompleteKeeps<E>(w: World<Answer, E>, s: Serial, p: Answer)
    requires Protocol.Can(w, Complete(s, p))
    ensures var w' := Protocol.Do(w, Complete(s, p));
      && w'.inFlight == w.inFlight - {s} && w'.answers == w.answers[s := p] && w'.ids == w.ids
      && w'.driver.capacity == w.driver.capacity
  {
  }

  lemma ActionInv<E>(sys: System<E>, a: Action<E>)
    requires SessionInv(sys) && May(sys, a)
    ensures SessionInv(Act(sys, a))
  {
    match a
    case Client(step) => ClientInv(sys, step);
    case SendEntry(s) => SendEntryInv(sys, s);
    case Take => TakeRouted(sys);
    case Respond(i) => RespondRouted(sys, i);
    case Drain => DrainInv(sys);
  }

  lemma {:induction false} RunKeepsInv<E(!new)>(sizeA: nat, sizeB: nat, run: seq<System<E>>, i: nat)
    requires Run(sizeA, sizeB, run) && i < |run|
    ensures SessionInv(run[i]) && run[i].sizeA == sizeA && run[i].sizeB == sizeB
  {
    if i > 0 {
      var p := i - 1;
      RunKeepsInv(sizeA, sizeB, run, p);
      assert Next(run[p], run[p + 1]);
      var a: Action<E> :| May(run[p], a) && run[i] == Act(run[p], a);
      ActionInv(run[p], a);
    }
  }
}
