/** A connected pair of uring ends over two interleaved queues, and how the pair is
    torn down: `RawUring::dispose` and `Queue::drop_in_place` of evering/src/uring.rs.

    End A sends on queue `a` and receives on queue `b`; end B the other way round. */
module Teardown {
  import opened Prelude
  import opened Offsets
  import opened RingSteps

  datatype End =
    | Live
    | Disposing(headA: nat, headB: nat)  // the drop loops' cursors
    | Gone(disposed: bool)               // dispose returned Ok or Err

  datatype Duplex<A, B> = Duplex(
    a: Ring<A>, b: Ring<B>, rc: nat, endA: End, endB: End, droppedA: seq<A>, droppedB: seq<B>)

  function Connected<A, B>(ka: nat, kb: nat): Duplex<A, B> {
    Duplex(Empty(ka), Empty(kb), 2, Live, Live, [], [])
  }

  datatype Step<A, B> =
    | SendA(sa: ProducerStep<A>)
    | RecvA(ra: ConsumerStep)
    | SendB(sb: ProducerStep<B>)
    | RecvB(rb: ConsumerStep)
    | ReleaseA
    | ReleaseB
    | DropNextA  // end A runs one iteration of its drop loops
    | DropNextB

  /** An end is given up by value, so no call of it is running. */
  predicate IdleA<A, B>(d: Duplex<A, B>) {
    d.a.prod.PIdle? && d.b.cons.CIdle?
  }

  predicate IdleB<A, B>(d: Duplex<A, B>) {
    d.b.prod.PIdle? && d.a.cons.CIdle?
  }

  /** The next drop is of a slot that has been written, or there is none. */
  predicate CanDrop<A, B>(d: Duplex<A, B>, end: End) {
    && end.Disposing?
    && (end.headA != d.a.tail ==> end.headA < |d.a.buf| && d.a.buf[end.headA].Some?)
    && (end.headA == d.a.tail && end.headB != d.b.tail ==> end.headB < |d.b.buf| && d.b.buf[end.headB].Some?)
  }

  predicate Can<A, B>(d: Duplex<A, B>, step: Step<A, B>) {
    match step
    case SendA(s) => d.endA.Live? && CanProduce(d.a, s)
    case RecvA(s) => d.endA.Live? && CanConsume(d.b, s)
    case SendB(s) => d.endB.Live? && CanProduce(d.b, s)
    case RecvB(s) => d.endB.Live? && CanConsume(d.a, s)
    case ReleaseA => d.endA.Live? && IdleA(d) && d.rc >= 1
    case ReleaseB => d.endB.Live? && IdleB(d) && d.rc >= 1
    case DropNextA => CanDrop(d, d.endA)
    case DropNextB => CanDrop(d, d.endB)
  }

  /** `fetch_sub` on the shared count decides which end disposes. */
  function Released<A, B>(d: Duplex<A, B>): End {
    if d.rc != 1 then Gone(false) else Disposing(d.a.head, d.b.head)
  }

  function DropNext<A, B>(d: Duplex<A, B>, end: End): (Duplex<A, B>, End)
    requires CanDrop(d, end)
  {
    if end.headA != d.a.tail then
      (d.(droppedA := d.droppedA + [d.a.buf[end.headA].value]), end.(headA := Inc(end.headA, Mask(d.a.k))))
    else if end.headB != d.b.tail then
      (d.(droppedB := d.droppedB + [d.b.buf[end.headB].value]), end.(headB := Inc(end.headB, Mask(d.b.k))))
    else
      (d, Gone(true))
  }

  function Do<A, B>(d: Duplex<A, B>, step: Step<A, B>): Duplex<A, B>
    requires Can(d, step)
  {
    match step
    case SendA(s) => d.(a := Produce(d.a, s))
    case RecvA(s) => d.(b := Consume(d.b, s))
    case SendB(s) => d.(b := Produce(d.b, s))
    case RecvB(s) => d.(a := Consume(d.a, s))
    case ReleaseA => d.(rc := d.rc - 1, endA := Released(d))
    case ReleaseB => d.(rc := d.rc - 1, endB := Released(d))
    case DropNextA => var (d', end) := DropNext(d, d.endA); d'.(endA := end)
    case DropNextB => var (d', end) := DropNext(d, d.endB); d'.(endB := end)
  }

  ghost predicate Next<A(!new), B(!new)>(d: Duplex<A, B>, d': Duplex<A, B>) {
    exists step: Step<A, B> :: Can(d, step) && d' == Do(d, step)
  }

  ghost predicate Run<A(!new), B(!new)>(ka: nat, kb: nat, run: seq<Duplex<A, B>>) {
    && ka <= MAX_EXPONENT && kb <= MAX_EXPONENT
    && |run| > 0 && run[0] == Connected(ka, kb)
    && forall i {:trigger Next(run[i], run[i + 1])} :: 0 <= i < |run| - 1 ==> Next(run[i], run[i + 1])
  }

  // ---------------------------------------------------------------- invariant

  function Holders(end: End): nat {
    if end.Live? then 1 else 0
  }

  /** A drop cursor stands right behind the elements dropped so far. */
  ghost predicate CursorOk<T>(r: Ring<T>, dropped: seq<T>, cursor: nat) {
    && |r.received| + |dropped| <= |r.accepted|
    && dropped == r.accepted[|r.received|..|r.received| + |dropped|]
    && cursor == Slot(|r.received| + |dropped|, r.k)
  }

  ghost predicate EndOk<A, B>(d: Duplex<A, B>, end: End) {
    match end
    case Live => d.droppedA == [] && d.droppedB == []
    case Disposing(headA, headB) => CursorOk(d.a, d.droppedA, headA) && CursorOk(d.b, d.droppedB, headB)
    case Gone(disposed) =>
      disposed ==> d.a.received + d.droppedA == d.a.accepted && d.b.received + d.droppedB == d.b.accepted
  }

  ghost predicate DuplexInv<A, B>(d: Duplex<A, B>) {
    && Inv(d.a) && Inv(d.b)
    && d.rc == Holders(d.endA) + Holders(d.endB)
    && EndOk(d, d.endA) && EndOk(d, d.endB)
    && (!d.endA.Live? ==> IdleA(d)) && (!d.endB.Live? ==> IdleB(d))
    // The end that went first was told so, and only then can the other dispose.
    && (!d.endA.Live? && !d.endB.Live? ==> (d.endA == Gone(false)) != (d.endB == Gone(false)))
    && (d.endA.Live? != d.endB.Live? ==> d.endA == Gone(false) || d.endB == Gone(false))
    && (d.endA.Live? || d.endB.Live? ==> d.droppedA == [] && d.droppedB == [])
  }

  lemma DropOne<T>(r: Ring<T>, dropped: seq<T>, cursor: nat)
    requires Inv(r) && CursorOk(r, dropped, cursor)
    ensures cursor == r.tail <==> r.received + dropped == r.accepted
    ensures cursor != r.tail ==>
      && cursor < |r.buf| && r.buf[cursor].Some?
      && CursorOk(r, dropped + [r.buf[cursor].value], Inc(cursor, Mask(r.k)))
  {
    var n := |r.received| + |dropped|;
    assert r.received + dropped == r.accepted[..n];
    SameSlot(n, |r.accepted|, r.k);
    if n < |r.accepted| {
      assert r.buf[Slot(n, r.k)] == Some(r.accepted[n]);
      IncIsNext(n, r.k);
      assert dropped + [r.accepted[n]] == r.accepted[|r.received|..n + 1];
    }
  }

  /** A disposing end never meets an unwritten slot: its drop loops cannot get stuck. */
  lemma DropsAreEnabled<A, B>(d: Duplex<A, B>)
    requires DuplexInv(d)
    ensures d.endA.Disposing? ==> CanDrop(d, d.endA)
    ensures d.endB.Disposing? ==> CanDrop(d, d.endB)
  {
    if d.endA.Disposing? {
      DropOne(d.a, d.droppedA, d.endA.headA);
      DropOne(d.b, d.droppedB, d.endA.headB);
    }
    if d.endB.Disposing? {
      DropOne(d.a, d.droppedA, d.endB.headA);
      DropOne(d.b, d.droppedB, d.endB.headB);
    }
  }

  lemma DropNextInv<A, B>(d: Duplex<A, B>, end: End)
    requires Inv(d.a) && Inv(d.b) && EndOk(d, end) && CanDrop(d, end)
    ensures var (d', end') := DropNext(d, end);
      EndOk(d', end') && (end'.Disposing? || end' == Gone(true)) && d' == d.(droppedA := d'.droppedA, droppedB := d'.droppedB)
  {
    DropOne(d.a, d.droppedA, end.headA);
    DropOne(d.b, d.droppedB, end.headB);
  }

  lemma StepInv<A, B>(d: Duplex<A, B>, step: Step<A, B>)
    requires DuplexInv(d) && Can(d, step)
    ensures DuplexInv(Do(d, step))
  {
    match step
    case SendA(s) => ProduceInv(d.a, s);
    case RecvA(s) => ConsumeInv(d.b, s);
    case SendB(s) => ProduceInv(d.b, s);
    case RecvB(s) => ConsumeInv(d.a, s);
    case ReleaseA =>
    case ReleaseB =>
    case DropNextA => DropNextInv(d, d.endA);
    case DropNextB => DropNextInv(d, d.endB);
  }

  lemma {:induction false} RunKeepsInv<A(!new), B(!new)>(ka: nat, kb: nat, run: seq<Duplex<A, B>>, i: nat)
    requires Run(ka, kb, run) && i < |run|
    ensures DuplexInv(run[i])
  {
    if i == 0 {
      InitInv<A>(ka);
      InitInv<B>(kb);
    } else {
      var p := i - 1;
      RunKeepsInv(ka, kb, run, p);
      assert Next(run[p], run[p + 1]);
      var step: Step<A, B> :| Can(run[p], step) && run[i] == Do(run[p], step);
      StepInv(run[p], step);
    }
  }

  /** Where the values handed to one direction of the link have gone. */
  ghost predicate AccountedFor<T>(r: Ring<T>, dropped: seq<T>) {
    multiset(r.offered) == multiset(r.returned) + multiset(r.received) + multiset(dropped)
  }

  lemma Conservation<T>(r: Ring<T>, dropped: seq<T>)
    requires Inv(r) && r.prod.PIdle? && r.received + dropped == r.accepted
    ensures AccountedFor(r, dropped)
  {
    assert multiset(r.accepted) == multiset(r.received) + multiset(dropped);
  }

  /** Disposal succeeds for at most one end, only when the other has gone before, and
      then every value ever passed to a send, in either direction, has exactly once
      been handed back, received, or dropped: the leftovers in order, none twice. */
  lemma DisposalConserves<A(!new), B(!new)>(ka: nat, kb: nat, run: seq<Duplex<A, B>>, i: nat)
    requires Run(ka, kb, run) && i < |run|
    ensures var d := run[i];
      && (d.endA == Gone(true) || d.endA.Disposing? ==> d.endB == Gone(false))
      && (d.endB == Gone(true) || d.endB.Disposing? ==> d.endA == Gone(false))
      && (d.endA.Gone? && d.endB.Gone? ==>
            && d.endA.disposed != d.endB.disposed
            && AccountedFor(d.a, d.droppedA) && AccountedFor(d.b, d.droppedB)
            && d.a.received + d.droppedA == d.a.accepted && d.b.received + d.droppedB == d.b.accepted)
      && (d.endA.Live? || d.endB.Live? ==> d.droppedA == [] && d.droppedB == [])
  {
    RunKeepsInv(ka, kb, run, i);
    var d := run[i];
    if d.endA.Gone? && d.endB.Gone? {
      Conservation(d.a, d.droppedA);
      Conservation(d.b, d.droppedB);
    }
  }

  /** How much of the teardown remains once the last end has been given up. */
  function LeftToDrop<A, B>(d: Duplex<A, B>): int {
    |d.a.accepted| - |d.a.received| - |d.droppedA| + |d.b.accepted| - |d.b.received| - |d.droppedB|
  }

  /** Each drop iteration makes progress, so a disposal that has begun completes
      after exactly `LeftToDrop` drops and one last test, whichever end runs it. */
  lemma DisposalCompletes<A, B>(d: Duplex<A, B>)
    requires DuplexInv(d) && (d.endA.Disposing? || d.endB.Disposing?)
    ensures var step := if d.endA.Disposing? then DropNextA else DropNextB;
      && Can(d, step)
      && var d' := Do(d, step);
      && (LeftToDrop(d) == 0 ==> d'.endA == Gone(true) || d'.endB == Gone(true))
      && (LeftToDrop(d) > 0 ==>
            (d'.endA.Disposing? || d'.endB.Disposing?) && LeftToDrop(d') == LeftToDrop(d) - 1)
  {
    DropsAreEnabled(d);
    var end := if d.endA.Disposing? then d.endA else d.endB;
    DropOne(d.a, d.droppedA, end.headA);
    DropOne(d.b, d.droppedB, end.headB);
    assert |d.a.received + d.droppedA| == |d.a.received| + |d.droppedA|;
    assert |d.b.received + d.droppedB| == |d.b.received| + |d.droppedB|;
  }
}
