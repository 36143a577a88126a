/** The single-producer single-consumer queue of evering/src/uring.rs as a state
    machine. Every load, slot access and store of `enqueue`, `enqueue_bulk`,
    `dequeue`, `dequeue_bulk` and `Drain::next` is a step of its own, the steps of
    the two ends interleave freely, and a load of the peer's index may return any
    value published since the previous such load.

    `accepted`, `received`, `offered`, `returned`, `headSeen`, `tailSeen` and the
    counts inside `Call` and `Take` are history: no step's outcome depends on them
    except that they delimit which stale values a load may return. */
module RingSteps {
  import opened Prelude
  import opened Bits
  import opened Offsets

  /** A running `enqueue` (`!bulk`, one value given) or `enqueue_bulk`, whose iterator
      yields `given`. `start` elements had been accepted and `drawn` values offered when
      it began, and it has stored `n` since; `snapshot` elements had been released when
      the index it loaded was published. */
  datatype Call<T> = Call(bulk: bool, given: seq<T>, n: nat, start: nat, drawn: nat, snapshot: nat)

  datatype Producer<T> =
    | PIdle
    | POwnLoaded(call: Call<T>, tail: nat)
    | PReady(call: Call<T>, tail: nat, head: nat)
    | PHolding(call: Call<T>, tail: nat, head: nat, val: T)  // the iterator has yielded `val`
    | PWritten(call: Call<T>, tail: nat, head: nat, val: T)

  /** A running `dequeue` (`!drain`) or a live `Drain`. `start` elements had been
      received when it began; `snapshot` had been published at the loaded index. */
  datatype Take = Take(drain: bool, start: nat, snapshot: nat)

  datatype Consumer<T> =
    | CIdle
    | COwnLoaded(take: Take, head: nat)
    | CReady(take: Take, head: nat, tail: nat)
    | CRead(take: Take, head: nat, tail: nat, val: T)

  datatype Ring<T> = Ring(
    k: nat, head: nat, tail: nat, buf: seq<Option<T>>,
    prod: Producer<T>, cons: Consumer<T>,
    accepted: seq<T>, received: seq<T>, offered: seq<T>, returned: seq<T>,
    headSeen: nat, tailSeen: nat)

  function Empty<T>(k: nat): Ring<T> {
    Ring(k, 0, 0, seq(Pow2(k), _ => None), PIdle, CIdle, [], [], [], [], 0, 0)
  }

  datatype ProducerStep<T> =
    | StartSend(val: T)
    | StartSendBulk(vals: seq<T>)
    | LoadHead(count: nat)
    | NextItem
    | Write
    | PublishTail
    | Full
    | Exhausted

  datatype ConsumerStep =
    | StartTake(drain: bool)
    | LoadTail(count: nat)
    | Read
    | PublishHead
    | NoMore
    | Abandon

  predicate CanProduce<T>(r: Ring<T>, step: ProducerStep<T>) {
    match step
    case StartSend(_) => r.prod.PIdle?
    case StartSendBulk(_) => r.prod.PIdle?
    case LoadHead(count) => r.prod.POwnLoaded? && r.headSeen <= count <= |r.received|
    case NextItem =>
      && r.prod.PReady? && Inc(r.prod.tail, Mask(r.k)) != r.prod.head
      && r.prod.call.bulk && r.prod.call.n < |r.prod.call.given|
    case Write =>
      && (r.prod.PHolding? ||
          (r.prod.PReady? && Inc(r.prod.tail, Mask(r.k)) != r.prod.head
           && !r.prod.call.bulk && r.prod.call.given != []))
      && r.prod.tail < |r.buf|
    case PublishTail => r.prod.PWritten?
    case Full => r.prod.PReady? && Inc(r.prod.tail, Mask(r.k)) == r.prod.head
    case Exhausted =>
      && r.prod.PReady? && Inc(r.prod.tail, Mask(r.k)) != r.prod.head
      && r.prod.call.bulk && r.prod.call.n == |r.prod.call.given|
  }

  function Produce<T>(r: Ring<T>, step: ProducerStep<T>): Ring<T>
    requires CanProduce(r, step)
  {
    match step
    case StartSend(val) =>
      r.(prod := POwnLoaded(Call(false, [val], 0, |r.accepted|, |r.offered|, 0), r.tail), offered := r.offered + [val])
    case StartSendBulk(vals) =>
      r.(prod := POwnLoaded(Call(true, vals, 0, |r.accepted|, |r.offered|, 0), r.tail))
    case LoadHead(count) =>
      r.(prod := PReady(r.prod.call.(snapshot := count), r.prod.tail, Slot(count, r.k)), headSeen := count)
    case NextItem =>
      var val := r.prod.call.given[r.prod.call.n];
      r.(prod := PHolding(r.prod.call, r.prod.tail, r.prod.head, val), offered := r.offered + [val])
    case Write =>
      var val := if r.prod.PHolding? then r.prod.val else r.prod.call.given[0];
      r.(prod := PWritten(r.prod.call, r.prod.tail, r.prod.head, val), buf := r.buf[r.prod.tail := Some(val)])
    case PublishTail =>
      var next := Inc(r.prod.tail, Mask(r.k));
      r.(prod := if r.prod.call.bulk then PReady(r.prod.call.(n := r.prod.call.n + 1), next, r.prod.head) else PIdle,
         tail := next, accepted := r.accepted + [r.prod.val])
    case Full =>
      r.(prod := PIdle, returned := if r.prod.call.bulk then r.returned else r.returned + r.prod.call.given)
    case Exhausted => r.(prod := PIdle)
  }

  predicate CanConsume<T>(r: Ring<T>, step: ConsumerStep) {
    match step
    case StartTake(_) => r.cons.CIdle?
    case LoadTail(count) => r.cons.COwnLoaded? && r.tailSeen <= count <= |r.accepted|
    case Read =>
      && r.cons.CReady? && r.cons.head != r.cons.tail
      && r.cons.head < |r.buf| && r.buf[r.cons.head].Some?
    case PublishHead => r.cons.CRead?
    case NoMore => r.cons.CReady? && r.cons.head == r.cons.tail
    case Abandon => r.cons.CReady? && r.cons.take.drain
  }

  function Consume<T>(r: Ring<T>, step: ConsumerStep): Ring<T>
    requires CanConsume(r, step)
  {
    match step
    case StartTake(drain) => r.(cons := COwnLoaded(Take(drain, |r.received|, 0), r.head))
    case LoadTail(count) =>
      r.(cons := CReady(r.cons.take.(snapshot := count), r.cons.head, Slot(count, r.k)), tailSeen := count)
    case Read =>
      r.(cons := CRead(r.cons.take, r.cons.head, r.cons.tail, r.buf[r.cons.head].value))
    case PublishHead =>
      var next := Inc(r.cons.head, Mask(r.k));
      r.(cons := if r.cons.take.drain then CReady(r.cons.take, next, r.cons.tail) else CIdle,
         head := next, received := r.received + [r.cons.val])
    case NoMore => r.(cons := CIdle)
    case Abandon => r.(cons := CIdle)
  }

  ghost predicate ProducerNext<T(!new)>(r: Ring<T>, r': Ring<T>) {
    exists step: ProducerStep<T> :: CanProduce(r, step) && r' == Produce(r, step)
  }

  ghost predicate ConsumerNext<T>(r: Ring<T>, r': Ring<T>) {
    exists step: ConsumerStep :: CanConsume(r, step) && r' == Consume(r, step)
  }

  ghost predicate Next<T(!new)>(r: Ring<T>, r': Ring<T>) {
    ProducerNext(r, r') || ConsumerNext(r, r')
  }

  ghost predicate Run<T(!new)>(k: nat, run: seq<Ring<T>>) {
    && k <= MAX_EXPONENT
    && |run| > 0 && run[0] == Empty(k)
    && forall i {:trigger Next(run[i], run[i + 1])} :: 0 <= i < |run| - 1 ==> Next(run[i], run[i + 1])
  }

  // ---------------------------------------------------------------- invariant

  ghost predicate Counts<T>(r: Ring<T>) {
    && r.k <= MAX_EXPONENT && |r.buf| == Pow2(r.k)
    && r.headSeen <= |r.received| <= r.tailSeen <= |r.accepted| < r.headSeen + Pow2(r.k)
    && r.head == Slot(|r.received|, r.k) && r.tail == Slot(|r.accepted|, r.k)
    && r.received <= r.accepted
  }

  ghost predicate Stored<T>(r: Ring<T>)
    requires Counts(r)
  {
    forall i {:trigger Slot(i, r.k)} :: |r.received| <= i < |r.accepted| ==> r.buf[Slot(i, r.k)] == Some(r.accepted[i])
  }

  ghost predicate CallOk<T>(r: Ring<T>, call: Call<T>) {
    && call.n <= |call.given| && |r.accepted| == call.start + call.n
    && r.accepted[call.start..] == call.given[..call.n]
    && (!call.bulk ==> |call.given| == 1 && call.n == 0)
  }

  /** A call has drawn exactly the leading `m` items of what it was given. */
  ghost predicate HasDrawn<T>(r: Ring<T>, call: Call<T>, m: nat) {
    m <= |call.given| && call.drawn <= |r.offered| && r.offered[call.drawn..] == call.given[..m]
  }

  ghost predicate ProducerOk<T>(r: Ring<T>)
    requires Counts(r)
  {
    match r.prod
    case PIdle => true
    case POwnLoaded(call, tail) =>
      CallOk(r, call) && HasDrawn(r, call, if call.bulk then 0 else 1) && call.n == 0 && tail == r.tail
    case PReady(call, tail, head) =>
      && CallOk(r, call) && HasDrawn(r, call, if call.bulk then call.n else 1) && tail == r.tail
      && call.snapshot == r.headSeen && head == Slot(call.snapshot, r.k)
      && call.snapshot <= call.start < call.snapshot + Pow2(r.k)
    case PHolding(call, tail, head, val) =>
      && CallOk(r, call) && HasDrawn(r, call, call.n + 1) && tail == r.tail
      && call.snapshot == r.headSeen && head == Slot(call.snapshot, r.k)
      && call.bulk && val == call.given[call.n] && |r.accepted| + 1 < r.headSeen + Pow2(r.k)
      && call.snapshot <= call.start < call.snapshot + Pow2(r.k)
    case PWritten(call, tail, head, val) =>
      && CallOk(r, call) && HasDrawn(r, call, call.n + 1) && tail == r.tail
      && call.snapshot == r.headSeen && head == Slot(call.snapshot, r.k)
      && call.n < |call.given| && val == call.given[call.n]
      && r.buf[tail] == Some(val) && |r.accepted| + 1 < r.headSeen + Pow2(r.k)
      && call.snapshot <= call.start < call.snapshot + Pow2(r.k)
  }

  ghost predicate TakeOk<T>(r: Ring<T>, take: Take) {
    && take.start <= |r.received| <= take.snapshot && take.snapshot == r.tailSeen
    && (!take.drain ==> |r.received| == take.start)
  }

  ghost predicate ConsumerOk<T>(r: Ring<T>)
    requires Counts(r)
  {
    match r.cons
    case CIdle => true
    case COwnLoaded(take, head) => take.start == |r.received| && head == r.head
    case CReady(take, head, tail) =>
      TakeOk(r, take) && head == r.head && tail == Slot(take.snapshot, r.k)
    case CRead(take, head, tail, val) =>
      && TakeOk(r, take) && head == r.head && tail == Slot(take.snapshot, r.k)
      && |r.received| < take.snapshot && val == r.accepted[|r.received|]
  }

  /** The value an unfinished call has been handed but not yet stored. */
  function InHand<T>(r: Ring<T>): seq<T> {
    match r.prod
    case PIdle => []
    case POwnLoaded(call, _) => if call.bulk then [] else call.given
    case PReady(call, _, _) => if call.bulk then [] else call.given
    case PHolding(call, _, _, val) => [val]
    case PWritten(call, _, _, val) => [val]
  }

  ghost predicate Conserved<T>(r: Ring<T>) {
    multiset(r.offered) == multiset(r.accepted) + multiset(r.returned) + multiset(InHand(r))
  }

  ghost predicate Inv<T>(r: Ring<T>) {
    Counts(r) && Stored(r) && ProducerOk(r) && ConsumerOk(r) && Conserved(r)
  }

  lemma InitInv<T>(k: nat)
    requires k <= MAX_EXPONENT
    ensures Inv(Empty<T>(k))
  {
    var r := Empty<T>(k);
    DivModUnique(0, Pow2(k), 0, 0);
    assert Counts(r);
  }

  /** The full test against a possibly stale index is exact for that index. */
  lemma FullTest<T>(r: Ring<T>)
    requires Counts(r) && ProducerOk(r) && r.prod.PReady?
    ensures Inc(r.prod.tail, Mask(r.k)) == Slot(|r.accepted| + 1, r.k)
    ensures Inc(r.prod.tail, Mask(r.k)) == r.prod.head <==> |r.accepted| - r.headSeen == Pow2(r.k) - 1
  {
    IncIsNext(|r.accepted|, r.k);
    SameSlot(r.headSeen, |r.accepted| + 1, r.k);
  }

  /** The empty test against a possibly stale index is exact for that index. */
  lemma EmptyTest<T>(r: Ring<T>)
    requires Counts(r) && ConsumerOk(r) && r.cons.CReady?
    ensures r.cons.head == r.cons.tail <==> |r.received| == r.tailSeen
  {
    SameSlot(|r.received|, r.tailSeen, r.k);
  }

  /** The slot past the last element holds no element still to be received. */
  lemma FreeSlot<T>(r: Ring<T>, i: nat)
    requires Counts(r) && |r.received| <= i < |r.accepted|
    ensures Slot(i, r.k) != r.tail
  {
    SlotsDiffer(i, |r.accepted|, r.k);
  }

  /** Taking an item from the iterator puts it in hand; by then there is room for it. */
  lemma ProduceNextItem<T>(r: Ring<T>)
    requires Inv(r) && CanProduce(r, NextItem)
    ensures Inv(Produce(r, NextItem))
  {
    var r' := Produce(r, NextItem);
    var call := r.prod.call;
    FullTest(r);
    assert Counts(r') && Stored(r');
    assert r'.offered[call.drawn..] == r.offered[call.drawn..] + [r'.prod.val];
    assert call.given[..call.n + 1] == call.given[..call.n] + [r'.prod.val];
  }

  lemma ProduceWrite<T>(r: Ring<T>)
    requires Inv(r) && CanProduce(r, Write)
    ensures Inv(Produce(r, Write))
  {
    var r' := Produce(r, Write);
    if r.prod.PReady? {
      FullTest(r);
      assert r.prod.call.given == [r'.prod.val];
    }
    WriteStored(r);
    assert HasDrawn(r', r'.prod.call, r'.prod.call.n + 1);
  }

  lemma WriteStored<T>(r: Ring<T>)
    requires Inv(r) && CanProduce(r, Write)
    ensures Counts(Produce(r, Write)) && Stored(Produce(r, Write))
  {
    var r' := Produce(r, Write);
    assert Counts(r');
    forall i {:trigger Slot(i, r'.k)} | |r'.received| <= i < |r'.accepted|
      ensures r'.buf[Slot(i, r'.k)] == Some(r'.accepted[i])
    {
      FreeSlot(r, i);
    }
  }

  lemma PublishCounts<T>(r: Ring<T>)
    requires Inv(r) && r.prod.PWritten?
    ensures Counts(Produce(r, PublishTail)) && Stored(Produce(r, PublishTail))
  {
    var r' := Produce(r, PublishTail);
    IncIsNext(|r.accepted|, r.k);
    assert Counts(r');
    forall i {:trigger Slot(i, r'.k)} | |r'.received| <= i < |r'.accepted|
      ensures r'.buf[Slot(i, r'.k)] == Some(r'.accepted[i])
    {
      if i == |r.accepted| {
        assert Slot(i, r.k) == r.prod.tail;
      }
    }
  }

  lemma PublishCall<T>(r: Ring<T>)
    requires Inv(r) && r.prod.PWritten? && r.prod.call.bulk
    ensures CallOk(Produce(r, PublishTail), Produce(r, PublishTail).prod.call)
  {
    var r' := Produce(r, PublishTail);
    var call := r.prod.call;
    assert r'.accepted[call.start..] == r.accepted[call.start..] + [r.prod.val];
    assert call.given[..call.n + 1] == call.given[..call.n] + [r.prod.val];
  }

  lemma ProducePublish<T>(r: Ring<T>)
    requires Inv(r) && r.prod.PWritten?
    ensures Inv(Produce(r, PublishTail))
  {
    var r' := Produce(r, PublishTail);
    PublishCounts(r);
    if r.prod.call.bulk {
      PublishCall(r);
    }
    assert ConsumerOk(r');
    assert ProducerOk(r');
    assert multiset(r'.accepted) == multiset(r.accepted) + multiset([r.prod.val]);
  }

  lemma ProduceInv<T>(r: Ring<T>, step: ProducerStep<T>)
    requires Inv(r) && CanProduce(r, step)
    ensures Inv(Produce(r, step))
  {
    var r' := Produce(r, step);
    match step
    case NextItem => ProduceNextItem(r);
    case Write => ProduceWrite(r);
    case PublishTail => ProducePublish(r);
    case StartSend(val) =>
      assert Counts(r');
      assert r'.accepted[|r'.accepted|..] == [] == [val][..0];
      assert r'.offered[|r.offered|..] == [val] == [val][..1];
    case StartSendBulk(vals) =>
      assert Counts(r');
      assert r'.accepted[|r'.accepted|..] == [] == vals[..0];
      assert r'.offered[|r.offered|..] == [] == vals[..0];
    case LoadHead(count) => assert Counts(r');
    case Full => assert Counts(r');
    case Exhausted => assert Counts(r');
  }

  /** The consumer always finds a written slot, holding the next element. */
  lemma ConsumeReadReady<T>(r: Ring<T>)
    requires Inv(r) && r.cons.CReady? && r.cons.head != r.cons.tail
    ensures |r.received| < |r.accepted|
    ensures r.buf[r.cons.head] == Some(r.accepted[|r.received|])
    ensures CanConsume(r, Read)
  {
    EmptyTest(r);
    assert r.cons.head == Slot(|r.received|, r.k);
  }

  lemma ConsumeRead<T>(r: Ring<T>)
    requires Inv(r) && CanConsume(r, Read)
    ensures Inv(Consume(r, Read))
  {
    EmptyTest(r);
    ConsumeReadReady(r);
    assert Counts(Consume(r, Read));
  }

  lemma ConsumePublish<T>(r: Ring<T>)
    requires Inv(r) && CanConsume(r, PublishHead)
    ensures Inv(Consume(r, PublishHead))
  {
    var r' := Consume(r, PublishHead);
    IncIsNext(|r.received|, r.k);
    assert r'.received == r.accepted[..|r.received| + 1];
    assert Counts(r');
  }

  lemma ConsumeInv<T>(r: Ring<T>, step: ConsumerStep)
    requires Inv(r) && CanConsume(r, step)
    ensures Inv(Consume(r, step))
  {
    var r' := Consume(r, step);
    match step
    case Read => ConsumeRead(r);
    case PublishHead => ConsumePublish(r);
    case StartTake(_) => assert Counts(r');
    case LoadTail(_) => assert Counts(r');
    case NoMore => assert Counts(r');
    case Abandon => assert Counts(r');
  }

  lemma NextInv<T(!new)>(r: Ring<T>, r': Ring<T>)
    requires Inv(r) && Next(r, r')
    ensures Inv(r') && r'.k == r.k
  {
    if ProducerNext(r, r') {
      var step: ProducerStep<T> :| CanProduce(r, step) && r' == Produce(r, step);
      ProduceInv(r, step);
    } else {
      var step: ConsumerStep :| CanConsume(r, step) && r' == Consume(r, step);
      ConsumeInv(r, step);
    }
  }

  lemma {:induction false} RunInv<T(!new)>(k: nat, run: seq<Ring<T>>, i: nat)
    requires Run(k, run) && i < |run|
    ensures Inv(run[i]) && run[i].k == k
  {
    if i == 0 {
      InitInv<T>(k);
    } else {
      var p := i - 1;
      RunInv(k, run, p);
      assert Next(run[p], run[p + 1]);
      NextInv(run[p], run[i]);
    }
  }
}
