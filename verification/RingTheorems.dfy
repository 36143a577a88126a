/** What the interleaved queue guarantees its two users, over every run. */
module RingTheorems {
  import opened Prelude
  import opened Bits
  import opened Offsets
  import opened RingSteps

  /** The bounded FIFO the queue stands for: the elements accepted, not yet received. */
  function Pending<T>(r: Ring<T>): seq<T>
    requires |r.received| <= |r.accepted|
  {
    r.accepted[|r.received|..]
  }

  ghost predicate FifoPush<T>(r: Ring<T>, r': Ring<T>, val: T)
    requires |r.received| <= |r.accepted| && |r'.received| <= |r'.accepted|
  {
    && |Pending(r)| < Pow2(r.k) - 1
    && Pending(r') == Pending(r) + [val]
    && r'.accepted == r.accepted + [val] && r'.received == r.received
  }

  ghost predicate FifoPop<T>(r: Ring<T>, r': Ring<T>)
    requires |r.received| <= |r.accepted| && |r'.received| <= |r'.accepted|
  {
    && Pending(r) != [] && Pending(r') == Pending(r)[1..]
    && r'.received == r.received + [Pending(r)[0]] && r'.accepted == r.accepted
  }

  ghost predicate FifoStutter<T>(r: Ring<T>, r': Ring<T>) {
    r'.accepted == r.accepted && r'.received == r.received
  }

  lemma PublishIsPush<T>(r: Ring<T>)
    requires Inv(r) && r.prod.PWritten?
    ensures |r.received| <= |Produce(r, PublishTail).accepted|
    ensures FifoPush(r, Produce(r, PublishTail), r.prod.val)
  {
    var r' := Produce(r, PublishTail);
    assert Pending(r') == Pending(r) + [r.prod.val];
  }

  /** Every producer step is a push of the value in hand below the bound, or invisible. */
  lemma ProducerRefinesFifo<T>(r: Ring<T>, step: ProducerStep<T>)
    requires Inv(r) && CanProduce(r, step)
    ensures Inv(Produce(r, step))
    ensures if step.PublishTail? then FifoPush(r, Produce(r, step), r.prod.val)
            else FifoStutter(r, Produce(r, step))
  {
    ProduceInv(r, step);
    if step.PublishTail? {
      PublishIsPush(r);
    }
  }

  /** Every consumer step is a pop of the oldest element, or invisible. */
  lemma ConsumerRefinesFifo<T>(r: Ring<T>, step: ConsumerStep)
    requires Inv(r) && CanConsume(r, step)
    ensures Inv(Consume(r, step))
    ensures if step.PublishHead? then FifoPop(r, Consume(r, step)) else FifoStutter(r, Consume(r, step))
  {
    ConsumeInv(r, step);
    if step.PublishHead? {
      assert Pending(Consume(r, step)) == Pending(r)[1..];
    }
  }

  /** In every reachable state: what was received is a prefix of what was accepted,
      the FIFO bound holds, the slot the producer may be writing holds nothing the
      consumer may still read, and the slot the consumer is about to read was
      written with exactly the next element. */
  lemma RunIsSafe<T(!new)>(k: nat, run: seq<Ring<T>>, i: nat)
    requires Run(k, run) && i < |run|
    ensures var r := run[i];
      && r.received <= r.accepted && |Pending(r)| <= Pow2(k) - 1
      && (CanProduce(r, Write) || r.prod.PWritten? ==>
            forall c {:trigger Slot(c, k)} :: |r.received| <= c < |r.accepted| ==> Slot(c, k) != r.prod.tail)
      && (r.cons.CReady? && r.cons.head != r.cons.tail ==>
            |r.received| < |r.accepted| && r.cons.head < |r.buf| && r.buf[r.cons.head] == Some(r.accepted[|r.received|]))
      && (r.cons.CRead? ==> Pending(r) != [] && r.cons.val == Pending(r)[0])
  {
    RunInv(k, run, i);
    var r := run[i];
    forall c {:trigger Slot(c, k)} | |r.received| <= c < |r.accepted|
      ensures Slot(c, k) != r.tail
    {
      FreeSlot(r, c);
    }
    if r.cons.CReady? && r.cons.head != r.cons.tail {
      ConsumeReadReady(r);
    }
  }

  /** A ring of size one accepts nothing, ever. */
  lemma {:induction false} SizeOneAcceptsNothing<T(!new)>(run: seq<Ring<T>>, i: nat)
    requires Run(0, run) && i < |run|
    ensures run[i].accepted == []
  {
    if i > 0 {
      var p := i - 1;
      SizeOneAcceptsNothing(run, p);
      RunInv(0, run, p);
      assert Next(run[p], run[p + 1]);
      SizeOneStaysEmpty(run[p], run[i]);
    }
  }

  lemma SizeOneStaysEmpty<T(!new)>(r: Ring<T>, r': Ring<T>)
    requires Inv(r) && r.k == 0 && r.accepted == [] && Next(r, r')
    ensures r'.accepted == []
  {
    assert !r.prod.PWritten?;
  }

  /** The two ways `enqueue_bulk` returns. However the consumer ran meanwhile, the
      count it returns is decided by the one index it loaded, it has appended
      exactly that many leading items in order, and it has drawn just those from the
      iterator. */
  lemma BulkSendOutcome<T>(r: Ring<T>, step: ProducerStep<T>)
    requires Inv(r) && CanProduce(r, step) && (step.Full? || step.Exhausted?) && r.prod.call.bulk
    ensures var call := r.prod.call;
      && call.n == Min(|call.given|, Pow2(r.k) - 1 - (call.start - call.snapshot))
      && r.accepted == r.accepted[..call.start] + call.given[..call.n]
      && r.offered == r.offered[..call.drawn] + call.given[..call.n]
      && multiset(r.offered) == multiset(r.accepted) + multiset(r.returned)
      && Produce(r, step) == r.(prod := PIdle)
  {
    FullTest(r);
    var call := r.prod.call;
    assert r.accepted == r.accepted[..call.start] + r.accepted[call.start..];
    assert r.offered == r.offered[..call.drawn] + r.offered[call.drawn..];
  }

  /** `enqueue` succeeds exactly when the index it loaded leaves room; otherwise it
      hands its argument back and has stored nothing. */
  lemma SendOutcome<T>(r: Ring<T>)
    requires Inv(r) && r.prod.PReady? && !r.prod.call.bulk
    ensures CanProduce(r, Write) <==> r.prod.call.start - r.prod.call.snapshot < Pow2(r.k) - 1
    ensures CanProduce(r, Full) <==> !CanProduce(r, Write)
    ensures CanProduce(r, Full) ==>
      Produce(r, Full) == r.(prod := PIdle, returned := r.returned + r.prod.call.given)
    ensures CanProduce(r, Write) ==>
      Produce(Produce(r, Write), PublishTail).accepted == r.accepted + r.prod.call.given
  {
    FullTest(r);
    assert r.prod.call.given == [r.prod.call.given[0]];
  }

  /** A `Drain` that runs dry has yielded exactly the elements between its start and
      the tail it loaded; abandoned midway it has yielded a prefix of them, and the
      next take resumes right behind. */
  lemma DrainOutcome<T>(r: Ring<T>, step: ConsumerStep)
    requires Inv(r) && CanConsume(r, step) && r.cons.CReady? && (step.NoMore? || step.Abandon?)
    ensures var take := r.cons.take;
      && r.received[take.start..] <= r.accepted[take.start..take.snapshot]
      && (step.NoMore? ==> r.received[take.start..] == r.accepted[take.start..take.snapshot])
      && Consume(r, step) == r.(cons := CIdle)
      && Consume(Consume(r, step), StartTake(true)).cons == COwnLoaded(Take(true, |r.received|, 0), r.head)
  {
    EmptyTest(r);
    var take := r.cons.take;
    assert r.received[take.start..] == r.accepted[take.start..|r.received|];
    assert r.accepted[take.start..take.snapshot][..|r.received| - take.start] == r.accepted[take.start..|r.received|];
  }

  // ------------------------------------------------------------------ len()

  ghost predicate ConsumerOnly<T(!new)>(run: seq<Ring<T>>) {
    |run| > 0 && forall i {:trigger ConsumerNext(run[i], run[i + 1])} :: 0 <= i < |run| - 1 ==> ConsumerNext(run[i], run[i + 1])
  }

  ghost predicate ProducerOnly<T(!new)>(run: seq<Ring<T>>) {
    |run| > 0 && forall i {:trigger ProducerNext(run[i], run[i + 1])} :: 0 <= i < |run| - 1 ==> ProducerNext(run[i], run[i + 1])
  }

  lemma ConsumerNextKeeps<T(!new)>(r: Ring<T>, r': Ring<T>)
    requires Inv(r) && ConsumerNext(r, r')
    ensures Inv(r') && r'.k == r.k && r'.tail == r.tail && r'.headSeen == r.headSeen
    ensures r'.accepted == r.accepted && |r.received| <= |r'.received|
  {
    var step: ConsumerStep :| CanConsume(r, step) && r' == Consume(r, step);
    ConsumeInv(r, step);
  }

  lemma ProducerNextKeeps<T(!new)>(r: Ring<T>, r': Ring<T>)
    requires Inv(r) && ProducerNext(r, r')
    ensures Inv(r') && r'.k == r.k && r'.head == r.head && r'.tailSeen == r.tailSeen
    ensures r'.received == r.received && |r.accepted| <= |r'.accepted|
  {
    var step: ProducerStep<T> :| CanProduce(r, step) && r' == Produce(r, step);
    ProduceInv(r, step);
  }

  lemma ConsumerStepKeeps<T(!new)>(run: seq<Ring<T>>, p: nat)
    requires ConsumerOnly(run) && p + 1 < |run| && Inv(run[p])
    ensures var r, r' := run[p], run[p + 1];
      && Inv(r') && r'.k == r.k && r'.tail == r.tail && r'.headSeen == r.headSeen
      && r'.accepted == r.accepted && |r.received| <= |r'.received|
  {
    assert ConsumerNext(run[p], run[p + 1]);
    ConsumerNextKeeps(run[p], run[p + 1]);
  }

  lemma ProducerStepKeeps<T(!new)>(run: seq<Ring<T>>, p: nat)
    requires ProducerOnly(run) && p + 1 < |run| && Inv(run[p])
    ensures var r, r' := run[p], run[p + 1];
      && Inv(r') && r'.k == r.k && r'.head == r.head && r'.tailSeen == r.tailSeen
      && r'.received == r.received && |r.accepted| <= |r'.accepted|
  {
    assert ProducerNext(run[p], run[p + 1]);
    ProducerNextKeeps(run[p], run[p + 1]);
  }

  lemma {:induction false} ConsumerOnlyKeeps<T(!new)>(run: seq<Ring<T>>, i: nat, j: nat)
    requires ConsumerOnly(run) && i <= j < |run| && Inv(run[i])
    ensures Inv(run[j]) && run[j].k == run[i].k && run[j].tail == run[i].tail && run[j].headSeen == run[i].headSeen
    ensures run[j].accepted == run[i].accepted && |run[i].received| <= |run[j].received|
  {
    if i < j {
      var p := j - 1;
      ConsumerOnlyKeeps(run, i, p);
      ConsumerStepKeeps(run, p);
    }
  }

  lemma {:induction false} ProducerOnlyKeeps<T(!new)>(run: seq<Ring<T>>, i: nat, j: nat)
    requires ProducerOnly(run) && i <= j < |run| && Inv(run[i])
    ensures Inv(run[j]) && run[j].k == run[i].k && run[j].head == run[i].head && run[j].tailSeen == run[i].tailSeen
    ensures run[j].received == run[i].received && |run[i].accepted| <= |run[j].accepted|
  {
    if i < j {
      var p := j - 1;
      ProducerOnlyKeeps(run, i, p);
      ProducerStepKeeps(run, p);
    }
  }

  /** `len` called by the producer while the consumer runs: it loads a head published
      by the time of `run[0]`, its own tail in `run[mid]`, and returns in the last
      state. The answer is never below the number of elements left by then, and
      always fits the ring. */
  lemma ProducerLen<T(!new)>(run: seq<Ring<T>>, mid: nat, count: nat)
    requires ConsumerOnly(run) && Inv(run[0]) && mid < |run|
    requires run[0].headSeen <= count <= |run[0].received|
    ensures var r := run[0]; var last := run[|run| - 1];
      && Inv(last)
      && |Pending(last)| <= MaskedLen(Slot(count, r.k), run[mid].tail, Mask(r.k)) <= Pow2(r.k) - 1
      && MaskedLen(Slot(count, r.k), run[mid].tail, Mask(r.k)) == |r.accepted| - count
  {
    ConsumerOnlyKeeps(run, 0, mid);
    ConsumerOnlyKeeps(run, 0, |run| - 1);
    LenIsDistance(count, |run[0].accepted|, run[0].k);
  }

  /** `len` called by the consumer while the producer runs is never above the number
      of elements present on return; its own head is exact. */
  lemma ConsumerLen<T(!new)>(run: seq<Ring<T>>, mid: nat, count: nat)
    requires ProducerOnly(run) && Inv(run[0]) && mid < |run|
    requires run[0].tailSeen <= count <= |run[mid].accepted|
    ensures var r := run[0]; var last := run[|run| - 1];
      && Inv(last)
      && MaskedLen(r.head, Slot(count, r.k), Mask(r.k)) <= |Pending(last)|
      && MaskedLen(r.head, Slot(count, r.k), Mask(r.k)) == count - |r.received|
  {
    ProducerOnlyKeeps(run, 0, mid);
    ProducerOnlyKeeps(run, mid, |run| - 1);
    LenIsDistance(|run[0].received|, count, run[0].k);
  }

  /** With neither end running, and both indices read as last published, `len` is
      the number of elements stored. */
  lemma QuiescentLen<T>(r: Ring<T>)
    requires Inv(r)
    ensures MaskedLen(r.head, r.tail, Mask(r.k)) == |Pending(r)| <= Pow2(r.k) - 1
  {
    LenIsDistance(|r.received|, |r.accepted|, r.k);
  }
}
