/** `Queue` and `Drain` of evering/src/uring.rs as objects over a shared buffer,
    each method verified while the other end may run between any two of its accesses. */
module Queues {
  import opened Prelude
  import opened Bits
  import opened Offsets

  lemma NextOf<T>(a: seq<T>, vals: seq<T>, n: nat)
    requires n < |vals|
    ensures a + vals[..n] + [vals[n]] == a + vals[..n + 1]
  {
  }

  class Queue<T(0)> {
    const k: nat
    const ringMask: nat
    const buf: array<Option<T>>
    var head: nat
    var tail: nat

    // History: what has passed through, and the newest peer index each end has
    // loaded. Only the choice of a stale value to load depends on these.
    var accepted: seq<T>
    var received: seq<T>
    var headSeen: nat
    var tailSeen: nat

    ghost predicate Valid()
      reads this, buf
    {
      && k <= MAX_EXPONENT && buf.Length == Pow2(k) && ringMask == Mask(k)
      && headSeen <= |received| <= tailSeen <= |accepted| < headSeen + Pow2(k)
      && head == Slot(|received|, k) && tail == Slot(|accepted|, k)
      && received <= accepted
      && forall i {:trigger Slot(i, k)} :: |received| <= i < |accepted| ==> buf[Slot(i, k)] == Some(accepted[i])
    }

    /** The elements sent and not yet received, oldest first. */
    ghost function Contents(): seq<T>
      reads this
      requires |received| <= |accepted|
    {
      accepted[|received|..]
    }

    constructor (k: nat)
      requires k <= MAX_EXPONENT
      ensures Valid() && fresh(buf) && this.k == k
      ensures accepted == [] && received == []
    {
      this.k := k;
      ringMask := Mask(k);
      buf := new Option<T>[Pow2(k)](_ => None);
      head, tail := 0, 0;
      accepted, received, headSeen, tailSeen := [], [], 0, 0;
      new;
      DivModUnique(0, Pow2(k), 0, 0);
    }

    /** The consumer takes any number of elements. */
    method ConsumerRuns()
      requires Valid()
      modifies this`head, this`received, this`tailSeen
      ensures Valid()
      ensures old(received) <= received && old(tailSeen) <= tailSeen
    {
      var steps: nat := *;
      while steps > 0
        invariant Valid() && old(received) <= received && old(tailSeen) <= tailSeen
      {
        var seen: nat := *;
        if tailSeen <= seen <= |accepted| {
          tailSeen := seen;
        }
        if |received| < tailSeen {
          IncIsNext(|received|, k);
          assert buf[Slot(|received|, k)] == Some(accepted[|received|]);
          received := received + [buf[head].value];
          head := Inc(head, ringMask);
        }
        steps := steps - 1;
      }
    }

    /** The producer stores any number of elements. */
    method ProducerRuns()
      requires Valid()
      modifies this`tail, this`accepted, this`headSeen, buf
      ensures Valid()
      ensures old(accepted) <= accepted && old(headSeen) <= headSeen
    {
      var steps: nat := *;
      while steps > 0
        invariant Valid() && old(accepted) <= accepted && old(headSeen) <= headSeen
      {
        var seen: nat := *;
        var val: T := *;
        if headSeen <= seen <= |received| {
          headSeen := seen;
        }
        if |accepted| + 1 < headSeen + buf.Length {
          StorePublish(val);
        }
        steps := steps - 1;
      }
    }

    /** One slot write followed by the store of the next tail. */
    method StorePublish(val: T)
      requires Valid() && |accepted| + 1 < headSeen + buf.Length
      modifies this`tail, this`accepted, buf
      ensures Valid()
      ensures accepted == old(accepted) + [val] && Contents() == old(Contents()) + [val]
      ensures tail == Inc(old(tail), ringMask)
    {
      IncIsNext(|accepted|, k);
      forall i | |received| <= i < |accepted|
        ensures Slot(i, k) != tail
      {
        SlotsDiffer(i, |accepted|, k);
      }
      buf[tail] := Some(val);
      tail := Inc(tail, ringMask);
      accepted := accepted + [val];
    }

    /** An acquire load of `head`: any value published since the last such load. */
    method LoadHead() returns (h: nat, snapshot: nat)
      requires Valid()
      modifies this`headSeen
      ensures Valid()
      ensures old(headSeen) <= snapshot <= |received| && snapshot == headSeen && h == Slot(snapshot, k)
    {
      snapshot := *;
      if !(headSeen <= snapshot <= |received|) {
        snapshot := |received|;
      }
      headSeen := snapshot;
      h := Slot(snapshot, k);
    }

    /** An acquire load of `tail`: any value published since the last such load. */
    method LoadTail() returns (t: nat, snapshot: nat)
      requires Valid()
      modifies this`tailSeen
      ensures Valid()
      ensures old(tailSeen) <= snapshot <= |accepted| && snapshot == tailSeen && t == Slot(snapshot, k)
    {
      snapshot := *;
      if !(tailSeen <= snapshot <= |accepted|) {
        snapshot := |accepted|;
      }
      tailSeen := snapshot;
      t := Slot(snapshot, k);
    }

    /** `len` on the producer's side: what it has stored less what had been released at the
        loaded head, an upper bound on what is left when it returns. */
    method LenForProducer() returns (n: nat, snapshot: nat)
      requires Valid()
      modifies this`head, this`received, this`tailSeen, this`headSeen
      ensures Valid() && old(received) <= received
      ensures old(headSeen) <= snapshot <= |received| && n == |old(accepted)| - snapshot
      ensures |accepted| - |received| <= n <= Pow2(k) - 1
      ensures snapshot == |received| ==> n == |Contents()|
    {
      ConsumerRuns();
      var h;
      h, snapshot := LoadHead();
      ConsumerRuns();
      var t := tail;
      n := MaskedLen(h, t, ringMask);
      LenIsDistance(snapshot, |accepted|, k);
      ConsumerRuns();
    }

    /** `len` on the consumer's side: what had been stored at the loaded tail less what it
        has taken, a lower bound on what is there when it returns. */
    method LenForConsumer() returns (n: nat, snapshot: nat)
      requires Valid()
      modifies this`tail, this`accepted, this`headSeen, this`tailSeen, buf
      ensures Valid() && old(accepted) <= accepted
      ensures old(tailSeen) <= snapshot <= |accepted| && n == snapshot - |old(received)|
      ensures n <= |accepted| - |received|
      ensures snapshot == |accepted| ==> n == |Contents()|
    {
      var h := head;
      ProducerRuns();
      var t;
      t, snapshot := LoadTail();
      n := MaskedLen(h, t, ringMask);
      LenIsDistance(|received|, snapshot, k);
      ProducerRuns();
    }

    /** With nothing running, both indices as last published: exactly what is stored. */
    method LenQuiescent() returns (n: nat)
      requires Valid()
      ensures n == |accepted| - |received| == |Contents()| <= Pow2(k) - 1
    {
      n := MaskedLen(head, tail, ringMask);
      LenIsDistance(|received|, |accepted|, k);
    }

    /** Stores `val`, or gives it back when the loaded head leaves no free slot. */
    method Enqueue(val: T) returns (rejected: Option<T>, snapshot: nat)
      requires Valid()
      modifies this`tail, this`accepted, this`headSeen, this`head, this`received, this`tailSeen, buf
      ensures Valid() && old(received) <= received
      ensures old(headSeen) <= snapshot <= |received|
      ensures if |old(accepted)| - snapshot < Pow2(k) - 1
              then rejected == None && accepted == old(accepted) + [val]
              else rejected == Some(val) && accepted == old(accepted)
      ensures received == old(received) ==>
        Contents() == old(Contents()) + if rejected == None then [val] else []
    {
      var t := tail;
      ConsumerRuns();
      var h;
      h, snapshot := LoadHead();
      ConsumerRuns();
      var nextTail := Inc(t, ringMask);
      FullTest();
      if nextTail == h {
        return Some(val), snapshot;
      }
      StorePublish(val);
      ConsumerRuns();
      return None, snapshot;
    }

    /** The full test against the head loaded last. */
    lemma FullTest()
      requires Valid()
      ensures Inc(tail, ringMask) == Slot(headSeen, k) <==> |accepted| + 1 == headSeen + Pow2(k)
    {
      IncIsNext(|accepted|, k);
      SameSlot(headSeen, |accepted| + 1, k);
    }

    /** Stores leading items of the iterator `vals` until they run out or the ring looks
        full against the one head loaded at the start. It draws just what it stores. */
    method EnqueueBulk(vals: seq<T>) returns (n: nat, drawn: nat, snapshot: nat)
      requires Valid()
      modifies this`tail, this`accepted, this`headSeen, this`head, this`received, this`tailSeen, buf
      ensures Valid() && old(received) <= received
      ensures old(headSeen) <= snapshot <= |received|
      ensures n == Min(|vals|, Pow2(k) - 1 - (|old(accepted)| - snapshot))
      ensures drawn == n && accepted == old(accepted) + vals[..n]
    {
      ConsumerRuns();
      var h;
      h, snapshot := LoadHead();
      n, drawn := StoreItems(vals, h);
    }

    /** The loop of `enqueue_bulk` against the loaded head `h`. */
    method StoreItems(vals: seq<T>, h: nat) returns (n: nat, drawn: nat)
      requires Valid() && h == Slot(headSeen, k)
      modifies this`tail, this`accepted, this`head, this`received, this`tailSeen, buf
      ensures Valid() && old(received) <= received
      ensures n == Min(|vals|, Pow2(k) - 1 - (|old(accepted)| - headSeen))
      ensures drawn == n && accepted == old(accepted) + vals[..n]
    {
      var t := tail;
      n, drawn := 0, 0;
      while true
        invariant Valid() && old(received) <= received && t == tail
        invariant drawn == n <= |vals| && accepted == old(accepted) + vals[..n] && |accepted| == |old(accepted)| + n
        decreases |vals| - n
      {
        ConsumerRuns();
        var nextTail := Inc(t, ringMask);
        FullTest();
        if nextTail == h {
          break;
        }
        if drawn == |vals| {
          break;
        }
        var val := vals[drawn];
        drawn := drawn + 1;
        NextOf(old(accepted), vals, n);
        StorePublish(val);
        n := n + 1;
        t := nextTail;
      }
    }

    /** Takes the oldest element, unless the loaded tail shows none. */
    method Dequeue() returns (val: Option<T>, snapshot: nat)
      requires Valid()
      modifies this`head, this`received, this`tailSeen, this`tail, this`accepted, this`headSeen, buf
      ensures Valid() && old(accepted) <= accepted
      ensures old(tailSeen) <= snapshot <= |accepted|
      ensures if |old(received)| < snapshot
              then val == Some(accepted[|old(received)|]) && received == old(received) + [val.value]
              else val == None && received == old(received)
      ensures accepted == old(accepted) ==> old(Contents()) == (if val.Some? then [val.value] else []) + Contents()
    {
      var drain := new Drain<T>(this);
      snapshot := drain.snapshot;
      val := drain.Next();
    }

    /** Drops what is left, once neither end can run any more. */
    method DropInPlace() returns (dropped: seq<T>)
      requires Valid()
      ensures dropped == accepted[|received|..] == Contents()
    {
      var h, t := head, tail;
      dropped := [];
      ghost var n := |received|;
      while h != t
        invariant |received| <= n <= |accepted| && h == Slot(n, k) && t == tail
        invariant dropped == accepted[|received|..n]
        decreases |accepted| - n
      {
        assert n != |accepted|;
        assert buf[Slot(n, k)] == Some(accepted[n]);
        dropped := dropped + [buf[h].value];
        IncIsNext(n, k);
        h := Inc(h, ringMask);
        n := n + 1;
      }
      SameSlot(n, |accepted|, k);
    }
  }

  /** The consumer's iterator over one loaded tail. */
  class Drain<T(0)> {
    const q: Queue<T>
    const tail: nat
    const start: nat     // history: elements received when the drain began
    const snapshot: nat  // history: elements published at the loaded tail
    var head: nat

    ghost predicate Valid()
      reads this, q, q.buf
    {
      && q.Valid() && head == q.head && tail == Slot(snapshot, q.k)
      && start <= |q.received| <= snapshot <= q.tailSeen
    }

    /** `dequeue_bulk`: loads the own head, then the peer's tail. */
    constructor (q: Queue<T>)
      requires q.Valid()
      modifies q`tailSeen, q`tail, q`accepted, q`headSeen, q.buf
      ensures Valid() && this.q == q && q.received == old(q.received) && old(q.accepted) <= q.accepted
      ensures start == |q.received| && old(q.tailSeen) <= snapshot == q.tailSeen
    {
      var h := q.head;
      q.ProducerRuns();
      var t, s := q.LoadTail();
      this.q := q;
      head := h;
      tail := t;
      snapshot := s;
      start := |q.received|;
    }

    /** Yields the next element of the snapshot, releasing its slot, however far the
        producer has run on. */
    method Next() returns (val: Option<T>)
      requires Valid()
      modifies this`head, q`head, q`received, q`tail, q`accepted, q`headSeen, q.buf
      ensures Valid() && old(q.accepted) <= q.accepted
      ensures if |old(q.received)| < snapshot
              then val == Some(q.accepted[|old(q.received)|]) && q.received == old(q.received) + [val.value]
              else val == None && q.received == old(q.received)
      ensures q.accepted == old(q.accepted) ==>
        old(q.Contents()) == (if val.Some? then [val.value] else []) + q.Contents()
    {
      q.ProducerRuns();
      SameSlot(|q.received|, snapshot, q.k);
      if head == tail {
        return None;
      }
      IncIsNext(|q.received|, q.k);
      assert q.buf[Slot(|q.received|, q.k)] == Some(q.accepted[|q.received|]);
      var nextHead := Inc(head, q.ringMask);
      val := q.buf[head];
      q.received := q.received + [val.value];
      q.head := nextHead;
      head := nextHead;
    }

    /** Runs the drain dry: exactly the elements up to the loaded tail, in order. */
    method Collect() returns (vals: seq<T>)
      requires Valid()
      modifies this`head, q`head, q`received, q`tail, q`accepted, q`headSeen, q.buf
      ensures Valid() && old(q.accepted) <= q.accepted
      ensures vals == q.accepted[|old(q.received)|..snapshot]
      ensures q.received == old(q.received) + vals && |q.received| == snapshot
    {
      vals := [];
      while true
        invariant Valid() && old(q.accepted) <= q.accepted
        invariant |old(q.received)| + |vals| == |q.received|
        invariant q.received == old(q.received) + vals
        invariant vals == q.accepted[|old(q.received)|..|q.received|]
        decreases snapshot - |q.received|
      {
        var val := Next();
        if val == None {
          break;
        }
        vals := vals + [val.value];
      }
    }
  }
}
