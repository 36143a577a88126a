/** The operation driver of evering/src/driver.rs and the `Op` handle of evering/src/op.rs.

    The functions say what each call does to a driver value; the class `DriverInner`
    performs the same calls on a driver updated in place. */
module Drivers {
  import opened Prelude

  type OpId = nat

  /** `P` is the payload of a response, `R` what a cancellation keeps alive. */
  datatype Lifecycle<P, R> =
    | Submitted
    | Waiting(waker: Waker)
    | Completed(payload: P)
    | Cancelled(kept: Option<R>)

  datatype RawOp<P, R, E> = RawOp(state: Lifecycle<P, R>, ext: E)

  datatype Driver<P, R, E> = Driver(ops: map<OpId, RawOp<P, R, E>>, capacity: nat)

  datatype Poll<P, E> = Pending | Ready(payload: P, ext: E) | PollPanic

  datatype Completion<P, E> = Accepted(woken: Option<Waker>) | Refused(payload: P, ext: E) | CompletePanic

  /** What dropping a handle did; `CalledBack` if the cancellation was asked for. */
  datatype Removal = Untouched | CalledBack | Discarded | RemovePanic

  function Update<P, R, E>(d: Driver<P, R, E>, id: OpId, state: Lifecycle<P, R>): Driver<P, R, E>
    requires id in d.ops
  {
    d.(ops := d.ops[id := d.ops[id].(state := state)])
  }

  function Vacate<P, R, E>(d: Driver<P, R, E>, id: OpId): Driver<P, R, E> {
    d.(ops := d.ops - {id})
  }

  /** `Slab::insert` may use any vacant key. */
  function Insert<P, R, E>(d: Driver<P, R, E>, id: OpId, ext: E): Driver<P, R, E>
    requires id !in d.ops
  {
    d.(ops := d.ops[id := RawOp(Submitted, ext)])
  }

  predicate HasRoom<P, R, E>(d: Driver<P, R, E>) {
    |d.ops| != d.capacity
  }

  function PollOp<P, R, E>(d: Driver<P, R, E>, id: OpId, waker: Waker): (Driver<P, R, E>, Poll<P, E>) {
    if id !in d.ops then (d, PollPanic) else
    match d.ops[id].state
    case Submitted => (Update(d, id, Waiting(waker)), Pending)
    case Waiting(w) => (if w.WillWake(waker) then d else Update(d, id, Waiting(waker)), Pending)
    case Completed(payload) => (Vacate(d, id), Ready(payload, d.ops[id].ext))
    case Cancelled(_) => (Update(d, id, Submitted), PollPanic)
  }

  function CompleteOp<P, R, E>(d: Driver<P, R, E>, id: OpId, payload: P): (Driver<P, R, E>, Completion<P, E>) {
    if id !in d.ops then (d, CompletePanic) else
    match d.ops[id].state
    case Submitted => (Update(d, id, Completed(payload)), Accepted(None))
    case Waiting(w) => (Update(d, id, Completed(payload)), Accepted(Some(w)))
    case Completed(_) => (Update(d, id, Submitted), CompletePanic)
    case Cancelled(_) => (Vacate(d, id), Refused(payload, d.ops[id].ext))
  }

  /** `callback` is what the handle's cancellation would yield, or `None` if asking
      for it panics because the handle's data has been taken. */
  function RemoveOp<P, R, E>(d: Driver<P, R, E>, id: OpId, callback: Option<Option<R>>): (Driver<P, R, E>, Removal) {
    if id !in d.ops then (d, Untouched) else
    match d.ops[id].state
    case Submitted => CancelOp(d, id, callback)
    case Waiting(_) => CancelOp(d, id, callback)
    case Completed(_) => (Vacate(d, id), Discarded)
    case Cancelled(_) => (Update(d, id, Submitted), RemovePanic)
  }

  function CancelOp<P, R, E>(d: Driver<P, R, E>, id: OpId, callback: Option<Option<R>>): (Driver<P, R, E>, Removal)
    requires id in d.ops
  {
    match callback
    case None => (Update(d, id, Submitted), RemovePanic)
    case Some(kept) => (Update(d, id, Cancelled(kept)), CalledBack)
  }

  /** The driver may be dropped without a panic. */
  predicate MayDrop<P, R, E>(d: Driver<P, R, E>) {
    forall id :: id in d.ops ==> d.ops[id].state.Completed?
  }

  // ------------------------------------------------------------- properties

  /** Every call touches the slot it names and no other, and a vacant one not at all. */
  lemma PollOneSlot<P, R, E>(d: Driver<P, R, E>, id: OpId, waker: Waker)
    ensures var d' := PollOp(d, id, waker).0;
      OneEntry(d.ops, d'.ops, id) && (id !in d.ops ==> d' == d) && d'.capacity == d.capacity
  {
  }

  lemma RemoveOneSlot<P, R, E>(d: Driver<P, R, E>, id: OpId, callback: Option<Option<R>>)
    ensures var d' := RemoveOp(d, id, callback).0;
      OneEntry(d.ops, d'.ops, id) && (id !in d.ops ==> d' == d) && d'.capacity == d.capacity
  {
  }

  lemma CompleteOneSlot<P, R, E>(d: Driver<P, R, E>, id: OpId, payload: P)
    ensures var d' := CompleteOp(d, id, payload).0;
      OneEntry(d.ops, d'.ops, id) && (id !in d.ops ==> d' == d) && d'.capacity == d.capacity
  {
  }

  /** Polling one operation with one waker after the other. */
  function Polls<P, R, E>(d: Driver<P, R, E>, id: OpId, wakers: seq<Waker>): Driver<P, R, E> {
    if wakers == [] then d
    else PollOp(Polls(d, id, wakers[..|wakers| - 1]), id, wakers[|wakers| - 1]).0
  }

  /** Any number of polls with whatever wakers leaves an uncompleted operation waiting
      for a waker equivalent to the last one, and everything else as it was. */
  lemma {:induction false} PollsWait<P, R, E>(d: Driver<P, R, E>, id: OpId, wakers: seq<Waker>)
    requires id in d.ops && (d.ops[id].state.Submitted? || d.ops[id].state.Waiting?) && wakers != []
    ensures var d' := Polls(d, id, wakers);
      && id in d'.ops && d'.ops[id].ext == d.ops[id].ext && d'.ops[id].state.Waiting?
      && d'.ops[id].state.waker.WillWake(wakers[|wakers| - 1])
      && d'.ops.Keys == d.ops.Keys && d'.ops - {id} == d.ops - {id} && d'.capacity == d.capacity
  {
    var rest := wakers[..|wakers| - 1];
    if rest != [] {
      PollsWait(d, id, rest);
    }
  }

  /** No lost wake-up: after polls with changing wakers, completing wakes exactly the
      last poll's task, once, or nobody if there was no poll, and the next poll by
      anyone yields the payload with the extension given at submission and frees the
      slot. */
  lemma {:induction false} NoLostWakeup<P, R, E>(d: Driver<P, R, E>, id: OpId, ext: E, wakers: seq<Waker>, payload: P, next: Waker)
    requires id !in d.ops
    ensures var waiting := Polls(Insert(d, id, ext), id, wakers);
      var (completed, outcome) := CompleteOp(waiting, id, payload);
      var (final, polled) := PollOp(completed, id, next);
      && outcome.Accepted?
      && (wakers == [] <==> outcome.woken == None)
      && (wakers != [] ==> outcome.woken.value.WillWake(wakers[|wakers| - 1]))
      && polled == Ready(payload, ext)
      && final == d
  {
    var inserted := Insert(d, id, ext);
    if wakers != [] {
      PollsWait(inserted, id, wakers);
    }
    var waiting := Polls(inserted, id, wakers);
    assert waiting.ops - {id} == d.ops;
  }

  /** A cancelled operation keeps its slot until the response comes, and the response
      then comes back with the extension given at submission. */
  lemma CancelledKeepsSlot<P, R, E>(d: Driver<P, R, E>, id: OpId, ext: E, wakers: seq<Waker>, kept: Option<R>, payload: P)
    requires id !in d.ops
    ensures var submitted := Polls(Insert(d, id, ext), id, wakers);
      var (cancelled, removal) := RemoveOp(submitted, id, Some(kept));
      && removal == CalledBack && id in cancelled.ops && cancelled.ops[id].state == Cancelled(kept)
      && CompleteOp(cancelled, id, payload) == (d, Refused(payload, ext))
  {
    var inserted := Insert(d, id, ext);
    if wakers != [] {
      PollsWait(inserted, id, wakers);
    }
    var submitted := Polls(inserted, id, wakers);
    assert submitted.ops - {id} == d.ops;
    var cancelled := RemoveOp(submitted, id, Some(kept)).0;
    assert cancelled.ops - {id} == d.ops;
  }

  /** Dropping a handle that has already yielded its output leaves every operation
      alone if and only if its id has not been issued again. Reissued, the stranger's
      operation loses its result or the drop panics. */
  lemma StaleDrop<P, R, E>(d: Driver<P, R, E>, id: OpId)
    ensures RemoveOp(d, id, None) == (d, Untouched) <==> id !in d.ops
    ensures id in d.ops ==>
      var (d', removal) := RemoveOp(d, id, None);
      removal == RemovePanic || (removal == Discarded && d.ops[id].state.Completed? && id !in d'.ops)
  {
    var (d', removal) := RemoveOp(d, id, None);
  }

  /** How a stale handle comes about. An operation is submitted, polled, completed and
      polled to Ready; dropped now, its handle does nothing. If the id is issued to a
      stranger first, the drop panics while the stranger's operation is unfinished, and
      afterwards throws its result away, so that the stranger's own next poll panics. */
  lemma StaleDropSequence<P, R, E>(d: Driver<P, R, E>, id: OpId, ext: E, wakers: seq<Waker>, payload: P, waker: Waker,
                                   ext': E, wakers': seq<Waker>, payload': P, waker': Waker)
    requires id !in d.ops
    ensures var completed := CompleteOp(Polls(Insert(d, id, ext), id, wakers), id, payload).0;
      var (after, polled) := PollOp(completed, id, waker);
      && polled == Ready(payload, ext) && RemoveOp(after, id, None) == (d, Untouched)
      && var stranger := Polls(Insert(after, id, ext'), id, wakers');
      && RemoveOp(stranger, id, None).1 == RemovePanic
      && var finished := CompleteOp(stranger, id, payload').0;
      && PollOp(finished, id, waker') == (d, Ready(payload', ext'))
      && RemoveOp(finished, id, None) == (d, Discarded)
      && PollOp(RemoveOp(finished, id, None).0, id, waker').1 == PollPanic
  {
    NoLostWakeup(d, id, ext, wakers, payload, waker);
    NoLostWakeup(d, id, ext', wakers', payload', waker');
    var inserted := Insert(d, id, ext');
    if wakers' != [] {
      PollsWait(inserted, id, wakers');
    }
    assert Polls(inserted, id, wakers').ops - {id} == d.ops;
  }

  // ------------------------------------------------- the driver in place

  class DriverInner<P, R, E> {
    var ops: map<OpId, RawOp<P, R, E>>
    var capacity: nat

    ghost predicate Valid()
      reads this
    {
      |ops| <= capacity
    }

    function Value(): Driver<P, R, E>
      reads this
    {
      Driver(ops, capacity)
    }

    constructor WithCapacity(capacity: nat)
      ensures Valid() && Value() == Driver(map[], capacity)
    {
      this.capacity := capacity;
      ops := map[];
    }

    /** Inserts unconditionally; a full slab grows. */
    method Submit(ext: E) returns (id: OpId)
      requires Valid()
      modifies this
      ensures Valid() && id !in old(ops)
      ensures ops == Insert(old(Value()), id, ext).ops
      ensures if HasRoom(old(Value())) then capacity == old(capacity) else capacity > old(capacity)
    {
      id := VacantKey();
      if |ops| == capacity {
        var grown: nat := *;
        capacity := if grown > capacity then grown else capacity + 1;
      }
      ops := ops[id := RawOp(Submitted, ext)];
    }

    method VacantKey() returns (id: OpId)
      ensures id !in ops
    {
      ghost var other := FreshNumber(ops.Keys);
      id :| id !in ops;
    }

    /** Inserts if there is spare capacity, otherwise gives `ext` back. */
    method TrySubmit(ext: E) returns (id: Option<OpId>, rejected: Option<E>)
      requires Valid()
      modifies this
      ensures Valid() && capacity == old(capacity)
      ensures id.Some? <==> HasRoom(old(Value()))
      ensures id.Some? ==> id.value !in old(ops) && Value() == Insert(old(Value()), id.value, ext) && rejected == None
      ensures id.None? ==> Value() == old(Value()) && rejected == Some(ext)
    {
      if |ops| == capacity {
        return None, Some(ext);
      }
      var key := Submit(ext);
      return Some(key), None;
    }

    method Poll(id: OpId, waker: Waker) returns (r: Poll<P, E>)
      requires Valid()
      modifies this
      ensures Valid() && (Value(), r) == PollOp(old(Value()), id, waker)
    {
      if id !in ops {
        return PollPanic;
      }
      ghost var before := ops;
      var op := ops[id];
      ops := ops[id := op.(state := Submitted)];
      match op.state
      case Submitted =>
        ops := ops[id := op.(state := Waiting(waker))];
        assert ops == before[id := op.(state := Waiting(waker))];
        r := Pending;
      case Waiting(w) =>
        if !w.WillWake(waker) {
          ops := ops[id := op.(state := Waiting(waker))];
          assert ops == before[id := op.(state := Waiting(waker))];
        } else {
          ops := ops[id := op.(state := Waiting(w))];
          assert op.(state := Waiting(w)) == op && ops == before;
        }
        r := Pending;
      case Completed(payload) =>
        ops := ops - {id};
        assert ops == before - {id};
        r := Ready(payload, op.ext);
      case Cancelled(_) =>
        r := PollPanic;
    }

    method Complete(id: OpId, payload: P) returns (r: Completion<P, E>)
      requires Valid()
      modifies this
      ensures Valid() && (Value(), r) == CompleteOp(old(Value()), id, payload)
    {
      if id !in ops {
        return CompletePanic;
      }
      ghost var before := ops;
      var op := ops[id];
      ops := ops[id := op.(state := Submitted)];
      match op.state
      case Submitted =>
        ops := ops[id := op.(state := Completed(payload))];
        assert ops == before[id := op.(state := Completed(payload))];
        r := Accepted(None);
      case Waiting(w) =>
        ops := ops[id := op.(state := Completed(payload))];
        assert ops == before[id := op.(state := Completed(payload))];
        r := Accepted(Some(w));
      case Completed(_) =>
        r := CompletePanic;
      case Cancelled(_) =>
        ops := ops - {id};
        assert ops == before - {id};
        r := Refused(payload, op.ext);
    }

    method Remove(id: OpId, callback: Option<Option<R>>) returns (r: Removal)
      requires Valid()
      modifies this
      ensures Valid() && (Value(), r) == RemoveOp(old(Value()), id, callback)
    {
      if id !in ops {
        return Untouched;
      }
      ghost var before := ops;
      var op := ops[id];
      ops := ops[id := op.(state := Submitted)];
      if op.state.Submitted? || op.state.Waiting? {
        match callback
        case None => r := RemovePanic;
        case Some(kept) =>
          ops := ops[id := op.(state := Cancelled(kept))];
          assert ops == before[id := op.(state := Cancelled(kept))];
          r := CalledBack;
      } else if op.state.Completed? {
        ops := ops - {id};
        assert ops == before - {id};
        r := Discarded;
      } else {
        r := RemovePanic;
      }
    }
  }

  /** The handle of a submitted operation. `data` is given up exactly once: to the
      output, or to the cancellation. */
  class Op<P, R, E> {
    const driver: DriverInner<P, R, E>
    const id: OpId
    var data: Option<R>

    constructor (driver: DriverInner<P, R, E>, id: OpId, data: R)
      ensures this.driver == driver && this.id == id && this.data == Some(data)
    {
      this.driver := driver;
      this.id := id;
      this.data := Some(data);
    }

    /** Ready hands the data out together with payload and extension; `panicked` is
        the `expect` on data already taken. */
    method Poll(waker: Waker) returns (r: Poll<P, E>, output: Option<R>, panicked: bool)
      requires driver.Valid()
      modifies this, driver
      ensures driver.Valid() && (driver.Value(), r) == PollOp(old(driver.Value()), id, waker)
      ensures r.Ready? ==> data == None && output == old(data) && panicked == old(data.None?)
      ensures !r.Ready? ==> data == old(data) && output == None && panicked == r.PollPanic?
    {
      r := driver.Poll(id, waker);
      panicked := r.PollPanic?;
      output := None;
      if r.Ready? {
        output, data := data, None;
        panicked := output.None?;
      }
    }

    /** Dropping: an unfinished operation is cancelled. A cancellation that recycles moves
        the data into the slot; otherwise what data remains is dropped with the handle. */
    method Drop(recycle: bool) returns (r: Removal, released: Option<R>)
      requires driver.Valid()
      modifies this, driver
      ensures driver.Valid() && data == None
      ensures (driver.Value(), r) == RemoveOp(old(driver.Value()), id,
                if old(data).None? then None else if recycle then Some(old(data)) else Some(None))
      ensures released == if r == CalledBack && recycle then None else old(data)
    {
      var callback := if data.None? then None else if recycle then Some(data) else Some(None);
      r := driver.Remove(id, callback);
      released := if r == CalledBack && recycle then None else data;
      data := None;
    }
  }
}
