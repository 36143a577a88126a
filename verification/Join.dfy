/** The join handle of local-executor/src/task.rs: a task cell that its executor polls
    and its handle reads or aborts. */
module Join {
  import opened Prelude

  datatype TaskState<T> = Pending(waker: Option<Waker>) | Ready(val: Option<T>)

  /** What the environment does. A poll by the executor carries what the future would
      answer if it were polled now: an output, or nothing while it is pending. */
  datatype Event<T> = Poll(answer: Option<T>) | Read(waker: Waker) | Abort

  /** What became visible: answers of the polls that did reach the future, outputs
      handed to the handle, and wakers woken. */
  datatype History<T> = History(state: TaskState<T>, futurePolls: seq<Option<T>>, delivered: seq<T>, woken: seq<Waker>)

  function AsSeq<T>(o: Option<T>): seq<T> {
    if o.Some? then [o.value] else []
  }

  class TaskCell<T> {
    var state: TaskState<T>

    // History, never read by the cell itself.
    ghost var futurePolls: seq<Option<T>>
    ghost var delivered: seq<T>
    ghost var woken: seq<Waker>

    ghost function Value(): History<T>
      reads this
    {
      History(state, futurePolls, delivered, woken)
    }

    constructor ()
      ensures Value() == History(Pending(None), [], [], [])
    {
      state := Pending(None);
      futurePolls, delivered, woken := [], [], [];
    }

    /** `answer` is what polling the future would return. */
    method Poll(answer: Option<T>) returns (ready: bool)
      modifies this
      ensures Value() == After(old(Value()), Event.Poll(answer))
      ensures ready <==> state.Ready?
    {
      match state
      case Ready(_) => ready := true;
      case Pending(waker) =>
        futurePolls := futurePolls + [answer];
        if answer.None? {
          return false;
        }
        state := Ready(answer);
        if waker.Some? {
          woken := woken + [waker.value];
        }
        ready := true;
    }

    /** Swaps the output out, or leaves the reader's waker. */
    method Read(waker: Waker) returns (output: Option<T>)
      modifies this
      ensures Value() == After(old(Value()), Event.Read(waker))
      ensures output == if old(state).Ready? then old(state).val else None
    {
      output := None;
      match state
      case Ready(val) =>
        output := val;
        delivered := delivered + AsSeq(output);
        state := Ready(None);
      case Pending(Some(w)) =>
        if !w.WillWake(waker) {
          state := Pending(Some(waker));
        } else {
          state := Pending(Some(waker));
        }
      case Pending(None) =>
        state := Pending(Some(waker));
    }

    method Abort()
      modifies this
      ensures Value() == After(old(Value()), Event.Abort)
    {
      state := Ready(None);
    }
  }

  /** One event's effect on the cell and what can be seen of it. */
  function After<T>(h: History<T>, e: Event<T>): History<T> {
    match e
    case Poll(answer) =>
      (match h.state
       case Ready(_) => h
       case Pending(waker) =>
         var h' := h.(futurePolls := h.futurePolls + [answer]);
         if answer.None? then h' else h'.(state := Ready(answer), woken := h.woken + AsSeq(waker)))
    case Read(waker) =>
      (match h.state
       case Ready(val) => h.(state := Ready(None), delivered := h.delivered + AsSeq(val))
       case Pending(_) => h.(state := Pending(Some(waker))))
    case Abort => h.(state := Ready(None))
  }

  function Play<T>(events: seq<Event<T>>): History<T> {
    if events == [] then History(Pending(None), [], [], [])
    else After(Play(events[..|events| - 1]), events[|events| - 1])
  }

  // ---------------------------------------- the same, read off the event sequence

  predicate Ends<T>(e: Event<T>) {
    e.Abort? || (e.Poll? && e.answer.Some?)
  }

  /** The index of the event that ends the future, or the number of events. */
  function EndOf<T>(events: seq<Event<T>>): (c: nat)
    ensures c <= |events|
    ensures forall i :: 0 <= i < c ==> !Ends(events[i])
    ensures c < |events| ==> Ends(events[c])
  {
    if events == [] then 0
    else
      var c := EndOf(events[..|events| - 1]);
      if c < |events| - 1 || Ends(events[|events| - 1]) then c else |events|
  }

  /** The waker of the last read. */
  function LastReader<T>(events: seq<Event<T>>): Option<Waker> {
    if events == [] then None
    else if events[|events| - 1].Read? then Some(events[|events| - 1].waker)
    else LastReader(events[..|events| - 1])
  }

  /** The polls of a prefix before the end: all pending. */
  function PollsIn<T>(events: seq<Event<T>>): seq<Option<T>> {
    if events == [] then []
    else PollsIn(events[..|events| - 1]) + (if events[|events| - 1].Poll? then [events[|events| - 1].answer] else [])
  }

  /** The first event that is not a poll, or the number of events. */
  function FirstNonPoll<T>(events: seq<Event<T>>): (k: nat)
    ensures k <= |events|
    ensures forall i :: 0 <= i < k ==> events[i].Poll?
    ensures k < |events| ==> !events[k].Poll?
  {
    if events == [] then 0
    else
      var k := FirstNonPoll(events[..|events| - 1]);
      if k < |events| - 1 || !events[|events| - 1].Poll? then k else |events|
  }

  /** What becomes of the output once the future has returned it: the first read takes
      it, unless an abort comes first. */
  function Handover<T>(rest: seq<Event<T>>, output: Option<T>): (Option<T>, seq<T>) {
    var k := FirstNonPoll(rest);
    if k == |rest| then (output, []) else (None, if rest[k].Read? then AsSeq(output) else [])
  }

  /** The whole history in closed form. */
  function Expected<T>(events: seq<Event<T>>): History<T> {
    ExpectedAt(events, EndOf(events))
  }

  /** ... given the index of the event that ends the future. */
  function ExpectedAt<T>(events: seq<Event<T>>, c: nat): History<T>
    requires c <= |events| && (c < |events| ==> Ends(events[c]))
  {
    if c == |events| then
      History(Pending(LastReader(events)), PollsIn(events), [], [])
    else if events[c].Abort? then
      History(Ready(None), PollsIn(events[..c]), [], [])
    else
      var (kept, delivered) := Handover(events[c + 1..], events[c].answer);
      History(Ready(kept), PollsIn(events[..c]) + [events[c].answer], delivered, AsSeq(LastReader(events[..c])))
  }

  /** Every interleaving of polls, reads and aborts has exactly the expected history:
      the future is polled until it answers or is aborted and never again; its output
      goes to the first read after completion, unless an abort comes first, and to no
      other; completion wakes the waker of the last pending read, once. */
  lemma {:induction false} JoinHandover<T>(events: seq<Event<T>>)
    ensures Play(events) == Expected(events)
  {
    if events != [] {
      var n := |events| - 1;
      JoinHandover(events[..n]);
      if EndOf(events[..n]) < n {
        EndStays(events[..n], events[n]);
        AfterEnd(events[..n], EndOf(events[..n]), events[n]);
      } else {
        ExpectedBeforeEnd(events[..n], events[n]);
      }
      assert events == events[..n] + [events[n]];
    }
  }

  lemma EndStays<T>(before: seq<Event<T>>, e: Event<T>)
    requires EndOf(before) < |before|
    ensures EndOf(before + [e]) == EndOf(before)
  {
    assert (before + [e])[..|before|] == before;
  }

  lemma AfterEnd<T>(before: seq<Event<T>>, c: nat, e: Event<T>)
    requires c < |before| && Ends(before[c])
    ensures ExpectedAt(before + [e], c) == After(ExpectedAt(before, c), e)
  {
    var events := before + [e];
    assert events[..c] == before[..c] && events[c] == before[c];
    assert events[c + 1..] == before[c + 1..] + [e];
    if before[c].Poll? {
      HandoverGrows(before[c + 1..], before[c].answer, e);
    } else {
      assert After(ExpectedAt(before, c), e).delivered == [];
    }
  }

  lemma ExpectedBeforeEnd<T>(before: seq<Event<T>>, e: Event<T>)
    requires EndOf(before) == |before|
    ensures Expected(before + [e]) == After(Expected(before), e)
  {
    var events := before + [e];
    assert events[..|before|] == before;
    assert Ends(e) ==> events[|before| + 1..] == [];
  }

  lemma HandoverGrows<T>(rest: seq<Event<T>>, output: Option<T>, e: Event<T>)
    ensures var (kept, delivered) := Handover(rest, output);
      Handover(rest + [e], output) == match e
        case Poll(_) => (kept, delivered)
        case Read(_) => (None, delivered + AsSeq(kept))
        case Abort => (None, delivered)
  {
    var k := FirstNonPoll(rest);
    assert (rest + [e])[..|rest|] == rest;
    assert k < |rest| ==> (rest + [e])[k] == rest[k];
    var (kept, delivered) := Handover(rest, output);
    assert delivered + [] == delivered && [] + AsSeq(output) == AsSeq(output);
  }

  lemma {:induction false} PollsPending<T>(events: seq<Event<T>>)
    requires forall i :: 0 <= i < |events| ==> !Ends(events[i])
    ensures forall i :: 0 <= i < |PollsIn(events)| ==> PollsIn(events)[i] == None
  {
    if events != [] {
      PollsPending(events[..|events| - 1]);
    }
  }

  /** In particular, over every interleaving: no poll reaches the future after one that
      returned an output, at most one output is ever delivered, and at most one waker
      is ever woken. */
  lemma DeliveredAtMostOnce<T>(events: seq<Event<T>>)
    ensures var h := Play(events);
      && (forall i :: 0 <= i < |h.futurePolls| - 1 ==> h.futurePolls[i] == None)
      && |h.delivered| <= 1 && |h.woken| <= 1
      && (h.delivered != [] ==> h.futurePolls != [] && h.futurePolls[|h.futurePolls| - 1] == Some(h.delivered[0]))
  {
    JoinHandover(events);
    PollsPending(events[..EndOf(events)]);
    assert events[..|events|] == events;
  }
}
