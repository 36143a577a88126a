/** Every way a client may use one driver: submitting (growing a full slab or not),
    sending, polling, dropping and completing operations in any order, with slot ids
    reused at once. Whether a cancellation recycles the resource or is a no-op may
    differ from one operation to the next.

    Each submission gets a serial number of its own; the resource it lends out is
    named by that number. A client completes an operation at most once and only
    after sending it, drops a handle at most once, does not poll after Ready, and has
    dropped a handle that returned Ready before its id is issued again. */
module Protocol {
  import opened Prelude
  import opened Drivers

  type Serial = nat

  /** A live submit future (`!sent`) or `Op`; `data == None` once Ready was returned. */
  datatype Handle = Handle(id: OpId, sent: bool, data: Option<Serial>, polled: Option<Waker>)

  datatype Fate<P, E> =
    | Delivered(payload: P, ext: E)
    | Unread(payload: P)
    | ReturnedAsErr(payload: P, ext: E)

  datatype World<P, E> = World(
    driver: Driver<P, Serial, E>,
    handles: map<Serial, Handle>,
    // History: ids and extensions by serial; who occupies a slot; sent and not yet
    // completed; payloads given to `complete`; wakers it woke; how completed
    // operations ended; resources dropped and handed to the caller; operations
    // cancelled without recycling; submissions dropped before they were sent.
    ids: seq<OpId>,
    exts: seq<E>,
    occupant: map<OpId, Serial>,
    inFlight: set<Serial>,
    answers: map<Serial, P>,
    woken: map<Serial, Option<Waker>>,
    fates: map<Serial, Fate<P, E>>,
    released: seq<Serial>,
    handedOut: seq<Serial>,
    unkept: set<Serial>,
    forsaken: set<Serial>,
    panicked: bool)

  function Start<P, E>(capacity: nat): World<P, E> {
    World(Driver(map[], capacity), map[], [], [], map[], {}, map[], map[], map[], [], [], {}, {}, false)
  }

  datatype Step<P, E> =
    | Submit(id: OpId, ext: E, capacity: nat)     // submit: a full slab grows to `capacity`
    | TrySubmit(id: OpId, ext: E)   // try_submit found room and the slab chose `id`
    | Forsake(s: Serial)            // the submit future is dropped before its entry is sent
    | Send(s: Serial)               // the entry is sent and the `Op` created
    | PollHandle(s: Serial, waker: Waker)
    | DropHandle(s: Serial, recycle: bool)  // a cancellation recycles the data or drops it
    | Complete(s: Serial, payload: P)

  predicate Can<P, E>(w: World<P, E>, step: Step<P, E>) {
    match step
    case Submit(id, _, capacity) =>
      && MayIssue(w, id)
      && (if HasRoom(w.driver) then capacity == w.driver.capacity else capacity > w.driver.capacity)
    case TrySubmit(id, _) => HasRoom(w.driver) && MayIssue(w, id)
    case Forsake(s) => s in w.handles && !w.handles[s].sent
    case Send(s) => s in w.handles && !w.handles[s].sent
    case PollHandle(s, _) => s in w.handles && w.handles[s].sent && w.handles[s].data.Some?
    case DropHandle(s, _) => s in w.handles && w.handles[s].sent
    case Complete(s, _) => s in w.inFlight && s < |w.ids|
  }

  /** A vacant id may be issued unless a handle that returned Ready still names it. */
  predicate MayIssue<P, E>(w: World<P, E>, id: OpId) {
    id !in w.driver.ops && forall s :: s in w.handles && w.handles[s].data.None? ==> w.handles[s].id != id
  }

  function Do<P, E>(w: World<P, E>, step: Step<P, E>): World<P, E>
    requires Can(w, step)
  {
    match step
    case Submit(id, ext, capacity) => DoSubmit(w.(driver := w.driver.(capacity := capacity)), id, ext)
    case TrySubmit(id, ext) => DoSubmit(w, id, ext)
    case Forsake(s) =>
      w.(handles := w.handles - {s}, released := w.released + [s], forsaken := w.forsaken + {s})
    case Send(s) => w.(handles := w.handles[s := w.handles[s].(sent := true)], inFlight := w.inFlight + {s})
    case PollHandle(s, waker) => DoPoll(w, s, waker)
    case DropHandle(s, recycle) => DoDrop(w, s, recycle)
    case Complete(s, payload) => DoComplete(w, s, payload)
  }

  function DoSubmit<P, E>(w: World<P, E>, id: OpId, ext: E): World<P, E>
    requires id !in w.driver.ops
  {
    var s := |w.ids|;
    w.(driver := Insert(w.driver, id, ext), handles := w.handles[s := Handle(id, false, Some(s), None)],
       ids := w.ids + [id], exts := w.exts + [ext], occupant := w.occupant[id := s])
  }

  function DoPoll<P, E>(w: World<P, E>, s: Serial, waker: Waker): World<P, E>
    requires s in w.handles
  {
    var h := w.handles[s];
    var (driver, r) := PollOp(w.driver, h.id, waker);
    match r
    case Pending => w.(driver := driver, handles := w.handles[s := h.(polled := Some(waker))])
    case Ready(payload, ext) =>
      w.(driver := driver, handles := w.handles[s := h.(data := None)], occupant := w.occupant - {h.id},
         fates := w.fates[s := Delivered(payload, ext)], handedOut := w.handedOut + [s])
    case PollPanic => w.(driver := driver, panicked := true)
  }

  /** What asking the handle for its cancellation yields; it panics without data. */
  function Callback(h: Handle, recycle: bool): Option<Option<Serial>> {
    if h.data.None? then None else if recycle then Some(h.data) else Some(None)
  }

  function DoDrop<P, E>(w: World<P, E>, s: Serial, recycle: bool): World<P, E>
    requires s in w.handles
  {
    var h := w.handles[s];
    var (driver, r) := RemoveOp(w.driver, h.id, Callback(h, recycle));
    var w' := w.(driver := driver, handles := w.handles - {s},
                 released := if (r == CalledBack && recycle) || h.data.None? then w.released else w.released + [s]);
    match r
    case Untouched => w'
    case CalledBack => if recycle then w' else w'.(unkept := w.unkept + {s})
    case Discarded =>
      w'.(occupant := w.occupant - {h.id}, fates := w.fates[s := Unread(w.driver.ops[h.id].state.payload)])
    case RemovePanic => w'.(panicked := true)
  }

  function DoComplete<P, E>(w: World<P, E>, s: Serial, payload: P): World<P, E>
    requires s < |w.ids|
  {
    CompleteSlot(w, w.ids[s], s, payload)
  }

  /** Completes whatever is in slot `id`; the history names the request answered. */
  function CompleteSlot<P, E>(w: World<P, E>, id: OpId, s: Serial, payload: P): World<P, E> {
    var (driver, r) := CompleteOp(w.driver, id, payload);
    var w' := w.(driver := driver, inFlight := w.inFlight - {s}, answers := w.answers[s := payload]);
    match r
    case Accepted(woken) => w'.(woken := w.woken[s := woken])
    case Refused(p, ext) =>
      var kept := w.driver.ops[id].state.kept;
      w'.(occupant := w.occupant - {id}, fates := w.fates[s := ReturnedAsErr(p, ext)],
          woken := w.woken[s := None],
          released := if kept.Some? then w.released + [kept.value] else w.released)
    case CompletePanic => w'.(panicked := true)
  }

  ghost predicate Next<P(!new), E(!new)>(w: World<P, E>, w': World<P, E>) {
    exists step: Step<P, E> :: Can(w, step) && w' == Do(w, step)
  }

  ghost predicate Run<P(!new), E(!new)>(capacity: nat, run: seq<World<P, E>>) {
    && |run| > 0 && run[0] == Start(capacity)
    && forall i {:trigger Next(run[i], run[i + 1])} :: 0 <= i < |run| - 1 ==> Next(run[i], run[i + 1])
  }

  // ---------------------------------------------------------------- invariant

  /** Serial `s` still has the slot it was issued. */
  predicate Occupies<P, E>(w: World<P, E>, s: Serial) {
    s < |w.ids| && w.ids[s] in w.occupant && w.occupant[w.ids[s]] == s
  }

  predicate Woke(woken: Option<Waker>, polled: Option<Waker>) {
    match polled
    case None => woken.None?
    case Some(last) => woken.Some? && woken.value.WillWake(last)
  }

  predicate SlotOk<P(==), E(==)>(w: World<P, E>, id: OpId)
    requires id in w.driver.ops && id in w.occupant && |w.exts| == |w.ids|
  {
    var s := w.occupant[id];
    && s < |w.ids| && w.ids[s] == id && w.driver.ops[id].ext == w.exts[s]
    && match w.driver.ops[id].state
       case Submitted =>
         s !in w.answers && (if s in w.handles then w.handles[s].polled.None? else s !in w.inFlight)
       case Waiting(waker) =>
         && s in w.handles && w.handles[s].sent && s in w.inFlight && s !in w.answers
         && w.handles[s].polled.Some? && waker.WillWake(w.handles[s].polled.value)
       case Completed(payload) =>
         && s in w.handles && w.handles[s].sent && s !in w.inFlight
         && s in w.answers && w.answers[s] == payload
         && s in w.woken && Woke(w.woken[s], w.handles[s].polled)
       case Cancelled(kept) =>
         && kept == (if s in w.unkept then None else Some(s))
         && s !in w.handles && s in w.inFlight && s !in w.answers
  }

  predicate HandleOk<P, E>(w: World<P, E>, s: Serial)
    requires s in w.handles
  {
    var h := w.handles[s];
    && s < |w.ids| && h.id == w.ids[s]
    && (h.data.Some? ==> h.data.value == s && Occupies(w, s))
    && (h.data.None? ==> h.sent && h.id !in w.driver.ops)
    && s !in w.unkept
    && (!h.sent ==> s !in w.inFlight && s !in w.answers)
    && (h.sent && h.data.Some? ==> s in w.inFlight || s in w.answers)
  }

  predicate AnswerOk<P(==), E(==)>(w: World<P, E>, s: Serial)
    requires s in w.answers && |w.exts| == |w.ids|
  {
    && s < |w.ids| && s !in w.inFlight
    && (s in w.fates <==> !Occupies(w, s))
    && (s in w.fates ==>
          match w.fates[s]
          case Delivered(p, e) => p == w.answers[s] && e == w.exts[s]
          case Unread(p) => p == w.answers[s]
          case ReturnedAsErr(p, e) => p == w.answers[s] && e == w.exts[s])
  }

  predicate HandleOwns<P, E>(w: World<P, E>, s: Serial) {
    s in w.handles && w.handles[s].data.Some?
  }

  predicate SlotOwns<P, E>(w: World<P, E>, s: Serial) {
    Occupies(w, s) && w.ids[s] in w.driver.ops && w.driver.ops[w.ids[s]].state == Cancelled(Some(s))
  }

  function One(b: bool): nat {
    if b then 1 else 0
  }

  /** The resource of `s` is in exactly one place. */
  predicate OwnedOnce<P, E>(w: World<P, E>, s: Serial) {
    One(HandleOwns(w, s)) + One(SlotOwns(w, s)) + One(s in w.released) + One(s in w.handedOut) == 1
  }

  ghost predicate Basics<P, E>(w: World<P, E>) {
    && !w.panicked && |w.exts| == |w.ids| && |w.driver.ops| <= w.driver.capacity
    && w.occupant.Keys == w.driver.ops.Keys
    && w.fates.Keys <= w.answers.Keys
  }

  ghost predicate Slots<P, E>(w: World<P, E>)
    requires Basics(w)
  {
    forall id :: id in w.driver.ops ==> SlotOk(w, id)
  }

  ghost predicate Handles<P, E>(w: World<P, E>) {
    forall s :: s in w.handles ==> HandleOk(w, s)
  }

  ghost predicate Flights<P, E>(w: World<P, E>) {
    forall s :: s in w.inFlight ==> Occupies(w, s) && s !in w.answers
  }

  ghost predicate Answers<P, E>(w: World<P, E>)
    requires Basics(w)
  {
    forall s :: s in w.answers ==> AnswerOk(w, s)
  }

  ghost predicate Owners<P, E>(w: World<P, E>) {
    && (forall s :: s in w.released ==> s < |w.ids|) && (forall s :: s in w.handedOut ==> s < |w.ids|)
    && Distinct(w.released) && Distinct(w.handedOut)
    && (forall s :: s in w.unkept ==> s in w.released)
    && (forall s :: 0 <= s < |w.ids| ==> OwnedOnce(w, s))
  }

  ghost predicate Linked<P, E>(w: World<P, E>) {
    Basics(w) && Slots(w) && Handles(w) && Flights(w) && Answers(w)
  }

  ghost predicate Inv<P, E>(w: World<P, E>) {
    Linked(w) && Owners(w)
  }

  // ------------------------------------------------------------------ frames

  predicate SameBut<K, V(==)>(m: map<K, V>, m': map<K, V>, k: K) {
    && (forall j :: j in m && j != k ==> j in m' && m'[j] == m[j])
    && (forall j :: j in m' && j != k ==> j in m)
  }

  lemma OneEntrySameBut<K, V>(m: map<K, V>, m': map<K, V>, k: K)
    requires OneEntry(m, m', k)
    ensures SameBut(m, m', k)
  {
  }

  /** A step touches one serial and the slot issued to it, nothing else. */
  ghost predicate Elsewhere<P, E>(w: World<P, E>, w': World<P, E>, s: Serial, id: OpId) {
    && w.ids <= w'.ids && w.exts <= w'.exts && s < |w'.ids| <= |w.ids| + 1 && w'.ids[s] == id
    && (|w'.ids| == |w.ids| + 1 ==> s == |w.ids|)
    && SameBut(w.handles, w'.handles, s) && SameBut(w.answers, w'.answers, s)
    && SameBut(w.woken, w'.woken, s) && SameBut(w.fates, w'.fates, s)
    && (forall t :: t != s ==> (t in w.inFlight <==> t in w'.inFlight))
    && (forall t :: t != s ==> (t in w.unkept <==> t in w'.unkept))
    && SameBut(w.driver.ops, w'.driver.ops, id) && SameBut(w.occupant, w'.occupant, id)
    && (id in w.occupant ==> w.occupant[id] == s) && (id in w'.occupant ==> w'.occupant[id] == s)
    && (forall t :: t in w.handles && t != s && w.handles[t].data.None? && w.handles[t].id == id ==> id !in w'.driver.ops)
  }

  /** What has to hold of the one serial a step touches. */
  ghost predicate LinkedAt<P, E>(w: World<P, E>, s: Serial, id: OpId)
    requires Basics(w)
  {
    && (id in w.driver.ops ==> SlotOk(w, id))
    && (s in w.handles ==> HandleOk(w, s))
    && (s in w.inFlight ==> Occupies(w, s) && s !in w.answers)
    && (s in w.answers ==> AnswerOk(w, s))
  }

  lemma FrameSlot<P, E>(w: World<P, E>, w': World<P, E>, s: Serial, id: OpId, i: OpId)
    requires Linked(w) && Basics(w') && Elsewhere(w, w', s, id) && i in w'.driver.ops && i != id
    ensures SlotOk(w', i)
  {
    assert i in w.driver.ops && w.driver.ops[i] == w'.driver.ops[i];
    assert i in w.occupant && w.occupant[i] == w'.occupant[i];
    assert SlotOk(w, i);
    var t := w.occupant[i];
    assert t != s && (t in w.inFlight <==> t in w'.inFlight);
  }

  lemma FrameOccupies<P, E>(w: World<P, E>, w': World<P, E>, s: Serial, id: OpId, t: Serial)
    requires Elsewhere(w, w', s, id) && t < |w.ids| && t != s
    ensures Occupies(w', t) <==> Occupies(w, t)
  {
    assert w.ids[t] == w'.ids[t];
  }

  lemma FrameSerial<P, E>(w: World<P, E>, w': World<P, E>, s: Serial, id: OpId, t: Serial)
    requires Linked(w) && Basics(w') && Elsewhere(w, w', s, id) && t != s
    ensures t in w'.handles ==> HandleOk(w', t)
    ensures t in w'.inFlight ==> Occupies(w', t) && t !in w'.answers
    ensures t in w'.answers ==> AnswerOk(w', t)
  {
    assert t in w.inFlight <==> t in w'.inFlight;
    assert t in w.handles ==> HandleOk(w, t);
    assert t in w.inFlight ==> Occupies(w, t) && t !in w.answers;
    assert t in w.answers ==> AnswerOk(w, t);
    if t < |w.ids| {
      FrameOccupies(w, w', s, id, t);
      assert w.ids[t] == w'.ids[t] && w.exts[t] == w'.exts[t];
    }
  }

  lemma Frame<P, E>(w: World<P, E>, w': World<P, E>, s: Serial, id: OpId)
    requires Linked(w) && Basics(w') && Elsewhere(w, w', s, id) && LinkedAt(w', s, id)
    ensures Linked(w')
  {
    forall i | i in w'.driver.ops ensures SlotOk(w', i) {
      if i != id {
        FrameSlot(w, w', s, id, i);
      }
    }
    forall t | t in w'.handles ensures HandleOk(w', t) {
      if t != s {
        FrameSerial(w, w', s, id, t);
      }
    }
    forall t | t in w'.inFlight ensures Occupies(w', t) && t !in w'.answers {
      if t != s {
        FrameSerial(w, w', s, id, t);
      }
    }
    forall t | t in w'.answers ensures AnswerOk(w', t) {
      if t != s {
        FrameSerial(w, w', s, id, t);
      }
    }
  }

  /** At most one resource, that of `s`, moves to a log, where it was not before. */
  ghost predicate LogsGrow<P, E>(w: World<P, E>, w': World<P, E>, s: Serial) {
    && (|| (w'.released == w.released && w'.handedOut == w.handedOut)
        || (w'.released == w.released + [s] && s !in w.released && w'.handedOut == w.handedOut)
        || (w'.released == w.released && w'.handedOut == w.handedOut + [s] && s !in w.handedOut))
    && (w'.unkept == w.unkept || (w'.unkept == w.unkept + {s} && s in w'.released))
  }

  lemma FrameOwners<P, E>(w: World<P, E>, w': World<P, E>, s: Serial, id: OpId)
    requires Inv(w) && Elsewhere(w, w', s, id) && LogsGrow(w, w', s) && OwnedOnce(w', s)
    ensures Owners(w')
  {
    forall t | 0 <= t < |w'.ids| ensures OwnedOnce(w', t) {
      if t != s {
        assert OwnedOnce(w, t);
        FrameOwned(w, w', s, id, t);
      }
    }
  }

  lemma FrameOwned<P, E>(w: World<P, E>, w': World<P, E>, s: Serial, id: OpId, t: Serial)
    requires Elsewhere(w, w', s, id) && LogsGrow(w, w', s) && t < |w.ids| && t != s
    ensures HandleOwns(w', t) == HandleOwns(w, t) && SlotOwns(w', t) == SlotOwns(w, t)
    ensures (t in w'.released <==> t in w.released) && (t in w'.handedOut <==> t in w.handedOut)
  {
    FrameOccupies(w, w', s, id, t);
    assert Occupies(w, t) ==> w.ids[t] != id;
    assert w.ids[t] == w'.ids[t];
  }

  // ------------------------------------------------------------------- steps

  lemma NoSuchSerial<P, E>(w: World<P, E>, s: Serial)
    requires Inv(w) && s >= |w.ids|
    ensures s !in w.handles && s !in w.inFlight && s !in w.answers && s !in w.released && s !in w.handedOut && s !in w.unkept
  {
    assert s in w.handles ==> HandleOk(w, s);
    assert s in w.inFlight ==> Occupies(w, s);
    assert s in w.answers ==> AnswerOk(w, s);
  }

  /** A larger slab holds what the smaller one held. */
  lemma GrowInv<P, E>(w: World<P, E>, capacity: nat)
    requires Inv(w) && capacity >= w.driver.capacity
    ensures Inv(w.(driver := w.driver.(capacity := capacity)))
  {
    var w' := w.(driver := w.driver.(capacity := capacity));
    forall id | id in w'.driver.ops ensures SlotOk(w', id) {
      assert SlotOk(w, id);
    }
    forall s | s in w'.handles ensures HandleOk(w', s) {
      assert HandleOk(w, s);
    }
    forall s | s in w'.inFlight ensures Occupies(w', s) && s !in w'.answers {
      assert Occupies(w, s);
    }
    forall s | s in w'.answers ensures AnswerOk(w', s) {
      assert AnswerOk(w, s);
    }
    forall s | 0 <= s < |w'.ids| ensures OwnedOnce(w', s) {
      assert OwnedOnce(w, s);
    }
  }

  lemma IssueInv<P, E>(w: World<P, E>, id: OpId, ext: E)
    requires Inv(w) && MayIssue(w, id) && |w.driver.ops| < w.driver.capacity
    ensures Inv(DoSubmit(w, id, ext))
  {
    var w' := DoSubmit(w, id, ext);
    var s := |w.ids|;
    NoSuchSerial(w, s);
    assert Elsewhere(w, w', s, id);
    Frame(w, w', s, id);
    FrameOwners(w, w', s, id);
  }

  lemma SubmitInv<P, E>(w: World<P, E>, id: OpId, ext: E, capacity: nat)
    requires Inv(w) && Can(w, Submit(id, ext, capacity))
    ensures Inv(Do(w, Submit(id, ext, capacity)))
  {
    GrowInv(w, capacity);
    IssueInv(w.(driver := w.driver.(capacity := capacity)), id, ext);
  }

  lemma TrySubmitInv<P, E>(w: World<P, E>, id: OpId, ext: E)
    requires Inv(w) && Can(w, TrySubmit(id, ext))
    ensures Inv(Do(w, TrySubmit(id, ext)))
  {
    IssueInv(w, id, ext);
  }

  lemma ForsakeInv<P, E>(w: World<P, E>, s: Serial)
    requires Inv(w) && Can(w, Step<P, E>.Forsake(s))
    ensures Inv(Do(w, Step<P, E>.Forsake(s)))
  {
    var w' := Do(w, Step<P, E>.Forsake(s));
    assert HandleOk(w, s) && OwnedOnce(w, s);
    var id := w.ids[s];
    assert SlotOk(w, id);
    assert Elsewhere(w, w', s, id);
    Frame(w, w', s, id);
    FrameOwners(w, w', s, id);
  }

  lemma SendInv<P, E>(w: World<P, E>, s: Serial)
    requires Inv(w) && Can(w, Step<P, E>.Send(s))
    ensures Inv(Do(w, Step<P, E>.Send(s)))
  {
    var w' := Do(w, Step<P, E>.Send(s));
    assert HandleOk(w, s) && OwnedOnce(w, s);
    var id := w.ids[s];
    assert SlotOk(w, id);
    assert Elsewhere(w, w', s, id);
    Frame(w, w', s, id);
    FrameOwners(w, w', s, id);
  }

  /** What polling, dropping and completing rely on about the serial they name. */
  lemma Facts<P, E>(w: World<P, E>, s: Serial)
    requires Inv(w) && s < |w.ids|
    ensures OwnedOnce(w, s)
    ensures s in w.handles ==> HandleOk(w, s)
    ensures s in w.inFlight ==> Occupies(w, s) && s !in w.answers
    ensures s in w.answers ==> AnswerOk(w, s)
    ensures Occupies(w, s) ==> SlotOk(w, w.ids[s])
    ensures forall t :: t in w.handles && t != s && Occupies(w, s) && w.handles[t].data.None? ==> w.handles[t].id != w.ids[s]
  {
    assert OwnedOnce(w, s);
    forall t | t in w.handles && t != s && Occupies(w, s) && w.handles[t].data.None?
      ensures w.handles[t].id != w.ids[s]
    {
      assert HandleOk(w, t);
    }
  }

  /** What the invariant says of one serial and the slot issued to it. */
  ghost predicate Local<P, E>(w: World<P, E>, s: Serial) {
    && Basics(w) && s < |w.ids| && LinkedAt(w, s, w.ids[s]) && OwnedOnce(w, s)
    && (s in w.handles ==> w.handles[s].id == w.ids[s])
    && (w.ids[s] in w.occupant && (s in w.inFlight || HandleOwns(w, s)) ==> w.occupant[w.ids[s]] == s)
  }

  lemma LocalHolds<P, E>(w: World<P, E>, s: Serial)
    requires Inv(w) && (s in w.handles || s in w.inFlight)
    ensures Local(w, s)
  {
    assert s in w.handles ==> HandleOk(w, s);
    Facts(w, s);
  }

  /** What confines a step on `s` to that serial and its slot. */
  ghost predicate Touched<P, E>(w: World<P, E>, s: Serial) {
    && |w.exts| == |w.ids| && s < |w.ids|
    && (w.ids[s] in w.occupant ==> w.occupant[w.ids[s]] == s)
    && (w.ids[s] in w.driver.ops ==> forall t :: t in w.handles && t != s && w.handles[t].data.None? ==> w.handles[t].id != w.ids[s])
  }

  lemma HoldsTouched<P, E>(w: World<P, E>, s: Serial)
    requires Inv(w) && (s in w.handles || s in w.inFlight)
    ensures Touched(w, s) && (s in w.handles ==> w.handles[s].id == w.ids[s])
  {
    assert s in w.handles ==> HandleOk(w, s);
    Facts(w, s);
  }

  /** A step that writes or removes the entries of its serial only ... */
  predicate SerialOnly<P(==), E(==)>(w: World<P, E>, w': World<P, E>, s: Serial) {
    && w'.ids == w.ids && w'.exts == w.exts && w'.forsaken == w.forsaken
    && (w'.inFlight == w.inFlight || w'.inFlight == w.inFlight - {s})
    && (w'.unkept == w.unkept || w'.unkept == w.unkept + {s})
    && OneEntry(w.handles, w'.handles, s) && OneEntry(w.answers, w'.answers, s)
    && OneEntry(w.woken, w'.woken, s) && OneEntry(w.fates, w'.fates, s)
  }

  /** ... and those of its slot, which it may free but not take. */
  predicate SlotOnly<P(==), E(==)>(w: World<P, E>, w': World<P, E>, id: OpId) {
    && OneEntry(w.driver.ops, w'.driver.ops, id) && (w'.occupant == w.occupant || w'.occupant == w.occupant - {id})
    && (id !in w.driver.ops ==> id !in w'.driver.ops)
  }

  lemma OneEntryElsewhere<P, E>(w: World<P, E>, w': World<P, E>, s: Serial)
    requires Touched(w, s) && SerialOnly(w, w', s) && SlotOnly(w, w', w.ids[s])
    ensures Elsewhere(w, w', s, w.ids[s])
  {
    OneEntrySameBut(w.handles, w'.handles, s);
    OneEntrySameBut(w.answers, w'.answers, s);
    OneEntrySameBut(w.woken, w'.woken, s);
    OneEntrySameBut(w.fates, w'.fates, s);
    OneEntrySameBut(w.driver.ops, w'.driver.ops, w.ids[s]);
  }

  lemma PollOneSerial<P, E>(w: World<P, E>, s: Serial, waker: Waker)
    requires s in w.handles
    ensures SerialOnly(w, DoPoll(w, s, waker), s)
  {
    var h, w' := w.handles[s], DoPoll(w, s, waker);
    match PollOp(w.driver, h.id, waker).1
    case Pending => assert w'.handles == w.handles[s := h.(polled := Some(waker))];
    case Ready(p, e) => assert w'.handles == w.handles[s := h.(data := None)] && w'.fates == w.fates[s := Delivered(p, e)];
    case PollPanic => assert w'.handles == w.handles;
  }

  lemma PollFrees<P, E>(w: World<P, E>, s: Serial, waker: Waker)
    requires s in w.handles
    ensures SlotOnly(w, DoPoll(w, s, waker), w.handles[s].id)
  {
    PollOneSlot(w.driver, w.handles[s].id, waker);
  }

  lemma DropOneSerial<P, E>(w: World<P, E>, s: Serial, recycle: bool)
    requires s in w.handles
    ensures SerialOnly(w, DoDrop(w, s, recycle), s)
  {
    var h, w' := w.handles[s], DoDrop(w, s, recycle);
    assert w'.handles == w.handles - {s};
    match RemoveOp(w.driver, h.id, Callback(h, recycle)).1
    case Discarded => assert w'.fates == w.fates[s := Unread(w.driver.ops[h.id].state.payload)];
    case Untouched => assert w'.fates == w.fates;
    case CalledBack => assert w'.fates == w.fates;
    case RemovePanic => assert w'.fates == w.fates;
  }

  lemma DropFrees<P, E>(w: World<P, E>, s: Serial, recycle: bool)
    requires s in w.handles
    ensures SlotOnly(w, DoDrop(w, s, recycle), w.handles[s].id)
  {
    var h := w.handles[s];
    var callback := Callback(h, recycle);
    RemoveOneSlot(w.driver, h.id, callback);
    var (driver, r) := RemoveOp(w.driver, h.id, callback);
    var w' := DoDrop(w, s, recycle);
    assert w'.driver == driver && w'.occupant == if r == Discarded then w.occupant - {h.id} else w.occupant;
  }

  lemma PollElsewhere<P, E>(w: World<P, E>, s: Serial, waker: Waker)
    requires Inv(w) && Can(w, Step<P, E>.PollHandle(s, waker))
    ensures Elsewhere(w, Do(w, Step<P, E>.PollHandle(s, waker)), s, w.handles[s].id)
  {
    HoldsTouched(w, s);
    PollOneSerial(w, s, waker);
    PollFrees(w, s, waker);
    OneEntryElsewhere(w, Do(w, Step<P, E>.PollHandle(s, waker)), s);
  }

  lemma PollBasics<P, E>(w: World<P, E>, s: Serial, waker: Waker)
    requires Local(w, s) && Can(w, Step<P, E>.PollHandle(s, waker))
    ensures Basics(Do(w, Step<P, E>.PollHandle(s, waker)))
  {
  }

  lemma PollAt<P, E>(w: World<P, E>, s: Serial, waker: Waker)
    requires Local(w, s) && Can(w, Step<P, E>.PollHandle(s, waker))
    requires Basics(Do(w, Step<P, E>.PollHandle(s, waker)))
    ensures LinkedAt(Do(w, Step<P, E>.PollHandle(s, waker)), s, w.handles[s].id)
  {
  }

  lemma PollOwners<P, E>(w: World<P, E>, s: Serial, waker: Waker)
    requires Local(w, s) && Can(w, Step<P, E>.PollHandle(s, waker))
    ensures OwnedOnce(Do(w, Step<P, E>.PollHandle(s, waker)), s) && LogsGrow(w, Do(w, Step<P, E>.PollHandle(s, waker)), s)
  {
  }

  lemma PollInv<P, E>(w: World<P, E>, s: Serial, waker: Waker)
    requires Inv(w) && Can(w, Step<P, E>.PollHandle(s, waker))
    ensures Inv(Do(w, Step<P, E>.PollHandle(s, waker)))
  {
    var w' := Do(w, Step<P, E>.PollHandle(s, waker));
    LocalHolds(w, s);
    PollBasics(w, s, waker);
    PollElsewhere(w, s, waker);
    PollAt(w, s, waker);
    PollOwners(w, s, waker);
    Frame(w, w', s, w.handles[s].id);
    FrameOwners(w, w', s, w.handles[s].id);
  }

  lemma DropBasics<P, E>(w: World<P, E>, s: Serial, recycle: bool)
    requires Local(w, s) && Can(w, Step<P, E>.DropHandle(s, recycle))
    ensures Basics(Do(w, Step<P, E>.DropHandle(s, recycle)))
  {
  }

  lemma DropElsewhere<P, E>(w: World<P, E>, s: Serial, recycle: bool)
    requires Inv(w) && Can(w, Step<P, E>.DropHandle(s, recycle))
    ensures Elsewhere(w, Do(w, Step<P, E>.DropHandle(s, recycle)), s, w.handles[s].id)
  {
    HoldsTouched(w, s);
    DropOneSerial(w, s, recycle);
    DropFrees(w, s, recycle);
    OneEntryElsewhere(w, Do(w, Step<P, E>.DropHandle(s, recycle)), s);
  }

  lemma DropAt<P, E>(w: World<P, E>, s: Serial, recycle: bool)
    requires Local(w, s) && Can(w, Step<P, E>.DropHandle(s, recycle))
    requires Basics(Do(w, Step<P, E>.DropHandle(s, recycle)))
    ensures LinkedAt(Do(w, Step<P, E>.DropHandle(s, recycle)), s, w.handles[s].id)
  {
  }

  lemma DropOwners<P, E>(w: World<P, E>, s: Serial, recycle: bool)
    requires Local(w, s) && Can(w, Step<P, E>.DropHandle(s, recycle))
    ensures OwnedOnce(Do(w, Step<P, E>.DropHandle(s, recycle)), s) && LogsGrow(w, Do(w, Step<P, E>.DropHandle(s, recycle)), s)
  {
  }

  lemma DropInv<P, E>(w: World<P, E>, s: Serial, recycle: bool)
    requires Inv(w) && Can(w, Step<P, E>.DropHandle(s, recycle))
    ensures Inv(Do(w, Step<P, E>.DropHandle(s, recycle)))
  {
    var w' := Do(w, Step<P, E>.DropHandle(s, recycle));
    LocalHolds(w, s);
    DropBasics(w, s, recycle);
    DropElsewhere(w, s, recycle);
    DropAt(w, s, recycle);
    DropOwners(w, s, recycle);
    Frame(w, w', s, w.handles[s].id);
    FrameOwners(w, w', s, w.handles[s].id);
  }

  lemma CompleteBasics<P, E>(w: World<P, E>, s: Serial, payload: P)
    requires Local(w, s) && Can(w, Complete(s, payload))
    ensures Basics(Do(w, Complete(s, payload)))
  {
  }

  lemma CompleteElsewhere<P, E>(w: World<P, E>, s: Serial, payload: P)
    requires Inv(w) && Can(w, Complete(s, payload))
    ensures Elsewhere(w, Do(w, Complete(s, payload)), s, w.ids[s])
  {
    HoldsTouched(w, s);
    CompleteRecords(w, s, payload);
    CompleteFrees(w, s, payload);
    OneEntryElsewhere(w, DoComplete(w, s, payload), s);
  }

  /** A completion records the answer, the wake-up and perhaps the end of `s` ... */
  lemma CompleteRecords<P, E>(w: World<P, E>, s: Serial, payload: P)
    requires s < |w.ids|
    ensures SerialOnly(w, DoComplete(w, s, payload), s)
  {
    var w' := DoComplete(w, s, payload);
    assert w'.answers == w.answers[s := payload];
    match CompleteOp(w.driver, w.ids[s], payload).1
    case Accepted(woken) => assert w'.woken == w.woken[s := woken] && w'.fates == w.fates;
    case Refused(p, e) => assert w'.woken == w.woken[s := None] && w'.fates == w.fates[s := ReturnedAsErr(p, e)];
    case CompletePanic => assert w'.woken == w.woken && w'.fates == w.fates;
  }

  /** ... and touches its slot, which it may free but not take. */
  lemma CompleteFrees<P, E>(w: World<P, E>, s: Serial, payload: P)
    requires s < |w.ids|
    ensures SlotOnly(w, DoComplete(w, s, payload), w.ids[s])
  {
    CompleteOneSlot(w.driver, w.ids[s], payload);
  }

  lemma CompleteAt<P, E>(w: World<P, E>, s: Serial, payload: P)
    requires Local(w, s) && Can(w, Complete(s, payload))
    requires Basics(Do(w, Complete(s, payload)))
    ensures LinkedAt(Do(w, Complete(s, payload)), s, w.ids[s])
  {
  }

  lemma CompleteOwners<P, E>(w: World<P, E>, s: Serial, payload: P)
    requires Local(w, s) && Can(w, Complete(s, payload))
    ensures OwnedOnce(Do(w, Complete(s, payload)), s) && LogsGrow(w, Do(w, Complete(s, payload)), s)
  {
  }

  lemma CompleteInv<P, E>(w: World<P, E>, s: Serial, payload: P)
    requires Inv(w) && Can(w, Complete(s, payload))
    ensures Inv(Do(w, Complete(s, payload)))
  {
    var w' := Do(w, Complete(s, payload));
    LocalHolds(w, s);
    CompleteBasics(w, s, payload);
    CompleteElsewhere(w, s, payload);
    CompleteAt(w, s, payload);
    CompleteOwners(w, s, payload);
    Frame(w, w', s, w.ids[s]);
    FrameOwners(w, w', s, w.ids[s]);
  }
}
