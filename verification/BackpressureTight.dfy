/** The sizes in `NobodyIsStranded` are needed: outside them some run strands a task. */
module BackpressureTight {
  import opened Prelude
  import opened Bits
  import opened Drivers
  import opened Backpressure
  import opened BackpressureTheorems

  // ------------------------------------------ ring B larger than ring A (any sizes)

  /** The numbers from `lo` up to `hi`. */
  ghost predicate Up(q: seq<nat>, lo: nat, hi: nat) {
    lo <= hi && |q| == hi - lo && forall i :: 0 <= i < |q| ==> q[i] == lo + i
  }

  ghost predicate At(s: System, sizeA: nat, sizeB: nat) {
    s.sizeA == sizeA && s.sizeB == sizeB && s.driver.capacity == sizeA && !s.panicked && s.ringA == []
  }

  ghost predicate WantsSlots(s: System, lo: nat, hi: nat) {
    lo <= hi <= |s.tasks| && forall i :: lo <= i < hi ==> s.tasks[i] == Task(WantSlot, 1)
  }

  ghost predicate Awaits(s: System, lo: nat, hi: nat) {
    lo <= hi <= |s.tasks| && forall i: nat :: lo <= i < hi ==> s.tasks[i] == Task(Awaiting(i), 1)
  }

  ghost predicate Slots(s: System, lo: nat, hi: nat) {
    lo <= hi && |s.driver.ops| == hi - lo && forall i: nat :: i in s.driver.ops <==> lo <= i < hi
  }

  ghost predicate WaitingSlots(s: System, lo: nat, hi: nat) {
    forall i: nat :: lo <= i < hi ==> i in s.driver.ops && s.driver.ops[i].state == Waiting(Waker(i, 0))
  }

  ghost predicate CompletedSlots(s: System, lo: nat, hi: nat) {
    forall i: nat :: lo <= i < hi ==> i in s.driver.ops && s.driver.ops[i].state == Completed(())
  }

  /** `k` one-operation tasks spawned in the first round. */
  ghost predicate Spawned(s: System, a: nat, b: nat, k: nat) {
    && At(s, a, b) && s.phase.Root? && |s.tasks| == k && WantsSlots(s, 0, k) && Up(s.queue, 0, k)
    && s.pending == [] && Slots(s, 0, 0) && s.held == [] && s.ringB == []
  }

  /** `j` of `n` tasks have sent, and the server has taken each request at once. */
  ghost predicate Sent(s: System, a: nat, b: nat, n: nat, j: nat) {
    && j <= a && j <= n && At(s, a, b) && s.phase == Executing(n - j) && |s.tasks| == n
    && Awaits(s, 0, j) && WantsSlots(s, j, n) && Up(s.queue, j, n)
    && s.pending == [] && Slots(s, 0, j) && WaitingSlots(s, 0, j) && Up(s.held, 0, j) && s.ringB == []
  }

  /** All slots are taken, and `p` further tasks have parked for one. */
  ghost predicate Parked(s: System, a: nat, b: nat, n: nat, p: nat) {
    && a + p <= n && At(s, a, b) && s.phase == Executing(n - a - p) && |s.tasks| == n
    && Awaits(s, 0, a) && WantsSlots(s, a, n) && Up(s.queue, a + p, n) && Up(s.pending, a, a + p)
    && Slots(s, 0, a) && WaitingSlots(s, 0, a) && Up(s.held, 0, a) && s.ringB == []
  }

  /** The last task found no slot; `j` responses have been sent. */
  ghost predicate Answered(s: System, a: nat, b: nat, j: nat) {
    && j <= a && At(s, a, b) && s.phase.Boundary? && |s.tasks| == a + 1
    && Awaits(s, 0, a) && WantsSlots(s, a, a + 1) && s.queue == []
    && s.pending == [a] && Slots(s, 0, a) && WaitingSlots(s, 0, a) && Up(s.held, j, a) && Up(s.ringB, 0, j)
  }

  /** `j` of all `a` responses drained: the parked task first in the queue. */
  ghost predicate DrainedTo(s: System, a: nat, b: nat, j: nat) {
    && 0 < j <= a && At(s, a, b) && s.phase == Draining(a - j) && |s.tasks| == a + 1
    && Awaits(s, 0, a) && WantsSlots(s, a, a + 1) && |s.queue| == j + 1 && s.queue[0] == a && Up(s.queue[1..], 0, j)
    && s.pending == [] && Slots(s, 0, a) && CompletedSlots(s, 0, j) && WaitingSlots(s, j, a)
    && s.held == [] && Up(s.ringB, j, a)
  }

  /** It found no slot again, and `j` tasks have since read their responses. */
  ghost predicate ReadTo(s: System, a: nat, b: nat, j: nat) {
    && j <= a && At(s, a, b) && s.phase == Executing(a - j) && |s.tasks| == a + 1
    && Awaits(s, j, a) && Up(s.queue, j, a)
    && s.pending == [a] && Slots(s, j, a) && CompletedSlots(s, j, a)
    && s.held == [] && s.ringB == []
  }

  lemma {:induction false} SpawnAll(a: nat, b: nat, k: nat) returns (s: System)
    ensures Reachable(a, b, s) && Spawned(s, a, b, k)
  {
    if k == 0 {
      var s0 := Start(a, b);
      ReachStart(a, b);
      ReachNext(a, b, s0, StartRound(0));
      var s1 := Do(s0, StartRound(0));
      ReachNext(a, b, s1, EndDrain);
      s := Do(s1, EndDrain);
    } else {
      var p := SpawnAll(a, b, k - 1);
      ReachNext(a, b, p, Spawn(1));
      s := Do(p, Spawn(1));
    }
  }

  function Op(state: Lifecycle<(), ()>): RawOp<(), (), ()> {
    RawOp(state, ())
  }

  /** What one task's first poll, up to the server's taking of its request, does. */
  function SentOne(s: System, j: nat): System
    requires j < |s.tasks| && s.queue != []
  {
    s.(tasks := s.tasks[j := Task(Awaiting(j), 1)],
       driver := s.driver.(ops := s.driver.ops[j := RawOp(Waiting(Waker(j, 0)), ())]),
       owner := s.owner[j := j], queue := s.queue[1..], held := s.held + [j],
       phase := if s.phase.Executing? && s.phase.count > 0 then Executing(s.phase.count - 1) else s.phase)
  }

  /** A poll that takes slot `id`, sends and suspends. */
  lemma PollSends(a: nat, b: nat, s: System, id: OpId) returns (s': System)
    requires Reachable(a, b, s) && s.sizeA >= 2 && s.phase.Executing? && s.phase.count > 0
    requires s.queue != [] && s.queue[0] < |s.tasks| && s.tasks[s.queue[0]].state.WantSlot?
    requires HasRoom(s.driver) && id !in s.driver.ops && s.ringA == []
    ensures Reachable(a, b, s')
    ensures var t := s.queue[0]; s' == s.(tasks := s.tasks[t := Task(Awaiting(id), s.tasks[t].left)],
      queue := s.queue[1..], driver := s.driver.(ops := s.driver.ops[id := Op(Waiting(Waker(t, 0)))]),
      owner := s.owner[id := t], ringA := [id], phase := Executing(s.phase.count - 1))
  {
    ReachNext(a, b, s, StartPoll);
    var s1 := Do(s, StartPoll);
    ReachNext(a, b, s1, GetSlot(id));
    var s2 := Do(s1, GetSlot(id));
    s' := SendsAndWaits(a, b, s2, id);
    var t := s.queue[0];
    assert s.tasks[t := Task(WantRing(id), s.tasks[t].left)][t := Task(Awaiting(id), s.tasks[t].left)]
        == s.tasks[t := Task(Awaiting(id), s.tasks[t].left)];
    assert s2.driver.ops[id := Op(Waiting(Waker(t, 0)))] == s.driver.ops[id := Op(Waiting(Waker(t, 0)))];
  }

  lemma SendsAndWaits(a: nat, b: nat, s: System, id: OpId) returns (s': System)
    requires Reachable(a, b, s) && s.sizeA >= 2 && PollingIn(s) && Current(s).state == WantRing(id) && s.ringA == []
    requires id in s.driver.ops && s.driver.ops[id] == Op(Submitted)
    ensures Reachable(a, b, s')
    ensures var t := s.phase.task; s' == s.(tasks := s.tasks[t := Task(Awaiting(id), s.tasks[t].left)],
      driver := s.driver.(ops := s.driver.ops[id := Op(Waiting(Waker(t, 0)))]),
      ringA := [id], phase := Executing(s.phase.count))
  {
    ReachNext(a, b, s, SendEntry);
    var s1 := Do(s, SendEntry);
    ReachNext(a, b, s1, PollOperation(0));
    s' := Do(s1, PollOperation(0));
  }

  lemma SendPoll(a: nat, b: nat, s: System, j: nat)
    requires Reachable(a, b, s) && At(s, a, b) && a >= 2 && s.phase.Executing? && s.phase.count > 0
    requires s.queue != [] && s.queue[0] == j && j < |s.tasks| && s.tasks[j] == Task(WantSlot, 1)
    requires |s.driver.ops| < a && j !in s.driver.ops
    ensures Reachable(a, b, SentOne(s, j))
  {
    var sent := PollSends(a, b, s, j);
    ReachNext(a, b, sent, Take);
    assert Do(sent, Take) == SentOne(s, j);
  }

  lemma SentShape(s: System, a: nat, b: nat, n: nat, j: nat)
    requires Sent(s, a, b, n, j) && j < a && j < n
    ensures Sent(SentOne(s, j), a, b, n, j + 1)
  {
    var s' := SentOne(s, j);
    assert j !in s.driver.ops;
  }

  lemma {:induction false} SendAll(a: nat, b: nat, n: nat, j: nat) returns (s: System)
    requires j <= a && j <= n && 2 <= a
    ensures Reachable(a, b, s) && Sent(s, a, b, n, j)
  {
    if j == 0 {
      var p := SpawnAll(a, b, n);
      ReachNext(a, b, p, StartExec);
      s := Do(p, StartExec);
    } else {
      var p := SendAll(a, b, n, j - 1);
      SendPoll(a, b, p, j - 1);
      SentShape(p, a, b, n, j - 1);
      s := SentOne(p, j - 1);
    }
  }

  lemma {:induction false} ParkAll(a: nat, b: nat, n: nat, p: nat) returns (s: System)
    requires 2 <= a && a + p <= n
    ensures Reachable(a, b, s) && Parked(s, a, b, n, p)
  {
    if p == 0 {
      s := SendAll(a, b, n, a);
    } else {
      var before := ParkAll(a, b, n, p - 1);
      s := ParkOne(before, a, b, n, p - 1);
    }
  }

  lemma ParkOne(s: System, a: nat, b: nat, n: nat, p: nat) returns (s': System)
    requires Reachable(a, b, s) && Parked(s, a, b, n, p) && a + p < n
    ensures Reachable(a, b, s') && Parked(s', a, b, n, p + 1)
  {
    ReachNext(a, b, s, StartPoll);
    var s1 := Do(s, StartPoll);
    ReachNext(a, b, s1, ParkForSlot);
    s' := Do(s1, ParkForSlot);
  }

  lemma ParkLast(a: nat, b: nat) returns (s: System)
    requires 2 <= a
    ensures Reachable(a, b, s) && Answered(s, a, b, 0)
  {
    var p := ParkAll(a, b, a + 1, 1);
    ReachNext(a, b, p, EndRound);
    s := Do(p, EndRound);
  }

  lemma {:induction false} AnswerAll(a: nat, b: nat, j: nat) returns (s: System)
    requires j <= a && 2 <= a < b
    ensures Reachable(a, b, s) && Answered(s, a, b, j)
  {
    if j == 0 {
      s := ParkLast(a, b);
    } else {
      var p := AnswerAll(a, b, j - 1);
      ReachNext(a, b, p, Respond(0));
      s := Do(p, Respond(0));
    }
  }

  lemma {:induction false} DrainAll(a: nat, b: nat, j: nat) returns (s: System)
    requires 0 < j <= a && 2 <= a < b
    ensures Reachable(a, b, s) && DrainedTo(s, a, b, j)
  {
    if j == 1 {
      s := DrainFirst(a, b);
    } else {
      var p := DrainAll(a, b, j - 1);
      s := DrainAnother(p, a, b, j - 1);
    }
  }

  lemma DrainFirst(a: nat, b: nat) returns (s: System)
    requires 2 <= a < b
    ensures Reachable(a, b, s) && DrainedTo(s, a, b, 1)
  {
    var p := AnswerAll(a, b, a);
    ReachNext(a, b, p, StartRound(a));
    var p1 := Do(p, StartRound(a));
    ReachNext(a, b, p1, DrainOne);
    s := Do(p1, DrainOne);
    DrainShape(p1, s, a, 0);
  }

  lemma DrainAnother(s: System, a: nat, b: nat, j: nat) returns (s': System)
    requires Reachable(a, b, s) && DrainedTo(s, a, b, j) && j < a
    ensures Reachable(a, b, s') && DrainedTo(s', a, b, j + 1)
  {
    ReachNext(a, b, s, DrainOne);
    s' := Do(s, DrainOne);
    DrainShape(s, s', a, j);
  }

  lemma DrainShape(s: System, s': System, a: nat, j: nat)
    requires Can(s, DrainOne) && s' == Do(s, DrainOne) && j < a && Up(s.ringB, j, a)
    requires Slots(s, 0, a) && CompletedSlots(s, 0, j) && WaitingSlots(s, j, a)
    ensures Slots(s', 0, a) && CompletedSlots(s', 0, j + 1) && WaitingSlots(s', j + 1, a) && Up(s'.ringB, j + 1, a)
    ensures s'.queue == (if s.pending == [] then s.queue else s.queue + [s.pending[0]]) + [j] && !s'.panicked == !s.panicked
    ensures s'.pending == if s.pending == [] then [] else s.pending[1..]
  {
    assert s.ringB[0] == j;
    assert s'.driver.ops.Keys == s.driver.ops.Keys;
    assert |s'.driver.ops| == |s'.driver.ops.Keys| == |s.driver.ops.Keys|;
  }

  lemma {:induction false} ReadAll(a: nat, b: nat, j: nat) returns (s: System)
    requires j <= a && 2 <= a < b
    ensures Reachable(a, b, s) && ReadTo(s, a, b, j)
  {
    if j == 0 {
      var p := DrainAll(a, b, a);
      ReachNext(a, b, p, EndDrain);
      var p1 := Do(p, EndDrain);
      ReachNext(a, b, p1, StartExec);
      var p2 := Do(p1, StartExec);
      ReachNext(a, b, p2, StartPoll);
      var p3 := Do(p2, StartPoll);
      ReachNext(a, b, p3, ParkForSlot);
      s := Do(p3, ParkForSlot);
    } else {
      var p := ReadAll(a, b, j - 1);
      s := ReadOne(p, a, b, j - 1);
    }
  }

  lemma ReadOne(s: System, a: nat, b: nat, j: nat) returns (s': System)
    requires Reachable(a, b, s) && ReadTo(s, a, b, j) && j < a
    ensures Reachable(a, b, s') && ReadTo(s', a, b, j + 1)
  {
    ReachNext(a, b, s, StartPoll);
    var s1 := Do(s, StartPoll);
    ReachNext(a, b, s1, PollOperation(0));
    s' := Do(s1, PollOperation(0));
    assert s'.driver.ops == s.driver.ops - {j};
    assert s'.driver.ops.Keys == s.driver.ops.Keys - {j};
    assert |s'.driver.ops| == |s'.driver.ops.Keys| == |s.driver.ops.Keys| - 1;
  }

  /** A drain that returns all slots at once strands the submitter it wakes first. */
  lemma StrandedByLargeB(a: nat, b: nat) returns (s: System)
    requires 2 <= a < b
    ensures Reachable(a, b, s) && Stranded(s)
  {
    var p := ReadAll(a, b, a);
    ReachNext(a, b, p, EndRound);
    s := Do(p, EndRound);
  }

  // ------------------------------------------------------------- tiny rings

  /** A ring of size one takes no entry: the first submitter keeps the only slot and
      waits for ring space for ever. */
  lemma StrandedBySizeOne(b: nat) returns (s: System)
    requires b >= 1
    ensures Reachable(1, b, s) && Stranded(s)
  {
    var p := SpawnAll(1, b, 1);
    ReachNext(1, b, p, StartExec);
    var p1 := Do(p, StartExec);
    ReachNext(1, b, p1, StartPoll);
    var p2 := Do(p1, StartPoll);
    ReachNext(1, b, p2, GetSlot(0));
    var p3 := Do(p2, GetSlot(0));
    ReachNext(1, b, p3, ParkForRing);
    var p4 := Do(p3, ParkForRing);
    ReachNext(1, b, p4, EndRound);
    s := Do(p4, EndRound);
  }

  /** Ring size two: task 0 has two operations, tasks 1 and 2 one each. Both slots are
      taken, task 2 is parked, and the response to task 0 has been drained. */
  function TwoMid(b: nat): System {
    System(2, b, [Task(Awaiting(0), 2), Task(Awaiting(1), 1), Task(WantSlot, 1)], [2, 0], [],
           Driver(map[0 := Op(Completed(())), 1 := Op(Waiting(Waker(1, 0)))], 2), [1], [], [],
           Executing(2), false, map[0 := 0, 1 := 1], 4, 1)
  }

  /** Task 0 took the freed slot for its second operation but found ring A full. */
  function TwoParked(b: nat): System {
    System(2, b, [Task(WantRing(0), 1), Task(Awaiting(1), 1), Task(WantSlot, 1)], [], [2, 0],
           Driver(map[0 := Op(Submitted), 1 := Op(Waiting(Waker(1, 0)))], 2), [1], [], [],
           Boundary, false, map[0 := 0, 1 := 1], 4, 1)
  }

  function TwoSpawned(b: nat): System {
    System(2, b, [Task(WantSlot, 2), Task(WantSlot, 1), Task(WantSlot, 1)], [0, 1, 2], [],
           Driver(map[], 2), [], [], [], Executing(3), false, map[], 4, 0)
  }

  function TwoSent(b: nat): System {
    System(2, b, [Task(Awaiting(0), 2), Task(WantSlot, 1), Task(WantSlot, 1)], [1, 2], [],
           Driver(map[0 := Op(Waiting(Waker(0, 0)))], 2), [], [0], [], Executing(2), false, map[0 := 0], 4, 0)
  }

  function TwoFull(b: nat): System {
    System(2, b, [Task(Awaiting(0), 2), Task(Awaiting(1), 1), Task(WantSlot, 1)], [2], [],
           Driver(map[0 := Op(Waiting(Waker(0, 0))), 1 := Op(Waiting(Waker(1, 0)))], 2), [1], [0], [],
           Executing(1), false, map[0 := 0, 1 := 1], 4, 0)
  }

  lemma ReachTwoSpawned(b: nat)
    ensures Reachable(2, b, TwoSpawned(b))
  {
    ReachStart(2, b);
    ReachNext(2, b, Start(2, b), StartRound(0));
    var s1 := Do(Start(2, b), StartRound(0));
    ReachNext(2, b, s1, EndDrain);
    SpawnTwo(b, Do(s1, EndDrain));
  }

  lemma SpawnTwo(b: nat, s2: System)
    requires Reachable(2, b, s2) && s2 == Start(2, b).(phase := Root)
    ensures Reachable(2, b, TwoSpawned(b))
  {
    ReachNext(2, b, s2, Spawn(2));
    var s3 := Do(s2, Spawn(2));
    ReachNext(2, b, s3, Spawn(1));
    var s4 := Do(s3, Spawn(1));
    ReachNext(2, b, s4, Spawn(1));
    var s5 := Do(s4, Spawn(1));
    ReachNext(2, b, s5, StartExec);
    assert Do(s5, StartExec) == TwoSpawned(b);
  }

  lemma ReachTwoFull(b: nat)
    ensures Reachable(2, b, TwoFull(b))
  {
    ReachTwoSpawned(b);
    var s1 := PollSends(2, b, TwoSpawned(b), 0);
    ReachNext(2, b, s1, Take);
    assert Do(s1, Take) == TwoSent(b);
    var s2 := PollSends(2, b, TwoSent(b), 1);
    assert s2 == TwoFull(b);
  }

  /** A poll that finds no slot. */
  lemma PollParks(b: nat, s: System) returns (s': System)
    requires Reachable(2, b, s) && s.phase.Executing? && s.phase.count > 0
    requires s.queue != [] && s.queue[0] < |s.tasks| && s.tasks[s.queue[0]].state.WantSlot? && !HasRoom(s.driver)
    ensures Reachable(2, b, s')
    ensures s' == s.(queue := s.queue[1..], pending := s.pending + [s.queue[0]], phase := Executing(s.phase.count - 1))
  {
    ReachNext(2, b, s, StartPoll);
    var s1 := Do(s, StartPoll);
    ReachNext(2, b, s1, ParkForSlot);
    s' := Do(s1, ParkForSlot);
  }

  /** The rest of a drain that delivers the only response there is, up to the polls. */
  lemma DrainOnly(b: nat, s: System, t: TaskId) returns (s': System)
    requires Reachable(2, b, s) && s.phase.Boundary? && |s.ringB| == 1 && s.queue == [] && s.pending != [] && !s.panicked
    requires var id := s.ringB[0]; id in s.driver.ops && s.driver.ops[id].state == Waiting(Waker(t, 0))
    ensures Reachable(2, b, s')
    ensures s' == s.(ringB := [], pending := s.pending[1..], queue := [s.pending[0], t], drained := s.drained + 1,
                     driver := Update(s.driver, s.ringB[0], Completed(())), phase := Executing(2))
  {
    ReachNext(2, b, s, StartRound(1));
    var s1 := Do(s, StartRound(1));
    ReachNext(2, b, s1, DrainOne);
    var s2 := Do(s1, DrainOne);
    assert s2 == s.(ringB := [], pending := s.pending[1..], queue := [s.pending[0], t], drained := s.drained + 1,
                    driver := Update(s.driver, s.ringB[0], Completed(())), phase := Draining(0));
    ReachNext(2, b, s2, EndDrain);
    var s3 := Do(s2, EndDrain);
    ReachNext(2, b, s3, StartExec);
    s' := Do(s3, StartExec);
  }

  lemma ReachTwoMid(b: nat)
    requires b >= 2
    ensures Reachable(2, b, TwoMid(b))
  {
    ReachTwoFull(b);
    var s1 := PollParks(b, TwoFull(b));
    ReachNext(2, b, s1, EndRound);
    var s2 := Do(s1, EndRound);
    ReachNext(2, b, s2, Respond(0));
    var s3 := Do(s2, Respond(0));
    var s4 := DrainOnly(b, s3, 0);
    assert s4 == TwoMid(b);
  }

  lemma ReachTwoParked(b: nat)
    requires b >= 2
    ensures Reachable(2, b, TwoParked(b))
  {
    ReachTwoMid(b);
    var s := PollParks(b, TwoMid(b));
    ReachNext(2, b, s, StartPoll);
    var s1 := Do(s, StartPoll);
    ReachNext(2, b, s1, PollOperation(0));
    var s2 := Do(s1, PollOperation(0));
    assert s2.driver.ops == map[1 := Op(Waiting(Waker(1, 0)))];
    assert s2.tasks == [Task(WantSlot, 1), Task(Awaiting(1), 1), Task(WantSlot, 1)];
    ParkRing(b, s2);
  }

  lemma ParkRing(b: nat, s: System)
    requires Reachable(2, b, s) && s.sizeA == 2 && s.sizeB == b && s.phase == Polling(0, 0) && s.queue == []
    requires s.tasks == [Task(WantSlot, 1), Task(Awaiting(1), 1), Task(WantSlot, 1)] && s.pending == [2]
    requires s.driver == Driver(map[1 := Op(Waiting(Waker(1, 0)))], 2) && s.owner == map[1 := 1]
    requires s.ringA == [1] && s.held == [] && s.ringB == [] && !s.panicked && s.spawned == 4 && s.drained == 1
    ensures Reachable(2, b, TwoParked(b))
  {
    ReachNext(2, b, s, GetSlot(0));
    var s1 := Do(s, GetSlot(0));
    assert s1.tasks == [Task(WantRing(0), 1), Task(Awaiting(1), 1), Task(WantSlot, 1)];
    ReachNext(2, b, s1, ParkForRing);
    ReachNext(2, b, Do(s1, ParkForRing), EndRound);
    assert Do(Do(s1, ParkForRing), EndRound) == TwoParked(b);
  }

  /** The response to task 1 wakes task 2, which finds no slot; task 1 then finishes,
      and task 0, holding a slot and waiting for ring space, is never woken. */
  lemma StrandedBySizeTwo(b: nat) returns (s: System)
    requires b >= 2
    ensures Reachable(2, b, s) && Stranded(s)
  {
    ReachTwoParked(b);
    var p := TwoParked(b);
    ReachNext(2, b, p, Take);
    var p1 := Do(p, Take);
    ReachNext(2, b, p1, Respond(0));
    var p2 := Do(p1, Respond(0));
    var p3 := DrainOnly(b, p2, 1);
    var p4 := PollParks(b, p3);
    s := LastPoll(b, p4);
  }

  lemma LastPoll(b: nat, p: System) returns (s: System)
    requires Reachable(2, b, p) && p.phase == Executing(1) && p.queue == [1] && p.pending != []
    requires |p.tasks| == 3 && p.tasks[1] == Task(Awaiting(1), 1) && InFlight(p) == []
    requires 1 in p.driver.ops && p.driver.ops[1].state.Completed?
    ensures Reachable(2, b, s) && Stranded(s)
  {
    ReachNext(2, b, p, StartPoll);
    var p1 := Do(p, StartPoll);
    ReachNext(2, b, p1, PollOperation(0));
    var p2 := Do(p1, PollOperation(0));
    ReachNext(2, b, p2, EndRound);
    s := Do(p2, EndRound);
  }

  // ------------------------------------------------- a ring B of size one

  /** No response is ever sent, so what has been sent stays in flight. Before that no
      slot is taken but by a task about to send, and nobody has parked. */
  ghost predicate Mute(s: System) {
    && s.sizeB == 1 && 2 <= s.sizeA == s.driver.capacity && s.ringB == []
    && (InFlight(s) == [] ==>
          s.pending == [] &&
          (s.driver.ops == map[] || (PollingIn(s) && Current(s).state.WantRing? && |s.driver.ops| == 1)))
  }

  lemma StepMute(s: System, step: Step)
    requires Mute(s) && Can(s, step)
    ensures Mute(Do(s, step))
  {
    var s' := Do(s, step);
    if InFlight(s) != [] {
      assert |InFlight(s')| >= |InFlight(s)|;
    } else {
      match step
      case GetSlot(id) => assert s'.driver.ops == map[id := RawOp(Submitted, ())];
      case ParkForSlot => assert s.driver.ops == map[];
      case PollOperation(_) => assert s.driver.ops == map[];
      case SendEntry => assert InFlight(s')[0] in InFlight(s');
      case Spawn(_) =>
      case StartRound(_) =>
      case EndDrain =>
      case StartExec =>
      case StartPoll =>
      case EndRound =>
      case PollFinished =>
    }
  }

  lemma {:induction false} RunMute(sizeA: nat, run: seq<System>, i: nat)
    requires Run(sizeA, 1, run) && 2 <= sizeA && i < |run|
    ensures Mute(run[i])
  {
    if i > 0 {
      var p := i - 1;
      RunMute(sizeA, run, p);
      assert Next(run[p], run[p + 1]);
      var step: Step :| Can(run[p], step) && run[p + 1] == Do(run[p], step);
      StepMute(run[p], step);
    }
  }

  // ------------------------------------------------------- the exact condition

  lemma {:induction false} SmallPowers(k: nat)
    ensures Pow2(k) == 1 || Pow2(k) == 2 || Pow2(k) >= 4
    ensures Pow2(k) == 1 <==> k == 0
  {
    if k >= 2 {
      Pow2Mono(2, k);
      assert Pow2(2) == 4;
    }
  }

  /** For every pair of ring sizes the builder accepts: a submitter can end up stranded
      if and only if ring A has one entry, or two while ring B has at least two, or ring
      B has more entries than ring A. */
  lemma StrandingExactly(j: nat, k: nat)
    ensures (exists s: System :: Reachable(Pow2(j), Pow2(k), s) && Stranded(s))
            <==> Pow2(j) == 1 || (Pow2(j) == 2 && Pow2(k) >= 2) || Pow2(k) > Pow2(j)
  {
    var a, b := Pow2(j), Pow2(k);
    SmallPowers(j);
    SmallPowers(k);
    if a == 1 {
      var s := StrandedBySizeOne(b);
      assert Reachable(a, b, s) && Stranded(s);
    } else if a < b {
      var s := StrandedByLargeB(a, b);
      assert Reachable(a, b, s) && Stranded(s);
    } else if a == 2 && b >= 2 {
      var s := StrandedBySizeTwo(b);
      assert Reachable(a, b, s) && Stranded(s);
    } else {
      forall s: System | Reachable(a, b, s) ensures !Stranded(s) {
        NeverStranded(a, b, s);
      }
    }
  }

  lemma NeverStranded(a: nat, b: nat, s: System)
    requires Reachable(a, b, s) && ((4 <= a && 1 <= b <= a) || (2 <= a && b == 1))
    ensures !Stranded(s)
  {
    var run :| Run(a, b, run) && run[|run| - 1] == s;
    if b == 1 {
      RunMute(a, run, |run| - 1);
    } else {
      NobodyIsStranded(a, b, run, |run| - 1);
    }
  }
}
