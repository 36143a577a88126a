/** `Runtime` of examples/evering-utils/src/runtime.rs with the executor's `block_on`
    loop around it, updated in place, while the server runs between any two accesses
    to the rings. What it does is a run of `Backpressure`'s machine, kept as history. */
module Runtimes {
  import opened Prelude
  import opened Drivers
  import opened Backpressure
  import opened BackpressureSafety
  import opened BackpressureTheorems
  import opened BackpressureLiveness

  /** What is left of `q` after `n` pops. */
  function Rest(q: seq<nat>, n: nat): seq<nat> {
    if n == 0 then q else Popped(Rest(q, n - 1))
  }

  function Popped(q: seq<nat>): seq<nat> {
    if q == [] then [] else q[1..]
  }

  lemma {:induction false} RestIs(q: seq<nat>, n: nat)
    ensures Rest(q, n) == if n <= |q| then q[n..] else []
  {
    if n > 0 {
      RestIs(q, n - 1);
    }
  }

  function Head(q: seq<nat>): seq<nat> {
    if q == [] then [] else [q[0]]
  }

  lemma HeadOfRest(q: seq<nat>, n: nat)
    ensures Head(Rest(q, n)) == if n < |q| then [q[n]] else []
  {
    RestIs(q, n);
  }

  /** The task a slot was issued to. */
  function TaskOf(owner: map<OpId, TaskId>, id: OpId): TaskId {
    if id in owner then owner[id] else 0
  }

  /** Whom draining the first `n` responses wakes: for each the longest parked submitter
      left, if any, and then the task that awaits the response. */
  function Roused(parked: seq<TaskId>, responses: seq<OpId>, owner: map<OpId, TaskId>, n: nat): seq<TaskId>
    requires n <= |responses|
  {
    if n == 0 then []
    else
      Roused(parked, responses, owner, n - 1)
      + (if n <= |parked| then [parked[n - 1]] else [])
      + [TaskOf(owner, responses[n - 1])]
  }

  /** The ids of `n` tasks spawned when there were `first`. */
  function NewTasks(first: nat, n: nat): seq<TaskId> {
    seq(n, i => first + i)
  }

  /** Tasks about to submit their first operation. */
  function Fresh(scripts: seq<nat>): seq<Task> {
    seq(|scripts|, i requires 0 <= i < |scripts| => Task(WantSlot, scripts[i]))
  }

  lemma OneScriptMore(scripts: seq<nat>, i: nat)
    requires i < |scripts|
    ensures Fresh(scripts[..i + 1]) == Fresh(scripts[..i]) + [Task(WantSlot, scripts[i])]
    ensures Sum(scripts[..i + 1]) == Sum(scripts[..i]) + scripts[i]
  {
    assert scripts[..i + 1][..i] == scripts[..i];
  }

  lemma OneTaskMore(first: nat, i: nat)
    ensures NewTasks(first, i + 1) == NewTasks(first, i) + [first + i]
  {
  }

  function Sum(scripts: seq<nat>): nat {
    if scripts == [] then 0 else Sum(scripts[..|scripts| - 1]) + scripts[|scripts| - 1]
  }

  /** What the snapshot showed is still in front when the server has appended more. */
  lemma StillAhead(q: seq<nat>, n: nat, r: seq<nat>, r': seq<nat>)
    requires n < |q| && Rest(q, n) <= r && Popped(r) <= r'
    ensures Rest(q, n + 1) <= r'
  {
    RestIs(q, n);
    assert forall i :: 0 < i < |q| - n ==> r[i] == Rest(q, n)[i];
    assert forall i :: 0 <= i < |q| - n - 1 ==> Popped(r)[i] == Rest(q, n)[i + 1];
  }

  /** The task waits for a driver slot or for ring space. */
  predicate Wants(task: Task) {
    task.state.WantSlot? || task.state.WantRing?
  }

  /** Only tasks in `polled` have moved, none has more left to do than before. */
  predicate OnlyPolled(before: seq<Task>, after: seq<Task>, polled: seq<TaskId>) {
    && |after| == |before|
    && (forall t :: 0 <= t < |after| ==> after[t].left <= before[t].left)
    && (forall t :: 0 <= t < |after| && t !in polled ==> after[t] == before[t])
  }

  lemma OnePolled(first: seq<Task>, before: seq<Task>, after: seq<Task>, polled: seq<TaskId>, t: TaskId)
    requires OnlyPolled(first, before, polled)
    requires t < |after| == |before| && after == before[t := after[t]] && after[t].left <= before[t].left
    ensures OnlyPolled(first, after, polled + [t])
  {
  }

  class Runtime {
    const sizeA: nat
    const sizeB: nat
    const driver: DriverInner<(), (), ()>
    var tasks: seq<Task>
    var queue: seq<TaskId>       // the executor's
    var pending: seq<TaskId>     // pending_submissions
    var ringA: seq<OpId>
    var held: seq<OpId>          // requests the server has taken
    var ringB: seq<OpId>
    ghost var owner: map<OpId, TaskId>
    ghost var spawned: nat
    ghost var drained: nat
    ghost var run: seq<System>   // every state so far

    /** The state of the abstract machine this object is in, in phase `phase`. */
    ghost function View(phase: Phase): System
      reads this, driver
    {
      System(sizeA, sizeB, tasks, queue, pending, driver.Value(), ringA, held, ringB, phase, false, owner, spawned, drained)
    }

    ghost predicate Valid(phase: Phase)
      reads this, driver
    {
      1 <= sizeA && 1 <= sizeB && driver.Valid() && Run(sizeA, sizeB, run) && run[|run| - 1] == View(phase)
    }

    constructor (sizeA: nat, sizeB: nat)
      requires 1 <= sizeA && 1 <= sizeB
      ensures Valid(Boundary) && fresh(driver) && this.sizeA == sizeA && this.sizeB == sizeB
      ensures View(Boundary) == Start(sizeA, sizeB)
    {
      this.sizeA, this.sizeB := sizeA, sizeB;
      driver := new DriverInner<(), (), ()>.WithCapacity(sizeA);
      tasks, queue, pending := [], [], [];
      ringA, held, ringB := [], [], [];
      owner, spawned, drained, run := map[], 0, 0, [Start(sizeA, sizeB)];
    }

    /** The server takes and answers any number of requests, in any order. */
    method ServerRuns(ghost phase: Phase)
      requires Valid(phase)
      modifies this`run, this`ringA, this`held, this`ringB
      ensures Valid(phase) && old(run) <= run && old(ringB) <= ringB && |InFlight(View(phase))| == |InFlight(old(View(phase)))|
    {
      var steps: nat := *;
      while steps > 0
        invariant Valid(phase) && old(run) <= run && old(ringB) <= ringB
        invariant |InFlight(View(phase))| == |InFlight(old(View(phase)))|
      {
        ghost var before := View(phase);
        var i: nat := *;
        if 0 <= i < |held| && |ringB| + 1 < sizeB {
          held, ringB := held[..i] + held[i + 1..], ringB + [held[i]];
          ExtendRun(sizeA, sizeB, run, Respond(i));
          run := run + [Do(before, Respond(i))];
          assert View(phase) == Do(before, Respond(i));
        } else if ringA != [] {
          ringA, held := ringA[1..], held + [ringA[0]];
          ExtendRun(sizeA, sizeB, run, Take);
          run := run + [Do(before, Take)];
          assert View(phase) == Do(before, Take);
        }
        steps := steps - 1;
      }
    }

    /** The round moves on to its next phase. */
    ghost method Advance(phase: Phase, step: Step, next: Phase)
      requires Valid(phase) && Can(View(phase), step) && Do(View(phase), step) == View(phase).(phase := next)
      modifies this`run
      ensures Valid(next) && old(run) <= run
    {
      ExtendRun(sizeA, sizeB, run, step);
      run := run + [Do(View(phase), step)];
    }

    ghost method BeginDrain(loaded: nat)
      requires Valid(Boundary) && loaded <= |ringB|
      modifies this`run
      ensures Valid(Draining(loaded)) && old(run) <= run
    {
      Advance(Boundary, StartRound(loaded), Draining(loaded));
    }

    ghost method FinishDrain()
      requires Valid(Draining(0))
      modifies this`run
      ensures Valid(Root) && old(run) <= run
    {
      Advance(Draining(0), EndDrain, Root);
    }

    /** One iteration of the drain loop. */
    method DrainOneResponse(ghost left: nat)
      requires Valid(Draining(left)) && left > 0 && ringB != []
      modifies this`run, this`queue, this`pending, this`ringB, this`drained, driver
      ensures Valid(Draining(left - 1)) && old(run) <= run
      ensures View(Draining(left - 1)) == Do(old(View(Draining(left))), DrainOne)
      ensures ringB == old(ringB)[1..] && drained == old(drained) + 1
      ensures pending == Popped(old(pending))
      ensures queue == old(queue) + Head(old(pending)) + [TaskOf(owner, old(ringB)[0])]
    {
      ghost var before := View(Draining(left));
      DrainNext(sizeA, sizeB, run);
      var ent := ringB[0];
      ringB := ringB[1..];
      if pending != [] {
        queue := queue + [pending[0]];
        pending := pending[1..];
      }
      var outcome := driver.Complete(ent, ());
      if outcome.Accepted? && outcome.woken.Some? {
        queue := queue + [outcome.woken.value.task];
      }
      drained := drained + 1;
      run := run + [Do(before, DrainOne)];
      assert View(Draining(left - 1)) == Do(before, DrainOne);
    }

    /** The server may have got further by the time a response is taken. */
    method DrainWhileServerRuns(ghost left: nat)
      requires Valid(Draining(left)) && left > 0 && ringB != []
      modifies this`run, this`queue, this`pending, this`ringA, this`held, this`ringB, this`drained, driver
      ensures Valid(Draining(left - 1)) && old(run) <= run && drained == old(drained) + 1 && Popped(old(ringB)) <= ringB
      ensures pending == Popped(old(pending))
      ensures queue == old(queue) + Head(old(pending)) + [TaskOf(owner, old(ringB)[0])]
    {
      ServerRuns(Draining(left));
      DrainOneResponse(left);
    }

    /** The drain loop of `RunOn::poll`, the tail it loads showing `loaded` responses: for
        each, the longest parked submitter is woken, then the response is completed. */
    method DrainResponses(loaded: nat)
      requires Valid(Boundary) && loaded <= |ringB|
      modifies this`run, this`queue, this`pending, this`ringA, this`held, this`ringB, this`drained, driver
      ensures Valid(Root) && old(run) <= run && drained == old(drained) + loaded
      ensures pending == Rest(old(pending), loaded) && Rest(old(ringB), loaded) <= ringB
      ensures queue == Roused(old(pending), old(ringB), owner, loaded)
    {
      BoundaryHolds();
      BeginDrain(loaded);
      DrainUpTo(loaded);
      FinishDrain();
    }

    method DrainUpTo(loaded: nat)
      requires Valid(Draining(loaded)) && loaded <= |ringB|
      modifies this`run, this`queue, this`pending, this`ringA, this`held, this`ringB, this`drained, driver
      ensures Valid(Draining(0)) && old(run) <= run && drained == old(drained) + loaded
      ensures pending == Rest(old(pending), loaded) && Rest(old(ringB), loaded) <= ringB
      ensures queue == old(queue) + Roused(old(pending), old(ringB), owner, loaded)
    {
      ghost var left := loaded;
      for n := 0 to loaded
        invariant left == loaded - n && Valid(Draining(left)) && old(run) <= run
        invariant drained == old(drained) + n
        invariant pending == Rest(old(pending), n) && Rest(old(ringB), n) <= ringB
        invariant queue == old(queue) + Roused(old(pending), old(ringB), owner, n)
      {
        RestIs(old(ringB), n);
        HeadOfRest(old(pending), n);
        ghost var ahead := ringB;
        DrainWhileServerRuns(left);
        StillAhead(old(ringB), n, ahead, ringB);
        left := left - 1;
      }
    }

    /** The root future spawns tasks; it does not submit. */
    method PollRoot(scripts: seq<nat>)
      requires Valid(Root) && forall i :: 0 <= i < |scripts| ==> scripts[i] > 0
      modifies this`run, this`tasks, this`queue, this`spawned
      ensures Valid(Root) && old(run) <= run && spawned == old(spawned) + Sum(scripts)
      ensures tasks == old(tasks) + Fresh(scripts)
      ensures queue == old(queue) + NewTasks(|old(tasks)|, |scripts|)
    {
      for i := 0 to |scripts|
        invariant Valid(Root) && old(run) <= run && spawned == old(spawned) + Sum(scripts[..i])
        invariant tasks == old(tasks) + Fresh(scripts[..i])
        invariant queue == old(queue) + NewTasks(|old(tasks)|, i)
      {
        OneScriptMore(scripts, i);
        OneTaskMore(|old(tasks)|, i);
        SpawnTask(scripts[i]);
      }
      assert scripts[..|scripts|] == scripts;
    }

    /** `spawn`: a new task is queued at once. */
    method SpawnTask(ops: nat)
      requires Valid(Root) && ops > 0
      modifies this`run, this`tasks, this`queue, this`spawned
      ensures Valid(Root) && old(run) <= run
      ensures tasks == old(tasks) + [Task(WantSlot, ops)] && queue == old(queue) + [|old(tasks)|]
      ensures spawned == old(spawned) + ops
    {
      ghost var before := View(Root);
      queue := queue + [|tasks|];
      tasks := tasks + [Task(WantSlot, ops)];
      spawned := spawned + ops;
      ExtendRun(sizeA, sizeB, run, Spawn(ops));
      run := run + [Do(before, Spawn(ops))];
      assert View(Root) == Do(before, Spawn(ops));
    }

    /** `wait_for_ok` around `try_submit_ext`. */
    method PollForSlot(t: TaskId, ghost count: nat) returns (suspended: bool)
      requires Valid(Polling(t, count)) && t < |tasks| && tasks[t].state.WantSlot?
      modifies this`run, this`tasks, this`pending, this`owner, driver
      ensures Valid(if suspended then Executing(count) else Polling(t, count)) && old(run) <= run
      ensures suspended <==> !HasRoom(old(driver.Value()))
      ensures suspended ==>
        pending == old(pending) + [t] && tasks == old(tasks) && driver.Value() == old(driver.Value())
      ensures !suspended ==> |tasks| == |old(tasks)| && tasks[t].state.WantRing?
      ensures !suspended ==> var id := tasks[t].state.id;
        && id !in old(driver.ops) && driver.Value() == Insert(old(driver.Value()), id, ())
        && tasks == old(tasks)[t := Task(WantRing(id), old(tasks[t].left))] && pending == old(pending)
    {
      ghost var before := View(Polling(t, count));
      var id, rejected := driver.TrySubmit(());
      if id.Some? {
        tasks := tasks[t := tasks[t].(state := WantRing(id.value))];
        owner := owner[id.value := t];
        ExtendRun(sizeA, sizeB, run, GetSlot(id.value));
        run := run + [Do(before, GetSlot(id.value))];
        assert View(Polling(t, count)) == Do(before, GetSlot(id.value));
        return false;
      }
      pending := pending + [t];
      ExtendRun(sizeA, sizeB, run, ParkForSlot);
      run := run + [Do(before, ParkForSlot)];
      assert View(Executing(count)) == Do(before, ParkForSlot);
      return true;
    }

    /** `wait_for_ok` around `send`; on a stale index the ring looks full earlier. */
    method PollForRing(t: TaskId, stale: bool, ghost count: nat) returns (suspended: bool)
      requires Valid(Polling(t, count)) && t < |tasks| && tasks[t].state.WantRing? && |ringA| < sizeA
      modifies this`run, this`tasks, this`pending, this`ringA
      ensures Valid(if suspended then Executing(count) else Polling(t, count)) && old(run) <= run
      ensures suspended <==>
        |old(ringA)| + 1 >= sizeA || (stale && sizeA <= |old(ringA)| + |held| + |ringB| + 1)
      ensures suspended ==> pending == old(pending) + [t] && tasks == old(tasks) && ringA == old(ringA)
      ensures !suspended ==> var id := old(tasks[t].state.id);
        && ringA == old(ringA) + [id] && pending == old(pending)
        && tasks == old(tasks)[t := Task(Awaiting(id), old(tasks[t].left))]
    {
      ghost var before := View(Polling(t, count));
      if |ringA| + 1 < sizeA && !(stale && sizeA <= |ringA| + |held| + |ringB| + 1) {
        var id := tasks[t].state.id;
        ringA := ringA + [id];
        tasks := tasks[t := tasks[t].(state := Awaiting(id))];
        ExtendRun(sizeA, sizeB, run, SendEntry);
        run := run + [Do(before, SendEntry)];
        assert View(Polling(t, count)) == Do(before, SendEntry);
        return false;
      }
      pending := pending + [t];
      ExtendRun(sizeA, sizeB, run, ParkForRing);
      run := run + [Do(before, ParkForRing)];
      assert View(Executing(count)) == Do(before, ParkForRing);
      return true;
    }

    /** `Op::poll`, and on Ready the script's next step. */
    method PollOperation(t: TaskId, ghost count: nat) returns (suspended: bool)
      requires Valid(Polling(t, count)) && t < |tasks| && tasks[t].state.Awaiting? && tasks[t].left > 0
      requires !Do(View(Polling(t, count)), Step.PollOperation(0)).panicked
      modifies this`run, this`tasks, this`owner, driver
      ensures Valid(if suspended then Executing(count) else Polling(t, count)) && old(run) <= run
      ensures var id, before := old(tasks[t].state.id), old(driver.ops);
        && id in before && (before[id].state.Completed? || before[id].state.Submitted? || before[id].state.Waiting?)
        && (if before[id].state.Completed? then
              && driver.ops == before - {id} && (suspended <==> old(tasks[t].left) == 1)
              && tasks == old(tasks)[t := Task(if suspended then Finished else WantSlot, old(tasks[t].left) - 1)]
            else
              && suspended && tasks == old(tasks) && id in driver.ops
              && driver.ops[id].state.Waiting? && driver.ops[id].state.waker.WillWake(Waker(t, 0)))
    {
      ghost var before := View(Polling(t, count));
      ExtendRun(sizeA, sizeB, run, Step.PollOperation(0));
      run := run + [Do(before, Step.PollOperation(0))];
      var id := tasks[t].state.id;
      var r := driver.Poll(id, Waker(t, 0));
      if r.Ready? {
        var left := tasks[t].left - 1;
        tasks := tasks[t := Task(if left == 0 then Finished else WantSlot, left)];
        owner := owner - {id};
        suspended := left == 0;
      } else {
        suspended := true;
      }
      assert View(if suspended then Executing(count) else Polling(t, count)) == Do(before, Step.PollOperation(0));
    }

    /** One poll of a task: its script runs until it has to wait. */
    method PollTask(t: TaskId, ghost count: nat)
      requires Valid(Polling(t, count))
      modifies this`run, this`tasks, this`pending, this`owner, this`ringA, this`held, this`ringB, driver
      ensures Valid(Executing(count)) && old(run) <= run && t < |tasks|
      ensures pending == old(pending) + if Wants(tasks[t]) then [t] else []
      ensures |tasks| == |old(tasks)| && tasks == old(tasks)[t := tasks[t]] && tasks[t].left <= old(tasks)[t].left
    {
      var suspended := false;
      PolledFacts(sizeA, sizeB, run);
      while !suspended
        invariant Valid(if suspended then Executing(count) else Polling(t, count)) && old(run) <= run
        invariant t < |tasks| == |old(tasks)|
        invariant tasks == old(tasks)[t := tasks[t]] && tasks[t].left <= old(tasks)[t].left
        invariant pending == old(pending) + if suspended && Wants(tasks[t]) then [t] else []
        decreases !suspended, if t < |tasks| then PollLeft(tasks[t]) else 0
      {
        ServerRuns(Polling(t, count));
        PolledFacts(sizeA, sizeB, run);
        match tasks[t].state
        case WantSlot => suspended := PollForSlot(t, count);
        case WantRing(_) =>
          var stale: bool := *;
          suspended := PollForRing(t, stale, count);
        case Awaiting(_) => suspended := PollOperation(t, count);
      }
    }

    /** Pops the task at the front and polls it once. */
    method PollNext(ghost count: nat) returns (t: TaskId)
      requires Valid(Executing(count)) && count > 0
      modifies this`run, this`tasks, this`queue, this`pending, this`owner, this`ringA, this`held, this`ringB, driver
      ensures Valid(Executing(count - 1)) && old(run) <= run
      ensures old(queue) == [t] + queue && old(pending) <= pending
      ensures t < |tasks| == |old(tasks)| && tasks == old(tasks)[t := tasks[t]] && tasks[t].left <= old(tasks)[t].left
    {
      QueuedFacts(sizeA, sizeB, run);
      ghost var before := View(Executing(count));
      t := queue[0];
      queue := queue[1..];
      ExtendRun(sizeA, sizeB, run, StartPoll);
      run := run + [Do(before, StartPoll)];
      assert View(Polling(t, count - 1)) == Do(before, StartPoll);
      PollTask(t, count - 1);
    }

    /** The executor's part of a round: the tasks queued when it counts, in order. */
    method PollQueued() returns (polled: seq<TaskId>)
      requires Valid(Root)
      modifies this`run, this`tasks, this`queue, this`pending, this`owner, this`ringA, this`held, this`ringB, driver
      ensures Valid(Boundary) && old(run) <= run
      ensures polled == old(queue) && old(pending) <= pending
      ensures OnlyPolled(old(tasks), tasks, polled)
    {
      var count := |queue|;
      BeginPolls();
      polled := [];
      for i := 0 to count
        invariant |queue| == count - i && Valid(Executing(|queue|)) && old(run) <= run
        invariant old(queue) == polled + queue && old(pending) <= pending
        invariant OnlyPolled(old(tasks), tasks, polled)
      {
        ghost var before := tasks;
        var t := PollNext(|queue|);
        OnePolled(old(tasks), before, tasks, polled, t);
        polled := polled + [t];
      }
      FinishPolls();
    }

    ghost method BeginPolls()
      requires Valid(Root)
      modifies this`run
      ensures Valid(Executing(|queue|)) && old(run) <= run
    {
      Advance(Root, StartExec, Executing(|queue|));
    }

    ghost method FinishPolls()
      requires Valid(Executing(0))
      modifies this`run
      ensures Valid(Boundary) && old(run) <= run
    {
      Advance(Executing(0), EndRound, Boundary);
    }

    /** One turn of the `block_on` loop, the drain's load showing `loaded` responses. The
        tasks polled are those the drain wakes and then those the root future spawns; each
        ends up parked, awaiting or finished, and no other task moves. With rings of the
        right sizes nobody is stranded: a parked task implies an operation in flight. */
    method Round(scripts: seq<nat>, loaded: nat) returns (polled: seq<TaskId>)
      requires Valid(Boundary) && loaded <= |ringB| && forall i :: 0 <= i < |scripts| ==> scripts[i] > 0
      modifies this, driver
      ensures Valid(Boundary) && old(run) <= run && queue == []
      ensures drained == old(drained) + loaded && spawned == old(spawned) + Sum(scripts)
      ensures Remaining(tasks) + drained == spawned
      ensures polled == Roused(old(pending), old(ringB), old(owner), loaded) + NewTasks(|old(tasks)|, |scripts|)
      ensures Rest(old(pending), loaded) <= pending
      ensures OnlyPolled(old(tasks) + Fresh(scripts), tasks, polled)
      ensures forall t :: 0 <= t < |tasks| ==> if t in pending then Wants(tasks[t]) else !Wants(tasks[t])
      ensures 4 <= sizeA && sizeB <= sizeA && pending != [] ==> |ringA| + |held| + |ringB| > 0
    {
      BoundaryHolds();
      DrainResponses(loaded);
      PollRoot(scripts);
      polled := PollQueued();
      BoundaryHolds();
    }

    lemma BoundaryHolds()
      requires Valid(Boundary)
      ensures queue == [] && Remaining(tasks) + drained == spawned
      ensures forall t :: 0 <= t < |tasks| ==> if t in pending then Wants(tasks[t]) else !Wants(tasks[t])
      ensures 4 <= sizeA && sizeB <= sizeA && pending != [] ==> |ringA| + |held| + |ringB| > 0
    {
      RoundFacts(sizeA, sizeB, run);
    }
  }

  lemma ExtendRun(sizeA: nat, sizeB: nat, run: seq<System>, step: Step)
    requires Run(sizeA, sizeB, run) && Can(run[|run| - 1], step)
    ensures Run(sizeA, sizeB, run + [Do(run[|run| - 1], step)])
  {
    var longer := run + [Do(run[|run| - 1], step)];
    forall i {:trigger Next(longer[i], longer[i + 1])} | 0 <= i < |longer| - 1
      ensures Next(longer[i], longer[i + 1])
    {
      if i < |run| - 1 {
        assert Next(run[i], run[i + 1]);
      }
    }
  }

  /** One drain iteration never panics, and wakes a submitter and the response's task. */
  lemma DrainNext(sizeA: nat, sizeB: nat, run: seq<System>)
    requires Run(sizeA, sizeB, run) && 1 <= sizeA && 1 <= sizeB && Can(run[|run| - 1], DrainOne)
    ensures var s := run[|run| - 1];
      && Run(sizeA, sizeB, run + [Do(s, DrainOne)]) && !Do(s, DrainOne).panicked
      && Do(s, DrainOne).queue == s.queue + Head(s.pending) + [TaskOf(s.owner, s.ringB[0])]
  {
    var s := run[|run| - 1];
    ExtendRun(sizeA, sizeB, run, DrainOne);
    RunInv(sizeA, sizeB, run, |run| - 1);
    StepSafe(s, DrainOne);
    var id, t := DrainIsDrainStep(s);
  }

  /** A task being polled exists, has work left, and its operation can be polled. */
  lemma PolledFacts(sizeA: nat, sizeB: nat, run: seq<System>)
    requires Run(sizeA, sizeB, run) && 1 <= sizeA && 1 <= sizeB && run[|run| - 1].phase.Polling?
    ensures var s := run[|run| - 1];
      && PollingIn(s) && |s.ringA| < s.sizeA
      && Current(s).left > 0 && !Current(s).state.Finished?
      && (Current(s).state.Awaiting? ==> !Do(s, Step.PollOperation(0)).panicked)
  {
    var s := run[|run| - 1];
    RunInv(sizeA, sizeB, run, |run| - 1);
    CurrentNotQueued(s);
    assert TaskOk(s, s.phase.task);
  }

  /** `pop_front` finds a task as long as the count says there is one. */
  lemma QueuedFacts(sizeA: nat, sizeB: nat, run: seq<System>)
    requires Run(sizeA, sizeB, run) && 1 <= sizeA && 1 <= sizeB
    requires run[|run| - 1].phase.Executing? && run[|run| - 1].phase.count > 0
    ensures run[|run| - 1].queue != []
  {
    RunInv(sizeA, sizeB, run, |run| - 1);
  }

  lemma RoundFacts(sizeA: nat, sizeB: nat, run: seq<System>)
    requires Run(sizeA, sizeB, run) && 1 <= sizeA && 1 <= sizeB && run[|run| - 1].phase.Boundary?
    ensures var s := run[|run| - 1];
      && s.queue == [] && Remaining(s.tasks) + s.drained == s.spawned
      && (forall t :: 0 <= t < |s.tasks| ==> (t in s.pending <==> Wants(s.tasks[t])))
      && (4 <= sizeA && sizeB <= sizeA && s.pending != [] ==> |s.ringA| + |s.held| + |s.ringB| > 0)
  {
    var s := run[|run| - 1];
    if 4 <= sizeA && sizeB <= sizeA {
      NobodyIsStranded(sizeA, sizeB, run, |run| - 1);
    }
    BoundaryProgress(sizeA, sizeB, run, |run| - 1);
    RunInv(sizeA, sizeB, run, |run| - 1);
    forall t | 0 <= t < |s.tasks| ensures t in s.pending <==> Wants(s.tasks[t]) {
      assert TaskOk(s, t);
    }
    assert InFlight(s) == s.ringA + s.held + s.ringB;
  }
}
