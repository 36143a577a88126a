/** The round-based executor of local-executor/src/executor.rs. What a future does when
    polled is a parameter: it changes a world of the caller's choosing and wakes some
    tasks, in some order, possibly itself; spawning a task is waking it. */
module Executors {
  import opened Prelude

  type TaskRef = nat

  datatype Polled<W> = Polled(world: W, woken: seq<TaskRef>)

  datatype RootPolled<W, T> =
    | RootPending(world: W, woken: seq<TaskRef>)
    | RootReady(world: W, woken: seq<TaskRef>, output: T)

  /** Polling the tasks of a batch one after the other, once per occurrence. */
  function PollAll<W>(poll: (W, TaskRef) -> Polled<W>, world: W, batch: seq<TaskRef>): Polled<W> {
    if batch == [] then Polled(world, [])
    else
      var before := PollAll(poll, world, batch[..|batch| - 1]);
      var last := poll(before.world, batch[|batch| - 1]);
      Polled(last.world, before.woken + last.woken)
  }

  /** The batches polled in the first `turns` turns of `block_on`: each turn's batch is
      what the previous one's tasks woke, then what the root future woke. */
  function Rounds<W, T>(root: W -> RootPolled<W, T>, poll: (W, TaskRef) -> Polled<W>,
                        world: W, queue: seq<TaskRef>, turns: nat): seq<seq<TaskRef>>
    decreases turns
  {
    if turns == 0 then []
    else
      match root(world)
      case RootReady(_, _, _) => []
      case RootPending(w, woken) =>
        var p := PollAll(poll, w, queue + woken);
        [queue + woken] + Rounds(root, poll, p.world, p.woken, turns - 1)
  }

  // ------------------------------------------------- what any world can witness

  /** `log` lists the wakes by tasks, in order. */
  ghost predicate LogsTasks<W(!new)>(poll: (W, TaskRef) -> Polled<W>, log: W -> seq<TaskRef>) {
    forall w, t :: log(poll(w, t).world) == log(w) + poll(w, t).woken
  }

  /** `log` lists the wakes by the root future and by tasks, in order. */
  ghost predicate LogsWakes<W(!new), T(!new)>(root: W -> RootPolled<W, T>, poll: (W, TaskRef) -> Polled<W>, log: W -> seq<TaskRef>) {
    LogsTasks(poll, log) && forall w :: log(root(w).world) == log(w) + root(w).woken
  }

  /** `log` lists the tasks polled, in order. */
  ghost predicate LogsPolls<W(!new)>(poll: (W, TaskRef) -> Polled<W>, log: W -> seq<TaskRef>) {
    forall w, t :: log(poll(w, t).world) == log(w) + [t]
  }

  ghost predicate RootIsSilent<W(!new), T(!new)>(root: W -> RootPolled<W, T>, log: W -> seq<TaskRef>) {
    forall w :: log(root(w).world) == log(w)
  }

  /** What has been logged since. */
  function Since<T(==)>(log: seq<T>, log': seq<T>): seq<T> {
    if log <= log' then log'[|log|..] else []
  }

  /** The first `n` batches one after the other. */
  function FlatTo<T>(batches: seq<seq<T>>, n: nat): seq<T>
    requires n <= |batches|
  {
    if n == 0 then [] else FlatTo(batches, n - 1) + batches[n - 1]
  }

  function Flat<T>(batches: seq<seq<T>>): seq<T> {
    FlatTo(batches, |batches|)
  }

  /** `worlds[i]` is the world in which turn `i` begins and polls the root future. */
  ghost predicate TurnsThrough<W, T>(root: W -> RootPolled<W, T>, poll: (W, TaskRef) -> Polled<W>, world: W,
                                     batches: seq<seq<TaskRef>>, worlds: seq<W>) {
    && |worlds| == |batches| + 1 && worlds[0] == world
    && forall i :: 0 <= i < |batches| ==>
         root(worlds[i]).RootPending? && worlds[i + 1] == PollAll(poll, root(worlds[i]).world, batches[i]).world
  }

  /** What is queued when each turn begins, next to its batch. */
  ghost predicate Queued<W, T>(root: W -> RootPolled<W, T>, poll: (W, TaskRef) -> Polled<W>,
                               batches: seq<seq<TaskRef>>, worlds: seq<W>, queues: seq<seq<TaskRef>>) {
    && |worlds| == |queues| == |batches| + 1
    && forall i {:trigger batches[i]} :: 0 <= i < |batches| ==>
         && batches[i] == queues[i] + root(worlds[i]).woken
         && queues[i + 1] == PollAll(poll, root(worlds[i]).world, batches[i]).woken
  }

  lemma PopFront<T>(q: seq<T>, i: nat, woken: seq<T>)
    requires i < |q|
    ensures q[i..] + woken != [] && (q[i..] + woken)[0] == q[i]
    ensures (q[i..] + woken)[1..] == q[i + 1..] + woken
    ensures q[..i + 1] == q[..i] + [q[i]]
  {
  }

  lemma Associate<T>(a: seq<T>, b: seq<T>, c: seq<T>)
    ensures (a + b) + c == a + (b + c)
  {
  }

  lemma Regroup<T>(a: seq<T>, b: T, c: seq<T>)
    ensures a + ([b] + c) == (a + [b]) + c
  {
  }

  lemma OneMoreTurn<W, T>(root: W -> RootPolled<W, T>, poll: (W, TaskRef) -> Polled<W>, world: W,
                          batches: seq<seq<TaskRef>>, worlds: seq<W>, queues: seq<seq<TaskRef>>,
                          batch: seq<TaskRef>, w: W, queue: seq<TaskRef>)
    requires TurnsThrough(root, poll, world, batches, worlds) && Queued(root, poll, batches, worlds, queues)
    requires var r := root(worlds[|batches|]);
      && r.RootPending? && batch == queues[|batches|] + r.woken
      && Polled(w, queue) == PollAll(poll, r.world, batch)
    ensures TurnsThrough(root, poll, world, batches + [batch], worlds + [w])
    ensures Queued(root, poll, batches + [batch], worlds + [w], queues + [queue])
  {
    var n := |batches|;
    var batches', worlds', queues' := batches + [batch], worlds + [w], queues + [queue];
    forall i {:trigger batches'[i]} | 0 <= i < n + 1
      ensures root(worlds'[i]).RootPending?
      ensures Polled(worlds'[i + 1], queues'[i + 1]) == PollAll(poll, root(worlds'[i]).world, batches'[i])
      ensures batches'[i] == queues'[i] + root(worlds'[i]).woken
    {
      assert i < n ==> batches'[i] == batches[i];
    }
  }

  /** First in first out: what was queued first, and behind it what has been logged since
      `log`, is what has been polled and, behind it, what is queued. */
  predicate Fifo(polled: seq<TaskRef>, queue: seq<TaskRef>, first: seq<TaskRef>, log: seq<TaskRef>, log': seq<TaskRef>) {
    log <= log' && polled + queue == first + Since(log, log')
  }

  lemma FifoWakes(polled: seq<TaskRef>, queue: seq<TaskRef>, first: seq<TaskRef>,
                  log: seq<TaskRef>, log': seq<TaskRef>, woken: seq<TaskRef>)
    requires Fifo(polled, queue, first, log, log')
    ensures Fifo(polled, queue + woken, first, log, log' + woken)
  {
    assert Since(log, log' + woken) == Since(log, log') + woken;
    assert polled + (queue + woken) == polled + queue + woken;
  }

  lemma FifoPolls(polled: seq<TaskRef>, batch: seq<TaskRef>, first: seq<TaskRef>,
                  log: seq<TaskRef>, log': seq<TaskRef>, woken: seq<TaskRef>)
    requires Fifo(polled, batch, first, log, log')
    ensures Fifo(polled + batch, woken, first, log, log' + woken)
  {
    assert Since(log, log' + woken) == Since(log, log') + woken;
  }

  lemma RootLogs<W(!new), T(!new)>(root: W -> RootPolled<W, T>, poll: (W, TaskRef) -> Polled<W>, log: W -> seq<TaskRef>, w: W)
    requires LogsWakes(root, poll, log)
    ensures log(root(w).world) == log(w) + root(w).woken
  {
  }

  /** At the beginning of turn `n`. */
  lemma {:induction false} FifoAtTurn<W(!new), T(!new)>(
      root: W -> RootPolled<W, T>, poll: (W, TaskRef) -> Polled<W>, log: W -> seq<TaskRef>,
      batches: seq<seq<TaskRef>>, worlds: seq<W>, queues: seq<seq<TaskRef>>, n: nat)
    requires LogsWakes(root, poll, log) && worlds != [] && TurnsThrough(root, poll, worlds[0], batches, worlds)
    requires Queued(root, poll, batches, worlds, queues) && n <= |batches|
    ensures Fifo(FlatTo(batches, n), queues[n], queues[0], log(worlds[0]), log(worlds[n]))
  {
    if n > 0 {
      var p, w := n - 1, root(worlds[n - 1]).world;
      FifoAtTurn(root, poll, log, batches, worlds, queues, p);
      FifoAtCount(root, poll, log, batches, worlds, queues, p);
      PollAllLogs(poll, log, w, batches[p]);
      FifoPolls(FlatTo(batches, p), batches[p], queues[0], log(worlds[0]), log(w), queues[n]);
    }
  }

  /** At the count of turn `n`, which takes in what the root future has just woken. */
  lemma FifoAtCount<W(!new), T(!new)>(
      root: W -> RootPolled<W, T>, poll: (W, TaskRef) -> Polled<W>, log: W -> seq<TaskRef>,
      batches: seq<seq<TaskRef>>, worlds: seq<W>, queues: seq<seq<TaskRef>>, n: nat)
    requires LogsWakes(root, poll, log) && Queued(root, poll, batches, worlds, queues) && n < |batches|
    requires Fifo(FlatTo(batches, n), queues[n], queues[0], log(worlds[0]), log(worlds[n]))
    ensures Fifo(FlatTo(batches, n), batches[n], queues[0], log(worlds[0]), log(root(worlds[n]).world))
  {
    RootLogs(root, poll, log, worlds[n]);
    FifoWakes(FlatTo(batches, n), queues[n], queues[0], log(worlds[0]), log(worlds[n]), root(worlds[n]).woken);
  }

  /** By the end of the batch of turn `i`, exactly what had been queued by the count. */
  ghost predicate PolledByCount<W(!new), T(!new)>(root: W -> RootPolled<W, T>, log: W -> seq<TaskRef>,
                                    first: seq<TaskRef>, batches: seq<seq<TaskRef>>, worlds: seq<W>, i: nat)
    requires i < |batches| < |worlds|
  {
    FlatTo(batches, i + 1) == first + Since(log(worlds[0]), log(root(worlds[i]).world))
  }

  lemma CountsHold<W(!new), T(!new)>(
      root: W -> RootPolled<W, T>, poll: (W, TaskRef) -> Polled<W>, log: W -> seq<TaskRef>,
      batches: seq<seq<TaskRef>>, worlds: seq<W>, queues: seq<seq<TaskRef>>)
    requires LogsWakes(root, poll, log) && worlds != [] && TurnsThrough(root, poll, worlds[0], batches, worlds)
    requires Queued(root, poll, batches, worlds, queues)
    ensures forall i :: 0 <= i < |batches| ==> PolledByCount(root, log, queues[0], batches, worlds, i)
  {
    forall i | 0 <= i < |batches| ensures PolledByCount(root, log, queues[0], batches, worlds, i) {
      FifoAtTurn(root, poll, log, batches, worlds, queues, i);
      FifoAtCount(root, poll, log, batches, worlds, queues, i);
    }
  }

  /** The wakes logged in all, up to the last world or its last poll of the root future. */
  lemma FifoAtEnd<W(!new), T(!new)>(
      root: W -> RootPolled<W, T>, poll: (W, TaskRef) -> Polled<W>, log: W -> seq<TaskRef>,
      batches: seq<seq<TaskRef>>, worlds: seq<W>, queues: seq<seq<TaskRef>>, ready: bool)
    requires LogsWakes(root, poll, log) && worlds != [] && TurnsThrough(root, poll, worlds[0], batches, worlds)
    requires Queued(root, poll, batches, worlds, queues)
    ensures var n := |batches|;
      if ready then
        Fifo(Flat(batches), queues[n] + root(worlds[n]).woken, queues[0], log(worlds[0]), log(root(worlds[n]).world))
      else
        Fifo(Flat(batches), queues[n], queues[0], log(worlds[0]), log(worlds[n]))
  {
    var n := |batches|;
    FifoAtTurn(root, poll, log, batches, worlds, queues, n);
    RootLogs(root, poll, log, worlds[n]);
    FifoWakes(Flat(batches), queues[n], queues[0], log(worlds[0]), log(worlds[n]), root(worlds[n]).woken);
  }

  /** What is polled is the batches, in order. */
  lemma {:induction false} PollsAreBatches<W(!new), T(!new)>(
      root: W -> RootPolled<W, T>, poll: (W, TaskRef) -> Polled<W>, log: W -> seq<TaskRef>,
      batches: seq<seq<TaskRef>>, worlds: seq<W>, n: nat)
    requires LogsPolls(poll, log) && RootIsSilent(root, log) && n <= |batches|
    requires worlds != [] && TurnsThrough(root, poll, worlds[0], batches, worlds)
    ensures log(worlds[n]) == log(worlds[0]) + FlatTo(batches, n)
  {
    if n > 0 {
      PollsAreBatches(root, poll, log, batches, worlds, n - 1);
      PollAllPolls(poll, log, root(worlds[n - 1]).world, batches[n - 1]);
    }
  }

  lemma PollAllAppend<W>(poll: (W, TaskRef) -> Polled<W>, world: W, batch: seq<TaskRef>, t: TaskRef)
    ensures var p := PollAll(poll, world, batch);
      var last := poll(p.world, t);
      PollAll(poll, world, batch + [t]) == Polled(last.world, p.woken + last.woken)
  {
    assert (batch + [t])[..|batch|] == batch;
  }

  /** Polling a batch logs its wakes and nothing else. */
  lemma {:induction false} PollAllLogs<W(!new)>(poll: (W, TaskRef) -> Polled<W>, log: W -> seq<TaskRef>, world: W, batch: seq<TaskRef>)
    requires LogsTasks(poll, log)
    ensures var p := PollAll(poll, world, batch); log(p.world) == log(world) + p.woken
  {
    if batch != [] {
      PollAllLogs(poll, log, world, batch[..|batch| - 1]);
    }
  }

  /** A batch is polled in order, once per occurrence. */
  lemma {:induction false} PollAllPolls<W(!new)>(poll: (W, TaskRef) -> Polled<W>, log: W -> seq<TaskRef>, world: W, batch: seq<TaskRef>)
    requires LogsPolls(poll, log)
    ensures log(PollAll(poll, world, batch).world) == log(world) + batch
  {
    if batch != [] {
      PollAllPolls(poll, log, world, batch[..|batch| - 1]);
      assert batch[..|batch| - 1] + [batch[|batch| - 1]] == batch;
    }
  }

  class Executor {
    var queue: seq<TaskRef>

    constructor ()
      ensures queue == []
    {
      queue := [];
    }

    method Wake(task: TaskRef)
      modifies this
      ensures queue == old(queue) + [task]
    {
      queue := queue + [task];
    }

    /** One pass over the tasks queued when the count is taken: exactly those are
        polled, first in first out, and everything woken meanwhile stays queued, in
        the order of waking, for the next pass. Popping never finds the queue empty. */
    method PollQueued<W(!new)>(poll: (W, TaskRef) -> Polled<W>, world: W) returns (world': W, polled: seq<TaskRef>)
      modifies this
      ensures polled == old(queue)
      ensures Polled(world', queue) == PollAll(poll, world, old(queue))
      ensures forall log :: LogsTasks(poll, log) ==> log(world') == log(world) + queue
      ensures forall log :: LogsPolls(poll, log) ==> log(world') == log(world) + old(queue)
    {
      var count := |queue|;
      world', polled := world, [];
      for i := 0 to count
        invariant polled == old(queue)[..i]
        invariant var p := PollAll(poll, world, old(queue)[..i]); world' == p.world && queue == old(queue)[i..] + p.woken
      {
        ghost var woken := PollAll(poll, world, old(queue)[..i]).woken;
        PopFront(old(queue), i, woken);
        var task := queue[0];
        queue := queue[1..];
        PollAllAppend(poll, world, old(queue)[..i], task);
        var p := poll(world', task);
        Associate(old(queue)[i + 1..], woken, p.woken);
        world', queue, polled := p.world, queue + p.woken, polled + [task];
      }
      assert old(queue)[..count] == old(queue);
      forall log | LogsTasks(poll, log) ensures log(world') == log(world) + queue {
        PollAllLogs(poll, log, world, old(queue));
      }
      forall log | LogsPolls(poll, log) ensures log(world') == log(world) + old(queue) {
        PollAllPolls(poll, log, world, old(queue));
      }
    }

    /** At most `turns` turns of the `block_on` loop, or up to the root's output, which is
        what the root future returned in the last world. No wake is lost, and the order is
        first in first out: up to every count, exactly what had been queued by then, by
        the root future just polled too, has been polled by the end of that batch, and
        what is not polled in the end is still queued. */
    method BlockOn<W(!new), T(!new)>(root: W -> RootPolled<W, T>, poll: (W, TaskRef) -> Polled<W>, world: W, turns: nat)
      returns (output: Option<T>, rounds: seq<seq<TaskRef>>, worlds: seq<W>)
      modifies this
      ensures rounds == Rounds(root, poll, world, old(queue), turns)
      ensures TurnsThrough(root, poll, world, rounds, worlds)
      ensures output == None <==> |rounds| == turns
      ensures output.Some? ==> var last := root(worlds[|rounds|]); last.RootReady? && output.value == last.output
      ensures forall log {:trigger LogsWakes(root, poll, log)} :: LogsWakes(root, poll, log) ==>
        forall i :: 0 <= i < |rounds| ==> PolledByCount(root, log, old(queue), rounds, worlds, i)
      ensures forall log {:trigger LogsWakes(root, poll, log)} :: LogsWakes(root, poll, log) ==>
        var last := worlds[|rounds|];
        Fifo(Flat(rounds), queue, old(queue), log(world), log(if output.Some? then root(last).world else last))
      ensures forall log {:trigger LogsPolls(poll, log)} :: LogsPolls(poll, log) && RootIsSilent(root, log) ==>
        log(worlds[|rounds|]) == log(world) + Flat(rounds)
    {
      ghost var queues;
      output, rounds, worlds, queues := RunTurns(root, poll, world, turns);
      forall log | LogsWakes(root, poll, log)
        ensures forall i :: 0 <= i < |rounds| ==> PolledByCount(root, log, old(queue), rounds, worlds, i)
      {
        CountsHold(root, poll, log, rounds, worlds, queues);
      }
      forall log | LogsWakes(root, poll, log)
        ensures var last := worlds[|rounds|];
          Fifo(Flat(rounds), queue, old(queue), log(world), log(if output.Some? then root(last).world else last))
      {
        FifoAtEnd(root, poll, log, rounds, worlds, queues, output.Some?);
        assert queues[|rounds|] + [] == queues[|rounds|];
      }
      forall log | LogsPolls(poll, log) && RootIsSilent(root, log)
        ensures log(worlds[|rounds|]) == log(world) + Flat(rounds)
      {
        PollsAreBatches(root, poll, log, rounds, worlds, |rounds|);
      }
    }

    /** The loop itself, with what is queued when each turn begins. */
    method RunTurns<W(!new), T(!new)>(root: W -> RootPolled<W, T>, poll: (W, TaskRef) -> Polled<W>, world: W, turns: nat)
      returns (output: Option<T>, rounds: seq<seq<TaskRef>>, worlds: seq<W>, ghost queues: seq<seq<TaskRef>>)
      modifies this
      ensures rounds == Rounds(root, poll, world, old(queue), turns)
      ensures TurnsThrough(root, poll, world, rounds, worlds)
      ensures Queued(root, poll, rounds, worlds, queues) && queues[0] == old(queue)
      ensures output == None <==> |rounds| == turns
      ensures output.Some? ==> var last := root(worlds[|rounds|]); last.RootReady? && output.value == last.output
      ensures queue == queues[|rounds|] + if output.Some? then root(worlds[|rounds|]).woken else []
    {
      var w := world;
      rounds, worlds, queues := [], [w], [queue];
      for i := 0 to turns
        invariant |rounds| == i && TurnsThrough(root, poll, world, rounds, worlds) && w == worlds[i]
        invariant Queued(root, poll, rounds, worlds, queues) && queues[0] == old(queue) && queues[i] == queue
        invariant Rounds(root, poll, world, old(queue), turns) == rounds + Rounds(root, poll, w, queue, turns - i)
      {
        var r := root(w);
        queue := queue + r.woken;
        if r.RootReady? {
          return Some(r.output), rounds, worlds, queues;
        }
        var batch;
        w, batch := PollQueued(poll, r.world);
        OneMoreTurn(root, poll, world, rounds, worlds, queues, batch, w, queue);
        Regroup(rounds, batch, Rounds(root, poll, w, queue, turns - i - 1));
        rounds, worlds, queues := rounds + [batch], worlds + [w], queues + [queue];
      }
      output := None;
    }
  }

  // ------------------------------------------------------------- yielding

  /** A task that awaits `yield_now` `left` more times; `polled` is the flag of the
      `yield_now` it is inside. */
  datatype Yielder = Yielder(left: nat, polled: bool)

  /** The root future of a program that spawns such tasks turn by turn. */
  datatype Program = Program(turn: nat, tasks: seq<Yielder>)

  /** Where the script stands once the flag has been seen or there was none to see. */
  function YieldPoll(w: Program, t: TaskRef): Polled<Program> {
    if t >= |w.tasks| then Polled(w, [])
    else
      var y := w.tasks[t];
      var left := if y.polled && y.left > 0 then y.left - 1 else y.left;
      if left == 0 then Polled(w.(tasks := w.tasks[t := Yielder(0, false)]), [])
      else Polled(w.(tasks := w.tasks[t := Yielder(left, true)]), [t])
  }

  /** In turn `r` the root future spawns the tasks `t` with `spawn[t] == r`; in turn
      `stop` it finishes. */
  function SpawningRoot(spawn: seq<nat>, stop: nat, w: Program): RootPolled<Program, nat> {
    if w.turn == stop then RootReady(w, [], w.turn)
    else RootPending(w.(turn := w.turn + 1), Spawned(spawn, w.turn, |spawn|))
  }

  function Spawned(spawn: seq<nat>, r: nat, n: nat): seq<TaskRef>
    requires n <= |spawn|
  {
    if n == 0 then [] else Spawned(spawn, r, n - 1) + if spawn[n - 1] == r then [n - 1] else []
  }

  /** The closed form: which of the first `n` tasks have been spawned by turn `r` and
      yield at least as often as there have been turns since, in spawn order. */
  function Alive(spawn: seq<nat>, counts: seq<nat>, r: nat, n: nat): seq<TaskRef>
    requires n <= |spawn| == |counts|
  {
    if n == 0 then []
    else Alive(spawn, counts, r, n - 1) + if spawn[n - 1] <= r <= spawn[n - 1] + counts[n - 1] then [n - 1] else []
  }

  lemma {:induction false} AliveIs(spawn: seq<nat>, counts: seq<nat>, r: nat, n: nat)
    requires n <= |spawn| == |counts|
    ensures forall t: nat :: t in Alive(spawn, counts, r, n) <==> t < n && spawn[t] <= r <= spawn[t] + counts[t]
    ensures Ascending(Alive(spawn, counts, r, n))
  {
    if n > 0 {
      var p := Alive(spawn, counts, r, n - 1);
      AliveIs(spawn, counts, r, n - 1);
      forall i | 0 <= i < |p| ensures p[i] < n - 1 {
        assert p[i] in p;
      }
    }
  }

  predicate Ascending(q: seq<nat>) {
    forall i, j :: 0 <= i < j < |q| ==> q[i] < q[j]
  }

  /** Those of them that had been spawned before turn `r`. */
  function Requeued(spawn: seq<nat>, counts: seq<nat>, r: nat, n: nat): seq<TaskRef>
    requires n <= |spawn| == |counts|
  {
    if n == 0 then []
    else Requeued(spawn, counts, r, n - 1) + if spawn[n - 1] < r <= spawn[n - 1] + counts[n - 1] then [n - 1] else []
  }

  predicate InOrder(spawn: seq<nat>) {
    forall t, u :: 0 <= t < u < |spawn| ==> spawn[t] <= spawn[u]
  }

  lemma {:induction false} NoneSpawned(spawn: seq<nat>, r: nat, n: nat)
    requires n <= |spawn| && forall t :: 0 <= t < n ==> spawn[t] != r
    ensures Spawned(spawn, r, n) == []
  {
    if n > 0 {
      NoneSpawned(spawn, r, n - 1);
    }
  }

  /** Those who yielded stand before those just spawned. */
  lemma {:induction false} OldThenNew(spawn: seq<nat>, counts: seq<nat>, r: nat, n: nat)
    requires n <= |spawn| == |counts| && InOrder(spawn)
    ensures Requeued(spawn, counts, r, n) + Spawned(spawn, r, n) == Alive(spawn, counts, r, n)
  {
    if n > 0 {
      OldThenNew(spawn, counts, r, n - 1);
      if spawn[n - 1] < r {
        NoneSpawned(spawn, r, n - 1);
      }
    }
  }

  /** A task after having been polled `k` times. */
  function After(m: nat, k: nat): Yielder {
    if k == 0 then Yielder(m, false)
    else if m >= k then Yielder(m - k + 1, true)
    else Yielder(0, false)
  }

  /** The task `t` before turn `r`. */
  function Before(spawn: seq<nat>, counts: seq<nat>, r: nat, t: nat): Yielder
    requires t < |spawn| == |counts|
  {
    After(counts[t], if r > spawn[t] then r - spawn[t] else 0)
  }

  /** The first `n` tasks have had their turn `r`, the others have not. */
  function Midway(spawn: seq<nat>, counts: seq<nat>, r: nat, n: nat): seq<Yielder>
    requires |spawn| == |counts|
  {
    seq(|counts|, t requires 0 <= t < |counts| => Before(spawn, counts, if t < n then r + 1 else r, t))
  }

  lemma TurnOf(spawn: seq<nat>, counts: seq<nat>, r: nat, t: nat, turn: nat)
    requires t < |spawn| == |counts|
    ensures var alive := spawn[t] <= r <= spawn[t] + counts[t];
      && var w, w' := Program(turn, Midway(spawn, counts, r, t)), Program(turn, Midway(spawn, counts, r, t + 1));
      && (!alive ==> w' == w)
      && (alive ==> YieldPoll(w, t) == Polled(w', if r + 1 <= spawn[t] + counts[t] then [t] else []))
  {
    var before, after := Midway(spawn, counts, r, t), Midway(spawn, counts, r, t + 1);
    assert after == before[t := Before(spawn, counts, r + 1, t)];
    assert before[t] == Before(spawn, counts, r, t);
    if !(spawn[t] <= r <= spawn[t] + counts[t]) {
      assert before[t] == after[t];
      assert after == before;
    }
  }

  /** What a round over the first `n` tasks alive leaves behind. */
  function RoundLeaves(spawn: seq<nat>, counts: seq<nat>, r: nat, n: nat, turn: nat): Polled<Program>
    requires n <= |spawn| == |counts|
  {
    Polled(Program(turn, Midway(spawn, counts, r, n)), Requeued(spawn, counts, r + 1, n))
  }

  /** Task `n` has its turn, if it is alive. */
  lemma NextInRound(spawn: seq<nat>, counts: seq<nat>, r: nat, n: nat, turn: nat)
    requires n < |spawn| == |counts|
    requires PollAll(YieldPoll, Program(turn, Midway(spawn, counts, r, 0)), Alive(spawn, counts, r, n))
             == RoundLeaves(spawn, counts, r, n, turn)
    ensures PollAll(YieldPoll, Program(turn, Midway(spawn, counts, r, 0)), Alive(spawn, counts, r, n + 1))
            == RoundLeaves(spawn, counts, r, n + 1, turn)
  {
    var alive, woken := Alive(spawn, counts, r, n), Requeued(spawn, counts, r + 1, n);
    TurnOf(spawn, counts, r, n, turn);
    NothingAdded(alive);
    NothingAdded(woken);
    if spawn[n] <= r <= spawn[n] + counts[n] {
      PollAllAppend(YieldPoll, Program(turn, Midway(spawn, counts, r, 0)), alive, n);
    }
  }

  lemma NothingAdded<T>(q: seq<T>)
    ensures q + [] == q
  {
  }

  /** A round over the tasks alive polls each once and requeues those that yield again. */
  lemma {:induction false} OneRound(spawn: seq<nat>, counts: seq<nat>, r: nat, n: nat, turn: nat)
    requires n <= |spawn| == |counts|
    ensures PollAll(YieldPoll, Program(turn, Midway(spawn, counts, r, 0)), Alive(spawn, counts, r, n))
            == RoundLeaves(spawn, counts, r, n, turn)
  {
    if n > 0 {
      OneRound(spawn, counts, r, n - 1, turn);
      NextInRound(spawn, counts, r, n - 1, turn);
    }
  }

  /** The rounds from turn `r` on. */
  function RoundsFrom(spawn: seq<nat>, counts: seq<nat>, stop: nat, r: nat, turns: nat): seq<seq<TaskRef>>
    requires |spawn| == |counts|
  {
    Rounds(w => SpawningRoot(spawn, stop, w), YieldPoll,
           Program(r, Midway(spawn, counts, r, 0)), Requeued(spawn, counts, r, |spawn|), turns)
  }

  lemma OneTurn(spawn: seq<nat>, counts: seq<nat>, stop: nat, r: nat, turns: nat)
    requires |spawn| == |counts| && InOrder(spawn) && turns > 0
    ensures RoundsFrom(spawn, counts, stop, r, turns) ==
      if r == stop then [] else [Alive(spawn, counts, r, |spawn|)] + RoundsFrom(spawn, counts, stop, r + 1, turns - 1)
  {
    if r != stop {
      OldThenNew(spawn, counts, r, |spawn|);
      OneRound(spawn, counts, r, |spawn|, r + 1);
      assert Midway(spawn, counts, r, |spawn|) == Midway(spawn, counts, r + 1, 0);
    }
  }

  lemma {:induction false} RoundsAre(spawn: seq<nat>, counts: seq<nat>, stop: nat, r: nat, turns: nat, i: nat)
    requires |spawn| == |counts| && InOrder(spawn) && r <= stop
    ensures var rounds := RoundsFrom(spawn, counts, stop, r, turns);
      && |rounds| == Min(turns, stop - r)
      && (i < |rounds| ==> rounds[i] == Alive(spawn, counts, r + i, |spawn|))
    decreases turns
  {
    if turns > 0 {
      OneTurn(spawn, counts, stop, r, turns);
      if r != stop {
        RoundsAre(spawn, counts, stop, r + 1, turns - 1, if i == 0 then 0 else i - 1);
      }
    }
  }

  /** Round-robin: tasks that yield `counts[t]` times each, spawned by the root future in
      turns `spawn[t]`, in this order, are polled in round `i` exactly if they have been
      spawned by then and yield at least as often as there have been turns since, in
      spawn order; so each finishes `counts[t]` turns after its first poll, which is in
      the turn that spawns it. */
  lemma RoundRobin(spawn: seq<nat>, counts: seq<nat>, stop: nat, turns: nat, i: nat)
    requires |spawn| == |counts| && InOrder(spawn)
    ensures var start := Program(0, seq(|counts|, t requires 0 <= t < |counts| => Yielder(counts[t], false)));
      var rounds := Rounds(w => SpawningRoot(spawn, stop, w), YieldPoll, start, [], turns);
      && |rounds| == Min(turns, stop)
      && (i < |rounds| ==>
            && rounds[i] == Alive(spawn, counts, i, |spawn|)
            && (rounds[i] == [] <==> forall t :: 0 <= t < |spawn| ==> i < spawn[t] || i > spawn[t] + counts[t]))
  {
    assert seq(|counts|, t requires 0 <= t < |counts| => Yielder(counts[t], false)) == Midway(spawn, counts, 0, 0) by {
      forall t | 0 <= t < |counts| ensures Midway(spawn, counts, 0, 0)[t] == Yielder(counts[t], false) {
        assert Before(spawn, counts, 0, t) == After(counts[t], 0);
      }
    }
    NothingRequeued(spawn, counts, |spawn|);
    RoundsAre(spawn, counts, stop, 0, turns, i);
    NobodyLeft(spawn, counts, i);
  }

  lemma NobodyLeft(spawn: seq<nat>, counts: seq<nat>, r: nat)
    requires |spawn| == |counts|
    ensures Alive(spawn, counts, r, |spawn|) == [] <==>
      forall t :: 0 <= t < |spawn| ==> r < spawn[t] || r > spawn[t] + counts[t]
  {
    var q := Alive(spawn, counts, r, |spawn|);
    AliveIs(spawn, counts, r, |spawn|);
    if q != [] {
      var t := q[0];
      assert t in q;
    }
    if t: nat :| t < |spawn| && spawn[t] <= r <= spawn[t] + counts[t] {
      assert t in q;
    }
  }

  lemma {:induction false} NothingRequeued(spawn: seq<nat>, counts: seq<nat>, n: nat)
    requires n <= |spawn| == |counts|
    ensures Requeued(spawn, counts, 0, n) == []
  {
    if n > 0 {
      NothingRequeued(spawn, counts, n - 1);
    }
  }
}
