/**
 * queue_manager.py:53-76, the second (and effective) `FluxQueueManager`: a
 * FIFO queue that starts a task only while fewer than `max_concurrent` of its
 * tasks are running, and resolves each task's future from the task's
 * completion callback `_task_done`.
 *
 * The running tasks are the ones `asyncio.all_tasks()` reports under the
 * `flux_task` name prefix; only this manager creates such tasks, so they are
 * modelled as the manager's own `running` list. A task launched at time `t`
 * completes at `t` plus its duration, and its callback runs when the event
 * loop next gets control at or after that time: during a 0.5 s sleep of the
 * dispatch loop, or while the caller awaits its future. The rate-window fields
 * inherited from `QueueManager` are set by the constructor and never read by
 * this class, so they are not modelled here.
 *
 * Line 62 calls the coroutine object (`coroutine()`), which Python refuses
 * at once: `AddToQueueAsWritten` models that, and the rest of the model
 * launches the coroutine itself, `asyncio.create_task(coroutine)`, as meant.
 * Line 74 logs through a `debug` that the module never imports; that raises
 * only after the future has been resolved, inside a callback whose exceptions
 * the event loop swallows, so it changes nothing modelled here.
 */
module FluxQueues {
  import opened Futures
  import opened RateWindow
  import opened Queues

  /** `max_concurrent`. */
  const MaxConcurrent: nat := 1

  /** What Python's `TypeError` says when a coroutine object is called. */
  const NotCallable := "'coroutine' object is not callable"

  /** A launched task: its entry, when it was started and when it completes. */
  datatype Run = Run(entry: Entry, start: int, finish: int)

  /** The entries of a run of launched tasks, in order. */
  function Entries(rs: seq<Run>): (r: seq<Entry>)
    ensures |r| == |rs| && forall i :: 0 <= i < |rs| ==> r[i] == rs[i].entry
  {
    seq(|rs|, i requires 0 <= i < |rs| => rs[i].entry)
  }

  /** No two launched tasks overlap in time: each starts no earlier than every earlier one finished. */
  ghost predicate Serial(spans: seq<Run>)
  {
    forall i, j :: 0 <= i < j < |spans| ==> spans[i].finish <= spans[j].start
  }

  /**
   * The invariant of a `FluxQueueManager` state, on its values: at most
   * `MaxConcurrent` tasks run; the completed tasks, the running ones and the
   * waiting ones are, in that order, every entry ever enqueued (FIFO);
   * futures are fresh and distinct; a future is resolved with its task's
   * outcome exactly when its task has completed; each task runs for its
   * duration and no two tasks overlap.
   */
  ghost predicate FluxConsistent(done: seq<Run>, running: seq<Run>, queue: seq<Entry>, all: seq<Entry>,
                                 futures: map<FutureId, Cell>, nextFuture: FutureId)
  {
    && |running| <= MaxConcurrent
    && Entries(done) + Entries(running) + queue == all
    && Increasing(EntryIds(all))
    && (forall i :: 0 <= i < |all| ==> all[i].future < nextFuture)
    && (forall f :: f in futures <==> f in EntryIds(all))
    && (forall i :: 0 <= i < |all| ==>
          all[i].future in futures && futures[all[i].future] == (if i < |done| then Resolved(all[i].task.outcome) else Pending))
    && (forall i :: 0 <= i < |done| ==> done[i].finish == done[i].start + done[i].entry.task.duration)
    && (forall i :: 0 <= i < |running| ==> running[i].finish == running[i].start + running[i].entry.task.duration)
    && Serial(done + running)
  }

  /** The clock at `t` is not behind the state: every completed task finished and every running one started by `t`. */
  ghost predicate NotAhead(done: seq<Run>, running: seq<Run>, t: int)
  {
    && (forall i :: 0 <= i < |done| ==> done[i].finish <= t)
    && (forall i :: 0 <= i < |running| ==> running[i].start <= t)
  }

  /** Enqueueing a task under a fresh future keeps the invariant. */
  lemma FluxEnqueueKeeps(done: seq<Run>, running: seq<Run>, queue: seq<Entry>, all: seq<Entry>,
                         futures: map<FutureId, Cell>, nextFuture: FutureId, task: Task)
    requires FluxConsistent(done, running, queue, all, futures, nextFuture)
    ensures var e := Entry(task, nextFuture);
      FluxConsistent(done, running, queue + [e], all + [e], futures[nextFuture := Pending], nextFuture + 1)
  {
    var e := Entry(task, nextFuture);
    assert Entries(done) + Entries(running) + (queue + [e]) == all + [e];
    assert EntryIds(all + [e]) == EntryIds(all) + [nextFuture];
  }

  /** Launching the head of the queue at `t` while fewer than `MaxConcurrent` run keeps the invariant. */
  lemma FluxLaunchKeeps(done: seq<Run>, running: seq<Run>, queue: seq<Entry>, all: seq<Entry>,
                        futures: map<FutureId, Cell>, nextFuture: FutureId, t: int)
    requires FluxConsistent(done, running, queue, all, futures, nextFuture) && NotAhead(done, running, t)
    requires queue != [] && |running| < MaxConcurrent
    ensures var r := Run(queue[0], t, t + queue[0].task.duration);
      && FluxConsistent(done, running + [r], queue[1..], all, futures, nextFuture)
      && NotAhead(done, running + [r], t)
  {
    var r := Run(queue[0], t, t + queue[0].task.duration);
    assert running == [];
    assert Entries(done) + Entries([r]) + queue[1..] == Entries(done) + Entries(running) + queue;
    assert done + running == done;
    forall i, j | 0 <= i < j < |done + [r]| ensures (done + [r])[i].finish <= (done + [r])[j].start {
      if j == |done| {
        assert (done + [r])[i] == done[i];
      }
    }
  }

  /**
   * Completing the first running task at `t` (its `_task_done`) keeps the
   * invariant: its future, pending until now, is resolved with its outcome.
   */
  lemma FluxCompleteKeeps(done: seq<Run>, running: seq<Run>, queue: seq<Entry>, all: seq<Entry>,
                          futures: map<FutureId, Cell>, nextFuture: FutureId, t: int)
    requires FluxConsistent(done, running, queue, all, futures, nextFuture) && NotAhead(done, running, t)
    requires running != [] && running[0].finish <= t
    ensures var e := running[0].entry;
      && e.future in futures && futures[e.future] == Pending
      && FluxConsistent(done + [running[0]], running[1..], queue, all, futures[e.future := Resolved(e.task.outcome)], nextFuture)
      && NotAhead(done + [running[0]], running[1..], t)
  {
    var e := running[0].entry;
    var k := |done|;
    var done', running' := done + [running[0]], running[1..];
    assert Entries(done') + Entries(running') == Entries(done) + Entries(running);
    assert done' + running' == done + running;
    assert all[k] == e;
    var futures' := futures[e.future := Resolved(e.task.outcome)];
    forall i | 0 <= i < |all|
      ensures all[i].future in futures'
           && futures'[all[i].future] == (if i < |done'| then Resolved(all[i].task.outcome) else Pending)
    {
      if i != k {
        assert EntryIds(all)[i] != EntryIds(all)[k];
      }
    }
  }

  /** How far the first running task is from completing at `t`: what a sleeping dispatch loop waits out. */
  function Lag(running: seq<Run>, t: int): nat
  {
    if running == [] || running[0].finish <= t then 0 else running[0].finish - t
  }

  /** Once the queue is drained, a running task is the one enqueued last, and it runs alone. */
  lemma LastIsRunning(done: seq<Run>, running: seq<Run>, all: seq<Entry>, futures: map<FutureId, Cell>, nextFuture: FutureId)
    requires FluxConsistent(done, running, [], all, futures, nextFuture) && running != []
    ensures |running| == 1 && all != [] && running[0].entry == all[|all| - 1]
    ensures running[0].entry.future in futures && futures[running[0].entry.future] == Pending
  {
    assert Entries(done) + Entries(running) + [] == Entries(done) + Entries(running);
    assert (Entries(done) + Entries(running))[|all| - 1] == running[0].entry;
    assert |all| - 1 == |done|;
  }

  /** With nothing queued or running, the task enqueued last has completed and its future holds its outcome. */
  lemma LastIsResolved(done: seq<Run>, all: seq<Entry>, futures: map<FutureId, Cell>, nextFuture: FutureId)
    requires FluxConsistent(done, [], [], all, futures, nextFuture) && all != []
    ensures var e := all[|all| - 1];
      done != [] && done[|done| - 1].entry == e && e.future in futures && futures[e.future] == Resolved(e.task.outcome)
  {
    assert Entries(done) + Entries([]) + [] == Entries(done);
    assert Entries(done)[|all| - 1] == done[|done| - 1].entry;
  }

  /** The concurrency-capped FIFO dispatcher, `FluxQueueManager`. */
  class FluxQueueManager {
    /** The deque of `(coroutine, future)` pairs still to launch. */
    var queue: seq<Entry>
    /** The launched `flux_task`s that have not completed, in launch order. */
    var running: seq<Run>
    /** The futures created so far, each pending or resolved. */
    var futures: map<FutureId, Cell>
    /** The next fresh future. */
    var nextFuture: FutureId
    /** The completed tasks, in completion order. */
    ghost var done: seq<Run>
    /** Every entry ever enqueued, in enqueue order. */
    ghost var all: seq<Entry>

    /** The object invariant, `FluxConsistent` of the fields. */
    ghost predicate Valid()
      reads this
    {
      FluxConsistent(done, running, queue, all, futures, nextFuture)
    }

    /** `__init__`: nothing queued, nothing running. */
    constructor ()
      ensures Valid() && queue == [] && running == []
      ensures futures == map[] && done == [] && all == []
    {
      queue := [];
      running := [];
      futures := map[];
      nextFuture := 0;
      done := [];
      all := [];
    }

    /**
     * `_task_done` for the first running task, called by the event loop at
     * time `t`, once the task has completed: the future, still pending, is
     * resolved once with the task's outcome (a result or an exception).
     */
    method TaskDone(t: int)
      requires Valid() && NotAhead(done, running, t)
      requires running != [] && running[0].finish <= t
      modifies this
      ensures Valid() && NotAhead(done, running, t)
      ensures var e := old(running)[0].entry;
        && e.future in old(futures) && old(futures)[e.future] == Pending
        && futures == old(futures)[e.future := Resolved(e.task.outcome)]
        && done == old(done) + [old(running)[0]]
      ensures running == old(running)[1..]
      ensures queue == old(queue) && all == old(all) && nextFuture == old(nextFuture)
    {
      var e := running[0].entry;
      FluxCompleteKeeps(done, running, queue, all, futures, nextFuture, t);
      var resolved := Resolve(futures[e.future], e.task.outcome);
      futures := futures[e.future := resolved.value];
      done := done + [running[0]];
      running := running[1..];
    }

    /**
     * One pass of the overriding `process_queue` loop at time `t`: launches
     * the head if fewer than `MaxConcurrent` tasks run, and otherwise sleeps
     * `PollMs`, during which the running task's callback runs if it has
     * completed. Each pass launches, completes, or comes closer to a completion.
     */
    method Pass(t: int) returns (t': int)
      requires Valid() && NotAhead(done, running, t) && queue != []
      modifies this
      ensures Valid() && NotAhead(done, running, t') && t <= t'
      ensures all == old(all) && nextFuture == old(nextFuture)
      ensures queue == [] ==> running != [] && running[|running| - 1].start == t'
      ensures |queue| < old(|queue|)
           || (|queue| == old(|queue|) && |running| < old(|running|))
           || (|queue| == old(|queue|) && |running| == old(|running|) && Lag(running, t') < old(Lag(running, t)))
    {
      if |running| < MaxConcurrent {
        // `asyncio.create_task(coroutine, ...)` with its `_task_done` callback
        FluxLaunchKeeps(done, running, queue, all, futures, nextFuture, t);
        running := running + [Run(queue[0], t, t + queue[0].task.duration)];
        queue := queue[1..];
        t' := t;
      } else {
        t' := t + PollMs;
        if running[0].finish <= t' {
          TaskDone(t');
        }
      }
    }

    /**
     * `process_queue`, started at `now`: returns once every queued task has
     * been launched, with at most `MaxConcurrent` of them running at any time
     * and no two of them overlapping (the invariant).
     */
    method ProcessQueue(now: int) returns (t: int)
      requires Valid() && NotAhead(done, running, now)
      modifies this
      ensures Valid() && NotAhead(done, running, t) && queue == [] && now <= t
      ensures all == old(all) && nextFuture == old(nextFuture)
      ensures old(queue) != [] ==> running != [] && running[|running| - 1].start == t
    {
      t := now;
      while queue != []
        invariant Valid() && NotAhead(done, running, t) && now <= t
        invariant all == old(all) && nextFuture == old(nextFuture)
        invariant queue == [] && old(queue) != [] ==> running != [] && running[|running| - 1].start == t
        decreases |queue|, |running|, Lag(running, t)
      {
        t := Pass(t);
      }
    }

    /**
     * `await future` at `now`: a resolved future yields at once; a pending
     * one belongs to the running task, and the caller resumes when that
     * task's callback has resolved it, at its completion time if that is
     * later than `now`.
     */
    method AwaitFuture(f: FutureId, now: int) returns (t: int)
      requires Valid() && NotAhead(done, running, now) && queue == []
      requires f in futures
      modifies this
      ensures Valid() && NotAhead(done, running, t) && queue == []
      ensures all == old(all) && nextFuture == old(nextFuture)
      ensures f in futures && futures[f].Resolved?
      ensures old(futures)[f].Resolved? ==> t == now && futures == old(futures) && running == old(running)
      ensures old(futures)[f].Pending? ==>
        && old(running) != [] && old(running)[0].entry.future == f
        && t == (if now < old(running)[0].finish then old(running)[0].finish else now)
        && done == old(done) + old(running) && running == []
    {
      t := now;
      if futures[f].Pending? {
        PendingIsRunning(f);
        if t < running[0].finish {
          t := running[0].finish;
        }
        TaskDone(t);
      }
    }

    /** With nothing queued, a pending future belongs to the one running task. */
    lemma PendingIsRunning(f: FutureId)
      requires Valid() && queue == [] && f in futures && futures[f].Pending?
      ensures |running| == 1 && running[0].entry.future == f
    {
      assert f in EntryIds(all);
      var k :| 0 <= k < |all| && EntryIds(all)[k] == f;
      assert Entries(done) + Entries(running) + queue == Entries(done) + Entries(running);
      assert (Entries(done) + Entries(running))[k] == all[k];
    }

    /**
     * `add_to_queue` (inherited): enqueues the task with a fresh future,
     * runs `process_queue`, and awaits the future, returning the task's own
     * outcome. The task starts no earlier than `now` and after every task
     * enqueued before it has finished, and the call returns when it completes.
     */
    method AddToQueue(task: Task, now: int) returns (r: Outcome, t: int)
      requires Valid() && NotAhead(done, running, now) && queue == []
      modifies this
      ensures Valid() && NotAhead(done, running, t) && queue == [] && running == []
      ensures r == task.outcome
      ensures all == old(all) + [Entry(task, old(nextFuture))]
      ensures done != [] && done[|done| - 1].entry == Entry(task, old(nextFuture))
      ensures now <= done[|done| - 1].start && t == done[|done| - 1].finish
    {
      var f := Enqueue(task);
      t := RunQueued(Entry(task, f), now);
      r := futures[f].outcome;
    }

    /**
     * The rest of `add_to_queue` once the task `e` is the only one queued:
     * `process_queue` launches it, then awaiting its future returns when it
     * has completed, with its outcome in the future.
     */
    method RunQueued(e: Entry, now: int) returns (t: int)
      requires Valid() && NotAhead(done, running, now) && queue == [e]
      modifies this
      ensures Valid() && NotAhead(done, running, t) && queue == [] && running == []
      ensures all == old(all) && nextFuture == old(nextFuture)
      ensures e.future in futures && futures[e.future] == Resolved(e.task.outcome)
      ensures done != [] && done[|done| - 1].entry == e
      ensures now <= done[|done| - 1].start && t == done[|done| - 1].finish
    {
      t := ProcessQueue(now);
      LastIsRunning(done, running, all, futures, nextFuture);
      ghost var run, done1, t1 := running[0], done, t;
      assert run.entry == e && run.start == t1 && now <= t1 && run.finish == t1 + e.task.duration;
      assert futures[e.future].Pending? && running == [run];
      t := AwaitFuture(e.future, t);
      assert done == done1 + [run] && t == run.finish;
      LastIsResolved(done, all, futures, nextFuture);
    }

    /** The first lines of `add_to_queue`: a fresh pending future, and the task appended to the deque with it. */
    method Enqueue(task: Task) returns (f: FutureId)
      requires Valid()
      modifies this
      ensures Valid() && f == old(nextFuture) && nextFuture == f + 1
      ensures queue == old(queue) + [Entry(task, f)] && all == old(all) + [Entry(task, f)]
      ensures futures == old(futures)[f := Pending]
      ensures running == old(running) && done == old(done)
    {
      f := nextFuture;
      FluxEnqueueKeeps(done, running, queue, all, futures, nextFuture, task);
      queue := queue + [Entry(task, f)];
      futures := futures[f := Pending];
      all := all + [Entry(task, f)];
      nextFuture := nextFuture + 1;
    }

    /**
     * `add_to_queue` as line 62 is written, with no Flux task running (as
     * written, none ever starts): the first pass pops the entry, then calling
     * the coroutine object raises `TypeError`, which leaves `process_queue`
     * and `add_to_queue` at once. No task is launched, and the popped
     * entry's future stays pending with nobody left to resolve it, so the
     * invariant no longer holds.
     */
    method AddToQueueAsWritten(task: Task) returns (r: Outcome)
      requires Valid() && queue == [] && running == []
      modifies this
      ensures r == Fail(OtherError(NotCallable))
      ensures queue == [] && running == [] && done == old(done)
      ensures all == old(all) + [Entry(task, old(nextFuture))] && nextFuture == old(nextFuture) + 1
      ensures futures == old(futures)[old(nextFuture) := Pending]
      ensures !Valid()
    {
      var f := Enqueue(task);
      // `coroutine, future = self.queue.popleft()`, then `coroutine()` raises
      queue := queue[1..];
      assert |Entries(done) + Entries(running) + queue| < |all|;
      r := Fail(OtherError(NotCallable));
    }

    /** `run_coroutine` (inherited): the entry point the Flux commands use; it is `add_to_queue`. */
    method RunCoroutine(task: Task, now: int) returns (r: Outcome, t: int)
      requires Valid() && NotAhead(done, running, now) && queue == []
      modifies this
      ensures Valid() && NotAhead(done, running, t) && queue == [] && running == []
      ensures r == task.outcome
      ensures all == old(all) + [Entry(task, old(nextFuture))]
      ensures done != [] && done[|done| - 1].entry == Entry(task, old(nextFuture))
      ensures now <= done[|done| - 1].start && t == done[|done| - 1].finish
    {
      r, t := AddToQueue(task, now);
    }
  }
}
