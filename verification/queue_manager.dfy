/**
 * queue_manager.py: the two dispatchers every outbound call of the bot goes
 * through. `QueueManager` runs tasks one at a time, first in first out, at most
 * two per ten-second window; `FluxQueueManager` starts tasks first in first out
 * while fewer than `max_concurrent` of them are running.
 *
 * `add_to_queue` holds one lock from enqueueing its task until its own future is
 * resolved, so callers never overlap: the lock is rendered by modelling each
 * call as one sequential method call. Clock readings are a parameter and a
 * result: a task's run advances the clock by its duration, a blocked pass by
 * the 0.5 s sleep.
 */
module Queues {
  import opened Wrappers
  import opened Futures
  import opened RateWindow

  /** A coroutine handed to the queue: what awaiting it yields, and how long that takes. */
  datatype Task = Task(outcome: Outcome, duration: nat)

  /** Names a future: each `add_to_queue` call creates a fresh one. */
  type FutureId = nat

  /** A `(coroutine, future)` pair of the deque. */
  datatype Entry = Entry(task: Task, future: FutureId)

  /** A record of one dispatch: whose future, in which window, when, and with what outcome. */
  datatype Dispatch = Dispatch(future: FutureId, windowStart: int, at: int, outcome: Outcome)

  /** The futures of a run of queue entries, in order. */
  function EntryIds(q: seq<Entry>): (r: seq<FutureId>)
    ensures |r| == |q| && forall i :: 0 <= i < |q| ==> r[i] == q[i].future
  {
    seq(|q|, i requires 0 <= i < |q| => q[i].future)
  }

  /** The futures of a run of dispatches, in order. */
  function DispatchIds(log: seq<Dispatch>): (r: seq<FutureId>)
    ensures |r| == |log| && forall i :: 0 <= i < |log| ==> r[i] == log[i].future
  {
    seq(|log|, i requires 0 <= i < |log| => log[i].future)
  }

  /** What one `process_queue` call does to the window, the clock and the dispatch record. */
  datatype Drained = Drained(window: Window, now: int, dispatches: seq<Dispatch>)

  /**
   * `process_queue` from window `w` at time `now` on the pending entries `q`:
   * the head is dispatched at the time `NextDispatch` gives, runs for its
   * duration, and the rest of the queue is drained after it. The entries are
   * dispatched in queue order, each with its own task's outcome.
   */
  function Drain(w: Window, now: int, q: seq<Entry>): (r: Drained)
    requires w.count <= MaxPerWindow
    ensures r.window.count <= MaxPerWindow
    decreases |q|
  {
    if q == [] then Drained(w, now, [])
    else
      var s := NextDispatch(w, now);
      var rest := Drain(s.window, s.at + q[0].task.duration, q[1..]);
      Drained(rest.window, rest.now, [Dispatch(q[0].future, s.window.start, s.at, q[0].task.outcome)] + rest.dispatches)
  }

  /**
   * The rate invariant of a dispatch record whose current window is `w`: the
   * count is capped and counts exactly the last dispatches, which all carry the
   * current window start; every earlier dispatch belongs to a window that opened
   * at least `WindowMs` before it; and of any two
   * dispatches at least two apart in the record, the later lies in a window that
   * opened at least `WindowMs` after the earlier one's. So no window holds more
   * than two dispatches.
   */
  ghost predicate WindowedLog(log: seq<Dispatch>, w: Window)
  {
    && w.count <= MaxPerWindow
    && w.count <= |log|
    && (forall i :: 0 <= i < |log| - w.count ==> log[i].windowStart + WindowMs <= w.start)
    && (forall i :: |log| - w.count <= i < |log| ==> log[i].windowStart == w.start)
    && (forall i, j :: 0 <= i && i + 2 <= j < |log| ==> log[i].windowStart + WindowMs <= log[j].windowStart)
  }

  /** One more dispatch, made the way `NextDispatch` makes it, keeps the rate invariant. */
  lemma {:induction false} DispatchKeepsWindowedLog(log: seq<Dispatch>, w: Window, now: int, f: FutureId, o: Outcome)
    requires WindowedLog(log, w)
    ensures var s := NextDispatch(w, now);
      WindowedLog(log + [Dispatch(f, s.window.start, s.at, o)], s.window)
  {
    var s := NextDispatch(w, now);
    NextDispatchCounts(w, now);
    var log' := log + [Dispatch(f, s.window.start, s.at, o)];
    if s.window.start == w.start {
      assert w.count < MaxPerWindow;
    } else {
      assert forall i :: |log| - w.count <= i < |log| ==> log[i].windowStart + WindowMs <= s.window.start;
    }
  }

  /**
   * FIFO: draining dispatches every entry exactly once, in queue order, each
   * with its own task's outcome.
   */
  lemma {:induction false} DrainInOrder(w: Window, now: int, q: seq<Entry>)
    requires w.count <= MaxPerWindow
    ensures var r := Drain(w, now, q);
      && |r.dispatches| == |q|
      && (forall i :: 0 <= i < |q| ==> r.dispatches[i].future == q[i].future && r.dispatches[i].outcome == q[i].task.outcome)
      && DispatchIds(r.dispatches) == EntryIds(q)
    decreases |q|
  {
    if q != [] {
      var s := NextDispatch(w, now);
      DrainInOrder(s.window, s.at + q[0].task.duration, q[1..]);
    }
  }

  /** Draining a non-empty queue: the head's dispatch, then the drain of the rest. */
  lemma DrainStep(w: Window, now: int, q: seq<Entry>)
    requires w.count <= MaxPerWindow && q != []
    ensures var s := NextDispatch(w, now);
      var rest := Drain(s.window, s.at + q[0].task.duration, q[1..]);
      Drain(w, now, q) == Drained(rest.window, rest.now, [Dispatch(q[0].future, s.window.start, s.at, q[0].task.outcome)] + rest.dispatches)
  {
  }

  /** Draining a queue keeps the rate invariant of the whole record. */
  lemma {:induction false} DrainKeepsWindowedLog(log: seq<Dispatch>, w: Window, now: int, q: seq<Entry>)
    requires WindowedLog(log, w)
    ensures WindowedLog(log + Drain(w, now, q).dispatches, Drain(w, now, q).window)
    decreases |q|
  {
    if q != [] {
      var s := NextDispatch(w, now);
      var d := Dispatch(q[0].future, s.window.start, s.at, q[0].task.outcome);
      var rest := Drain(s.window, s.at + q[0].task.duration, q[1..]);
      assert WindowedLog(log + [d], s.window) by {
        DispatchKeepsWindowedLog(log, w, now, q[0].future, q[0].task.outcome);
      }
      assert WindowedLog((log + [d]) + rest.dispatches, rest.window) by {
        DrainKeepsWindowedLog(log + [d], s.window, s.at + q[0].task.duration, q[1..]);
      }
      assert Drain(w, now, q) == Drained(rest.window, rest.now, [d] + rest.dispatches) by {
        DrainStep(w, now, q);
      }
      assert log + ([d] + rest.dispatches) == (log + [d]) + rest.dispatches;
      WindowedLogSame((log + [d]) + rest.dispatches, log + Drain(w, now, q).dispatches, rest.window);
    } else {
      assert log + Drain(w, now, q).dispatches == log;
    }
  }

  /**
   * Every dispatch of a drain happens inside the window it is counted in,
   * when the drain starts no earlier than the window it finds.
   */
  lemma {:induction false} DrainInWindows(w: Window, now: int, q: seq<Entry>)
    requires w.count <= MaxPerWindow && w.start <= now
    ensures var r := Drain(w, now, q);
      && r.window.start <= r.now
      && forall i :: 0 <= i < |r.dispatches| ==>
           r.dispatches[i].windowStart <= r.dispatches[i].at < r.dispatches[i].windowStart + WindowMs
    decreases |q|
  {
    if q != [] {
      var s := NextDispatch(w, now);
      NextDispatchCounts(w, now);
      DrainInWindows(s.window, s.at + q[0].task.duration, q[1..]);
      DrainStep(w, now, q);
    }
  }

  /** Draining a single entry dispatches it at the time `NextDispatch` gives. */
  lemma DrainOne(w: Window, now: int, e: Entry)
    requires w.count <= MaxPerWindow
    ensures var s := NextDispatch(w, now);
      Drain(w, now, [e]) == Drained(s.window, s.at + e.task.duration, [Dispatch(e.future, s.window.start, s.at, e.task.outcome)])
  {
    DrainStep(w, now, [e]);
  }

  /** The rate invariant depends on the record only. */
  lemma WindowedLogSame(a: seq<Dispatch>, b: seq<Dispatch>, w: Window)
    requires a == b && WindowedLog(a, w)
    ensures WindowedLog(b, w)
  {
  }

  /** At most two dispatches per window: no three dispatches share a window start. */
  lemma NoThreeInOneWindow(log: seq<Dispatch>, w: Window, i: nat, j: nat, k: nat)
    requires WindowedLog(log, w)
    requires i < j < k < |log|
    ensures !(log[i].windowStart == log[j].windowStart == log[k].windowStart)
  {
  }

  /** A reset at `now` keeps the rate invariant: every earlier window opened at least `WindowMs` before. */
  lemma ResetKeepsWindowedLog(log: seq<Dispatch>, w: Window, now: int)
    requires WindowedLog(log, w)
    requires now - w.start >= WindowMs
    ensures WindowedLog(log, Window(now, 0))
  {
  }

  /** Resetting the window at the time it is found elapsed does not change what the drain does. */
  lemma ResetKeepsDrain(w: Window, now: int, q: seq<Entry>)
    requires w.count <= MaxPerWindow
    requires now - w.start >= WindowMs && q != []
    ensures Drain(Window(now, 0), now, q) == Drain(w, now, q)
  {
    assert Refresh(w, now) == Window(now, 0) == Refresh(Window(now, 0), now);
    assert NextDispatch(Window(now, 0), now) == NextDispatch(w, now) == Slot(Window(now, 1), now);
    DrainStep(Window(now, 0), now, q);
    DrainStep(w, now, q);
  }

  /** A pass that finds the window full sleeps `PollMs` and does not change what the drain does. */
  lemma SleepKeepsDrain(w: Window, now: int, q: seq<Entry>)
    requires w.count == MaxPerWindow && now - w.start < WindowMs && q != []
    ensures Drain(w, now + PollMs, q) == Drain(w, now, q)
    ensures Wait(w, now + PollMs) < Wait(w, now)
  {
    assert Refresh(w, now) == w;
    assert NextDispatch(w, now) == NextDispatch(w, now + PollMs);
    DrainStep(w, now, q);
    DrainStep(w, now + PollMs, q);
  }

  /** Moving the head of the queue to the end of the record keeps the order of the futures. */
  lemma DispatchedIds(log: seq<Dispatch>, q: seq<Entry>, d: Dispatch)
    requires q != [] && d.future == q[0].future
    ensures DispatchIds(log + [d]) + EntryIds(q[1..]) == DispatchIds(log) + EntryIds(q)
  {
    var a, b := DispatchIds(log + [d]), EntryIds(q[1..]);
    var c, e := DispatchIds(log), EntryIds(q);
    assert |a + b| == |c + e|;
    forall k | 0 <= k < |a + b|
      ensures (a + b)[k] == (c + e)[k]
    {
      if k < |log| {
        assert (a + b)[k] == (log + [d])[k].future == log[k].future;
      } else if k == |log| {
        assert (a + b)[k] == d.future == (c + e)[k];
      } else {
        assert (a + b)[k] == q[1..][k - |log| - 1].future == q[k - |log|].future;
      }
    }
  }

  /** The sequence is strictly increasing, so no future appears twice in it. */
  ghost predicate Increasing(s: seq<FutureId>)
  {
    forall i, j :: 0 <= i < j < |s| ==> s[i] < s[j]
  }

  /**
   * The invariant of a `QueueManager` state, stated on its values: the rate
   * invariant holds of the dispatch record; dispatches followed by the
   * still-pending entries are exactly the enqueued futures in enqueue order
   * (FIFO); every future was fresh when enqueued; each dispatched future holds
   * its task's outcome and each pending one is unresolved.
   */
  ghost predicate Consistent(w: Window, log: seq<Dispatch>, queue: seq<Entry>, submitted: seq<FutureId>,
                             futures: map<FutureId, Cell>, nextFuture: FutureId)
  {
    && WindowedLog(log, w)
    && DispatchIds(log) + EntryIds(queue) == submitted
    && Increasing(submitted)
    && (forall i :: 0 <= i < |submitted| ==> submitted[i] < nextFuture)
    && (forall f :: f in futures <==> f in submitted)
    && (forall i :: 0 <= i < |log| ==> log[i].future in futures && futures[log[i].future] == Resolved(log[i].outcome))
    && (forall i :: 0 <= i < |queue| ==> queue[i].future in futures && futures[queue[i].future] == Pending)
  }

  /** Enqueueing a task under a fresh future keeps the invariant. */
  lemma EnqueueKeepsConsistent(w: Window, log: seq<Dispatch>, queue: seq<Entry>, submitted: seq<FutureId>,
                               futures: map<FutureId, Cell>, nextFuture: FutureId, task: Task)
    requires Consistent(w, log, queue, submitted, futures, nextFuture)
    ensures Consistent(w, log, queue + [Entry(task, nextFuture)], submitted + [nextFuture],
                       futures[nextFuture := Pending], nextFuture + 1)
  {
    assert EntryIds(queue + [Entry(task, nextFuture)]) == EntryIds(queue) + [nextFuture];
    assert nextFuture !in submitted;
    assert nextFuture !in futures;
  }

  /** Opening a new window once the old one has elapsed keeps the invariant. */
  lemma ResetKeepsConsistent(w: Window, log: seq<Dispatch>, queue: seq<Entry>, submitted: seq<FutureId>,
                             futures: map<FutureId, Cell>, nextFuture: FutureId, now: int)
    requires Consistent(w, log, queue, submitted, futures, nextFuture)
    requires now - w.start >= WindowMs
    ensures Consistent(Window(now, 0), log, queue, submitted, futures, nextFuture)
  {
    ResetKeepsWindowedLog(log, w, now);
  }

  /** The head of the queue is none of the dispatched futures and none of the other pending ones. */
  lemma HeadIsFresh(log: seq<Dispatch>, queue: seq<Entry>, submitted: seq<FutureId>)
    requires queue != [] && DispatchIds(log) + EntryIds(queue) == submitted && Increasing(submitted)
    ensures forall i :: 0 <= i < |log| ==> log[i].future != queue[0].future
    ensures forall j :: 1 <= j < |queue| ==> queue[j].future != queue[0].future
  {
    var ids := DispatchIds(log) + EntryIds(queue);
    assert ids[|log|] == queue[0].future;
    forall i | 0 <= i < |log| ensures log[i].future != queue[0].future {
      assert ids[i] == log[i].future;
    }
    forall j | 1 <= j < |queue| ensures queue[j].future != queue[0].future {
      assert ids[|log| + j] == queue[j].future;
    }
  }

  /** Resolving the head's future moves it from the pending entries to the resolved record. */
  lemma ResolveHead(log: seq<Dispatch>, queue: seq<Entry>, futures: map<FutureId, Cell>, d: Dispatch)
    requires queue != [] && d.future == queue[0].future
    requires forall i :: 0 <= i < |log| ==> log[i].future != d.future
    requires forall j :: 1 <= j < |queue| ==> queue[j].future != d.future
    requires forall i :: 0 <= i < |log| ==> log[i].future in futures && futures[log[i].future] == Resolved(log[i].outcome)
    requires forall i :: 0 <= i < |queue| ==> queue[i].future in futures && futures[queue[i].future] == Pending
    ensures var futures' := futures[d.future := Resolved(d.outcome)];
      && (forall i :: 0 <= i < |log + [d]| ==> (log + [d])[i].future in futures' && futures'[(log + [d])[i].future] == Resolved((log + [d])[i].outcome))
      && (forall i :: 0 <= i < |queue[1..]| ==> queue[1..][i].future in futures' && futures'[queue[1..][i].future] == Pending)
  {
    var futures' := futures[d.future := Resolved(d.outcome)];
    forall i | 0 <= i < |queue[1..]|
      ensures queue[1..][i].future in futures' && futures'[queue[1..][i].future] == Pending
    {
      assert queue[1..][i] == queue[i + 1];
    }
  }

  /**
   * Dispatching the head while the window has room keeps the invariant: the
   * head moves to the record with its outcome, in the current window, at
   * `now`, exactly where `NextDispatch` puts it.
   */
  lemma DispatchKeepsConsistent(w: Window, log: seq<Dispatch>, queue: seq<Entry>, submitted: seq<FutureId>,
                                futures: map<FutureId, Cell>, nextFuture: FutureId, now: int)
    requires Consistent(w, log, queue, submitted, futures, nextFuture)
    requires queue != [] && w.count < MaxPerWindow && now - w.start < WindowMs
    ensures NextDispatch(w, now) == Slot(Window(w.start, w.count + 1), now)
    ensures var e := queue[0];
      Consistent(Window(w.start, w.count + 1), log + [Dispatch(e.future, w.start, now, e.task.outcome)], queue[1..],
                 submitted, futures[e.future := Resolved(e.task.outcome)], nextFuture)
  {
    var e := queue[0];
    var d := Dispatch(e.future, w.start, now, e.task.outcome);
    var w' := Window(w.start, w.count + 1);
    var futures' := futures[e.future := Resolved(e.task.outcome)];
    assert Refresh(w, now) == w;
    NextDispatchImmediate(w, now);
    assert WindowedLog(log + [d], w') by {
      DispatchKeepsWindowedLog(log, w, now, e.future, e.task.outcome);
    }
    assert DispatchIds(log + [d]) + EntryIds(queue[1..]) == submitted by {
      DispatchedIds(log, queue, d);
    }
    assert e.future in submitted by {
      assert EntryIds(queue)[0] == e.future;
      assert (DispatchIds(log) + EntryIds(queue))[|log|] == e.future;
    }
    assert forall f :: f in futures' <==> f in submitted;
    HeadIsFresh(log, queue, submitted);
    ResolveHead(log, queue, futures, d);
  }

  /**
   * What is left to do, from window `w` at time `now` with the entries `q`
   * still pending and `log` already dispatched, is what draining the
   * original queue from its original window and time does to the original
   * record `log0`.
   */
  ghost predicate DrainsTo(w: Window, now: int, q: seq<Entry>, log: seq<Dispatch>, log0: seq<Dispatch>, goal: Drained)
  {
    && w.count <= MaxPerWindow
    && Drain(w, now, q).window == goal.window
    && Drain(w, now, q).now == goal.now
    && log + Drain(w, now, q).dispatches == log0 + goal.dispatches
  }

  /** Opening a new window keeps what is left to do. */
  lemma ResetKeepsDrainsTo(w: Window, now: int, q: seq<Entry>, log: seq<Dispatch>, log0: seq<Dispatch>, goal: Drained)
    requires DrainsTo(w, now, q, log, log0, goal) && q != [] && now - w.start >= WindowMs
    ensures DrainsTo(Window(now, 0), now, q, log, log0, goal)
  {
    ResetKeepsDrain(w, now, q);
  }

  /** Sleeping while the window is full keeps what is left to do. */
  lemma SleepKeepsDrainsTo(w: Window, now: int, q: seq<Entry>, log: seq<Dispatch>, log0: seq<Dispatch>, goal: Drained)
    requires DrainsTo(w, now, q, log, log0, goal) && q != []
    requires w.count == MaxPerWindow && now - w.start < WindowMs
    ensures DrainsTo(w, now + PollMs, q, log, log0, goal)
    ensures Wait(w, now + PollMs) < Wait(w, now)
  {
    SleepKeepsDrain(w, now, q);
  }

  /** Dispatching the head where `NextDispatch` puts it keeps what is left to do. */
  lemma DispatchKeepsDrainsTo(w: Window, now: int, q: seq<Entry>, log: seq<Dispatch>, log0: seq<Dispatch>, goal: Drained,
                              w': Window, now': int, q': seq<Entry>, log': seq<Dispatch>)
    requires DrainsTo(w, now, q, log, log0, goal) && q != []
    requires NextDispatch(w, now) == Slot(w', now)
    requires now' == now + q[0].task.duration && q' == q[1..]
    requires log' == log + [Dispatch(q[0].future, w'.start, now, q[0].task.outcome)]
    ensures DrainsTo(w', now', q', log', log0, goal)
  {
    var d := Dispatch(q[0].future, w'.start, now, q[0].task.outcome);
    var s := NextDispatch(w, now);
    assert s.window == w' && s.at == now && w'.count <= MaxPerWindow;
    var rest := Drain(w', now', q');
    DrainStep(w, now, q);
    assert Drain(w, now, q) == Drained(rest.window, rest.now, [d] + rest.dispatches);
    assert log + ([d] + rest.dispatches) == log' + rest.dispatches;
  }

  /** The rate-limited FIFO dispatcher, `QueueManager`. */
  class QueueManager {
    /** The deque of `(coroutine, future)` pairs. */
    var queue: seq<Entry>
    var lastRequestTime: int
    var requestCount: nat
    /** The futures created so far, each pending or resolved. */
    var futures: map<FutureId, Cell>
    /** The next fresh future. */
    var nextFuture: FutureId
    /** Every future ever enqueued, in enqueue order. */
    ghost var submitted: seq<FutureId>
    /** Every dispatch made so far, in dispatch order. */
    ghost var log: seq<Dispatch>

    /** The window in force: `last_request_time` and `request_count`. */
    function CurrentWindow(): Window
      reads this
    {
      Window(lastRequestTime, requestCount)
    }

    /** The object invariant, `Consistent` of the fields. */
    ghost predicate Valid()
      reads this
    {
      Consistent(CurrentWindow(), log, queue, submitted, futures, nextFuture)
    }

    /** No task is waiting: every public call leaves the queue drained. */
    predicate Idle()
      reads this
    {
      queue == []
    }

    /** `__init__`: an empty queue and a first window opened at construction time with no dispatch. */
    constructor (now: int)
      ensures Valid() && Idle()
      ensures CurrentWindow() == Window(now, 0)
      ensures futures == map[] && submitted == [] && log == []
    {
      queue := [];
      lastRequestTime := now;
      requestCount := 0;
      futures := map[];
      nextFuture := 0;
      submitted := [];
      log := [];
    }

    /**
     * The body of a pass that finds room in the current window (queue_manager.py:30-36):
     * pops the head, counts it, awaits it and resolves its future with its
     * outcome; the clock moves on by the task's duration.
     */
    method DispatchHead(t: int) returns (t': int)
      requires Valid() && queue != []
      requires requestCount < MaxPerWindow && t - lastRequestTime < WindowMs
      modifies this
      ensures Valid()
      ensures NextDispatch(old(CurrentWindow()), t) == Slot(CurrentWindow(), t)
      ensures var e := old(queue)[0];
        && queue == old(queue)[1..]
        && CurrentWindow() == Window(old(lastRequestTime), old(requestCount) + 1)
        && log == old(log) + [Dispatch(e.future, lastRequestTime, t, e.task.outcome)]
        && futures == old(futures)[e.future := Resolved(e.task.outcome)]
        && t' == t + e.task.duration
      ensures submitted == old(submitted) && nextFuture == old(nextFuture)
    {
      var e := queue[0];
      DispatchKeepsConsistent(CurrentWindow(), log, queue, submitted, futures, nextFuture, t);
      queue := queue[1..];
      requestCount := requestCount + 1;
      // `result = await coroutine`, then `future.set_result` / `future.set_exception`
      var resolved := Resolve(futures[e.future], e.task.outcome);
      futures := futures[e.future := resolved.value];
      log := log + [Dispatch(e.future, lastRequestTime, t, e.task.outcome)];
      t' := t + e.task.duration;
    }

    /**
     * `process_queue`, started at time `now`: returns only when the queue is
     * empty, at the time `Drain` gives; the window and the dispatch record move
     * on exactly as `Drain` says, and every entry's future is resolved with
     * its own task's outcome (the invariant). A task's failure is delivered
     * through its future and does not stop the loop.
     */
    method ProcessQueue(now: int) returns (t: int)
      requires Valid()
      modifies this
      ensures Valid() && Idle()
      ensures var d := Drain(old(CurrentWindow()), now, old(queue));
        && CurrentWindow() == d.window
        && t == d.now
        && log == old(log) + d.dispatches
      ensures submitted == old(submitted) && nextFuture == old(nextFuture)
    {
      t := now;
      ghost var d0 := Drain(CurrentWindow(), now, queue);
      while queue != []
        invariant Valid()
        invariant submitted == old(submitted) && nextFuture == old(nextFuture)
        invariant DrainsTo(CurrentWindow(), t, queue, log, old(log), d0)
        decreases |queue|, Wait(CurrentWindow(), t)
      {
        t := Pass(t, old(log), d0);
      }
    }

    /**
     * One pass of the `process_queue` loop at time `t` (queue_manager.py:25-40):
     * opens a new window if the current one has elapsed, then dispatches the
     * head if the window has room and sleeps `PollMs` otherwise. Each pass
     * either dispatches or comes closer to the end of the full window, and
     * keeps what is left to do.
     */
    method Pass(t: int, ghost log0: seq<Dispatch>, ghost goal: Drained) returns (t': int)
      requires Valid() && queue != []
      requires DrainsTo(CurrentWindow(), t, queue, log, log0, goal)
      modifies this
      ensures Valid() && DrainsTo(CurrentWindow(), t', queue, log, log0, goal)
      ensures submitted == old(submitted) && nextFuture == old(nextFuture)
      ensures |queue| < old(|queue|) || (|queue| == old(|queue|) && Wait(CurrentWindow(), t') < old(Wait(CurrentWindow(), t)))
    {
      if t - lastRequestTime >= WindowMs {
        ResetKeepsConsistent(CurrentWindow(), log, queue, submitted, futures, nextFuture, t);
        ResetKeepsDrainsTo(CurrentWindow(), t, queue, log, log0, goal);
        lastRequestTime := t;
        requestCount := 0;
      }
      if requestCount < MaxPerWindow {
        ghost var w, q, l0 := CurrentWindow(), queue, log;
        t' := DispatchHead(t);
        DispatchKeepsDrainsTo(w, t, q, l0, log0, goal, CurrentWindow(), t', queue, log);
      } else {
        SleepKeepsDrainsTo(CurrentWindow(), t, queue, log, log0, goal);
        t' := t + PollMs;
      }
    }

    /**
     * `add_to_queue`: enqueues the task with a fresh future, drains the queue
     * and returns what the future holds, which is this task's own outcome (a
     * raised exception is re-raised to the caller: `Fail`).
     */
    method AddToQueue(task: Task, now: int) returns (r: Outcome, t: int)
      requires Valid()
      modifies this
      ensures Valid() && Idle()
      ensures r == task.outcome
      ensures submitted == old(submitted) + [old(nextFuture)] && nextFuture == old(nextFuture) + 1
      ensures var d := Drain(old(CurrentWindow()), now, old(queue) + [Entry(task, old(nextFuture))]);
        CurrentWindow() == d.window && t == d.now && log == old(log) + d.dispatches
    {
      var f := nextFuture;
      EnqueueKeepsConsistent(CurrentWindow(), log, queue, submitted, futures, nextFuture, task);
      queue := queue + [Entry(task, f)];
      futures := futures[f := Pending];
      submitted := submitted + [f];
      nextFuture := nextFuture + 1;
      ghost var w, q, l0 := CurrentWindow(), queue, log;
      t := ProcessQueue(now);
      DrainInOrder(w, now, q);
      assert log[|log| - 1] == Drain(w, now, q).dispatches[|q| - 1];
      r := futures[f].outcome;
    }

    /** `run_coroutine`: the entry point the rest of the bot uses; it is `add_to_queue`. */
    method RunCoroutine(task: Task, now: int) returns (r: Outcome, t: int)
      requires Valid() && Idle()
      modifies this
      ensures Valid() && Idle()
      ensures r == task.outcome
      ensures submitted == old(submitted) + [old(nextFuture)] && nextFuture == old(nextFuture) + 1
      ensures var s := NextDispatch(old(CurrentWindow()), now);
        && CurrentWindow() == s.window
        && t == s.at + task.duration
        && log == old(log) + [Dispatch(old(nextFuture), s.window.start, s.at, task.outcome)]
    {
      r, t := AddToQueue(task, now);
      DrainOne(old(CurrentWindow()), now, Entry(task, old(nextFuture)));
    }
  }
}
