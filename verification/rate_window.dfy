/**
 * The throttling rule of the primary dispatcher (`QueueManager.process_queue`):
 * a window opens at `last_request_time`, holds at most two dispatches, and is
 * replaced by a fresh one only when a pass finds that ten seconds or more have
 * gone by since it opened. Times are integer milliseconds.
 */
module RateWindow {

  const Second: int := 1000
  /** Length of a window (the `>= 10` at queue_manager.py:25). */
  const WindowMs: int := 10 * Second
  /** Dispatches allowed per window (the `< 2` at queue_manager.py:29). */
  const MaxPerWindow: nat := 2
  /** The pause of a blocked pass (`asyncio.sleep(0.5)`). */
  const PollMs: int := Second / 2

  /** `last_request_time` and `request_count`. */
  datatype Window = Window(start: int, count: nat)

  /** The window a pass starting at `now` works with (queue_manager.py:24-27). */
  function Refresh(w: Window, now: int): Window
  {
    if now - w.start >= WindowMs then Window(now, 0) else w
  }

  /** A pass at `now` can dispatch nothing and sleeps. */
  predicate Blocked(w: Window, now: int)
  {
    Refresh(w, now).count >= MaxPerWindow
  }

  /** How long a blocked window has left to run; zero when a pass would dispatch. */
  function Wait(w: Window, now: int): nat
  {
    if Blocked(w, now) && w.start + WindowMs - now > 0 then w.start + WindowMs - now else 0
  }

  /** A dispatch: the window after it was counted, and the time it happened. */
  datatype Slot = Slot(window: Window, at: int)

  /**
   * The passes `process_queue` makes for the task at the head of the queue, from
   * time `now` on: every blocked pass sleeps `PollMs` and changes nothing else;
   * the first pass that finds room refreshes the window, counts the dispatch and
   * runs the task.
   */
  function NextDispatch(w: Window, now: int): (s: Slot)
    requires w.count <= MaxPerWindow
    ensures 1 <= s.window.count <= MaxPerWindow && s.at >= now
    decreases Wait(w, now)
  {
    var cur := Refresh(w, now);
    if cur.count < MaxPerWindow then Slot(Window(cur.start, cur.count + 1), now)
    else NextDispatch(w, now + PollMs)
  }

  /**
   * Every dispatch is counted in its window and the count never passes the cap.
   * Either the window is the one that was open (one more dispatch in it) or the
   * pass reset it: then it opened at the dispatch time, at least `WindowMs`
   * after the old one, with this dispatch as its first. No dispatch happens
   * before `now`, and, when the window did not open after `now`, the dispatch
   * falls inside the window it is counted in.
   */
  lemma {:induction false} NextDispatchCounts(w: Window, now: int)
    requires w.count <= MaxPerWindow
    ensures var s := NextDispatch(w, now);
      && 1 <= s.window.count <= MaxPerWindow
      && s.at >= now
      && (|| (s.window.start == w.start && s.window.count == w.count + 1)
          || (s.window.start == s.at && s.at - w.start >= WindowMs && s.window.count == 1))
      && (w.start <= now ==> s.window.start <= s.at < s.window.start + WindowMs)
    decreases Wait(w, now)
  {
    var cur := Refresh(w, now);
    if cur.count >= MaxPerWindow {
      NextDispatchCounts(w, now + PollMs);
    }
  }

  /** A pass that is not blocked dispatches at once, without sleeping. */
  lemma {:induction false} NextDispatchImmediate(w: Window, now: int)
    requires w.count <= MaxPerWindow
    requires !Blocked(w, now)
    ensures NextDispatch(w, now).at == now
    ensures NextDispatch(w, now).window == Window(Refresh(w, now).start, Refresh(w, now).count + 1)
  {
  }

  /** The number of `PollMs` sleeps it takes to cover `ms` of positive time (ceiling division). */
  function PollsToCover(ms: int): (n: nat)
    requires ms > 0
    ensures n >= 1 && (n - 1) * PollMs < ms <= n * PollMs
    decreases ms
  {
    if ms <= PollMs then 1 else 1 + PollsToCover(ms - PollMs)
  }

  /** One more poll covers `PollMs` more time. */
  lemma PollsToCoverStep(ms: int)
    requires ms > PollMs
    ensures PollsToCover(ms) == PollsToCover(ms - PollMs) + 1
  {
    assert ms + PollMs - 1 == (ms - PollMs + PollMs - 1) + PollMs;
  }

  /**
   * A blocked head waits in `PollMs` steps until the first pass that is at least
   * `WindowMs` past the window start: that pass opens a new window at its own
   * time and dispatches the head as the first of that window.
   */
  lemma {:induction false} NextDispatchWhenBlocked(w: Window, now: int)
    requires w.count <= MaxPerWindow
    requires Blocked(w, now)
    ensures var t := now + PollMs * PollsToCover(w.start + WindowMs - now);
      NextDispatch(w, now) == Slot(Window(t, 1), t)
    decreases w.start + WindowMs - now
  {
    var gap := w.start + WindowMs - now;
    var next := now + PollMs;
    assert Refresh(w, now) == w && w.count == MaxPerWindow && gap > 0;
    assert NextDispatch(w, now) == NextDispatch(w, next);
    if Blocked(w, next) {
      NextDispatchWhenBlocked(w, next);
      var k := PollsToCover(gap - PollMs);
      assert next + PollMs * k == now + PollMs * (k + 1);
    } else {
    }
  }
}
