/**
 * The promise channel: the outcome a queued task produces and the write-once
 * cell (an `asyncio.Future`) through which the dispatcher hands it back to the
 * caller that enqueued the task.
 */
module Futures {
  import opened Json
  import opened Wrappers

  /**
   * An exception a task raises. The cog tells `requests.exceptions.HTTPError`,
   * with the status code of its response, apart from every other exception.
   */
  datatype Exception =
    | HTTPError(status: int, text: string)
    | OtherError(text: string)

  /** What awaiting a task yields: its return value, or the exception it raised. */
  datatype Outcome = Ok(value: Json) | Fail(error: Exception)

  /** A future: pending until resolved, then holding one outcome for good. */
  datatype Cell = Pending | Resolved(outcome: Outcome)

  /**
   * `future.set_result(v)` / `future.set_exception(e)`: a pending cell takes the
   * outcome; a cell that is already resolved refuses it (asyncio raises
   * `InvalidStateError`), which is rendered as `None`.
   */
  function Resolve(c: Cell, o: Outcome): (r: Option<Cell>)
    ensures r.Some? <==> c.Pending?
    ensures r.Some? ==> r.value.Resolved? && r.value.outcome == o
  {
    match c
    case Pending => Some(Resolved(o))
    case Resolved(_) => None
  }

  /** A cell is resolved at most once: resolving it again always fails, whatever the two outcomes. */
  lemma {:induction false} ResolveOnce(c: Cell, first: Outcome, second: Outcome)
    requires Resolve(c, first).Some?
    ensures Resolve(Resolve(c, first).value, second).None?
    ensures Resolve(c, first).value.outcome == first
  {
  }
}
