/**
 * image_generation_utils.py: the calls to the image service and the way each
 * one turns what the service (or the network) answered into the record the cog
 * reads. The HTTP exchange itself is an input: an `Exchange` says what
 * `requests` produced for the call. The `*_queued` wrappers run the call as a
 * task of the rate-limited queue.
 */
module ImageGenerationUtils {
  import opened Wrappers
  import opened Json
  import opened Text
  import opened Futures
  import opened RateWindow
  import opened Queues

  /** The body of an answer: JSON that `response.json()` decodes, or text it refuses. */
  datatype Body = Decoded(value: Json) | NotJson(error: string)

  /**
   * What one `requests` call produced: an answer with its status code, reason
   * phrase, final URL, raw content and body; a `RequestException` raised before
   * any answer (connection refused, timeout, bad URL), with its text; or some
   * other exception raised while making the call, with its text.
   */
  datatype Exchange =
    | Answered(status: int, reason: string, url: string, content: seq<bv8>, body: Body)
    | Unreachable(error: string)
    | Crashed(error: string)

  /** One call of the service: what it produced and how long it blocked the caller, in milliseconds. */
  datatype Call = Call(reply: Exchange, latency: nat)

  /** The statuses `response.raise_for_status()` raises `HTTPError` for. */
  predicate RaisesForStatus(status: int)
  {
    400 <= status < 600
  }

  /** The text of the `HTTPError` that `raise_for_status()` raises. */
  function HttpErrorText(status: int, reason: string, url: string): string
  {
    IntToString(status) + (if status < 500 then " Client Error: " else " Server Error: ") + reason + " for url: " + url
  }

  /**
   * What a JSON call gets past `raise_for_status()` and `response.json()`:
   * decoded data with the status; a `RequestException`, with the status of
   * its response if it has one (an `HTTPError`) and its text (a body that is
   * not JSON raises a `RequestException` without a response); or another
   * exception's text.
   */
  datatype Received = Data(status: int, data: Json) | RequestFailed(response: Option<int>, error: string) | Unexpected(error: string)

  function Receive(x: Exchange): (r: Received)
    ensures r.Data? <==> x.Answered? && !RaisesForStatus(x.status) && x.body.Decoded?
    ensures r.RequestFailed? && r.response.Some? <==> x.Answered? && RaisesForStatus(x.status)
    ensures r.Unexpected? <==> x.Crashed?
  {
    match x
    case Answered(status, reason, url, _, body) =>
      if RaisesForStatus(status) then RequestFailed(Some(status), HttpErrorText(status, reason, url))
      else if body.Decoded? then Data(status, body.value)
      else RequestFailed(None, body.error)
    case Unreachable(e) => RequestFailed(None, e)
    case Crashed(e) => Unexpected(e)
  }

  /** `getattr(e.response, 'status_code', 0)`. */
  function StatusOf(status: Option<int>): int
  {
    status.GetOr(0)
  }

  /** `key in data` for decoded data that is a dictionary, a list or a string. */
  predicate PyIn(key: string, data: Json)
    requires data.JObj? || data.JArr? || data.JStr?
  {
    match data
    case JObj(m) => key in m
    case JArr(items) => JStr(key) in items
    case JStr(s) => Contains(s, key)
  }

  // The texts of the exceptions Python raises when a dictionary operation meets another kind of value.

  function NotIterable(j: Json): string
  {
    "argument of type '" + TypeName(j) + "' is not iterable"
  }

  function NoGet(j: Json): string
  {
    "'" + TypeName(j) + "' object has no attribute 'get'"
  }

  function NotAMapping(j: Json): string
  {
    "'" + TypeName(j) + "' object is not a mapping"
  }

  function NotSubscriptable(j: Json): string
  {
    "'" + TypeName(j) + "' object is not subscriptable"
  }

  /** `data[key]` on a list or a string. */
  function StringIndexError(j: Json): string
  {
    if j.JArr? then "list indices must be integers or slices, not str" else "string indices must be integers, not 'str'"
  }

  /** The constant `unexpected error` record, with the exception's text in its message. */
  function UnexpectedRecord(error: string): Json
  {
    JObj(map[
      "success" := JBool(false),
      "statusCode" := JInt(500),
      "errors" := JArr([JObj(map["error" := JStr("unexpected error")])]),
      "message" := JStr("An unexpected error occurred: " + error)])
  }

  /** `DEFAULT_IMAGE_PARAMS` (constants.py:3-24). */
  const DefaultImageParams: map<string, Json> := map[
    "prompt" := JStr(""),
    "params" := JObj(map[
      "sampler_name" := JStr("k_dpmpp_2m"),
      "cfg_scale" := JDecimal(45, 1),
      "denoising_strength" := JDecimal(75, 2),
      "seed" := JNull,
      "height" := JInt(1024),
      "width" := JInt(1024),
      "steps" := JInt(22),
      "n" := JInt(1)]),
    "nsfw" := JBool(false),
    "karras" := JBool(true),
    "trusted_workers" := JBool(false),
    "slow_workers" := JBool(true),
    "censor_nsfw" := JBool(false),
    "r2" := JBool(true),
    "shared" := JBool(false),
    "replacement_filter" := JBool(true),
    "models" := JArr([JStr("AIPG_RED")])]

  /**
   * The JSON body `generate_image` posts: a copy of the defaults, updated
   * (one level deep) with the custom parameters, then the prompt. The prompt
   * always wins, a custom parameter wins over a default, and every default
   * parameter is sent.
   */
  function GenerateBody(prompt: string, custom: map<string, Json>): (r: map<string, Json>)
    ensures "prompt" in r && r["prompt"] == JStr(prompt)
    ensures r.Keys == DefaultImageParams.Keys + custom.Keys
    ensures forall k :: k in custom && k != "prompt" ==> r[k] == custom[k]
    ensures forall k :: k in DefaultImageParams && k !in custom && k != "prompt" ==> r[k] == DefaultImageParams[k]
  {
    (DefaultImageParams + custom)["prompt" := JStr(prompt)]
  }

  /**
   * `generate_image`: the record it returns for what the call produced. An
   * accepted request is a dictionary with an `id`; the record then carries the
   * id and the kudos (or `None`). A dictionary without an `id` gives a failure
   * record carrying its own `errors` (or `[]`) and `message` (or `Unknown
   * error`); a `RequestException` gives one whose single error and message
   * carry the exception's text; any other exception gives the constant
   * `unexpected error` record.
   */
  function GenerateImage(x: Exchange): (r: Json)
    ensures r.JObj? && "success" in r.fields
    ensures "message" in r.fields <==> r.fields["success"] != JBool(true)
    ensures r.fields["success"] == JBool(true) <==>
      x.Answered? && !RaisesForStatus(x.status) && x.body.Decoded? && x.body.value.JObj? && "id" in x.body.value.fields
    ensures r.fields["success"] == JBool(true) ==>
      "id" in r.fields && r.fields["id"] == x.body.value.fields["id"]
      && "kudos" in r.fields && r.fields["kudos"] == Get(x.body.value.fields, "kudos", JNull)
    ensures r.fields["success"] != JBool(true) ==>
      r.fields["success"] == JBool(false) && "statusCode" in r.fields && "errors" in r.fields
    ensures x.Answered? && !RaisesForStatus(x.status) && x.body.Decoded? && x.body.value.JObj? && "id" !in x.body.value.fields ==>
      && r.fields["errors"] == Get(x.body.value.fields, "errors", JArr([]))
      && r.fields["message"] == Get(x.body.value.fields, "message", JStr("Unknown error"))
    ensures Receive(x).RequestFailed? ==>
      && r.fields["errors"] == JArr([JObj(map["error" := JStr(Receive(x).error)])])
      && r.fields["message"] == JStr("Request failed: " + Receive(x).error)
    ensures x.Crashed? ==> r == UnexpectedRecord(x.error)
  {
    match Receive(x)
    case Data(status, data) =>
      if data.JObj? then
        if "id" in data.fields then
          JObj(map["success" := JBool(true), "id" := data.fields["id"], "kudos" := Get(data.fields, "kudos", JNull)])
        else
          JObj(map[
            "success" := JBool(false),
            "statusCode" := JInt(status),
            "errors" := Get(data.fields, "errors", JArr([])),
            "message" := Get(data.fields, "message", JStr("Unknown error"))])
      else if data.JArr? || data.JStr? then
        UnexpectedRecord(if PyIn("id", data) then StringIndexError(data) else NoGet(data))
      else
        UnexpectedRecord(NotIterable(data))
    case RequestFailed(status, e) =>
      JObj(map[
        "success" := JBool(false),
        "statusCode" := JInt(StatusOf(status)),
        "errors" := JArr([JObj(map["error" := JStr(e)])]),
        "message" := JStr("Request failed: " + e)])
    case Unexpected(e) =>
      UnexpectedRecord(e)
  }

  /**
   * The status code a failed `generate_image` reports: the answer's status
   * when the service answered with an error status or with a dictionary
   * without an `id`, 0 when no answer was obtained or it was not JSON, and
   * 500 for any other exception.
   */
  lemma GenerateImageStatus(x: Exchange)
    requires GenerateImage(x).fields["success"] != JBool(true)
    ensures GenerateImage(x).fields["statusCode"] == JInt(
      if x.Answered? && (RaisesForStatus(x.status) || (x.body.Decoded? && x.body.value.JObj?)) then x.status
      else if x.Unreachable? || (x.Answered? && x.body.NotJson?) then 0
      else 500)
  {
  }

  /** The service answered the status check with a dictionary holding both `done` and `is_possible`. */
  predicate StatusAnswer(x: Exchange)
  {
    && x.Answered? && !RaisesForStatus(x.status) && x.body.Decoded? && x.body.value.JObj?
    && "done" in x.body.value.fields && "is_possible" in x.body.value.fields
  }

  /**
   * `check_image_status`: an answer that is a dictionary holding both `done`
   * and `is_possible` is returned whole, with `success` set first (so a
   * `success` field of the answer wins); anything else becomes a failure
   * record with a message and a status code: the answer's own message (or
   * `Unknown error`) and status for another dictionary, the exception's text
   * and the response's status (or 0) for a `RequestException`, and the
   * unexpected-error message with 500 for any other exception.
   */
  function CheckImageStatus(x: Exchange): (r: Json)
    ensures r.JObj? && "success" in r.fields
    ensures StatusAnswer(x) ==>
      && r.fields.Keys == x.body.value.fields.Keys + {"success"}
      && (forall k :: k in x.body.value.fields ==> r.fields[k] == x.body.value.fields[k])
      && ("success" !in x.body.value.fields ==> r.fields["success"] == JBool(true))
    ensures Truthy(r.fields["success"]) ==> "done" in r.fields && "is_possible" in r.fields
    ensures !StatusAnswer(x) ==> r.fields["success"] == JBool(false) && "message" in r.fields && "statusCode" in r.fields
    ensures !StatusAnswer(x) ==> r.fields["statusCode"] == JInt(
      if x.Answered? && (RaisesForStatus(x.status) || (x.body.Decoded? && x.body.value.JObj?)) then x.status
      else if x.Unreachable? || (x.Answered? && x.body.NotJson?) then 0
      else 500)
    ensures x.Answered? && !RaisesForStatus(x.status) && x.body.Decoded? && x.body.value.JObj? && !StatusAnswer(x) ==>
      r.fields["message"] == Get(x.body.value.fields, "message", JStr("Unknown error"))
    ensures Receive(x).RequestFailed? ==> r.fields["message"] == JStr(Receive(x).error)
    ensures x.Crashed? ==> r == UnexpectedStatus(x.error)
  {
    match Receive(x)
    case Data(status, data) =>
      if data.JObj? then
        if "done" in data.fields && "is_possible" in data.fields then
          JObj(map["success" := JBool(true)] + data.fields)
        else
          JObj(map[
            "success" := JBool(false),
            "message" := Get(data.fields, "message", JStr("Unknown error")),
            "statusCode" := JInt(status)])
      else if data.JArr? || data.JStr? then
        UnexpectedStatus(if PyIn("done", data) && PyIn("is_possible", data) then NotAMapping(data) else NoGet(data))
      else
        UnexpectedStatus(NotIterable(data))
    case RequestFailed(status, e) =>
      JObj(map["success" := JBool(false), "statusCode" := JInt(StatusOf(status)), "message" := JStr(e)])
    case Unexpected(e) =>
      UnexpectedStatus(e)
  }

  /** The record `check_image_status` returns for an unexpected exception. */
  function UnexpectedStatus(error: string): Json
  {
    JObj(map["success" := JBool(false), "statusCode" := JInt(500), "message" := JStr("An unexpected error occurred: " + error)])
  }

  /** The outcome of looking up `generations[0]["img"]` on a truthy `generations` value. */
  function FirstImage(g: Json): (r: Outcome)
    requires Truthy(g)
    ensures r.Ok? <==> g.JArr? && g.items[0].JObj?
    ensures r.Ok? ==> r.value == Get(g.items[0].fields, "img", JNull)
    ensures r.Fail? ==> r.error.OtherError?
  {
    match g
    case JArr(items) =>
      if items[0].JObj? then Ok(Get(items[0].fields, "img", JNull)) else Fail(OtherError(NoGet(items[0])))
    case JObj(_) => Fail(OtherError("0"))
    case JStr(_) => Fail(OtherError(NoGet(JStr(""))))
    case _ => Fail(OtherError(NotSubscriptable(g)))
  }

  /**
   * `retrieve_generated_image`: the `img` of the first generation when the
   * answer is a dictionary with a non-empty list of generations whose first
   * entry is a dictionary; `None` when the request fails or there is no
   * generation; otherwise the exception Python raises, which the function does
   * not catch. None of these exceptions is an `HTTPError`.
   */
  function RetrieveGeneratedImage(x: Exchange): (r: Outcome)
    ensures r.Fail? ==> r.error.OtherError?
    ensures x.Unreachable? || (x.Answered? && (RaisesForStatus(x.status) || x.body.NotJson?)) ==> r == Ok(JNull)
    ensures x.Crashed? ==> r == Fail(OtherError(x.error))
    ensures x.Answered? && !RaisesForStatus(x.status) && x.body.Decoded? && x.body.value.JObj? ==>
      r == (if "generations" in x.body.value.fields && Truthy(x.body.value.fields["generations"])
            then FirstImage(x.body.value.fields["generations"]) else Ok(JNull))
    ensures r.Ok? && r.value != JNull ==>
      && x.Answered? && x.body.Decoded? && x.body.value.JObj?
      && "generations" in x.body.value.fields && x.body.value.fields["generations"].JArr?
      && x.body.value.fields["generations"].items != []
      && x.body.value.fields["generations"].items[0].JObj?
      && "img" in x.body.value.fields["generations"].items[0].fields
      && r.value == x.body.value.fields["generations"].items[0].fields["img"]
  {
    match Receive(x)
    case Data(_, data) =>
      if data.JObj? then
        if "generations" in data.fields && Truthy(data.fields["generations"]) then FirstImage(data.fields["generations"])
        else Ok(JNull)
      else if data.JArr? || data.JStr? then
        if PyIn("generations", data) then Fail(OtherError(StringIndexError(data))) else Ok(JNull)
      else
        Fail(OtherError(NotIterable(data)))
    case RequestFailed(_, _) => Ok(JNull)
    case Unexpected(e) => Fail(OtherError(e))
  }

  /** The record `download_image` returns, or the exception it lets through. */
  datatype Download =
    | Downloaded(content: seq<bv8>)
    | NotDownloaded(statusCode: int, message: string, details: string)
    | DownloadRaised(error: Exception)

  /**
   * `download_image`: the raw content of any answer that passes
   * `raise_for_status()` (the body is not decoded); a failure record with the
   * status code (0 without an answer), the constant message `unknown error`
   * and the exception's text; any other exception is not caught.
   */
  function DownloadImage(x: Exchange): (r: Download)
    ensures r.Downloaded? <==> x.Answered? && !RaisesForStatus(x.status)
    ensures r.Downloaded? ==> r.content == x.content
    ensures r.NotDownloaded? ==>
      && r.message == "unknown error"
      && r.statusCode == (if x.Answered? then x.status else 0)
      && (r.statusCode == 0 || RaisesForStatus(r.statusCode))
    ensures r.DownloadRaised? <==> x.Crashed?
    ensures r.DownloadRaised? ==> r.error.OtherError?
  {
    match x
    case Answered(status, reason, url, content, _) =>
      if RaisesForStatus(status) then NotDownloaded(status, "unknown error", HttpErrorText(status, reason, url))
      else Downloaded(content)
    case Unreachable(e) => NotDownloaded(0, "unknown error", e)
    case Crashed(e) => DownloadRaised(OtherError(e))
  }

  /**
   * `generate_image_queued`: posts `GenerateBody(prompt, custom)` through the
   * rate-limited queue, which is idle between calls; the call is dispatched
   * at the time `NextDispatch` gives and its record comes back as the task's
   * outcome.
   */
  method GenerateImageQueued(qm: QueueManager, prompt: string, custom: map<string, Json>, call: Call, now: int)
    returns (sent: map<string, Json>, r: Outcome, t: int)
    requires qm.Valid() && qm.Idle()
    modifies qm
    ensures qm.Valid() && qm.Idle()
    ensures sent == GenerateBody(prompt, custom)
    ensures r == Ok(GenerateImage(call.reply))
    ensures var s := NextDispatch(old(qm.CurrentWindow()), now);
      && qm.CurrentWindow() == s.window && t == s.at + call.latency && t >= now + call.latency
      && qm.log == old(qm.log) + [Dispatch(old(qm.nextFuture), s.window.start, s.at, r)]
    ensures qm.nextFuture == old(qm.nextFuture) + 1
  {
    sent := GenerateBody(prompt, custom);
    r, t := qm.RunCoroutine(Task(Ok(GenerateImage(call.reply)), call.latency), now);
  }

  /** `check_image_status_queued`: `check_image_status` as a task of the rate-limited queue. */
  method CheckImageStatusQueued(qm: QueueManager, call: Call, now: int) returns (r: Outcome, t: int)
    requires qm.Valid() && qm.Idle()
    modifies qm
    ensures qm.Valid() && qm.Idle()
    ensures r == Ok(CheckImageStatus(call.reply))
    ensures var s := NextDispatch(old(qm.CurrentWindow()), now);
      && qm.CurrentWindow() == s.window && t == s.at + call.latency && t >= now + call.latency
      && qm.log == old(qm.log) + [Dispatch(old(qm.nextFuture), s.window.start, s.at, r)]
    ensures qm.nextFuture == old(qm.nextFuture) + 1
  {
    r, t := qm.RunCoroutine(Task(Ok(CheckImageStatus(call.reply)), call.latency), now);
  }

  /**
   * `retrieve_generated_image_queued`: `retrieve_generated_image` as a task
   * of the rate-limited queue; an exception it raises is re-raised to the
   * caller.
   */
  method RetrieveGeneratedImageQueued(qm: QueueManager, call: Call, now: int) returns (r: Outcome, t: int)
    requires qm.Valid() && qm.Idle()
    modifies qm
    ensures qm.Valid() && qm.Idle()
    ensures r == RetrieveGeneratedImage(call.reply)
    ensures var s := NextDispatch(old(qm.CurrentWindow()), now);
      && qm.CurrentWindow() == s.window && t == s.at + call.latency && t >= now + call.latency
      && qm.log == old(qm.log) + [Dispatch(old(qm.nextFuture), s.window.start, s.at, r)]
    ensures qm.nextFuture == old(qm.nextFuture) + 1
  {
    r, t := qm.RunCoroutine(Task(RetrieveGeneratedImage(call.reply), call.latency), now);
  }
}
