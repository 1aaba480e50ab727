/**
 * The stateful half of cogs/image_generation.py: the cog object with its list
 * of available models, the polling loop of `generate_and_send_image` and the
 * one-shot `check_generation_status` behind the "Check Status" button.
 *
 * Time is an integer count of milliseconds threaded through the calls; every
 * remote call goes through the shared rate-limited queue (or, for the
 * download, blocks for its own latency) and `asyncio.sleep` advances the
 * clock. What the message shows is the sequence of status values it is
 * edited to, in order. Writing the image file and attaching it, deleting the
 * status message and the views' buttons are not modelled.
 */
module GenerationFlow {
  import opened Wrappers
  import opened Json
  import opened Text
  import opened Futures
  import opened RateWindow
  import opened Queues
  import opened ImageGenerationUtils
  import opened ImageGeneration
  import Workers

  /** `MAX_WAIT_TIME`, in milliseconds. */
  const MaxWaitMs: int := 300 * Second

  /** `CHECK_INTERVAL`, in milliseconds. */
  const CheckIntervalMs: int := 5 * Second

  /** The most passes the polling loop can make: one per interval of the five minutes. */
  const MaxChecks: nat := 60

  // ---------------------------------------------------------------------------
  // What a status message shows
  // ---------------------------------------------------------------------------

  /** The values the `Status` field of a job's embed takes, in the order the cog sets them. */
  datatype Status =
    | Initializing                                     // "Initializing..."
    | InProgress                                       // "Generation in progress..." with the job summary fields
    | Polling(emoji: nat, attempt: nat, elapsed: nat)  // the progress emoji, the check attempt and the time elapsed
    | Preparing                                        // "Generation complete! Preparing image..." (loop)
    | Generated(elapsed: nat)                          // "Image generated in ...s", in the message with the image
    | TimeoutReached                                   // "Timeout reached...", with the Check Status button
    | ErrorShown(message: string)                      // "Error: ..." on a red embed
    | Confirmed                                        // "Generation complete! Preparing image..." (manual check)
    | GeneratedSuccessfully                            // "Image generated successfully!" (manual check)
    | StillGenerating                                  // "Image is still being generated. Please check again later."

  /** The text of the `GeneratedSuccessfully` status. */
  const GeneratedSuccessfullyText := "✨ Image generated successfully!"

  const ResourceMessage :=
    "Generation failed. This might be due to high resource usage. Please try lowering the number of steps or reducing the image dimensions."
  const ComputeMessage :=
    "You have exceeded the compute for the generation. Please reduce steps and/or dimensions and try again."

  /**
   * The message the error paths show for the exception that ended the job:
   * an `HTTPError` with status 403 gets the resource message, another
   * `HTTPError` the generic HTTP message, any other exception the compute
   * message.
   */
  function ErrorMessage(e: Exception): (r: string)
    ensures e.HTTPError? && e.status == 403 ==> r == ResourceMessage
    ensures e.HTTPError? && e.status != 403 ==> r == "An error occurred while generating the image: " + e.text
    ensures e.OtherError? ==> r == ComputeMessage
  {
    match e
    case HTTPError(status, text) =>
      if status == 403 then ResourceMessage else "An error occurred while generating the image: " + text
    case OtherError(_) => ComputeMessage
  }

  // ---------------------------------------------------------------------------
  // One pass of the polling loop
  // ---------------------------------------------------------------------------

  /** `status_response["success"] and status_response["done"]`. */
  predicate ReportsDone(status: Json)
  {
    status.JObj? && "success" in status.fields && Truthy(status.fields["success"])
    && "done" in status.fields && Truthy(status.fields["done"])
  }

  /** What one look at the job finds: not ready yet, the image's bytes, or an exception that ends the job. */
  datatype Look = NotReady | Done(content: seq<bv8>) | Threw(error: Exception)

  /**
   * A status check, then, when it reports the job done, a retrieval and, when
   * that gives a URL, a download. Only the four together (check succeeded,
   * job done, a URL, the download passed) give the image; a retrieval or
   * download that raises ends the job; anything else (a check that fails or
   * reports the job unfinished, an empty or null URL, a download that did not
   * pass) is not ready. Nothing these calls raise is an `HTTPError`.
   */
  function LookAt(check: Exchange, retrieve: Exchange, download: Exchange): (r: Look)
    ensures r.Done? <==>
      && ReportsDone(CheckImageStatus(check))
      && RetrieveGeneratedImage(retrieve).Ok? && Truthy(RetrieveGeneratedImage(retrieve).value)
      && download.Answered? && !RaisesForStatus(download.status)
    ensures r.Done? ==> r.content == download.content
    ensures r.Threw? <==>
      && ReportsDone(CheckImageStatus(check))
      && (|| RetrieveGeneratedImage(retrieve).Fail?
          || (Truthy(RetrieveGeneratedImage(retrieve).value) && DownloadImage(download).DownloadRaised?))
    ensures r.Threw? ==> r.error.OtherError?
    ensures !ReportsDone(CheckImageStatus(check)) ==> r.NotReady?
  {
    if !ReportsDone(CheckImageStatus(check)) then NotReady
    else
      match RetrieveGeneratedImage(retrieve)
      case Fail(e) => Threw(e)
      case Ok(url) =>
        if !Truthy(url) then NotReady
        else
          match DownloadImage(download)
          case Downloaded(content) => Done(content)
          case NotDownloaded(_, _, _) => NotReady
          case DownloadRaised(e) => Threw(e)
  }

  /** The status check, retrieval and download one look at the job makes (the last two only when it gets that far). */
  datatype Calls = Calls(check: Call, retrieve: Call, download: Call)

  /**
   * The tasks one look hands to the shared queue, by their outcomes: the
   * status check and, only when it reports the job done, the retrieval. The
   * download does not go through the queue.
   */
  function QueuedOutcomes(c: Calls): (r: seq<Outcome>)
    ensures 1 <= |r| <= 2 && r[0] == Ok(CheckImageStatus(c.check.reply))
    ensures |r| == 2 <==> ReportsDone(CheckImageStatus(c.check.reply))
    ensures |r| == 2 ==> r[1] == RetrieveGeneratedImage(c.retrieve.reply)
  {
    [Ok(CheckImageStatus(c.check.reply))]
      + (if ReportsDone(CheckImageStatus(c.check.reply)) then [RetrieveGeneratedImage(c.retrieve.reply)] else [])
  }

  /**
   * The queue's dispatch record grew from `log0` to `log` by exactly one
   * dispatch per outcome in `outs`, in order, under the consecutive fresh
   * futures from `next0` on, and the next fresh future moved past them.
   */
  ghost predicate QueuedExactly(log0: seq<Dispatch>, log: seq<Dispatch>, next0: FutureId, next: FutureId, outs: seq<Outcome>)
  {
    && |log| == |log0| + |outs| && log[..|log0|] == log0
    && next == next0 + |outs|
    && forall j :: |log0| <= j < |log| ==> log[j].future == next0 + (j - |log0|) && log[j].outcome == outs[j - |log0|]
  }

  /** A first dispatch under the next fresh future starts the record of one call. */
  lemma QueuedFirst(log0: seq<Dispatch>, next0: FutureId, log': seq<Dispatch>)
    requires |log'| == |log0| + 1 && log'[..|log0|] == log0 && log'[|log0|].future == next0
    ensures QueuedExactly(log0, log', next0, next0 + 1, [log'[|log0|].outcome])
  {
  }

  /** One more dispatch under the next fresh future extends the record by its outcome. */
  lemma QueuedOneMore(log0: seq<Dispatch>, log: seq<Dispatch>, next0: FutureId, outs: seq<Outcome>, log': seq<Dispatch>)
    requires QueuedExactly(log0, log, next0, next0 + |outs|, outs)
    requires |log'| == |log| + 1 && log'[..|log|] == log && log'[|log|].future == next0 + |outs|
    ensures QueuedExactly(log0, log', next0, next0 + |outs| + 1, outs + [log'[|log|].outcome])
  {
    var outs' := outs + [log'[|log|].outcome];
    assert log'[..|log0|] == log'[..|log|][..|log0|];
    forall j | |log0| <= j < |log'|
      ensures log'[j].future == next0 + (j - |log0|) && log'[j].outcome == outs'[j - |log0|]
    {
      if j < |log| {
        assert log'[j] == log'[..|log|][j];
        assert outs'[j - |log0|] == outs[j - |log0|];
      } else {
        assert outs'[j - |log0|] == log'[|log|].outcome;
      }
    }
  }

  /** What one look finds with these calls. */
  function LookWith(c: Calls): Look
  {
    LookAt(c.check.reply, c.retrieve.reply, c.download.reply)
  }

  /**
   * The remote side of one job, as scripted inputs: the submit call, and the
   * calls of each pass of the loop, in order; a script covers every pass the
   * loop can make.
   */
  datatype Service = Service(submit: Call, passes: seq<Calls>)

  /** What the `k`-th pass of the polling loop finds. */
  function LookFor(s: Service, k: nat): Look
    requires 1 <= k <= |s.passes|
  {
    LookWith(s.passes[k - 1])
  }

  /**
   * The calls one look at the job makes, the same in the polling loop (lines
   * 486-516) and behind the Check Status button (lines 553-574): the status
   * check through the queue and, when it reports the job done, the retrieval
   * through the queue and, when that gives a URL, the download, which blocks
   * for its own latency. Exactly those tasks reach the queue.
   */
  method LookThroughQueue(qm: QueueManager, c: Calls, now: int) returns (look: Look, t: int)
    requires qm.Valid() && qm.Idle()
    modifies qm
    ensures qm.Valid() && qm.Idle()
    ensures QueuedExactly(old(qm.log), qm.log, old(qm.nextFuture), qm.nextFuture, QueuedOutcomes(c))
    ensures look == LookWith(c)
    ensures t >= now
  {
    var done;
    ghost var log0, next0 := qm.log, qm.nextFuture;
    done, t := CheckThroughQueue(qm, c, now);
    ghost var first := [Ok(CheckImageStatus(c.check.reply))];
    if !done {
      assert QueuedOutcomes(c) == first;
      return NotReady, t;
    }
    ghost var log1, next1 := qm.log, qm.nextFuture;
    look, t := FetchThroughQueue(qm, c, t);
    assert next1 == next0 + |first|;
    QueuedOneMore(log0, log1, next0, first, qm.log);
    assert QueuedOutcomes(c) == first + [RetrieveGeneratedImage(c.retrieve.reply)];
  }

  /** The first step of a look: the status check through the queue, and whether it reports the job done. */
  method CheckThroughQueue(qm: QueueManager, c: Calls, now: int) returns (done: bool, t: int)
    requires qm.Valid() && qm.Idle()
    modifies qm
    ensures qm.Valid() && qm.Idle()
    ensures QueuedExactly(old(qm.log), qm.log, old(qm.nextFuture), qm.nextFuture, [Ok(CheckImageStatus(c.check.reply))])
    ensures qm.nextFuture == old(qm.nextFuture) + 1 && done == ReportsDone(CheckImageStatus(c.check.reply))
    ensures t >= now
  {
    var status;
    ghost var log0, next0 := qm.log, qm.nextFuture;
    status, t := CheckImageStatusQueued(qm, c.check, now);
    QueuedFirst(log0, next0, qm.log);
    done := ReportsDone(status.value);
  }

  /**
   * The rest of a look once the check reports the job done: the retrieval
   * through the queue, then, when it gives a URL, the download.
   */
  method FetchThroughQueue(qm: QueueManager, c: Calls, now: int) returns (look: Look, t: int)
    requires qm.Valid() && qm.Idle()
    requires ReportsDone(CheckImageStatus(c.check.reply))
    modifies qm
    ensures qm.Valid() && qm.Idle()
    ensures |qm.log| == |old(qm.log)| + 1 && qm.log[..|old(qm.log)|] == old(qm.log)
    ensures qm.log[|old(qm.log)|].future == old(qm.nextFuture) && qm.nextFuture == old(qm.nextFuture) + 1
    ensures qm.log[|old(qm.log)|].outcome == RetrieveGeneratedImage(c.retrieve.reply)
    ensures look == LookWith(c)
    ensures t >= now
  {
    var url;
    url, t := RetrieveGeneratedImageQueued(qm, c.retrieve, now);
    if url.Fail? {
      return Threw(url.error), t;
    }
    look := NotReady;
    if Truthy(url.value) {
      var download := DownloadImage(c.download.reply);
      t := t + c.download.latency;
      match download
      case Downloaded(content) =>
        look := Done(content);
      case DownloadRaised(e) =>
        look := Threw(e);
      case NotDownloaded(_, _, _) =>
    }
  }

  /**
   * The body of the `while` loop (lines 476-516), entered at time `now`:
   * show the progress, look at the job and, when the check reports it done,
   * show that the image is being prepared. A pass that does not end the job
   * sleeps `CHECK_INTERVAL`.
   */
  method PollOnce(qm: QueueManager, c: Calls, now: int) returns (look: Look, prepared: bool, t: int)
    requires qm.Valid() && qm.Idle()
    modifies qm
    ensures qm.Valid() && qm.Idle()
    ensures QueuedExactly(old(qm.log), qm.log, old(qm.nextFuture), qm.nextFuture, QueuedOutcomes(c))
    ensures look == LookWith(c)
    ensures prepared == ReportsDone(CheckImageStatus(c.check.reply))
    ensures !look.NotReady? ==> prepared
    ensures t >= now
    ensures look.NotReady? ==> t >= now + CheckIntervalMs
  {
    look, t := LookThroughQueue(qm, c, now);
    prepared := ReportsDone(CheckImageStatus(c.check.reply));
    if look.NotReady? {
      t := t + CheckIntervalMs;
    }
  }

  // ---------------------------------------------------------------------------
  // The progress the loop shows
  // ---------------------------------------------------------------------------

  /** One pass as the message shows it: its elapsed time, and whether its check reported the job done. */
  datatype PassView = PassView(elapsed: nat, prepared: bool)

  /** What the `k`-th pass shows: its progress line, then the "preparing" line if its check reported the job done. */
  function Round(k: nat, p: PassView): seq<Status>
  {
    [Polling(ProgressIndex(p.elapsed), k, p.elapsed)] + (if p.prepared then [Preparing] else [])
  }

  /** The statuses the loop shows for its passes; `check_count` numbers them from 1. */
  function Display(passes: seq<PassView>): seq<Status>
  {
    if passes == [] then [] else Display(passes[..|passes| - 1]) + Round(|passes|, passes[|passes| - 1])
  }

  /** Passes made before the deadline, each at least `CHECK_INTERVAL` after the one before. */
  predicate Paced(passes: seq<PassView>)
  {
    && (forall i :: 0 <= i < |passes| ==> passes[i].elapsed < MaxWaitMs)
    && (forall i :: 0 < i < |passes| ==> passes[i - 1].elapsed + CheckIntervalMs <= passes[i].elapsed)
  }

  /** Paced passes are spread out: `j - i` intervals separate pass `i` from pass `j`. */
  lemma {:induction false} PacedSpread(passes: seq<PassView>, i: nat, j: nat)
    requires Paced(passes) && i <= j < |passes|
    ensures passes[i].elapsed + (j - i) * CheckIntervalMs <= passes[j].elapsed
    decreases j - i
  {
    if i < j {
      PacedSpread(passes, i, j - 1);
    }
  }

  /** At most `MaxChecks` passes fit before the deadline. */
  lemma PacedBound(passes: seq<PassView>)
    requires Paced(passes)
    ensures |passes| <= MaxChecks
  {
    if |passes| > MaxChecks {
      PacedSpread(passes, 0, MaxChecks);
    }
  }

  /** The progress emoji the loop shows never goes back. */
  lemma ProgressNeverRegresses(passes: seq<PassView>, i: nat, j: nat)
    requires Paced(passes) && i <= j < |passes|
    ensures ProgressIndex(passes[i].elapsed) <= ProgressIndex(passes[j].elapsed)
  {
    PacedSpread(passes, i, j);
    ProgressMonotone(passes[i].elapsed, passes[j].elapsed);
  }

  /** What the loop shows for its first passes stays on display unchanged: later passes only add statuses after it. */
  lemma {:induction false} DisplayGrows(passes: seq<PassView>, k: nat)
    requires k <= |passes|
    ensures Display(passes[..k]) <= Display(passes)
    decreases |passes| - k
  {
    if k < |passes| {
      var n := |passes| - 1;
      assert passes[..n][..k] == passes[..k];
      DisplayGrows(passes[..n], k);
    } else {
      assert passes[..k] == passes;
    }
  }

  /** The last pass shows its progress line, numbered with the pass count, right after those of the passes before it. */
  lemma DisplayLast(passes: seq<PassView>)
    requires passes != []
    ensures var n := |passes|;
      Display(passes)[|Display(passes[..n - 1])|] == Polling(ProgressIndex(passes[n - 1].elapsed), n, passes[n - 1].elapsed)
  {
  }

  /** None of the first `n` passes finds the job ready. */
  predicate NoneReady(s: Service, n: nat)
    requires n <= |s.passes|
  {
    forall k :: 1 <= k <= n ==> LookFor(s, k).NotReady?
  }

  /** Each recorded pass shows the "preparing" line exactly when its check reported the job done. */
  predicate Recorded(s: Service, passes: seq<PassView>)
  {
    |passes| <= |s.passes| &&
    forall i :: 0 <= i < |passes| ==> passes[i].prepared == ReportsDone(CheckImageStatus(s.passes[i].check.reply))
  }

  /** Recording one more pass, and one more pass that is not ready. */
  lemma RecordedExtend(s: Service, passes: seq<PassView>, p: PassView)
    requires Recorded(s, passes) && |passes| < |s.passes|
    requires p.prepared == ReportsDone(CheckImageStatus(s.passes[|passes|].check.reply))
    ensures Recorded(s, passes + [p])
  {
  }

  lemma NoneReadyExtend(s: Service, n: nat)
    requires n < |s.passes| && NoneReady(s, n) && LookFor(s, n + 1).NotReady?
    ensures NoneReady(s, n + 1)
  {
  }

  /**
   * The loop's invariant at time `t` after `passes`: paced passes before the
   * deadline, the last one at least an interval ago, each recorded as its
   * check found it, and none of them ready.
   */
  ghost predicate Polled(s: Service, start: int, t: int, passes: seq<PassView>)
  {
    && Paced(passes) && |passes| <= MaxChecks
    && (passes != [] ==> start + passes[|passes| - 1].elapsed + CheckIntervalMs <= t)
    && Recorded(s, passes) && NoneReady(s, |passes|)
  }

  /** A pass before the deadline, an interval or more after the last one, keeps the passes paced. */
  lemma PacedExtend(passes: seq<PassView>, p: PassView)
    requires Paced(passes) && p.elapsed < MaxWaitMs
    requires passes != [] ==> passes[|passes| - 1].elapsed + CheckIntervalMs <= p.elapsed
    ensures Paced(passes + [p])
  {
  }

  /**
   * The record of passes grew from `passes` to `passes'` by one pass made at
   * `now`, which found `look`; when that is not ready the loop's invariant
   * holds again at `t`, and otherwise the job is settled on this pass.
   */
  ghost predicate Stepped(s: Service, start: int, now: int, t: int, passes: seq<PassView>, passes': seq<PassView>, look: Look)
  {
    && |passes'| == |passes| + 1 && passes'[..|passes|] == passes && passes'[|passes|].elapsed == now - start
    && (look.NotReady? ==> Polled(s, start, t, passes'))
    && (!look.NotReady? ==>
          && Paced(passes') && |passes'| <= MaxChecks && Recorded(s, passes') && NoneReady(s, |passes'| - 1)
          && look == LookFor(s, |passes'|) && passes'[|passes'| - 1].prepared)
  }

  /**
   * A pass made at `now`, before the deadline, that found `look` and whose
   * check reported `prepared`, keeps the loop's invariant when it is not
   * ready, and otherwise settles the job on this pass.
   */
  lemma PassStep(s: Service, start: int, now: int, t: int, passes: seq<PassView>, passes': seq<PassView>, look: Look, prepared: bool)
    requires start <= now && now - start < MaxWaitMs && |s.passes| >= MaxChecks
    requires Polled(s, start, now, passes)
    requires |passes| < |s.passes|
    requires look == LookWith(s.passes[|passes|])
    requires prepared == ReportsDone(CheckImageStatus(s.passes[|passes|].check.reply))
    requires !look.NotReady? ==> prepared
    requires look.NotReady? ==> t >= now + CheckIntervalMs
    requires passes' == passes + [PassView(now - start, prepared)]
    ensures Stepped(s, start, now, t, passes, passes', look)
  {
    var p := PassView(now - start, prepared);
    PacedExtend(passes, p);
    PacedBound(passes + [p]);
    RecordedExtend(s, passes, p);
    assert passes'[..|passes|] == passes && |passes'| - 1 == |passes|;
    if look.NotReady? {
      NoneReadyExtend(s, |passes|);
    } else {
      assert LookFor(s, |passes'|) == look;
    }
  }

  /**
   * One iteration of the `while` loop of lines 476-516, entered at time `now`
   * before the deadline: the pass is recorded, and either it settles the job
   * or the loop's invariant holds again.
   */
  method PollPass(qm: QueueManager, s: Service, start: int, now: int, passes: seq<PassView>)
    returns (look: Look, passes': seq<PassView>, t: int)
    requires qm.Valid() && qm.Idle()
    requires start <= now && now - start < MaxWaitMs && |s.passes| >= MaxChecks
    requires Polled(s, start, now, passes)
    modifies qm
    ensures qm.Valid() && qm.Idle()
    ensures t >= now && Stepped(s, start, now, t, passes, passes', look)
    ensures look.NotReady? ==> t >= now + CheckIntervalMs
  {
    var prepared;
    PassInScript(s, start, now, passes);
    look, prepared, t := PollOnce(qm, s.passes[|passes|], now);
    passes' := passes + [PassView(now - start, prepared)];
    PassStep(s, start, now, t, passes, passes', look, prepared);
  }

  /** A pass before the deadline has its calls in the script: the loop has made fewer than 60 passes so far. */
  lemma PassInScript(s: Service, start: int, now: int, passes: seq<PassView>)
    requires start <= now && now - start < MaxWaitMs && |s.passes| >= MaxChecks
    requires Polled(s, start, now, passes)
    ensures |passes| < |s.passes|
  {
    PacedExtend(passes, PassView(now - start, false));
    PacedBound(passes + [PassView(now - start, false)]);
  }

  /**
   * The `while` loop of lines 476-516 from time `t0`, until a pass finds the
   * image or raises, or five minutes have passed since `start`. It returns
   * what the last pass found (`NotReady` after a timeout), the passes made,
   * and the time.
   */
  method PollUntilSettled(qm: QueueManager, s: Service, start: int, t0: int)
    returns (last: Look, passes: seq<PassView>, t: int)
    requires qm.Valid() && qm.Idle()
    requires t0 >= start
    requires |s.passes| >= MaxChecks
    modifies qm
    ensures qm.Valid() && qm.Idle()
    ensures t >= t0
    ensures Paced(passes) && |passes| <= MaxChecks && Recorded(s, passes)
    ensures last.NotReady? ==> t - start >= MaxWaitMs && NoneReady(s, |passes|)
    ensures !last.NotReady? ==> passes != [] && NoneReady(s, |passes| - 1) && last == LookFor(s, |passes|) && passes[|passes| - 1].prepared
  {
    t := t0;
    passes, last := [], NotReady;
    while t - start < MaxWaitMs
      invariant qm.Valid() && qm.Idle()
      invariant t >= t0
      invariant Polled(s, start, t, passes)
      decreases MaxWaitMs - (t - start)
    {
      var look;
      look, passes, t := PollPass(qm, s, start, t, passes);
      if !look.NotReady? {
        return look, passes, t;
      }
    }
  }

  // ---------------------------------------------------------------------------
  // The cog
  // ---------------------------------------------------------------------------

  /** How a job ends. */
  datatype Delivery =
    | Delivered(jobId: Json, content: seq<bv8>, params: Json, checks: nat)  // the image was posted with the view of its parameters
    | TimedOut(jobId: Json, checks: nat)                                    // the Check Status button holds the job id
    | Failed(message: string, checks: nat)                                  // the status shows the error
    | Escaped                                                               // `deep_update` raised before any message

  /** The status the message is left with, for each way the job ends. */
  predicate EndsWith(r: Delivery, last: Status)
  {
    match r
    case Delivered(_, _, _, _) => last.Generated?
    case TimedOut(_, _) => last == TimeoutReached
    case Failed(message, _) => last == ErrorShown(message)
    case Escaped => false
  }

  /** `not generate_response["success"]` fails: the service accepted the job. */
  predicate SubmitAccepted(submit: Call)
  {
    Truthy(GenerateImage(submit.reply).fields["success"])
  }

  /** The fields of `params["params"]` the job summary shows. */
  const SummaryKeys: set<string> := {"width", "height", "steps", "cfg_scale", "sampler_name", "seed"}

  /**
   * The job summary (lines 464-471) can be built: `params["params"]` is a
   * dictionary with the shown fields and `params["models"][0]` exists, which
   * needs a non-empty list or string.
   */
  predicate SummaryReadable(params: Json)
  {
    && params.JObj? && "params" in params.fields && "models" in params.fields
    && params.fields["params"].JObj? && SummaryKeys <= params.fields["params"].fields.Keys
    && ((params.fields["models"].JArr? && params.fields["models"].items != [])
        || (params.fields["models"].JStr? && params.fields["models"].s != []))
  }

  /** The exception raised when the service refuses the job (line 457); its text only reaches the log. */
  const SubmitRefused: Exception := OtherError("Failed to initiate image generation")

  /** The exception raised when the job summary cannot be built; its text only reaches the log. */
  const SummaryUnreadable: Exception := OtherError("params")

  /** The message with the image, when the check reports done: the view the cog attaches holds this prompt and these parameters. */
  datatype ManualCheck =
    | Ready(content: seq<bv8>, viewPrompt: string, viewParams: Json)
    | NotYet
    | AlreadyResponded
    | CheckRaised(error: Exception)

  /** The `ImageGeneration` cog; the only field it updates is its list of available models. */
  class ImageGenerationCog {
    var availableModels: set<string>

    /** `__init__`: no models until `initialize_models` has run. */
    constructor ()
      ensures availableModels == {}
    {
      availableModels := {};
    }

    /**
     * `get_available_models` on the captured output of test/workers.py: a
     * run that exits with an error raises (`None`); otherwise the loop reads
     * the image models from the output line by line.
     */
    method GetAvailableModels(stdout: string, exit: Workers.Exit) returns (r: Option<set<string>>)
      ensures r.None? <==> exit.Died?
      ensures r.Some? ==> r.value == ParseModels(stdout)
      ensures r.Some? ==> forall m :: m in r.value <==> Listed(Split(stdout, '\n'), m)
    {
      if exit.Died? {
        return None;
      }
      var lines := Split(stdout, '\n');
      var current: Option<string> := None;
      var models: set<string> := {};
      for i := 0 to |lines|
        invariant ScanState(current, models) == Scan(Unscanned, lines[..i])
      {
        assert lines[..i + 1][..i] == lines[..i];
        var line := Strip(lines[i]);
        if IsTypeLine(line) {
          current := Some(TypeValue(line));
        } else if IsModelLine(line) && current == Some("image") {
          models := models + {ModelName(line)};
        }
      }
      assert lines[..|lines|] == lines;
      ScanCollects(lines);
      r := Some(models);
    }

    /** `initialize_models`: the list is replaced by what `get_available_models` returns, and kept when it raises. */
    method InitializeModels(stdout: string, exit: Workers.Exit) returns (raised: bool)
      modifies this
      ensures raised <==> exit.Died?
      ensures !raised ==> availableModels == ParseModels(stdout)
      ensures raised ==> availableModels == old(availableModels)
    {
      var models := GetAvailableModels(stdout, exit);
      raised := models.None?;
      if !raised {
        availableModels := models.value;
      }
    }

    /**
     * `generate_and_send_image` for a prompt, custom parameters and the seed
     * the random draw gave, started at time `start` with the queue idle.
     * The job either escapes (when `deep_update` raises, before any message),
     * fails right after the submit, or polls: every pass before the last
     * finds the job not ready, and the last one either delivers the image,
     * raises into the error path, or is followed by the five-minute timeout.
     */
    method GenerateAndSendImage(qm: QueueManager, prompt: string, custom: Json, seed: nat, s: Service, start: int)
      returns (r: Delivery, shown: seq<Status>, passes: seq<PassView>, t: int)
      requires qm.Valid() && qm.Idle()
      requires |s.passes| >= MaxChecks
      modifies qm
      ensures qm.Valid() && qm.Idle()
      ensures t >= start
      ensures !r.Escaped? ==> r.checks <= MaxChecks
      ensures r.Escaped? <==> BuildParams(prompt, custom, seed).None?
      ensures r.Escaped? ==> shown == [] && passes == []
      ensures !r.Escaped? ==> |shown| >= 2 && shown[0] == Initializing && EndsWith(r, shown[|shown| - 1])
      ensures r.Failed? ==> r.message == ComputeMessage
      ensures r.Failed? && r.checks == 0 <==>
        BuildParams(prompt, custom, seed).Some? && !(SubmitAccepted(s.submit) && SummaryReadable(BuildParams(prompt, custom, seed).value))
      ensures r.Failed? && r.checks == 0 ==> shown == [Initializing, ErrorShown(ComputeMessage)] && passes == []
      ensures r.Delivered? || r.TimedOut? || (r.Failed? && r.checks > 0) ==>
        && SubmitAccepted(s.submit) && |passes| == r.checks && Paced(passes)
        && shown == [Initializing, InProgress] + Display(passes) + [shown[|shown| - 1]]
      ensures r.Delivered? || r.TimedOut? ==> r.jobId == GenerateImage(s.submit.reply).fields["id"]
      ensures r.Delivered? ==> BuildParams(prompt, custom, seed) == Some(r.params)
      ensures r.Delivered? ==>
        && 1 <= r.checks == |passes| && LookFor(s, r.checks) == Done(r.content)
        && passes[r.checks - 1].prepared && shown[|shown| - 1] == Generated(passes[r.checks - 1].elapsed)
      ensures r.Failed? && r.checks > 0 ==> r.checks == |passes| && LookFor(s, r.checks).Threw? && passes[r.checks - 1].prepared
      ensures r.Delivered? || r.Failed? ==> forall k :: 1 <= k < r.checks ==> LookFor(s, k).NotReady?
      ensures r.TimedOut? ==> t - start >= MaxWaitMs && forall k :: 1 <= k <= r.checks ==> LookFor(s, k).NotReady?
    {
      r, shown, passes, t := Launch(qm, prompt, BuildParams(prompt, custom, seed), s, start);
    }

    /**
     * `generate_and_send_image` from the outcome of building the parameters
     * on: nothing when building raised, otherwise the submit, then either the
     * error path right away or the polling loop and the message for the way
     * it ended.
     */
    method Launch(qm: QueueManager, prompt: string, built: Option<Json>, s: Service, start: int)
      returns (r: Delivery, shown: seq<Status>, passes: seq<PassView>, t: int)
      requires qm.Valid() && qm.Idle()
      requires built.Some? ==> built.value.JObj?
      requires |s.passes| >= MaxChecks
      modifies qm
      ensures qm.Valid() && qm.Idle()
      ensures t >= start
      ensures !r.Escaped? ==> r.checks <= MaxChecks
      ensures r.Escaped? <==> built.None?
      ensures r.Escaped? ==> shown == [] && passes == []
      ensures !r.Escaped? ==> |shown| >= 2 && shown[0] == Initializing && EndsWith(r, shown[|shown| - 1])
      ensures r.Failed? ==> r.message == ComputeMessage
      ensures r.Failed? && r.checks == 0 <==> built.Some? && !(SubmitAccepted(s.submit) && SummaryReadable(built.value))
      ensures r.Failed? && r.checks == 0 ==> shown == [Initializing, ErrorShown(ComputeMessage)] && passes == []
      ensures r.Delivered? || r.TimedOut? || (r.Failed? && r.checks > 0) ==>
        && SubmitAccepted(s.submit) && |passes| == r.checks && Paced(passes)
        && shown == [Initializing, InProgress] + Display(passes) + [shown[|shown| - 1]]
      ensures r.Delivered? || r.TimedOut? ==> r.jobId == GenerateImage(s.submit.reply).fields["id"]
      ensures r.Delivered? ==> built == Some(r.params)
      ensures r.Delivered? ==>
        && 1 <= r.checks == |passes| && LookFor(s, r.checks) == Done(r.content)
        && passes[r.checks - 1].prepared && shown[|shown| - 1] == Generated(passes[r.checks - 1].elapsed)
      ensures r.Failed? && r.checks > 0 ==> r.checks == |passes| && LookFor(s, r.checks).Threw? && passes[r.checks - 1].prepared
      ensures r.Delivered? || r.Failed? ==> forall k :: 1 <= k < r.checks ==> LookFor(s, k).NotReady?
      ensures r.TimedOut? ==> t - start >= MaxWaitMs && forall k :: 1 <= k <= r.checks ==> LookFor(s, k).NotReady?
    {
      t, passes := start, [];
      if built.None? {
        return Escaped, [], passes, t;
      }
      var params := built.value;
      var raised, jobId;
      raised, jobId, t := Submit(qm, prompt, params, s.submit, t);
      if raised.Some? {
        r := Failed(ErrorMessage(raised.value), 0);
        return r, [Initializing, ErrorShown(r.message)], passes, t;
      }
      var rest;
      r, rest, passes, t := Follow(qm, s, jobId, params, start, t);
      shown := [Initializing, InProgress] + rest;
    }

    /**
     * Lines 452-471 of `generate_and_send_image`: the submit through the
     * queue, then the job summary. The job goes on only when the service
     * accepted it and the summary can be built; otherwise both raise into
     * the error path, which shows the compute message.
     */
    method Submit(qm: QueueManager, prompt: string, params: Json, submit: Call, t0: int)
      returns (raised: Option<Exception>, jobId: Json, t: int)
      requires qm.Valid() && qm.Idle()
      requires params.JObj?
      modifies qm
      ensures qm.Valid() && qm.Idle()
      ensures QueuedExactly(old(qm.log), qm.log, old(qm.nextFuture), qm.nextFuture, [Ok(GenerateImage(submit.reply))])
      ensures t >= t0
      ensures raised.None? <==> SubmitAccepted(submit) && SummaryReadable(params)
      ensures raised.Some? ==> raised.value.OtherError?
      ensures raised.None? ==> jobId == GenerateImage(submit.reply).fields["id"]
    {
      var sent, submitted;
      ghost var log0, next0 := qm.log, qm.nextFuture;
      sent, submitted, t := GenerateImageQueued(qm, prompt, params.fields, submit, t0);
      QueuedFirst(log0, next0, qm.log);
      var response := submitted.value;
      if !Truthy(response.fields["success"]) {
        return Some(SubmitRefused), EmptyObject, t;
      }
      jobId := response.fields["id"];
      if !SummaryReadable(params) {
        return Some(SummaryUnreadable), jobId, t;
      }
      raised := None;
    }

    /**
     * The rest of `generate_and_send_image` once the job is accepted and its
     * summary shown: the polling loop, then the message for the way it ended.
     */
    method Follow(qm: QueueManager, s: Service, jobId: Json, params: Json, start: int, t0: int)
      returns (r: Delivery, shown: seq<Status>, passes: seq<PassView>, t: int)
      requires qm.Valid() && qm.Idle()
      requires t0 >= start
      requires |s.passes| >= MaxChecks
      modifies qm
      ensures qm.Valid() && qm.Idle()
      ensures t >= t0
      ensures !r.Escaped? && r.checks == |passes| <= MaxChecks && Paced(passes)
      ensures |shown| >= 1 && shown == Display(passes) + [shown[|shown| - 1]] && EndsWith(r, shown[|shown| - 1])
      ensures r.Delivered? || r.TimedOut? ==> r.jobId == jobId
      ensures r.Delivered? ==>
        && r.params == params && r.checks >= 1 && LookFor(s, r.checks) == Done(r.content)
        && passes[r.checks - 1].prepared && shown[|shown| - 1] == Generated(passes[r.checks - 1].elapsed)
      ensures r.Failed? ==> r.checks > 0 && r.message == ComputeMessage && LookFor(s, r.checks).Threw? && passes[r.checks - 1].prepared
      ensures r.Delivered? || r.Failed? ==> forall k :: 1 <= k < r.checks ==> LookFor(s, k).NotReady?
      ensures r.TimedOut? ==> t - start >= MaxWaitMs && forall k :: 1 <= k <= r.checks ==> LookFor(s, k).NotReady?
    {
      var last;
      last, passes, t := PollUntilSettled(qm, s, start, t0);
      var checks := |passes|;
      var display := Display(passes);
      match last
      case Done(content) =>
        r := Delivered(jobId, content, params, checks);
        shown := display + [Generated(passes[checks - 1].elapsed)];
      case Threw(e) =>
        r := Failed(ErrorMessage(e), checks);
        shown := display + [ErrorShown(r.message)];
      case NotReady =>
        r := TimedOut(jobId, checks);
        shown := display + [TimeoutReached];
    }

    /**
     * `check_generation_status`, behind the Check Status button of a job that
     * timed out: exactly one status check and, when it reports done, one
     * retrieval and one download. As written, the view attached to the image
     * gets the status text as its prompt and no parameters, and a job that is
     * done without a usable image answers the interaction a second time, which
     * Discord refuses.
     */
    method CheckGenerationStatus(qm: QueueManager, c: Calls, now: int)
      returns (r: ManualCheck, shown: seq<Status>, t: int)
      requires qm.Valid() && qm.Idle()
      modifies qm
      ensures qm.Valid() && qm.Idle()
      ensures QueuedExactly(old(qm.log), qm.log, old(qm.nextFuture), qm.nextFuture, QueuedOutcomes(c))
      ensures t >= now
      ensures r.NotYet? <==> !ReportsDone(CheckImageStatus(c.check.reply))
      ensures r.NotYet? ==> shown == [StillGenerating]
      ensures r.Ready? <==> LookWith(c).Done?
      ensures r.Ready? ==>
        && r.content == c.download.reply.content
        && r.viewPrompt == GeneratedSuccessfullyText && r.viewParams == EmptyObject
        && shown == [Confirmed, GeneratedSuccessfully]
      ensures r.CheckRaised? <==> LookWith(c).Threw?
      ensures r.CheckRaised? ==> r.error == LookWith(c).error && shown == [Confirmed]
      ensures r.AlreadyResponded? <==> ReportsDone(CheckImageStatus(c.check.reply)) && LookWith(c).NotReady?
      ensures r.AlreadyResponded? ==> shown == [Confirmed]
    {
      var look;
      look, t := LookThroughQueue(qm, c, now);
      if !ReportsDone(CheckImageStatus(c.check.reply)) {
        return NotYet, [StillGenerating], t;
      }
      shown := [Confirmed];
      match look
      case Done(content) =>
        r, shown := Ready(content, GeneratedSuccessfullyText, EmptyObject), shown + [GeneratedSuccessfully];
      case Threw(e) =>
        r := CheckRaised(e);
      case NotReady =>
        r := AlreadyResponded;
    }
  }
}
