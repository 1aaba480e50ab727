# AIPG image generation bot — verified model of its scheduling and polling core

This project models the core of a Discord bot that generates images on the AI
Power Grid service. It is written in Dafny 4.11 and checked by Dafny's verifier.

- **Rate-limited dispatcher** (`queue_manager.py`). `QueueManager` is a FIFO
  queue of tasks. It dispatches at most two tasks per window and sleeps 0.5 s
  while the window is full. A new window opens at the first pass 10 s or more
  after the current one opened. Two windows can follow each other closely, so
  up to four dispatches can fall within a short span across a window boundary. A task's future is resolved with its
  result or its exception.
- **Flux dispatcher.** The second `FluxQueueManager` starts a task only while
  none of its tasks is running. Its completion callback resolves the task's
  future. As written, it never starts one: launching raises
  `TypeError` (see "## Findings"); the model follows the evident intent.
- **Service calls** (`image_generation_utils.py`). Each call to the image
  service becomes a `{success, ...}` record. The three `*_queued` wrappers run
  the calls through the shared queue.
- **The cog** (`cogs/image_generation.py`):
  - the recursive `deep_update` merge of custom parameters onto the defaults;
  - the polling loop of `generate_and_send_image`, which ends delivered, timed
    out or failed;
  - the one-shot `check_generation_status`;
  - the progress emoji index;
  - the range checks of the dimension and steps dialogs;
  - the `!dream` prompt;
  - the parser that reads the image models from the worker listing.
- **The worker listing** (`test/workers.py`). This is the script whose
  standard output the cog parses. A round-trip lemma shows that the parser,
  run on the printed listing, yields exactly the models of the `image`
  workers.

## Modelling choices

- **Time** is an integer number of milliseconds. The clock is threaded through
  the methods as a parameter. `asyncio.sleep` advances it. A queued task carries
  its outcome and its duration.
- **The lock.** `add_to_queue` holds one lock from enqueue until it awaits its
  own future, so the lock is modelled as callers that run one after the other.
- **Futures** are write-once cells, stored in a map from future ids to cells.
- **Remote answers** are inputs. An HTTP exchange is an `Exchange` value: an
  answer with a status and a body, an unreachable service, or a crash. One job's
  remote side is a scripted `Service` that covers every pass the polling loop
  can make.
- **Discord output** becomes a sequence of `Status` values. These are the
  values the job's status message is edited to show, in order.
- **The 403 branch is unreachable.** The handler of `generate_and_send_image`
  (cogs/image_generation.py:529-540) gives an `HTTPError` with status 403 the
  "high resource usage" message and any other `HTTPError` an HTTP message. No
  exception raised inside the method is ever an `HTTPError`:
  - `image_generation_utils.py` turns every HTTP failure into a record;
  - the cog only raises plain `Exception`s.

  So every error path of `GenerationFlow.ImageGenerationCog.GenerateAndSendImage`
  ends with the "exceeded the compute" message. `GenerationFlow.ErrorMessage`
  still models the unreachable branches.
- **The `!dream` prompt** follows the corrected slice (see "Findings"); the
  slice as written at cogs/image_generation.py:401 is modelled beside it.

## Model

| member | source | states |
|---|---|---|
| Json.Get | image_generation_utils.py:52 | `dict.get(key, default)`: the stored value when the key is present, the default otherwise |
| Futures.Resolve | queue_manager.py:32-36 | setting a result or an exception succeeds exactly on a pending future, which then holds that outcome |
| Futures.ResolveOnce | queue_manager.py:32-36 | a resolved future keeps its first outcome and refuses a second one |
| RateWindow.NextDispatch | queue_manager.py:23-38 | the head is dispatched no earlier than the pass that starts at `now`, and the window count after it lies in 1..2 |
| RateWindow.NextDispatchCounts | queue_manager.py:24-31 | a dispatch either adds one to the current window or opens a new window at the dispatch time, at least 10 s after the old one started, with count 1; when the window did not open after the call, the dispatch falls within the 10 s of its window |
| RateWindow.NextDispatchImmediate | queue_manager.py:29-31 | a pass that finds room dispatches at once, in the refreshed window with one more dispatch |
| RateWindow.NextDispatchWhenBlocked | queue_manager.py:37-38 | a full window makes the head wait in 0.5 s sleeps until the first pass 10 s past the window start, which opens a new window at its own time and dispatches the head first |
| RateWindow.PollsToCover | queue_manager.py:38 | the number of 0.5 s sleeps that covers a positive wait: the smallest n with n·500 ms ≥ the wait |
| Queues.Drain | queue_manager.py:22-38 | draining a queue never leaves more than two dispatches in the window |
| Queues.DrainInOrder | queue_manager.py:16-36 | FIFO: the drain dispatches exactly the queued entries, in queue order, each resolved with its own task's outcome |
| Queues.DispatchKeepsWindowedLog | queue_manager.py:24-31 | one more dispatch keeps the rate invariant of the dispatch record: every two dispatches that are two or more apart lie in windows at least 10 s apart |
| Queues.DrainKeepsWindowedLog | queue_manager.py:23-38 | a whole drain keeps that rate invariant |
| Queues.DrainInWindows | queue_manager.py:23-38 | every dispatch of a drain happens within the 10 s of the window it is counted in |
| Queues.NoThreeInOneWindow | queue_manager.py:25-31 | no three dispatches of the record share a window start: at most two per window |
| Queues.ResetKeepsDrain | queue_manager.py:25-27 | a window reset when 10 s have passed does not change what the drain does |
| Queues.SleepKeepsDrain | queue_manager.py:37-38 | a blocked pass sleeps without changing the queue, the count or the window start, and brings the window's end closer |
| Queues.EnqueueKeepsConsistent | queue_manager.py:15-16 | appending a task under a fresh future keeps the manager's invariant (rate rule, FIFO record, fresh and distinct futures, resolved iff dispatched) |
| Queues.ResetKeepsConsistent | queue_manager.py:25-27 | a window reset keeps the invariant |
| Queues.DispatchKeepsConsistent | queue_manager.py:29-36 | popping the head into a window with room, counting it and resolving its future with its outcome keeps the invariant; no other future changes |
| Queues.QueueManager.constructor | queue_manager.py:6-10 | an empty queue, with the first window starting at construction time with count 0 |
| Queues.QueueManager.DispatchHead | queue_manager.py:29-36 | pops the head, adds one to the count, records the dispatch, resolves exactly the head's future with its outcome, and advances the clock by the task's duration |
| Queues.QueueManager.Pass | queue_manager.py:24-38 | one loop pass keeps the invariant and what is left to drain; it either dispatches the head or sleeps closer to the window's end |
| Queues.QueueManager.ProcessQueue | queue_manager.py:22-38 | returns with the queue empty; the window, the clock and the new dispatches are those of `Drain` |
| Queues.QueueManager.AddToQueue | queue_manager.py:12-20 | each call returns its own task's outcome; the task is appended under the next fresh future, which moves on by one, and the whole queue is drained |
| Queues.QueueManager.RunCoroutine | queue_manager.py:40-41 | on an idle manager, the task is dispatched once, under the next fresh future, at the time `NextDispatch` gives, and its outcome is returned |
| FluxQueues.FluxEnqueueKeeps | queue_manager.py:15-16 | enqueueing under a fresh future keeps the Flux invariant (at most one running, FIFO, resolved iff completed, no overlap) |
| FluxQueues.FluxLaunchKeeps | queue_manager.py:60-63 | launching the head while fewer than `max_concurrent` tasks run keeps the Flux invariant |
| FluxQueues.FluxCompleteKeeps | queue_manager.py:67-72 | the completion callback resolves the finished task's pending future with its outcome and keeps the invariant |
| FluxQueues.LastIsRunning | queue_manager.py:56-63 | with nothing queued, a running task is the only one and is the last enqueued, with its future pending |
| FluxQueues.LastIsResolved | queue_manager.py:67-72 | with nothing queued or running, the last enqueued task has completed and its future holds its outcome |
| FluxQueues.FluxQueueManager.constructor | queue_manager.py:54-56 | an empty manager: nothing queued, running or resolved |
| FluxQueues.FluxQueueManager.TaskDone | queue_manager.py:67-74 | `_task_done` resolves exactly the finished task's future with its outcome and moves the task to the completed ones |
| FluxQueues.FluxQueueManager.Pass | queue_manager.py:59-65 | one pass launches the head when no task runs, or sleeps 0.5 s and lets a finished task complete |
| FluxQueues.FluxQueueManager.ProcessQueue | queue_manager.py:58-65 | returns with the queue empty; the last launched task started at the return time |
| FluxQueues.FluxQueueManager.AwaitFuture | queue_manager.py:18 | awaiting a future returns at once when it is resolved, otherwise when its running task finishes |
| FluxQueues.FluxQueueManager.PendingIsRunning | queue_manager.py:56-63 | with nothing queued, a pending future belongs to the one running task |
| FluxQueues.FluxQueueManager.Enqueue | queue_manager.py:15-16 | appends the task under a fresh pending future |
| FluxQueues.FluxQueueManager.RunQueued | queue_manager.py:17-18 | drains the single queued entry and awaits it: its future holds its outcome and it is the last completed task |
| FluxQueues.FluxQueueManager.AddToQueue | queue_manager.py:12-20 | each call returns its own task's outcome; the task ran after the call began and the call returns when it finished |
| FluxQueues.FluxQueueManager.AddToQueueAsWritten | queue_manager.py:58-63 | as written, the first pass pops the entry and raises `TypeError`: no task starts, the popped future stays pending and the invariant is broken |
| FluxQueues.FluxQueueManager.RunCoroutine | queue_manager.py:40-41 | as `AddToQueue` |
| ImageGenerationUtils.Receive | image_generation_utils.py:39-43 | a decoded body is read only from an answer that `raise_for_status` lets through; a failing status is a request error that carries the response |
| ImageGenerationUtils.GenerateBody | image_generation_utils.py:26-32 | every default and every custom key is sent; a custom value wins over a default; the prompt always equals the argument |
| ImageGenerationUtils.GenerateImage | image_generation_utils.py:25-78 | success iff the service answered with a JSON object holding `id`; the success record carries `id` and `kudos` (null when absent); a failure record has `statusCode`, `errors` and `message`; an object without `id` passes on its own `errors` (default `[]`) and `message` (default "Unknown error"); a `RequestException` gives `errors` `[{"error": str(e)}]` and the message "Request failed: " + `str(e)`; any other exception gives the constant unexpected-error record |
| ImageGenerationUtils.GenerateImageStatus | image_generation_utils.py:56-78 | a failure's `statusCode` is the response's status, 0 without a response, 500 for an unexpected exception |
| ImageGenerationUtils.CheckImageStatus | image_generation_utils.py:80-116 | an answer holding both `done` and `is_possible` is returned whole plus `success`, which is true unless the answer carries its own `success`, which wins; any other answer or failure gives `success` false; its `statusCode` is the HTTP status for an error status or a dictionary body, 0 for an unreachable service or a body that is not JSON, 500 otherwise; its `message` is the dictionary's `message` (default "Unknown error"), the request error's text, or the unexpected-error text |
| ImageGenerationUtils.FirstImage | image_generation_utils.py:147-148 | `generations[0].get("img")` on a non-empty list; any other non-empty value raises |
| ImageGenerationUtils.RetrieveGeneratedImage | image_generation_utils.py:137-155 | a dictionary answer with non-empty `generations` gives the lookup of `generations[0].img` (`FirstImage`), one without gives `None`; a URL is returned only as `generations[0].img` of a successful answer; a request error gives `None`, another exception is re-raised |
| ImageGenerationUtils.DownloadImage | image_generation_utils.py:118-135 | success iff the status passes, with the body's bytes; otherwise "unknown error" with the status or 0 |
| ImageGenerationUtils.GenerateImageQueued | image_generation_utils.py:10-13 | sends `GenerateBody` through the shared queue, returns `generate_image`'s record, and is dispatched once, under the next fresh future, when the rate window allows |
| ImageGenerationUtils.CheckImageStatusQueued | image_generation_utils.py:15-18 | `check_image_status` through the shared queue, dispatched once under the next fresh future when the rate window allows |
| ImageGenerationUtils.RetrieveGeneratedImageQueued | image_generation_utils.py:20-23 | `retrieve_generated_image` through the shared queue, dispatched once under the next fresh future when the rate window allows |
| Workers.ModelLines | test/workers.py:52-54 | one `  * <model>` line per model, in order |
| Workers.ActiveCountBounds | test/workers.py:81 | the active count is at most the number of workers, and equals it iff every worker is active |
| Workers.CountActive | test/workers.py:81 | counts the workers with neither maintenance mode nor pause |
| Workers.Print | test/workers.py:33 | `print` appends the line and a newline to standard output |
| Workers.PrintHead | test/workers.py:45-52 | prints the worker heading, id, name, type, status and operation labels |
| Workers.PrintModels | test/workers.py:52-54 | prints the model lines |
| Workers.PrintDetails | test/workers.py:56-74 | prints performance and pixels, then speed, uptime, jobs and kudos when present and non-zero |
| Workers.PrintWorker | test/workers.py:45-76 | prints one worker's block, ended by the 40-dash rule |
| Workers.PrintNextBlock | test/workers.py:44-76 | prints the block of the next worker, numbered from 1 |
| Workers.PrintBlocks | test/workers.py:44-76 | prints the blocks of all workers, in order |
| Workers.PrintRequestError | test/workers.py:91-93 | prints the two lines of the `RequestException` handler |
| Workers.PrintReport | test/workers.py:42-85 | prints the listing and the totals; dies when a performance text is not a number |
| Workers.PrintFetched | test/workers.py:36-93 | prints the status line and then the listing, the refusal or the request error |
| Workers.Script | test/workers.py:14-93 | the output starts with the `API_BASE_URL` line; without a base URL the complaint follows and the script ends; with one the endpoint and "Fetching available workers..." lines follow |
| Workers.GetAvailableWorkers | test/workers.py:24-93 | the script's standard output and exit are those of the transcript `Script` |
| Workers.ListingCounts | test/workers.py:78-84 | `Total workers` is the number of workers and `Active workers` the active count |
| Workers.ScriptExits | test/workers.py:28-30 | without a base URL only the header and the complaint are printed; the script dies only on a listing whose performance cannot be summed |
| Workers.RefusedListsNoWorker | test/workers.py:87-89 | a status other than 200 prints the status and no worker heading |
| ImageGeneration.Merged | cogs/image_generation.py:582-588 | every key of `u` ends up in the result; non-dictionary values overwrite; a dictionary value is merged recursively into `d.get(k, {})`; keys of `d` absent from `u` keep their values; an empty `u` returns `d` unchanged |
| ImageGeneration.DeepUpdate | cogs/image_generation.py:582-588 | `deep_update` returns exactly when every dictionary it recurses into is a dictionary (otherwise it raises) |
| ImageGeneration.MergedIdempotent | cogs/image_generation.py:582-588 | applying the same update twice gives the same result |
| ImageGeneration.MergedIntoEmpty | cogs/image_generation.py:585 | merging into the `{}` default of a missing key yields the update itself |
| ImageGeneration.Seeded | cogs/image_generation.py:421-427 | the defaults with a fresh seed keep the default keys |
| ImageGeneration.BuildParams | cogs/image_generation.py:420-438 | the job's parameters: the defaults plus the custom keys, the custom non-dictionary values, the custom dictionaries merged into the seeded defaults, the seeded defaults for every key not customised, and the prompt; `None` exactly when `deep_update` raises |
| ImageGeneration.CustomParamWins | cogs/image_generation.py:432-433 | a custom value inside `params` overrides the default and the random seed; entries of `params` not customised keep their seeded defaults |
| ImageGeneration.ProgressIndex | cogs/image_generation.py:481 | the index always names one of the four emojis |
| ImageGeneration.ProgressMonotone | cogs/image_generation.py:473-482 | the index never decreases as time passes |
| ImageGeneration.ProgressStages | cogs/image_generation.py:473-481 | stage k is shown exactly from k·7.5 s until (k+1)·7.5 s, and the last stage from 22.5 s on |
| ImageGeneration.SetParam | cogs/image_generation.py:75-77 | sets one entry of `params`, leaving every other entry unchanged |
| ImageGeneration.ChangeDimensions | cogs/image_generation.py:68-84 | non-numeric input, out-of-range values and a regeneration with both dimensions set are told apart as the dialog does; a regeneration keeps every other field and every other parameter of the original |
| ImageGeneration.ChangeSteps | cogs/image_generation.py:100-114 | the same for the steps dialog: a regeneration sets `steps` and keeps every other field and parameter |
| ImageGeneration.DimensionsAccepted | cogs/image_generation.py:74 | the dimensions are accepted iff 512 ≤ width ≤ 1280 and 512 ≤ height ≤ 1280 |
| ImageGeneration.StepsAccepted | cogs/image_generation.py:105 | the steps are accepted iff 10 ≤ steps ≤ 150 |
| ImageGeneration.DreamPromptAsWritten | cogs/image_generation.py:401 | the slice as written is stripped, empty when nothing follows index 6, and no longer than the text after index 6 |
| ImageGeneration.DreamPromptLosesLetter | cogs/image_generation.py:401 | the slice as written drops the prompt's first letter when no space follows `!dream` |
| ImageGeneration.DreamPrompt | cogs/image_generation.py:401 | the prompt is stripped |
| ImageGeneration.DreamPromptIsRest | cogs/image_generation.py:401 | the prompt is exactly the stripped text after `!dream` |
| ImageGeneration.DreamPromptAgrees | cogs/image_generation.py:401 | when whitespace follows `!dream`, the corrected prompt and the slice as written agree |
| ImageGeneration.HandleDreamCommand | cogs/image_generation.py:399-407 | asks for a prompt iff the prompt is empty, otherwise generates with it |
| ImageGeneration.HandleDreamCommandAsWritten | cogs/image_generation.py:399-407 | when whitespace follows `!dream`, the handler's reply is the one the slice as written gives |
| ImageGeneration.TypeLineSplit | cogs/image_generation.py:600 | `line.split(":")[1]` of a `Type:` line is the text after the first colon, up to the next one |
| ImageGeneration.ScanCurrent | cogs/image_generation.py:596-600 | the type in effect is the one of the last `Type:` line |
| ImageGeneration.ParseModels | cogs/image_generation.py:595-605 | a model is in the set iff some line of the split output lists it under the type `image` |
| ImageGeneration.ScanCollects | cogs/image_generation.py:595-604 | a model is collected iff some stripped `*` line names it under a type whose value is `image` |
| GenerationFlow.ErrorMessage | cogs/image_generation.py:529-549 | 403 gets the resource message, another `HTTPError` the HTTP message, any other exception the compute message |
| GenerationFlow.LookAt | cogs/image_generation.py:489-514 | the image is obtained iff the check succeeded and reports done, a URL came back and the download passed; the job ends with an exception iff the check reports done and then the retrieval raises, or a URL came back and the download raises; so a null or empty URL and a download that did not pass keep polling |
| GenerationFlow.QueuedOutcomes | cogs/image_generation.py:487-494 | a look queues the status check, and the retrieval exactly when the check reports done |
| GenerationFlow.QueuedOneMore | image_generation_utils.py:10-23 | one more dispatch under the next fresh future extends the record of a look's dispatches by its outcome |
| GenerationFlow.LookThroughQueue | cogs/image_generation.py:487-514 | a look finds what `LookAt` gives, and exactly its queued calls reach the queue, in order |
| GenerationFlow.CheckThroughQueue | cogs/image_generation.py:487-489 | the status check reaches the queue once and tells whether the job is done |
| GenerationFlow.FetchThroughQueue | cogs/image_generation.py:494-514 | the retrieval reaches the queue once; then the download ends the look as `LookAt` says |
| GenerationFlow.PollOnce | cogs/image_generation.py:477-516 | one pass checks through the queue, prepares only when done, and sleeps the check interval unless it ends the job; exactly the status check, and the retrieval when the check reports done, reach the queue, in that order |
| GenerationFlow.PacedSpread | cogs/image_generation.py:476-516 | passes j−i apart are at least (j−i)·5 s apart |
| GenerationFlow.PacedBound | cogs/image_generation.py:476-516 | the loop makes at most 300 / 5 = 60 passes |
| GenerationFlow.ProgressNeverRegresses | cogs/image_generation.py:478-482 | the emoji shown never goes back from one pass to a later one |
| GenerationFlow.DisplayLast | cogs/image_generation.py:477-485 | the k-th pass shows check attempt k with its progress emoji and elapsed time |
| GenerationFlow.PollPass | cogs/image_generation.py:476-516 | one pass before the deadline extends the record of passes by one |
| GenerationFlow.PollUntilSettled | cogs/image_generation.py:476-516 | the loop ends within 60 passes: settled at the first pass that does not find the job not-ready, or not ready at any pass after the deadline |
| GenerationFlow.ImageGenerationCog.constructor | cogs/image_generation.py:354-357 | no models until the listing has been read |
| GenerationFlow.ImageGenerationCog.GetAvailableModels | cogs/image_generation.py:590-611 | raises iff the script failed; otherwise the models the parse loop collects |
| GenerationFlow.ImageGenerationCog.InitializeModels | cogs/image_generation.py:361-362 | stores the parsed models, or keeps the old list when the listing raised |
| GenerationFlow.ImageGenerationCog.Submit | cogs/image_generation.py:452-470 | the job proceeds iff the service accepted it and the summary fields exist; it proceeds with the returned id; exactly one dispatch, the submit, reaches the queue |
| GenerationFlow.ImageGenerationCog.Follow | cogs/image_generation.py:472-527 | the polling loop and its end: delivered at the first done pass, failed at a raising one, or timed out after the deadline holding the same job id |
| GenerationFlow.ImageGenerationCog.GenerateAndSendImage | cogs/image_generation.py:409-549 | the status sequence starts with "Initializing" and ends with the outcome's status; delivery needs the four conditions; every error shows the compute message; a timeout keeps the job id |
| GenerationFlow.ImageGenerationCog.Launch | cogs/image_generation.py:409-549 | as `GenerateAndSendImage`, from the outcome of building the parameters on |
| GenerationFlow.ImageGenerationCog.CheckGenerationStatus | cogs/image_generation.py:551-580 | one check, retrieve and download: ready iff all pass; "still being generated" iff the check does not report done; exactly the status check, and the retrieval when it reports done, reach the queue |
| ModelListing.ImageModelsMembership | cogs/image_generation.py:601-603 | a model is an image model iff some worker of type `image` supports it |
| ModelListing.ScanBlock | test/workers.py:45-76 | a worker's block sets the type in effect to the worker's type and adds its models exactly when that type is `image` |
| ModelListing.ScanBlocks | cogs/image_generation.py:597-604 | reading all worker blocks adds exactly the image workers' models |
| ModelListing.ListingRoundTrip | test/workers.py:44-54 | the cog's parser, run on the printed listing, yields exactly the models of the `image` workers |
| Text.LStripFacts | cogs/image_generation.py:598 | `lstrip` removes exactly the leading whitespace |
| Text.RStripFacts | cogs/image_generation.py:598 | `rstrip` removes exactly the trailing whitespace |
| Text.StripClean | cogs/image_generation.py:598 | a stripped text is clean, and stripping a clean text changes nothing |
| Text.Repeat | test/workers.py:76 | `"-" * 40` is 40 dashes |
| Text.JoinSplit | cogs/image_generation.py:597 | splitting on `\n` loses nothing: joining the pieces gives the text back |
| Text.GroupedDigits | test/workers.py:60 | the `,` thousands format is the decimal digits with commas added |
| Text.ParseIntToString | cogs/image_generation.py:71-72 | `int(str(i)) == i` |

## Left out

- The Discord UI is not modelled: embeds, views, buttons, modals, mentions,
  deleting messages and attaching files. The status message is the sequence of
  its `Status` values.
- HTTP and `subprocess.run` are not modelled. Their results are inputs.
- `GenerationFlow.ImageGenerationCog.GenerateAndSendImage` assumes that writing
  the downloaded image to `generated_images/` (cogs/image_generation.py:497-500)
  succeeds. A failed write would raise into the handler at lines 542-549 and
  show the compute message; that path is not modelled.
- `GenerationFlow.ImageGenerationCog.CheckGenerationStatus` assumes the same
  write (lines 564-566) succeeds. A failed write would raise out of the
  button callback; that path is not modelled.
- Exception texts that only reach the log are not modelled.
- Floats are not modelled:
  - `time.time()` is integer milliseconds;
  - the elapsed time shown is in milliseconds;
  - the listing's total performance is an input string;
  - `cfg_scale` is kept as a decimal value.
- The random seed is an input.
- `Workers.PrintDetails`: `kudos` and `max_pixels` are integers or absent. A
  float `kudos` (printed with grouping, as in `1,234.5`, at test/workers.py:74)
  and a present `max_pixels` that is not an integer (printed with `str()`, at
  line 62) are not modelled.
- `ImageGeneration.HandleDreamCommand` uses the corrected prompt
  (`ImageGeneration.DreamPrompt`), not the slice as written at
  cogs/image_generation.py:401. The two agree whenever whitespace follows
  `!dream` (`ImageGeneration.HandleDreamCommandAsWritten`).
- `Text.ParseInt` accepts only ASCII digits. Python's `int()` also accepts the
  decimal digits of other scripts.
- `Workers.GetAvailableWorkers`: the JSON decoding of the response is not
  modelled. The decoded workers and the body's `json.dumps` text are inputs. A
  status-200 body that is not a list of objects cannot be represented: the
  script would die with an exception (for a non-empty list or dictionary,
  an `AttributeError` right after printing `[Worker 1]`; test/workers.py:43-45). So `Workers.ScriptExits`' "dies only when the
  performance cannot be summed" holds for the modelled bodies only.
- `ModelListing.ListingRoundTrip` assumes three things:
  - printed fields hold no line break, so text-mode newline translation is not
    modelled;
  - types and model names carry no surrounding whitespace;
  - types hold no `:`.
- `GenerationFlow.ImageGenerationCog.GetAvailableModels` returns the set of
  models rather than a list in arbitrary order.
- `GenerationFlow.ImageGenerationCog.GenerateAndSendImage`: the scripted
  `Service` must cover 60 passes, the most the loop can make.
- Other parts of the cog are not modelled: the seed, cfg-scale, sampler, model
  and prompt dialogs, the Flux generation path, and the `list_models` command.
  They are UI around the modelled operations.
- The rate-window fields that `FluxQueueManager` inherits are not modelled: it
  never reads them.
- Calling the coroutine object at queue_manager.py:62 is listed under
  "## Findings"; the rest of the Flux model launches the coroutine as meant.
- The `debug` call without an import (queue_manager.py:74) is not modelled. It
  raises only after the future has been resolved, inside a callback whose
  exceptions the event loop swallows.
- The first `FluxQueueManager` definition (queue_manager.py:46-51) is not
  modelled: it is dead code, replaced by the second definition.

## Findings

| source | as written | input that shows it | evidently intended | confidence | as-written member | corrected member |
|---|---|---|---|---|---|---|
| queue_manager.py:62 | `asyncio.create_task(coroutine(), ...)` calls the coroutine object | any Flux submission (cogs/image_generation.py:327 passes `flux_task()`): `TypeError` right after `popleft()`, no task starts, the popped future stays pending, and the user gets the queuing error of lines 328-331 | `asyncio.create_task(coroutine, ...)` | not executed | FluxQueues.FluxQueueManager.AddToQueueAsWritten | FluxQueues.FluxQueueManager.Pass |
| cogs/image_generation.py:401 | `message.content[7:].strip()` assumes a space after `!dream` | the message `!dreamcastle`: `on_message` accepts it, and the prompt becomes `astle` | the stripped text after the six characters of `!dream` | not executed | ImageGeneration.DreamPromptLosesLetter | ImageGeneration.DreamPromptIsRest |
