/**
 * test/workers.py: the script that lists the service's workers, run by the
 * cog as a subprocess whose standard output it parses. What `requests`
 * obtained from the workers endpoint is an input (`Response`), standard
 * output is the text the script writes, and the exit status says whether the
 * script finished or died with a traceback.
 */
module Workers {
  import opened Wrappers
  import opened Text

  /**
   * One worker entry of the listing, field by field as the script reads it:
   * a text field is `None` when the entry lacks it (it prints `N/A`);
   * `maintenance` and `paused` are the truth values of `maintenance_mode` and
   * `paused`; `maxPixels` is the integer `max_pixels` or `None` when absent;
   * `speed` is the printed `megapixelsteps_per_second` when it is present and
   * non-zero; `uptime`, `jobsCompleted` and `kudos` are integers when present.
   */
  datatype Worker = Worker(
    id: Option<string>,
    name: Option<string>,
    kind: Option<string>,
    maintenance: bool,
    paused: bool,
    models: seq<string>,
    performance: Option<string>,
    maxPixels: Option<int>,
    speed: Option<string>,
    uptime: Option<int>,
    jobsCompleted: Option<int>,
    kudos: Option<int>)

  /** The body of the answer: the decoded list of workers with its `json.dumps(..., indent=2)` text, or a body that is not JSON. */
  datatype ResponseBody = Listing(workers: seq<Worker>, dump: string) | Undecodable(error: string)

  /** What `requests.get` on the workers endpoint produced: an answer, or a `RequestException` with its text. */
  datatype Response = Answer(status: int, body: ResponseBody) | RequestError(error: string)

  /** How the script ended: it returned, or an uncaught exception ended it with a non-zero status. */
  datatype Exit = Finished | Died

  /** What the script wrote (one entry per line, each ended by a newline) and how it ended. */
  datatype Transcript = Transcript(lines: seq<string>, exit: Exit)

  /** Standard output for a run of printed lines: each line followed by a newline. */
  function Printed(lines: seq<string>): string
  {
    if lines == [] then "" else lines[0] + "\n" + Printed(lines[1..])
  }

  lemma {:induction false} PrintedAppend(a: seq<string>, b: seq<string>)
    ensures Printed(a + b) == Printed(a) + Printed(b)
    decreases |a|
  {
    if a == [] {
      assert a + b == b;
    } else {
      assert (a + b)[1..] == a[1..] + b;
      PrintedAppend(a[1..], b);
    }
  }

  lemma AppendAssoc(a: seq<string>, b: seq<string>, c: seq<string>)
    ensures (a + b) + c == a + (b + c)
  {
  }

  /** `worker.get(key, 'N/A')` as printed. */
  function Shown(field: Option<string>): string
  {
    field.GetOr("N/A")
  }

  /** `if worker.get(key):` for an integer field. */
  predicate Nonzero(field: Option<int>)
  {
    field.Some? && field.value != 0
  }

  /** `"-" * 40`. */
  const Rule: string := Repeat('-', 40)

  /** The lines listing the supported models. */
  function ModelLines(models: seq<string>): (r: seq<string>)
    ensures |r| == |models| && forall i :: 0 <= i < |models| ==> r[i] == "  * " + models[i]
  {
    seq(|models|, i requires 0 <= i < |models| => "  * " + models[i])
  }

  /** The performance and pixel lines, printed for every worker. */
  function CapacityLines(w: Worker): seq<string>
  {
    ["Performance: " + Shown(w.performance),
     "Max Pixels: " + (if w.maxPixels.Some? then Grouped(w.maxPixels.value) else "N/A")]
  }

  /** The speed line, printed when the worker reports a speed. */
  function SpeedLines(w: Worker): seq<string>
  {
    if w.speed.Some? then ["Speed: " + w.speed.value + " megapixelsteps/second"] else []
  }

  /** The uptime line, printed when the uptime is present and not zero. */
  function UptimeLines(w: Worker): seq<string>
  {
    if Nonzero(w.uptime) then ["Uptime: " + IntToString(w.uptime.value) + " seconds"] else []
  }

  /** The completed-jobs line, printed when the count is present and not zero. */
  function JobsLines(w: Worker): seq<string>
  {
    if Nonzero(w.jobsCompleted) then ["Jobs Completed: " + IntToString(w.jobsCompleted.value)] else []
  }

  /** The kudos line, printed when the kudos are present and not zero. */
  function KudosLines(w: Worker): seq<string>
  {
    if Nonzero(w.kudos) then ["Kudos: " + Grouped(w.kudos.value)] else []
  }

  /** The lines after the models: performance, pixels and the optional statistics. */
  function DetailLines(w: Worker): seq<string>
  {
    CapacityLines(w) + SpeedLines(w) + UptimeLines(w) + JobsLines(w) + KudosLines(w)
  }

  /** The blank line, the heading with the worker's number, its id and its name. */
  function IdentityLines(index: nat, w: Worker): seq<string>
  {
    ["", "[Worker " + NatToString(index) + "]", "ID: " + Shown(w.id), "Name: " + Shown(w.name)]
  }

  /** The maintenance and pause state, then the heading of the model list. */
  function StateLines(w: Worker): seq<string>
  {
    ["Status: " + (if w.maintenance then "[M] Maintenance" else "[A] Active"),
     "Operation: " + (if w.paused then "[P] Paused" else "[R] Running"),
     "Supported Models:"]
  }

  /** The lines before the models: the worker's number, identity, type and state. */
  function HeadLines(index: nat, w: Worker): seq<string>
  {
    IdentityLines(index, w) + ["Type: " + Shown(w.kind)] + StateLines(w)
  }

  /** The block printed for the worker numbered `index` (from 1). */
  function WorkerLines(index: nat, w: Worker): seq<string>
  {
    HeadLines(index, w) + ModelLines(w.models) + DetailLines(w) + [Rule]
  }

  /** The blocks of the workers `ws`, numbered from 1. */
  function Blocks(ws: seq<Worker>): seq<string>
  {
    if ws == [] then [] else Blocks(ws[..|ws| - 1]) + WorkerLines(|ws|, ws[|ws| - 1])
  }

  /** The blocks of the first `index` workers: those of the first `index - 1`, then the block of worker `index`. */
  lemma BlocksStep(ws: seq<Worker>, index: nat)
    requires 1 <= index <= |ws|
    ensures Blocks(ws[..index]) == Blocks(ws[..index - 1]) + WorkerLines(index, ws[index - 1])
  {
    assert ws[..index][..index - 1] == ws[..index - 1];
  }

  /** `not w.get('maintenance_mode') and not w.get('paused')`. */
  predicate Active(w: Worker)
  {
    !w.maintenance && !w.paused
  }

  /** How many of `ws` are active. */
  function ActiveCount(ws: seq<Worker>): nat
  {
    if ws == [] then 0 else ActiveCount(ws[..|ws| - 1]) + (if Active(ws[|ws| - 1]) then 1 else 0)
  }

  /** The active count is at most the number of workers, and equals it exactly when every worker is active. */
  lemma {:induction false} ActiveCountBounds(ws: seq<Worker>)
    ensures ActiveCount(ws) <= |ws|
    ensures ActiveCount(ws) == |ws| <==> forall i :: 0 <= i < |ws| ==> Active(ws[i])
  {
    if ws != [] {
      var init := ws[..|ws| - 1];
      ActiveCountBounds(init);
      if forall i :: 0 <= i < |ws| ==> Active(ws[i]) {
        forall i | 0 <= i < |init| ensures Active(init[i]) {
          assert init[i] == ws[i];
        }
      }
      if ActiveCount(ws) == |ws| {
        forall i | 0 <= i < |ws| ensures Active(ws[i]) {
          if i < |ws| - 1 {
            assert ws[i] == init[i];
          }
        }
      }
    }
  }

  /** The active count adds up over a split of the workers. */
  lemma {:induction false} ActiveCountAppend(a: seq<Worker>, b: seq<Worker>)
    ensures ActiveCount(a + b) == ActiveCount(a) + ActiveCount(b)
    decreases |b|
  {
    if b == [] {
      assert a + b == a;
    } else {
      var b' := b[..|b| - 1];
      assert (a + b)[..|a + b| - 1] == a + b';
      ActiveCountAppend(a, b');
    }
  }

  /** The script without a configured base URL: the header, then the complaint. */
  const MissingUrlLine := "Error: API_ENDPOINT is not set in the environment variables."

  /** The two lines the `RequestException` handler prints. */
  function RequestErrorLines(error: string): seq<string>
  {
    ["An error occurred while fetching workers: " + error, "Error details: " + error]
  }

  /** `t` preceded by the lines `pre`. */
  function After(pre: seq<string>, t: Transcript): Transcript
  {
    Transcript(pre + t.lines, t.exit)
  }

  /** The report on a decoded listing (lines 44-84): the blocks, then the totals. */
  function Report(ws: seq<Worker>, performance: Option<string>): Transcript
  {
    var listed := ["", "=== Available Workers ==="] + Blocks(ws) + ["", "Total workers: " + NatToString(|ws|)];
    if performance.None? then Transcript(listed, Died)
    else Transcript(listed + ["Active workers: " + NatToString(ActiveCount(ws)),
                              "Total performance: " + performance.value + " megapixelsteps per second"], Finished)
  }

  /** What follows the status line of an answer with status 200. */
  function Accepted(body: ResponseBody, performance: Option<string>): Transcript
  {
    match body
    case Undecodable(e) => Transcript(RequestErrorLines(e), Finished)
    case Listing(ws, _) => Report(ws, performance)
  }

  /** What follows the status line of an answer with any other status (lines 85-87). */
  function Refused(status: int, body: ResponseBody): Transcript
  {
    After(["Error: API response status is " + IntToString(status)],
      match body
      case Undecodable(e) => Transcript(RequestErrorLines(e), Finished)
      case Listing(_, dump) => Transcript(["Response: " + dump], Finished))
  }

  /** What follows the announcement of the request. */
  function Fetched(response: Response, performance: Option<string>): Transcript
  {
    match response
    case RequestError(e) => Transcript(RequestErrorLines(e), Finished)
    case Answer(status, body) =>
      After(["Response status code: " + IntToString(status)],
        if status == 200 then Accepted(body, performance) else Refused(status, body))
  }

  /**
   * What the script writes and how it ends, for the base URL it reads from
   * the environment, what the workers endpoint produced, and `performance`,
   * the printed total of the image workers' performance (`None` when `float`
   * refuses one of their performance texts, which ends the script). It
   * always starts by echoing the base URL; without one it complains and
   * stops there, and with one it announces the endpoint it fetches.
   */
  function Script(base: Option<string>, response: Response, performance: Option<string>): (r: Transcript)
    ensures |r.lines| >= 2 && r.lines[0] == "API_BASE_URL: " + base.GetOr("None")
    ensures base.None? || base.value == "" ==> |r.lines| == 2 && r.lines[1] == MissingUrlLine && r.exit == Finished
    ensures base.Some? && base.value != "" ==>
      && |r.lines| >= 4
      && r.lines[1] == "Attempting to access endpoint: " + base.value + "/api/v2/workers"
      && r.lines[2] == "Fetching available workers..."
  {
    var header := ["API_BASE_URL: " + base.GetOr("None")];
    if base.None? || base.value == "" then Transcript(header + [MissingUrlLine], Finished)
    else
      After(header + ["Attempting to access endpoint: " + base.value + "/api/v2/workers", "Fetching available workers..."],
        Fetched(response, performance))
  }

  /** `print(line)`: appends the line and a newline to standard output. */
  method Print(out: string, ghost lines: seq<string>, line: string) returns (out': string, ghost lines': seq<string>)
    requires out == Printed(lines)
    ensures lines' == lines + [line] && out' == Printed(lines')
  {
    out' := out + line + "\n";
    lines' := lines + [line];
    PrintedAppend(lines, [line]);
  }

  /** The counting in line 81: how many workers are neither in maintenance nor paused. */
  method CountActive(ws: seq<Worker>) returns (count: nat)
    ensures count == ActiveCount(ws)
  {
    count := 0;
    for i := 0 to |ws|
      invariant count == ActiveCount(ws[..i])
    {
      assert ws[..i + 1][..i] == ws[..i];
      if !ws[i].maintenance && !ws[i].paused {
        count := count + 1;
      }
    }
    assert ws[..|ws|] == ws;
  }

  /** The heading, identity and state lines of one worker (lines 45-51). */
  method PrintHead(out: string, ghost lines: seq<string>, index: nat, w: Worker) returns (out': string, ghost lines': seq<string>)
    requires out == Printed(lines)
    ensures lines' == lines + HeadLines(index, w) && out' == Printed(lines')
  {
    out', lines' := out, lines;
    // print(f"\n[Worker {index}]") writes an empty line, then the heading
    out', lines' := Print(out', lines', "");
    out', lines' := Print(out', lines', "[Worker " + NatToString(index) + "]");
    out', lines' := Print(out', lines', "ID: " + w.id.GetOr("N/A"));
    out', lines' := Print(out', lines', "Name: " + w.name.GetOr("N/A"));
    ghost var identified := lines';
    assert identified == lines + IdentityLines(index, w);
    out', lines' := Print(out', lines', "Type: " + w.kind.GetOr("N/A"));
    ghost var typed := lines';
    out', lines' := Print(out', lines', "Status: " + (if w.maintenance then "[M] Maintenance" else "[A] Active"));
    out', lines' := Print(out', lines', "Operation: " + (if w.paused then "[P] Paused" else "[R] Running"));
    out', lines' := Print(out', lines', "Supported Models:");
    assert lines' == typed + StateLines(w);
    AppendAssoc(lines, IdentityLines(index, w), ["Type: " + Shown(w.kind)]);
    AppendAssoc(lines, IdentityLines(index, w) + ["Type: " + Shown(w.kind)], StateLines(w));
  }

  /** The loop over the supported models (lines 52-53). */
  method PrintModels(out: string, ghost lines: seq<string>, models: seq<string>) returns (out': string, ghost lines': seq<string>)
    requires out == Printed(lines)
    ensures lines' == lines + ModelLines(models) && out' == Printed(lines')
  {
    out', lines' := out, lines;
    for i := 0 to |models|
      invariant out' == Printed(lines')
      invariant lines' == lines + ModelLines(models[..i])
    {
      out', lines' := Print(out', lines', "  * " + models[i]);
      assert ModelLines(models[..i + 1]) == ModelLines(models[..i]) + ["  * " + models[i]];
    }
    assert models[..|models|] == models;
  }

  /** The performance, pixel and statistics lines of one worker (lines 55-74). */
  method PrintDetails(out: string, ghost lines: seq<string>, w: Worker) returns (out': string, ghost lines': seq<string>)
    requires out == Printed(lines)
    ensures lines' == lines + DetailLines(w) && out' == Printed(lines')
  {
    out', lines' := out, lines;
    out', lines' := Print(out', lines', "Performance: " + w.performance.GetOr("N/A"));
    var maxPixels := if w.maxPixels.Some? then Grouped(w.maxPixels.value) else "N/A";
    out', lines' := Print(out', lines', "Max Pixels: " + maxPixels);
    ghost var fixed := lines';
    assert fixed == lines + CapacityLines(w);
    if w.speed.Some? {
      out', lines' := Print(out', lines', "Speed: " + w.speed.value + " megapixelsteps/second");
    }
    ghost var sped := lines';
    assert sped == fixed + SpeedLines(w);
    if w.uptime.Some? && w.uptime.value != 0 {
      out', lines' := Print(out', lines', "Uptime: " + IntToString(w.uptime.value) + " seconds");
    }
    ghost var timed := lines';
    assert timed == sped + UptimeLines(w);
    if w.jobsCompleted.Some? && w.jobsCompleted.value != 0 {
      out', lines' := Print(out', lines', "Jobs Completed: " + IntToString(w.jobsCompleted.value));
    }
    ghost var worked := lines';
    assert worked == timed + JobsLines(w);
    if w.kudos.Some? && w.kudos.value != 0 {
      out', lines' := Print(out', lines', "Kudos: " + Grouped(w.kudos.value));
    }
    assert lines' == worked + KudosLines(w);
    ghost var a, sp, up, jc := CapacityLines(w), SpeedLines(w), UptimeLines(w), JobsLines(w);
    AppendAssoc(lines, a, sp);
    AppendAssoc(lines, a + sp, up);
    AppendAssoc(lines, a + sp + up, jc);
    AppendAssoc(lines, a + sp + up + jc, KudosLines(w));
  }

  /** The block for one worker (lines 45-76), printed after `out`. */
  method PrintWorker(out: string, ghost lines: seq<string>, index: nat, w: Worker) returns (out': string, ghost lines': seq<string>)
    requires out == Printed(lines)
    ensures lines' == lines + WorkerLines(index, w) && out' == Printed(lines')
  {
    out', lines' := PrintHead(out, lines, index, w);
    out', lines' := PrintModels(out', lines', w.models);
    out', lines' := PrintDetails(out', lines', w);
    out', lines' := Print(out', lines', Rule);
    ghost var h, m, d := HeadLines(index, w), ModelLines(w.models), DetailLines(w);
    AppendAssoc(lines, h, m);
    AppendAssoc(lines, h + m, d);
    AppendAssoc(lines, h + m + d, [Rule]);
  }

  /** One pass of the loop over the workers: the block of worker `index` after those of the workers before it. */
  method PrintNextBlock(out: string, ghost lines: seq<string>, ghost start: seq<string>, ws: seq<Worker>, index: nat)
    returns (out': string, ghost lines': seq<string>)
    requires 1 <= index <= |ws|
    requires out == Printed(lines) && lines == start + Blocks(ws[..index - 1])
    ensures out' == Printed(lines') && lines' == start + Blocks(ws[..index])
  {
    out', lines' := PrintWorker(out, lines, index, ws[index - 1]);
    BlocksStep(ws, index);
    AppendAssoc(start, Blocks(ws[..index - 1]), WorkerLines(index, ws[index - 1]));
  }

  /** The two lines of the `RequestException` handler (lines 88-90). */
  method PrintRequestError(out: string, ghost lines: seq<string>, error: string) returns (out': string, ghost lines': seq<string>)
    requires out == Printed(lines)
    ensures lines' == lines + RequestErrorLines(error) && out' == Printed(lines')
  {
    out', lines' := Print(out, lines, "An error occurred while fetching workers: " + error);
    out', lines' := Print(out', lines', "Error details: " + error);
  }

  /** The loop over the workers (lines 44-76), numbering them from 1. */
  method PrintBlocks(out: string, ghost lines: seq<string>, ws: seq<Worker>) returns (out': string, ghost lines': seq<string>)
    requires out == Printed(lines)
    ensures lines' == lines + Blocks(ws) && out' == Printed(lines')
  {
    out', lines' := out, lines;
    for index := 1 to |ws| + 1
      invariant out' == Printed(lines')
      invariant lines' == lines + Blocks(ws[..index - 1])
    {
      out', lines' := PrintNextBlock(out', lines', lines, ws, index);
    }
    assert ws[..|ws|] == ws;
  }

  /** The listing of a decoded answer and its totals (lines 44-84). */
  method PrintReport(out: string, ghost lines: seq<string>, ws: seq<Worker>, performance: Option<string>)
    returns (out': string, ghost lines': seq<string>, exit: Exit)
    requires out == Printed(lines)
    ensures lines' == lines + Report(ws, performance).lines && out' == Printed(lines')
    ensures exit == Report(ws, performance).exit
  {
    out', lines' := Print(out, lines, "");
    out', lines' := Print(out', lines', "=== Available Workers ===");
    ghost var title := ["", "=== Available Workers ==="];
    assert lines' == lines + title;
    out', lines' := PrintBlocks(out', lines', ws);
    ghost var blocked := lines';
    out', lines' := Print(out', lines', "");
    out', lines' := Print(out', lines', "Total workers: " + NatToString(|ws|));
    ghost var total := ["", "Total workers: " + NatToString(|ws|)];
    assert lines' == blocked + total;
    ghost var listed := title + Blocks(ws) + total;
    AppendAssoc(lines, title, Blocks(ws));
    AppendAssoc(lines, title + Blocks(ws), total);
    assert lines' == lines + listed;
    var active := CountActive(ws);
    if performance.None? {
      return out', lines', Died;
    }
    out', lines' := Print(out', lines', "Active workers: " + NatToString(active));
    out', lines' := Print(out', lines', "Total performance: " + performance.value + " megapixelsteps per second");
    AppendAssoc(lines, listed, ["Active workers: " + NatToString(active), "Total performance: " + performance.value + " megapixelsteps per second"]);
    exit := Finished;
  }

  /** Everything after the request is announced (lines 35-90). */
  method PrintFetched(out: string, ghost lines: seq<string>, response: Response, performance: Option<string>)
    returns (out': string, ghost lines': seq<string>, exit: Exit)
    requires out == Printed(lines)
    ensures lines' == lines + Fetched(response, performance).lines && out' == Printed(lines')
    ensures exit == Fetched(response, performance).exit
  {
    if response.RequestError? {
      out', lines' := PrintRequestError(out, lines, response.error);
      return out', lines', Finished;
    }
    out', lines' := Print(out, lines, "Response status code: " + IntToString(response.status));
    ghost var status := lines';
    ghost var rest: Transcript;
    if response.status == 200 {
      rest := Accepted(response.body, performance);
      if response.body.Undecodable? {
        out', lines' := PrintRequestError(out', lines', response.body.error);
        exit := Finished;
      } else {
        out', lines', exit := PrintReport(out', lines', response.body.workers, performance);
      }
    } else {
      rest := Refused(response.status, response.body);
      out', lines' := Print(out', lines', "Error: API response status is " + IntToString(response.status));
      ghost var refused := lines';
      if response.body.Undecodable? {
        out', lines' := PrintRequestError(out', lines', response.body.error);
      } else {
        out', lines' := Print(out', lines', "Response: " + response.body.dump);
      }
      AppendAssoc(status, ["Error: API response status is " + IntToString(response.status)], lines'[|refused|..]);
      assert lines' == status + rest.lines;
      exit := Finished;
    }
    AppendAssoc(lines, ["Response status code: " + IntToString(response.status)], rest.lines);
  }

  /**
   * `get_available_workers`, with the module-level header print: writes
   * exactly the lines `Script` gives and ends as it says.
   */
  method GetAvailableWorkers(base: Option<string>, response: Response, performance: Option<string>)
    returns (out: string, exit: Exit)
    ensures out == Printed(Script(base, response, performance).lines)
    ensures exit == Script(base, response, performance).exit
  {
    ghost var lines: seq<string> := [];
    out := "";
    out, lines := Print(out, lines, "API_BASE_URL: " + base.GetOr("None"));
    if base.None? || base.value == "" {
      out, lines := Print(out, lines, MissingUrlLine);
      return out, Finished;
    }
    out, lines := Print(out, lines, "Attempting to access endpoint: " + base.value + "/api/v2/workers");
    out, lines := Print(out, lines, "Fetching available workers...");
    assert lines == ["API_BASE_URL: " + base.GetOr("None")]
      + ["Attempting to access endpoint: " + base.value + "/api/v2/workers", "Fetching available workers..."];
    out, lines, exit := PrintFetched(out, lines, response, performance);
  }

  /**
   * A listing that completes reports the number of workers and the number of
   * active ones (lines 78 and 84), after one block per worker.
   */
  lemma ListingCounts(base: string, ws: seq<Worker>, dump: string, performance: string)
    requires base != ""
    ensures var t := Script(Some(base), Answer(200, Listing(ws, dump)), Some(performance));
      && t.exit == Finished
      && |t.lines| >= 3
      && t.lines[|t.lines| - 3] == "Total workers: " + NatToString(|ws|)
      && t.lines[|t.lines| - 2] == "Active workers: " + NatToString(ActiveCount(ws))
  {
  }

  /**
   * Without a base URL the script prints its header and the complaint and
   * stops without contacting the service (lines 28-30); with one, a failed or
   * refused answer still ends the script normally (lines 41 and 87-93).
   */
  lemma ScriptExits(base: Option<string>, response: Response, performance: Option<string>)
    ensures base.None? || base.value == "" ==>
      Script(base, response, performance) == Transcript(["API_BASE_URL: " + base.GetOr("None"), MissingUrlLine], Finished)
    ensures Script(base, response, performance).exit == Died <==>
      base.Some? && base.value != "" && response.Answer? && response.status == 200 && response.body.Listing? && performance.None?
  {
  }

  /** No line of `lines` is a worker heading. */
  predicate NoHeading(lines: seq<string>)
  {
    forall i :: 0 <= i < |lines| ==> !StartsWith(lines[i], "[Worker ")
  }

  lemma NoHeadingAppend(a: seq<string>, b: seq<string>)
    requires NoHeading(a) && NoHeading(b)
    ensures NoHeading(a + b)
  {
    forall i | 0 <= i < |a + b|
      ensures !StartsWith((a + b)[i], "[Worker ")
    {
      if i < |a| {
        assert (a + b)[i] == a[i];
      } else {
        assert (a + b)[i] == b[i - |a|];
      }
    }
  }

  /** A line that starts with `p` is no worker heading when `p` starts with anything but `[`. */
  lemma NotHeading(p: string, x: string)
    requires p != [] && p[0] != '['
    ensures NoHeading([p + x])
  {
    assert (p + x)[0] == p[0];
  }

  /** What a refused answer prints after its status line: the status complaint, then the body or why it could not be read. */
  lemma RefusedLines(status: int, body: ResponseBody)
    ensures var r := Refused(status, body);
      && r.exit == Finished && 2 <= |r.lines| <= 3
      && r.lines[0] == "Error: API response status is " + IntToString(status)
      && NoHeading(r.lines)
  {
    var first := ["Error: API response status is " + IntToString(status)];
    NotHeading("Error: API response status is ", IntToString(status));
    match body
    case Undecodable(e) =>
      NotHeading("An error occurred while fetching workers: ", e);
      NotHeading("Error details: ", e);
      NoHeadingAppend(["An error occurred while fetching workers: " + e], ["Error details: " + e]);
      assert RequestErrorLines(e) == ["An error occurred while fetching workers: " + e] + ["Error details: " + e];
      NoHeadingAppend(first, RequestErrorLines(e));
    case Listing(_, dump) =>
      NotHeading("Response: ", dump);
      NoHeadingAppend(first, ["Response: " + dump]);
  }

  /**
   * An answer with a status other than 200 reports the status and the body
   * (or why the body could not be read) and lists no worker (lines 87-89):
   * the script ends normally and none of its lines is a worker heading.
   */
  lemma RefusedListsNoWorker(base: string, status: int, body: ResponseBody, performance: Option<string>)
    requires base != "" && status != 200
    ensures var t := Script(Some(base), Answer(status, body), performance);
      && t.exit == Finished
      && 6 <= |t.lines| <= 7
      && t.lines[4] == "Error: API response status is " + IntToString(status)
      && NoHeading(t.lines)
  {
    var pre := ["API_BASE_URL: " + base, "Attempting to access endpoint: " + base + "/api/v2/workers",
                "Fetching available workers...", "Response status code: " + IntToString(status)];
    var rest := Refused(status, body);
    assert Script(Some(base), Answer(status, body), performance) == Transcript(pre + rest.lines, rest.exit);
    RefusedLines(status, body);
    PreambleNoHeading(base, status);
    NoHeadingAppend(pre, rest.lines);
  }

  /** The four lines before a refusal are no worker headings. */
  lemma PreambleNoHeading(base: string, status: int)
    ensures NoHeading(["API_BASE_URL: " + base, "Attempting to access endpoint: " + base + "/api/v2/workers",
                       "Fetching available workers...", "Response status code: " + IntToString(status)])
  {
    var a, b, c, d := "API_BASE_URL: " + base, "Attempting to access endpoint: " + base + "/api/v2/workers",
                      "Fetching available workers...", "Response status code: " + IntToString(status);
    NotHeading("API_BASE_URL: ", base);
    NotHeading("Attempting to access endpoint: ", base + "/api/v2/workers");
    NotHeading("Fetching available workers...", "");
    NotHeading("Response status code: ", IntToString(status));
    assert "Fetching available workers..." + "" == c;
    assert "Attempting to access endpoint: " + (base + "/api/v2/workers") == b;
    NoHeadingAppend([a], [b]);
    NoHeadingAppend([a] + [b], [c]);
    NoHeadingAppend([a] + [b] + [c], [d]);
    assert [a, b, c, d] == [a] + [b] + [c] + [d];
  }
}
