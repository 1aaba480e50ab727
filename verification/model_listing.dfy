/**
 * The round trip between test/workers.py and the cog's model list: the set
 * `get_available_models` reads from the script's standard output, for an
 * answer that lists the workers, is exactly the set of models of the
 * workers whose type is `image`.
 *
 * The statement needs each printed field to stay on its own line (no line
 * break inside it), the type and the model names to carry no surrounding
 * whitespace (the cog strips it), and the type to hold no `:` (the cog keeps
 * only the piece between the first and the second colon).
 */
module ModelListing {
  import opened Wrappers
  import opened Text
  import opened Workers
  import opened ImageGeneration

  // ---------------------------------------------------------------------------
  // What the listing should yield
  // ---------------------------------------------------------------------------

  /** The models a worker contributes: all of its models when its type is `image`, none otherwise. */
  function BlockModels(w: Worker): set<string>
  {
    if w.kind == Some("image") then set m | m in w.models else {}
  }

  /** The models of the image workers among `ws`. */
  function ImageModels(ws: seq<Worker>): set<string>
  {
    if ws == [] then {} else ImageModels(ws[..|ws| - 1]) + BlockModels(ws[|ws| - 1])
  }

  /** A model is an image model exactly when some worker of type `image` supports it. */
  lemma {:induction false} ImageModelsMembership(ws: seq<Worker>, m: string)
    ensures m in ImageModels(ws) <==> exists i :: 0 <= i < |ws| && ws[i].kind == Some("image") && m in ws[i].models
  {
    if ws != [] {
      var n := |ws| - 1;
      var init := ws[..n];
      ImageModelsMembership(init, m);
      if exists i :: 0 <= i < |ws| && ws[i].kind == Some("image") && m in ws[i].models {
        var i :| 0 <= i < |ws| && ws[i].kind == Some("image") && m in ws[i].models;
        if i < n {
          assert init[i] == ws[i];
        }
      }
      if exists i :: 0 <= i < |init| && init[i].kind == Some("image") && m in init[i].models {
        var i :| 0 <= i < |init| && init[i].kind == Some("image") && m in init[i].models;
        assert ws[i] == init[i];
      }
    }
  }

  // ---------------------------------------------------------------------------
  // Lines that print on one line and that the cog skips
  // ---------------------------------------------------------------------------

  /** A text holding no line break: neither the split on `\n` nor the text-mode pipe cuts it. */
  predicate OneLine(s: string)
  {
    '\n' !in s && '\r' !in s
  }

  /** A worker whose block prints one line per entry, with a type and model names the cog reads back unchanged. */
  predicate Printable(w: Worker)
  {
    && (w.id.Some? ==> OneLine(w.id.value))
    && (w.name.Some? ==> OneLine(w.name.value))
    && (w.kind.Some? ==> OneLine(w.kind.value) && Clean(w.kind.value) && ':' !in w.kind.value)
    && (forall m :: m in w.models ==> OneLine(m) && Clean(m))
    && (w.performance.Some? ==> OneLine(w.performance.value))
    && (w.speed.Some? ==> OneLine(w.speed.value))
  }

  /** A line that strips to neither a type line nor a model line: empty, or starting with a character other than whitespace, `*` and the `Ty` of `Type:`. */
  predicate Neutral(line: string)
  {
    line == [] || (!IsSpace(line[0]) && line[0] != '*' && !(|line| >= 2 && line[0] == 'T' && line[1] == 'y'))
  }

  /** Lines that each print on one line and are neutral. */
  predicate Plain(lines: seq<string>)
  {
    forall l :: l in lines ==> OneLine(l) && Neutral(l)
  }

  /** The start of a line that makes it neutral, whatever one-line text follows it. */
  predicate Lead(p: string)
  {
    && p != [] && OneLine(p) && !IsSpace(p[0]) && p[0] != '*'
    && (p[0] == 'T' ==> |p| >= 2 && p[1] != 'y')
  }

  lemma LeadJoin(p: string, x: string)
    requires Lead(p) && OneLine(x)
    ensures Lead(p + x) && Neutral(p + x)
  {
    assert (p + x)[0] == p[0];
    if |p| >= 2 {
      assert (p + x)[1] == p[1];
    }
  }

  lemma OneLineJoin(a: string, b: string)
    requires OneLine(a) && OneLine(b)
    ensures OneLine(a + b)
  {
  }

  lemma DigitsOneLine(s: string)
    requires forall i :: 0 <= i < |s| ==> IsDigit(s[i])
    ensures OneLine(s)
  {
    assert forall i :: 0 <= i < |s| ==> s[i] != '\n' && s[i] != '\r';
  }

  lemma IntToStringOneLine(i: int)
    ensures OneLine(IntToString(i))
  {
    DigitsOneLine(NatToString(if i < 0 then -i else i));
  }

  lemma {:induction false} GroupedNatOneLine(n: nat)
    ensures OneLine(GroupedNat(n))
  {
    if n < 1000 {
      DigitsOneLine(NatToString(n));
    } else {
      GroupedNatOneLine(n / 1000);
      DigitsOneLine(Pad3(n % 1000));
    }
  }

  lemma GroupedOneLine(i: int)
    ensures OneLine(Grouped(i))
  {
    GroupedNatOneLine(if i < 0 then -i else i);
  }

  lemma HeadLiterals()
    ensures Lead("[Worker ") && Lead("ID: ") && Lead("Name: ") && OneLine("]") && OneLine("N/A") && OneLine("Type: ")
  {
  }

  lemma StateLiterals()
    ensures Lead("Status: ") && Lead("Operation: ") && Lead("Supported Models:")
  {
  }

  lemma MaintenanceLiterals()
    ensures OneLine("[M] Maintenance") && OneLine("[A] Active")
  {
  }

  lemma PausedLiterals()
    ensures OneLine("[P] Paused") && OneLine("[R] Running")
  {
  }

  lemma DetailLiterals()
    ensures Lead("Performance: ") && Lead("Max Pixels: ")
  {
  }

  lemma SpeedLiterals()
    ensures Lead("Speed: ") && OneLine(" megapixelsteps/second")
  {
  }

  lemma StatisticsLiterals()
    ensures Lead("Uptime: ") && OneLine(" seconds") && Lead("Jobs Completed: ") && Lead("Kudos: ")
  {
  }

  lemma RuleLead()
    ensures Lead(Rule)
  {
    assert Rule[0] == '-' && Rule[1] == '-';
    forall i | 0 <= i < |Rule| ensures Rule[i] != '\n' && Rule[i] != '\r' {
      assert Rule[i] == '-';
    }
  }

  /** The number, id and name lines opening a worker's block are plain. */
  lemma IdentityFacts(index: nat, w: Worker)
    requires Printable(w)
    ensures Plain(IdentityLines(index, w))
  {
    HeadLiterals();
    var number := NatToString(index);
    DigitsOneLine(number);
    LeadJoin("[Worker ", number);
    LeadJoin("[Worker " + number, "]");
    LeadJoin("ID: ", Shown(w.id));
    LeadJoin("Name: ", Shown(w.name));
  }

  /** The state lines after the type line are plain. */
  lemma StateFacts(w: Worker)
    ensures Plain(StateLines(w))
  {
    StateLiterals();
    MaintenanceLiterals();
    PausedLiterals();
    LeadJoin("Status: ", if w.maintenance then "[M] Maintenance" else "[A] Active");
    LeadJoin("Operation: ", if w.paused then "[P] Paused" else "[R] Running");
    LeadJoin("Supported Models:", "");
    assert "Supported Models:" + "" == "Supported Models:";
  }

  /** Around its type line, the head of a worker's block is plain; the type line is one line. */
  lemma HeadFacts(index: nat, w: Worker)
    requires Printable(w)
    ensures Plain(IdentityLines(index, w)) && Plain(StateLines(w)) && OneLine("Type: " + Shown(w.kind))
  {
    IdentityFacts(index, w);
    StateFacts(w);
    HeadLiterals();
    OneLineJoin("Type: ", Shown(w.kind));
  }

  /** The statistics lines of a worker and the rule after them are plain. */
  lemma StatisticsFacts(w: Worker)
    ensures Plain(UptimeLines(w)) && Plain(JobsLines(w)) && Plain(KudosLines(w))
    ensures Plain([Rule])
  {
    StatisticsLiterals();
    RuleLead();
    LeadJoin(Rule, "");
    assert Rule + "" == Rule;
    if Nonzero(w.uptime) {
      IntToStringOneLine(w.uptime.value);
      LeadJoin("Uptime: ", IntToString(w.uptime.value));
      LeadJoin("Uptime: " + IntToString(w.uptime.value), " seconds");
    }
    if Nonzero(w.jobsCompleted) {
      IntToStringOneLine(w.jobsCompleted.value);
      LeadJoin("Jobs Completed: ", IntToString(w.jobsCompleted.value));
    }
    if Nonzero(w.kudos) {
      GroupedOneLine(w.kudos.value);
      LeadJoin("Kudos: ", Grouped(w.kudos.value));
    }
  }

  /** The performance, pixel and speed lines of a worker are plain. */
  lemma CapacityFacts(w: Worker)
    requires Printable(w)
    ensures Plain(CapacityLines(w)) && Plain(SpeedLines(w))
  {
    DetailLiterals();
    SpeedLiterals();
    assert OneLine("N/A");
    var pixels := if w.maxPixels.Some? then Grouped(w.maxPixels.value) else "N/A";
    if w.maxPixels.Some? {
      GroupedOneLine(w.maxPixels.value);
    }
    LeadJoin("Performance: ", Shown(w.performance));
    LeadJoin("Max Pixels: ", pixels);
    if w.speed.Some? {
      LeadJoin("Speed: ", w.speed.value);
      LeadJoin("Speed: " + w.speed.value, " megapixelsteps/second");
    }
  }

  /** The lines after a worker's models, through the rule, are plain. */
  lemma DetailFacts(w: Worker)
    requires Printable(w)
    ensures Plain(DetailLines(w) + [Rule])
  {
    CapacityFacts(w);
    StatisticsFacts(w);
  }

  /** The model lines of names on one line are one line each. */
  lemma ModelLinesOneLine(models: seq<string>)
    requires forall m :: m in models ==> OneLine(m)
    ensures forall l :: l in ModelLines(models) ==> OneLine(l)
  {
    forall l | l in ModelLines(models) ensures OneLine(l) {
      var i :| 0 <= i < |models| && ModelLines(models)[i] == l;
      assert models[i] in models;
      OneLineJoin("  * ", models[i]);
    }
  }

  /** Every line of a printable worker's block is one line. */
  lemma WorkerLinesOneLine(index: nat, w: Worker)
    requires Printable(w)
    ensures forall l :: l in WorkerLines(index, w) ==> OneLine(l)
  {
    HeadFacts(index, w);
    ModelLinesOneLine(w.models);
    DetailFacts(w);
    var head, models, details := HeadLines(index, w), ModelLines(w.models), DetailLines(w);
    assert forall l :: l in head ==> l in IdentityLines(index, w) || l == "Type: " + Shown(w.kind) || l in StateLines(w);
    AppendAssoc(head + models, details, [Rule]);
    assert forall l :: l in WorkerLines(index, w) ==> l in head || l in models || l in details + [Rule];
  }

  lemma {:induction false} BlocksOneLine(ws: seq<Worker>)
    requires forall i :: 0 <= i < |ws| ==> Printable(ws[i])
    ensures forall l :: l in Blocks(ws) ==> OneLine(l)
  {
    if ws != [] {
      BlocksOneLine(ws[..|ws| - 1]);
      WorkerLinesOneLine(|ws|, ws[|ws| - 1]);
    }
  }

  /** Standard output split at its newlines gives back the printed lines, then the empty piece after the last newline. */
  lemma {:induction false} SplitPrinted(lines: seq<string>)
    requires forall l :: l in lines ==> '\n' !in l
    ensures Split(Printed(lines), '\n') == lines + [""]
  {
    if lines != [] {
      assert lines[0] in lines;
      assert forall l :: l in lines[1..] ==> l in lines;
      SplitPrinted(lines[1..]);
      SplitFirst(lines[0], '\n', Printed(lines[1..]));
      assert lines[0] + "\n" + Printed(lines[1..]) == lines[0] + ['\n'] + Printed(lines[1..]);
      assert [lines[0]] + (lines[1..] + [""]) == lines + [""];
    }
  }

  // ---------------------------------------------------------------------------
  // How the cog reads each kind of line
  // ---------------------------------------------------------------------------

  /** A neutral line is neither a type line nor a model line once stripped. */
  lemma NeutralKind(line: string)
    requires Neutral(line)
    ensures Kind(line) == OtherLine
  {
    if line != [] {
      assert LStrip(line) == line;
      var r := RStrip(line);
      RStripFacts(line);
      assert r != [] && r[0] == line[0];
      assert !StartsWith(r, "Type:") by {
        if |r| >= 5 {
          assert r[1] == line[1];
          assert r[..5][0] == r[0] && r[..5][1] == r[1];
        }
      }
      assert !StartsWith(r, "*") by {
        assert r[..1][0] == r[0];
      }
    }
  }

  /** A clean text after one space strips back to itself. */
  lemma StripAfterSpace(k: string)
    requires Clean(k)
    ensures Strip(" " + k) == k
  {
    assert (" " + k)[1..] == k;
    assert LStrip(" " + k) == LStrip(k);
    StripClean(k);
  }

  /** The type line of a worker sets the type in effect to the worker's type as printed. */
  lemma TypeLineKind(k: string)
    requires Clean(k) && ':' !in k
    ensures Kind("Type: " + k) == TypeLine(k)
  {
    if k == [] {
      assert "Type: " + k == "Type: ";
      BareTypeLineKind();
    } else {
      ValuedTypeLineKind(k);
    }
  }

  /** A type line with nothing after the colon and the space gives the empty type. */
  lemma BareTypeLineKind()
    ensures Kind("Type: ") == TypeLine("")
  {
    var line := "Type: ";
    assert LStrip(line) == line;
    assert line[..|line| - 1] == "Type:";
    assert RStrip("Type:") == "Type:";
    assert Strip(line) == "Type:";
    var l := "Type:";
    assert IsTypeLine(l);
    assert l == "Type" + [':'] + "";
    SplitFirst("Type", ':', "");
    assert Split("", ':') == [""];
    assert TypeValue(l) == "";
  }

  /** A type line with a clean, colon-free type after the space gives that type. */
  lemma ValuedTypeLineKind(k: string)
    requires k != [] && Clean(k) && ':' !in k
    ensures Kind("Type: " + k) == TypeLine(k)
  {
    var line := "Type: " + k;
    assert LStrip(line) == line;
    assert RStrip(line) == line;
    assert Strip(line) == line;
    assert IsTypeLine(line);
    assert line == "Type" + [':'] + (" " + k);
    SplitFirst("Type", ':', " " + k);
    SplitNoSep(" " + k, ':');
    StripAfterSpace(k);
    assert TypeValue(line) == k;
  }

  /** A model line of a worker adds the model's name. */
  lemma ModelLineKind(m: string)
    requires Clean(m)
    ensures Kind("  * " + m) == ModelLine(m)
  {
    var line := "  * " + m;
    var l := "* " + m;
    assert line[0] == ' ' && line[1..][0] == ' ';
    assert line[1..][1..] == l;
    assert LStrip(line) == LStrip(line[1..]) == LStrip(l);
    assert l[0] == '*';
    assert LStrip(l) == l;
    if m == [] {
      assert l[..|l| - 1] == "*";
      assert RStrip(l) == "*";
      assert !IsTypeLine("*") && IsModelLine("*");
      assert "*"[1..] == "";
    } else {
      assert l[|l| - 1] == m[|m| - 1];
      assert RStrip(l) == l;
      assert !IsTypeLine(l) by {
        if |l| >= 5 { assert l[..5][0] == l[0]; }
      }
      assert IsModelLine(l) by { assert l[..1] == "*"; }
      assert l[1..] == " " + m;
      StripAfterSpace(m);
    }
  }

  // ---------------------------------------------------------------------------
  // The scan over the listing
  // ---------------------------------------------------------------------------

  /** Neutral lines leave the scan where it was. */
  lemma {:induction false} ScanNeutral(s: ScanState, lines: seq<string>)
    requires Plain(lines)
    ensures Scan(s, lines) == s
  {
    if lines != [] {
      var n := |lines| - 1;
      assert forall l :: l in lines[..n] ==> l in lines;
      ScanNeutral(s, lines[..n]);
      assert lines[n] in lines;
      NeutralKind(lines[n]);
    }
  }

  /** Neutral lines before or after a run do not change what the run scans to. */
  lemma NeutralAround(s: ScanState, pre: seq<string>, lines: seq<string>, post: seq<string>)
    requires Plain(pre) && Plain(post)
    ensures Scan(s, pre + lines + post) == Scan(s, lines)
  {
    ScanAppend(s, pre + lines, post);
    ScanNeutral(Scan(s, pre + lines), post);
    ScanAppend(s, pre, lines);
    ScanNeutral(s, pre);
  }

  /** One model line under the type in effect: it adds its name exactly when that type is `image`. */
  lemma StepModel(s: ScanState, m: string)
    requires Clean(m)
    ensures Step(s, "  * " + m) == if s.current == Some("image") then ScanState(s.current, s.models + {m}) else s
  {
    ModelLineKind(m);
  }

  /** The model lines under the type in effect `c`: they add their names exactly when `c` is `image`. */
  lemma {:induction false} ScanModels(c: Option<string>, found: set<string>, models: seq<string>)
    requires forall m :: m in models ==> Clean(m)
    ensures Scan(ScanState(c, found), ModelLines(models))
      == ScanState(c, found + (if c == Some("image") then set m | m in models else {}))
  {
    var lines := ModelLines(models);
    if models == [] {
      assert lines == [];
    } else {
      var n := |models| - 1;
      var init := models[..n];
      assert forall m :: m in init ==> m in models;
      ScanModels(c, found, init);
      assert lines[..n] == ModelLines(init);
      var before := Scan(ScanState(c, found), lines[..n]);
      assert Scan(ScanState(c, found), lines) == Step(before, lines[n]);
      assert models[n] in models;
      StepModel(before, models[n]);
      assert models == init + [models[n]];
      NamesAppend(init, models[n]);
    }
  }

  /** The names in a run of names with one more at the end. */
  lemma NamesAppend(init: seq<string>, x: string)
    ensures (set m | m in init + [x]) == (set m | m in init) + {x}
  {
  }

  /** The type line of a block. */
  lemma StepType(s: ScanState, k: string)
    requires Clean(k) && ':' !in k
    ensures Step(s, "Type: " + k) == ScanState(Some(k), s.models)
  {
    TypeLineKind(k);
  }

  /** The head of a worker's block sets the type in effect to the worker's type as printed. */
  lemma ScanHead(s: ScanState, index: nat, w: Worker)
    requires Printable(w)
    ensures Scan(s, HeadLines(index, w)) == ScanState(Some(Shown(w.kind)), s.models)
  {
    var typed := "Type: " + Shown(w.kind);
    IdentityFacts(index, w);
    StateFacts(w);
    NeutralAround(s, IdentityLines(index, w), [typed], StateLines(w));
    ScanOne(s, typed);
    ShownKind(w);
    StepType(s, Shown(w.kind));
  }

  /** The type of a printable worker, as printed, is clean and has no colon. */
  lemma ShownKind(w: Worker)
    requires Printable(w)
    ensures Clean(Shown(w.kind)) && ':' !in Shown(w.kind)
  {
    if w.kind.None? {
      Unavailable();
    }
  }

  /** The placeholder printed for a missing field. */
  lemma Unavailable()
    ensures Clean("N/A") && ':' !in "N/A"
  {
  }

  /** Scanning a single line is one step. */
  lemma ScanOne(s: ScanState, line: string)
    ensures Scan(s, [line]) == Step(s, line)
  {
    assert [line][..0] == [];
  }

  /** Neutral lines after a run do not change what the run scans to. */
  lemma NeutralAfter(s: ScanState, lines: seq<string>, post: seq<string>)
    requires Plain(post)
    ensures Scan(s, lines + post) == Scan(s, lines)
  {
    ScanAppend(s, lines, post);
    ScanNeutral(Scan(s, lines), post);
  }

  /** A worker's block sets the type in effect to the worker's and adds its models when that type is `image`. */
  lemma ScanBlock(s: ScanState, index: nat, w: Worker)
    requires Printable(w)
    ensures Scan(s, WorkerLines(index, w)) == ScanState(Some(Shown(w.kind)), s.models + BlockModels(w))
  {
    var head, models, details := HeadLines(index, w), ModelLines(w.models), DetailLines(w);
    ScanHead(s, index, w);
    ScanModels(Some(Shown(w.kind)), s.models, w.models);
    ScanAppend(s, head, models);
    DetailFacts(w);
    AppendAssoc(head + models, details, [Rule]);
    NeutralAfter(s, head + models, details + [Rule]);
  }

  /** The blocks of the workers add exactly the image workers' models. */
  lemma {:induction false} ScanBlocks(s: ScanState, ws: seq<Worker>)
    requires forall i :: 0 <= i < |ws| ==> Printable(ws[i])
    ensures Scan(s, Blocks(ws)).models == s.models + ImageModels(ws)
  {
    if ws != [] {
      var n := |ws| - 1;
      ScanBlocks(s, ws[..n]);
      ScanAppend(s, Blocks(ws[..n]), WorkerLines(n + 1, ws[n]));
      ScanBlock(Scan(s, Blocks(ws[..n])), n + 1, ws[n]);
    }
  }

  // ---------------------------------------------------------------------------
  // The round trip
  // ---------------------------------------------------------------------------

  lemma BaseLiterals()
    ensures Lead("API_BASE_URL: ") && OneLine("/api/v2/workers")
  {
  }

  lemma EndpointLiteral()
    ensures Lead("Attempting to access endpoint: ")
  {
  }

  lemma FetchingLiteral()
    ensures Lead("Fetching available workers...")
  {
  }

  lemma StatusCodeLiteral()
    ensures Lead("Response status code: ")
  {
  }

  lemma TitleLiteral()
    ensures Lead("=== Available Workers ===")
  {
  }

  lemma CountLiterals()
    ensures Lead("Total workers: ") && Lead("Active workers: ")
  {
  }

  lemma PerformanceLiterals()
    ensures Lead("Total performance: ")
  {
  }

  lemma UnitLiteral()
    ensures OneLine(" megapixelsteps per second")
  {
  }

  /** The lines announcing the request for a configured base URL are plain. */
  lemma PreambleFacts(base: string)
    requires base != [] && OneLine(base)
    ensures Plain(["API_BASE_URL: " + base])
    ensures Plain(["Attempting to access endpoint: " + base + "/api/v2/workers", "Fetching available workers..."])
    ensures Plain(["Response status code: " + IntToString(200)])
  {
    BaseLiterals();
    EndpointLiteral();
    FetchingLiteral();
    StatusCodeLiteral();
    IntToStringOneLine(200);
    LeadJoin("API_BASE_URL: ", base);
    LeadJoin("Attempting to access endpoint: ", base);
    LeadJoin("Attempting to access endpoint: " + base, "/api/v2/workers");
    LeadJoin("Fetching available workers...", "");
    assert "Fetching available workers..." + "" == "Fetching available workers...";
    LeadJoin("Response status code: ", IntToString(200));
  }

  /** The title over the blocks is plain. */
  lemma TitleFacts()
    ensures Plain(["", "=== Available Workers ==="])
  {
    TitleLiteral();
    LeadJoin("=== Available Workers ===", "");
    assert "=== Available Workers ===" + "" == "=== Available Workers ===";
  }

  /** The totals after the blocks of a listing are plain. */
  lemma TotalsFacts(ws: seq<Worker>, performance: string)
    requires OneLine(performance)
    ensures Plain(["", "Total workers: " + NatToString(|ws|)])
    ensures Plain(["Active workers: " + NatToString(ActiveCount(ws)),
                   "Total performance: " + performance + " megapixelsteps per second"])
  {
    CountLiterals();
    PerformanceLiterals();
    UnitLiteral();
    DigitsOneLine(NatToString(|ws|));
    DigitsOneLine(NatToString(ActiveCount(ws)));
    LeadJoin("Total workers: ", NatToString(|ws|));
    LeadJoin("Active workers: ", NatToString(ActiveCount(ws)));
    LeadJoin("Total performance: ", performance);
    LeadJoin("Total performance: " + performance, " megapixelsteps per second");
  }

  /** Plain runs of lines joined are plain. */
  lemma PlainJoin(a: seq<string>, b: seq<string>)
    requires Plain(a) && Plain(b)
    ensures Plain(a + b)
  {
    assert forall l :: l in a + b ==> l in a || l in b;
  }

  /** The lines of a listing that completes: plain lines around the blocks. */
  lemma ListingShape(base: string, ws: seq<Worker>, dump: string, performance: string)
    returns (pre: seq<string>, post: seq<string>)
    requires base != [] && OneLine(base) && OneLine(performance)
    ensures Script(Some(base), Response.Answer(200, Listing(ws, dump)), Some(performance)).lines == pre + Blocks(ws) + post
    ensures Plain(pre) && Plain(post)
  {
    var header := ["API_BASE_URL: " + base];
    var request := ["Attempting to access endpoint: " + base + "/api/v2/workers", "Fetching available workers..."];
    var status := ["Response status code: " + IntToString(200)];
    var title := ["", "=== Available Workers ==="];
    var counted := ["", "Total workers: " + NatToString(|ws|)];
    var totals := ["Active workers: " + NatToString(ActiveCount(ws)),
                   "Total performance: " + performance + " megapixelsteps per second"];
    var blocks := Blocks(ws);
    var report := Report(ws, Some(performance)).lines;
    assert report == title + blocks + counted + totals;
    assert Script(Some(base), Response.Answer(200, Listing(ws, dump)), Some(performance)).lines
        == header + (request + (status + report));
    pre := header + request + status + title;
    post := counted + totals;
    calc {
      header + (request + (status + report));
      { AppendAssoc(request, status, report); AppendAssoc(header, request + status, report); }
      (header + (request + status)) + report;
      { AppendAssoc(header, request, status); }
      (header + request + status) + (title + blocks + counted + totals);
      { AppendSeq4(header + request + status, title, blocks, counted, totals); }
      pre + blocks + post;
    }
    PreambleFacts(base);
    TitleFacts();
    TotalsFacts(ws, performance);
    PlainJoin(header, request);
    PlainJoin(header + request, status);
    PlainJoin(header + request + status, title);
    PlainJoin(counted, totals);
  }

  /** Regrouping five runs of lines. */
  lemma AppendSeq4(p: seq<string>, a: seq<string>, b: seq<string>, c: seq<string>, d: seq<string>)
    ensures p + (a + b + c + d) == (p + a) + b + (c + d)
  {
  }

  /** The cog's parse of printed lines that are plain around a run of one-line lines is the scan of that run. */
  lemma ParseAround(lines: seq<string>, pre: seq<string>, mid: seq<string>, post: seq<string>)
    requires lines == pre + mid + post && Plain(pre) && Plain(post)
    requires forall l :: l in mid ==> OneLine(l)
    ensures ParseModels(Printed(lines)) == Scan(Unscanned, mid).models
  {
    assert forall l :: l in lines ==> l in pre || l in mid || l in post;
    SplitPrinted(lines);
    var all := lines + [""];
    assert all[..|all| - 1] == lines && all[|all| - 1] == "";
    NeutralKind("");
    assert Scan(Unscanned, all) == Scan(Unscanned, lines);
    NeutralAround(Unscanned, pre, mid, post);
  }

  /** The cog's parse of printed lines that are plain around the workers' blocks gives the image workers' models. */
  lemma ParseBlocks(lines: seq<string>, pre: seq<string>, ws: seq<Worker>, post: seq<string>)
    requires lines == pre + Blocks(ws) + post && Plain(pre) && Plain(post)
    requires forall i :: 0 <= i < |ws| ==> Printable(ws[i])
    ensures ParseModels(Printed(lines)) == ImageModels(ws)
  {
    BlocksOneLine(ws);
    ParseAround(lines, pre, Blocks(ws), post);
    ScanBlocks(Unscanned, ws);
    assert {} + ImageModels(ws) == ImageModels(ws);
  }

  /**
   * For a configured base URL and an answer with status 200 that lists the
   * workers, the set the cog parses from the script's standard output is the
   * set of models of the image workers.
   */
  lemma ListingRoundTrip(base: string, ws: seq<Worker>, dump: string, performance: string)
    requires base != [] && OneLine(base) && OneLine(performance)
    requires forall i :: 0 <= i < |ws| ==> Printable(ws[i])
    ensures ParseModels(Printed(Script(Some(base), Response.Answer(200, Listing(ws, dump)), Some(performance)).lines)) == ImageModels(ws)
  {
    var pre, post := ListingShape(base, ws, dump, performance);
    ParseBlocks(Script(Some(base), Response.Answer(200, Listing(ws, dump)), Some(performance)).lines, pre, ws, post);
  }
}
