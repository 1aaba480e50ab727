/**
 * cogs/image_generation.py: the cog that turns a `!dream` prompt into an
 * image. It builds the generation parameters by merging custom parameters
 * onto the defaults, submits the job through the shared rate-limited queue,
 * polls its status until it is done or five minutes have passed, and then
 * retrieves and downloads the image. It also checks the values typed into the
 * dimension and steps dialogs, and reads the available image models from the
 * listing that test/workers.py prints.
 *
 * Discord itself (channels, embeds, views, buttons) is not modelled: a
 * message or embed edit becomes an entry in the sequence of status values
 * the job's message shows, and a dialog becomes a function from the typed
 * text to its reply.
 */
module ImageGeneration {
  import opened Wrappers
  import opened Json
  import opened Text
  import opened Futures
  import opened RateWindow
  import opened Queues
  import opened ImageGenerationUtils

  // ---------------------------------------------------------------------------
  // deep_update (lines 582-588)
  // ---------------------------------------------------------------------------

  /**
   * Whether `deep_update(d, u)` returns rather than raises. It iterates over
   * `u.items()`, so `u` must be a dictionary; with an empty `u` nothing is
   * touched and `d` comes back whatever it is. Otherwise every key is stored
   * into `d`, so `d` must be a dictionary, and each dictionary value of `u` is
   * merged into `d.get(k, {})` by a call that must itself return.
   */
  predicate Mergeable(d: Json, u: Json)
    decreases u
  {
    && u.JObj?
    && (u.fields == map[] ||
        (&& d.JObj?
         && forall k :: k in u.fields && u.fields[k].JObj? ==> Mergeable(Get(d.fields, k, EmptyObject), u.fields[k])))
  }

  /**
   * What `deep_update(d, u)` returns: every key of `u` ends up in the result;
   * a value of `u` that is not a dictionary overwrites; a dictionary value is
   * merged recursively into what `d` held under that key (or into `{}`); the
   * keys of `d` that `u` does not mention keep their values.
   */
  function Merged(d: Json, u: Json): (r: Json)
    requires Mergeable(d, u)
    decreases u
    ensures u.fields == map[] ==> r == d
    ensures u.fields != map[] ==> r.JObj? && r.fields.Keys == d.fields.Keys + u.fields.Keys
    ensures u.fields != map[] ==> forall k :: k in u.fields && !u.fields[k].JObj? ==> r.fields[k] == u.fields[k]
    ensures u.fields != map[] ==> forall k :: k in d.fields && k !in u.fields ==> r.fields[k] == d.fields[k]
    ensures u.fields != map[] ==> forall k :: k in u.fields && u.fields[k].JObj? ==>
      && Mergeable(Get(d.fields, k, EmptyObject), u.fields[k])
      && r.fields[k] == Merged(Get(d.fields, k, EmptyObject), u.fields[k])
  {
    if u.fields == map[] then d
    else
      JObj(map k | k in d.fields.Keys + u.fields.Keys ::
        if k in u.fields then
          (if u.fields[k].JObj? then Merged(Get(d.fields, k, EmptyObject), u.fields[k]) else u.fields[k])
        else d.fields[k])
  }

  /** `deep_update(d, u)`: the merged value, or `None` when the call raises. */
  function DeepUpdate(d: Json, u: Json): (r: Option<Json>)
    ensures r.Some? <==> Mergeable(d, u)
  {
    if Mergeable(d, u) then Some(Merged(d, u)) else None
  }

  /** Applying the same update twice gives the same result as applying it once. */
  lemma {:induction false} MergedIdempotent(d: Json, u: Json)
    requires Mergeable(d, u)
    ensures Mergeable(Merged(d, u), u)
    ensures Merged(Merged(d, u), u) == Merged(d, u)
    decreases u
  {
    if u.fields != map[] {
      var r := Merged(d, u);
      forall k | k in u.fields && u.fields[k].JObj?
        ensures Mergeable(Get(r.fields, k, EmptyObject), u.fields[k])
        ensures Merged(Get(r.fields, k, EmptyObject), u.fields[k]) == r.fields[k]
      {
        assert r.fields[k] == Merged(Get(d.fields, k, EmptyObject), u.fields[k]);
        MergedIdempotent(Get(d.fields, k, EmptyObject), u.fields[k]);
      }
      var rr := Merged(r, u);
      assert rr.fields.Keys == r.fields.Keys;
      forall k | k in rr.fields ensures rr.fields[k] == r.fields[k] {
      }
      assert rr.fields == r.fields;
    }
  }

  /** Merging a dictionary into an empty one gives that dictionary back, nested dictionaries included. */
  lemma {:induction false} MergedIntoEmpty(u: Json)
    requires u.JObj?
    ensures Mergeable(EmptyObject, u)
    ensures Merged(EmptyObject, u) == u
    decreases u
  {
    forall k | k in u.fields && u.fields[k].JObj?
      ensures Mergeable(Get(EmptyObject.fields, k, EmptyObject), u.fields[k])
      ensures Merged(Get(EmptyObject.fields, k, EmptyObject), u.fields[k]) == u.fields[k]
    {
      MergedIntoEmpty(u.fields[k]);
    }
    if u.fields != map[] {
      var r := Merged(EmptyObject, u);
      forall k | k in r.fields ensures r.fields[k] == u.fields[k] {
      }
      assert r.fields == u.fields;
    }
  }

  // ---------------------------------------------------------------------------
  // The parameters of a generation (lines 419-437)
  // ---------------------------------------------------------------------------

  /** The defaults with `params.seed` set to the decimal text of `seed`. */
  function Seeded(seed: nat): (r: Json)
    ensures r.JObj? && r.fields.Keys == DefaultImageParams.Keys
  {
    JObj(DefaultImageParams["params" := JObj(DefaultImageParams["params"].fields["seed" := JStr(NatToString(seed))])])
  }

  /**
   * The parameters `generate_and_send_image` builds: a copy of the defaults,
   * a fresh seed, the custom parameters merged in when they are truthy, then
   * the prompt. `None` when `deep_update` raises, which happens before the
   * job's message is sent and is not caught.
   */
  function BuildParams(prompt: string, custom: Json, seed: nat): (r: Option<Json>)
    ensures r.Some? <==> !Truthy(custom) || Mergeable(Seeded(seed), custom)
    ensures r.Some? ==> r.value.JObj? && "prompt" in r.value.fields && r.value.fields["prompt"] == JStr(prompt)
    ensures r.Some? ==> r.value.fields.Keys == DefaultImageParams.Keys + (if Truthy(custom) then custom.fields.Keys else {})
    ensures r.Some? && Truthy(custom) ==> custom.JObj? && forall k :: k in custom.fields && k != "prompt" && !custom.fields[k].JObj? ==>
      r.value.fields[k] == custom.fields[k]
    ensures r.Some? && Truthy(custom) ==> forall k :: k in custom.fields && k != "prompt" && custom.fields[k].JObj? ==>
      && Mergeable(Get(Seeded(seed).fields, k, EmptyObject), custom.fields[k])
      && r.value.fields[k] == Merged(Get(Seeded(seed).fields, k, EmptyObject), custom.fields[k])
    ensures r.Some? ==> forall k :: k in DefaultImageParams && k != "prompt" && !(Truthy(custom) && k in custom.fields) ==>
      r.value.fields[k] == Seeded(seed).fields[k]
    ensures r.Some? && !Truthy(custom) ==>
      r.value.fields["params"] == JObj(DefaultImageParams["params"].fields["seed" := JStr(NatToString(seed))])
  {
    var seeded := Seeded(seed);
    var updated := if Truthy(custom) then DeepUpdate(seeded, custom) else Some(seeded);
    match updated
    case None => None
    case Some(p) => Some(JObj(p.fields["prompt" := JStr(prompt)]))
  }

  /**
   * The seed a custom `params.seed` carries replaces the generated one, as
   * the seed dialog relies on; the entries of `params` the custom parameters
   * do not mention keep their defaults, the seed its generated value.
   */
  lemma CustomParamWins(prompt: string, custom: Json, seed: nat, key: string)
    requires BuildParams(prompt, custom, seed).Some? && Truthy(custom)
    requires "params" in custom.fields && custom.fields["params"].JObj?
    requires key in custom.fields["params"].fields && !custom.fields["params"].fields[key].JObj?
    ensures var p := BuildParams(prompt, custom, seed).value.fields["params"];
      p.JObj? && key in p.fields && p.fields[key] == custom.fields["params"].fields[key]
    ensures var p := BuildParams(prompt, custom, seed).value.fields["params"];
      forall k :: k in Seeded(seed).fields["params"].fields && k !in custom.fields["params"].fields ==>
        k in p.fields && p.fields[k] == Seeded(seed).fields["params"].fields[k]
  {
    var seeded := Seeded(seed);
    var inner := Get(seeded.fields, "params", EmptyObject);
    assert Merged(seeded, custom).fields["params"] == Merged(inner, custom.fields["params"]);
    if custom.fields["params"].fields == map[] {
      assert false;
    }
  }

  // ---------------------------------------------------------------------------
  // Progress (lines 472-482)
  // ---------------------------------------------------------------------------

  /** The emoji shown for each quarter of the first 30 seconds. */
  const ProgressEmojis: seq<string> := ["🥚", "🐣", "🐥", "🐤"]

  /** `total_duration`, in milliseconds. */
  const ProgressSpanMs: int := 30 * Second

  /** `min(int((elapsed / total_duration) * len(progress_emojis)), len(progress_emojis) - 1)`, elapsed in milliseconds. */
  function ProgressIndex(elapsed: nat): (r: nat)
    ensures r < |ProgressEmojis|
  {
    var i := elapsed * |ProgressEmojis| / ProgressSpanMs;
    if i < |ProgressEmojis| - 1 then i else |ProgressEmojis| - 1
  }

  /** The index grows with the elapsed time. */
  lemma ProgressMonotone(a: nat, b: nat)
    requires a <= b
    ensures ProgressIndex(a) <= ProgressIndex(b)
  {
    assert a * 4 / 30000 <= b * 4 / 30000;
  }

  /** Each emoji covers a quarter of 30 seconds, the last one everything after 22.5 seconds. */
  lemma ProgressStages(elapsed: nat, k: nat)
    requires k < |ProgressEmojis|
    ensures ProgressIndex(elapsed) == k <==>
      k * 7500 <= elapsed && (k == |ProgressEmojis| - 1 || elapsed < (k + 1) * 7500)
  {
  }

  // ---------------------------------------------------------------------------
  // Dimension and steps dialogs (lines 72-91 and 104-119)
  // ---------------------------------------------------------------------------

  /** The check on line 74. */
  predicate DimensionsInRange(width: int, height: int)
  {
    512 <= width <= 1280 && 512 <= height <= 1280
  }

  /** The check on line 105. */
  predicate StepsInRange(steps: int)
  {
    10 <= steps <= 150
  }

  /**
   * What a dialog does with the typed values: regenerate with new parameters
   * (and then send the follow-up text), only answer with the follow-up text,
   * or raise an exception other than `ValueError`, which escapes.
   */
  datatype DialogReply = Regenerate(params: Json, followup: string) | Answer(followup: string) | Raised

  /** Whether `new_params['params'][key] = value` can be done on a copy of `params`. */
  predicate HasParamDict(params: Json)
  {
    params.JObj? && "params" in params.fields && params.fields["params"].JObj?
  }

  /** `params` with `params[key]` set to `value`. */
  function SetParam(params: Json, key: string, value: Json): (r: Json)
    requires HasParamDict(params)
    ensures HasParamDict(r) && r.fields.Keys == params.fields.Keys
    ensures forall k :: k in params.fields && k != "params" ==> r.fields[k] == params.fields[k]
    ensures r.fields["params"].fields.Keys == params.fields["params"].fields.Keys + {key}
    ensures r.fields["params"].fields[key] == value
    ensures forall k :: k in params.fields["params"].fields && k != key ==>
      r.fields["params"].fields[k] == params.fields["params"].fields[k]
  {
    JObj(params.fields["params" := JObj(params.fields["params"].fields[key := value])])
  }

  /**
   * `changed` is the deep copy of `original` with only the entries `keys` of
   * its `params` written: every other top-level entry and every other entry
   * of `params` is kept, and no key is lost or added beyond `keys`.
   */
  ghost predicate KeepsOthers(original: Json, changed: Json, keys: set<string>)
  {
    && HasParamDict(original) && HasParamDict(changed)
    && changed.fields.Keys == original.fields.Keys
    && (forall k :: k in original.fields && k != "params" ==> changed.fields[k] == original.fields[k])
    && changed.fields["params"].fields.Keys == original.fields["params"].fields.Keys + keys
    && (forall k :: k in original.fields["params"].fields && k !in keys ==>
          changed.fields["params"].fields[k] == original.fields["params"].fields[k])
  }

  const InvalidNumbers := "Invalid input. Please enter numeric values only."
  const InvalidNumber := "Invalid input. Please enter a numeric value only."
  const InvalidDimensions := "Invalid dimensions. Please enter values between 512 and 1280."
  const InvalidSteps := "Invalid steps. Please enter a value between 10 and 150."

  /** `DimensionsInputModal.callback` for the view's parameters and the two typed texts. */
  function ChangeDimensions(original: Json, widthText: string, heightText: string): (r: DialogReply)
    ensures r.Answer? && r.followup == InvalidNumbers <==> ParseInt(widthText).None? || ParseInt(heightText).None?
    ensures r.Answer? && r.followup == InvalidDimensions <==>
      ParseInt(widthText).Some? && ParseInt(heightText).Some? && !DimensionsInRange(ParseInt(widthText).value, ParseInt(heightText).value)
    ensures r.Raised? <==>
      ParseInt(widthText).Some? && ParseInt(heightText).Some? && DimensionsInRange(ParseInt(widthText).value, ParseInt(heightText).value)
      && !HasParamDict(original)
    ensures r.Regenerate? ==>
      && HasParamDict(r.params)
      && "width" in r.params.fields["params"].fields && "height" in r.params.fields["params"].fields
      && r.params.fields["params"].fields["width"] == JInt(ParseInt(widthText).value)
      && r.params.fields["params"].fields["height"] == JInt(ParseInt(heightText).value)
      && KeepsOthers(original, r.params, {"width", "height"})
      && r.followup == "Generating image with new dimensions: " + IntToString(ParseInt(widthText).value) + "x" + IntToString(ParseInt(heightText).value)
  {
    match (ParseInt(widthText), ParseInt(heightText))
    case (Some(w), Some(h)) =>
      if !DimensionsInRange(w, h) then Answer(InvalidDimensions)
      else if !HasParamDict(original) then Raised
      else Regenerate(SetParam(SetParam(original, "width", JInt(w)), "height", JInt(h)),
                      "Generating image with new dimensions: " + IntToString(w) + "x" + IntToString(h))
    case _ => Answer(InvalidNumbers)
  }

  /** `StepsInputModal.callback` for the view's parameters and the typed text. */
  function ChangeSteps(original: Json, stepsText: string): (r: DialogReply)
    ensures r.Answer? && r.followup == InvalidNumber <==> ParseInt(stepsText).None?
    ensures r.Answer? && r.followup == InvalidSteps <==> ParseInt(stepsText).Some? && !StepsInRange(ParseInt(stepsText).value)
    ensures r.Raised? <==> ParseInt(stepsText).Some? && StepsInRange(ParseInt(stepsText).value) && !HasParamDict(original)
    ensures r.Regenerate? ==>
      && HasParamDict(r.params)
      && "steps" in r.params.fields["params"].fields
      && r.params.fields["params"].fields["steps"] == JInt(ParseInt(stepsText).value)
      && KeepsOthers(original, r.params, {"steps"})
      && r.followup == "Generating image with new steps: " + IntToString(ParseInt(stepsText).value)
  {
    match ParseInt(stepsText)
    case Some(n) =>
      if !StepsInRange(n) then Answer(InvalidSteps)
      else if !HasParamDict(original) then Raised
      else Regenerate(SetParam(original, "steps", JInt(n)), "Generating image with new steps: " + IntToString(n))
    case None => Answer(InvalidNumber)
  }

  /** Typing the decimal text of two integers regenerates exactly when both lie in 512..1280. */
  lemma DimensionsAccepted(original: Json, width: int, height: int)
    requires HasParamDict(original)
    ensures ChangeDimensions(original, IntToString(width), IntToString(height)).Regenerate? <==> DimensionsInRange(width, height)
  {
    ParseIntToString(width);
    ParseIntToString(height);
  }

  /** Typing the decimal text of an integer regenerates exactly when it lies in 10..150. */
  lemma StepsAccepted(original: Json, steps: int)
    requires HasParamDict(original)
    ensures ChangeSteps(original, IntToString(steps)).Regenerate? <==> StepsInRange(steps)
  {
    ParseIntToString(steps);
  }

  // ---------------------------------------------------------------------------
  // The !dream prompt (lines 394-407)
  // ---------------------------------------------------------------------------

  const DreamCommand := "!dream"

  /**
   * The prompt as line 401 computes it: everything from index 7 on, stripped.
   * It is clean, empty when nothing follows index 6, and never longer than
   * what follows it.
   */
  function DreamPromptAsWritten(content: string): (r: string)
    ensures Clean(r)
    ensures |content| <= 7 ==> r == ""
    ensures |content| > 7 ==> |r| <= |content| - 7
  {
    var rest := if |content| >= 7 then content[7..] else "";
    StripClean(rest);
    LStripFacts(rest);
    RStripFacts(LStrip(rest));
    Strip(rest)
  }

  /** When the command is glued to the prompt, the prompt's first character is lost. */
  lemma DreamPromptLosesLetter()
    ensures DreamPromptAsWritten("!dreamcastle") == "astle"
  {
    var s := "!dreamcastle"[7..];
    assert s == "astle";
    assert Clean(s);
    StripClean(s);
  }

  /** The prompt: the text after the command word, stripped. */
  function DreamPrompt(content: string): (r: string)
    requires StartsWith(content, DreamCommand)
    ensures Clean(r)
  {
    StripClean(content[|DreamCommand|..]);
    Strip(content[|DreamCommand|..])
  }

  /** The prompt is what follows `!dream`, stripped, whatever separates them. */
  lemma DreamPromptIsRest(s: string)
    ensures DreamPrompt(DreamCommand + s) == Strip(s)
  {
    assert (DreamCommand + s)[|DreamCommand|..] == s;
  }

  /** When whitespace separates the command from the prompt, the code as written gets the same prompt. */
  lemma DreamPromptAgrees(s: string)
    requires s != [] && IsSpace(s[0])
    ensures DreamPromptAsWritten(DreamCommand + s) == DreamPrompt(DreamCommand + s)
  {
    assert (DreamCommand + s)[7..] == s[1..];
    assert (DreamCommand + s)[|DreamCommand|..] == s;
    assert LStrip(s) == LStrip(s[1..]);
  }

  datatype DreamReply = Dream(prompt: string) | AskForPrompt(message: string)

  /** `handle_dream_command`: generate for a non-empty prompt, otherwise ask for one. */
  function HandleDreamCommand(content: string): (r: DreamReply)
    requires StartsWith(content, DreamCommand)
    ensures r.Dream? <==> DreamPrompt(content) != ""
    ensures r.Dream? ==> r.prompt == DreamPrompt(content) && Clean(r.prompt)
    ensures r.AskForPrompt? ==> r.message == "Please provide a prompt after the !dream command."
  {
    var prompt := DreamPrompt(content);
    if prompt == "" then AskForPrompt("Please provide a prompt after the !dream command.") else Dream(prompt)
  }

  /**
   * The handler uses the prompt that follows the command; when whitespace
   * separates the two, that is the prompt line 401 computes, so the reply is
   * the one the code as written gives.
   */
  lemma HandleDreamCommandAsWritten(s: string)
    requires s != [] && IsSpace(s[0])
    ensures HandleDreamCommand(DreamCommand + s).Dream? <==> DreamPromptAsWritten(DreamCommand + s) != ""
    ensures HandleDreamCommand(DreamCommand + s).Dream? ==>
      HandleDreamCommand(DreamCommand + s).prompt == DreamPromptAsWritten(DreamCommand + s)
  {
    DreamPromptAgrees(s);
  }

  // ---------------------------------------------------------------------------
  // Reading the model list (lines 595-607)
  // ---------------------------------------------------------------------------

  /** A stripped line that announces a worker type. */
  predicate IsTypeLine(line: string)
  {
    StartsWith(line, "Type:")
  }

  /** A stripped line that lists a model. */
  predicate IsModelLine(line: string)
  {
    StartsWith(line, "*")
  }

  /** The piece after the first `:` of a type line, as `line.split(":")[1]` gives it. */
  lemma TypeLineSplit(line: string)
    requires IsTypeLine(line)
    ensures |Split(line, ':')| >= 2 && Split(line, ':')[1] == Split(line[5..], ':')[0]
  {
    assert line == "Type" + [':'] + line[5..];
    SplitFirst("Type", ':', line[5..]);
  }

  /** `line.split(":")[1].strip()` for a stripped type line. */
  function TypeValue(line: string): string
    requires IsTypeLine(line)
  {
    TypeLineSplit(line);
    Strip(Split(line, ':')[1])
  }

  /** `line[1:].strip()` for a stripped model line. */
  function ModelName(line: string): string
    requires IsModelLine(line)
  {
    Strip(line[1..])
  }

  /** What a raw output line is once stripped: a type line with its value, a model line with its name, or neither. */
  datatype LineKind = TypeLine(value: string) | ModelLine(name: string) | OtherLine

  /** The tests on lines 600 and 602 (without the condition on the current type). */
  function Kind(raw: string): LineKind
  {
    var line := Strip(raw);
    if IsTypeLine(line) then TypeLine(TypeValue(line))
    else if IsModelLine(line) then ModelLine(ModelName(line))
    else OtherLine
  }

  /** The two variables of the loop: the type in effect and the models collected. */
  datatype ScanState = ScanState(current: Option<string>, models: set<string>)

  const Unscanned := ScanState(None, {})

  /** One pass of the loop body on a raw output line. */
  function Step(s: ScanState, raw: string): ScanState
  {
    match Kind(raw)
    case TypeLine(value) => ScanState(Some(value), s.models)
    case ModelLine(name) => if s.current == Some("image") then ScanState(s.current, s.models + {name}) else s
    case OtherLine => s
  }

  /** The loop over `lines`, from the state `s`. */
  function Scan(s: ScanState, lines: seq<string>): ScanState
  {
    if lines == [] then s else Step(Scan(s, lines[..|lines| - 1]), lines[|lines| - 1])
  }

  /** The set of image models the cog reads from the listing's standard output. */
  function ParseModels(stdout: string): (r: set<string>)
    ensures forall m :: m in r <==> Listed(Split(stdout, '\n'), m)
  {
    ScanCollects(Split(stdout, '\n'));
    Scan(Unscanned, Split(stdout, '\n')).models
  }

  /** The type announced by the last type line before line `i`, if any. */
  function TypeBefore(lines: seq<string>, i: nat): Option<string>
    requires i <= |lines|
  {
    if i == 0 then None
    else if Kind(lines[i - 1]).TypeLine? then Some(Kind(lines[i - 1]).value)
    else TypeBefore(lines, i - 1)
  }

  /** The type before line `i` depends only on the lines before it. */
  lemma {:induction false} TypeBeforePrefix(lines: seq<string>, k: nat, i: nat)
    requires i <= k <= |lines|
    ensures TypeBefore(lines[..k], i) == TypeBefore(lines, i)
  {
    if i > 0 {
      assert lines[..k][i - 1] == lines[i - 1];
      TypeBeforePrefix(lines, k, i - 1);
    }
  }

  /** Line `i` lists a model and follows a type line whose value is `image`. */
  predicate ImageModelAt(lines: seq<string>, i: nat)
    requires i < |lines|
  {
    Kind(lines[i]).ModelLine? && TypeBefore(lines, i) == Some("image")
  }

  /** The scan ends with the type announced by the last type line. */
  lemma {:induction false} ScanCurrent(lines: seq<string>)
    ensures Scan(Unscanned, lines).current == TypeBefore(lines, |lines|)
  {
    if lines != [] {
      var n := |lines| - 1;
      ScanCurrent(lines[..n]);
      TypeBeforePrefix(lines, n, n);
    }
  }

  /** Some line of `lines` is a model line naming `m` under the type `image`. */
  ghost predicate Listed(lines: seq<string>, m: string)
  {
    exists i :: 0 <= i < |lines| && ListedAt(lines, i, m)
  }

  /** Line `i` of `lines` is a model line naming `m` under the type `image`. */
  predicate ListedAt(lines: seq<string>, i: nat, m: string)
    requires i < |lines|
  {
    ImageModelAt(lines, i) && Kind(lines[i]).name == m
  }

  /** A line before the last one lists a model in the shorter run exactly when it does in the longer one. */
  lemma ImageModelAtPrefix(lines: seq<string>, i: nat)
    requires i < |lines| - 1
    ensures ImageModelAt(lines[..|lines| - 1], i) <==> ImageModelAt(lines, i)
    ensures lines[..|lines| - 1][i] == lines[i]
  {
    TypeBeforePrefix(lines, |lines| - 1, i);
  }

  /** Listing `m` in a longer run of lines: in the run before the last line, or on the last line itself. */
  lemma ListedExtend(lines: seq<string>, m: string)
    requires lines != []
    ensures var n := |lines| - 1;
      Listed(lines, m) <==> Listed(lines[..n], m) || ListedAt(lines, n, m)
  {
    if Listed(lines, m) {
      var i :| 0 <= i < |lines| && ListedAt(lines, i, m);
      ListedShrink(lines, i, m);
    }
    ListedGrow(lines, m);
  }

  /** A line that lists `m` is in the run before the last line, or is the last line. */
  lemma ListedShrink(lines: seq<string>, i: nat, m: string)
    requires i < |lines| && ListedAt(lines, i, m)
    ensures var n := |lines| - 1;
      Listed(lines[..n], m) || ListedAt(lines, n, m)
  {
    var n := |lines| - 1;
    if i < n {
      ListedAtPrefix(lines, i, m);
      ListedWitness(lines[..n], i, m);
    }
  }

  /** A line that lists `m` makes the run list `m`. */
  lemma ListedWitness(lines: seq<string>, i: nat, m: string)
    requires i < |lines| && ListedAt(lines, i, m)
    ensures Listed(lines, m)
  {
  }

  /** A listing in the run before the last line, or on the last line, is a listing in the run. */
  lemma ListedGrow(lines: seq<string>, m: string)
    requires lines != []
    ensures var n := |lines| - 1;
      Listed(lines[..n], m) || ListedAt(lines, n, m) ==> Listed(lines, m)
  {
    var n := |lines| - 1;
    if Listed(lines[..n], m) {
      var i :| 0 <= i < n && ListedAt(lines[..n], i, m);
      ListedAtPrefix(lines, i, m);
      ListedWitness(lines, i, m);
    }
  }

  /** A line before the last one lists `m` in the shorter run exactly when it does in the longer one. */
  lemma ListedAtPrefix(lines: seq<string>, i: nat, m: string)
    requires i < |lines| - 1
    ensures ListedAt(lines[..|lines| - 1], i, m) <==> ListedAt(lines, i, m)
  {
    ImageModelAtPrefix(lines, i);
  }

  /**
   * The scan collects exactly the names on the model lines that follow a type
   * line whose value is `image`; repeated names are kept once.
   */
  lemma {:induction false} ScanCollects(lines: seq<string>)
    ensures forall m :: m in Scan(Unscanned, lines).models <==> Listed(lines, m)
  {
    if lines != [] {
      var n := |lines| - 1;
      ScanCollects(lines[..n]);
      ScanCurrent(lines[..n]);
      TypeBeforePrefix(lines, n, n);
      forall m ensures m in Scan(Unscanned, lines).models <==> Listed(lines, m) {
        ListedExtend(lines, m);
      }
    }
  }

  /** Scanning two runs of lines one after the other. */
  lemma {:induction false} ScanAppend(s: ScanState, a: seq<string>, b: seq<string>)
    ensures Scan(s, a + b) == Scan(Scan(s, a), b)
    decreases |b|
  {
    if b == [] {
      assert a + b == a;
    } else {
      assert (a + b)[..|a + b| - 1] == a + b[..|b| - 1];
      ScanAppend(s, a, b[..|b| - 1]);
    }
  }
}
