/**
 * `process_omr` as a function of its inputs: the request, the project root,
 * the timestamp, the filesystem before the call and the oracles for the
 * network, the recognition engine and the success-path cleanup. It gives the
 * outcome, the filesystem afterwards, the outgoing calls in order and the
 * exit path taken.
 */
module Pipeline {
  import opened Optional
  import opened UrlRewrite
  import opened FileSystem
  import opened Fetch

  /** One entry of `request_data['images']`; an absent key is `None`. */
  datatype Image = Image(roll: Option<string>, url: Option<string>)

  /** The JSON body of a job; an absent key is `None`. */
  datatype Request = Request(
    templateUrl: Option<string>,
    configUrl: Option<string>,
    markerUrl: Option<string>,
    images: Option<seq<Image>>,
    autoAlign: Option<bool>,
    setLayout: Option<bool>)

  // ---------------------------------------------------------------- layout

  function InputsDir(root: Path): Path { root + ["inputs"] }
  function RequestName(ts: string): string { "request_" + ts }
  function RequestDir(root: Path, ts: string): Path { InputsDir(root) + [RequestName(ts)] }
  function ImagesDir(root: Path, ts: string): Path { RequestDir(root, ts) + ["images"] }
  function TemplatePath(root: Path, ts: string): Path { RequestDir(root, ts) + ["template.json"] }
  function ConfigPath(root: Path, ts: string): Path { RequestDir(root, ts) + ["config.json"] }
  function MarkerPath(root: Path, ts: string): Path { RequestDir(root, ts) + ["marker.jpg"] }
  function SheetName(roll: string): string { "sheet_" + roll + ".jpg" }
  function SheetPath(root: Path, ts: string, roll: string): Path
  {
    assert SheetName(roll)[0] == 's';
    Join(ImagesDir(root, ts), SheetName(roll))
  }
  function OutputsDir(root: Path): Path { root + ["outputs"] }
  function OutputDir(root: Path, ts: string): Path { OutputsDir(root) + [RequestName(ts)] }

  /** A roll without `/` names one file directly in the images directory. */
  lemma PlainSheetPath(root: Path, ts: string, roll: string)
    requires '/' !in roll
    ensures SheetPath(root, ts, roll) == ImagesDir(root, ts) + [SheetName(roll)]
  {
    assert '/' !in "sheet_" && '/' !in ".jpg";
    assert SheetName(roll)[0] == 's';
    PlainComponent(SheetName(roll));
  }

  /** A roll with a `/` names a file below a subdirectory of the images directory. */
  lemma SlashedSheetPath(root: Path, ts: string, roll: string)
    requires '/' in roll
    ensures |SheetPath(root, ts, roll)| >= |ImagesDir(root, ts)| + 2
  {
    var name := SheetName(roll);
    assert name[0] == 's' && name[|name| - 1] == 'g';
    assert '/' in name;
    SlashSplits(name);
  }

  /** `str(request_dir.relative_to(project_root))`. */
  function RelativeRequestDir(ts: string): string { "inputs/" + RequestName(ts) }

  // ---------------------------------------------------------------- texts

  const TemplateFailure := "Failed to download template"
  const ConfigFailure := "Failed to download config"
  const MarkerFailure := "Failed to download marker image"
  function ImageFailure(roll: string): string { "Failed to download image for roll " + roll }

  /** `str(KeyError(key))`. */
  function KeyErrorText(key: string): string { "'" + key + "'" }

  const OuterPrefix := "Processing failed: "
  const InnerPrefix := "Error during OMR processing: "

  // ---------------------------------------------------------------- the engine oracle

  /** The `args` dictionary handed to `process_dir`. */
  datatype Args = Args(inputPaths: seq<string>, outputDir: string, autoAlign: bool, setLayout: bool, debug: bool)

  /** Everything the inner scope hands to config load, `Template` and `process_dir`. */
  datatype EngineCall = EngineCall(rootDir: Path, currDir: Path, args: Args, templatePath: Path, configPath: Path)

  /** One record of `all_responses`, passed through untouched. */
  type SheetResponse = map<string, string>

  /** The inner scope returns the engine's responses or raises with a message. */
  datatype EngineResult = Responses(responses: seq<SheetResponse>) | Raises(message: string)

  /** An outgoing call: a GET of a (rewritten) URL, or entering the engine. */
  datatype Event = Get(url: string) | Invoke(call: EngineCall)

  /**
   * The dictionary `process_omr` returns. A success dictionary also holds
   * the fixed entries `"status": "success"` and `"message": "OMR processing
   * completed successfully"`, which the model leaves implicit.
   */
  datatype JobResult = Success(requestDir: string, responses: seq<SheetResponse>) | Error(error: string)

  /** `process_omr` returns a dictionary, or an exception escapes it. */
  datatype Outcome = Returned(result: JobResult) | Raised(error: string)

  /** How `process_omr` was left. */
  datatype Exit = Escaped | FetchFailure | OuterFailure | EngineFailure | Finished

  datatype Processed = Processed(outcome: Outcome, disk: Disk, trace: seq<Event>, exit: Exit)

  // ---------------------------------------------------------------- the fetch plan

  /** One download attempt in request order, or the `KeyError` raised instead of it. */
  datatype Step = GetFile(url: string, target: Path, failure: string) | MissingKey(key: string)

  function FieldStep(field: Option<string>, key: string, target: Path, failure: string): Step
  {
    match field
    case None => MissingKey(key)
    case Some(u) => GetFile(u, target, failure)
  }

  /** `img['roll']` is read (for the file name) before `img['url']`. */
  function ImageStep(root: Path, ts: string, img: Image): Step
  {
    match img.roll
    case None => MissingKey("roll")
    case Some(roll) =>
      match img.url
      case None => MissingKey("url")
      case Some(u) => GetFile(u, SheetPath(root, ts, roll), ImageFailure(roll))
  }

  /** The steps of the image loop; without the `images` key the loop raises before its first step. */
  function ImageSteps(root: Path, ts: string, images: Option<seq<Image>>): (s: seq<Step>)
    ensures images.None? ==> s == [MissingKey("images")]
    ensures images.Some? ==> |s| == |images.value|
    ensures images.Some? ==> forall i | 0 <= i < |s| :: s[i] == ImageStep(root, ts, images.value[i])
    decreases if images.Some? then |images.value| else 0
  {
    match images
    case None => [MissingKey("images")]
    case Some(imgs) =>
      if imgs == [] then [] else [ImageStep(root, ts, imgs[0])] + ImageSteps(root, ts, Some(imgs[1..]))
  }

  /** Template, config, marker, then every sheet image in request order. */
  function Plan(req: Request, root: Path, ts: string): seq<Step>
  {
    [ FieldStep(req.templateUrl, "template_url", TemplatePath(root, ts), TemplateFailure),
      FieldStep(req.configUrl, "config_url", ConfigPath(root, ts), ConfigFailure),
      FieldStep(req.markerUrl, "marker_img_url", MarkerPath(root, ts), MarkerFailure) ]
    + ImageSteps(root, ts, req.images)
  }

  /** The GETs of the leading downloads of `steps`, up to the first missing key. */
  function Gets(steps: seq<Step>): seq<Event>
  {
    if steps == [] || steps[0].MissingKey? then [] else [Get(Rewrite(steps[0].url))] + Gets(steps[1..])
  }

  function Targets(steps: seq<Step>): set<Path>
  {
    set i | 0 <= i < |steps| && steps[i].GetFile? :: steps[i].target
  }

  /** A step that lets the sequence go on: a download that returned True. */
  predicate Succeeds(dirs: set<Path>, net: string -> Response, step: Step)
  {
    step.GetFile? && Download(dirs, step.target, net(Rewrite(step.url))).ok
  }

  datatype Stop = AllFetched | FetchFailed(message: string) | KeyMissing(key: string)

  /** The fetch phase so far: how it stopped, the GETs issued and the files written. */
  datatype Run = Run(stop: Stop, trace: seq<Event>, saved: map<Path, Bytes>)

  /** One step on its own: a GET and a write, or the `KeyError`. */
  function StepRun(dirs: set<Path>, net: string -> Response, step: Step): Run
  {
    match step
    case MissingKey(k) => Run(KeyMissing(k), [], map[])
    case GetFile(u, t, m) =>
      var url := Rewrite(u);
      var tr := Download(dirs, t, net(url));
      var saved := if tr.saved.Some? then map[t := tr.saved.value] else map[];
      Run(if tr.ok then AllFetched else FetchFailed(m), [Get(url)], saved)
  }

  /** The phase `a` followed by the phase `b`, which only runs when `a` fetched everything. */
  function Then(a: Run, b: Run): Run
  {
    if a.stop.AllFetched? then Run(b.stop, a.trace + b.trace, a.saved + b.saved) else a
  }

  /**
   * The fetch phase: steps run in order and the first one that does not
   * succeed ends the phase; no later GET is issued.
   */
  function RunSteps(steps: seq<Step>, dirs: set<Path>, net: string -> Response): Run
    decreases |steps|
  {
    if steps == [] then Run(AllFetched, [], map[])
    else Then(StepRun(dirs, net, steps[0]), RunSteps(steps[1..], dirs, net))
  }

  /** The phase fetches everything exactly when every step succeeds. */
  lemma {:induction false} FetchesAllIffAllSucceed(steps: seq<Step>, dirs: set<Path>, net: string -> Response)
    ensures RunSteps(steps, dirs, net).stop.AllFetched?
            <==> forall i | 0 <= i < |steps| :: Succeeds(dirs, net, steps[i])
    decreases |steps|
  {
    if steps != [] {
      FetchesAllIffAllSucceed(steps[1..], dirs, net);
      forall i | 1 <= i < |steps|
        ensures steps[i] == steps[1..][i - 1]
      {
      }
    }
  }

  lemma ThenAssociative(x: Run, y: Run, z: Run)
    ensures Then(Then(x, y), z) == Then(x, Then(y, z))
  {
    if x.stop.AllFetched? && y.stop.AllFetched? {
      assert (x.saved + y.saved) + z.saved == x.saved + (y.saved + z.saved);
      assert (x.trace + y.trace) + z.trace == x.trace + (y.trace + z.trace);
    }
  }

  /** The empty phase is a left unit of `Then`. */
  lemma ThenEmpty(x: Run)
    ensures Then(Run(AllFetched, [], map[]), x) == x
  {
    assert map[] + x.saved == x.saved;
  }

  /**
   * Taking the next step off the front of the remaining steps: the phase so
   * far, that step, then the rest.
   */
  lemma RunStepsCons(done: Run, rest: seq<Step>, dirs: set<Path>, net: string -> Response)
    requires rest != []
    ensures Then(done, RunSteps(rest, dirs, net))
            == Then(Then(done, StepRun(dirs, net, rest[0])), RunSteps(rest[1..], dirs, net))
  {
    ThenAssociative(done, StepRun(dirs, net, rest[0]), RunSteps(rest[1..], dirs, net));
  }

  /**
   * The GETs of the fetch phase are those of the plan, in plan order: a
   * prefix of them, and all of them when every step succeeded.
   */
  lemma {:induction false} RunStepsTrace(steps: seq<Step>, dirs: set<Path>, net: string -> Response)
    ensures RunSteps(steps, dirs, net).trace <= Gets(steps)
    ensures RunSteps(steps, dirs, net).stop.AllFetched? ==> RunSteps(steps, dirs, net).trace == Gets(steps)
    decreases |steps|
  {
    if steps != [] {
      RunStepsTrace(steps[1..], dirs, net);
    }
  }

  /** A failure message of the fetch phase is that of one of the planned downloads. */
  lemma {:induction false} RunStepsFailure(steps: seq<Step>, dirs: set<Path>, net: string -> Response)
    ensures RunSteps(steps, dirs, net).stop.FetchFailed? ==>
              exists i | 0 <= i < |steps| ::
                steps[i].GetFile? && steps[i].failure == RunSteps(steps, dirs, net).stop.message
    decreases |steps|
  {
    if steps != [] {
      var rest := steps[1..];
      RunStepsFailure(rest, dirs, net);
      var rr := RunSteps(rest, dirs, net);
      if StepRun(dirs, net, steps[0]).stop.AllFetched? && rr.stop.FetchFailed? {
        var i :| 0 <= i < |rest| && rest[i].GetFile? && rest[i].failure == rr.stop.message;
        assert steps[i + 1] == rest[i];
      }
    }
  }

  /** The fetch phase only writes planned targets, each into an existing directory. */
  lemma {:induction false} RunStepsSaved(steps: seq<Step>, dirs: set<Path>, net: string -> Response)
    ensures forall t | t in RunSteps(steps, dirs, net).saved :: Writable(dirs, t) && t in Targets(steps)
    decreases |steps|
  {
    if steps != [] {
      var rest := steps[1..];
      RunStepsSaved(rest, dirs, net);
      var rr := RunSteps(rest, dirs, net);
      if StepRun(dirs, net, steps[0]).stop.AllFetched? {
        forall t | t in rr.saved
          ensures t in Targets(steps)
        {
          var i :| 0 <= i < |rest| && rest[i].GetFile? && rest[i].target == t;
          assert steps[i + 1] == rest[i];
        }
      }
    }
  }

  /** What the fetch phase leaves behind, all three facts together. */
  lemma RunStepsFacts(steps: seq<Step>, dirs: set<Path>, net: string -> Response)
    ensures RunSteps(steps, dirs, net).trace <= Gets(steps)
    ensures RunSteps(steps, dirs, net).stop.AllFetched? ==> RunSteps(steps, dirs, net).trace == Gets(steps)
    ensures RunSteps(steps, dirs, net).stop.FetchFailed? ==>
              exists i | 0 <= i < |steps| ::
                steps[i].GetFile? && steps[i].failure == RunSteps(steps, dirs, net).stop.message
    ensures forall t | t in RunSteps(steps, dirs, net).saved :: Writable(dirs, t) && t in Targets(steps)
  {
    RunStepsTrace(steps, dirs, net);
    RunStepsFailure(steps, dirs, net);
    RunStepsSaved(steps, dirs, net);
  }

  /** No later step of `steps` downloads into the target of step `i`. */
  predicate LastWriteOf(steps: seq<Step>, i: int)
    requires 0 <= i < |steps| && steps[i].GetFile?
  {
    forall j | i < j < |steps| && steps[j].GetFile? :: steps[j].target != steps[i].target
  }

  /**
   * A phase that fetched everything issued a GET for every planned step, each
   * reply arrived whole, and every planned target was written.
   */
  lemma {:induction false} RunStepsWritesAll(steps: seq<Step>, dirs: set<Path>, net: string -> Response)
    requires RunSteps(steps, dirs, net).stop.AllFetched?
    ensures forall i | 0 <= i < |steps| ::
              && steps[i].GetFile? && Delivered(net(Rewrite(steps[i].url)))
              && steps[i].target in RunSteps(steps, dirs, net).saved
    decreases |steps|
  {
    if steps != [] {
      var rest := steps[1..];
      assert StepRun(dirs, net, steps[0]).stop.AllFetched?;
      RunStepsWritesAll(rest, dirs, net);
      forall i | 0 <= i < |steps|
        ensures steps[i].GetFile? && Delivered(net(Rewrite(steps[i].url)))
        ensures steps[i].target in RunSteps(steps, dirs, net).saved
      {
        if i > 0 {
          assert steps[i] == rest[i - 1];
        }
      }
    }
  }

  /**
   * In a phase that fetched everything, each planned target holds the body
   * of the last download into it.
   */
  lemma {:induction false} RunStepsSavesLast(steps: seq<Step>, dirs: set<Path>, net: string -> Response, i: int)
    requires RunSteps(steps, dirs, net).stop.AllFetched?
    requires 0 <= i < |steps| && steps[i].GetFile? && LastWriteOf(steps, i)
    ensures net(Rewrite(steps[i].url)).Reply?
    ensures steps[i].target in RunSteps(steps, dirs, net).saved
    ensures RunSteps(steps, dirs, net).saved[steps[i].target] == Concat(net(Rewrite(steps[i].url)).chunks)
    decreases |steps|
  {
    RunStepsWritesAll(steps, dirs, net);
    var rest := steps[1..];
    var first := StepRun(dirs, net, steps[0]);
    var rr := RunSteps(rest, dirs, net);
    assert first.stop.AllFetched?;
    assert RunSteps(steps, dirs, net).saved == first.saved + rr.saved;
    if i == 0 {
      RunStepsSaved(rest, dirs, net);
      assert steps[0].target !in Targets(rest) by {
        forall j | 0 <= j < |rest| && rest[j].GetFile?
          ensures rest[j].target != steps[0].target
        {
          assert rest[j] == steps[j + 1];
        }
      }
    } else {
      assert steps[i] == rest[i - 1];
      forall j | i - 1 < j < |rest| && rest[j].GetFile?
        ensures rest[j].target != rest[i - 1].target
      {
        assert rest[j] == steps[j + 1];
      }
      RunStepsSavesLast(rest, dirs, net, i - 1);
    }
  }

  /**
   * The first step that does not succeed decides how the phase stops: a
   * failed download with its own message, or the `KeyError` of its key; the
   * GETs issued are those of the steps up to and including it.
   */
  lemma {:induction false} FirstFailureStops(steps: seq<Step>, dirs: set<Path>, net: string -> Response, k: int)
    requires 0 <= k < |steps|
    requires forall j | 0 <= j < k :: Succeeds(dirs, net, steps[j])
    requires !Succeeds(dirs, net, steps[k])
    ensures RunSteps(steps, dirs, net).stop
            == if steps[k].GetFile? then FetchFailed(steps[k].failure) else KeyMissing(steps[k].key)
    ensures RunSteps(steps, dirs, net).trace == Gets(steps[..k + 1])
    decreases k
  {
    if k == 0 {
      assert steps[..1][0] == steps[0];
      assert steps[..1][1..] == [];
    } else {
      assert Succeeds(dirs, net, steps[0]);
      FirstFailureStops(steps[1..], dirs, net, k - 1);
      assert steps[..k + 1][0] == steps[0];
      assert steps[..k + 1][1..] == steps[1..][..k];
    }
  }

  // ---------------------------------------------------------------- process_omr

  /** The call the inner scope makes: images dir as root and current dir, fixed flags. */
  function EngineCallFor(req: Request, root: Path, ts: string): EngineCall
  {
    EngineCall(
      ImagesDir(root, ts), ImagesDir(root, ts),
      Args([Render(ImagesDir(root, ts))], Render(OutputDir(root, ts)),
           req.autoAlign.GetOr(false), req.setLayout.GetOr(false), false),
      TemplatePath(root, ts), ConfigPath(root, ts))
  }

  /** Nothing is left at or below the request directory. */
  predicate Cleared(root: Path, ts: string, d: Disk)
  {
    && (forall q | q in d.dirs :: !(RequestDir(root, ts) <= q))
    && (forall f | f in d.files :: !(RequestDir(root, ts) <= f))
  }

  /** The outer `except`: report and remove the request directory, ignoring errors. */
  function OuterAbort(root: Path, ts: string, d: Disk, trace: seq<Event>, detail: string): (p: Processed)
    ensures p.exit == OuterFailure && p.trace == trace
    ensures Cleared(root, ts, p.disk)
  {
    Processed(Returned(Error(OuterPrefix + detail)), RemoveTree(d, RequestDir(root, ts)), trace, OuterFailure)
  }

  /** The inner scope, entered with the output directory in place. */
  function InnerScope(req: Request, root: Path, ts: string, d: Disk, trace: seq<Event>,
                      engine: EngineCall -> EngineResult, removalFails: bool): (p: Processed)
    ensures p.exit == EngineFailure || p.exit == Finished
    ensures p.trace == trace + [Invoke(EngineCallFor(req, root, ts))]
    ensures p.exit == EngineFailure || removalFails ==> p.disk == d
    ensures p.exit == Finished && !removalFails ==>
              && Cleared(root, ts, p.disk)
              && (OutputDir(root, ts) in d.dirs ==> OutputDir(root, ts) in p.disk.dirs)
  {
    OutputOutsideWorkspace(root, ts);
    var call := EngineCallFor(req, root, ts);
    match engine(call)
    case Raises(m) =>
      Processed(Returned(Error(InnerPrefix + m)), d, trace + [Invoke(call)], EngineFailure)
    case Responses(rs) =>
      var cleaned := if removalFails then d else RemoveTree(d, RequestDir(root, ts));
      Processed(Returned(Success(RelativeRequestDir(ts), rs)), cleaned, trace + [Invoke(call)], Finished)
  }

  /** `outcome` is the error of one of the planned downloads. */
  predicate PlannedFailure(plan: seq<Step>, outcome: Outcome)
  {
    && outcome.Returned? && outcome.result.Error?
    && exists i | 0 <= i < |plan| :: plan[i].GetFile? && plan[i].failure == outcome.result.error
  }

  /** The output directory does not lie below the request directory. */
  lemma OutputOutsideWorkspace(root: Path, ts: string)
    ensures !(RequestDir(root, ts) <= OutputDir(root, ts))
  {
    assert OutputDir(root, ts)[|root|] != RequestDir(root, ts)[|root|];
  }

  /**
   * The outer scope once the downloads from `d` ran as `run`: a failed
   * download returns its message, a missing key is the outer `except`,
   * otherwise the output directory and the inner scope.
   */
  function Conclude(req: Request, root: Path, ts: string, d: Disk, run: Run,
                    engine: EngineCall -> EngineResult, removalFails: bool): Processed
  {
    var d4 := d.(files := d.files + run.saved);
    match run.stop
    case FetchFailed(m) => Processed(Returned(Error(m)), d4, run.trace, FetchFailure)
    case KeyMissing(k) => OuterAbort(root, ts, d4, run.trace, KeyErrorText(k))
    case AllFetched =>
      match Mkdir(d4, OutputDir(root, ts), true)
      case MkdirFailed(e) => OuterAbort(root, ts, d4, run.trace, e)
      case Made(d5) => InnerScope(req, root, ts, d5, run.trace, engine, removalFails)
  }

  /**
   * The outer scope after the images directory was made: the downloads in
   * plan order, then the output directory and the inner scope.
   */
  function FetchPhase(req: Request, plan: seq<Step>, root: Path, ts: string, d: Disk, net: string -> Response,
                      engine: EngineCall -> EngineResult, removalFails: bool): (p: Processed)
    ensures p.exit != Escaped
    ensures p.exit == FetchFailure ==> p.disk.dirs == d.dirs
    ensures p.exit == EngineFailure || p.exit == Finished ==> OutputDir(root, ts) in p.disk.dirs
    ensures p.exit == EngineFailure || (p.exit == Finished && removalFails) ==> d.dirs <= p.disk.dirs
    ensures p.exit == FetchFailure ==> PlannedFailure(plan, p.outcome)
    ensures p.exit == OuterFailure ==> p.outcome.Returned? && p.outcome.result.Error? && OuterPrefix <= p.outcome.result.error
    ensures p.exit == EngineFailure || p.exit == Finished ==>
              p.trace == Gets(plan) + [Invoke(EngineCallFor(req, root, ts))]
    ensures p.exit == FetchFailure || p.exit == OuterFailure ==> p.trace <= Gets(plan)
  {
    RunStepsFacts(plan, d.dirs, net);
    Conclude(req, root, ts, d, RunSteps(plan, d.dirs, net), engine, removalFails)
  }

  /** The outer scope, entered once the request directory exists. */
  function OuterScope(req: Request, root: Path, ts: string, d: Disk, net: string -> Response,
                      engine: EngineCall -> EngineResult, removalFails: bool): (p: Processed)
    ensures p.exit != Escaped
    ensures p.exit == FetchFailure && RequestDir(root, ts) in d.dirs ==>
              RequestDir(root, ts) in p.disk.dirs && ImagesDir(root, ts) in p.disk.dirs
    ensures p.exit == EngineFailure || p.exit == Finished ==> OutputDir(root, ts) in p.disk.dirs
    ensures p.exit == EngineFailure || (p.exit == Finished && removalFails) ==>
              RequestDir(root, ts) in d.dirs ==> RequestDir(root, ts) in p.disk.dirs
    ensures p.exit == FetchFailure ==> PlannedFailure(Plan(req, root, ts), p.outcome)
    ensures p.exit == OuterFailure ==> p.outcome.Returned? && p.outcome.result.Error? && OuterPrefix <= p.outcome.result.error
    ensures p.exit == EngineFailure || p.exit == Finished ==>
              p.trace == Gets(Plan(req, root, ts)) + [Invoke(EngineCallFor(req, root, ts))]
    ensures p.exit == FetchFailure || p.exit == OuterFailure ==> p.trace <= Gets(Plan(req, root, ts))
  {
    match Mkdir(d, ImagesDir(root, ts), false)
    case MkdirFailed(e) => OuterAbort(root, ts, d, [], e)
    case Made(d3) => FetchPhase(req, Plan(req, root, ts), root, ts, d3, net, engine, removalFails)
  }

  /**
   * `process_omr`. The two `mkdir` calls before the outer `try` let their
   * exceptions escape; a failed download returns at once and leaves the
   * request directory; a `KeyError` or filesystem error in the outer scope
   * removes it; an engine error keeps it; success removes it unless that
   * removal fails, which changes nothing in the result.
   */
  function ProcessOmr(req: Request, root: Path, ts: string, d: Disk, net: string -> Response,
                      engine: EngineCall -> EngineResult, removalFails: bool): (p: Processed)
    ensures p.outcome.Raised? <==> p.exit == Escaped
    ensures p.exit == Escaped ==> p.trace == [] && p.disk.files == d.files
    ensures InputsDir(root) in d.dirs && RequestDir(root, ts) in d.dirs ==>
              p.outcome == Raised(FileExists(RequestDir(root, ts))) && p.disk == d
  {
    match Mkdir(d, InputsDir(root), true)
    case MkdirFailed(e) => Processed(Raised(e), d, [], Escaped)
    case Made(d1) =>
      match Mkdir(d1, RequestDir(root, ts), false)
      case MkdirFailed(e) => Processed(Raised(e), d1, [], Escaped)
      case Made(d2) => OuterScope(req, root, ts, d2, net, engine, removalFails)
  }

  /** Past the two `mkdir` calls, `process_omr` is the outer scope on a filesystem holding the request directory. */
  lemma ReachesOuterScope(req: Request, root: Path, ts: string, d: Disk, net: string -> Response,
                          engine: EngineCall -> EngineResult, removalFails: bool)
    returns (d2: Disk)
    ensures var p := ProcessOmr(req, root, ts, d, net, engine, removalFails);
            p.exit != Escaped ==> RequestDir(root, ts) in d2.dirs && p == OuterScope(req, root, ts, d2, net, engine, removalFails)
  {
    d2 := d;
    match Mkdir(d, InputsDir(root), true)
    case MkdirFailed(_) =>
    case Made(d1) =>
      match Mkdir(d1, RequestDir(root, ts), false)
      case MkdirFailed(_) =>
      case Made(m) =>
        d2 := m;
  }

  /**
   * The ends of the outer scope: its `except` and a successful cleanup
   * leave nothing of the request; an engine error carries the inner prefix
   * and the engine's message; success carries the request directory
   * relative to the root and the engine's responses.
   */
  predicate EndsAsDescribed(req: Request, root: Path, ts: string, engine: EngineCall -> EngineResult,
                            removalFails: bool, p: Processed)
  {
    var call := EngineCallFor(req, root, ts);
    && (p.exit == OuterFailure || (p.exit == Finished && !removalFails) ==> Cleared(root, ts, p.disk))
    && (p.exit == EngineFailure ==>
          engine(call).Raises? && p.outcome == Returned(Error(InnerPrefix + engine(call).message)))
    && (p.exit == Finished ==>
          engine(call).Responses? && p.outcome == Returned(Success(RelativeRequestDir(ts), engine(call).responses)))
  }

  /**
   * How the fetch phase ends: the outer `except` and a successful cleanup
   * leave nothing of the request; the engine paths report what the engine
   * gave.
   */
  lemma FetchPhaseEnds(req: Request, plan: seq<Step>, root: Path, ts: string, d: Disk, net: string -> Response,
                       engine: EngineCall -> EngineResult, removalFails: bool)
    ensures var p := FetchPhase(req, plan, root, ts, d, net, engine, removalFails);
            EndsAsDescribed(req, root, ts, engine, removalFails, p)
  {
    var run := RunSteps(plan, d.dirs, net);
    var d4 := d.(files := d.files + run.saved);
    if run.stop.AllFetched? && Mkdir(d4, OutputDir(root, ts), true).Made? {
      var d5 := Mkdir(d4, OutputDir(root, ts), true).disk;
      assert FetchPhase(req, plan, root, ts, d, net, engine, removalFails)
             == InnerScope(req, root, ts, d5, run.trace, engine, removalFails);
    }
  }

  /** The same for the whole outer scope, whose first `mkdir` may already fail. */
  lemma OuterScopeEnds(req: Request, root: Path, ts: string, d: Disk, net: string -> Response,
                       engine: EngineCall -> EngineResult, removalFails: bool)
    ensures var p := OuterScope(req, root, ts, d, net, engine, removalFails);
            EndsAsDescribed(req, root, ts, engine, removalFails, p)
  {
    match Mkdir(d, ImagesDir(root, ts), false)
    case MkdirFailed(_) =>
    case Made(d3) =>
      FetchPhaseEnds(req, Plan(req, root, ts), root, ts, d3, net, engine, removalFails);
  }

  /**
   * What each exit path leaves on disk: a failed download keeps the request
   * directory and its images directory; a failure in the outer scope
   * leaves nothing below the request directory; an engine error keeps it;
   * success removes it exactly when the removal works; both engine paths
   * leave the output directory in place.
   */
  lemma WorkspaceByExit(req: Request, root: Path, ts: string, d: Disk, net: string -> Response,
                        engine: EngineCall -> EngineResult, removalFails: bool)
    ensures var p := ProcessOmr(req, root, ts, d, net, engine, removalFails);
            && (p.exit == FetchFailure ==>
                  RequestDir(root, ts) in p.disk.dirs && ImagesDir(root, ts) in p.disk.dirs)
            && (p.exit == OuterFailure ==> Cleared(root, ts, p.disk))
            && (p.exit == EngineFailure ==> RequestDir(root, ts) in p.disk.dirs)
            && (p.exit == Finished ==> (RequestDir(root, ts) in p.disk.dirs <==> removalFails))
            && (p.exit == EngineFailure || p.exit == Finished ==> OutputDir(root, ts) in p.disk.dirs)
  {
    var d2 := ReachesOuterScope(req, root, ts, d, net, engine, removalFails);
    OuterScopeEnds(req, root, ts, d2, net, engine, removalFails);
  }

  /**
   * What each exit path returns: a failed download returns the message of
   * one of the planned downloads; the outer scope's failures carry its
   * prefix; an engine error carries the inner prefix and the engine's
   * message; success carries the request directory relative to the root
   * and the engine's responses.
   */
  lemma ResultByExit(req: Request, root: Path, ts: string, d: Disk, net: string -> Response,
                     engine: EngineCall -> EngineResult, removalFails: bool)
    ensures var p := ProcessOmr(req, root, ts, d, net, engine, removalFails);
            var call := EngineCallFor(req, root, ts);
            && (p.exit == FetchFailure ==> PlannedFailure(Plan(req, root, ts), p.outcome))
            && (p.exit == OuterFailure ==>
                  p.outcome.Returned? && p.outcome.result.Error? && OuterPrefix <= p.outcome.result.error)
            && (p.exit == EngineFailure ==>
                  engine(call).Raises? && p.outcome == Returned(Error(InnerPrefix + engine(call).message)))
            && (p.exit == Finished ==>
                  engine(call).Responses? && p.outcome == Returned(Success(RelativeRequestDir(ts), engine(call).responses)))
  {
    var d2 := ReachesOuterScope(req, root, ts, d, net, engine, removalFails);
    OuterScopeEnds(req, root, ts, d2, net, engine, removalFails);
  }

  /**
   * The outgoing calls in order: the GETs of the plan (a prefix of them when
   * the job stops early), then the engine exactly once on the engine paths.
   */
  lemma TraceByExit(req: Request, root: Path, ts: string, d: Disk, net: string -> Response,
                    engine: EngineCall -> EngineResult, removalFails: bool)
    ensures var p := ProcessOmr(req, root, ts, d, net, engine, removalFails);
            && (p.exit == EngineFailure || p.exit == Finished ==>
                  p.trace == Gets(Plan(req, root, ts)) + [Invoke(EngineCallFor(req, root, ts))])
            && (p.exit != EngineFailure && p.exit != Finished ==> p.trace <= Gets(Plan(req, root, ts)))
  {
    var d2 := ReachesOuterScope(req, root, ts, d, net, engine, removalFails);
  }

  // ---------------------------------------------------------------- process_omr, case by case

  /**
   * The filesystem lets the two `mkdir` calls before the outer `try`
   * succeed: `inputs` exists or can be made in the root, and the request
   * directory does not exist yet.
   */
  predicate Provisions(root: Path, ts: string, d: Disk)
  {
    && (InputsDir(root) in d.dirs || (InputsDir(root) !in d.files && root in d.dirs))
    && RequestDir(root, ts) !in d.dirs
    && RequestDir(root, ts) !in d.files
  }

  /**
   * An exception escapes `process_omr` exactly when the filesystem does not
   * provision it: `inputs` cannot be made, or the request directory (same
   * timestamp) is already there.
   */
  lemma EscapesIffNotProvisioned(req: Request, root: Path, ts: string, d: Disk, net: string -> Response,
                                 engine: EngineCall -> EngineResult, removalFails: bool)
    ensures ProcessOmr(req, root, ts, d, net, engine, removalFails).exit == Escaped <==> !Provisions(root, ts, d)
  {
    var d1 := Disk(d.dirs + {InputsDir(root)}, d.files);
    assert RequestDir(root, ts) != InputsDir(root);
    if Mkdir(d, InputsDir(root), true).Made? {
      if InputsDir(root) in d.dirs {
        assert d1 == d;
      }
      assert Mkdir(d, InputsDir(root), true).disk == d1;
      assert Parent(RequestDir(root, ts)) in d1.dirs;
    }
  }

  /** The directories once the request workspace is in place. */
  function WorkspaceDirs(root: Path, ts: string, d: Disk): set<Path>
  {
    d.dirs + {InputsDir(root), RequestDir(root, ts), ImagesDir(root, ts)}
  }

  /** On a provisioned filesystem every `mkdir` succeeds and the fetch phase starts on the fresh workspace. */
  lemma EntersFetchPhase(req: Request, root: Path, ts: string, d: Disk, net: string -> Response,
                         engine: EngineCall -> EngineResult, removalFails: bool)
    requires WellFormed(d) && Provisions(root, ts, d)
    ensures ProcessOmr(req, root, ts, d, net, engine, removalFails)
            == FetchPhase(req, Plan(req, root, ts), root, ts, Disk(WorkspaceDirs(root, ts, d), d.files), net, engine, removalFails)
  {
    var reqDir := RequestDir(root, ts);
    var d1 := Disk(d.dirs + {InputsDir(root)}, d.files);
    var d2 := Disk(d1.dirs + {reqDir}, d.files);
    var d3 := Disk(WorkspaceDirs(root, ts, d), d.files);
    if InputsDir(root) in d.dirs {
      assert d1 == d;
    }
    assert Mkdir(d, InputsDir(root), true) == Made(d1);
    assert reqDir !in d1.dirs && Parent(reqDir) in d1.dirs;
    assert Mkdir(d1, reqDir, false) == Made(d2);
    NothingBelowMissingDir(d, reqDir, ImagesDir(root, ts));
    assert reqDir <= ImagesDir(root, ts);
    assert ImagesDir(root, ts) !in d2.dirs && Parent(ImagesDir(root, ts)) in d2.dirs;
    assert Mkdir(d2, ImagesDir(root, ts), false) == Made(d3);
    assert ProcessOmr(req, root, ts, d, net, engine, removalFails) == OuterScope(req, root, ts, d2, net, engine, removalFails);
  }

  /** Every planned download writes below the request directory. */
  lemma PlanTargetsInWorkspace(req: Request, root: Path, ts: string, i: int)
    requires 0 <= i < |Plan(req, root, ts)| && Plan(req, root, ts)[i].GetFile?
    ensures RequestDir(root, ts) <= Plan(req, root, ts)[i].target
  {
    if i >= 3 {
      assert Plan(req, root, ts)[i] == ImageStep(root, ts, req.images.value[i - 3]);
    }
  }

  /** Files written into existing directories keep the filesystem well formed. */
  lemma SavedFilesKeepWellFormed(d: Disk, saved: map<Path, Bytes>)
    requires WellFormed(d)
    requires forall t | t in saved :: Writable(d.dirs, t)
    ensures WellFormed(d.(files := d.files + saved))
  {
  }

  /** Every planned download can open its target inside the fresh workspace. */
  lemma WorkspaceTargetsWritable(req: Request, root: Path, ts: string, d: Disk, i: int)
    requires WellFormed(d) && Provisions(root, ts, d)
    requires 0 <= i < |Plan(req, root, ts)| && Plan(req, root, ts)[i].GetFile?
    requires PlainRollsBefore(req, i + 1)
    ensures Writable(WorkspaceDirs(root, ts, d), Plan(req, root, ts)[i].target)
  {
    var reqDir := RequestDir(root, ts);
    var t := Plan(req, root, ts)[i].target;
    if i < 3 {
      assert t == reqDir + [t[|t| - 1]] && t[|t| - 1] != "images";
    } else {
      var img := req.images.value[i - 3];
      assert Plan(req, root, ts)[i] == ImageStep(root, ts, img);
      PlainSheetPath(root, ts, img.roll.value);
      assert t == ImagesDir(root, ts) + [t[|t| - 1]];
    }
    PlanTargetsInWorkspace(req, root, ts, i);
    NothingBelowMissingDir(d, reqDir, t);
  }

  /** In the fresh workspace a step succeeds exactly when it is a download whose reply arrives whole. */
  lemma SucceedsIffDelivered(req: Request, root: Path, ts: string, d: Disk, net: string -> Response, i: int)
    requires WellFormed(d) && Provisions(root, ts, d)
    requires 0 <= i < |Plan(req, root, ts)|
    requires PlainRollsBefore(req, i + 1)
    ensures Succeeds(WorkspaceDirs(root, ts, d), net, Plan(req, root, ts)[i])
            <==> Plan(req, root, ts)[i].GetFile? && Delivered(net(Rewrite(Plan(req, root, ts)[i].url)))
  {
    if Plan(req, root, ts)[i].GetFile? {
      WorkspaceTargetsWritable(req, root, ts, d, i);
    }
  }

  /** The rolls of the sheets among the first `k` planned steps hold no `/`: each names a file in the images directory. */
  predicate PlainRollsBefore(req: Request, k: int)
  {
    req.images.Some? ==>
      forall i | 0 <= i < |req.images.value| && 3 + i < k ::
        req.images.value[i].roll.Some? ==> '/' !in req.images.value[i].roll.value
  }

  /** Whether the planned steps up to `k` are downloads whose replies arrive whole. */
  predicate DeliveredBefore(req: Request, root: Path, ts: string, net: string -> Response, k: int)
  {
    forall j | 0 <= j < k && j < |Plan(req, root, ts)| ::
      Plan(req, root, ts)[j].GetFile? && Delivered(net(Rewrite(Plan(req, root, ts)[j].url)))
  }

  /**
   * In the fresh workspace the fetch phase stops at the first step whose
   * download does not arrive whole or whose key is missing, after the GETs
   * of the steps up to it.
   */
  lemma StopsAtFirstUndelivered(req: Request, root: Path, ts: string, d: Disk, net: string -> Response, k: int)
    requires WellFormed(d) && Provisions(root, ts, d)
    requires 0 <= k < |Plan(req, root, ts)| && DeliveredBefore(req, root, ts, net, k)
    requires Plan(req, root, ts)[k].GetFile? ==> !Delivered(net(Rewrite(Plan(req, root, ts)[k].url)))
    requires PlainRollsBefore(req, k + 1)
    ensures var plan := Plan(req, root, ts);
            var run := RunSteps(plan, WorkspaceDirs(root, ts, d), net);
            && run.stop == (if plan[k].GetFile? then FetchFailed(plan[k].failure) else KeyMissing(plan[k].key))
            && run.trace == Gets(plan[..k + 1])
  {
    var dirs := WorkspaceDirs(root, ts, d);
    forall j | 0 <= j <= k
      ensures Succeeds(dirs, net, Plan(req, root, ts)[j]) <==> j < k
    {
      SucceedsIffDelivered(req, root, ts, d, net, j);
    }
    FirstFailureStops(Plan(req, root, ts), dirs, net, k);
  }

  /**
   * The first download whose reply does not arrive whole ends the job with
   * its own message: no later GET is issued, the engine is not entered and
   * the request directory stays in place.
   */
  lemma FirstUndeliveredFails(req: Request, root: Path, ts: string, d: Disk, net: string -> Response,
                              engine: EngineCall -> EngineResult, removalFails: bool, k: int)
    requires WellFormed(d) && Provisions(root, ts, d)
    requires 0 <= k < |Plan(req, root, ts)| && DeliveredBefore(req, root, ts, net, k)
    requires Plan(req, root, ts)[k].GetFile? && !Delivered(net(Rewrite(Plan(req, root, ts)[k].url)))
    requires PlainRollsBefore(req, k + 1)
    ensures var p := ProcessOmr(req, root, ts, d, net, engine, removalFails);
            && p.outcome == Returned(Error(Plan(req, root, ts)[k].failure))
            && p.exit == FetchFailure
            && p.trace == Gets(Plan(req, root, ts)[..k + 1])
            && RequestDir(root, ts) in p.disk.dirs
  {
    EntersFetchPhase(req, root, ts, d, net, engine, removalFails);
    StopsAtFirstUndelivered(req, root, ts, d, net, k);
  }

  /**
   * A key missing from the body (after every earlier download arrived)
   * raises `KeyError` in the outer scope: the job reports it with the outer
   * prefix and the request directory is removed.
   */
  lemma MissingKeyAborts(req: Request, root: Path, ts: string, d: Disk, net: string -> Response,
                         engine: EngineCall -> EngineResult, removalFails: bool, k: int)
    requires WellFormed(d) && Provisions(root, ts, d)
    requires 0 <= k < |Plan(req, root, ts)| && DeliveredBefore(req, root, ts, net, k)
    requires Plan(req, root, ts)[k].MissingKey?
    requires PlainRollsBefore(req, k + 1)
    ensures var p := ProcessOmr(req, root, ts, d, net, engine, removalFails);
            && p.outcome == Returned(Error(OuterPrefix + KeyErrorText(Plan(req, root, ts)[k].key)))
            && p.exit == OuterFailure
            && p.trace == Gets(Plan(req, root, ts)[..k + 1])
            && RequestDir(root, ts) !in p.disk.dirs
  {
    EntersFetchPhase(req, root, ts, d, net, engine, removalFails);
    StopsAtFirstUndelivered(req, root, ts, d, net, k);
  }

  /**
   * The sheet image of roll `roll` that does not arrive ends the job with
   * the message naming that roll, after the template, the config, the
   * marker and every earlier sheet were fetched, and nothing after it.
   */
  lemma ImageFailureNamesRoll(req: Request, root: Path, ts: string, d: Disk, net: string -> Response,
                              engine: EngineCall -> EngineResult, removalFails: bool,
                              i: int, roll: string, url: string)
    requires WellFormed(d) && Provisions(root, ts, d)
    requires req.images.Some? && 0 <= i < |req.images.value|
    requires req.images.value[i] == Image(Some(roll), Some(url))
    requires DeliveredBefore(req, root, ts, net, 3 + i) && !Delivered(net(Rewrite(url)))
    requires PlainRollsBefore(req, 4 + i)
    ensures var p := ProcessOmr(req, root, ts, d, net, engine, removalFails);
            && p.outcome == Returned(Error("Failed to download image for roll " + roll))
            && p.trace == Gets(Plan(req, root, ts)[..4 + i])
            && |p.trace| == 4 + i
            && p.trace[3 + i] == Get(Rewrite(url))
  {
    SheetStep(req, root, ts, i, roll, url);
    FirstUndeliveredFails(req, root, ts, d, net, engine, removalFails, 3 + i);
    var plan := Plan(req, root, ts);
    assert forall j | 0 <= j <= 3 + i :: plan[j].GetFile?;
    LastGetOfPrefix(plan, 3 + i);
  }

  /** The sheet with a roll and a URL is downloaded into `images/sheet_<roll>.jpg`, its failure naming the roll. */
  lemma SheetStep(req: Request, root: Path, ts: string, i: int, roll: string, url: string)
    requires req.images.Some? && 0 <= i < |req.images.value|
    requires req.images.value[i] == Image(Some(roll), Some(url))
    ensures 3 + i < |Plan(req, root, ts)|
    ensures Plan(req, root, ts)[3 + i] == GetFile(url, SheetPath(root, ts, roll), ImageFailure(roll))
  {
    assert Plan(req, root, ts)[3 + i] == ImageSteps(root, ts, req.images)[i];
  }

  /**
   * A roll holding a `/` makes pathlib place its sheet below a directory
   * of the images directory that the fresh workspace lacks, so `open`
   * fails and the download returns False whatever the reply.
   */
  lemma SlashedRollFails(req: Request, root: Path, ts: string, d: Disk, net: string -> Response,
                         i: int, roll: string, url: string)
    requires WellFormed(d) && Provisions(root, ts, d)
    requires req.images.Some? && 0 <= i < |req.images.value|
    requires req.images.value[i] == Image(Some(roll), Some(url)) && '/' in roll
    ensures 3 + i < |Plan(req, root, ts)|
    ensures !Succeeds(WorkspaceDirs(root, ts, d), net, Plan(req, root, ts)[3 + i])
    ensures Plan(req, root, ts)[3 + i].failure == ImageFailure(roll)
  {
    SheetStep(req, root, ts, i, roll, url);
    SlashedSheetPath(root, ts, roll);
    var t := SheetPath(root, ts, roll);
    var reqDir := RequestDir(root, ts);
    assert reqDir <= ImagesDir(root, ts) <= t;
    assert reqDir <= Parent(t) by {
      assert Parent(t)[..|reqDir|] == t[..|reqDir|];
    }
    NothingBelowMissingDir(d, reqDir, Parent(t));
  }

  /** When the steps up to `k` are all downloads, the GETs up to `k` are one per step, the last one for step `k`. */
  lemma LastGetOfPrefix(steps: seq<Step>, k: int)
    requires 0 <= k < |steps| && forall j | 0 <= j <= k :: steps[j].GetFile?
    ensures |Gets(steps[..k + 1])| == k + 1 && Gets(steps[..k + 1])[k] == Get(Rewrite(steps[k].url))
  {
    GetsOfDownloads(steps[..k + 1]);
  }

  /** Every step of a plan of downloads issues its GET. */
  lemma {:induction false} GetsOfDownloads(steps: seq<Step>)
    requires forall j | 0 <= j < |steps| :: steps[j].GetFile?
    ensures |Gets(steps)| == |steps|
    ensures forall j | 0 <= j < |steps| :: Gets(steps)[j] == Get(Rewrite(steps[j].url))
  {
    if steps != [] {
      GetsOfDownloads(steps[1..]);
    }
  }

  /** When every planned download arrives, the fetch phase fetches everything. */
  lemma AllDeliveredFetchesAll(req: Request, root: Path, ts: string, d: Disk, net: string -> Response)
    requires WellFormed(d) && Provisions(root, ts, d)
    requires DeliveredBefore(req, root, ts, net, |Plan(req, root, ts)|)
    requires PlainRollsBefore(req, |Plan(req, root, ts)|)
    ensures RunSteps(Plan(req, root, ts), WorkspaceDirs(root, ts, d), net).stop.AllFetched?
  {
    forall j | 0 <= j < |Plan(req, root, ts)|
      ensures Succeeds(WorkspaceDirs(root, ts, d), net, Plan(req, root, ts)[j])
    {
      SucceedsIffDelivered(req, root, ts, d, net, j);
    }
    FetchesAllIffAllSucceed(Plan(req, root, ts), WorkspaceDirs(root, ts, d), net);
  }

  /** The fetch phase writes nothing outside the request directory. */
  lemma SavedInWorkspace(req: Request, root: Path, ts: string, dirs: set<Path>, net: string -> Response)
    ensures forall t | t in RunSteps(Plan(req, root, ts), dirs, net).saved :: RequestDir(root, ts) <= t
  {
    var plan := Plan(req, root, ts);
    RunStepsFacts(plan, dirs, net);
    forall t | t in RunSteps(plan, dirs, net).saved
      ensures RequestDir(root, ts) <= t
    {
      var i :| 0 <= i < |plan| && plan[i].GetFile? && plan[i].target == t;
      PlanTargetsInWorkspace(req, root, ts, i);
    }
  }

  /**
   * When every planned download arrives and the output directory can be
   * made, the engine is entered exactly once, after all the GETs, and the
   * job finishes exactly when the engine returns its responses.
   */
  lemma AllDeliveredReachesEngine(req: Request, root: Path, ts: string, d: Disk, net: string -> Response,
                                  engine: EngineCall -> EngineResult, removalFails: bool)
    requires WellFormed(d) && Provisions(root, ts, d)
    requires DeliveredBefore(req, root, ts, net, |Plan(req, root, ts)|)
    requires OutputsDir(root) in d.dirs && OutputDir(root, ts) !in d.files
    requires PlainRollsBefore(req, |Plan(req, root, ts)|)
    ensures var p := ProcessOmr(req, root, ts, d, net, engine, removalFails);
            && (p.exit == EngineFailure || p.exit == Finished)
            && (p.exit == Finished <==> engine(EngineCallFor(req, root, ts)).Responses?)
            && p.trace == Gets(Plan(req, root, ts)) + [Invoke(EngineCallFor(req, root, ts))]
  {
    var dirs := WorkspaceDirs(root, ts, d);
    EntersFetchPhase(req, root, ts, d, net, engine, removalFails);
    AllDeliveredFetchesAll(req, root, ts, d, net);
    SavedInWorkspace(req, root, ts, dirs, net);
    OutputOutsideWorkspace(root, ts);
    var run := RunSteps(Plan(req, root, ts), dirs, net);
    var d4 := Disk(dirs, d.files + run.saved);
    var d5 := Disk(dirs + {OutputDir(root, ts)}, d4.files);
    assert OutputDir(root, ts) !in d4.files;
    assert Mkdir(d4, OutputDir(root, ts), true) == Made(d5);
    assert FetchPhase(req, Plan(req, root, ts), root, ts, Disk(dirs, d.files), net, engine, removalFails)
           == InnerScope(req, root, ts, d5, run.trace, engine, removalFails);
  }

  /** The phases after the images directory keep the filesystem well formed, whatever the plan. */
  lemma FetchPhaseKeepsWellFormed(req: Request, plan: seq<Step>, root: Path, ts: string, d: Disk,
                                  net: string -> Response, engine: EngineCall -> EngineResult, removalFails: bool)
    requires WellFormed(d)
    ensures WellFormed(FetchPhase(req, plan, root, ts, d, net, engine, removalFails).disk)
  {
    RunStepsFacts(plan, d.dirs, net);
    var run := RunSteps(plan, d.dirs, net);
    var d4 := d.(files := d.files + run.saved);
    SavedFilesKeepWellFormed(d, run.saved);
    var p := FetchPhase(req, plan, root, ts, d, net, engine, removalFails);
    match run.stop
    case FetchFailed(m) =>
      assert p.disk == d4;
    case KeyMissing(k) =>
      RemoveTreeKeepsWellFormed(d4, RequestDir(root, ts));
      assert p.disk == RemoveTree(d4, RequestDir(root, ts));
    case AllFetched =>
      match Mkdir(d4, OutputDir(root, ts), true)
      case MkdirFailed(e) =>
        RemoveTreeKeepsWellFormed(d4, RequestDir(root, ts));
        assert p.disk == RemoveTree(d4, RequestDir(root, ts));
      case Made(d5) =>
        MkdirKeepsWellFormed(d4, OutputDir(root, ts), true);
        RemoveTreeKeepsWellFormed(d5, RequestDir(root, ts));
        assert p == InnerScope(req, root, ts, d5, run.trace, engine, removalFails);
  }

  /** `process_omr` leaves a well-formed filesystem on every path. */
  lemma ProcessKeepsWellFormed(req: Request, root: Path, ts: string, d: Disk, net: string -> Response,
                               engine: EngineCall -> EngineResult, removalFails: bool)
    requires WellFormed(d)
    ensures WellFormed(ProcessOmr(req, root, ts, d, net, engine, removalFails).disk)
  {
    MkdirKeepsWellFormed(d, InputsDir(root), true);
    match Mkdir(d, InputsDir(root), true)
    case MkdirFailed(_) =>
    case Made(d1) =>
      MkdirKeepsWellFormed(d1, RequestDir(root, ts), false);
      match Mkdir(d1, RequestDir(root, ts), false)
      case MkdirFailed(_) =>
      case Made(d2) =>
        MkdirKeepsWellFormed(d2, ImagesDir(root, ts), false);
        match Mkdir(d2, ImagesDir(root, ts), false)
        case MkdirFailed(_) => RemoveTreeKeepsWellFormed(d2, RequestDir(root, ts));
        case Made(d3) => FetchPhaseKeepsWellFormed(req, Plan(req, root, ts), root, ts, d3, net, engine, removalFails);
  }

  // ---------------------------------------------------------------- process_omr as written

  /**
   * The message of the `UnboundLocalError` the outer `except` raises as
   * written: the `import shutil` inside the inner scope makes `shutil` a
   * local name of the whole function, and no path reaching the outer
   * `except` has run that import.
   */
  const UnboundShutil := "cannot access local variable 'shutil' where it is not associated with a value"

  /**
   * The outer `except` as written, entered on `d`: it builds and logs its
   * message, then looking up `shutil` raises, so nothing is removed and the
   * exception escapes `process_omr` (its `finally` only logs).
   */
  function OuterExceptAsWritten(d: Disk, trace: seq<Event>): Processed
  {
    Processed(Raised(UnboundShutil), d, trace, OuterFailure)
  }

  /** `Conclude` with the outer `except` as written. */
  function ConcludeAsWritten(req: Request, root: Path, ts: string, d: Disk, run: Run,
                             engine: EngineCall -> EngineResult, removalFails: bool): Processed
  {
    var d4 := d.(files := d.files + run.saved);
    match run.stop
    case FetchFailed(m) => Processed(Returned(Error(m)), d4, run.trace, FetchFailure)
    case KeyMissing(_) => OuterExceptAsWritten(d4, run.trace)
    case AllFetched =>
      match Mkdir(d4, OutputDir(root, ts), true)
      case MkdirFailed(_) => OuterExceptAsWritten(d4, run.trace)
      case Made(d5) => InnerScope(req, root, ts, d5, run.trace, engine, removalFails)
  }

  /** `process_omr` as written: `ProcessOmr` with the outer `except` as written. */
  function ProcessOmrAsWritten(req: Request, root: Path, ts: string, d: Disk, net: string -> Response,
                               engine: EngineCall -> EngineResult, removalFails: bool): Processed
  {
    match Mkdir(d, InputsDir(root), true)
    case MkdirFailed(e) => Processed(Raised(e), d, [], Escaped)
    case Made(d1) =>
      match Mkdir(d1, RequestDir(root, ts), false)
      case MkdirFailed(e) => Processed(Raised(e), d1, [], Escaped)
      case Made(d2) =>
        match Mkdir(d2, ImagesDir(root, ts), false)
        case MkdirFailed(_) => OuterExceptAsWritten(d2, [])
        case Made(d3) =>
          ConcludeAsWritten(req, root, ts, d3, RunSteps(Plan(req, root, ts), d3.dirs, net), engine, removalFails)
  }

  /**
   * `w`, a run of the code as written, agrees with `p`, the run of the
   * intended code, except in the outer `except`: there `w` raises and
   * keeps everything that `p` removes below the request directory.
   */
  predicate PartsOnlyInOuterExcept(root: Path, ts: string, p: Processed, w: Processed)
  {
    && w.exit == p.exit && w.trace == p.trace
    && (p.exit != OuterFailure ==> w == p)
    && (p.exit == OuterFailure ==>
          && w.outcome == Raised(UnboundShutil)
          && RequestDir(root, ts) in w.disk.dirs
          && p.disk == RemoveTree(w.disk, RequestDir(root, ts)))
  }

  /** The end of the outer scope, as written and as intended, from a filesystem holding the request directory. */
  lemma ConcludeAsWrittenParts(req: Request, root: Path, ts: string, d: Disk, run: Run,
                               engine: EngineCall -> EngineResult, removalFails: bool)
    requires RequestDir(root, ts) in d.dirs
    ensures PartsOnlyInOuterExcept(root, ts, Conclude(req, root, ts, d, run, engine, removalFails),
                                   ConcludeAsWritten(req, root, ts, d, run, engine, removalFails))
  {
  }

  /**
   * `process_omr` as written differs from the intended one only on the
   * outer `except`: there it raises `UnboundLocalError` instead of
   * returning an error, after the same calls, and leaves in place the
   * request directory and everything below it.
   */
  lemma AsWrittenPartsOnlyInOuterExcept(req: Request, root: Path, ts: string, d: Disk, net: string -> Response,
                                        engine: EngineCall -> EngineResult, removalFails: bool)
    ensures PartsOnlyInOuterExcept(root, ts, ProcessOmr(req, root, ts, d, net, engine, removalFails),
                                   ProcessOmrAsWritten(req, root, ts, d, net, engine, removalFails))
  {
    match Mkdir(d, InputsDir(root), true)
    case MkdirFailed(_) =>
    case Made(d1) =>
      match Mkdir(d1, RequestDir(root, ts), false)
      case MkdirFailed(_) =>
      case Made(d2) =>
        match Mkdir(d2, ImagesDir(root, ts), false)
        case MkdirFailed(_) =>
        case Made(d3) =>
          var run := RunSteps(Plan(req, root, ts), d3.dirs, net);
          ConcludeAsWrittenParts(req, root, ts, d3, run, engine, removalFails);
          assert ProcessOmr(req, root, ts, d, net, engine, removalFails)
                 == Conclude(req, root, ts, d3, run, engine, removalFails);
  }

  /**
   * A body without `template_url` on a filesystem that provisions the job
   * reaches the outer `except` before any GET. As written, that `except`
   * raises and leaves the request directory behind; the intended one
   * returns the `KeyError` under the outer prefix and removes the
   * directory.
   */
  lemma MissingTemplateShowsOuterExcept(req: Request, root: Path, ts: string, d: Disk, net: string -> Response,
                                        engine: EngineCall -> EngineResult, removalFails: bool)
    requires WellFormed(d) && Provisions(root, ts, d) && req.templateUrl.None?
    ensures var p := ProcessOmr(req, root, ts, d, net, engine, removalFails);
            var w := ProcessOmrAsWritten(req, root, ts, d, net, engine, removalFails);
            && p.outcome == Returned(Error(OuterPrefix + KeyErrorText("template_url")))
            && RequestDir(root, ts) !in p.disk.dirs
            && w.outcome == Raised(UnboundShutil) && w.trace == []
            && RequestDir(root, ts) in w.disk.dirs
  {
    MissingTemplateAborts(req, root, ts, d, net, engine, removalFails);
    AsWrittenPartsOnlyInOuterExcept(req, root, ts, d, net, engine, removalFails);
  }

  /** A body without `template_url` enters the outer `except` on the fresh workspace, before any GET. */
  lemma MissingTemplateAborts(req: Request, root: Path, ts: string, d: Disk, net: string -> Response,
                              engine: EngineCall -> EngineResult, removalFails: bool)
    requires WellFormed(d) && Provisions(root, ts, d) && req.templateUrl.None?
    ensures ProcessOmr(req, root, ts, d, net, engine, removalFails)
            == OuterAbort(root, ts, Disk(WorkspaceDirs(root, ts, d), d.files), [], KeyErrorText("template_url"))
  {
    var plan := Plan(req, root, ts);
    var dirs := WorkspaceDirs(root, ts, d);
    EntersFetchPhase(req, root, ts, d, net, engine, removalFails);
    assert plan[0] == MissingKey("template_url");
    assert RunSteps(plan, dirs, net) == Run(KeyMissing("template_url"), [], map[]);
    assert d.files + map[] == d.files;
  }

  /**
   * On an install without `outputs`, a job whose every download arrives
   * reaches the outer `except` at the `mkdir` of its output directory. As
   * written, the job raises after all its GETs and keeps every downloaded
   * input; the intended one reports the `mkdir` error and removes them.
   */
  lemma MissingOutputsShowsOuterExcept(req: Request, root: Path, ts: string, d: Disk, net: string -> Response,
                                       engine: EngineCall -> EngineResult, removalFails: bool)
    requires WellFormed(d) && Provisions(root, ts, d) && OutputsDir(root) !in d.dirs
    requires PlainRollsBefore(req, |Plan(req, root, ts)|) && DeliveredBefore(req, root, ts, net, |Plan(req, root, ts)|)
    ensures var p := ProcessOmr(req, root, ts, d, net, engine, removalFails);
            var w := ProcessOmrAsWritten(req, root, ts, d, net, engine, removalFails);
            && p.exit == OuterFailure && p.trace == Gets(Plan(req, root, ts))
            && p.outcome.Returned? && p.outcome.result.Error?
            && RequestDir(root, ts) !in p.disk.dirs
            && w.outcome == Raised(UnboundShutil) && w.trace == Gets(Plan(req, root, ts))
            && RequestDir(root, ts) in w.disk.dirs
  {
    var dirs := WorkspaceDirs(root, ts, d);
    var run := RunSteps(Plan(req, root, ts), dirs, net);
    AllDeliveredConcludes(req, root, ts, d, net, engine, removalFails);
    var d4 := Disk(dirs, d.files + run.saved);
    assert OutputsDir(root)[|root|] != InputsDir(root)[|root|];
    assert Parent(OutputDir(root, ts)) !in d4.dirs;
    var e := Mkdir(d4, OutputDir(root, ts), true).error;
    assert ProcessOmr(req, root, ts, d, net, engine, removalFails) == OuterAbort(root, ts, d4, run.trace, e);
    AsWrittenPartsOnlyInOuterExcept(req, root, ts, d, net, engine, removalFails);
  }

  /** When every planned download arrives, `process_omr` is the end of the outer scope after all the GETs. */
  lemma AllDeliveredConcludes(req: Request, root: Path, ts: string, d: Disk, net: string -> Response,
                              engine: EngineCall -> EngineResult, removalFails: bool)
    requires WellFormed(d) && Provisions(root, ts, d)
    requires PlainRollsBefore(req, |Plan(req, root, ts)|) && DeliveredBefore(req, root, ts, net, |Plan(req, root, ts)|)
    ensures var run := RunSteps(Plan(req, root, ts), WorkspaceDirs(root, ts, d), net);
            && run.stop.AllFetched? && run.trace == Gets(Plan(req, root, ts))
            && ProcessOmr(req, root, ts, d, net, engine, removalFails)
               == Conclude(req, root, ts, Disk(WorkspaceDirs(root, ts, d), d.files), run, engine, removalFails)
  {
    EntersFetchPhase(req, root, ts, d, net, engine, removalFails);
    AllDeliveredFetchesAll(req, root, ts, d, net);
    RunStepsTrace(Plan(req, root, ts), WorkspaceDirs(root, ts, d), net);
  }

  // ---------------------------------------------------------------- what process_omr leaves behind

  /**
   * `e` agrees with `d` outside the request directory: the same files with
   * the same contents, and the same directories except that `inputs` and
   * the output directory may have been made.
   */
  predicate KeptOutside(root: Path, ts: string, d: Disk, e: Disk)
  {
    var r := RequestDir(root, ts);
    && (forall f | f in e.files && !(r <= f) :: f in d.files)
    && (forall f | f in d.files && !(r <= f) :: f in e.files && e.files[f] == d.files[f])
    && (forall q | q in d.dirs && !(r <= q) :: q in e.dirs)
    && (forall q | q in e.dirs && !(r <= q) :: q in d.dirs || q == InputsDir(root) || q == OutputDir(root, ts))
  }

  lemma KeptOutsideTransitive(root: Path, ts: string, d: Disk, e: Disk, g: Disk)
    requires KeptOutside(root, ts, d, e) && KeptOutside(root, ts, e, g)
    ensures KeptOutside(root, ts, d, g)
  {
  }

  /**
   * The end of the outer scope, as intended and as written, changes nothing
   * outside the request directory but the output directory, when the
   * downloads wrote only inside it.
   */
  lemma ConcludeKeepsOutside(req: Request, root: Path, ts: string, d: Disk, run: Run,
                             engine: EngineCall -> EngineResult, removalFails: bool)
    requires forall t | t in run.saved :: RequestDir(root, ts) <= t
    ensures KeptOutside(root, ts, d, Conclude(req, root, ts, d, run, engine, removalFails).disk)
    ensures KeptOutside(root, ts, d, ConcludeAsWritten(req, root, ts, d, run, engine, removalFails).disk)
  {
    var r := RequestDir(root, ts);
    var d4 := d.(files := d.files + run.saved);
    assert KeptOutside(root, ts, d, d4);
    KeptOutsideTransitive(root, ts, d, d4, RemoveTree(d4, r));
    if run.stop.AllFetched? && Mkdir(d4, OutputDir(root, ts), true).Made? {
      var d5 := Mkdir(d4, OutputDir(root, ts), true).disk;
      assert KeptOutside(root, ts, d, d5);
      KeptOutsideTransitive(root, ts, d, d5, RemoveTree(d5, r));
      assert Conclude(req, root, ts, d, run, engine, removalFails)
             == InnerScope(req, root, ts, d5, run.trace, engine, removalFails);
    }
  }

  /** The outer scope changes nothing outside the request directory but the output directory. */
  lemma OuterScopeKeepsOutside(req: Request, root: Path, ts: string, d: Disk, net: string -> Response,
                               engine: EngineCall -> EngineResult, removalFails: bool)
    ensures KeptOutside(root, ts, d, OuterScope(req, root, ts, d, net, engine, removalFails).disk)
  {
    var r := RequestDir(root, ts);
    match Mkdir(d, ImagesDir(root, ts), false)
    case MkdirFailed(_) =>
    case Made(d3) =>
      assert KeptOutside(root, ts, d, d3);
      var run := RunSteps(Plan(req, root, ts), d3.dirs, net);
      SavedInWorkspace(req, root, ts, d3.dirs, net);
      ConcludeKeepsOutside(req, root, ts, d3, run, engine, removalFails);
      KeptOutsideTransitive(root, ts, d, d3, Conclude(req, root, ts, d3, run, engine, removalFails).disk);
  }

  /** What a removal of the request tree keeps outside it was there before the removal. */
  lemma KeptOutsideBeforeRemoval(root: Path, ts: string, d: Disk, w: Disk)
    requires KeptOutside(root, ts, d, RemoveTree(w, RequestDir(root, ts)))
    ensures KeptOutside(root, ts, d, w)
  {
  }

  /**
   * `process_omr`, as intended and as written, changes nothing outside the
   * request directory: every file there keeps its presence and contents,
   * every directory stays, and only `inputs` and the output directory can
   * appear.
   */
  lemma ProcessKeepsOutside(req: Request, root: Path, ts: string, d: Disk, net: string -> Response,
                            engine: EngineCall -> EngineResult, removalFails: bool)
    ensures KeptOutside(root, ts, d, ProcessOmr(req, root, ts, d, net, engine, removalFails).disk)
    ensures KeptOutside(root, ts, d, ProcessOmrAsWritten(req, root, ts, d, net, engine, removalFails).disk)
  {
    var p := ProcessOmr(req, root, ts, d, net, engine, removalFails);
    match Mkdir(d, InputsDir(root), true) {
      case MkdirFailed(_) =>
      case Made(d1) =>
        match Mkdir(d1, RequestDir(root, ts), false)
        case MkdirFailed(_) =>
        case Made(d2) =>
          assert KeptOutside(root, ts, d, d2);
          OuterScopeKeepsOutside(req, root, ts, d2, net, engine, removalFails);
          assert p == OuterScope(req, root, ts, d2, net, engine, removalFails);
          KeptOutsideTransitive(root, ts, d, d2, p.disk);
    }
    AsWrittenPartsOnlyInOuterExcept(req, root, ts, d, net, engine, removalFails);
    var w := ProcessOmrAsWritten(req, root, ts, d, net, engine, removalFails);
    if p.exit == OuterFailure {
      KeptOutsideBeforeRemoval(root, ts, d, w.disk);
    }
  }

  /**
   * On the engine paths every planned step was a download that arrived
   * whole and was saved. An engine error, or a cleanup that fails, leaves
   * each planned target holding the body of the last download into it.
   */
  lemma EngineFindsDownloads(req: Request, root: Path, ts: string, d: Disk, net: string -> Response,
                             engine: EngineCall -> EngineResult, removalFails: bool)
    ensures var p := ProcessOmr(req, root, ts, d, net, engine, removalFails);
            var plan := Plan(req, root, ts);
            p.exit == EngineFailure || p.exit == Finished ==>
              forall i | 0 <= i < |plan| :: plan[i].GetFile? && Delivered(net(Rewrite(plan[i].url)))
    ensures var p := ProcessOmr(req, root, ts, d, net, engine, removalFails);
            var plan := Plan(req, root, ts);
            p.exit == EngineFailure || (p.exit == Finished && removalFails) ==>
              forall i | 0 <= i < |plan| && plan[i].GetFile? && LastWriteOf(plan, i) ::
                && plan[i].target in p.disk.files
                && net(Rewrite(plan[i].url)).Reply?
                && p.disk.files[plan[i].target] == Concat(net(Rewrite(plan[i].url)).chunks)
  {
    var p := ProcessOmr(req, root, ts, d, net, engine, removalFails);
    var plan := Plan(req, root, ts);
    var d2 := ReachesOuterScope(req, root, ts, d, net, engine, removalFails);
    if p.exit == EngineFailure || p.exit == Finished {
      var d3 := Mkdir(d2, ImagesDir(root, ts), false).disk;
      var run := RunSteps(plan, d3.dirs, net);
      assert p == Conclude(req, root, ts, d3, run, engine, removalFails);
      var d4 := d3.(files := d3.files + run.saved);
      var d5 := Mkdir(d4, OutputDir(root, ts), true).disk;
      assert p == InnerScope(req, root, ts, d5, run.trace, engine, removalFails);
      RunStepsWritesAll(plan, d3.dirs, net);
      if p.exit == EngineFailure || removalFails {
        assert p.disk.files == d3.files + run.saved;
        forall i | 0 <= i < |plan| && plan[i].GetFile? && LastWriteOf(plan, i)
          ensures net(Rewrite(plan[i].url)).Reply?
          ensures p.disk.files[plan[i].target] == Concat(net(Rewrite(plan[i].url)).chunks)
        {
          RunStepsSavesLast(plan, d3.dirs, net, i);
        }
      }
    }
  }
}
