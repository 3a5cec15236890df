/**
 * The service as the host runs it: a `Host` owns the project root and the
 * part of the filesystem the service touches, and its methods change that
 * state step by step the way `download_file`, `process_omr` and the
 * `/process` handler do. Each method is proved to leave exactly the state,
 * the outgoing calls and the result that the functions of `Fetch` and
 * `Pipeline` give.
 */
module Api {
  import opened Optional
  import opened UrlRewrite
  import opened FileSystem
  import opened Fetch
  import opened Pipeline

  /** What `request.get_json()` gives: it raises, a falsy value, or an object. */
  datatype Body = Unreadable | Falsy | Object(req: Request)

  /** A Flask reply: the status code and the JSON dictionary. */
  datatype HttpReply = HttpReply(status: int, payload: JobResult)

  const Ok := 200
  const BadRequest := 400
  const ServerError := 500
  const NoData := "No data provided"
  const InternalError := "Internal server error"

  /** The reply, the filesystem afterwards and the outgoing calls of one `/process` request. */
  datatype Handled = Handled(reply: HttpReply, disk: Disk, trace: seq<Event>)

  /**
   * The `/process` handler: a falsy body is refused with 400 before
   * anything happens; an exception (unreadable body, or one escaping
   * `process_omr`) gives 500; whatever dictionary `process_omr` returns,
   * an error one included, is sent with 200.
   */
  function Handle(body: Body, root: Path, ts: string, d: Disk, net: string -> Response,
                  engine: EngineCall -> EngineResult, removalFails: bool): (h: Handled)
    ensures h.reply.status in {Ok, BadRequest, ServerError}
    ensures h.reply.status == BadRequest <==> body.Falsy?
    ensures h.reply.status == BadRequest ==> h.reply.payload == Error(NoData) && h.disk == d && h.trace == []
    ensures body.Unreadable? ==> h.reply == HttpReply(ServerError, Error(InternalError)) && h.disk == d
    ensures body.Object? ==>
              var p := ProcessOmr(body.req, root, ts, d, net, engine, removalFails);
              && h.disk == p.disk && h.trace == p.trace
              && (h.reply.status == ServerError <==> p.exit == Escaped)
              && (h.reply.status == Ok ==> h.reply.payload == p.outcome.result)
  {
    match body
    case Unreadable => Handled(HttpReply(ServerError, Error(InternalError)), d, [])
    case Falsy => Handled(HttpReply(BadRequest, Error(NoData)), d, [])
    case Object(req) =>
      var p := ProcessOmr(req, root, ts, d, net, engine, removalFails);
      Handled(Respond(p.outcome), p.disk, p.trace)
  }

  /** The reply to a job: `jsonify` of the returned dictionary, or 500 for an exception that escaped. */
  function Respond(outcome: Outcome): (r: HttpReply)
    ensures r.status == ServerError <==> outcome.Raised?
    ensures r.status == ServerError ==> r.payload == Error(InternalError)
    ensures r.status != ServerError ==> r.status == Ok && r.payload == outcome.result
  {
    match outcome
    case Raised(_) => HttpReply(ServerError, Error(InternalError))
    case Returned(result) => HttpReply(Ok, result)
  }

  /**
   * A job body gets 200 exactly when the filesystem provisions the request
   * workspace; a timestamp collision with an existing request directory
   * gives 500 and leaves the filesystem as it was.
   */
  lemma StatusOfJob(req: Request, root: Path, ts: string, d: Disk, net: string -> Response,
                    engine: EngineCall -> EngineResult, removalFails: bool)
    ensures var h := Handle(Object(req), root, ts, d, net, engine, removalFails);
            && (h.reply.status == Ok <==> Provisions(root, ts, d))
            && (InputsDir(root) in d.dirs && RequestDir(root, ts) in d.dirs ==>
                  h.reply == HttpReply(ServerError, Error(InternalError)) && h.disk == d)
  {
    EscapesIffNotProvisioned(req, root, ts, d, net, engine, removalFails);
  }

  /**
   * A download that fails is still answered with 200: the error travels in
   * the payload under the message of the first download that did not
   * arrive.
   */
  lemma FailedDownloadIsOk(req: Request, root: Path, ts: string, d: Disk, net: string -> Response,
                           engine: EngineCall -> EngineResult, removalFails: bool, k: int)
    requires WellFormed(d) && Provisions(root, ts, d)
    requires 0 <= k < |Plan(req, root, ts)| && DeliveredBefore(req, root, ts, net, k)
    requires Plan(req, root, ts)[k].GetFile? && !Delivered(net(Rewrite(Plan(req, root, ts)[k].url)))
    requires PlainRollsBefore(req, k + 1)
    ensures Handle(Object(req), root, ts, d, net, engine, removalFails).reply
            == HttpReply(Ok, Error(Plan(req, root, ts)[k].failure))
  {
    FirstUndeliveredFails(req, root, ts, d, net, engine, removalFails, k);
  }

  /**
   * The reply to a job with `process_omr` as written: the same as the
   * intended one, except that a job reaching the outer `except` is
   * answered 500 instead of 200 and keeps its request directory. A job is
   * answered 200 exactly when it is provisioned and does not reach the
   * outer `except`.
   */
  lemma ReplyAsWritten(req: Request, root: Path, ts: string, d: Disk, net: string -> Response,
                       engine: EngineCall -> EngineResult, removalFails: bool)
    ensures var h := Handle(Object(req), root, ts, d, net, engine, removalFails);
            var p := ProcessOmr(req, root, ts, d, net, engine, removalFails);
            var w := ProcessOmrAsWritten(req, root, ts, d, net, engine, removalFails);
            && (p.exit != OuterFailure ==> Respond(w.outcome) == h.reply && w.disk == h.disk)
            && (p.exit == OuterFailure ==>
                  && h.reply.status == Ok
                  && Respond(w.outcome) == HttpReply(ServerError, Error(InternalError))
                  && RequestDir(root, ts) !in h.disk.dirs
                  && RequestDir(root, ts) in w.disk.dirs)
            && (Respond(w.outcome).status == Ok <==> Provisions(root, ts, d) && p.exit != OuterFailure)
  {
    AsWrittenPartsOnlyInOuterExcept(req, root, ts, d, net, engine, removalFails);
    EscapesIffNotProvisioned(req, root, ts, d, net, engine, removalFails);
    WorkspaceByExit(req, root, ts, d, net, engine, removalFails);
  }

  /**
   * A body without `template_url`: the intended outer `except` answers 200
   * with the outer prefix and the `KeyError`, and leaves no request
   * directory; as written, the handler answers 500 and the request
   * directory stays.
   */
  lemma MissingTemplateReply(req: Request, root: Path, ts: string, d: Disk, net: string -> Response,
                             engine: EngineCall -> EngineResult, removalFails: bool)
    requires WellFormed(d) && Provisions(root, ts, d) && req.templateUrl.None?
    ensures var h := Handle(Object(req), root, ts, d, net, engine, removalFails);
            && h.reply == HttpReply(Ok, Error(OuterPrefix + KeyErrorText("template_url")))
            && RequestDir(root, ts) !in h.disk.dirs
    ensures var w := ProcessOmrAsWritten(req, root, ts, d, net, engine, removalFails);
            && Respond(w.outcome) == HttpReply(ServerError, Error(InternalError))
            && RequestDir(root, ts) in w.disk.dirs
  {
    MissingTemplateShowsOuterExcept(req, root, ts, d, net, engine, removalFails);
  }

  /** Writing two batches of files one after the other is writing their union. */
  lemma MergeAssociative(a: map<Path, Bytes>, b: map<Path, Bytes>, c: map<Path, Bytes>)
    ensures (a + b) + c == a + (b + c)
  {
    assert forall k | k in (a + b) + c :: ((a + b) + c)[k] == (a + (b + c))[k];
  }

  class Host {
    /** The directory `api.py` lives in. */
    const root: Path
    var dirs: set<Path>
    var files: map<Path, Bytes>
    /** The GETs issued and the engine calls made so far, in order. */
    ghost var trace: seq<Event>

    function State(): Disk
      reads this
    {
      Disk(dirs, files)
    }

    constructor (root: Path, d: Disk)
      ensures this.root == root && State() == d && trace == []
    {
      this.root := root;
      dirs := d.dirs;
      files := d.files;
      trace := [];
    }

    /** `p.mkdir(exist_ok=existOk)`: `None`, or the text of the exception it raises. */
    method MakeDir(p: Path, existOk: bool) returns (err: Option<string>)
      modifies this
      ensures err.None? <==> Mkdir(old(State()), p, existOk).Made?
      ensures err.None? ==> State() == Mkdir(old(State()), p, existOk).disk
      ensures err.Some? ==> State() == old(State()) && err.value == Mkdir(old(State()), p, existOk).error
      ensures trace == old(trace)
    {
      if p in dirs || p in files {
        if existOk && p in dirs {
          return None;
        }
        return Some(FileExists(p));
      }
      if p == [] || Parent(p) !in dirs {
        if exists i | 0 < i < |p| :: p[..i] in files {
          return Some(NotADirectory(p));
        }
        return Some(NoSuchFile(p));
      }
      dirs := dirs + {p};
      return None;
    }

    /** `shutil.rmtree(p, ignore_errors=True)`. */
    method RemoveTree(p: Path)
      modifies this
      ensures State() == FileSystem.RemoveTree(old(State()), p)
      ensures trace == old(trace)
    {
      dirs := set q | q in dirs && !(p <= q);
      files := map f | f in files && !(p <= f) :: files[f];
    }

    /**
     * `download_file(url, target)`: rewrite a share link, issue the GET,
     * check the status, open the target and write the body chunk by chunk;
     * every failure gives False.
     */
    method DownloadFile(url: string, target: Path, net: string -> Response) returns (ok: bool)
      modifies this
      ensures ok == Download(old(dirs), target, net(Rewrite(url))).ok
      ensures State() == Store(old(State()), target, Download(old(dirs), target, net(Rewrite(url))))
      ensures trace == old(trace) + [Get(Rewrite(url))]
    {
      var u := url;
      if Contains(url, DropboxHost) && Contains(url, PreviewParam) {
        u := Replace(url, PreviewParam, DownloadParam);
      }
      trace := trace + [Get(u)];
      var resp := net(u);
      if resp.RequestFailed? || IsHttpError(resp.status) {
        return false;
      }
      if target == [] || Parent(target) !in dirs || target in dirs {
        return false;
      }
      files := files[target := []];
      var i := 0;
      while i < |resp.chunks|
        invariant 0 <= i <= |resp.chunks|
        invariant files == old(files)[target := Concat(resp.chunks[..i])]
        invariant dirs == old(dirs) && trace == old(trace) + [Get(u)]
      {
        assert resp.chunks[..i + 1][..i] == resp.chunks[..i];
        files := files[target := files[target] + resp.chunks[i]];
        i := i + 1;
      }
      assert resp.chunks[..i] == resp.chunks;
      return !resp.broken;
    }

    /** The state after the downloads of `run` from `d0`, the calls made before them being `t0`. */
    ghost predicate Holds(run: Run, d0: Disk, t0: seq<Event>)
      reads this
    {
      State() == Disk(d0.dirs, d0.files + run.saved) && trace == t0 + run.trace
    }

    /** `outcome` and the state are what the outer scope gives once the downloads ran as `run`. */
    ghost predicate Concluded(outcome: Outcome, req: Request, ts: string, run: Run,
                              engine: EngineCall -> EngineResult, removalFails: bool, d0: Disk, t0: seq<Event>)
      reads this
    {
      var p := Conclude(req, root, ts, d0, run, engine, removalFails);
      outcome == p.outcome && State() == p.disk && trace == t0 + p.trace
    }

    /** One line of the fetch sequence, taken after the phase `done` fetched everything so far. */
    method FetchStep(step: Step, net: string -> Response, ghost done: Run, ghost d0: Disk, ghost t0: seq<Event>)
      returns (stop: Stop, ghost next: Run)
      requires Holds(done, d0, t0) && done.stop.AllFetched?
      modifies this
      ensures next == Then(done, StepRun(d0.dirs, net, step)) && Holds(next, d0, t0)
      ensures stop == next.stop == StepRun(d0.dirs, net, step).stop
    {
      ghost var s := StepRun(d0.dirs, net, step);
      MergeAssociative(d0.files, done.saved, s.saved);
      stop := RunStep(step, net);
      next := Then(done, s);
    }

    /** A download checked for False, or the `KeyError` of a missing key. */
    method RunStep(step: Step, net: string -> Response) returns (stop: Stop)
      modifies this
      ensures var s := StepRun(old(dirs), net, step);
              && stop == s.stop && dirs == old(dirs) && files == old(files) + s.saved
              && trace == old(trace) + s.trace
    {
      match step
      case MissingKey(k) =>
        stop := KeyMissing(k);
        assert files + map[] == files && trace + [] == trace;
      case GetFile(u, t, m) =>
        var ok := DownloadFile(u, t, net);
        stop := if ok then AllFetched else FetchFailed(m);
    }

    /** The outer `except`: remove the request directory and report `detail`. */
    method Abort(ts: string, detail: string) returns (outcome: Outcome)
      modifies this
      ensures var p := OuterAbort(root, ts, old(State()), [], detail);
              outcome == p.outcome && State() == p.disk && trace == old(trace)
    {
      RemoveTree(RequestDir(root, ts));
      outcome := Returned(Error(OuterPrefix + detail));
    }

    /** The inner `try`: call the engine, clean up on success, report an engine error. */
    method Engine(req: Request, ts: string, engine: EngineCall -> EngineResult, removalFails: bool)
      returns (outcome: Outcome)
      modifies this
      ensures var p := InnerScope(req, root, ts, old(State()), [], engine, removalFails);
              outcome == p.outcome && State() == p.disk && trace == old(trace) + p.trace
    {
      var call := EngineCallFor(req, root, ts);
      trace := trace + [Invoke(call)];
      match engine(call)
      case Raises(m) =>
        outcome := Returned(Error(InnerPrefix + m));
      case Responses(rs) =>
        if !removalFails {
          RemoveTree(RequestDir(root, ts));
        }
        outcome := Returned(Success(RelativeRequestDir(ts), rs));
    }

    /**
     * The phase `done` fetched everything so far and left the state it
     * describes, and with the remaining steps `rest` it comes to `target`.
     */
    ghost predicate Heading(rest: seq<Step>, done: Run, target: Run, d0: Disk, t0: seq<Event>, net: string -> Response)
      reads this
    {
      Holds(done, d0, t0) && done.stop.AllFetched? && Then(done, RunSteps(rest, d0.dirs, net)) == target
    }

    /** The next of the remaining steps: once it is taken, the phase still comes to `target`. */
    method TakeStep(step: Step, net: string -> Response, ghost rest: seq<Step>,
                    ghost done: Run, ghost target: Run, ghost d0: Disk, ghost t0: seq<Event>)
      returns (stop: Stop, ghost next: Run)
      requires rest != [] && rest[0] == step && Heading(rest, done, target, d0, t0, net)
      modifies this
      ensures stop == next.stop && Holds(next, d0, t0) && Then(next, RunSteps(rest[1..], d0.dirs, net)) == target
      ensures !stop.AllFetched? ==> next == target
    {
      RunStepsCons(done, rest, d0.dirs, net);
      stop, next := FetchStep(step, net, done, d0, t0);
    }

    /**
     * The end of the downloads: return the error of a failed one, raise the
     * `KeyError` of a missing key, or make the output directory and enter
     * the inner `try`.
     */
    method Settle(req: Request, ts: string, stop: Stop, engine: EngineCall -> EngineResult, removalFails: bool,
                  ghost run: Run, ghost d0: Disk, ghost t0: seq<Event>)
      returns (outcome: Outcome)
      requires Holds(run, d0, t0) && stop == run.stop
      modifies this
      ensures Concluded(outcome, req, ts, run, engine, removalFails, d0, t0)
    {
      match stop
      case FetchFailed(m) =>
        outcome := Returned(Error(m));
      case KeyMissing(k) =>
        outcome := Abort(ts, KeyErrorText(k));
      case AllFetched =>
        var err := MakeDir(OutputDir(root, ts), true);
        if err.Some? {
          outcome := Abort(ts, err.value);
        } else {
          outcome := Engine(req, ts, engine, removalFails);
        }
    }

    /**
     * The next of the remaining downloads `rest` after the phase `done`,
     * which is headed for `target`: fetch it and, if that did not succeed,
     * end the outer `try` there; `outcome` is the job's result only in
     * that case, and a placeholder the caller ignores otherwise.
     */
    method Advance(req: Request, ts: string, step: Step, net: string -> Response,
                   engine: EngineCall -> EngineResult, removalFails: bool,
                   ghost rest: seq<Step>, ghost done: Run, ghost target: Run, ghost d0: Disk, ghost t0: seq<Event>)
      returns (stop: Stop, outcome: Outcome, ghost next: Run)
      requires rest != [] && rest[0] == step && Heading(rest, done, target, d0, t0, net)
      modifies this
      ensures stop == next.stop && Then(next, RunSteps(rest[1..], d0.dirs, net)) == target
      ensures stop.AllFetched? ==> Holds(next, d0, t0)
      ensures !stop.AllFetched? ==> Concluded(outcome, req, ts, target, engine, removalFails, d0, t0)
    {
      stop, next := TakeStep(step, net, rest, done, target, d0, t0);
      outcome := Returned(Error(""));
      if !stop.AllFetched? {
        outcome := Settle(req, ts, stop, engine, removalFails, next, d0, t0);
      }
    }

    /**
     * The outer `try` once the images directory exists: template, config,
     * marker, then every sheet image in order, each checked before the
     * next; then the output directory and the inner `try`.
     */
    method Fetches(req: Request, ts: string, net: string -> Response,
                   engine: EngineCall -> EngineResult, removalFails: bool, ghost plan: seq<Step>)
      returns (outcome: Outcome)
      requires plan == Plan(req, root, ts)
      modifies this
      ensures var p := Conclude(req, root, ts, old(State()), RunSteps(plan, old(dirs), net), engine, removalFails);
              outcome == p.outcome && State() == p.disk && trace == old(trace) + p.trace
    {
      ghost var d0 := State();
      ghost var t0 := trace;
      ghost var target := RunSteps(plan, d0.dirs, net);
      ghost var done := Run(AllFetched, [], map[]);
      ThenEmpty(target);
      assert d0.files + map[] == d0.files && t0 + [] == t0;
      var stop;
      stop, outcome, done := Advance(req, ts,
                                        FieldStep(req.templateUrl, "template_url", TemplatePath(root, ts), TemplateFailure),
                                        net, engine, removalFails, plan, done, target, d0, t0);
      if !stop.AllFetched? {
        return;
      }
      stop, outcome, done := Advance(req, ts,
                                        FieldStep(req.configUrl, "config_url", ConfigPath(root, ts), ConfigFailure),
                                        net, engine, removalFails, plan[1..], done, target, d0, t0);
      if !stop.AllFetched? {
        return;
      }
      stop, outcome, done := Advance(req, ts,
                                        FieldStep(req.markerUrl, "marker_img_url", MarkerPath(root, ts), MarkerFailure),
                                        net, engine, removalFails, plan[1..][1..], done, target, d0, t0);
      if !stop.AllFetched? {
        return;
      }
      assert plan[1..][1..][1..] == ImageSteps(root, ts, req.images);
      outcome := FetchSheets(req, ts, net, engine, removalFails, done, target, d0, t0);
    }

    /** The images key: missing, or the image loop; then the end of the outer `try`. */
    method FetchSheets(req: Request, ts: string, net: string -> Response,
                       engine: EngineCall -> EngineResult, removalFails: bool,
                       ghost done: Run, ghost target: Run, ghost d0: Disk, ghost t0: seq<Event>)
      returns (outcome: Outcome)
      requires Holds(done, d0, t0) && done.stop.AllFetched?
      requires Then(done, RunSteps(ImageSteps(root, ts, req.images), d0.dirs, net)) == target
      modifies this
      ensures Concluded(outcome, req, ts, target, engine, removalFails, d0, t0)
    {
      match req.images
      case None =>
        var stop; ghost var next;
        stop, outcome, next := Advance(req, ts, MissingKey("images"), net, engine, removalFails,
                                       [MissingKey("images")], done, target, d0, t0);
      case Some(images) =>
        var stop; ghost var next;
        stop, next := FetchImages(ImageSteps(root, ts, Some(images)), net, done, target, d0, t0);
        outcome := Settle(req, ts, stop, engine, removalFails, next, d0, t0);
    }

    /**
     * The image loop, over the steps of the sheets in request order: each
     * is taken and checked before the next, and the first one that does
     * not succeed ends the loop.
     */
    method FetchImages(steps: seq<Step>, net: string -> Response,
                       ghost done0: Run, ghost target: Run, ghost d0: Disk, ghost t0: seq<Event>)
      returns (stop: Stop, ghost done: Run)
      requires Heading(steps, done0, target, d0, t0, net)
      modifies this
      ensures done == target && stop == done.stop && Holds(done, d0, t0)
    {
      done := done0;
      var i := 0;
      while i < |steps|
        invariant 0 <= i <= |steps| && Heading(steps[i..], done, target, d0, t0, net)
      {
        ghost var rest := steps[i..];
        stop, done := TakeStep(steps[i], net, rest, done, target, d0, t0);
        if !stop.AllFetched? {
          return;
        }
        assert rest[1..] == steps[i + 1..];
        i := i + 1;
      }
      assert done.saved + map[] == done.saved && done.trace + [] == done.trace;
      stop := AllFetched;
    }

    /**
     * `process_omr`: make `inputs` and the request directory (their errors
     * escape), then the outer `try`, whose first act is making the images
     * directory.
     */
    method ProcessOmr(req: Request, ts: string, net: string -> Response,
                      engine: EngineCall -> EngineResult, removalFails: bool)
      returns (outcome: Outcome)
      modifies this
      ensures var p := Pipeline.ProcessOmr(req, root, ts, old(State()), net, engine, removalFails);
              outcome == p.outcome && State() == p.disk && trace == old(trace) + p.trace
    {
      var err := MakeDir(InputsDir(root), true);
      if err.Some? {
        return Raised(err.value);
      }
      err := MakeDir(RequestDir(root, ts), false);
      if err.Some? {
        return Raised(err.value);
      }
      err := MakeDir(ImagesDir(root, ts), false);
      if err.Some? {
        outcome := Abort(ts, err.value);
        return;
      }
      outcome := Fetches(req, ts, net, engine, removalFails, Plan(req, root, ts));
    }

    /** The `/process` route. */
    method Process(body: Body, ts: string, net: string -> Response,
                   engine: EngineCall -> EngineResult, removalFails: bool)
      returns (reply: HttpReply)
      modifies this
      ensures var h := Handle(body, root, ts, old(State()), net, engine, removalFails);
              reply == h.reply && State() == h.disk && trace == old(trace) + h.trace
    {
      match body
      case Unreadable =>
        reply := HttpReply(ServerError, Error(InternalError));
      case Falsy =>
        reply := HttpReply(BadRequest, Error(NoData));
      case Object(req) =>
        var outcome := ProcessOmr(req, ts, net, engine, removalFails);
        reply := Respond(outcome);
    }
  }
}
