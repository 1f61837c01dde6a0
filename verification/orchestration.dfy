/** The decisions `main` takes: validate, upload the app if needed, start the
    batch run, poll it, and turn its final status into the step's outcome.

    The three HTTP calls are not modelled; their replies are parameters. Time
    is not modelled either: polling runs over a finite script of replies, and
    a sleep is counted rather than taken. */
module Orchestration {
  import opened Wrappers
  import opened SnakeCase
  import opened Settings
  import opened Payload

  /** Reply body of the upload-file call. */
  datatype UploadFile = UploadFile(fileName: string, fileNo: int)

  /** Test case tallies of a batch run. */
  datatype TestCases = TestCases(succeeded: int, failed: int, total: int)

  /** Reply body of the batch-run calls. */
  datatype BatchRun = BatchRun(
    organizationName: string,
    projectName: string,
    batchRunNumber: int,
    status: string,
    testCases: TestCases,
    url: string)

  /** One HTTP exchange as the step sees it: the request failed outright, or
      a response came back with a status code and a decoded body. */
  datatype Reply<T> = TransportError | Response(statusCode: int, body: T)

  /** `handleError`: the step goes on with the body of a 200 response and
      fails on anything else. */
  function HandleError<T>(reply: Reply<T>): (r: Option<T>)
    ensures r.Some? <==> reply.Response? && reply.statusCode == 200
    ensures r.Some? ==> r.value == reply.body
  {
    match reply
    case Response(200, body) => Some(body)
    case _ => None
  }

  // ------------------------------------------------------------- uploading

  /** An iOS simulator build is a directory and is zipped before upload. */
  predicate NeedsZip(cfg: Config) {
    cfg.osName == "ios" && cfg.deviceType == "simulator"
  }

  /** The archive `zipAppDir` writes: a sibling of the directory. */
  function ZipPath(dirPath: string): (zipPath: string)
    ensures |zipPath| == |dirPath| + 4
    ensures zipPath[..|dirPath|] == dirPath && zipPath[|dirPath|..] == ".zip"
  {
    dirPath + ".zip"
  }

  /** The file `uploadAppFile` sends: the app path, or its zip. */
  function UploadPath(cfg: Config): (path: string)
    ensures |cfg.appPath| <= |path| && path[..|cfg.appPath|] == cfg.appPath
    ensures path != cfg.appPath <==> NeedsZip(cfg)
    ensures NeedsZip(cfg) ==> path[|cfg.appPath|..] == ".zip"
  {
    if NeedsZip(cfg) then ZipPath(cfg.appPath) else cfg.appPath
  }

  // --------------------------------------------------------------- polling

  /** Seconds `main` sleeps after each "running" status. */
  const PollInterval: nat := 15

  /** Where the poll loop stopped, and how many "running" statuses it saw first. */
  datatype PollResult =
    | Finished(run: BatchRun, running: nat)  // a status other than "running" arrived
    | PollFailed(running: nat)               // a get-run call failed
    | StillRunning(running: nat)             // the script ended while the run was still running
  {
    /** Get-run calls made: the "running" ones and, unless the script ran out, one more. */
    function Requests(): nat {
      if StillRunning? then running else running + 1
    }

    /** Time slept: one interval after each "running" status, and no other. */
    function Slept(): nat {
      PollInterval * running
    }
  }

  /** A reply the loop keeps polling after. */
  predicate IsRunning(reply: Reply<BatchRun>) {
    HandleError(reply).Some? && HandleError(reply).value.status == "running"
  }

  /** The `for` loop of `main` over a script of get-run replies. There is no
      deadline: the loop only stops on a status that is not "running". */
  function Poll(replies: seq<Reply<BatchRun>>): (r: PollResult)
    ensures r.running <= |replies|
    ensures forall i :: 0 <= i < r.running ==> IsRunning(replies[i])
    ensures r.StillRunning? <==> r.running == |replies|
    ensures r.Finished? ==> r.running < |replies| && HandleError(replies[r.running]) == Some(r.run)
                            && r.run.status != "running"
    ensures r.PollFailed? ==> r.running < |replies| && HandleError(replies[r.running]).None?
  {
    if |replies| == 0 then StillRunning(0)
    else
      match HandleError(replies[0])
      case None => PollFailed(0)
      case Some(run) =>
        if run.status != "running" then Finished(run, 0)
        else
          var rest := Poll(replies[1..]);
          rest.(running := rest.running + 1)
  }

  /** Replies after the one the loop stops at are never read. */
  lemma {:induction false} PollIgnoresLaterReplies(replies: seq<Reply<BatchRun>>, later: seq<Reply<BatchRun>>)
    requires !Poll(replies).StillRunning?
    ensures Poll(replies + later) == Poll(replies)
  {
    assert |replies| > 0;
    assert (replies + later)[0] == replies[0];
    if IsRunning(replies[0]) {
      assert (replies + later)[1..] == replies[1..] + later;
      PollIgnoresLaterReplies(replies[1..], later);
    }
  }

  /** However many "running" statuses come first, the loop waits them all
      out and reports the first final status. */
  lemma {:induction false} PollHasNoDeadline(running: nat, step: BatchRun, final: BatchRun)
    requires step.status == "running" && final.status != "running"
    ensures Poll(seq(running, _ => Response(200, step)) + [Response(200, final)]) == Finished(final, running)
    ensures Poll(seq(running, _ => Response(200, step)) + [Response(200, final)]).Slept() == PollInterval * running
  {
    var replies := seq(running, _ => Response(200, step)) + [Response(200, final)];
    if running > 0 {
      assert replies[1..] == seq(running - 1, _ => Response(200, step)) + [Response(200, final)];
      PollHasNoDeadline(running - 1, step, final);
    }
  }

  // ------------------------------------------------------------ the step

  /** How the process ends: exit 0, exit 1, or not yet (the script of replies
      ended while the run was still running, so the real loop would go on). */
  datatype Exit = Success | Failure | Waiting

  /** A value handed to the build pipeline under a name. */
  datatype Export = Export(key: string, value: Value)

  /** Everything `main` does that the outside can observe. */
  datatype StepResult = StepResult(
    exit: Exit,
    errors: seq<string>,                  // validation errors logged before exiting
    uploaded: Option<string>,             // the file sent to upload-file, if any
    payload: Option<map<string, Value>>,  // the body sent to start the batch run, if any
    requests: nat,                        // get-run calls made
    slept: nat,                           // seconds slept between them
    exports: seq<Export>)

  /** The app file number the start request carries: the uploaded file's
      number for a cloud upload, -1 otherwise. */
  function AppFileNumber(cfg: Config, upload: Reply<UploadFile>): (n: int)
    requires cfg.appType == "app_file" ==> HandleError(upload).Some?
    ensures cfg.appType == "app_file" ==> n == upload.body.fileNo
    ensures cfg.appType != "app_file" ==> n == -1
  {
    if cfg.appType == "app_file" then HandleError(upload).value.fileNo else -1
  }

  /** The exports after the last poll: status and the three tallies. */
  function ResultExports(run: BatchRun): (e: seq<Export>)
    ensures |e| == 4
    ensures e[0] == Export("MAGIC_POD_TEST_STATUS", Text(run.status))
    ensures e[1] == Export("MAGIC_POD_TEST_SUCCEEDED_COUNT", Number(run.testCases.succeeded))
    ensures e[2] == Export("MAGIC_POD_TEST_FAILED_COUNT", Number(run.testCases.failed))
    ensures e[3] == Export("MAGIC_POD_TEST_TOTAL_COUNT", Number(run.testCases.total))
  {
    [Export("MAGIC_POD_TEST_STATUS", Text(run.status)),
     Export("MAGIC_POD_TEST_SUCCEEDED_COUNT", Number(run.testCases.succeeded)),
     Export("MAGIC_POD_TEST_FAILED_COUNT", Number(run.testCases.failed)),
     Export("MAGIC_POD_TEST_TOTAL_COUNT", Number(run.testCases.total))]
  }

  /** Polling and the classification of its result, after a successful start. */
  function Conclude(uploaded: Option<string>, payload: map<string, Value>, started: BatchRun,
                    replies: seq<Reply<BatchRun>>): (r: StepResult)
    ensures r.errors == [] && r.uploaded == uploaded && r.payload == Some(payload)
    ensures r.requests == Poll(replies).Requests() && r.slept == Poll(replies).Slept()
    ensures r.exit == Success <==> Poll(replies).Finished? && Poll(replies).run.status == "succeeded"
    ensures r.exit == Waiting <==> Poll(replies).StillRunning?
    ensures r.exports != [] && r.exports[0] == Export("MAGIC_POD_TEST_URL", Text(started.url))
    ensures Poll(replies).Finished? ==> r.exports == [r.exports[0]] + ResultExports(Poll(replies).run)
  {
    var urlExport := Export("MAGIC_POD_TEST_URL", Text(started.url));
    var polled := Poll(replies);
    match polled
    case Finished(run, _) =>
      var exit := if run.status == "succeeded" then Success else Failure;
      StepResult(exit, [], uploaded, Some(payload), polled.Requests(), polled.Slept(),
                 [urlExport] + ResultExports(run))
    case PollFailed(_) =>
      StepResult(Failure, [], uploaded, Some(payload), polled.Requests(), polled.Slept(), [urlExport])
    case StillRunning(_) =>
      StepResult(Waiting, [], uploaded, Some(payload), polled.Requests(), polled.Slept(), [urlExport])
  }

  /** Everything after a clean validation: upload, start, wait. */
  function Proceed(cfg: Config, upload: Reply<UploadFile>, start: Reply<BatchRun>,
                   replies: seq<Reply<BatchRun>>): (r: StepResult)
    ensures r.errors == []
    // the app is uploaded exactly for a cloud upload, zipped for an iOS simulator
    ensures r.uploaded.Some? <==> cfg.appType == "app_file"
    ensures r.uploaded.Some? ==> r.uploaded.value == UploadPath(cfg)
    // the run is started unless the upload failed
    ensures r.payload.Some? <==> (cfg.appType == "app_file" ==> HandleError(upload).Some?)
    ensures r.payload.Some? ==>
      r.payload.value == CreateStartBatchRunParams(cfg, if cfg.appType == "app_file" then upload.body.fileNo else -1)
    // polling happens only after a successful start, and only when waiting
    ensures r.requests == (if r.payload.Some? && HandleError(start).Some? && cfg.waitForResult
                           then Poll(replies).Requests() else 0)
    ensures r.slept == (if r.payload.Some? && HandleError(start).Some? && cfg.waitForResult
                        then Poll(replies).Slept() else 0)
    ensures r.exit == Success <==>
      r.payload.Some? && HandleError(start).Some?
      && (!cfg.waitForResult || (Poll(replies).Finished? && Poll(replies).run.status == "succeeded"))
    ensures r.exit == Waiting <==>
      r.payload.Some? && HandleError(start).Some? && cfg.waitForResult && Poll(replies).StillRunning?
    // the detail URL is exported as soon as the run has started
    ensures r.exports != [] <==> r.payload.Some? && HandleError(start).Some?
    ensures r.exports != [] ==> r.exports[0] == Export("MAGIC_POD_TEST_URL", Text(start.body.url))
    // the final status and tallies are exported once the loop has seen them
    ensures r.exports != [] && cfg.waitForResult && Poll(replies).Finished? ==>
      r.exports[1..] == ResultExports(Poll(replies).run)
    ensures r.exports != [] && !(cfg.waitForResult && Poll(replies).Finished?) ==> |r.exports| == 1
  {
    var uploaded := if cfg.appType == "app_file" then Some(UploadPath(cfg)) else None;
    if cfg.appType == "app_file" && HandleError(upload).None? then
      StepResult(Failure, [], uploaded, None, 0, 0, [])
    else
      var payload := CreateStartBatchRunParams(cfg, AppFileNumber(cfg, upload));
      match HandleError(start)
      case None => StepResult(Failure, [], uploaded, Some(payload), 0, 0, [])
      case Some(started) =>
        if !cfg.waitForResult then
          StepResult(Success, [], uploaded, Some(payload), 0, 0,
                     [Export("MAGIC_POD_TEST_URL", Text(started.url))])
        else
          Conclude(uploaded, payload, started, replies)
  }

  /** `main`, from parsed settings and the scripted replies of the remote API:
      a validation error stops everything before any request. */
  function RunStep(raw: Config, upload: Reply<UploadFile>, start: Reply<BatchRun>,
                   replies: seq<Reply<BatchRun>>): (r: StepResult)
    ensures r.errors == ConvertToApiParams(raw).errors
    ensures r.errors != [] ==>
      r.exit == Failure && r.uploaded.None? && r.payload.None? && r.requests == 0 && r.exports == []
    ensures r.errors == [] ==> r == Proceed(ConvertToApiParams(raw).config, upload, start, replies)
  {
    var n := ConvertToApiParams(raw);
    if n.errors != [] then StepResult(Failure, n.errors, None, None, 0, 0, [])
    else Proceed(n.config, upload, start, replies)
  }

  // ------------------------------------------------------------ properties

  /** With waiting on, the step succeeds only if the first status other than
      "running" is "succeeded"; every status before it was "running". */
  lemma {:induction false} SuccessMeansSucceeded(raw: Config, upload: Reply<UploadFile>, start: Reply<BatchRun>,
                                                 replies: seq<Reply<BatchRun>>)
    requires ConvertToApiParams(raw).config.waitForResult
    requires RunStep(raw, upload, start, replies).exit == Success
    ensures exists i :: 0 <= i < |replies| && HandleError(replies[i]).Some?
                        && HandleError(replies[i]).value.status == "succeeded"
                        && forall j :: 0 <= j < i ==> IsRunning(replies[j])
  {
    var p := Poll(replies);
    assert p.Finished?;
    assert HandleError(replies[p.running]).value.status == "succeeded";
  }

  /** A rejected upload ends the step before the run is started. */
  lemma UploadRejectedNeverStarts(cfg: Config, upload: Reply<UploadFile>, start: Reply<BatchRun>,
                                  replies: seq<Reply<BatchRun>>)
    requires cfg.appType == "app_file"
    requires upload == TransportError || (upload.Response? && upload.statusCode != 200)
    ensures Proceed(cfg, upload, start, replies).exit == Failure
    ensures Proceed(cfg, upload, start, replies).payload.None?
    ensures Proceed(cfg, upload, start, replies).requests == 0
  {
  }

  /** The settings' display values "iOS" and "Simulator" snake-case to
      "ios" and "simulator", so such a cloud upload sends the zipped bundle. */
  lemma IosSimulatorUploadsZip(raw: Config, upload: Reply<UploadFile>, start: Reply<BatchRun>,
                               replies: seq<Reply<BatchRun>>)
    requires raw.osName == "iOS" && raw.deviceType == "Simulator" && raw.appType == "App file (cloud upload)"
    requires AllKnown(raw)
    ensures RunStep(raw, upload, start, replies).uploaded == Some(raw.appPath + ".zip")
  {
    IosSimulatorNormalized(raw);
  }

  lemma IosSimulatorNormalized(raw: Config)
    requires raw.osName == "iOS" && raw.deviceType == "Simulator" && raw.appType == "App file (cloud upload)"
    ensures var cfg := ConvertToApiParams(raw).config;
      NeedsZip(cfg) && cfg.appType == "app_file" && cfg.appPath == raw.appPath
  {
    SnakeCaseIos();
    SnakeCaseSimulator();
    Params.ListedAppTypes();
  }

  /** Waiting disabled: the step succeeds as soon as the run has started,
      without a single get-run call. */
  lemma NoWaitSucceedsOnStart(cfg: Config, upload: Reply<UploadFile>, start: Reply<BatchRun>,
                              replies: seq<Reply<BatchRun>>)
    requires !cfg.waitForResult
    requires cfg.appType == "app_file" ==> HandleError(upload).Some?
    requires HandleError(start).Some?
    ensures Proceed(cfg, upload, start, replies).exit == Success
    ensures Proceed(cfg, upload, start, replies).requests == 0
  {
  }

  /** The replies of a run polled twice while "running" and then found
      "succeeded" with 2 of 2 test cases passed. */
  function TwoRunningThenSucceeded(started: BatchRun): (replies: seq<Reply<BatchRun>>)
    ensures |replies| == 3
  {
    var running := Response(200, started.(status := "running"));
    [running, running, Response(200, started.(status := "succeeded", testCases := TestCases(2, 0, 2)))]
  }

  /** Two "running" polls and then "succeeded" with tallies 2/0/2: the step
      succeeds after two sleeps and exports the status and the tallies. */
  lemma SucceededAfterTwoPolls(uploaded: Option<string>, payload: map<string, Value>, started: BatchRun)
    ensures Conclude(uploaded, payload, started, TwoRunningThenSucceeded(started)).exit == Success
    ensures Conclude(uploaded, payload, started, TwoRunningThenSucceeded(started)).requests == 3
    ensures Conclude(uploaded, payload, started, TwoRunningThenSucceeded(started)).slept == 2 * PollInterval
    ensures Conclude(uploaded, payload, started, TwoRunningThenSucceeded(started)).exports == [
      Export("MAGIC_POD_TEST_URL", Text(started.url)),
      Export("MAGIC_POD_TEST_STATUS", Text("succeeded")),
      Export("MAGIC_POD_TEST_SUCCEEDED_COUNT", Number(2)),
      Export("MAGIC_POD_TEST_FAILED_COUNT", Number(0)),
      Export("MAGIC_POD_TEST_TOTAL_COUNT", Number(2))]
  {
    var step := started.(status := "running");
    var final := started.(status := "succeeded", testCases := TestCases(2, 0, 2));
    var replies := TwoRunningThenSucceeded(started);
    PollHasNoDeadline(2, step, final);
    assert replies == seq(2, _ => Response(200, step)) + [Response(200, final)];
    assert Poll(replies) == Finished(final, 2);
  }
}
