/** The `/quiz-run` endpoint: check the secret, render the page, create a
    run folder, then ask for a collector script, run it, keep what it
    scraped, ask for a processing script, run it, ask for the final answer
    and submit it, saving every intermediate artifact in the run folder.

    The outside world of one request is a `World`: the renderer, the chat
    service, the JSON parser, the submission endpoint and the ways the two
    child processes end are given in advance, so one call of `RunQuiz`
    is one run of the pipeline. */
module Router {
  import opened Wrappers
  import opened FileTree
  import opened Json
  import opened Sandbox
  import opened ChatCompletion
  import opened RunSaver
  import Executor
  import ExecutorProcessing
  import OpenAiOrchestrator
  import OpenAiProcessor
  import OpenAiFinalAnswer

  // ---------------------------------------------------------------------
  // The artifacts of a run, in the order they are written.

  const HtmlFile := "html.txt"
  const CollectorScriptFile := "data_collection_script.py"
  const CollectorStdoutFile := "collector_stdout.txt"
  const CollectorStderrFile := "collector_stderr.txt"
  const ProcessorScriptFile := "data_processing_script.py"
  const ProcessorStdoutFile := "processor_stdout.txt"
  const ProcessorStderrFile := "processor_stderr.txt"
  const AnswerFile := "final_answer.json"
  const SubmitFile := "submit_result.txt"

  const ArtifactNames: seq<string> :=
    [HtmlFile, CollectorScriptFile, CollectorStdoutFile, CollectorStderrFile,
     ProcessorScriptFile, ProcessorStdoutFile, ProcessorStderrFile, AnswerFile, SubmitFile]

  /** The sub-folder of the run folder that receives the processor's output. */
  const ProcessedName := "processed"

  const ForbiddenStatus := 403
  const InvalidSecret := "Invalid secret"

  /** What propagates when `os.makedirs` meets a file named `runs`: the
      existing head is skipped and creating the fresh leaf under that file
      fails. */
  const RunFolderBlocked := "NotADirectoryError: runs"

  /** What propagates when a generated script is not a string: `open`
      has already created the file, `write` raises. */
  const NotText := "TypeError: write() argument must be str"

  type Artifact = (string, string)

  // ---------------------------------------------------------------------
  // The request, the world and the outcome.

  datatype QuizRequest = QuizRequest(email: string, secret: string, url: string)

  /** The four fields `submit_answer` posts. */
  datatype Submission = Submission(email: string, secret: string, url: string, answer: Value)

  /** `submit_answer`'s dictionary: no status code when the post raised. */
  datatype SubmitResult = SubmitResult(statusCode: Option<int>, response: string)

  datatype World = World(
    render: string -> string,
    post: Request -> Reply,
    loads: string -> Option<Value>,
    collection: Outcome,
    processing: Outcome,
    submit: Submission -> SubmitResult)

  /** The calls into the stages, as the endpoint makes them. */
  datatype Call =
    | Render(url: string)
    | GenerateCollector(html: string, url: string)
    | RunCollector(script: string)
    | GenerateProcessor(html: string, url: string, files: seq<string>)
    | RunProcessor(script: string, folder: Path)
    | GenerateAnswer(stdout: string, html: string, url: string)
    | Submit(submission: Submission)

  /** Where an exception escaped the endpoint. */
  datatype Stage = RunFolderStage | CollectorScriptStage | ProcessorScriptStage | ProcessingStage | AnswerStage

  datatype QuizResult =
    | Rejected(status: int, detail: string)
    | CollectionFailed(runFolder: Path, error: Option<string>)
    | Completed(answer: Value, submitResult: SubmitResult, runFolder: Path)
    | Crashed(stage: Stage, message: string)

  /** The submission result as a Python dictionary. */
  function SubmitValue(s: SubmitResult): (v: Value)
    ensures v.Object? && |v.members| == 2
    ensures v.members[0] == ("status_code", if s.statusCode.Some? then Number(s.statusCode.value) else Null)
    ensures v.members[1] == ("response", Text(s.response))
  {
    Object([("status_code", match s.statusCode case Some(c) => Number(c) case None => Null),
            ("response", Text(s.response))])
  }

  /** Reading the dictionary back by key gives the status code (or `None`
      when no response arrived) and the response text. */
  lemma SubmitFields(s: SubmitResult)
    ensures Get(SubmitValue(s), "status_code")
         == Some(if s.statusCode.Some? then Number(s.statusCode.value) else Null)
    ensures Get(SubmitValue(s), "response") == Some(Text(s.response))
  {
    GetMember(SubmitValue(s).members, 0);
    GetMember(SubmitValue(s).members, 1);
  }

  /** `str(submit_result)`. */
  function SubmitText(s: SubmitResult): string {
    Repr(SubmitValue(s))
  }

  /** The saved submission result spells out the Python dictionary. */
  lemma SubmitTextShape(s: SubmitResult)
    ensures SubmitText(s) == "{" + ("'status_code': " + Repr(SubmitValue(s).members[0].1) + ", "
                                    + ("'response': " + ("'" + s.response + "'"))) + "}"
  {
    SubmitTextJoin(s);
    KeysQuoted();
  }

  /** How `repr` opens the two members. */
  lemma KeysQuoted()
    ensures "'" + "status_code" + "': " == "'status_code': "
    ensures "'" + "response" + "': " == "'response': "
  {
  }

  lemma SubmitTextJoin(s: SubmitResult)
    ensures var v := SubmitValue(s);
      SubmitText(s) == "{" + (("'" + "status_code" + "': " + Repr(v.members[0].1)) + ", "
                               + ("'" + "response" + "': " + Repr(Text(s.response)))) + "}"
  {
    var v := SubmitValue(s);
    var a := "'" + "status_code" + "': " + Repr(v.members[0].1);
    var b := "'" + "response" + "': " + Repr(Text(s.response));
    assert ReprMembers(v, 1) == [b];
    assert ReprMembers(v, 0) == [a, b];
    assert [a, b][1..] == [b];
    assert JoinWith(", ", [a, b]) == a + ", " + b;
  }

  /** What `run_processing_script` returns once its copy step went through. */
  function ProcessingReport(script: string, ws: Path, outcome: Outcome): ExecResult {
    if !ExecutorProcessing.ScriptSafe(script) then ErrorResult(ExecutorProcessing.UnsafeMessage)
    else match outcome
      case Timeout(_) => ErrorResult(ExecutorProcessing.TimeoutMessage)
      case Completed(out, err, _, _) => RanResult(out, err, ws)
  }

  /** The processing executor returns that report exactly when the scraped
      folder exists and holds no directory named `processor.py`. */
  lemma ProcessingReportAgrees(m: Tree, script: string, src: Path, ws: Path, outcome: Outcome)
    ensures ExecutorProcessing.ProcessingResult(m, script, src, ws, outcome).Success?
        <==> !ExecutorProcessing.ScriptSafe(script)
             || (Resolves(m, src) && !IsDirEntry(m, src + [ExecutorProcessing.ScriptName]))
    ensures ExecutorProcessing.ProcessingResult(m, script, src, ws, outcome).Success? ==>
      ExecutorProcessing.ProcessingResult(m, script, src, ws, outcome).value == ProcessingReport(script, ws, outcome)
  {
  }

  // ---------------------------------------------------------------------
  // What the endpoint promises.

  /** The run stopped at the collection gate: the collector script was a
      string, its result named no folder, four artifacts were saved and no
      later stage was called. */
  predicate CollectionStopped(cfg: Config, w: World, url: string, ws: Path, error: Option<string>,
                              trace: seq<Call>, log: seq<Artifact>)
  {
    var html := w.render(url);
    var gen := OpenAiOrchestrator.GenerateDataCollectionScript(cfg, w.post, w.loads, html, url);
    && gen.Success? && gen.value.Text?
    && var script := gen.value.s;
    && var cr := Executor.CollectionResult(script, ws, w.collection);
    && cr.folder.None? && error == cr.error
    && trace == [Render(url)] + [GenerateCollector(html, url), RunCollector(script)]
    && log == [(HtmlFile, html), (CollectorScriptFile, script),
               (CollectorStdoutFile, cr.stdout.GetOr("")), (CollectorStderrFile, cr.stderr.GetOr(""))]
  }

  /** The run went through every stage: each call got what the previous
      stages produced, whatever the processor reported, and all nine
      artifacts were saved in order. */
  predicate RanToEnd(cfg: Config, w: World, req: QuizRequest, wsC: Path, wsP: Path, files: seq<string>,
                     answer: Value, submitResult: SubmitResult, trace: seq<Call>, log: seq<Artifact>)
  {
    var url := req.url;
    var html := w.render(url);
    var gen := OpenAiOrchestrator.GenerateDataCollectionScript(cfg, w.post, w.loads, html, url);
    && gen.Success? && gen.value.Text?
    && var script := gen.value.s;
    && var cr := Executor.CollectionResult(script, wsC, w.collection);
    && cr.folder == Some(wsC)
    && var pgen := OpenAiProcessor.GenerateDataProcessingScript(cfg, w.post, w.loads, html, url, files);
    && pgen.Success? && pgen.value.Text?
    && var pscript := pgen.value.s;
    && var processed := ProcessingReport(pscript, wsP, w.processing);
    && var pout := processed.stdout.GetOr("");
    && OpenAiFinalAnswer.GenerateFinalAnswer(cfg, w.post, w.loads, pout, html, url) == Success(answer)
    && var submission := Submission(req.email, req.secret, url, answer);
    && submitResult == w.submit(submission)
    && trace == [Render(url)]
                + [GenerateCollector(html, url), RunCollector(script)]
                + [GenerateProcessor(html, url, files), RunProcessor(pscript, wsC)]
                + [GenerateAnswer(pout, html, url), Submit(submission)]
    && log == [(HtmlFile, html), (CollectorScriptFile, script),
               (CollectorStdoutFile, cr.stdout.GetOr("")), (CollectorStderrFile, cr.stderr.GetOr(""))]
              + [(ProcessorScriptFile, pscript),
                 (ProcessorStdoutFile, pout), (ProcessorStderrFile, processed.stderr.GetOr(""))]
              + [(AnswerFile, Str(answer)), (SubmitFile, SubmitText(submitResult))]
  }

  /** Every logged artifact is a file of the run folder holding its text. */
  ghost predicate Saved(m: Tree, run: Path, log: seq<Artifact>) {
    forall i :: 0 <= i < |log| ==> run + [log[i].0] in m && m[run + [log[i].0]] == File(log[i].1)
  }

  /** Below `dst` lies the same tree as below `src`. */
  ghost predicate Mirror(m: Tree, src: Path, dst: Path) {
    forall r :: r != [] ==> (src + r in m <==> dst + r in m) && (src + r in m ==> m[src + r] == m[dst + r])
  }

  /** The temp directory exists outside `runs`, and the run folder and the
      two workspaces have fresh names. */
  ghost predicate RunEnvironment(m: Tree, now: DateTime, runUuid: string, tmp: Path,
                                 collectorId: string, processorId: string)
  {
    && |tmp| > 0 && tmp[0] != RunsDir
    && Resolves(m, tmp)
    && Fresh(m, RunFolder(now, runUuid))
    && Fresh(m, Executor.Workspace(tmp, collectorId))
    && Fresh(m, ExecutorProcessing.Workspace(tmp, processorId))
  }

  /** Where one run puts things. */
  function RunLayout(now: DateTime, runUuid: string, tmp: Path, collectorId: string, processorId: string): Layout {
    Layout(RunFolder(now, runUuid), tmp, Executor.Workspace(tmp, collectorId),
           ExecutorProcessing.Workspace(tmp, processorId))
  }

  /** The collector's child left a directory named `processor.py` at the
      top of its workspace, where the processing executor later writes its
      script. */
  predicate SlotTaken(collection: Outcome) {
    var slot := [ExecutorProcessing.ScriptName];
    slot in collection.produced && collection.produced[slot].Dir?
  }

  /** How a run that got past `create_run_folder` ends. */
  datatype Ending = Stopped(stage: Stage) | Gated | Answered

  function EndingOf(r: QuizResult): Ending
    requires !r.Rejected?
  {
    match r
    case Crashed(stage, _) => Stopped(stage)
    case CollectionFailed(_, _) => Gated
    case Completed(_, _, _) => Answered
  }

  /** The names `os.listdir` gave the processor stage, once the run got
      that far. */
  function ListedFiles(trace: seq<Call>): seq<string> {
    if |trace| > 3 && trace[3].GenerateProcessor? then trace[3].files else []
  }

  /** Which way a run in world `w` ends once its run folder exists, given
      the names `os.listdir` returned: a generation that raises or yields
      no string stops the run at its stage; a collector result without a
      folder stops it at the gate; a safe processing script whose path is
      a directory stops it at the processing stage; whatever else the
      processor reported, the run goes on to the answer, which completes it
      unless its generation raises. */
  function Expected(cfg: Config, w: World, req: QuizRequest, L: Layout, files: seq<string>): Ending {
    var html := w.render(req.url);
    var gen := OpenAiOrchestrator.GenerateDataCollectionScript(cfg, w.post, w.loads, html, req.url);
    if !(gen.Success? && gen.value.Text?) then Stopped(CollectorScriptStage)
    else if Executor.CollectionResult(gen.value.s, L.wsC, w.collection).folder.None? then Gated
    else ProcessorEnding(cfg, w, req, L, html, files)
  }

  /** `Expected` past the gate. */
  function ProcessorEnding(cfg: Config, w: World, req: QuizRequest, L: Layout, html: string, files: seq<string>): Ending {
    var pgen := OpenAiProcessor.GenerateDataProcessingScript(cfg, w.post, w.loads, html, req.url, files);
    if !(pgen.Success? && pgen.value.Text?) then Stopped(ProcessorScriptStage)
    else if ExecutorProcessing.ScriptSafe(pgen.value.s) && SlotTaken(w.collection) then Stopped(ProcessingStage)
    else AnswerEnding(cfg, w, req, html, ProcessingReport(pgen.value.s, L.wsP, w.processing).stdout.GetOr(""))
  }

  /** `Expected` once the processor reported. */
  function AnswerEnding(cfg: Config, w: World, req: QuizRequest, html: string, pout: string): Ending {
    if OpenAiFinalAnswer.GenerateFinalAnswer(cfg, w.post, w.loads, pout, html, req.url).Failure?
    then Stopped(AnswerStage)
    else Answered
  }

  /** Past the gate, the ending is decided by the processor stage. */
  lemma GateEnding(cfg: Config, w: World, req: QuizRequest, L: Layout, script: string, files: seq<string>)
    requires OpenAiOrchestrator.GenerateDataCollectionScript(cfg, w.post, w.loads, w.render(req.url), req.url)
             == Success(Text(script))
    requires Executor.CollectionResult(script, L.wsC, w.collection).folder.Some?
    ensures Expected(cfg, w, req, L, files) == ProcessorEnding(cfg, w, req, L, w.render(req.url), files)
  {
  }

  /** A run that got past the gate and crashed in the processor stage
      did so where the world predicts. */
  lemma ProcessorStopped(cfg: Config, w: World, req: QuizRequest, L: Layout, script: string, files: seq<string>,
                         trace: seq<Call>, stage: Stage)
    requires OpenAiOrchestrator.GenerateDataCollectionScript(cfg, w.post, w.loads, w.render(req.url), req.url)
             == Success(Text(script))
    requires Executor.CollectionResult(script, L.wsC, w.collection).folder.Some?
    requires |trace| > 3 && trace[3] == GenerateProcessor(w.render(req.url), req.url, files)
    requires var pgen := OpenAiProcessor.GenerateDataProcessingScript(cfg, w.post, w.loads, w.render(req.url), req.url, files);
      if pgen.Success? && pgen.value.Text?
      then stage == ProcessingStage && ExecutorProcessing.ScriptSafe(pgen.value.s) && SlotTaken(w.collection)
      else stage == ProcessorScriptStage
    ensures Expected(cfg, w, req, L, ListedFiles(trace)) == Stopped(stage)
  {
    GateEnding(cfg, w, req, L, script, files);
  }

  /** A run whose answer generation raised crashed where the world
      predicts. */
  lemma AnswerStopped(cfg: Config, w: World, req: QuizRequest, L: Layout, script: string, files: seq<string>,
                      pscript: string, trace: seq<Call>)
    requires OpenAiOrchestrator.GenerateDataCollectionScript(cfg, w.post, w.loads, w.render(req.url), req.url)
             == Success(Text(script))
    requires Executor.CollectionResult(script, L.wsC, w.collection).folder.Some?
    requires |trace| > 3 && trace[3] == GenerateProcessor(w.render(req.url), req.url, files)
    requires OpenAiProcessor.GenerateDataProcessingScript(cfg, w.post, w.loads, w.render(req.url), req.url, files)
             == Success(Text(pscript))
    requires !(ExecutorProcessing.ScriptSafe(pscript) && SlotTaken(w.collection))
    requires OpenAiFinalAnswer.GenerateFinalAnswer(cfg, w.post, w.loads,
               ProcessingReport(pscript, L.wsP, w.processing).stdout.GetOr(""), w.render(req.url), req.url).Failure?
    ensures Expected(cfg, w, req, L, ListedFiles(trace)) == Stopped(AnswerStage)
  {
    GateEnding(cfg, w, req, L, script, files);
    ProcessedEnding(cfg, w, req, L, w.render(req.url), files, pscript);
  }

  /** Once the processing script ran, the ending is decided by the answer
      stage, whatever the processor reported. */
  lemma ProcessedEnding(cfg: Config, w: World, req: QuizRequest, L: Layout, html: string, files: seq<string>,
                        pscript: string)
    requires OpenAiProcessor.GenerateDataProcessingScript(cfg, w.post, w.loads, html, req.url, files)
             == Success(Text(pscript))
    requires !(ExecutorProcessing.ScriptSafe(pscript) && SlotTaken(w.collection))
    ensures ProcessorEnding(cfg, w, req, L, html, files)
         == AnswerEnding(cfg, w, req, html, ProcessingReport(pscript, L.wsP, w.processing).stdout.GetOr(""))
  {
  }

  /** The run got past the collection gate. */
  predicate PastGate(r: QuizResult) {
    r.Completed? || (r.Crashed? && r.stage != RunFolderStage && r.stage != CollectorScriptStage)
  }

  /** What the endpoint promises once the secret matched: the page was
      rendered first, every logged artifact is saved in the run folder,
      the run ends the way the world predicts, once past the gate the
      scraped files are kept and listed, and each way of ending says how
      far the run went. */
  ghost predicate Promise(m: Tree, cfg: Config, w: World, req: QuizRequest, L: Layout,
                          r: QuizResult, trace: seq<Call>, log: seq<Artifact>)
  {
    && !r.Rejected?
    && |trace| > 0 && trace[0] == Render(req.url)
    && (r.Crashed? && r.stage == RunFolderStage ==> trace == [Render(req.url)] && log == [])
    && (r.Crashed? && r.stage == ProcessingStage ==> r.message == ExecutorProcessing.ScriptPathIsDirectory)
    && Saved(m, L.run, log)
    && (!(r.Crashed? && r.stage == RunFolderStage) ==> EndingOf(r) == Expected(cfg, w, req, L, ListedFiles(trace)))
    && (PastGate(r) ==>
          && |trace| > 3 && trace[3].GenerateProcessor?
          && Listing(m, L.wsC, trace[3].files) && Mirror(m, L.wsC, L.ScrapedCopy()))
    && (r.CollectionFailed? ==>
          && r.runFolder == L.run
          && CollectionStopped(cfg, w, req.url, L.wsC, r.error, trace, log)
          && L.run + [ScrapedName] !in m)
    && (r.Completed? ==>
          r.runFolder == L.run && CompletedRun(m, cfg, w, req, L, r.answer, r.submitResult, trace, log))
  }

  /** A run that went through: besides the calls and artifacts, the
      scraped files are what the collector's workspace held, and the run
      folder keeps a copy of each workspace (the processor's only when it
      reported one). */
  ghost predicate CompletedRun(m: Tree, cfg: Config, w: World, req: QuizRequest, L: Layout,
                               answer: Value, submitResult: SubmitResult, trace: seq<Call>, log: seq<Artifact>)
  {
    && |trace| == 7 && trace[3].GenerateProcessor?
    && var files := trace[3].files;
    && RanToEnd(cfg, w, req, L.wsC, L.wsP, files, answer, submitResult, trace, log)
    && Executor.ScriptName in files
    && Listing(m, L.wsC, files)
    && Mirror(m, L.wsC, L.ScrapedCopy())
    && var pgen := OpenAiProcessor.GenerateDataProcessingScript(cfg, w.post, w.loads, w.render(req.url), req.url, files);
    && var processed := ProcessingReport(pgen.value.s, L.wsP, w.processing);
    && (processed.folder.Some? ==> Mirror(m, L.wsP, L.ProcessedCopy()))
    && (processed.folder.None? ==> L.run + [ProcessedName] !in m)
  }

  /** A run that crashed after starting keeps its promise when it crashed
      where the world predicts, the page came first, the log is saved and,
      past the gate, the scraped files are kept and listed. */
  lemma CrashPromise(m: Tree, cfg: Config, w: World, req: QuizRequest, L: Layout, stage: Stage, message: string,
                     trace: seq<Call>, log: seq<Artifact>)
    requires stage != RunFolderStage
    requires stage == ProcessingStage ==> message == ExecutorProcessing.ScriptPathIsDirectory
    requires |trace| > 0 && trace[0] == Render(req.url) && Saved(m, L.run, log)
    requires Expected(cfg, w, req, L, ListedFiles(trace)) == Stopped(stage)
    requires stage != CollectorScriptStage ==>
      && |trace| > 3 && trace[3].GenerateProcessor?
      && Listing(m, L.wsC, trace[3].files) && Mirror(m, L.wsC, L.ScrapedCopy())
    ensures Promise(m, cfg, w, req, L, Crashed(stage, message), trace, log)
  {
  }

  /** A run that answered keeps its promise: the calls and artifacts line
      up stage by stage, and the two copies and the listing are in place. */
  lemma CompletedPromise(m: Tree, cfg: Config, w: World, req: QuizRequest, L: ValidLayout,
                         script: string, collected: ExecResult, files: seq<string>, pscript: string,
                         processed: ExecResult, answer: Value, submitResult: SubmitResult,
                         trace0: seq<Call>, log0: seq<Artifact>, trace: seq<Call>, log: seq<Artifact>)
    requires var html := w.render(req.url);
      && OpenAiOrchestrator.GenerateDataCollectionScript(cfg, w.post, w.loads, html, req.url) == Success(Text(script))
      && collected == Executor.CollectionResult(script, L.wsC, w.collection) && collected.folder == Some(L.wsC)
      && OpenAiProcessor.GenerateDataProcessingScript(cfg, w.post, w.loads, html, req.url, files) == Success(Text(pscript))
      && processed == ProcessingReport(pscript, L.wsP, w.processing)
      && trace0 == [Render(req.url)] + [GenerateCollector(html, req.url), RunCollector(script)]
                   + [GenerateProcessor(html, req.url, files), RunProcessor(pscript, L.wsC)]
      && log0 == [(HtmlFile, html), (CollectorScriptFile, script),
                  (CollectorStdoutFile, collected.stdout.GetOr("")), (CollectorStderrFile, collected.stderr.GetOr(""))]
                 + [(ProcessorScriptFile, pscript),
                    (ProcessorStdoutFile, processed.stdout.GetOr("")),
                    (ProcessorStderrFile, processed.stderr.GetOr(""))]
      && OpenAiFinalAnswer.GenerateFinalAnswer(cfg, w.post, w.loads, processed.stdout.GetOr(""), html, req.url)
         == Success(answer)
      && var submission := Submission(req.email, req.secret, req.url, answer);
      && submitResult == w.submit(submission)
      && trace == trace0 + [GenerateAnswer(processed.stdout.GetOr(""), html, req.url), Submit(submission)]
      && log == log0 + [(AnswerFile, Str(answer)), (SubmitFile, SubmitText(submitResult))]
    requires Saved(m, L.run, log)
    requires L.wsC + [Executor.ScriptName] in m && Listing(m, L.wsC, files) && Mirror(m, L.wsC, L.ScrapedCopy())
    requires processed.folder.Some? ==> Mirror(m, L.wsP, L.ProcessedCopy())
    requires processed.folder.None? ==> L.run + [ProcessedName] !in m
    requires !(ExecutorProcessing.ScriptSafe(pscript) && SlotTaken(w.collection))
    ensures Promise(m, cfg, w, req, L, QuizResult.Completed(answer, submitResult, L.run), trace, log)
  {
    var html := w.render(req.url);
    assert |trace0| == 5 && trace0[3] == GenerateProcessor(html, req.url, files);
    assert |trace| == 7 && trace[3] == trace0[3] && trace[0] == trace0[0];
    assert RanToEnd(cfg, w, req, L.wsC, L.wsP, files, answer, submitResult, trace, log);
    assert Executor.ScriptName in files;
    assert CompletedRun(m, cfg, w, req, L, answer, submitResult, trace, log);
    AnswerGiven(cfg, w, req, L, script, files, pscript, answer, trace);
  }

  /** A run whose answer generation succeeded ended where the world
      predicts. */
  lemma AnswerGiven(cfg: Config, w: World, req: QuizRequest, L: Layout, script: string, files: seq<string>,
                    pscript: string, answer: Value, trace: seq<Call>)
    requires OpenAiOrchestrator.GenerateDataCollectionScript(cfg, w.post, w.loads, w.render(req.url), req.url)
             == Success(Text(script))
    requires Executor.CollectionResult(script, L.wsC, w.collection).folder.Some?
    requires |trace| > 3 && trace[3] == GenerateProcessor(w.render(req.url), req.url, files)
    requires OpenAiProcessor.GenerateDataProcessingScript(cfg, w.post, w.loads, w.render(req.url), req.url, files)
             == Success(Text(pscript))
    requires !(ExecutorProcessing.ScriptSafe(pscript) && SlotTaken(w.collection))
    requires OpenAiFinalAnswer.GenerateFinalAnswer(cfg, w.post, w.loads,
               ProcessingReport(pscript, L.wsP, w.processing).stdout.GetOr(""), w.render(req.url), req.url)
             == Success(answer)
    ensures Expected(cfg, w, req, L, ListedFiles(trace)) == Answered
  {
    GateEnding(cfg, w, req, L, script, files);
    ProcessedEnding(cfg, w, req, L, w.render(req.url), files, pscript);
  }

  /** `run_quiz`: the secret gate, then the pipeline. */
  method RunQuiz(fs: FileSystem, cfg: Config, configuredSecret: string, req: QuizRequest, w: World,
                 now: DateTime, runUuid: string, tmp: Path, collectorId: string, processorId: string)
    returns (r: QuizResult, trace: seq<Call>, log: seq<Artifact>)
    requires RunEnvironment(fs.entries, now, runUuid, tmp, collectorId, processorId)
    modifies fs
    ensures r.Rejected? <==> req.secret != configuredSecret
    ensures r.Rejected? ==>
      r == Rejected(ForbiddenStatus, InvalidSecret) && trace == [] && log == [] && fs.entries == old(fs.entries)
    ensures !r.Rejected? ==>
      Promise(fs.entries, cfg, w, req, RunLayout(now, runUuid, tmp, collectorId, processorId), r, trace, log)
    ensures !r.Rejected? ==>
      (r.Crashed? && r.stage == RunFolderStage <==> !NoFileOnPath(old(fs.entries), RunFolder(now, runUuid)))
  {
    if req.secret != configuredSecret {
      return Rejected(ForbiddenStatus, InvalidSecret), [], [];
    }
    var html := w.render(req.url);
    ghost var L := RunLayout(now, runUuid, tmp, collectorId, processorId);
    LayoutValid(now, runUuid, tmp, collectorId, processorId);
    var run, made := StartRun(fs, now, runUuid, L);
    if !made {
      return Crashed(RunFolderStage, RunFolderBlocked), [Render(req.url)], [];
    }
    r, trace, log := Pipeline(fs, run, cfg, w, req, html, tmp, collectorId, processorId, L);
  }

  /** From the saved page to the kept scraped data; the rest is `Finish`. */
  method Pipeline(fs: FileSystem, run: Path, cfg: Config, w: World, req: QuizRequest, html: string,
                  tmp: Path, collectorId: string, processorId: string, ghost L: ValidLayout)
    returns (r: QuizResult, trace: seq<Call>, log: seq<Artifact>)
    requires run == L.run && tmp == L.tmp && html == w.render(req.url)
    requires L.wsC == Executor.Workspace(tmp, collectorId) && L.wsP == ExecutorProcessing.Workspace(tmp, processorId)
    requires RunInv(fs.entries, run, {}) && Resolves(fs.entries, tmp)
    requires Fresh(fs.entries, L.wsC) && Fresh(fs.entries, L.wsP)
    modifies fs
    ensures Promise(fs.entries, cfg, w, req, L, r, trace, log)
    ensures !(r.Crashed? && r.stage == RunFolderStage)
  {
    var quizUrl := req.url;
    var gen := OpenAiOrchestrator.GenerateDataCollectionScript(cfg, w.post, w.loads, html, quizUrl);
    var crash, script, collected, collectTrace, collectLog, allowed :=
      Collecting(fs, run, gen, html, quizUrl, w.collection, tmp, collectorId, L);
    trace, log := [Render(quizUrl)] + collectTrace, collectLog;
    CollectingNames();
    if crash.Some? {
      r := Crashed(CollectorScriptStage, crash.value);
      CrashPromise(fs.entries, cfg, w, req, L, r.stage, r.message, trace, log);
      return;
    }
    if collected.folder.None? {
      NotCreated(fs.entries, run, allowed, ScrapedName);
      return CollectionFailed(run, collected.error), trace, log;
    }

    // keep what was scraped, then list it
    var scrapedFolder := collected.folder.value;
    KeepScraped(fs, run, scrapedFolder, L, allowed, log);
    var scrapedFiles := ListScraped(fs, scrapedFolder);
    r, trace, log := Finish(fs, run, cfg, w, req, html, script, collected, scrapedFiles, scrapedFolder,
                            trace, log, tmp, processorId, L, allowed + {ScrapedName});
  }

  /** `os.listdir(scraped_folder)`. */
  method ListScraped(fs: FileSystem, p: Path) returns (files: seq<string>)
    requires Resolves(fs.entries, p)
    ensures Listing(fs.entries, p, files)
  {
    var listed;
    files, listed := fs.ListDir(p);
    ListingFrom(fs.entries, p, files);
  }

  /** Processing the scraped data; the answer is `Conclude`. */
  method Finish(fs: FileSystem, run: Path, cfg: Config, w: World, req: QuizRequest, html: string,
                script: string, ghost collected: ExecResult, files: seq<string>, src: Path,
                trace0: seq<Call>, log0: seq<Artifact>, tmp: Path, processorId: string,
                ghost L: ValidLayout, ghost allowed: set<string>)
    returns (r: QuizResult, trace: seq<Call>, log: seq<Artifact>)
    requires run == L.run && tmp == L.tmp && src == L.wsC && html == w.render(req.url)
    requires L.wsP == ExecutorProcessing.Workspace(tmp, processorId)
    requires OpenAiOrchestrator.GenerateDataCollectionScript(cfg, w.post, w.loads, html, req.url) == Success(Text(script))
    requires collected == Executor.CollectionResult(script, L.wsC, w.collection) && collected.folder == Some(L.wsC)
    requires trace0 == [Render(req.url)] + [GenerateCollector(html, req.url), RunCollector(script)]
    requires log0 == [(HtmlFile, html), (CollectorScriptFile, script),
                      (CollectorStdoutFile, collected.stdout.GetOr("")), (CollectorStderrFile, collected.stderr.GetOr(""))]
    requires allowed == {HtmlFile, CollectorScriptFile, CollectorStdoutFile, CollectorStderrFile, ScrapedName}
    requires RunInv(fs.entries, run, allowed) && Held(fs.entries, run, allowed, log0)
    requires Resolves(fs.entries, tmp) && Fresh(fs.entries, L.wsP)
    requires Resolves(fs.entries, L.wsC) && L.wsC + [Executor.ScriptName] in fs.entries
    requires Mirror(fs.entries, L.wsC, L.ScrapedCopy()) && Listing(fs.entries, L.wsC, files)
    requires IsDirEntry(fs.entries, L.wsC + [ExecutorProcessing.ScriptName]) <==> SlotTaken(w.collection)
    modifies fs
    ensures Promise(fs.entries, cfg, w, req, L, r, trace, log)
    ensures !(r.Crashed? && r.stage == RunFolderStage)
  {
    ProcessingNamesFresh(allowed);
    var pgen := OpenAiProcessor.GenerateDataProcessingScript(cfg, w.post, w.loads, html, req.url, files);
    var failure, pscript, processed, processTrace, processLog, allowed' :=
      Processing(fs, run, pgen, html, req.url, files, w.processing, src, tmp, processorId, L, allowed, log0);
    if failure.Some? {
      r, trace, log := Crashed(failure.value.0, failure.value.1), trace0 + processTrace, processLog;
      assert trace[3] == processTrace[0];
      ProcessorStopped(cfg, w, req, L, script, files, trace, r.stage);
      CrashPromise(fs.entries, cfg, w, req, L, r.stage, r.message, trace, log);
      return;
    }
    AnswerNamesFresh(allowed, allowed', processed.folder.Some?);
    r, trace, log := Conclude(fs, run, cfg, w, req, html, script, collected, files, pscript, processed,
                              trace0 + processTrace, processLog, L, allowed');
  }

  /** From the processor's output to the submission. */
  method Conclude(fs: FileSystem, run: Path, cfg: Config, w: World, req: QuizRequest, html: string,
                  ghost script: string, ghost collected: ExecResult, files: seq<string>,
                  ghost pscript: string, processed: ExecResult,
                  trace0: seq<Call>, log0: seq<Artifact>, ghost L: ValidLayout, ghost allowed: set<string>)
    returns (r: QuizResult, trace: seq<Call>, log: seq<Artifact>)
    requires run == L.run && html == w.render(req.url)
    requires OpenAiOrchestrator.GenerateDataCollectionScript(cfg, w.post, w.loads, html, req.url) == Success(Text(script))
    requires collected == Executor.CollectionResult(script, L.wsC, w.collection) && collected.folder == Some(L.wsC)
    requires OpenAiProcessor.GenerateDataProcessingScript(cfg, w.post, w.loads, html, req.url, files) == Success(Text(pscript))
    requires processed == ProcessingReport(pscript, L.wsP, w.processing)
    requires trace0 == [Render(req.url)] + [GenerateCollector(html, req.url), RunCollector(script)]
                       + [GenerateProcessor(html, req.url, files), RunProcessor(pscript, L.wsC)]
    requires log0 == [(HtmlFile, html), (CollectorScriptFile, script),
                      (CollectorStdoutFile, collected.stdout.GetOr("")), (CollectorStderrFile, collected.stderr.GetOr(""))]
                     + [(ProcessorScriptFile, pscript),
                        (ProcessorStdoutFile, processed.stdout.GetOr("")),
                        (ProcessorStderrFile, processed.stderr.GetOr(""))]
    requires AnswerFile !in allowed && SubmitFile !in allowed
    requires processed.folder.None? ==> ProcessedName !in allowed
    requires RunInv(fs.entries, run, allowed) && Held(fs.entries, run, allowed, log0)
    requires L.wsC + [Executor.ScriptName] in fs.entries && Listing(fs.entries, L.wsC, files)
    requires Mirror(fs.entries, L.wsC, L.ScrapedCopy())
    requires processed.folder.Some? ==> Mirror(fs.entries, L.wsP, L.ProcessedCopy())
    requires !(ExecutorProcessing.ScriptSafe(pscript) && SlotTaken(w.collection))
    modifies fs
    ensures Promise(fs.entries, cfg, w, req, L, r, trace, log)
    ensures !(r.Crashed? && r.stage == RunFolderStage)
  {
    var processorStdout := processed.stdout.GetOr("");
    var agen := OpenAiFinalAnswer.GenerateFinalAnswer(cfg, w.post, w.loads, processorStdout, html, req.url);
    var refused, finalAnswer, submitResult, answerTrace, answerLog, allowed' :=
      Answering(fs, run, agen, req, html, processorStdout, w.submit, L, allowed, log0, files);
    trace, log := trace0 + answerTrace, answerLog;
    if refused.Some? {
      r := Crashed(AnswerStage, refused.value);
      assert trace[3] == trace0[3];
      AnswerStopped(cfg, w, req, L, script, files, pscript, trace);
      CrashPromise(fs.entries, cfg, w, req, L, r.stage, r.message, trace, log);
      return;
    }
    if processed.folder.None? {
      ProcessedNotCreated(fs.entries, run, allowed, allowed');
    }
    r := QuizResult.Completed(finalAnswer, submitResult, run);
    CompletedPromise(fs.entries, cfg, w, req, L, script, collected, files, pscript, processed,
                     finalAnswer, submitResult, trace0, log0, trace, log);
  }

  // ---------------------------------------------------------------------
  // The stages of a run.

  /** `create_run_folder`: it fails only when a file blocks the path. */
  method StartRun(fs: FileSystem, now: DateTime, runUuid: string, ghost L: ValidLayout) returns (run: Path, made: bool)
    requires L.run == RunFolder(now, runUuid)
    requires Fresh(fs.entries, L.run) && Resolves(fs.entries, L.tmp)
    requires Fresh(fs.entries, L.wsC) && Fresh(fs.entries, L.wsP)
    modifies fs
    ensures run == L.run && made == NoFileOnPath(old(fs.entries), run)
    ensures made ==>
      && RunInv(fs.entries, run, {}) && Resolves(fs.entries, L.tmp)
      && Fresh(fs.entries, L.wsC) && Fresh(fs.entries, L.wsP)
  {
    ghost var m := fs.entries;
    run, made := CreateRunFolder(fs, now, runUuid);
    if made {
      RunFolderStart(m, L);
    }
  }

  /** Save the page, ask for the collector script, save it, run it and
      save what it printed. */
  method Collecting(fs: FileSystem, run: Path, gen: Result<Value, string>, html: string, url: string,
                    collection: Outcome, tmp: Path, collectorId: string, ghost L: ValidLayout)
    returns (crash: Option<string>, script: string, collected: ExecResult,
             trace: seq<Call>, log: seq<Artifact>, ghost allowed: set<string>)
    requires run == L.run && tmp == L.tmp && L.wsC == Executor.Workspace(tmp, collectorId)
    requires RunInv(fs.entries, run, {}) && Resolves(fs.entries, tmp)
    requires Fresh(fs.entries, L.wsC) && Fresh(fs.entries, L.wsP)
    modifies fs
    ensures && (crash.None? <==> gen.Success? && gen.value.Text?)
      && (gen.Failure? ==>
            crash == Some(gen.error) && trace == [GenerateCollector(html, url)] && log == [(HtmlFile, html)])
      && (gen.Success? && !gen.value.Text? ==>
            && crash == Some(NotText) && trace == [GenerateCollector(html, url)]
            && log == [(HtmlFile, html), (CollectorScriptFile, "")])
      && (crash.None? ==>
            && script == gen.value.s
            && collected == Executor.CollectionResult(script, L.wsC, collection)
            && trace == [GenerateCollector(html, url), RunCollector(script)]
            && log == [(HtmlFile, html), (CollectorScriptFile, script),
                       (CollectorStdoutFile, collected.stdout.GetOr("")),
                       (CollectorStderrFile, collected.stderr.GetOr(""))]
            && allowed == {HtmlFile, CollectorScriptFile, CollectorStdoutFile, CollectorStderrFile})
    ensures RunInv(fs.entries, run, allowed) && Held(fs.entries, run, allowed, log)
    ensures Resolves(fs.entries, tmp) && Fresh(fs.entries, L.wsP)
    ensures crash.None? && collected.folder.Some? ==>
      && collected.folder.value == L.wsC && Resolves(fs.entries, L.wsC)
      && L.wsC + [Executor.ScriptName] in fs.entries
      && (IsDirEntry(fs.entries, L.wsC + [ExecutorProcessing.ScriptName]) <==> SlotTaken(collection))
  {
    allowed, log, script, collected := {}, [], "", ErrorResult("");
    CollectingNames();
    SaveArtifact(fs, run, HtmlFile, html, L, allowed, log, []);
    log, allowed := log + [(HtmlFile, html)], allowed + {HtmlFile};

    trace := [GenerateCollector(html, url)];
    if gen.Failure? {
      OneAfterEmpty((HtmlFile, html));
      return Some(gen.error), script, collected, trace, log, allowed;
    }
    if !gen.value.Text? {
      SaveArtifact(fs, run, CollectorScriptFile, "", L, allowed, log, []);
      log, allowed := log + [(CollectorScriptFile, "")], allowed + {CollectorScriptFile};
      TwoAfterEmpty((HtmlFile, html), (CollectorScriptFile, ""));
      return Some(NotText), script, collected, trace, log, allowed;
    }
    script := gen.value.s;
    SaveArtifact(fs, run, CollectorScriptFile, script, L, allowed, log, []);
    log, allowed := log + [(CollectorScriptFile, script)], allowed + {CollectorScriptFile};

    collected := Collect(fs, script, tmp, collectorId, collection, L, allowed, log);
    trace := trace + [RunCollector(script)];
    SaveArtifact(fs, run, CollectorStdoutFile, collected.stdout.GetOr(""), L, allowed, log, []);
    log, allowed := log + [(CollectorStdoutFile, collected.stdout.GetOr(""))], allowed + {CollectorStdoutFile};
    SaveArtifact(fs, run, CollectorStderrFile, collected.stderr.GetOr(""), L, allowed, log, []);
    log, allowed := log + [(CollectorStderrFile, collected.stderr.GetOr(""))], allowed + {CollectorStderrFile};
    FourAfterEmpty((HtmlFile, html), (CollectorScriptFile, script),
                   (CollectorStdoutFile, collected.stdout.GetOr("")), (CollectorStderrFile, collected.stderr.GetOr("")));
    TwoInARow(GenerateCollector(html, url), RunCollector(script));
    crash := None;
  }

  /** Ask for the processing script, save it, run it, save what it
      printed and keep its output folder. */
  method Processing(fs: FileSystem, run: Path, gen: Result<Value, string>, html: string, url: string,
                    files: seq<string>, processing: Outcome, src: Path, tmp: Path, processorId: string, ghost L: ValidLayout,
                    ghost allowed: set<string>, log: seq<Artifact>)
    returns (failure: Option<(Stage, string)>, script: string, processed: ExecResult,
             trace: seq<Call>, log': seq<Artifact>, ghost allowed': set<string>)
    requires run == L.run && src == L.wsC && tmp == L.tmp
    requires L.wsP == ExecutorProcessing.Workspace(tmp, processorId)
    requires RunInv(fs.entries, run, allowed) && Held(fs.entries, run, allowed, log)
    requires ProcessorScriptFile !in allowed && ProcessorStdoutFile !in allowed && ProcessorStderrFile !in allowed
    requires ProcessedName !in allowed && AnswerFile !in allowed && SubmitFile !in allowed
    requires Resolves(fs.entries, tmp) && Fresh(fs.entries, L.wsP)
    requires Resolves(fs.entries, L.wsC) && L.wsC + [Executor.ScriptName] in fs.entries
    requires Mirror(fs.entries, L.wsC, L.ScrapedCopy()) && Listing(fs.entries, L.wsC, files)
    modifies fs
    ensures && (gen.Failure? ==>
            failure == Some((ProcessorScriptStage, gen.error))
            && trace == [GenerateProcessor(html, url, files)] && log' == log)
      && (gen.Success? && !gen.value.Text? ==>
            && failure == Some((ProcessorScriptStage, NotText)) && trace == [GenerateProcessor(html, url, files)]
            && log' == log + [(ProcessorScriptFile, "")])
      && (gen.Success? && gen.value.Text? ==>
            && script == gen.value.s
            && trace == [GenerateProcessor(html, url, files), RunProcessor(script, src)]
            && (failure.Some? <==>
                  ExecutorProcessing.ScriptSafe(script) && IsDirEntry(old(fs.entries), src + [ExecutorProcessing.ScriptName]))
            && (failure.Some? ==>
                  failure == Some((ProcessingStage, ExecutorProcessing.ScriptPathIsDirectory))
                  && log' == log + [(ProcessorScriptFile, script)]))
      && (failure.None? ==>
            && gen.Success? && gen.value.Text?
            && processed == ProcessingReport(script, L.wsP, processing)
            && log' == log + [(ProcessorScriptFile, script),
                              (ProcessorStdoutFile, processed.stdout.GetOr("")),
                              (ProcessorStderrFile, processed.stderr.GetOr(""))]
            && allowed' == allowed + {ProcessorScriptFile, ProcessorStdoutFile, ProcessorStderrFile}
                           + (if processed.folder.Some? then {ProcessedName} else {}))
    ensures RunInv(fs.entries, run, allowed') && Held(fs.entries, run, allowed', log')
    ensures Mirror(fs.entries, L.wsC, L.ScrapedCopy()) && Listing(fs.entries, L.wsC, files)
    ensures failure.None? ==> processed.folder.Some? ==> Mirror(fs.entries, L.wsP, L.ProcessedCopy())
  {
    log', allowed', script, processed := log, allowed, "", ErrorResult("");
    ProcessingNames(allowed);
    trace := [GenerateProcessor(html, url, files)];
    if gen.Failure? {
      return Some((ProcessorScriptStage, gen.error)), script, processed, trace, log', allowed';
    }
    if !gen.value.Text? {
      SaveArtifact(fs, run, ProcessorScriptFile, "", L, allowed', log', files);
      log', allowed' := log' + [(ProcessorScriptFile, "")], allowed' + {ProcessorScriptFile};
      return Some((ProcessorScriptStage, NotText)), script, processed, trace, log', allowed';
    }
    script := gen.value.s;
    SaveArtifact(fs, run, ProcessorScriptFile, script, L, allowed', log', files);
    log', allowed' := log' + [(ProcessorScriptFile, script)], allowed' + {ProcessorScriptFile};

    var outcome := Process(fs, script, src, tmp, processorId, processing, L, allowed', log', files);
    trace := trace + [RunProcessor(script, src)];
    TwoInARow(GenerateProcessor(html, url, files), RunProcessor(script, src));
    if outcome.Failure? {
      return Some((ProcessingStage, outcome.error)), script, processed, trace, log', allowed';
    }
    processed := outcome.value;
    log', allowed' := Report(fs, run, processed, L, allowed', log', files);
    ThreeAppended(log, (ProcessorScriptFile, script), (ProcessorStdoutFile, processed.stdout.GetOr("")),
                  (ProcessorStderrFile, processed.stderr.GetOr("")));
    failure := None;
  }

  /** Save what the processing script printed and keep its output folder. */
  method Report(fs: FileSystem, run: Path, processed: ExecResult, ghost L: ValidLayout,
                ghost allowed: set<string>, log: seq<Artifact>, ghost files: seq<string>)
    returns (log': seq<Artifact>, ghost allowed': set<string>)
    requires run == L.run
    requires processed.folder.Some? ==> processed.folder.value == L.wsP && Resolves(fs.entries, L.wsP)
    requires RunInv(fs.entries, run, allowed) && Held(fs.entries, run, allowed, log)
    requires ProcessorStdoutFile !in allowed && ProcessorStderrFile !in allowed && ProcessedName !in allowed
    requires L.wsC + [Executor.ScriptName] in fs.entries
    requires Mirror(fs.entries, L.wsC, L.ScrapedCopy()) && Listing(fs.entries, L.wsC, files)
    modifies fs
    ensures log' == log + [(ProcessorStdoutFile, processed.stdout.GetOr(""))] + [(ProcessorStderrFile, processed.stderr.GetOr(""))]
    ensures allowed' == allowed + {ProcessorStdoutFile} + {ProcessorStderrFile}
                        + (if processed.folder.Some? then {ProcessedName} else {})
    ensures RunInv(fs.entries, run, allowed') && Held(fs.entries, run, allowed', log')
    ensures Mirror(fs.entries, L.wsC, L.ScrapedCopy()) && Listing(fs.entries, L.wsC, files)
    ensures processed.folder.Some? ==> Mirror(fs.entries, L.wsP, L.ProcessedCopy())
  {
    ReportNames(allowed);
    SaveArtifact(fs, run, ProcessorStdoutFile, processed.stdout.GetOr(""), L, allowed, log, files);
    log', allowed' := log + [(ProcessorStdoutFile, processed.stdout.GetOr(""))], allowed + {ProcessorStdoutFile};
    SaveArtifact(fs, run, ProcessorStderrFile, processed.stderr.GetOr(""), L, allowed', log', files);
    log', allowed' := log' + [(ProcessorStderrFile, processed.stderr.GetOr(""))], allowed' + {ProcessorStderrFile};
    if processed.folder.Some? {
      KeepProcessed(fs, run, processed.folder.value, L, allowed', log', files);
      allowed' := allowed' + {ProcessedName};
    } else {
      assert allowed' == allowed' + {};
    }
  }

  /** Ask for the final answer, save it, submit it and save the reply. */
  method Answering(fs: FileSystem, run: Path, gen: Result<Value, string>, req: QuizRequest, html: string,
                   processorStdout: string, submit: Submission -> SubmitResult, ghost L: ValidLayout, ghost allowed: set<string>,
                   log: seq<Artifact>, ghost files: seq<string>)
    returns (refused: Option<string>, answer: Value, submitResult: SubmitResult,
             trace: seq<Call>, log': seq<Artifact>, ghost allowed': set<string>)
    requires run == L.run
    requires RunInv(fs.entries, run, allowed) && Held(fs.entries, run, allowed, log)
    requires AnswerFile !in allowed && SubmitFile !in allowed
    modifies fs
    ensures && (gen.Failure? ==>
            refused == Some(gen.error) && trace == [GenerateAnswer(processorStdout, html, req.url)]
            && log' == log && allowed' == allowed)
      && (gen.Success? ==>
            && refused.None? && answer == gen.value
            && var submission := Submission(req.email, req.secret, req.url, answer);
            && submitResult == submit(submission)
            && trace == [GenerateAnswer(processorStdout, html, req.url), Submit(submission)]
            && log' == log + [(AnswerFile, Str(answer)), (SubmitFile, SubmitText(submitResult))]
            && allowed' == allowed + {AnswerFile, SubmitFile})
    ensures RunInv(fs.entries, run, allowed') && Held(fs.entries, run, allowed', log')
    ensures Kept(old(fs.entries), fs.entries, L, files)
  {
    log', allowed', answer, submitResult := log, allowed, Null, SubmitResult(None, "");
    trace := [GenerateAnswer(processorStdout, html, req.url)];
    if gen.Failure? {
      return Some(gen.error), answer, submitResult, trace, log', allowed';
    }
    answer := gen.value;
    ghost var m := fs.entries;
    SaveArtifact(fs, run, AnswerFile, Str(answer), L, allowed', log', files);
    log', allowed' := log' + [(AnswerFile, Str(answer))], allowed' + {AnswerFile};

    var submission := Submission(req.email, req.secret, req.url, answer);
    submitResult := submit(submission);
    trace := trace + [Submit(submission)];
    SaveArtifact(fs, run, SubmitFile, SubmitText(submitResult), L, allowed', log', files);
    log', allowed' := log' + [(SubmitFile, SubmitText(submitResult))], allowed' + {SubmitFile};
    TwoAppended(log, (AnswerFile, Str(answer)), (SubmitFile, SubmitText(submitResult)));
    TwoInARow(GenerateAnswer(processorStdout, html, req.url), Submit(submission));
    refused := None;
  }

  // ---------------------------------------------------------------------
  // The steps of a run, each with what it keeps.

  /** Where a run puts things: the run folder, the temp directory and the
      two workspaces in it. */
  datatype Layout = Layout(run: Path, tmp: Path, wsC: Path, wsP: Path) {
    predicate Valid() {
      && |run| == 2 && |tmp| > 0 && tmp[0] != run[0]
      && |wsC| == |tmp| + 1 && wsC[..|tmp|] == tmp && wsC[0] == tmp[0]
      && |wsP| == |tmp| + 1 && wsP[..|tmp|] == tmp && wsP[0] == tmp[0]
      && wsC[|tmp|] != wsP[|tmp|]
    }

    function ScrapedCopy(): Path {
      ScrapedDest(run + [ScrapedName])
    }

    function ProcessedCopy(): Path {
      ScrapedDest(run + [ProcessedName])
    }
  }

  /** The places of a run, laid out as `Valid` says. */
  type ValidLayout = L: Layout | L.Valid() witness Layout([RunsDir, "run"], ["tmp"], ["tmp", "c"], ["tmp", "p"])

  /** `os.listdir(p)` gave `files`. */
  ghost predicate Listing(m: Tree, p: Path, files: seq<string>) {
    forall n :: n in files <==> p + [n] in m
  }

  /** What a save into the run folder leaves as it was. */
  ghost predicate Kept(m: Tree, n: Tree, L: Layout, files: seq<string>) {
    && (Resolves(m, L.tmp) ==> Resolves(n, L.tmp))
    && (Fresh(m, L.wsC) ==> Fresh(n, L.wsC))
    && (Fresh(m, L.wsP) ==> Fresh(n, L.wsP))
    && (Resolves(m, L.wsC) ==> Resolves(n, L.wsC))
    && (Resolves(m, L.wsP) ==> Resolves(n, L.wsP))
    && (L.wsC + [Executor.ScriptName] in m ==> L.wsC + [Executor.ScriptName] in n)
    && SlotKept(m, n, L)
    && (Mirror(m, L.wsC, L.ScrapedCopy()) ==> Mirror(n, L.wsC, L.ScrapedCopy()))
    && (Mirror(m, L.wsP, L.ProcessedCopy()) ==> Mirror(n, L.wsP, L.ProcessedCopy()))
    && (Listing(m, L.wsC, files) ==> Listing(n, L.wsC, files))
  }

  /** Whether the collector's workspace holds a `processor.py`
      directory is as it was. */
  ghost predicate SlotKept(m: Tree, n: Tree, L: Layout) {
    IsDirEntry(m, L.wsC + [ExecutorProcessing.ScriptName]) == IsDirEntry(n, L.wsC + [ExecutorProcessing.ScriptName])
  }

  /** `save_text` of one artifact into the run folder; it cannot fail,
      because the folder exists and holds no entry of that name yet. Texts
      are sequences of Unicode scalar values, so the UTF-8 encoding error
      a lone surrogate would raise is not a modelled outcome. */
  method SaveArtifact(fs: FileSystem, run: Path, name: string, content: string, ghost L: ValidLayout,
                      ghost allowed: set<string>, ghost log: seq<Artifact>, ghost files: seq<string>)
    requires run == L.run
    requires RunInv(fs.entries, run, allowed) && Held(fs.entries, run, allowed, log)
    requires name !in allowed && name != ScrapedName && name != ProcessedName
    modifies fs
    ensures RunInv(fs.entries, run, allowed + {name})
    ensures Held(fs.entries, run, allowed + {name}, log + [(name, content)])
    ensures Kept(old(fs.entries), fs.entries, L, files)
  {
    ghost var m := fs.entries;
    SaveStep(m, run, allowed, log, name, content);
    var ok := SaveText(fs, run, name, content);
    SaveApart(L, name);
    OutsideKept(m, fs.entries, L, run + [name], files);
  }

  /** `run_data_collection_script`, seen from the run folder. */
  method Collect(fs: FileSystem, script: string, tmp: Path, collectorId: string, outcome: Outcome,
                 ghost L: ValidLayout, ghost allowed: set<string>, ghost log: seq<Artifact>)
    returns (r: ExecResult)
    requires tmp == L.tmp && L.wsC == Executor.Workspace(tmp, collectorId)
    requires RunInv(fs.entries, L.run, allowed) && Held(fs.entries, L.run, allowed, log)
    requires Resolves(fs.entries, tmp) && Fresh(fs.entries, L.wsC) && Fresh(fs.entries, L.wsP)
    modifies fs
    ensures r == Executor.CollectionResult(script, L.wsC, outcome)
    ensures RunInv(fs.entries, L.run, allowed) && Held(fs.entries, L.run, allowed, log)
    ensures Resolves(fs.entries, tmp) && Fresh(fs.entries, L.wsP)
    ensures r.folder.Some? ==>
      r.folder.value == L.wsC && Resolves(fs.entries, L.wsC) && L.wsC + [Executor.ScriptName] in fs.entries
    ensures r.folder.Some? ==> (IsDirEntry(fs.entries, L.wsC + [ExecutorProcessing.ScriptName]) <==> SlotTaken(outcome))
  {
    ghost var m := fs.entries;
    r := Executor.RunDataCollectionScript(fs, script, tmp, collectorId, outcome);
    Executor.CollectionFrame(m, script, tmp, collectorId, outcome);
    if r.folder.Some? {
      Executor.OtherNamesFromChild(m, script, L.wsC, outcome, ExecutorProcessing.ScriptName);
    }
    LayoutApart(L);
    FrameStep(m, fs.entries, L.wsC, L.run, allowed, log);
    ResolvesKept(m, fs.entries, L.wsC, tmp);
    FreshKept(m, fs.entries, L.wsC, L.wsP);
  }

  /** `save_scraped_data(scraped_folder, <run>/scraped)`: it cannot fail,
      and leaves a copy of the collector's workspace in
      `<run>/scraped/scraped`. */
  method KeepScraped(fs: FileSystem, run: Path, src: Path, ghost L: ValidLayout,
                     ghost allowed: set<string>, ghost log: seq<Artifact>)
    requires run == L.run && src == L.wsC
    requires RunInv(fs.entries, run, allowed) && Held(fs.entries, run, allowed, log) && ScrapedName !in allowed
    requires Resolves(fs.entries, L.wsC) && L.wsC + [Executor.ScriptName] in fs.entries
    requires Resolves(fs.entries, L.tmp) && Fresh(fs.entries, L.wsP)
    modifies fs
    ensures RunInv(fs.entries, run, allowed + {ScrapedName}) && Held(fs.entries, run, allowed + {ScrapedName}, log)
    ensures Resolves(fs.entries, L.wsC) && L.wsC + [Executor.ScriptName] in fs.entries
    ensures Resolves(fs.entries, L.tmp) && Fresh(fs.entries, L.wsP)
    ensures Mirror(fs.entries, L.wsC, L.ScrapedCopy())
    ensures SlotKept(old(fs.entries), fs.entries, L)
  {
    ghost var m := fs.entries;
    LayoutApart(L);
    GraftStep(m, src, run, allowed, log, ScrapedName);
    var ok := SaveScrapedData(fs, src, run + [ScrapedName]);
    var dS := L.ScrapedCopy();
    ResolvesKept(m, fs.entries, dS, L.wsC);
    UnmovedBelow(m, fs.entries, dS, L.wsC, [Executor.ScriptName]);
    UnmovedBelow(m, fs.entries, dS, L.wsC, [ExecutorProcessing.ScriptName]);
    ResolvesKept(m, fs.entries, dS, L.tmp);
    FreshKept(m, fs.entries, dS, L.wsP);
  }

  /** `run_processing_script`, seen from the run folder. */
  method Process(fs: FileSystem, script: string, src: Path, tmp: Path, processorId: string, outcome: Outcome,
                 ghost L: ValidLayout, ghost allowed: set<string>, ghost log: seq<Artifact>, ghost files: seq<string>)
    returns (r: Result<ExecResult, string>)
    requires src == L.wsC && tmp == L.tmp && L.wsP == ExecutorProcessing.Workspace(tmp, processorId)
    requires RunInv(fs.entries, L.run, allowed) && Held(fs.entries, L.run, allowed, log)
    requires Resolves(fs.entries, tmp) && Fresh(fs.entries, L.wsP)
    requires Resolves(fs.entries, L.wsC) && L.wsC + [Executor.ScriptName] in fs.entries
    requires Mirror(fs.entries, L.wsC, L.ScrapedCopy()) && Listing(fs.entries, L.wsC, files)
    modifies fs
    ensures r == ExecutorProcessing.ProcessingResult(old(fs.entries), script, src, L.wsP, outcome)
    ensures r.Failure? <==>
      ExecutorProcessing.ScriptSafe(script) && IsDirEntry(old(fs.entries), src + [ExecutorProcessing.ScriptName])
    ensures r.Failure? ==> r.error == ExecutorProcessing.ScriptPathIsDirectory
    ensures r.Success? ==> r.value == ProcessingReport(script, L.wsP, outcome)
    ensures RunInv(fs.entries, L.run, allowed) && Held(fs.entries, L.run, allowed, log)
    ensures L.wsC + [Executor.ScriptName] in fs.entries
    ensures Mirror(fs.entries, L.wsC, L.ScrapedCopy()) && Listing(fs.entries, L.wsC, files)
    ensures r.Success? && r.value.folder.Some? ==> Resolves(fs.entries, L.wsP)
  {
    ghost var m := fs.entries;
    LayoutApart(L);
    r := ExecutorProcessing.RunProcessingScript(fs, script, src, tmp, processorId, outcome);
    ExecutorProcessing.ProcessingFrame(m, script, src, L.wsP, outcome);
    ProcessingReportAgrees(m, script, src, L.wsP, outcome);
    FrameStep(m, fs.entries, L.wsP, L.run, allowed, log);
    UnmovedBelow(m, fs.entries, L.wsP, L.wsC, [Executor.ScriptName]);
    MirrorStep(m, fs.entries, L.wsP, L.wsC, L.ScrapedCopy());
    ListingStep(m, fs.entries, L.wsP, L.wsC, files);
    if r.Success? && r.value.folder.Some? {
      ProcessedFolderExists(m, script, src, tmp, processorId, outcome);
    }
  }

  /** `save_scraped_data(output_folder, <run>/processed)`: it cannot fail,
      and leaves a copy of the processor's workspace in
      `<run>/processed/scraped`. */
  method KeepProcessed(fs: FileSystem, run: Path, src: Path, ghost L: ValidLayout,
                       ghost allowed: set<string>, ghost log: seq<Artifact>, ghost files: seq<string>)
    requires run == L.run && src == L.wsP
    requires RunInv(fs.entries, run, allowed) && Held(fs.entries, run, allowed, log) && ProcessedName !in allowed
    requires Resolves(fs.entries, L.wsP) && L.wsC + [Executor.ScriptName] in fs.entries
    requires Mirror(fs.entries, L.wsC, L.ScrapedCopy()) && Listing(fs.entries, L.wsC, files)
    modifies fs
    ensures RunInv(fs.entries, run, allowed + {ProcessedName}) && Held(fs.entries, run, allowed + {ProcessedName}, log)
    ensures L.wsC + [Executor.ScriptName] in fs.entries
    ensures Mirror(fs.entries, L.wsC, L.ScrapedCopy()) && Listing(fs.entries, L.wsC, files)
    ensures Mirror(fs.entries, L.wsP, L.ProcessedCopy())
  {
    ghost var m := fs.entries;
    LayoutApart(L);
    GraftStep(m, src, run, allowed, log, ProcessedName);
    var ok := SaveScrapedData(fs, src, run + [ProcessedName]);
    var dP := L.ProcessedCopy();
    UnmovedBelow(m, fs.entries, dP, L.wsC, [Executor.ScriptName]);
    MirrorStep(m, fs.entries, dP, L.wsC, L.ScrapedCopy());
    ListingStep(m, fs.entries, dP, L.wsC, files);
  }

  // ---------------------------------------------------------------------
  // The proof: what the run folder holds, and what each step leaves alone.

  /** The run folder exists and everything below it lies under one of the
      names already used. */
  ghost predicate RunInv(m: Tree, run: Path, allowed: set<string>) {
    Resolves(m, run) && forall q :: q in m && Under(run, q) ==> q[|run|] in allowed
  }

  /** The logged artifacts are saved, under names already used. */
  ghost predicate Held(m: Tree, run: Path, allowed: set<string>, log: seq<Artifact>) {
    Saved(m, run, log) && forall i :: 0 <= i < |log| ==> log[i].0 in allowed
  }

  /** Neither path lies at or below the other. */
  predicate Disjoint(a: Path, b: Path) {
    !IsPrefix(a, b) && !IsPrefix(b, a)
  }

  lemma PrefixTrans(a: Path, b: Path, c: Path)
    requires IsPrefix(a, b) && IsPrefix(b, c)
    ensures IsPrefix(a, c)
  {
    assert c[..|b|][..|a|] == c[..|a|];
  }

  lemma DiffersAt(a: Path, b: Path, k: nat)
    requires k < |a| && k < |b| && a[k] != b[k]
    ensures Disjoint(a, b)
  {
  }

  lemma Apart(a: Path, b: Path)
    requires |a| > 0 && |b| > 0 && a[0] != b[0]
    ensures Disjoint(a, b)
  {
    DiffersAt(a, b, 0);
  }

  /** The collector's four artifacts have names apart from each other and
      from the two copied folders. */
  lemma CollectingNames()
    ensures HtmlFile !in {} && CollectorScriptFile !in {} + {HtmlFile}
    ensures CollectorStdoutFile !in {} + {HtmlFile} + {CollectorScriptFile}
    ensures CollectorStderrFile !in {} + {HtmlFile} + {CollectorScriptFile} + {CollectorStdoutFile}
    ensures {} + {HtmlFile} + {CollectorScriptFile} + {CollectorStdoutFile} + {CollectorStderrFile}
            == {HtmlFile, CollectorScriptFile, CollectorStdoutFile, CollectorStderrFile}
    ensures ScrapedName !in {HtmlFile, CollectorScriptFile, CollectorStdoutFile, CollectorStderrFile}
    ensures {HtmlFile, CollectorScriptFile, CollectorStdoutFile, CollectorStderrFile} + {ScrapedName}
            == {HtmlFile, CollectorScriptFile, CollectorStdoutFile, CollectorStderrFile, ScrapedName}
    ensures HtmlFile != ScrapedName && HtmlFile != ProcessedName
    ensures CollectorScriptFile != ScrapedName && CollectorScriptFile != ProcessedName
    ensures CollectorStdoutFile != ScrapedName && CollectorStdoutFile != ProcessedName
    ensures CollectorStderrFile != ScrapedName && CollectorStderrFile != ProcessedName
  {
  }

  /** Likewise the processor's three, saved after `allowed`. */
  lemma ProcessingNames(allowed: set<string>)
    requires ProcessorScriptFile !in allowed && ProcessorStdoutFile !in allowed && ProcessorStderrFile !in allowed
    requires ProcessedName !in allowed
    ensures ProcessorStdoutFile !in allowed + {ProcessorScriptFile}
    ensures ProcessorStderrFile !in allowed + {ProcessorScriptFile} && ProcessedName !in allowed + {ProcessorScriptFile}
    ensures ProcessorStderrFile !in allowed + {ProcessorScriptFile} + {ProcessorStdoutFile}
    ensures ProcessedName !in allowed + {ProcessorScriptFile} + {ProcessorStdoutFile} + {ProcessorStderrFile}
    ensures allowed + {ProcessorScriptFile} + {ProcessorStdoutFile} + {ProcessorStderrFile}
            == allowed + {ProcessorScriptFile, ProcessorStdoutFile, ProcessorStderrFile}
    ensures ProcessorScriptFile != ScrapedName && ProcessorScriptFile != ProcessedName
    ensures ProcessorStdoutFile != ScrapedName && ProcessorStdoutFile != ProcessedName
    ensures ProcessorStderrFile != ScrapedName && ProcessorStderrFile != ProcessedName
  {
  }

  lemma ReportNames(allowed: set<string>)
    requires ProcessorStdoutFile !in allowed && ProcessorStderrFile !in allowed && ProcessedName !in allowed
    ensures ProcessorStderrFile !in allowed + {ProcessorStdoutFile}
    ensures ProcessedName !in allowed + {ProcessorStdoutFile} + {ProcessorStderrFile}
    ensures ProcessorStdoutFile != ScrapedName && ProcessorStdoutFile != ProcessedName
    ensures ProcessorStderrFile != ScrapedName && ProcessorStderrFile != ProcessedName
  {
  }

  /** The artifacts written after the scraped copy have names of their own... */
  lemma ProcessingNamesFresh(allowed: set<string>)
    requires allowed == {HtmlFile, CollectorScriptFile, CollectorStdoutFile, CollectorStderrFile, ScrapedName}
    ensures ProcessorScriptFile !in allowed && ProcessorStdoutFile !in allowed && ProcessorStderrFile !in allowed
    ensures ProcessedName !in allowed && AnswerFile !in allowed && SubmitFile !in allowed
  {
  }

  /** ... and the answer's two are not among the processor's. */
  lemma AnswerNamesFresh(allowed: set<string>, allowed': set<string>, withProcessed: bool)
    requires AnswerFile !in allowed && SubmitFile !in allowed
    requires allowed' == allowed + {ProcessorScriptFile, ProcessorStdoutFile, ProcessorStderrFile}
                         + (if withProcessed then {ProcessedName} else {})
    ensures AnswerFile !in allowed' && SubmitFile !in allowed'
    ensures !withProcessed && ProcessedName !in allowed ==> ProcessedName !in allowed'
  {
  }

  /** Without a processed folder the run folder never gets one. */
  lemma ProcessedNotCreated(m: Tree, run: Path, allowed: set<string>, allowed': set<string>)
    requires ProcessedName !in allowed
    requires allowed' == allowed + {AnswerFile, SubmitFile}
    requires RunInv(m, run, allowed')
    ensures run + [ProcessedName] !in m
  {
    NotCreated(m, run, allowed', ProcessedName);
  }

  lemma LayoutValid(now: DateTime, runUuid: string, tmp: Path, collectorId: string, processorId: string)
    requires |tmp| > 0 && tmp[0] != RunsDir
    ensures RunLayout(now, runUuid, tmp, collectorId, processorId).Valid()
  {
    var c := Executor.Workspace(tmp, collectorId);
    var p := ExecutorProcessing.Workspace(tmp, processorId);
    assert c[0] == c[..|tmp|][0];
    assert p[0] == p[..|tmp|][0];
    assert c[|tmp|][0] == 'c' && p[|tmp|][0] == 'p';
  }

  /** Where the two copies land in the run folder. */
  lemma CopiesAt(L: Layout)
    ensures L.ScrapedCopy() == L.run + [ScrapedName, ScrapedName]
    ensures L.ProcessedCopy() == L.run + [ProcessedName, ScrapedName]
  {
  }

  // Logs and traces grow one entry at a time; the contracts list them whole.

  lemma OneAfterEmpty<T>(a: T)
    ensures [] + [a] == [a]
  {
  }

  lemma TwoAfterEmpty<T>(a: T, b: T)
    ensures [] + [a] + [b] == [a, b]
  {
  }

  lemma FourAfterEmpty<T>(a: T, b: T, c: T, d: T)
    ensures [] + [a] + [b] + [c] + [d] == [a, b, c, d]
  {
  }

  lemma TwoInARow<T>(a: T, b: T)
    ensures [a] + [b] == [a, b]
  {
  }

  lemma TwoAppended<T>(s: seq<T>, a: T, b: T)
    ensures s + [a] + [b] == s + [a, b]
  {
  }

  lemma ThreeAppended<T>(s: seq<T>, a: T, b: T, c: T)
    ensures s + [a] + [b] + [c] == s + [a, b, c]
  {
  }

  /** How the places of a run lie apart. */
  lemma LayoutApart(L: ValidLayout)
    ensures Disjoint(L.wsC, L.run) && Disjoint(L.wsP, L.run) && Disjoint(L.wsC, L.wsP)
    ensures Disjoint(L.wsC, L.ScrapedCopy()) && Disjoint(L.wsP, L.ProcessedCopy())
    ensures Disjoint(L.ScrapedCopy(), L.wsP) && Disjoint(L.ScrapedCopy(), L.tmp)
    ensures Disjoint(L.ProcessedCopy(), L.wsC) && Disjoint(L.ProcessedCopy(), L.ScrapedCopy())
    ensures !IsPrefix(L.wsC, L.tmp)
  {
    Apart(L.wsC, L.run);
    Apart(L.wsP, L.run);
    DiffersAt(L.wsC, L.wsP, |L.tmp|);
    Apart(L.wsC, L.ScrapedCopy());
    Apart(L.wsP, L.ProcessedCopy());
    Apart(L.ScrapedCopy(), L.wsP);
    Apart(L.ScrapedCopy(), L.tmp);
    Apart(L.ProcessedCopy(), L.wsC);
    DiffersAt(L.ProcessedCopy(), L.ScrapedCopy(), |L.run|);
  }

  /** An artifact's file lies apart from everything else a run touches. */
  lemma SaveApart(L: ValidLayout, name: string)
    requires name != ScrapedName && name != ProcessedName
    ensures var p := L.run + [name];
      && Disjoint(p, L.tmp) && Disjoint(p, L.wsC) && Disjoint(p, L.wsP)
      && Disjoint(p, L.ScrapedCopy()) && Disjoint(p, L.ProcessedCopy())
  {
    var p := L.run + [name];
    Apart(p, L.tmp);
    Apart(p, L.wsC);
    Apart(p, L.wsP);
    DiffersAt(p, L.ScrapedCopy(), |L.run|);
    DiffersAt(p, L.ProcessedCopy(), |L.run|);
  }

  /** A change confined to `area` leaves every path below a disjoint
      `root` as it was. */
  lemma UnmovedBelow(m: Tree, n: Tree, area: Path, root: Path, r: Path)
    requires ChangedOnly(m, n, area) && Disjoint(area, root)
    ensures (root + r in m <==> root + r in n) && (root + r in m ==> n[root + r] == m[root + r])
  {
    var q := root + r;
    assert q[..|root|] == root;
    if IsPrefix(area, q) {
      PrefixesComparable(area, root, q);
      assert false;
    }
    if q in n && q !in m {
      PrefixTrans(root, q, area);
      assert false;
    }
  }

  lemma MirrorStep(m: Tree, n: Tree, area: Path, src: Path, dst: Path)
    requires Mirror(m, src, dst) && ChangedOnly(m, n, area) && Disjoint(area, src) && Disjoint(area, dst)
    ensures Mirror(n, src, dst)
  {
    forall r | r != [] ensures (src + r in n <==> dst + r in n) && (src + r in n ==> n[src + r] == n[dst + r]) {
      UnmovedBelow(m, n, area, src, r);
      UnmovedBelow(m, n, area, dst, r);
    }
  }

  lemma ListingStep(m: Tree, n: Tree, area: Path, p: Path, files: seq<string>)
    requires Listing(m, p, files) && ChangedOnly(m, n, area) && Disjoint(area, p)
    ensures Listing(n, p, files)
  {
    forall x ensures x in files <==> p + [x] in n {
      UnmovedBelow(m, n, area, p, [x]);
    }
  }

  lemma ListingFrom(m: Tree, p: Path, files: seq<string>)
    requires forall n :: n in files <==> n in Children(m, p)
    ensures Listing(m, p, files)
  {
    forall x ensures x in files <==> p + [x] in m {
      var q := p + [x];
      assert q[..|p|] == p && q[|p|] == x;
    }
  }

  lemma OutsideKept(m: Tree, n: Tree, L: ValidLayout, area: Path, files: seq<string>)
    requires ChangedOnly(m, n, area)
    requires Disjoint(area, L.tmp) && Disjoint(area, L.wsC) && Disjoint(area, L.wsP)
    requires Disjoint(area, L.ScrapedCopy()) && Disjoint(area, L.ProcessedCopy())
    ensures Kept(m, n, L, files)
  {
    if Resolves(m, L.tmp) {
      ResolvesKept(m, n, area, L.tmp);
    }
    if Fresh(m, L.wsC) {
      FreshKept(m, n, area, L.wsC);
    }
    if Fresh(m, L.wsP) {
      FreshKept(m, n, area, L.wsP);
    }
    if Resolves(m, L.wsC) {
      ResolvesKept(m, n, area, L.wsC);
    }
    if Resolves(m, L.wsP) {
      ResolvesKept(m, n, area, L.wsP);
    }
    UnmovedBelow(m, n, area, L.wsC, [Executor.ScriptName]);
    UnmovedBelow(m, n, area, L.wsC, [ExecutorProcessing.ScriptName]);
    if Mirror(m, L.wsC, L.ScrapedCopy()) {
      MirrorStep(m, n, area, L.wsC, L.ScrapedCopy());
    }
    if Mirror(m, L.wsP, L.ProcessedCopy()) {
      MirrorStep(m, n, area, L.wsP, L.ProcessedCopy());
    }
    if Listing(m, L.wsC, files) {
      ListingStep(m, n, area, L.wsC, files);
    }
  }

  /** Creating the run folder leaves it empty and the temp side alone. */
  lemma RunFolderStart(m: Tree, L: ValidLayout)
    requires Fresh(m, L.run) && NoFileOnPath(m, L.run)
    requires Resolves(m, L.tmp) && Fresh(m, L.wsC) && Fresh(m, L.wsP)
    ensures var n := MakeDirsMap(m, L.run);
      && RunInv(n, L.run, {}) && Held(n, L.run, {}, [])
      && Resolves(n, L.tmp) && Fresh(n, L.wsC) && Fresh(n, L.wsP)
  {
    var n := MakeDirsMap(m, L.run);
    MakeDirsChangesOnlyPath(m, L.run);
    MakeDirsResolves(m, L.run);
    forall q | q in n && Under(L.run, q) ensures false {
      assert IsPrefix(L.run, q);
    }
    LayoutApart(L);
    Apart(L.run, L.tmp);
    ResolvesKept(m, n, L.run, L.tmp);
    FreshKept(m, n, L.run, L.wsC);
    FreshKept(m, n, L.run, L.wsP);
  }

  lemma SaveStep(m: Tree, run: Path, allowed: set<string>, log: seq<Artifact>, name: string, content: string)
    requires RunInv(m, run, allowed) && Held(m, run, allowed, log) && name !in allowed
    ensures SaveTextOk(m, run, name)
    ensures var n := SavedText(m, run, name, content);
      && RunInv(n, run, allowed + {name})
      && Held(n, run, allowed + {name}, log + [(name, content)])
      && ChangedOnly(m, n, run + [name])
  {
    var p := run + [name];
    var n := SavedText(m, run, name, content);
    assert Under(run, p) && p[|run|] == name;
    SavedTextContents(m, run, name, content);
    var log' := log + [(name, content)];
    forall i | 0 <= i < |log'| ensures run + [log'[i].0] in n && n[run + [log'[i].0]] == File(log'[i].1) {
      if i < |log| {
        assert log'[i] == log[i];
        assert run + [log[i].0] != p;
      }
    }
    forall q | q in n && Under(run, q) ensures q[|run|] in allowed + {name} {
    }
    WriteChangesOnly(m, p, content);
  }

  /** A step confined to an area away from the run folder keeps what it
      holds. */
  lemma FrameStep(m: Tree, n: Tree, area: Path, run: Path, allowed: set<string>, log: seq<Artifact>)
    requires ChangedOnly(m, n, area) && Disjoint(area, run)
    requires RunInv(m, run, allowed) && Held(m, run, allowed, log)
    ensures RunInv(n, run, allowed) && Held(n, run, allowed, log)
  {
    ResolvesKept(m, n, area, run);
    forall q | q in n && Under(run, q) ensures q[|run|] in allowed {
      assert IsPrefix(run, q);
      if IsPrefix(area, q) {
        PrefixesComparable(area, run, q);
        assert false;
      }
      if q !in m {
        PrefixTrans(run, q, area);
        assert false;
      }
    }
    forall i | 0 <= i < |log| ensures run + [log[i].0] in n && n[run + [log[i].0]] == File(log[i].1) {
      var p := run + [log[i].0];
      assert IsPrefix(run, p);
      if IsPrefix(area, p) {
        PrefixesComparable(area, run, p);
        assert false;
      }
    }
  }

  /** Copying a tree into `run/<dir>/scraped` for an unused `dir` cannot
      fail, keeps the artifacts, and leaves a copy of the source there. */
  lemma GraftStep(m: Tree, src: Path, run: Path, allowed: set<string>, log: seq<Artifact>, dir: string)
    requires RunInv(m, run, allowed) && Held(m, run, allowed, log) && dir !in allowed
    requires Resolves(m, src) && Disjoint(src, ScrapedDest(run + [dir])) && Disjoint(src, run)
    ensures var dst := ScrapedDest(run + [dir]);
      && CopyTreeOk(m, src, dst)
      && var g := Graft(m, src, dst);
      && RunInv(g, run, allowed + {dir}) && Held(g, run, allowed + {dir}, log)
      && ChangedOnly(m, g, dst)
      && Mirror(g, src, dst)
  {
    var dst := ScrapedDest(run + [dir]);
    assert dst[..|run|] == run && dst[|run|] == dir;
    forall k | 1 <= k <= |dst| ensures !IsFileEntry(m, dst[..k]) {
      if k <= |run| {
        assert dst[..k] == run[..k];
      } else {
        assert Under(run, dst[..k]) && dst[..k][|run|] == dir;
      }
    }
    forall r | r in Subtree(m, src) && dst + r in m ensures false {
      BelowDir(run, dir, r);
    }
    var g := Graft(m, src, dst);
    GraftChangesOnly(m, src, dst);
    ResolvesKept(m, g, dst, run);
    forall q | q in g && Under(run, q) ensures q[|run|] in allowed + {dir} {
      if q !in m {
        if IsPrefix(dst, q) {
          assert q[..|dst|][|run|] == q[|run|];
        } else {
          assert dst[..|q|][|run|] == dst[|run|];
        }
      }
    }
    forall i | 0 <= i < |log| ensures run + [log[i].0] in g && g[run + [log[i].0]] == File(log[i].1) {
      EntryKept(m, g, dst, run + [log[i].0]);
    }
    GraftMirror(m, src, run, allowed, dir);
  }

  lemma GraftMirror(m: Tree, src: Path, run: Path, allowed: set<string>, dir: string)
    requires RunInv(m, run, allowed) && dir !in allowed
    requires Disjoint(src, ScrapedDest(run + [dir]))
    requires NoFileOnPath(m, ScrapedDest(run + [dir]))
    ensures Mirror(Graft(m, src, ScrapedDest(run + [dir])), src, ScrapedDest(run + [dir]))
  {
    var dst := ScrapedDest(run + [dir]);
    var g := Graft(m, src, dst);
    forall r | r != [] ensures (src + r in g <==> dst + r in g) && (src + r in g ==> g[src + r] == g[dst + r]) {
      GraftMirrorAt(m, src, run, allowed, dir, r);
    }
  }

  /** One relative path of `GraftMirror`. */
  lemma GraftMirrorAt(m: Tree, src: Path, run: Path, allowed: set<string>, dir: string, r: Path)
    requires RunInv(m, run, allowed) && dir !in allowed
    requires Disjoint(src, ScrapedDest(run + [dir]))
    requires NoFileOnPath(m, ScrapedDest(run + [dir]))
    requires r != []
    ensures var dst := ScrapedDest(run + [dir]);
      var g := Graft(m, src, dst);
      (src + r in g <==> dst + r in g) && (src + r in g ==> g[src + r] == g[dst + r])
  {
    var dst := ScrapedDest(run + [dir]);
    var g := Graft(m, src, dst);
    GraftContents(m, src, dst, r);
    var q := dst + r;
    BelowDir(run, dir, r);
    assert q !in m;
    var p := src + r;
    assert IsPrefix(src, p);
    if p in m {
      GraftKeepsSource(m, src, dst, p);
    } else if p in g {
      GraftChangesOnly(m, src, dst);
      if IsPrefix(dst, p) {
        PrefixesComparable(src, dst, p);
        assert false;
      }
      assert IsPrefix(p, dst);
      PrefixTrans(src, p, dst);
      assert false;
    }
  }

  lemma BelowDir(run: Path, dir: string, r: Path)
    ensures var q := ScrapedDest(run + [dir]) + r;
      Under(run, q) && q[|run|] == dir
  {
    var q := ScrapedDest(run + [dir]) + r;
    assert q[..|run|] == run;
  }

  /** An unused name of the run folder is not there. */
  lemma NotCreated(m: Tree, run: Path, allowed: set<string>, name: string)
    requires RunInv(m, run, allowed) && name !in allowed
    ensures run + [name] !in m
  {
    assert Under(run, run + [name]);
  }

  /** An overlay below `root` keeps `root` itself. */
  lemma OverlayKeepsResolves(m: Tree, root: Path, t: Tree)
    requires Resolves(m, root)
    ensures Resolves(Overlay(m, root, t), root)
  {
    forall k | 1 <= k <= |root| ensures IsDirEntry(Overlay(m, root, t), root[..k]) {
      assert IsDirEntry(m, root[..k]);
      assert !Under(root, root[..k]);
    }
  }

  /** When the processor reports its folder, that folder exists. */
  lemma ProcessedFolderExists(m: Tree, script: string, src: Path, tmp: Path, runId: string, outcome: Outcome)
    requires Resolves(m, tmp)
    requires ExecutorProcessing.ProcessingResult(m, script, src, ExecutorProcessing.Workspace(tmp, runId), outcome).Success?
    requires ExecutorProcessing.ProcessingResult(m, script, src, ExecutorProcessing.Workspace(tmp, runId), outcome).value.folder.Some?
    ensures Resolves(ExecutorProcessing.ProcessingState(m, script, src, ExecutorProcessing.Workspace(tmp, runId), outcome),
                     ExecutorProcessing.Workspace(tmp, runId))
  {
    var w := "processor_" + runId;
    var ws := ExecutorProcessing.Workspace(tmp, runId);
    assert ws == tmp + [w];
    var p := ExecutorProcessing.Prepared(m, src, ws, script);
    ExecutorProcessing.FolderMeansRan(m, script, src, ws, outcome);
    ExecutorProcessing.PreparedResolves(m, src, tmp, w, script);
    OverlayKeepsResolves(p, ws, outcome.produced);
  }

}
