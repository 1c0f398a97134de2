# Quiz-solving pipeline: a Dafny model

The system is a web service with one endpoint, `POST /quiz-run`. A request gives an email, a secret and the URL of a quiz page. A request with the wrong secret is refused with status 403. Otherwise the endpoint runs a fixed, strictly sequential pipeline:

1. Render the page.
2. Create a run folder `runs/<YYYYMMDD-HHMMSS>-<uuid>` and save the page in it.
3. Ask a chat-completion service for a *data-collection script* and save it.
4. Run the script once in a fresh temporary workspace `collector_<id>`, with a 60-second limit, and save what it printed.
5. If that run reported no folder, stop with `collection_failed`.
6. Copy the collector's workspace into the run folder and list its file names.
7. Ask for a *data-processing script*, giving it those names, and save it.
8. Run the script in a second workspace `processor_<id>`, seeded with a copy of everything the collector left, and save what it printed.
9. Copy the processor's workspace into the run folder when it reports one.
10. Whatever the processor reported, ask for the *final answer* from its output.
11. Submit the answer to the quiz URL and save the answer and the reply.

Before anything runs, both executors screen the script against a fixed, case-sensitive list of forbidden substrings.

The model has one Dafny module per source file of the core, plus a few shared ones:

- `Executor`, `ExecutorProcessing`, `RunSaver` and `Router` follow the source files of the same names.
- `OpenAiOrchestrator`, `OpenAiProcessor` and `OpenAiFinalAnswer` are the three generator modules.
- `ChatCompletion` holds what the three generators repeat line for line: the `BASE_URL` normalisation, the request and the reading of one field from the reply.
- `Denylist` holds the screening loop both executors repeat.
- `Sandbox` holds the result dictionaries the executors return.
- `FileTree` is the filesystem: a `FileSystem` class holding a map from paths to nodes. Its methods are the library calls the core makes (`os.makedirs`, `open(...).write`, `shutil.copy2`, `shutil.copytree(..., dirs_exist_ok=True)`, `os.listdir`).
- `Json` covers the decoded replies, `str()` of them and `json.dumps` of a name list.
- `Strings` holds substrings and decimal numerals; `Wrappers` holds `Option` and `Result`.

The outside world is passed in as parameters:

- A `World` value holds the renderer, the chat service, `json.loads`, the submission endpoint and how each child process ends.
- A child process is an `Outcome`: either a timeout, or captured stdout/stderr and an exit status. Both carry the files it wrote below its working directory.
- The clock and the uuids are parameters of `RunQuiz`.

Executors and the endpoint are methods on the `FileSystem` object. Each executor is proved against a pure function of the old tree (`CollectionResult`/`CollectionState`, `ProcessingResult`/`ProcessingState`). The promised properties are proved as lemmas about those functions. The endpoint ensures a `Promise`:

- the page is rendered first, and every artifact named in the returned log is a file of the run folder holding its text;
- the run ends the way `Expected` predicts for the world and the names `os.listdir` returned:
  - a collector or processor generation that raises, or yields no string, stops the run at that stage;
  - a collector result without a folder always ends in `collection_failed`;
  - a safe processing script meeting a `processor.py` directory left by the collector stops the run at the processing stage;
  - otherwise the run goes on to the answer whatever the processor reported, and completes unless the answer generation raises;
- once past the gate, the scraped copy mirrors the collector's workspace and the listing is of that workspace;
- `collection_failed` means exactly three calls were made and four artifacts saved, and no scraped copy exists;
- `completed` means:
  - the seven calls were made in order, each fed with what the previous stages produced — including a failed processor's empty output;
  - the nine artifacts were saved in order;
  - the scraped copy mirrors the collector's workspace;
  - the processed copy exists exactly when the processor reported a folder.

Several behaviours of the code are easy to misread; the model follows the code in each:

- `save_scraped_data(src, dest)` copies into `dest/scraped`, and the endpoint passes `<run>/scraped` and `<run>/processed`. The copies therefore land in `<run>/scraped/scraped` and `<run>/processed/scraped` (`Router.CopiesAt`), not directly in a stage-named folder.
- The processing workspace is seeded with the scraped files, and `processor.py` is then written next to them. Its listing before the run is the scraped names plus `processor.py` (`ExecutorProcessing.WorkspaceListing`), not exactly the scraped names.
- The processing stage does not always degrade gracefully:
  - when the scraped data holds a directory named `processor.py`, opening the script for writing raises and the request fails;
  - when the scraped folder is missing, `os.listdir` raises.
- A generated "script" that is not a string makes `save_text` raise after it created the file. The run then fails with an empty script file saved.

## Model

| member | source | states |
|---|---|---|
| Strings.NatToStringRoundTrip | app/services/openai_orchestrator.py:73 | the decimal numeral of a status code reads back as that number |
| Json.KeyIndex | app/services/openai_orchestrator.py:77-79 | the index found holds the key and no earlier member does; no index means no member has the key |
| Json.Get | app/services/openai_orchestrator.py:77-79 | `v[key]` succeeds exactly on objects that have the key, and returns a value stored under it |
| Json.First | app/services/openai_orchestrator.py:77 | `v[0]` succeeds exactly on a non-empty list or string, giving the first item or the first character |
| Json.GetMember | app/services/openai_orchestrator.py:79 | in an object with unique keys, looking up a member's key returns that member's value |
| Json.ScalarReprsDiffer | app/api/router.py:75 | the saved text of a boolean, `None` and a number never coincide |
| Json.EscapePlain | app/services/openai_processor.py:65 | `json.dumps` leaves a text of printable ASCII other than quote and backslash unchanged |
| Json.EscapeChanges | app/services/openai_processor.py:65 | a text with any other character is always changed by the escaping |
| Json.DumpsList | app/services/openai_processor.py:65 | the dump is `[]` exactly for the empty list |
| Json.DumpsListContains | app/services/openai_processor.py:65 | every name of the list appears, quoted and escaped, in `json.dumps(names, indent=2)` |
| ChatCompletion.RStrip | app/services/openai_orchestrator.py:6 | `rstrip(c)` returns a prefix, removes only `c`s, and leaves no trailing `c` |
| ChatCompletion.NormalizeBase | app/services/openai_orchestrator.py:6-8 | the normalised base is a prefix of `BASE_URL`; what was cut is a run of slashes, possibly after a single `/v1` |
| ChatCompletion.ChatUrlSuffix | app/services/openai_orchestrator.py:9 | every endpoint ends with `/v1/chat/completions` |
| ChatCompletion.RStripSlashes | app/services/openai_orchestrator.py:6 | any number of trailing slashes after a text not ending in `/` are all stripped, and only they |
| ChatCompletion.SpellingsAgree | app/services/openai_orchestrator.py:6-9 | a base with or without `/v1`, and with any number of trailing slashes, gives the same endpoint `<base>/v1/chat/completions` |
| ChatCompletion.FiveSpellings | app/services/openai_orchestrator.py:6-9 | `x`, `x/`, `x//`, `x/v1` and `x/v1/` all give the same endpoint |
| ChatCompletion.OnlyOneVersionStripped | app/services/openai_orchestrator.py:7-8 | a doubled `/v1` keeps the first one in the endpoint |
| ChatCompletion.StatusFails | app/services/openai_orchestrator.py:72-73 | a status other than 200 always raises; the message starts with the module's prefix and contains the status code |
| ChatCompletion.WellFormedReplySucceeds | app/services/openai_orchestrator.py:76-79 | a 200 reply whose choices/message/content lookups and inner decode all succeed returns exactly the field |
| ChatCompletion.SuccessIsWellFormed | app/services/openai_orchestrator.py:76-79 | conversely, every success came from a 200 reply in which each of those lookups succeeded |
| ChatCompletion.MalformedReplyFails | app/services/openai_orchestrator.py:80-81 | a 200 reply whose extraction fails raises; the message starts with the parse prefix and ends with `\nRAW:\n` and the raw body |
| ChatCompletion.OnlyChoicesMatter | app/services/openai_orchestrator.py:76-79 | two 200 replies whose bodies agree on `choices` reach the same step and return the same field, whatever else the bodies hold: nothing checks the reply against the schema |
| OpenAiOrchestrator.PromptHasInputs | app/services/openai_orchestrator.py:35-55 | the prompt contains the quiz URL and the HTML verbatim |
| OpenAiOrchestrator.RequestShape | app/services/openai_orchestrator.py:57-70 | the request targets the chat endpoint with the collector schema, the scraping-engine system role and a 180-second timeout |
| OpenAiOrchestrator.StatusRaises | app/services/openai_orchestrator.py:72-73 | a non-200 reply raises "OpenAI API error" naming the status |
| OpenAiOrchestrator.ReturnsScript | app/services/openai_orchestrator.py:76-79 | a well-formed reply returns exactly its `data_collection_script` member |
| OpenAiOrchestrator.ParseRaises | app/services/openai_orchestrator.py:80-81 | a malformed 200 reply raises "JSON parse error" ending with the raw body |
| OpenAiProcessor.PromptHasInputs | app/services/openai_processor.py:33-68 | the prompt contains the quiz URL, the HTML and every scraped file name as `json.dumps` quotes it |
| OpenAiProcessor.ListingInPrompt | app/services/openai_processor.py:64-68 | a file name quoted in the listing survives the text that closes the prompt |
| OpenAiProcessor.PlainNameInPrompt | app/services/openai_processor.py:65 | a plain file name appears in the prompt between double quotes, unchanged |
| OpenAiProcessor.RequestShape | app/services/openai_processor.py:70-82 | the request targets the chat endpoint with the processing schema, the processing-engine system role and a 180-second timeout |
| OpenAiProcessor.StatusRaises | app/services/openai_processor.py:84-85 | a non-200 reply raises "Processing OpenAI API error" naming the status |
| OpenAiProcessor.ReturnsScript | app/services/openai_processor.py:87-90 | a well-formed reply returns exactly its `data_processing_script` member |
| OpenAiProcessor.ParseRaises | app/services/openai_processor.py:91-92 | a malformed 200 reply raises "Processing JSON parse error" ending with the raw body |
| OpenAiFinalAnswer.PromptHasInputs | app/services/openai_final_answer.py:17-48 | the prompt contains the quiz URL, the HTML and the processor's stdout verbatim |
| OpenAiFinalAnswer.RequestShape | app/services/openai_final_answer.py:50-62 | the request targets the chat endpoint with the final-answer schema, the formatter system role and a 180-second timeout |
| OpenAiFinalAnswer.StatusRaises | app/services/openai_final_answer.py:64-65 | a non-200 reply raises "Final answer OpenAI error" naming the status |
| OpenAiFinalAnswer.ReturnsAnswer | app/services/openai_final_answer.py:67-70 | a well-formed reply returns exactly its `answer` member, of whatever JSON kind |
| OpenAiFinalAnswer.ParseRaises | app/services/openai_final_answer.py:72-73 | a malformed 200 reply raises "Final answer parse error" ending with the raw body |
| Denylist.Screen | app/services/executor.py:31-38 | the loop answers "safe" exactly when no keyword of the list occurs in the script |
| Denylist.FlagsWiden | app/services/executor.py:35-37 | a flagged script stays flagged whatever text surrounds it |
| Executor.Workspace | app/services/executor.py:56-57 | the workspace is one component `collector_<id>` directly below the temp directory |
| Executor.RunDataCollectionScript | app/services/executor.py:41-82 | the method returns `CollectionResult` and leaves the tree `CollectionState` of the old tree: the seeded workspace with the child's writes, kept also when the child was killed |
| Executor.KeywordMakesUnsafe | app/services/executor.py:21-38 | any script containing any one of the seven forbidden keywords is unsafe |
| Executor.UnsafeHasKeyword | app/services/executor.py:31-38 | every unsafe script contains one of the forbidden keywords |
| Executor.UnsafeWiden | app/services/executor.py:31-38 | an unsafe script stays unsafe with text added around it |
| Executor.CollectionResultWellShaped | app/services/executor.py:52-82 | the result has either `error` or the folder, never both; stdout and stderr come exactly with the folder |
| Executor.UnsafeCreatesNothing | app/services/executor.py:52-53 | an unsafe script gets the "Unsafe script detected" error and the filesystem is unchanged |
| Executor.WorkspaceSeeded | app/services/executor.py:56-64 | before the child starts, the workspace exists and holds only `collector.py` with the script; old entries are unchanged and exactly two are new |
| Executor.TimeoutResult | app/services/executor.py:75-76 | a timeout gets the "Script timed out." error; the workspace stays behind with the script (unless the child overwrote it) and every file the child wrote before it was killed |
| Executor.OtherNamesFromChild | app/services/executor.py:56-76 | below the fresh workspace every name other than `collector.py` holds exactly what the child wrote, finished or killed |
| Executor.CompletedResult | app/services/executor.py:78-82 | a completed run reports its stdout, its stderr and the workspace, and every file it wrote lies at the same place below the workspace |
| Executor.ExitStatusIgnored | app/services/executor.py:78-82 | result and filesystem do not depend on the child's exit status |
| Executor.CollectionFrame | app/services/executor.py:56-82 | nothing outside the workspace changes; a reported folder exists and still holds `collector.py` |
| ExecutorProcessing.SameVerdict | app/services/executor_processing.py:8-24 | both executors judge every script alike |
| ExecutorProcessing.Workspace | app/services/executor_processing.py:44-45 | the workspace is one component `processor_<id>` directly below the temp directory |
| ExecutorProcessing.Copied | app/services/executor_processing.py:49-57 | after the names in `done`, the copy holds each listed file and each listed directory with its whole subtree, with the same nodes |
| ExecutorProcessing.ProcessingTimeout | app/services/executor_processing.py:73-74 | a timeout in the prepared workspace gets the "Processing script timeout." error, and every file the child wrote before it was killed stays below the workspace |
| ExecutorProcessing.RunProcessingScript | app/services/executor_processing.py:27-80 | the method returns or raises `ProcessingResult` and leaves the tree `ProcessingState` of the old tree: the prepared workspace with the child's writes, kept also when the child was killed |
| ExecutorProcessing.CopyScraped | app/services/executor_processing.py:49-57 | the listing loop leaves the workspace holding the copy of every entry of the scraped folder |
| ExecutorProcessing.CopyEntry | app/services/executor_processing.py:50-57 | one step copies a listed directory with `copytree` or a listed file with `copy2`, and adds that name to the copied ones |
| ExecutorProcessing.FolderMeansRan | app/services/executor_processing.py:65-80 | a reported output folder means the child completed, and the tree is the prepared workspace plus what the child wrote |
| ExecutorProcessing.UnsafeProcessingTouchesNothing | app/services/executor_processing.py:40-41 | an unsafe script gets the "Unsafe processing script" error and the filesystem is unchanged |
| ExecutorProcessing.ProcessingWellShaped | app/services/executor_processing.py:40-80 | a returned result is well shaped, and has a folder exactly when the script is safe and the child completed |
| ExecutorProcessing.EverythingCopied | app/services/executor_processing.py:49-57 | every entry below the scraped folder is in the workspace at the same relative place with the same content |
| ExecutorProcessing.OnlyCopied | app/services/executor_processing.py:49-57 | everything in the workspace after the copy comes from the scraped folder at the same relative place |
| ExecutorProcessing.WorkspaceListing | app/services/executor_processing.py:49-62 | before the child starts, the workspace lists exactly the scraped names plus `processor.py`, which holds the script |
| ExecutorProcessing.ScriptSlot | app/services/executor_processing.py:59-62 | writing `processor.py` is blocked exactly when the scraped folder has a directory of that name |
| ExecutorProcessing.ProcessingFrame | app/services/executor_processing.py:44-80 | nothing outside the workspace changes, on every path |
| ExecutorProcessing.ScrapedFolderUntouched | app/services/executor_processing.py:49-57 | everything at or below the scraped folder is exactly as it was |
| RunSaver.PadRoundTrip | app/services/run_saver.py:6 | a number that fits the width reads back from its zero-padded digits |
| RunSaver.ParsePadRoundTrip | app/services/run_saver.py:6 | a digit string padded back to its length after reading is itself |
| RunSaver.FormatStamp | app/services/run_saver.py:6 | the stamp is 15 characters with the dash at position 8 |
| RunSaver.StampRoundTrip | app/services/run_saver.py:6 | every valid time formats to a stamp that reads back as that time |
| RunSaver.StampParseRoundTrip | app/services/run_saver.py:6 | every text that reads back as a time is that time's stamp |
| RunSaver.RunNameReadsBack | app/services/run_saver.py:6 | the run id's first fifteen characters parse back as the clock reading, followed by a dash and the uuid |
| RunSaver.RunFolderInjective | app/services/run_saver.py:6-7 | two runs share a folder only with the same second and the same uuid |
| RunSaver.CreateRunFolder | app/services/run_saver.py:5-9 | the method returns the run folder, fails only when a file blocks the path, and otherwise leaves the `makedirs` tree |
| RunSaver.RunFolderCreated | app/services/run_saver.py:8 | after creation the folder exists, only `runs` and the folder are new, and nothing else changed |
| RunSaver.RunFolderExisting | app/services/run_saver.py:8 | with `exist_ok`, re-creating an existing folder succeeds and changes nothing |
| RunSaver.SaveText | app/services/run_saver.py:11-13 | the method succeeds exactly when the folder exists and the name is not a directory, and then writes the file |
| RunSaver.SavedTextContents | app/services/run_saver.py:11-13 | afterwards the file holds exactly the content, the folder still exists and gains only that name |
| RunSaver.SavedTextFrame | app/services/run_saver.py:11-13 | no other entry changes |
| RunSaver.SavedTextTwice | app/services/run_saver.py:12 | saving twice keeps only the second content (the file is truncated) |
| RunSaver.SaveScrapedData | app/services/run_saver.py:15-17 | the method succeeds exactly when `copytree` can, and then grafts the folder below `dest_folder/scraped` |
| RunSaver.ScrapedCopied | app/services/run_saver.py:17 | every entry below the source lands at the same relative place below `dest_folder/scraped` |
| RunSaver.ScrapedNotIntoDest | app/services/run_saver.py:16-17 | the only name the copy adds to `dest_folder` is `scraped`, and it always adds it |
| RunSaver.ScrapedSourceKept | app/services/run_saver.py:17 | the source folder is unchanged |
| RunSaver.ScrapedMergeKeeps | app/services/run_saver.py:17 | `dirs_exist_ok`: entries already at the destination that the source lacks survive |
| FileTree.FileSystem.MakeDirs | app/services/executor.py:58 | `makedirs(exist_ok=True)` fails only on a file along the path, and otherwise adds the missing directories |
| FileTree.FileSystem.WriteFile | app/services/executor.py:63-64 | the write succeeds exactly when the parent exists and the path is not a directory, and then sets the file's content |
| FileTree.FileSystem.Copy2 | app/services/executor_processing.py:57 | `copy2` copies a file to the target exactly when the source is a file and the target can be written |
| FileTree.FileSystem.CopyTree | app/services/executor_processing.py:55 | `copytree(dirs_exist_ok=True)` either grafts the subtree or changes nothing |
| FileTree.FileSystem.ListDir | app/services/executor_processing.py:49 | `listdir` lists every child exactly once, and succeeds exactly when the folder exists |
| FileTree.GraftContents | app/services/run_saver.py:17 | after a merge copy, source entries win, other destination entries survive, and nothing else appears |
| FileTree.GraftKeepsSource | app/services/run_saver.py:17 | a merge copy between disjoint folders leaves the source unchanged |
| FileTree.MakeDirsExisting | app/services/executor.py:58 | creating an existing directory path changes nothing |
| Router.SubmitFields | app/services/submitter.py:13-21 | looking up `status_code` in the submission result gives the status (`None` when the post raised) and `response` gives the response text |
| Router.SubmitTextShape | app/api/router.py:84 | the saved submission text spells that dictionary as Python prints it |
| Router.ProcessingReportAgrees | app/services/executor_processing.py:40-80 | the processing executor returns instead of raising exactly when the script is unsafe or the folder exists without a `processor.py` directory, and then returns the processing report |
| Router.RunQuiz | app/api/router.py:21-92 | rejected exactly when the secret differs, with 403, no calls, no artifacts and no change; otherwise a run-folder crash exactly when a file blocks the path, and the run keeps its `Promise`, which fixes the ending the world predicts |
| Router.Pipeline | app/api/router.py:26-51 | from the rendered page on, the run ends exactly as `Expected` predicts (a collector crash, `collection_failed` exactly when no folder came back, or the later stages), never at the run folder, and keeps the `Promise` |
| Router.StartRun | app/api/router.py:31 | the run folder is created unless a file blocks it, and starts out empty, with the workspaces still fresh |
| Router.Collecting | app/api/router.py:32-40 | per generation outcome, the calls made and the artifacts saved, in order; on success the collector result is `CollectionResult` |
| Router.Collect | app/api/router.py:38 | the collector's result, with the run folder and the other workspace untouched |
| Router.NotCreated | app/api/router.py:42-47 | a run stopped at the collection gate has no `scraped` entry |
| Router.KeepScraped | app/api/router.py:49-50 | afterwards the scraped copy mirrors the collector's workspace, and the log stays saved |
| Router.ListScraped | app/api/router.py:51 | the listed names are exactly the entries of the collector's workspace |
| Router.Finish | app/api/router.py:53-66 | from the listing on, the run stops in the processor stage exactly when its generation fails or the `processor.py` clash occurs, otherwise goes on to the answer, and keeps the `Promise` |
| Router.Processing | app/api/router.py:54-66 | per generation and execution outcome, the calls and artifacts in order; after a string script the stage fails exactly when the script is safe and the scraped folder holds a `processor.py` directory, and otherwise goes on whatever the processor reported |
| Router.Process | app/api/router.py:61 | exactly `ProcessingResult` of the tree before: it raises exactly when the script is safe and the scraped folder holds a `processor.py` directory, and otherwise returns the processor's report; the run folder, the scraped copy and the listing are untouched |
| Router.Report | app/api/router.py:62-66 | the processor's stdout and stderr are saved in order, and its workspace is mirrored into the run folder when it reported one |
| Router.KeepProcessed | app/api/router.py:65-66 | afterwards the processed copy mirrors the processor's workspace, and the scraped copy still mirrors the collector's |
| Router.ProcessedFolderExists | app/api/router.py:65-66 | a reported output folder exists in the tree the processor leaves |
| Router.ProcessedNotCreated | app/api/router.py:65 | no `processed` entry exists unless the processor reported a folder |
| Router.Conclude | app/api/router.py:68-92 | from the processor's output on, the run crashes exactly when the answer generation raises and otherwise completes, and keeps the `Promise` |
| Router.Answering | app/api/router.py:69-84 | the answer is asked for with the processor's stdout, saved as `str(answer)`, submitted with the request's email and secret to the quiz URL, and the reply is saved |
| Router.SaveArtifact | app/api/router.py:32 | saving an artifact adds it to the log's saved files, and keeps the workspaces, the copies and the listing |
| Router.SaveStep | app/api/router.py:32 | saving under a new name in the run folder succeeds, and then the files of the log and the new one are in place |
| Router.FrameStep | app/api/router.py:38 | a change confined outside the run folder keeps every saved artifact |
| Router.GraftStep | app/api/router.py:50 | copying a workspace into the run folder succeeds, keeps the saved artifacts and mirrors the workspace |
| Router.GraftMirror | app/api/router.py:50 | after the merge copy into a fresh folder, the copy mirrors the source exactly |
| Router.CrashPromise | app/api/router.py:35-75 | an exception escaping a generation or the processing stage keeps the `Promise` when it is the ending the world predicts, the page came first, the log is saved and, past the gate, the scraped copy and listing are in place |
| Router.ProcessedEnding | app/api/router.py:61-72 | once a string processing script ran without the `processor.py` clash, the ending depends only on the answer generation fed with the processor's stdout (empty when it reported an error) |
| Router.ProcessorStopped | app/api/router.py:54-61 | a crash in the processor stage is predicted exactly for a failed generation or the `processor.py` clash |
| Router.AnswerStopped | app/api/router.py:69-75 | a raising answer generation after the processor stage is the predicted crash |
| Router.AnswerGiven | app/api/router.py:69-92 | a successful answer generation after the processor stage is the predicted completion |
| Router.CompletedPromise | app/api/router.py:87-92 | a run that answered keeps the `Promise`: seven calls and nine artifacts in order, both copies and the listing in place |
| Router.RunFolderStart | app/api/router.py:31 | a freshly created run folder holds nothing and leaves the temp directory and the workspaces as they were |
| Router.LayoutValid | app/api/router.py:31-61 | the run folder and the two workspaces of one run are pairwise apart |
| Router.CopiesAt | app/api/router.py:50 | the scraped data is copied to `<run>/scraped/scraped`, the processed data to `<run>/processed/scraped` |

## Left out

- `SAFE_IMPORTS` (executor.py): defined but never used by the code, so it has no counterpart.
- The page renderer, the chat service, `json.loads`, the submission endpoint and the child processes are parameters (a `World`), not code. The model therefore does not say what a generated script does, only what the executors and the endpoint do with its outcome.
- Router.RunQuiz: `render` and `post` are total functions. A connection error or read timeout of `requests.post` in the three generators, and a failure of the renderer, would escape the endpoint as a crash; the model has no such outcome.
- A child process is one `Outcome` decided in advance: its captured text (lost when it is killed) and the files it wrote, which stay whether it finished or was killed. Its writes are confined to its working directory. It does not change the script file into a directory or delete anything. What it captures is taken as complete text.
- The clock (`datetime.now`), `uuid.uuid4` and `tempfile.gettempdir` are parameters. Their freshness is a precondition (`RunEnvironment`, `Environment`): the run folder and both workspaces are new names, and the temp directory exists outside `runs`.
- The instruction text of the three prompts is abbreviated to its opening and closing lines. The headers and the inputs are placed as the code places them.
- The text of a caught exception (`{e}` in the parse errors) is replaced by a description of the lookup that failed. The texts of `NotADirectoryError`, `IsADirectoryError`, `FileNotFoundError` and `TypeError` are fixed strings.
- RunSaver.SaveText: texts are sequences of Unicode scalar values, so a text holding a lone surrogate cannot be expressed. Python's `json.loads` yields one from the escape `"\ud800"`, and writing such a generated script or answer with `encoding="utf-8"` (in `save_text` and in the `processor.py` write of the processing executor) raises `UnicodeEncodeError` and crashes the request. The `collector.py` write uses the locale's encoding and fails the same way under a UTF-8 locale; the model has no such outcome.
- `repr()` quotes strings with single quotes without escaping. Only integers are modelled as JSON numbers; floats are left out.
- Timestamps cover four-digit years and check field ranges only, not calendar validity. `strftime` and `strptime` are not modelled beyond that.
- FileTree.FileSystem.CopyTree / RunSaver.SaveScrapedData: the model treats a clash between a file and a directory as a failure that changes nothing. The real `copytree` copies what it can and raises `shutil.Error` at the end. A file copied onto an existing directory `dst/a` goes through `copy2` and lands at `dst/a/a`. A directory copied onto an existing file fails only for that entry. Every `copytree` in the modelled runs targets a fresh destination (`Router.GraftStep`, `ExecutorProcessing.DirStep` prove `CopyTreeOk` there), so no clash arises in them. `copy2`'s metadata is not modelled.
- `os.listdir` returns the names in some order; the model fixes no order and proves the properties for any order.
- JSON objects are assumed to have unique keys (what `json.loads` produces); lookups take the first match.
- HTTP headers, `Content-Type`, the model name and the API key are only recorded in the request; the response schemas themselves are not modelled, since the code never checks replies against them.
- FastAPI's `async` scheduling and concurrency between requests are left out. `HTTPException` becomes the `Rejected` result, and an exception escaping the endpoint becomes `Crashed`.
- `SECRET`, `BASE_URL`, `MODEL` or `OPENAI_API_KEY` missing from the environment (`None`) is not modelled: the configured values are strings.
- Router.RunQuiz: for a run that crashed, the `Promise` fixes the stage at which it crashed, that the page came first, that every logged artifact is saved and, past the gate, the scraped copy and the listing. It does not list such a run's calls and artifacts one by one; those are stated in the contracts of `Router.Collecting`, `Router.Processing` and `Router.Answering`.
- Router.RunQuiz: a crash in `os.listdir` or in the processing stage's filesystem calls other than the `processor.py` clash cannot happen under the environment precondition, so it is not a modelled outcome.
