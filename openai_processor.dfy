/** The second generator: ask the chat model for a processing script, given
    the quiz page and the names of the scraped files, and return the
    `data_processing_script` field of its reply. */
module OpenAiProcessor {
  import opened Wrappers
  import opened Strings
  import opened Json
  import opened ChatCompletion

  const SchemaName := "processing_schema"
  const ScriptField := "data_processing_script"
  const SystemRole := "You are a data processing engine."
  const StatusPrefix := "Processing OpenAI API error "
  const ParsePrefix := "Processing JSON parse error: "

  /** The opening line of the instruction block (the rest of its wording is
      not part of the model). */
  const Instructions := "You are a data processing engine for an autonomous pipeline."
  const Closing := "Respond ONLY using the strict JSON schema."

  /** The user prompt: instructions, the quiz URL, the HTML and the
      `json.dumps(scraped_file_list, indent=2)` listing, each under its own
      header. */
  function Prompt(html: string, quizUrl: string, files: seq<string>): string {
    "\n" + Instructions + "\n\n--- QUIZ URL ---\n" + quizUrl + "\n\n--- HTML CONTENT ---\n" + html
      + "\n\n--- SCRAPED FILES ---\n" + DumpsList(files) + "\n\n" + Closing + "\n"
  }

  function ProcessorRequest(cfg: Config, html: string, quizUrl: string, files: seq<string>): Request {
    ChatRequest(cfg, SystemRole, Prompt(html, quizUrl, files), SchemaName)
  }

  /** `generate_data_processing_script(html, quiz_url, scraped_file_list)`. */
  function GenerateDataProcessingScript(cfg: Config, post: Request -> Reply, loads: string -> Option<Value>,
                                        html: string, quizUrl: string, files: seq<string>): Result<Value, string> {
    Complete(post(ProcessorRequest(cfg, html, quizUrl, files)), loads, ScriptField, StatusPrefix, ParsePrefix)
  }

  /** Whatever ends a prompt after the listing keeps what the text so far
      contains. */
  lemma Tail(s: string, files: seq<string>, sub: string)
    requires Contains(s, sub)
    ensures Contains(s + "\n\n--- SCRAPED FILES ---\n" + DumpsList(files) + "\n\n" + Closing + "\n", sub)
  {
    var t1 := s + "\n\n--- SCRAPED FILES ---\n";
    ContainsBefore(s, "\n\n--- SCRAPED FILES ---\n", sub);
    ContainsBefore(t1, DumpsList(files), sub);
    ContainsBefore(t1 + DumpsList(files), "\n\n", sub);
    ContainsBefore(t1 + DumpsList(files) + "\n\n", Closing, sub);
    ContainsBefore(t1 + DumpsList(files) + "\n\n" + Closing, "\n", sub);
  }

  /** The prompt holds the quiz URL, the HTML and every file name (quoted as
      `json.dumps` writes it) verbatim. */
  lemma PromptHasInputs(html: string, quizUrl: string, files: seq<string>)
    ensures Contains(Prompt(html, quizUrl, files), quizUrl) && Contains(Prompt(html, quizUrl, files), html)
    ensures forall i :: 0 <= i < |files| ==> Contains(Prompt(html, quizUrl, files), Quote(files[i]))
  {
    var a := "\n" + Instructions + "\n\n--- QUIZ URL ---\n";
    var b := "\n\n--- HTML CONTENT ---\n";
    var s := a + quizUrl + b + html;
    ContainsEnd(a, quizUrl);
    ContainsBefore(a + quizUrl, b, quizUrl);
    ContainsBefore(a + quizUrl + b, html, quizUrl);
    Tail(s, files, quizUrl);
    ContainsEnd(a + quizUrl + b, html);
    Tail(s, files, html);
    forall i | 0 <= i < |files| ensures Contains(Prompt(html, quizUrl, files), Quote(files[i])) {
      ListingInPrompt(s, files, i);
    }
  }

  lemma ListingInPrompt(s: string, files: seq<string>, i: nat)
    requires i < |files|
    ensures Contains(s + "\n\n--- SCRAPED FILES ---\n" + DumpsList(files) + "\n\n" + Closing + "\n", Quote(files[i]))
  {
    var t1 := s + "\n\n--- SCRAPED FILES ---\n";
    DumpsListContains(files, i);
    ContainsAfter(t1, DumpsList(files), Quote(files[i]));
    ContainsBefore(t1 + DumpsList(files), "\n\n", Quote(files[i]));
    ContainsBefore(t1 + DumpsList(files) + "\n\n", Closing, Quote(files[i]));
    ContainsBefore(t1 + DumpsList(files) + "\n\n" + Closing, "\n", Quote(files[i]));
  }

  /** A file name of plain characters shows up in the prompt as itself
      between double quotes. */
  lemma PlainNameInPrompt(html: string, quizUrl: string, files: seq<string>, i: nat)
    requires i < |files| && forall k :: 0 <= k < |files[i]| ==> Plain(files[i][k])
    ensures Contains(Prompt(html, quizUrl, files), "\"" + files[i] + "\"")
  {
    PromptHasInputs(html, quizUrl, files);
    EscapePlain(files[i]);
  }

  lemma RequestShape(cfg: Config, html: string, quizUrl: string, files: seq<string>)
    ensures var req := ProcessorRequest(cfg, html, quizUrl, files);
      && req.url == ChatUrl(cfg.baseUrl) && EndsWith(req.url, CompletionsPath)
      && req.messages == [Message("system", SystemRole), Message("user", Prompt(html, quizUrl, files))]
      && req.schemaName == SchemaName && req.timeout == 180
  {
    ChatUrlSuffix(cfg.baseUrl);
  }

  /** A status other than 200 raises a `Processing OpenAI API error` naming
      the status. */
  lemma StatusRaises(cfg: Config, post: Request -> Reply, loads: string -> Option<Value>,
                     html: string, quizUrl: string, files: seq<string>)
    requires post(ProcessorRequest(cfg, html, quizUrl, files)).status != 200
    ensures var r := GenerateDataProcessingScript(cfg, post, loads, html, quizUrl, files);
      && r.Failure? && r.error[..|StatusPrefix|] == StatusPrefix
      && Contains(r.error, IntToString(post(ProcessorRequest(cfg, html, quizUrl, files)).status))
  {
    StatusFails(post(ProcessorRequest(cfg, html, quizUrl, files)), loads, ScriptField, StatusPrefix, ParsePrefix);
  }

  /** A well-formed 200 reply returns exactly its `data_processing_script`. */
  lemma ReturnsScript(cfg: Config, post: Request -> Reply, loads: string -> Option<Value>,
                      html: string, quizUrl: string, files: seq<string>,
                      body: Value, choices: seq<Value>, message: Value, content: string, members: seq<(string, Value)>, i: nat)
    requires var reply := post(ProcessorRequest(cfg, html, quizUrl, files));
      && reply.status == 200 && loads(reply.text) == Some(body)
      && Get(body, "choices") == Some(List(choices)) && |choices| > 0
      && Get(choices[0], "message") == Some(message)
      && Get(message, "content") == Some(Text(content))
      && loads(content) == Some(Object(members))
    requires i < |members| && members[i].0 == ScriptField
    requires forall j :: 0 <= j < |members| && j != i ==> members[j].0 != ScriptField
    ensures GenerateDataProcessingScript(cfg, post, loads, html, quizUrl, files) == Success(members[i].1)
  {
    GetMember(members, i);
    WellFormedReplySucceeds(post(ProcessorRequest(cfg, html, quizUrl, files)), loads, ScriptField, StatusPrefix, ParsePrefix,
                            body, choices, message, content, Object(members), members[i].1);
  }

  /** A missing key or undecodable text raises a `Processing JSON parse
      error` that ends with the raw reply. */
  lemma ParseRaises(cfg: Config, post: Request -> Reply, loads: string -> Option<Value>,
                    html: string, quizUrl: string, files: seq<string>)
    requires var reply := post(ProcessorRequest(cfg, html, quizUrl, files));
      reply.status == 200 && Extract(reply.text, loads, ScriptField).Failure?
    ensures var r := GenerateDataProcessingScript(cfg, post, loads, html, quizUrl, files);
      && r.Failure? && r.error[..|ParsePrefix|] == ParsePrefix
      && EndsWith(r.error, "\nRAW:\n" + post(ProcessorRequest(cfg, html, quizUrl, files)).text)
  {
    MalformedReplyFails(post(ProcessorRequest(cfg, html, quizUrl, files)), loads, ScriptField, StatusPrefix, ParsePrefix);
  }
}
