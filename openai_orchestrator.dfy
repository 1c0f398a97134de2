/** The first generator: ask the chat model for a data-collection script
    for a quiz page and return the `data_collection_script` field of its
    reply. */
module OpenAiOrchestrator {
  import opened Wrappers
  import opened Strings
  import opened Json
  import opened ChatCompletion

  const SchemaName := "collector_schema"
  const ScriptField := "data_collection_script"
  const SystemRole := "You are a data scraping engine."
  const StatusPrefix := "OpenAI API error "
  const ParsePrefix := "JSON parse error: "

  /** The opening line of the instruction block (the rest of its wording is
      not part of the model). */
  const Instructions := "You are a data extraction engine."
  const Closing := "Respond ONLY in STRICT JSON using the schema provided."

  /** The user prompt: instructions, then the quiz URL and the HTML, each
      under its own header. */
  function Prompt(html: string, quizUrl: string): string {
    "\n" + Instructions + "\n\n--- QUIZ URL ---\n" + quizUrl + "\n\n--- HTML CONTENT ---\n" + html + "\n\n" + Closing + "\n"
  }

  function CollectorRequest(cfg: Config, html: string, quizUrl: string): Request {
    ChatRequest(cfg, SystemRole, Prompt(html, quizUrl), SchemaName)
  }

  /** `generate_data_collection_script(html, quiz_url)`, with
      `requests.post` and `json.loads` passed in. The field is returned as
      the reply holds it. */
  function GenerateDataCollectionScript(cfg: Config, post: Request -> Reply, loads: string -> Option<Value>,
                                        html: string, quizUrl: string): Result<Value, string> {
    Complete(post(CollectorRequest(cfg, html, quizUrl)), loads, ScriptField, StatusPrefix, ParsePrefix)
  }

  /** The prompt holds the quiz URL and the HTML verbatim. */
  lemma PromptHasInputs(html: string, quizUrl: string)
    ensures Contains(Prompt(html, quizUrl), quizUrl) && Contains(Prompt(html, quizUrl), html)
  {
    var a := "\n" + Instructions + "\n\n--- QUIZ URL ---\n";
    var b := "\n\n--- HTML CONTENT ---\n";
    ContainsEnd(a, quizUrl);
    ContainsBefore(a + quizUrl, b, quizUrl);
    ContainsBefore(a + quizUrl + b, html, quizUrl);
    ContainsBefore(a + quizUrl + b + html, "\n\n", quizUrl);
    ContainsBefore(a + quizUrl + b + html + "\n\n", Closing, quizUrl);
    ContainsBefore(a + quizUrl + b + html + "\n\n" + Closing, "\n", quizUrl);
    ContainsEnd(a + quizUrl + b, html);
    ContainsBefore(a + quizUrl + b + html, "\n\n", html);
    ContainsBefore(a + quizUrl + b + html + "\n\n", Closing, html);
    ContainsBefore(a + quizUrl + b + html + "\n\n" + Closing, "\n", html);
  }

  /** The request goes to the normalised endpoint, with the scraping-engine
      system message, the prompt and the collector schema. */
  lemma RequestShape(cfg: Config, html: string, quizUrl: string)
    ensures var req := CollectorRequest(cfg, html, quizUrl);
      && req.url == ChatUrl(cfg.baseUrl) && EndsWith(req.url, CompletionsPath)
      && req.messages == [Message("system", SystemRole), Message("user", Prompt(html, quizUrl))]
      && req.schemaName == SchemaName && req.timeout == 180
  {
    ChatUrlSuffix(cfg.baseUrl);
  }

  /** A status other than 200 raises an `OpenAI API error` naming the status;
      no script is returned. */
  lemma StatusRaises(cfg: Config, post: Request -> Reply, loads: string -> Option<Value>, html: string, quizUrl: string)
    requires post(CollectorRequest(cfg, html, quizUrl)).status != 200
    ensures var r := GenerateDataCollectionScript(cfg, post, loads, html, quizUrl);
      && r.Failure? && r.error[..|StatusPrefix|] == StatusPrefix
      && Contains(r.error, IntToString(post(CollectorRequest(cfg, html, quizUrl)).status))
  {
    StatusFails(post(CollectorRequest(cfg, html, quizUrl)), loads, ScriptField, StatusPrefix, ParsePrefix);
  }

  /** A 200 reply whose message content decodes to an object with a
      `data_collection_script` member returns exactly that member. */
  lemma ReturnsScript(cfg: Config, post: Request -> Reply, loads: string -> Option<Value>, html: string, quizUrl: string,
                      body: Value, choices: seq<Value>, message: Value, content: string, members: seq<(string, Value)>, i: nat)
    requires var reply := post(CollectorRequest(cfg, html, quizUrl));
      && reply.status == 200 && loads(reply.text) == Some(body)
      && Get(body, "choices") == Some(List(choices)) && |choices| > 0
      && Get(choices[0], "message") == Some(message)
      && Get(message, "content") == Some(Text(content))
      && loads(content) == Some(Object(members))
    requires i < |members| && members[i].0 == ScriptField
    requires forall j :: 0 <= j < |members| && j != i ==> members[j].0 != ScriptField
    ensures GenerateDataCollectionScript(cfg, post, loads, html, quizUrl) == Success(members[i].1)
  {
    GetMember(members, i);
    WellFormedReplySucceeds(post(CollectorRequest(cfg, html, quizUrl)), loads, ScriptField, StatusPrefix, ParsePrefix,
                            body, choices, message, content, Object(members), members[i].1);
  }

  /** Any missing key or undecodable text in a 200 reply raises a
      `JSON parse error` that ends with the raw reply. */
  lemma ParseRaises(cfg: Config, post: Request -> Reply, loads: string -> Option<Value>, html: string, quizUrl: string)
    requires var reply := post(CollectorRequest(cfg, html, quizUrl));
      reply.status == 200 && Extract(reply.text, loads, ScriptField).Failure?
    ensures var r := GenerateDataCollectionScript(cfg, post, loads, html, quizUrl);
      && r.Failure? && r.error[..|ParsePrefix|] == ParsePrefix
      && EndsWith(r.error, "\nRAW:\n" + post(CollectorRequest(cfg, html, quizUrl)).text)
  {
    MalformedReplyFails(post(CollectorRequest(cfg, html, quizUrl)), loads, ScriptField, StatusPrefix, ParsePrefix);
  }
}
