/** The third generator: ask the chat model to format the final answer from
    the processor's output and return the `answer` field of its reply. */
module OpenAiFinalAnswer {
  import opened Wrappers
  import opened Strings
  import opened Json
  import opened ChatCompletion

  const SchemaName := "final_answer_schema"
  const AnswerField := "answer"
  const SystemRole := "You are the final answer formatter."
  const StatusPrefix := "Final answer OpenAI error "
  const ParsePrefix := "Final answer parse error: "

  /** The opening line of the instruction block (the rest of its wording is
      not part of the model). */
  const Instructions := "You are an answer formatter for an autonomous data pipeline."
  const Closing := "Respond ONLY in strict JSON."

  /** The user prompt: instructions, the quiz URL, the HTML and the
      processor's output, each under its own header. */
  function Prompt(processorStdout: string, html: string, quizUrl: string): string {
    "\n" + Instructions + "\n\n--- QUIZ URL ---\n" + quizUrl + "\n\n--- HTML CONTENT ---\n" + html
      + "\n\n--- PROCESSOR OUTPUT ---\n" + processorStdout + "\n\n" + Closing + "\n"
  }

  function AnswerRequest(cfg: Config, processorStdout: string, html: string, quizUrl: string): Request {
    ChatRequest(cfg, SystemRole, Prompt(processorStdout, html, quizUrl), SchemaName)
  }

  /** `generate_final_answer(processor_stdout, html, quiz_url)`. */
  function GenerateFinalAnswer(cfg: Config, post: Request -> Reply, loads: string -> Option<Value>,
                               processorStdout: string, html: string, quizUrl: string): Result<Value, string> {
    Complete(post(AnswerRequest(cfg, processorStdout, html, quizUrl)), loads, AnswerField, StatusPrefix, ParsePrefix)
  }

  lemma Tail(s: string, sub: string)
    requires Contains(s, sub)
    ensures Contains(s + "\n\n" + Closing + "\n", sub)
  {
    ContainsBefore(s, "\n\n", sub);
    ContainsBefore(s + "\n\n", Closing, sub);
    ContainsBefore(s + "\n\n" + Closing, "\n", sub);
  }

  /** The prompt holds the processor output, the HTML and the quiz URL
      verbatim. */
  lemma PromptHasInputs(processorStdout: string, html: string, quizUrl: string)
    ensures var p := Prompt(processorStdout, html, quizUrl);
      Contains(p, quizUrl) && Contains(p, html) && Contains(p, processorStdout)
  {
    var a := "\n" + Instructions + "\n\n--- QUIZ URL ---\n";
    var b := "\n\n--- HTML CONTENT ---\n";
    var c := "\n\n--- PROCESSOR OUTPUT ---\n";
    var s := a + quizUrl + b + html + c + processorStdout;
    ContainsEnd(a, quizUrl);
    ContainsBefore(a + quizUrl, b, quizUrl);
    ContainsBefore(a + quizUrl + b, html, quizUrl);
    ContainsBefore(a + quizUrl + b + html, c, quizUrl);
    ContainsBefore(a + quizUrl + b + html + c, processorStdout, quizUrl);
    Tail(s, quizUrl);
    ContainsEnd(a + quizUrl + b, html);
    ContainsBefore(a + quizUrl + b + html, c, html);
    ContainsBefore(a + quizUrl + b + html + c, processorStdout, html);
    Tail(s, html);
    ContainsEnd(a + quizUrl + b + html + c, processorStdout);
    Tail(s, processorStdout);
  }

  lemma RequestShape(cfg: Config, processorStdout: string, html: string, quizUrl: string)
    ensures var req := AnswerRequest(cfg, processorStdout, html, quizUrl);
      && req.url == ChatUrl(cfg.baseUrl) && EndsWith(req.url, CompletionsPath)
      && req.messages == [Message("system", SystemRole), Message("user", Prompt(processorStdout, html, quizUrl))]
      && req.schemaName == SchemaName && req.timeout == 180
  {
    ChatUrlSuffix(cfg.baseUrl);
  }

  /** A status other than 200 raises a `Final answer OpenAI error` naming
      the status. */
  lemma StatusRaises(cfg: Config, post: Request -> Reply, loads: string -> Option<Value>,
                     processorStdout: string, html: string, quizUrl: string)
    requires post(AnswerRequest(cfg, processorStdout, html, quizUrl)).status != 200
    ensures var r := GenerateFinalAnswer(cfg, post, loads, processorStdout, html, quizUrl);
      && r.Failure? && r.error[..|StatusPrefix|] == StatusPrefix
      && Contains(r.error, IntToString(post(AnswerRequest(cfg, processorStdout, html, quizUrl)).status))
  {
    StatusFails(post(AnswerRequest(cfg, processorStdout, html, quizUrl)), loads, AnswerField, StatusPrefix, ParsePrefix);
  }

  /** A well-formed 200 reply returns its `answer` member unchanged, of
      whatever kind it is: a list, which the response schema does not allow,
      passes as well as a number, a string, a boolean or an object. */
  lemma ReturnsAnswer(cfg: Config, post: Request -> Reply, loads: string -> Option<Value>,
                      processorStdout: string, html: string, quizUrl: string,
                      body: Value, choices: seq<Value>, message: Value, content: string, members: seq<(string, Value)>, i: nat)
    requires var reply := post(AnswerRequest(cfg, processorStdout, html, quizUrl));
      && reply.status == 200 && loads(reply.text) == Some(body)
      && Get(body, "choices") == Some(List(choices)) && |choices| > 0
      && Get(choices[0], "message") == Some(message)
      && Get(message, "content") == Some(Text(content))
      && loads(content) == Some(Object(members))
    requires i < |members| && members[i].0 == AnswerField
    requires forall j :: 0 <= j < |members| && j != i ==> members[j].0 != AnswerField
    ensures GenerateFinalAnswer(cfg, post, loads, processorStdout, html, quizUrl) == Success(members[i].1)
  {
    GetMember(members, i);
    WellFormedReplySucceeds(post(AnswerRequest(cfg, processorStdout, html, quizUrl)), loads, AnswerField, StatusPrefix, ParsePrefix,
                            body, choices, message, content, Object(members), members[i].1);
  }

  /** A missing key or undecodable text raises a `Final answer parse error`
      that ends with the raw reply. */
  lemma ParseRaises(cfg: Config, post: Request -> Reply, loads: string -> Option<Value>,
                    processorStdout: string, html: string, quizUrl: string)
    requires var reply := post(AnswerRequest(cfg, processorStdout, html, quizUrl));
      reply.status == 200 && Extract(reply.text, loads, AnswerField).Failure?
    ensures var r := GenerateFinalAnswer(cfg, post, loads, processorStdout, html, quizUrl);
      && r.Failure? && r.error[..|ParsePrefix|] == ParsePrefix
      && EndsWith(r.error, "\nRAW:\n" + post(AnswerRequest(cfg, processorStdout, html, quizUrl)).text)
  {
    MalformedReplyFails(post(AnswerRequest(cfg, processorStdout, html, quizUrl)), loads, AnswerField, StatusPrefix, ParsePrefix);
  }
}
