/** What the three generator modules have in common, line for line: the
    chat endpoint built from `BASE_URL`, the request they post, and the way
    they read one named field out of the reply or raise. */
module ChatCompletion {
  import opened Wrappers
  import opened Strings
  import opened Json

  const CompletionsPath := "/v1/chat/completions"

  // ---------------------------------------------------------------------
  // Endpoint normalisation.

  predicate AllSlashes(s: string) {
    forall k :: 0 <= k < |s| ==> s[k] == '/'
  }

  /** `s.rstrip(c)`: every trailing `c` removed, nothing else. */
  function RStrip(s: string, c: char): (t: string)
    ensures |t| <= |s| && t == s[..|t|]
    ensures forall k :: |t| <= k < |s| ==> s[k] == c
    ensures |t| == 0 || t[|t| - 1] != c
    decreases |s|
  {
    if |s| > 0 && s[|s| - 1] == c then RStrip(s[..|s| - 1], c) else s
  }

  /** The module-level `base`: `BASE_URL.rstrip("/")`, then one trailing
      `/v1` cut off. What is removed is a run of slashes, possibly after a
      single `/v1`. */
  function NormalizeBase(baseUrl: string): (base: string)
    ensures |base| <= |baseUrl| && base == baseUrl[..|base|]
    ensures AllSlashes(baseUrl[|base|..])
         || (|base| + 3 <= |baseUrl| && baseUrl[|base|..|base| + 3] == "/v1" && AllSlashes(baseUrl[|base| + 3..]))
  {
    var t := RStrip(baseUrl, '/');
    if EndsWith(t, "/v1") then t[..|t| - 3] else t
  }

  /** `URL_CHAT`. */
  function ChatUrl(baseUrl: string): string {
    NormalizeBase(baseUrl) + CompletionsPath
  }

  /** `k` slashes. */
  function Slashes(k: nat): (s: string)
    ensures |s| == k && AllSlashes(s)
  {
    if k == 0 then "" else Slashes(k - 1) + "/"
  }

  /** Every endpoint ends with the completions path. */
  lemma ChatUrlSuffix(baseUrl: string)
    ensures EndsWith(ChatUrl(baseUrl), CompletionsPath)
  {
    var u := ChatUrl(baseUrl);
    assert u[|u| - |CompletionsPath|..] == CompletionsPath;
  }

  /** Trailing slashes after a text that does not end in one are all
      stripped, and only they. */
  lemma {:induction false} RStripSlashes(x: string, k: nat)
    requires !EndsWith(x, "/")
    ensures RStrip(x + Slashes(k), '/') == x
  {
    if k > 0 {
      assert (x + Slashes(k))[..|x + Slashes(k)| - 1] == x + Slashes(k - 1);
      RStripSlashes(x, k - 1);
    } else {
      assert x + Slashes(0) == x;
      if |x| > 0 {
        assert x[|x| - 1..] == [x[|x| - 1]];
      }
    }
  }

  /** For a base `x` that ends in neither `/` nor `/v1`, adding slashes,
      `/v1`, or `/v1` and slashes leads to the same endpoint `x/v1/chat/completions`. */
  lemma SpellingsAgree(x: string, k: nat)
    requires !EndsWith(x, "/") && !EndsWith(x, "/v1")
    ensures ChatUrl(x + Slashes(k)) == x + CompletionsPath
    ensures ChatUrl(x + "/v1" + Slashes(k)) == x + CompletionsPath
  {
    RStripSlashes(x, k);
    var y := x + "/v1";
    assert y[|y| - 1..] == "1";
    RStripSlashes(y, k);
    assert y[|y| - 3..] == "/v1" && y[..|y| - 3] == x;
  }

  /** The five spellings of one endpoint. */
  lemma FiveSpellings(x: string)
    requires !EndsWith(x, "/") && !EndsWith(x, "/v1")
    ensures var u := x + CompletionsPath;
      && ChatUrl(x) == u && ChatUrl(x + "/") == u && ChatUrl(x + "//") == u
      && ChatUrl(x + "/v1") == u && ChatUrl(x + "/v1" + "/") == u
  {
    SmallSlashes();
    assert x + "" == x && x + "/v1" + "" == x + "/v1";
    Spelling(x, 0, x, x + "/v1");
    Spelling(x, 1, x + "/", x + "/v1" + "/");
    Spelling(x, 2, x + "//", x + "/v1" + "//");
  }

  lemma SmallSlashes()
    ensures Slashes(0) == "" && Slashes(1) == "/" && Slashes(2) == "//"
  {
    assert Slashes(1) == "" + "/";
    assert Slashes(2) == "/" + "/";
  }

  lemma Spelling(x: string, k: nat, plain: string, versioned: string)
    requires !EndsWith(x, "/") && !EndsWith(x, "/v1")
    requires plain == x + Slashes(k) && versioned == x + "/v1" + Slashes(k)
    ensures ChatUrl(plain) == x + CompletionsPath && ChatUrl(versioned) == x + CompletionsPath
  {
    SpellingsAgree(x, k);
  }

  /** Only one `/v1` is stripped: a doubled one keeps the first. */
  lemma OnlyOneVersionStripped(x: string, k: nat)
    ensures ChatUrl(x + "/v1/v1" + Slashes(k)) == x + "/v1" + CompletionsPath
  {
    var z := x + "/v1";
    var y := z + "/v1";
    assert x + "/v1/v1" == y by {
      assert "/v1/v1" == "/v1" + "/v1";
    }
    assert y[|y| - 1..] == "1";
    RStripSlashes(y, k);
    assert y[|y| - 3..] == "/v1" && y[..|y| - 3] == z;
  }

  // ---------------------------------------------------------------------
  // The request.

  /** The settings `app.core.config` reads from the environment. */
  datatype Config = Config(baseUrl: string, model: string, apiKey: string)

  datatype Message = Message(role: string, content: string)

  /** One `requests.post(URL_CHAT, headers=HEADERS, json=body, timeout=180)`:
      the target, the bearer token, the two chat messages and the name of
      the strict response schema. */
  datatype Request = Request(url: string, authorization: string, model: string,
                             messages: seq<Message>, schemaName: string, timeout: nat)

  const RequestTimeout := 180

  function ChatRequest(cfg: Config, system: string, prompt: string, schemaName: string): (req: Request)
    ensures req.url == ChatUrl(cfg.baseUrl) && req.timeout == RequestTimeout
    ensures req.messages == [Message("system", system), Message("user", prompt)]
  {
    Request(ChatUrl(cfg.baseUrl), "Bearer " + cfg.apiKey, cfg.model,
            [Message("system", system), Message("user", prompt)], schemaName, RequestTimeout)
  }

  /** What came back: the HTTP status and the body text. */
  datatype Reply = Reply(status: int, text: string)

  // ---------------------------------------------------------------------
  // Reading the reply.

  /** The lookup that raised inside the `try`; the message carries this in
      place of the text of the caught exception. */
  datatype Step =
    | BodyNotJson
    | NoChoices
    | NoFirstChoice
    | NoMessage
    | NoContent
    | ContentNotText
    | ContentNotJson
    | NoField(name: string)

  /** `resp.json()["choices"][0]["message"]["content"]`, then
      `json.loads(content)`, then `out[field]`; the first failing
      step, if any. `loads` is `json.loads`, which `resp.json()` also is. */
  function Extract(text: string, loads: string -> Option<Value>, field: string): (r: Result<Value, Step>)
  {
    match loads(text)
    case None => Failure(BodyNotJson)
    case Some(body) =>
      match Get(body, "choices")
      case None => Failure(NoChoices)
      case Some(choices) =>
        match First(choices)
        case None => Failure(NoFirstChoice)
        case Some(choice) =>
          match Get(choice, "message")
          case None => Failure(NoMessage)
          case Some(message) =>
            match Get(message, "content")
            case None => Failure(NoContent)
            case Some(content) =>
              if !content.Text? then Failure(ContentNotText)
              else match loads(content.s)
                case None => Failure(ContentNotJson)
                case Some(out) =>
                  match Get(out, field)
                  case None => Failure(NoField(field))
                  case Some(v) => Success(v)
  }

  function DescribeStep(s: Step): string {
    match s
    case BodyNotJson => "reply body is not JSON"
    case NoChoices => "'choices'"
    case NoFirstChoice => "no first choice"
    case NoMessage => "'message'"
    case NoContent => "'content'"
    case ContentNotText => "content is not a string"
    case ContentNotJson => "content is not JSON"
    case NoField(name) => "'" + name + "'"
  }

  /** `f"{statusPrefix}{resp.status_code}: {resp.text}"`. */
  function StatusMessage(statusPrefix: string, reply: Reply): string {
    statusPrefix + IntToString(reply.status) + ": " + reply.text
  }

  /** `f"{parsePrefix}{e}\nRAW:\n{resp.text}"`. */
  function ParseMessage(parsePrefix: string, step: Step, reply: Reply): string {
    parsePrefix + DescribeStep(step) + "\nRAW:\n" + reply.text
  }

  /** The tail every generator shares: check the status, then extract the
      field, raising (`Failure`) with the module's own two messages. */
  function Complete(reply: Reply, loads: string -> Option<Value>, field: string,
                    statusPrefix: string, parsePrefix: string): (r: Result<Value, string>)
  {
    if reply.status != 200 then Failure(StatusMessage(statusPrefix, reply))
    else match Extract(reply.text, loads, field)
      case Failure(step) => Failure(ParseMessage(parsePrefix, step, reply))
      case Success(v) => Success(v)
  }

  /** A reply that is not 200 always raises, with the status prefix and the
      status code in the message. */
  lemma StatusFails(reply: Reply, loads: string -> Option<Value>, field: string,
                    statusPrefix: string, parsePrefix: string)
    requires reply.status != 200
    ensures var r := Complete(reply, loads, field, statusPrefix, parsePrefix);
      && r.Failure?
      && r.error[..|statusPrefix|] == statusPrefix
      && Contains(r.error, IntToString(reply.status))
  {
    ContainsIntro(statusPrefix, IntToString(reply.status), ": " + reply.text);
    assert StatusMessage(statusPrefix, reply) == statusPrefix + IntToString(reply.status) + (": " + reply.text);
  }

  /** A 200 reply whose lookups all succeed returns exactly the field... */
  lemma WellFormedReplySucceeds(reply: Reply, loads: string -> Option<Value>, field: string,
                                statusPrefix: string, parsePrefix: string,
                                body: Value, choices: seq<Value>, message: Value, content: string,
                                out: Value, v: Value)
    requires reply.status == 200
    requires loads(reply.text) == Some(body)
    requires Get(body, "choices") == Some(List(choices)) && |choices| > 0
    requires Get(choices[0], "message") == Some(message)
    requires Get(message, "content") == Some(Text(content))
    requires loads(content) == Some(out) && Get(out, field) == Some(v)
    ensures Complete(reply, loads, field, statusPrefix, parsePrefix) == Success(v)
  {
  }

  /** ... every success is such a reply... */
  lemma SuccessIsWellFormed(reply: Reply, loads: string -> Option<Value>, field: string,
                            statusPrefix: string, parsePrefix: string, v: Value)
    requires Complete(reply, loads, field, statusPrefix, parsePrefix) == Success(v)
    ensures reply.status == 200
    ensures exists body, choice, message, content, out ::
      && loads(reply.text) == Some(body)
      && Get(body, "choices").Some? && First(Get(body, "choices").value) == Some(choice)
      && Get(choice, "message") == Some(message)
      && Get(message, "content") == Some(Text(content))
      && loads(content) == Some(out) && Get(out, field) == Some(v)
  {
    var body := loads(reply.text).value;
    var choice := First(Get(body, "choices").value).value;
    var message := Get(choice, "message").value;
    var content := Get(message, "content").value;
    var out := loads(content.s).value;
    assert Get(message, "content") == Some(Text(content.s));
  }

  /** ... and any other 200 reply raises with the parse prefix and the raw
      body at the end of the message. */
  lemma MalformedReplyFails(reply: Reply, loads: string -> Option<Value>, field: string,
                            statusPrefix: string, parsePrefix: string)
    requires reply.status == 200 && Extract(reply.text, loads, field).Failure?
    ensures var r := Complete(reply, loads, field, statusPrefix, parsePrefix);
      && r.Failure?
      && r.error[..|parsePrefix|] == parsePrefix
      && EndsWith(r.error, "\nRAW:\n" + reply.text)
  {
    var step := Extract(reply.text, loads, field).error;
    assert Complete(reply, loads, field, statusPrefix, parsePrefix) == Failure(ParseMessage(parsePrefix, step, reply));
    FramedBy(parsePrefix, DescribeStep(step), "\nRAW:\n", reply.text);
  }

  lemma FramedBy(a: string, b: string, c: string, d: string)
    ensures (a + b + c + d)[..|a|] == a && EndsWith(a + b + c + d, c + d)
  {
    var s := a + b + c + d;
    assert s == a + (b + (c + d));
    assert s[|s| - |c + d|..] == c + d;
  }

  /** Only the `choices` member of the body decides the outcome: two 200
      replies whose bodies agree there succeed or fail at the same step
      and return the same field, whatever else either body holds. Nothing
      checks the field against the response schema, so with
      `WellFormedReplySucceeds` a field of any kind comes back as it was. */
  lemma OnlyChoicesMatter(r1: Reply, r2: Reply, loads: string -> Option<Value>, field: string,
                          statusPrefix: string, parsePrefix: string, b1: Value, b2: Value)
    requires r1.status == 200 && r2.status == 200
    requires loads(r1.text) == Some(b1) && loads(r2.text) == Some(b2)
    requires Get(b1, "choices") == Get(b2, "choices")
    ensures Extract(r1.text, loads, field) == Extract(r2.text, loads, field)
    ensures var c1 := Complete(r1, loads, field, statusPrefix, parsePrefix);
      var c2 := Complete(r2, loads, field, statusPrefix, parsePrefix);
      && (c1.Success? <==> c2.Success?)
      && (c1.Success? ==> c1 == c2)
  {
  }
}
