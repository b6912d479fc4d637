/** The `summarize_text` activity: it posts the text as a single user message
    to the chat-completions endpoint of the configured deployment and returns
    the content of the first choice. The HTTP exchange itself is not modelled:
    the service is a function from the request to its response. */
module SummarizeText {
  import opened Wrappers

  const ApiVersion: string := "2025-01-01-preview"
  const MaxTokens: nat := 200

  /** The settings read from the environment. */
  datatype Config = Config(endpoint: string, deployment: string, apiKey: string)

  datatype Message = Message(role: string, content: string)

  datatype RequestBody = RequestBody(messages: seq<Message>, maxTokens: nat)

  datatype Request = Request(url: string, headers: map<string, string>, body: RequestBody)

  datatype Choice = Choice(message: Message)

  /** The HTTP status and the already-decoded JSON body of the response. */
  datatype Response = Response(status: int, choices: seq<Choice>)

  datatype SummarizeError =
    | HttpError(status: int)   // `raise_for_status` raised
    | NoChoices                // `["choices"][0]` raised IndexError

  /** `s.rstrip(c)`: `s` without any trailing `c`; the result is a prefix of
      `s` that does not end in `c`. */
  function RStrip(s: string, c: char): (r: string)
    ensures r <= s
    ensures r == [] || r[|r| - 1] != c
    decreases |s|
  {
    if s != [] && s[|s| - 1] == c then RStrip(s[..|s| - 1], c) else s
  }

  /** `r` is `s` cut just before a trailing run of `c`, and `r` itself does not
      end in `c`: an independent definition of `RStrip`. */
  predicate StripsTrailing(r: string, s: string, c: char)
  {
    && |r| <= |s|
    && s[..|r|] == r
    && (forall i :: |r| <= i < |s| ==> s[i] == c)
    && (r == [] || r[|r| - 1] != c)
  }

  lemma {:induction false} RStripStripsTrailing(s: string, c: char)
    ensures StripsTrailing(RStrip(s, c), s, c)
    decreases |s|
  {
    if s != [] && s[|s| - 1] == c {
      RStripStripsTrailing(s[..|s| - 1], c);
    }
  }

  /** Only one prefix of `s` strips its trailing `c`s. */
  lemma StripsTrailingUnique(a: string, b: string, s: string, c: char)
    requires StripsTrailing(a, s, c)
    requires StripsTrailing(b, s, c)
    ensures a == b
  {
  }

  /** Trailing `/`s on the configured endpoint make no difference. */
  lemma RStripIgnoresTrailing(s: string, c: char)
    ensures RStrip(s + [c], c) == RStrip(s, c)
  {
    assert (s + [c])[..|s|] == s;
  }

  const DeploymentsPath: string := "/openai/deployments/"
  const CompletionsPath: string := "/chat/completions?api-version="

  /** The URL the request is posted to: it ends with the fixed path naming
      the deployment and the API version, and what comes before is the
      endpoint stripped of its trailing `/`s. */
  function CompletionsUrl(endpoint: string, deployment: string): (url: string)
    ensures var tail := DeploymentsPath + deployment + CompletionsPath + ApiVersion;
            && |tail| <= |url|
            && url[|url| - |tail|..] == tail
            && StripsTrailing(url[..|url| - |tail|], endpoint, '/')
  {
    var base := RStrip(endpoint, '/');
    var tail := DeploymentsPath + deployment + CompletionsPath + ApiVersion;
    RStripStripsTrailing(endpoint, '/');
    ConcatParts(base, tail);
    base + tail
  }

  lemma ConcatParts(a: string, b: string)
    ensures (a + b)[..|a|] == a && (a + b)[|a|..] == b
  {
  }

  /** The URL is the endpoint with every trailing `/` removed, then the fixed
      path naming the deployment, then the fixed API version. */
  lemma CompletionsUrlShape(endpoint: string, deployment: string, base: string)
    requires StripsTrailing(base, endpoint, '/')
    ensures CompletionsUrl(endpoint, deployment)
            == base + DeploymentsPath + deployment + CompletionsPath + ApiVersion
  {
    RStripStripsTrailing(endpoint, '/');
    StripsTrailingUnique(RStrip(endpoint, '/'), base, endpoint, '/');
  }

  /** A trailing `/` on the configured endpoint does not change the URL. */
  lemma CompletionsUrlIgnoresTrailingSlash(endpoint: string, deployment: string)
    ensures CompletionsUrl(endpoint + ['/'], deployment) == CompletionsUrl(endpoint, deployment)
  {
    RStripIgnoresTrailing(endpoint, '/');
  }

  /** The request body: exactly one user message holding the text, and the
      output bounded by `max_tokens` 200. */
  function BodyFor(text: string): (b: RequestBody)
    ensures |b.messages| == 1
    ensures b.messages[0].role == "user" && b.messages[0].content == text
    ensures b.maxTokens == 200
  {
    RequestBody([Message("user", text)], MaxTokens)
  }

  /** The full request `summarize_text` posts. */
  function RequestFor(cfg: Config, text: string): (req: Request)
    ensures req.url == CompletionsUrl(cfg.endpoint, cfg.deployment)
    ensures req.headers.Keys == {"api-key", "Content-Type"}
    ensures req.headers["api-key"] == cfg.apiKey
    ensures req.headers["Content-Type"] == "application/json"
    ensures req.body == BodyFor(text)
  {
    Request(CompletionsUrl(cfg.endpoint, cfg.deployment),
            map["api-key" := cfg.apiKey, "Content-Type" := "application/json"],
            BodyFor(text))
  }

  /** `requests`' `raise_for_status` raises for 4xx and 5xx statuses. */
  predicate IsHttpError(status: int)
  {
    400 <= status < 600
  }

  /** `raise_for_status()` then `["choices"][0]["message"]["content"]`: the
      activity succeeds exactly when the status is not an error status and
      there is a choice, and its summary is then the first choice's content
      (an empty content is a summary, not a failure). */
  function SummaryOf(resp: Response): (r: Result<string, SummarizeError>)
    ensures r.Success? <==> !IsHttpError(resp.status) && |resp.choices| > 0
    ensures r.Success? ==> r.value == resp.choices[0].message.content
    ensures IsHttpError(resp.status) ==> r == Failure(HttpError(resp.status))
    ensures !IsHttpError(resp.status) && resp.choices == [] ==> r == Failure(NoChoices)
  {
    if IsHttpError(resp.status) then Failure(HttpError(resp.status))
    else if |resp.choices| == 0 then Failure(NoChoices)
    else Success(resp.choices[0].message.content)
  }

  /** The outcome of `summarize_text` against a service `post`: it succeeds
      exactly when the service's answer to the request is not an error status
      and holds a choice, and the summary is then the first choice's content. */
  function Summarize(cfg: Config, text: string, post: Request -> Response): (r: Result<string, SummarizeError>)
    ensures var resp := post(RequestFor(cfg, text));
            && (r.Success? <==> !IsHttpError(resp.status) && |resp.choices| > 0)
            && (r.Success? ==> r.value == resp.choices[0].message.content)
  {
    SummaryOf(post(RequestFor(cfg, text)))
  }

  /** What `summarize_text` posts: to the stripped endpoint's completions URL
      for the deployment, with the configured key and a JSON content type, a
      body of exactly one user message holding the text and `max_tokens` 200;
      and its outcome is read from the service's answer to that request. */
  lemma SummarizeRequest(cfg: Config, text: string, post: Request -> Response, base: string)
    requires StripsTrailing(base, cfg.endpoint, '/')
    ensures var req := RequestFor(cfg, text);
            && req.url == base + DeploymentsPath + cfg.deployment + CompletionsPath + ApiVersion
            && req.headers == map["api-key" := cfg.apiKey, "Content-Type" := "application/json"]
            && req.body.messages == [Message("user", text)]
            && req.body.maxTokens == MaxTokens
            && Summarize(cfg, text, post) == SummaryOf(post(req))
  {
    CompletionsUrlShape(cfg.endpoint, cfg.deployment, base);
    var req := RequestFor(cfg, text);
    assert req.body.messages == [Message("user", text)];
  }
}
