/** The REST connection (`OpenAIConnection`): one POST per attempt, a bounded
    retry on rate limits, connection errors and timeouts, extraction of the
    content and usage from a 200 answer, and the three-way `encode`. The
    network is a function from the retry counter of an attempt to its outcome;
    sleeps are recorded instead of taken. */
module OpenAIConnection {
  import opened Common
  import opened Strings

  /** The dataclass parameters of `OpenAIConnection`. */
  datatype Config = Config(
    apiKey: string,
    model: string,
    contextSize: int,
    useOpenrouter: bool,
    openrouterBaseUrl: string,
    apiUrl: string,
    apiPath: string,
    apiTimeout: int,
    apiBackoff: int,
    apiRetries: int)

  /** A configuration that keeps every parameter default. */
  function DefaultConfig(apiKey: string, model: string, contextSize: int): Config {
    Config(apiKey, model, contextSize, false, "https://openrouter.ai/api/v1",
           "https://api.openai.com", "/v1/chat/completions", 240, 60, 3)
  }

  /** The fixed configurations of the model subclasses. The OpenRouter ones
      read their key from the environment, so it is a parameter here. */
  function GPT35Turbo(apiKey: string): Config { DefaultConfig(apiKey, "gpt-3.5-turbo", 16385) }
  function GPT4(apiKey: string): Config { DefaultConfig(apiKey, "gpt-4", 8192) }
  function GPT4Turbo(apiKey: string): Config { DefaultConfig(apiKey, "gpt-4-turbo-preview", 128000) }
  function GeminiFlash158bExp(openrouterKey: string): Config {
    DefaultConfig(openrouterKey, GooglePrefix + "gemini-flash-1.5-8b-exp", 1000000).(useOpenrouter := true)
  }
  function GeminiFlash15Exp(openrouterKey: string): Config {
    DefaultConfig(openrouterKey, GooglePrefix + "gemini-flash-1.5-exp", 1000000).(useOpenrouter := true)
  }
  function GeminiPro15Exp(openrouterKey: string): Config {
    DefaultConfig(openrouterKey, GooglePrefix + "gemini-pro-1.5-exp", 2000000).(useOpenrouter := true)
  }
  function Gemma29bItFree(openrouterKey: string): Config {
    DefaultConfig(openrouterKey, GooglePrefix + "gemma-2-9b-it:free", 8192).(useOpenrouter := true)
  }

  /** The Google models whose tokens are counted by the hosted tokenizer. */
  const ListedGoogleModels: seq<string> := [
    GooglePrefix + "gemini-flash-1.5-8b-exp",
    GooglePrefix + "gemini-flash-1.5-exp",
    GooglePrefix + "gemini-pro-1.5-exp",
    GooglePrefix + "gemma-2-9b-it:free"]

  /** `any(m in self.model for m in [...])`: the model id contains a listed name. */
  predicate MentionsListedModel(model: string) {
    exists k :: 0 <= k < |ListedGoogleModels| && Contains(model, ListedGoogleModels[k])
  }

  /** Through OpenRouter to one of the listed Google models. */
  predicate HostedTokens(cfg: Config) {
    cfg.useOpenrouter && MentionsListedModel(cfg.model)
  }

  /** The tokenizer `encode` uses: the hosted one under OpenRouter for a listed
      model, else tiktoken for a "gpt-" model whatever the routing, else
      tiktoken's "gpt-3.5-turbo" encoding. Some tokenizer is always chosen. */
  function EncoderFor(cfg: Config): (t: Tokenizer)
    ensures HostedTokens(cfg) <==> t == Hosted(HostedName(cfg.model))
    ensures !HostedTokens(cfg) && StartsWith(cfg.model, GptPrefix) ==> t == Tiktoken(cfg.model)
    ensures !HostedTokens(cfg) && !StartsWith(cfg.model, GptPrefix) ==> t == Tiktoken("gpt-3.5-turbo")
  {
    if cfg.useOpenrouter && MentionsListedModel(cfg.model) then Hosted(HostedName(cfg.model))
    else if StartsWith(cfg.model, GptPrefix) then Tiktoken(cfg.model)
    else Tiktoken("gpt-3.5-turbo")
  }

  /** `encode`. */
  function Encode(cfg: Config, o: Oracles, query: string): (r: seq<int>)
    ensures r == EncodeWith(o, EncoderFor(cfg), query)
  {
    if cfg.useOpenrouter && MentionsListedModel(cfg.model) then o.hostedEncode(HostedName(cfg.model), query)
    else if StartsWith(cfg.model, GptPrefix) then o.tiktoken(cfg.model, query)
    else o.tiktoken("gpt-3.5-turbo", query)
  }

  /** One message of the request body. */
  datatype ChatTurn = ChatTurn(role: string, content: string)

  /** What one `requests.post` sends. */
  datatype Request = Request(url: string, authorization: string, model: string, messages: seq<ChatTurn>, timeout: int)

  const BearerScheme: string := "Bearer "

  /** The request of every attempt: OpenRouter's URL or the API URL and path,
      a bearer header whose key a keyword `api_key` overrides, and a body with
      the model and the prompt as the one user message. */
  function BuildRequest(cfg: Config, prompt: string, keyOverride: Option<string>): (r: Request)
    ensures r.url == if cfg.useOpenrouter then cfg.openrouterBaseUrl else cfg.apiUrl + cfg.apiPath
    ensures StartsWith(r.authorization, BearerScheme)
    ensures r.authorization[|BearerScheme|..] == keyOverride.GetOr(cfg.apiKey)
    ensures r.model == cfg.model && r.timeout == cfg.apiTimeout
    ensures |r.messages| == 1 && r.messages[0] == ChatTurn("user", prompt)
  {
    var key := keyOverride.GetOr(cfg.apiKey);
    var url := if cfg.useOpenrouter then cfg.openrouterBaseUrl else cfg.apiUrl + cfg.apiPath;
    Request(url, BearerScheme + key, cfg.model, [ChatTurn("user", prompt)], cfg.apiTimeout)
  }

  /** The parsed JSON answer: the content of each choice's message, and the
      `usage` entry, which may be missing, null, or an object whose token
      fields may be missing. */
  datatype BodyChoice = BodyChoice(content: string)
  datatype UsageField = NoUsage | NullUsage | UsageObject(promptTokens: Option<int>, completionTokens: Option<int>)
  datatype Body = Body(choices: seq<BodyChoice>, usage: UsageField)

  /** The outcome of one attempt: an answer with its status, parsed body, raw
      text and measured duration; a connection error; a connect timeout
      (which `requests` raises as a connection error too); a read timeout; any
      other `requests` exception (an invalid URL, too many redirects, a broken
      chunked body, ...), which no handler catches. */
  datatype Attempt =
    | Answered(status: int, body: Body, text: string, elapsed: real)
    | ConnectFailed
    | ConnectTimedOut
    | ReadTimedOut
    | RequestFailed

  /** What `get_response` raises: the retry guard, a non-200/429 status, an
      empty `choices`, a null `usage` (`None.get`), `time.sleep` of a negative
      backoff. */
  datatype ConnError =
    | RetriesExhausted
    | GatewayError(gateway: string, status: int, text: string)
    | NoChoices
    | UsageNotObject
    | NegativeSleep
    | UncaughtRequestError

  /** The gateway named in a status error. */
  function GatewayName(cfg: Config): string {
    if cfg.useOpenrouter then "OpenRouter" else "OpenAI Gateway"
  }

  /** The 200 path: the first choice's content is both the message and the
      content; token counts come from the hosted tokenizer for a listed model
      under OpenRouter, else from `usage` with missing fields read as 0. */
  function Extract(cfg: Config, o: Oracles, prompt: string, body: Body, elapsed: real)
    : (r: Result<LLMResult<string>, ConnError>)
    ensures |body.choices| == 0 ==> r == Failure(NoChoices)
    ensures r.Success? ==>
      && r.value.message == body.choices[0].content
      && r.value.content == body.choices[0].content
      && r.value.renderedPrompt == prompt
      && r.value.duration == elapsed
    ensures |body.choices| > 0 && HostedTokens(cfg) ==>
      && r.Success?
      && r.value.tokensQuery == o.hostedCount(HostedName(cfg.model), prompt)
      && r.value.tokensResponse == o.hostedCount(HostedName(cfg.model), body.choices[0].content)
    ensures |body.choices| > 0 && !HostedTokens(cfg) ==>
      match body.usage
      case NoUsage => r.Success? && r.value.tokensQuery == 0 && r.value.tokensResponse == 0
      case NullUsage => r == Failure(UsageNotObject)
      case UsageObject(p, c) =>
        r.Success? && r.value.tokensQuery == p.GetOr(0) && r.value.tokensResponse == c.GetOr(0)
  {
    if |body.choices| == 0 then Failure(NoChoices)
    else
      var result := body.choices[0].content;
      if cfg.useOpenrouter && MentionsListedModel(cfg.model) then
        var name := HostedName(cfg.model);
        Success(LLMResult(result, prompt, result, elapsed, o.hostedCount(name, prompt), o.hostedCount(name, result)))
      else
        match body.usage
        case NoUsage => Success(LLMResult(result, prompt, result, elapsed, 0, 0))
        case NullUsage => Failure(UsageNotObject)
        case UsageObject(p, c) => Success(LLMResult(result, prompt, result, elapsed, p.GetOr(0), c.GetOr(0)))
  }

  /** A whole call: its outcome, the requests sent, the sleeps taken. */
  datatype Exchange = Exchange(outcome: Result<LLMResult<string>, ConnError>, sent: seq<Request>, sleeps: seq<int>)

  /** The attempt outcomes after which the call tries again: 429 (when the
      backoff can be slept), connection errors and timeouts. */
  predicate Retryable(cfg: Config, a: Attempt) {
    match a
    case Answered(status, _, _, _) => status == 429 && cfg.apiBackoff >= 0
    case RequestFailed => false
    case _ => true
  }

  /** The sleep taken before trying again. */
  function PauseAfter(cfg: Config, a: Attempt): seq<int> {
    match a
    case Answered(_, _, _, _) => [cfg.apiBackoff]
    case ConnectFailed => [5]
    case ConnectTimedOut => [5]
    case ReadTimedOut => []
    case RequestFailed => []
  }

  /** How an attempt that is not retried ends the call. */
  function Settle(cfg: Config, o: Oracles, prompt: string, a: Attempt): Result<LLMResult<string>, ConnError> {
    match a
    case Answered(status, body, text, elapsed) =>
      if status == 429 then Failure(NegativeSleep)
      else if status != 200 then Failure(GatewayError(GatewayName(cfg), status, text))
      else Extract(cfg, o, prompt, body, elapsed)
    case RequestFailed => Failure(UncaughtRequestError)
    case _ => Failure(RetriesExhausted)
  }

  /** Prepends one attempt's request and sleeps to the rest of the call. */
  function Then(req: Request, pause: seq<int>, rest: Exchange): Exchange {
    Exchange(rest.outcome, [req] + rest.sent, pause + rest.sleeps)
  }

  /** `get_response(prompt, retry=retry, **kwargs)`. The counter is checked
      before every attempt, so at most `api_retries - retry` requests go out;
      every request is the same; each sleep is the backoff or 5 seconds. */
  function GetResponse(cfg: Config, o: Oracles, prompt: string, keyOverride: Option<string>,
                       retry: int, network: int -> Attempt): (e: Exchange)
    ensures retry >= cfg.apiRetries ==> e == Exchange(Failure(RetriesExhausted), [], [])
    ensures |e.sent| <= if retry < cfg.apiRetries then cfg.apiRetries - retry else 0
    ensures forall i :: 0 <= i < |e.sent| ==> e.sent[i] == BuildRequest(cfg, prompt, keyOverride)
    ensures |e.sleeps| <= |e.sent|
    ensures forall i :: 0 <= i < |e.sleeps| ==> e.sleeps[i] == 5 || (e.sleeps[i] == cfg.apiBackoff >= 0)
    decreases cfg.apiRetries - retry
  {
    if retry >= cfg.apiRetries then Exchange(Failure(RetriesExhausted), [], [])
    else
      var req := BuildRequest(cfg, prompt, keyOverride);
      match network(retry)
      case Answered(status, body, text, elapsed) =>
        if status == 429 then
          if cfg.apiBackoff < 0 then Exchange(Failure(NegativeSleep), [req], [])
          else Then(req, [cfg.apiBackoff], GetResponse(cfg, o, prompt, keyOverride, retry + 1, network))
        else if status != 200 then
          Exchange(Failure(GatewayError(GatewayName(cfg), status, text)), [req], [])
        else
          Exchange(Extract(cfg, o, prompt, body, elapsed), [req], [])
      case ConnectFailed => Then(req, [5], GetResponse(cfg, o, prompt, keyOverride, retry + 1, network))
      case ConnectTimedOut => Then(req, [5], GetResponse(cfg, o, prompt, keyOverride, retry + 1, network))
      case ReadTimedOut => Then(req, [], GetResponse(cfg, o, prompt, keyOverride, retry + 1, network))
      case RequestFailed => Exchange(Failure(UncaughtRequestError), [req], [])
  }

  /** One step of the state machine: below the limit, an attempt is made and
      either retried after its pause or settles the call. */
  lemma AttemptStep(cfg: Config, o: Oracles, prompt: string, keyOverride: Option<string>,
                    retry: int, network: int -> Attempt)
    requires retry < cfg.apiRetries
    ensures var a := network(retry);
      var req := BuildRequest(cfg, prompt, keyOverride);
      var e := GetResponse(cfg, o, prompt, keyOverride, retry, network);
      if Retryable(cfg, a) then
        e == Then(req, PauseAfter(cfg, a), GetResponse(cfg, o, prompt, keyOverride, retry + 1, network))
      else
        e == Exchange(Settle(cfg, o, prompt, a), [req], [])
  {
  }

  /** The calls still to come after `sent` and `sleeps`, composed with them,
      give the whole call. */
  predicate Resumes(whole: Exchange, sent: seq<Request>, sleeps: seq<int>, rest: Exchange) {
    whole == Exchange(rest.outcome, sent + rest.sent, sleeps + rest.sleeps)
  }

  /** A retried attempt moves its request and pause from the rest of the
      call to what has been done. */
  lemma ResumeAfterRetry(cfg: Config, o: Oracles, prompt: string, keyOverride: Option<string>,
                         retry: int, network: int -> Attempt, whole: Exchange, sent: seq<Request>, sleeps: seq<int>)
    requires retry < cfg.apiRetries && Retryable(cfg, network(retry))
    requires Resumes(whole, sent, sleeps, GetResponse(cfg, o, prompt, keyOverride, retry, network))
    ensures Resumes(whole, sent + [BuildRequest(cfg, prompt, keyOverride)], sleeps + PauseAfter(cfg, network(retry)),
                    GetResponse(cfg, o, prompt, keyOverride, retry + 1, network))
  {
    AttemptStep(cfg, o, prompt, keyOverride, retry, network);
    var rest := GetResponse(cfg, o, prompt, keyOverride, retry + 1, network);
    AppendAssoc(sent, [BuildRequest(cfg, prompt, keyOverride)], rest.sent);
    AppendAssoc(sleeps, PauseAfter(cfg, network(retry)), rest.sleeps);
  }

  /** The call as an explicit bounded loop over the counter. */
  method GetResponseLoop(cfg: Config, o: Oracles, prompt: string, keyOverride: Option<string>,
                         retry0: int, network: int -> Attempt) returns (e: Exchange)
    ensures e == GetResponse(cfg, o, prompt, keyOverride, retry0, network)
  {
    ghost var whole := GetResponse(cfg, o, prompt, keyOverride, retry0, network);
    var sent: seq<Request> := [];
    var sleeps: seq<int> := [];
    var retry := retry0;
    while retry < cfg.apiRetries
      invariant retry0 <= retry
      invariant Resumes(whole, sent, sleeps, GetResponse(cfg, o, prompt, keyOverride, retry, network))
      decreases cfg.apiRetries - retry
    {
      var req := BuildRequest(cfg, prompt, keyOverride);
      var a := network(retry);
      if !Retryable(cfg, a) {
        AttemptStep(cfg, o, prompt, keyOverride, retry, network);
        return Exchange(Settle(cfg, o, prompt, a), sent + [req], sleeps);
      }
      ResumeAfterRetry(cfg, o, prompt, keyOverride, retry, network, whole, sent, sleeps);
      sent := sent + [req];
      sleeps := sleeps + PauseAfter(cfg, a);
      retry := retry + 1;
    }
    e := Exchange(Failure(RetriesExhausted), sent, sleeps);
  }
}
