/** The configuration-driven parts of the library-based connection
    (`OpenAILib`): client settings and tokenizer binding made once by `init`,
    `encode` / `count_tokens`, and the non-streamed `get_response` with its
    token-count branch. The streamed path is in module Streaming. */
module OpenAILib {
  import opened Common
  import opened Strings
  import opened ChatTypes

  /** The dataclass parameters of `OpenAILib`. */
  datatype Config = Config(
    apiKey: string,
    model: string,
    contextSize: int,
    useOpenrouter: bool,
    openrouterBaseUrl: string,
    apiUrl: string,
    apiTimeout: int,
    apiRetries: int)

  /** A configuration that keeps every parameter default. */
  function DefaultConfig(apiKey: string, model: string, contextSize: int): Config {
    Config(apiKey, model, contextSize, false, "https://openrouter.ai/api/v1",
           "https://api.openai.com/v1", 60, 3)
  }

  /** The settings `init` hands to the `openai.OpenAI` client. */
  datatype ClientSettings = ClientSettings(apiKey: string, baseUrl: string, timeout: int, maxRetries: int)

  /** What `init` leaves behind: the client settings and `_tokenizer`. */
  datatype Session = Session(client: ClientSettings, tokenizer: Option<Tokenizer>)

  /** Routed through OpenRouter to a Google model. */
  predicate HostedFamily(cfg: Config) {
    cfg.useOpenrouter && StartsWith(cfg.model, GooglePrefix)
  }

  /** Direct OpenAI path with a "gpt-" model. */
  predicate TiktokenFamily(cfg: Config) {
    !cfg.useOpenrouter && StartsWith(cfg.model, GptPrefix)
  }

  /** `init`: pick the base URL and bind the tokenizer. */
  function Init(cfg: Config): (s: Session)
    ensures s.client.baseUrl == (if cfg.useOpenrouter then cfg.openrouterBaseUrl else cfg.apiUrl)
    ensures s.client.apiKey == cfg.apiKey
    ensures s.client.timeout == cfg.apiTimeout && s.client.maxRetries == cfg.apiRetries
    ensures HostedFamily(cfg) <==> s.tokenizer == Some(Hosted(HostedName(cfg.model)))
    ensures TiktokenFamily(cfg) <==> s.tokenizer == Some(Tiktoken(cfg.model))
    ensures s.tokenizer.None? <==> !HostedFamily(cfg) && !TiktokenFamily(cfg)
  {
    var baseUrl := if cfg.useOpenrouter then cfg.openrouterBaseUrl else cfg.apiUrl;
    var tokenizer :=
      if cfg.useOpenrouter && StartsWith(cfg.model, GooglePrefix) then Some(Hosted(HostedName(cfg.model)))
      else if !cfg.useOpenrouter && StartsWith(cfg.model, GptPrefix) then Some(Tiktoken(cfg.model))
      else None;
    Session(ClientSettings(cfg.apiKey, baseUrl, cfg.apiTimeout, cfg.apiRetries), tokenizer)
  }

  /** `encode`: re-tests the configuration and uses the bound tokenizer; with
      nothing bound it returns the empty list instead of raising. */
  function Encode(cfg: Config, o: Oracles, query: string): (r: seq<int>)
    ensures Init(cfg).tokenizer.None? ==> r == []
    ensures Init(cfg).tokenizer.Some? ==> r == EncodeWith(o, Init(cfg).tokenizer.value, query)
  {
    var t := Init(cfg).tokenizer;
    if t.Some? then
      if cfg.useOpenrouter && StartsWith(cfg.model, GooglePrefix) then o.hostedEncode(t.value.name, query)
      else if !cfg.useOpenrouter && StartsWith(cfg.model, GptPrefix) then o.tiktoken(t.value.model, query)
      else []
    else []
  }

  /** `count_tokens`: the length of `encode`, zero with no tokenizer. */
  function CountTokens(cfg: Config, o: Oracles, query: string): (n: nat)
    ensures n == |Encode(cfg, o, query)|
    ensures Init(cfg).tokenizer.None? ==> n == 0
  {
    |Encode(cfg, o, query)|
  }

  /** Prompt and response token counts of an `LLMResult`. */
  datatype Counts = Counts(query: int, response: int)

  /** The token-count branch shared by `get_response` and `stream_response`:
      the hosted tokenizer's `count_tokens` for OpenRouter/Google, the tiktoken
      encoding length for OpenAI/"gpt-", zero otherwise. */
  function TokenCounts(cfg: Config, o: Oracles, prompt: string, content: string): (c: Counts)
    ensures Init(cfg).tokenizer.None? ==> c == Counts(0, 0)
    ensures HostedFamily(cfg) ==>
      c == Counts(o.hostedCount(HostedName(cfg.model), prompt), o.hostedCount(HostedName(cfg.model), content))
    ensures !HostedFamily(cfg) ==>
      c == Counts(CountTokens(cfg, o, prompt), CountTokens(cfg, o, content))
  {
    var t := Init(cfg).tokenizer;
    if t.Some? then
      if cfg.useOpenrouter && StartsWith(cfg.model, GooglePrefix) then
        Counts(o.hostedCount(t.value.name, prompt), o.hostedCount(t.value.name, content))
      else if !cfg.useOpenrouter && StartsWith(cfg.model, GptPrefix) then
        Counts(|o.tiktoken(t.value.model, prompt)|, |o.tiktoken(t.value.model, content)|)
      else
        Counts(0, 0)
    else
      Counts(0, 0)
  }

  /** What the non-streamed call raises: indexing an empty `choices`. */
  datatype LibError = NoChoices

  /** `get_response` once the client has answered with `response`; `elapsed`
      is the measured call duration. */
  function GetResponse(cfg: Config, o: Oracles, prompt: string, response: Completion, elapsed: real)
    : (r: Result<LLMResult<Message>, LibError>)
    ensures r.Failure? <==> |response.choices| == 0
    ensures r.Success? ==>
      var m := response.choices[0].message;
      var c := TokenCounts(cfg, o, prompt, m.content);
      r.value == LLMResult(m, prompt, m.content, elapsed, c.query, c.response)
    ensures r.Success? && Init(cfg).tokenizer.None? ==>
      r.value.tokensQuery == 0 && r.value.tokensResponse == 0
  {
    if |response.choices| == 0 then Failure(NoChoices)
    else
      var message := response.choices[0].message;
      var counts := TokenCounts(cfg, o, prompt, message.content);
      Success(LLMResult(message, prompt, message.content, elapsed, counts.query, counts.response))
  }
}
