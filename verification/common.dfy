/** Values shared by both connection classes: optional values, results of
    calls that may raise, the `LLMResult` record and the tokenizers. */
module Common {
  import opened Strings

  /** Python's `None` or a present value. */
  datatype Option<+T> = None | Some(value: T) {
    /** The value, or `default` when absent (`d.get(key, default)`). */
    function GetOr(default: T): T {
      match this
      case Some(v) => v
      case None => default
    }
  }

  /** Regrouping a concatenation, which the solver finds costly to discover
      by itself. */
  lemma AppendAssoc<T>(x: seq<T>, y: seq<T>, z: seq<T>)
    ensures (x + y) + z == x + (y + z)
  {
  }

  /** A call that either returns a value or raises an exception. */
  datatype Result<+T, +E> = Success(value: T) | Failure(error: E)

  /** The terminal record of one request/response exchange. `M` is the
      provider-native message: the SDK message object for the library-based
      connection, the content string for the REST connection. The duration is
      the clock difference the caller measured and is carried verbatim. */
  datatype LLMResult<+M> = LLMResult(
    message: M,
    renderedPrompt: string,
    content: string,
    duration: real,
    tokensQuery: int,
    tokensResponse: int)

  /** A bound tokenizer: tiktoken's encoding for a model, or the hosted
      tokenizer that `get_tokenizer_for_model` returns for a model name. */
  datatype Tokenizer = Tiktoken(model: string) | Hosted(name: string)

  /** The tokenizer libraries, whose internals are not modelled: each is an
      uninterpreted function of the model (or hosted name) and the text.
      - `tiktoken(m, t)`       is `tiktoken.encoding_for_model(m).encode(t)`
      - `hostedEncode(n, t)`   is `get_tokenizer_for_model(n).encode(t).tokens`
      - `hostedCount(n, t)`    is `get_tokenizer_for_model(n).count_tokens(t).total_tokens` */
  datatype Oracles = Oracles(
    tiktoken: (string, string) -> seq<int>,
    hostedEncode: (string, string) -> seq<int>,
    hostedCount: (string, string) -> nat)

  /** What a tokenizer produces for `text` when asked to encode it, whichever
      library it comes from. */
  function EncodeWith(o: Oracles, t: Tokenizer, text: string): seq<int> {
    match t
    case Tiktoken(m) => o.tiktoken(m, text)
    case Hosted(n) => o.hostedEncode(n, text)
  }

  const GooglePrefix: string := "google/"
  const GptPrefix: string := "gpt-"

  /** The name handed to the hosted tokenizer: `model.replace("google/", "")`. */
  function HostedName(model: string): (n: string)
    ensures |n| <= |model|
    ensures !Contains(model, GooglePrefix) ==> n == model
  {
    RemoveAll(model, GooglePrefix)
  }

  /** For a model id "google/<rest>" the hosted tokenizer is looked up under
      <rest>, with any further "google/" occurrences also removed. */
  lemma HostedNameStripsPrefix(rest: string)
    ensures HostedName(GooglePrefix + rest) == RemoveAll(rest, GooglePrefix)
  {
    RemoveLeading(GooglePrefix, rest);
  }
}
