/** Properties of the REST connection's `encode` choice: the listed Google
    models and the tokenizer each model subclass ends up with. */
module EncoderProperties {
  import opened Common
  import opened Strings
  import opened OpenAIConnection

  /** A listed model id is mentioned by itself and its hosted tokenizer name
      is the id without "google/". */
  lemma ListedModelName(k: nat, name: string)
    requires k < |ListedGoogleModels| && ListedGoogleModels[k] == GooglePrefix + name && '/' !in name
    ensures MentionsListedModel(ListedGoogleModels[k])
    ensures HostedName(ListedGoogleModels[k]) == name
  {
    HostedNameStripsPrefix(name);
    MissingCharNotContained(name, GooglePrefix, '/');
    StartsWithContains(ListedGoogleModels[k], ListedGoogleModels[k]);
  }

  /** The OpenRouter subclasses count and encode with the hosted tokenizer
      under the model name without "google/". */
  lemma GeminiFlash158bExpEncoder(key: string)
    ensures EncoderFor(GeminiFlash158bExp(key)) == Hosted("gemini-flash-1.5-8b-exp")
  {
    ListedModelName(0, "gemini-flash-1.5-8b-exp");
  }

  lemma GeminiFlash15ExpEncoder(key: string)
    ensures EncoderFor(GeminiFlash15Exp(key)) == Hosted("gemini-flash-1.5-exp")
  {
    ListedModelName(1, "gemini-flash-1.5-exp");
  }

  lemma GeminiPro15ExpEncoder(key: string)
    ensures EncoderFor(GeminiPro15Exp(key)) == Hosted("gemini-pro-1.5-exp")
  {
    ListedModelName(2, "gemini-pro-1.5-exp");
  }

  lemma Gemma29bItFreeEncoder(key: string)
    ensures EncoderFor(Gemma29bItFree(key)) == Hosted("gemma-2-9b-it:free")
  {
    ListedModelName(3, "gemma-2-9b-it:free");
  }

  /** The OpenAI subclasses use tiktoken for their own model. */
  lemma GptSubclassEncoders(key: string)
    ensures EncoderFor(GPT35Turbo(key)) == Tiktoken("gpt-3.5-turbo")
    ensures EncoderFor(GPT4(key)) == Tiktoken("gpt-4")
    ensures EncoderFor(GPT4Turbo(key)) == Tiktoken("gpt-4-turbo-preview")
  {
    assert StartsWith("gpt-3.5-turbo", GptPrefix);
    assert StartsWith("gpt-4", GptPrefix);
    assert StartsWith("gpt-4-turbo-preview", GptPrefix);
  }
}
