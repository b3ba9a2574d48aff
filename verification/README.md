# hackingBuddyGPT LLM connections, modelled in Dafny

hackingBuddyGPT drives its penetration-testing agents through two LLM
connection classes. This project models them.

- `OpenAILib` (`src/hackingBuddyGPT/utils/openai/openai_lib.py`) goes
  through the `openai` SDK. It covers:
  - `init` picks the base URL and binds a tokenizer.
  - `get_response` makes a non-streamed completion and counts tokens.
  - `stream_response` folds streamed chunks into one assistant message.
    The message holds text, tool calls assembled from indexed fragments, and
    a usage tally. Every chunk is re-yielded and one final `LLMResult`
    follows.
  - `encode` and `count_tokens` use whichever tokenizer `init` bound.
- `OpenAIConnection` (`src/hackingBuddyGPT/utils/openai/openai_llm.py`)
  posts JSON over REST. It covers:
  - `get_response` retries itself by recursion on HTTP 429, connection
    errors and timeouts, bounded by `api_retries`.
  - The content and usage are extracted from a 200 answer.
  - `encode` picks one of three tokenizers.
  - The seven model subclasses fix a model id and a context size.

Modules, one per file:

| module | file | contents |
|---|---|---|
| `Strings` | strings.dfy | `startswith`, substring `in`, and `str.replace(pat, "")` |
| `Common` | common.dfy | `Option`, `Result`, `LLMResult`, the tokenizer oracles, the hosted tokenizer name |
| `ChatTypes` | chat_types.dfy | the SDK message, completion, chunk, delta and usage records |
| `OpenAILib` | openai_lib.dfy | configuration, `init`, `encode`, `count_tokens`, token counting, non-streamed `get_response` |
| `Streaming` | stream.dfy | `stream_response`: the per-chunk step, the fold, finalisation, and the generator as a loop |
| `StreamingProperties` | stream_properties.dfy | tool-call layout, the index-gap rule, usage, and first-choice-only properties |
| `OpenAIConnection` | openai_llm.dfy | configuration, subclasses, encoder choice, request, extraction, the retry recursion and its loop form |
| `RetryProperties` | retry_properties.dfy | the full trace of a retrying call and concrete retry scenarios |
| `EncoderProperties` | encoder_properties.dfy | the listed Google models and the tokenizer each model subclass encodes with |

Modelling choices:

- Tokenizer libraries are uninterpreted functions, gathered in
  `Common.Oracles`:
  - `tiktoken.encoding_for_model(m).encode`
  - `get_tokenizer_for_model(n).encode(..).tokens`
  - `count_tokens(..).total_tokens`
- The client's answer is a parameter:
  - For the SDK, a `Completion` or the sequence of `Chunk`s delivered.
  - For REST, a function `network` from an attempt's retry counter to its
    outcome: an answer with status, parsed body and text, a connection
    error, a connect timeout, a read timeout, or any other `requests`
    exception (an invalid URL, too many redirects, a broken chunked
    transfer), which neither handler catches.
- The measured duration `toc - tic` is a parameter.
- Sleeps are recorded in the result instead of taken.
- Where the Python code raises, the model returns `Failure`. Where the
  generator stops, the model returns an `Ending`.

Python behaviours that are kept:

- `model.replace("google/", "")` drops every occurrence of `google/`, not
  just the leading one (`Strings.RemoveAll`).
- A tool-call fragment's index is read Python's way:
  - An index equal to the slot count opens a slot.
  - A smaller index, including a negative one counted from the end,
    appends to an existing slot.
  - A negative index before the start raises `IndexError`.
  - A larger index makes the generator print a warning and `return`
    silently. No final `LLMResult` is yielded.
- A newly opened slot is built with the fragment's arguments, and the same
  arguments are then appended once more. The first fragment's argument text
  therefore appears twice in the finished tool call.
- The streamed usage tally is finalised to all-zero when absent, but it never
  reaches the `LLMResult`. The result's token counts come from the tokenizer
  branch alone.
- The REST connector's `retry >= api_retries` guard is checked before every
  attempt. A call with the default counter makes at most `api_retries`
  attempts in total. With `api_retries = 3`, three rate-limited answers
  exhaust the call and no fourth request is sent
  (`RetryProperties.ThreeRateLimitsExhaust`).
- `requests` raises a connect timeout as a `ConnectionError`, so it is caught
  by the first handler and sleeps 5 seconds. A read timeout is retried
  without sleeping.
- A `requests` exception other than a connection error or a timeout escapes
  both handlers. The call raises after its one request, without a retry or a
  sleep.
- A 429 with a negative `api_backoff` makes `time.sleep` raise. That is not
  retried.
- A JSON `"usage": null` makes `.get` fail on `None`. A missing `usage`, or a
  missing token field, gives 0.

## Model

| member | source | states |
|---|---|---|
| Common.HostedName | src/hackingBuddyGPT/utils/openai/openai_lib.py:47 | the hosted tokenizer name is never longer than the model id and equals it when the id does not contain "google/" |
| Common.HostedNameStripsPrefix | src/hackingBuddyGPT/utils/openai/openai_lib.py:46-47 | for a model id "google/<rest>" the hosted tokenizer is looked up under <rest> with every further "google/" removed |
| Strings.RemoveAll | src/hackingBuddyGPT/utils/openai/openai_llm.py:96 | `replace(pat, "")` never lengthens the text and changes it only when `pat` occurs in it |
| OpenAILib.Init | src/hackingBuddyGPT/utils/openai/openai_lib.py:42-49 | the client gets the OpenRouter base URL iff OpenRouter is used, plus the key, timeout and retries; the hosted tokenizer is bound iff OpenRouter with a "google/" model, tiktoken iff direct with a "gpt-" model, nothing otherwise |
| OpenAILib.Encode | src/hackingBuddyGPT/utils/openai/openai_lib.py:220-226 | encoding uses exactly the tokenizer `init` bound, and gives the empty list when none is bound |
| OpenAILib.CountTokens | src/hackingBuddyGPT/utils/openai/openai_lib.py:228-229 | the count is the length of the encoding, and zero without a tokenizer |
| OpenAILib.TokenCounts | src/hackingBuddyGPT/utils/openai/openai_lib.py:99-111 | hosted `count_tokens` of prompt and content for OpenRouter/Google, the token-list lengths of the bound tokenizer otherwise, (0, 0) with no tokenizer |
| OpenAILib.GetResponse | src/hackingBuddyGPT/utils/openai/openai_lib.py:97-120 | fails iff the completion has no choices; otherwise the result carries the first choice's message and content, the prompt, the duration and the token counts, which are zero without a tokenizer |
| Streaming.Route | src/hackingBuddyGPT/utils/openai/openai_lib.py:161-176 | a fragment halts with an index gap iff its index exceeds the slot count; at the slot count a complete fragment opens a slot holding its arguments twice; below it the addressed slot keeps id and name and gains the arguments, and no other slot changes; a negative index in range appends to the slot counted from the end; slots only grow; a fragment routes iff its index is at most the slot count, it has arguments, an opening fragment also has id and name, and a negative index stays in range; otherwise a missing `function` raises AttributeError, an incomplete opening fragment the record's validation error, a negative index before the start IndexError, and missing arguments TypeError |
| Streaming.RouteAll | src/hackingBuddyGPT/utils/openai/openai_lib.py:161-176 | routing a delta's fragments in order only extends existing slots and adds at most one slot per fragment |
| Streaming.ChunkStep | src/hackingBuddyGPT/utils/openai/openai_lib.py:140-183 | a chunk continues the fold iff its fragments route; the role is unchanged, the first choice's text is appended, the slots are the routing result, and a non-null usage replaces the tally |
| Streaming.Feed | src/hackingBuddyGPT/utils/openai/openai_lib.py:140-183 | a fold that runs to the end keeps the role, has the concatenated text of all chunks, the last non-null usage, and extended slots; a stop is at a chunk inside the stream |
| Streaming.Finalise | src/hackingBuddyGPT/utils/openai/openai_lib.py:185-191 | tool calls become absent iff none were assembled; the usage is the last seen or all zeros |
| Streaming.StreamResponse | src/hackingBuddyGPT/utils/openai/openai_lib.py:136-217 | the generator completes iff the fold drains, and stops silently iff it halts at an index gap; completed, it yields every chunk and then one result with the streamed text, role "assistant", the prompt, the duration and the tokenizer counts; otherwise the fold halts, and the generator yields exactly the chunks before the halting one and no result; it raises iff the fold halts with an exception, and then with that exception |
| Streaming.ConsumeChunks | src/hackingBuddyGPT/utils/openai/openai_lib.py:140-183 | the loop yields each chunk after processing it and agrees with the fold, stopping before the chunk that halts |
| Streaming.RunStream | src/hackingBuddyGPT/utils/openai/openai_lib.py:136-217 | the generator as a loop produces exactly the items and ending of `StreamResponse` |
| StreamingProperties.RouteAllAppend | src/hackingBuddyGPT/utils/openai/openai_lib.py:140-176 | routing two fragment lists in turn is routing their concatenation |
| StreamingProperties.FeedRoutesAllFragments | src/hackingBuddyGPT/utils/openai/openai_lib.py:140-183 | the fold ends iff routing every chunk's fragments from the empty list succeeds, with the same slots; an early stop carries that routing's halt |
| StreamingProperties.RouteAllLayout | src/hackingBuddyGPT/utils/openai/openai_lib.py:161-176 | for well-formed fragments (a non-negative index and arguments on every fragment, an id and a name only on a fragment that opens a slot) each old slot gains all arguments sent to its index, and each new slot takes id and name from its first fragment, whose arguments appear twice before the rest |
| StreamingProperties.LayoutStep | src/hackingBuddyGPT/utils/openai/openai_lib.py:161-176 | one routed fragment that is well formed for the current slot count, in front of laid-out fragments, keeps the layout |
| StreamingProperties.RoutingSucceedsIffNoGap | src/hackingBuddyGPT/utils/openai/openai_lib.py:161-166 | fragments that are well formed in the same sense as for `RouteAllLayout` route to the end iff no index ever exceeds the slot count so far; the slot count is then the running maximum index plus one; every halt is an index gap |
| StreamingProperties.StreamToolCalls | src/hackingBuddyGPT/utils/openai/openai_lib.py:158-191 | the result's tool calls are the routing of all fragments of the stream, absent when empty; the stream completes iff that routing succeeds, and stops silently iff it meets an index gap |
| StreamingProperties.NoFragmentsMeansAbsent | src/hackingBuddyGPT/utils/openai/openai_lib.py:190-191 | a stream with no tool-call fragment completes with tool calls absent, not an empty list |
| StreamingProperties.HaltsLater | src/hackingBuddyGPT/utils/openai/openai_lib.py:140-183 | a chunk that does not halt, put in front of a stream that halts after a drained prefix, keeps that shape |
| StreamingProperties.InterruptedAt | src/hackingBuddyGPT/utils/openai/openai_lib.py:140-183 | when the stream stops at chunk k, the first k chunks fold to the end and chunk k's step halts with the reported reason |
| StreamingProperties.StreamUsage | src/hackingBuddyGPT/utils/openai/openai_lib.py:178-188 | the finalised usage is the last non-null usage of any chunk, or all zeros |
| StreamingProperties.FeedIgnoresUsage | src/hackingBuddyGPT/utils/openai/openai_lib.py:140-183 | streams that differ only in usage fold alike, apart from the tally |
| StreamingProperties.UsageNeverReachesResult | src/hackingBuddyGPT/utils/openai/openai_lib.py:186-217 | streams that differ only in usage end the same way with the same final result |
| StreamingProperties.FirstChoiceOnly | src/hackingBuddyGPT/utils/openai/openai_lib.py:142-146 | choices after the first are ignored |
| StreamingProperties.NoChoicesOnlyUsage | src/hackingBuddyGPT/utils/openai/openai_lib.py:142-179 | a chunk without choices changes only the usage tally |
| StreamingProperties.RoleStaysAssistant | src/hackingBuddyGPT/utils/openai/openai_lib.py:137-148 | a role announced by a delta is only warned about; the finished message's role is "assistant" |
| StreamingProperties.GapExample | src/hackingBuddyGPT/utils/openai/openai_lib.py:161-176 | slots 0 and 1 opened with "{" and slot 0 appended with "}" give "{{}" and "{{"; the continuation fragment needs no id or name and the three are well formed; a fragment for slot 3 is then a gap (expected 2), one for slot 1 is accepted |
| OpenAIConnection.EncoderFor | src/hackingBuddyGPT/utils/openai/openai_llm.py:105-120 | the hosted tokenizer iff OpenRouter with a listed Google model, else tiktoken for a "gpt-" model whatever the routing, else the "gpt-3.5-turbo" encoding |
| OpenAIConnection.Encode | src/hackingBuddyGPT/utils/openai/openai_llm.py:105-120 | the encoding is that of the tokenizer `EncoderFor` chooses |
| OpenAIConnection.BuildRequest | src/hackingBuddyGPT/utils/openai/openai_llm.py:49-53 | the URL is OpenRouter's or the API URL followed by the path; the header is "Bearer " and the key, with a keyword key taking precedence; the body has the model and the prompt as the one user message |
| OpenAIConnection.Extract | src/hackingBuddyGPT/utils/openai/openai_llm.py:85-102 | no choices raise; the first choice's content is message and content; hosted counts for OpenRouter with a listed model; otherwise the usage fields or 0 when missing, and an error on a null usage |
| OpenAIConnection.GetResponse | src/hackingBuddyGPT/utils/openai/openai_llm.py:41-83 | no request is sent once the counter reaches `api_retries`; at most `api_retries - retry` requests go out, all identical to `BuildRequest`; there are no more sleeps than requests, each 5 seconds or the non-negative backoff |
| OpenAIConnection.AttemptStep | src/hackingBuddyGPT/utils/openai/openai_llm.py:58-83 | below the limit a retryable attempt sends the request, pauses, and continues with the counter plus one; any other attempt settles the call after its one request |
| OpenAIConnection.ResumeAfterRetry | src/hackingBuddyGPT/utils/openai/openai_llm.py:67-83 | a retried attempt moves its request and pause from the rest of the call into what has already been done |
| OpenAIConnection.GetResponseLoop | src/hackingBuddyGPT/utils/openai/openai_llm.py:41-102 | the retry recursion as a loop over the counter gives the same outcome, requests and sleeps |
| RetryProperties.RetriedBeforeLast | src/hackingBuddyGPT/utils/openai/openai_llm.py:58-83 | every attempt of a call but the last was a 429 or a connection error or timeout |
| RetryProperties.LastAttempt | src/hackingBuddyGPT/utils/openai/openai_llm.py:42-83 | a retryable last attempt means the counter reached `api_retries` and the call raised after sleeping after every attempt; any other last attempt settled the call |
| RetryProperties.RetryTrace | src/hackingBuddyGPT/utils/openai/openai_llm.py:41-102 | a call sends nothing iff its counter is at the limit; all attempts but the last were retryable; the last one ends the call as `LastAttempt` says |
| RetryProperties.AtMostApiRetriesRequests | src/hackingBuddyGPT/utils/openai/openai_llm.py:42-43 | with the default counter at most `api_retries` requests go out in total, and none when `api_retries <= 0` |
| RetryProperties.UncaughtRequestErrorIsFatal | src/hackingBuddyGPT/utils/openai/openai_llm.py:58-83 | a `requests` exception other than a connection error or a timeout ends the call at once with an error, after one request and no sleep |
| RetryProperties.OtherStatusIsFatal | src/hackingBuddyGPT/utils/openai/openai_llm.py:72-74 | a status other than 200 and 429 raises at once, naming "OpenRouter" iff OpenRouter is used, with the status and text |
| RetryProperties.SuccessComesFromLastAnswer | src/hackingBuddyGPT/utils/openai/openai_llm.py:85-102 | a successful call returns the first choice's content of its last attempt, which was a 200 |
| RetryProperties.ThreeRateLimitsExhaust | src/hackingBuddyGPT/utils/openai/openai_llm.py:42-70 | with `api_retries = 3`, three 429 answers exhaust the call after three requests and three backoff sleeps |
| RetryProperties.TwoRateLimitsThenSuccess | src/hackingBuddyGPT/utils/openai/openai_llm.py:42-102 | with `api_retries = 3`, two 429 answers and then a 200 succeed on the third request after two backoff sleeps |
| RetryProperties.TimeoutThenConnectionError | src/hackingBuddyGPT/utils/openai/openai_llm.py:76-83 | a read timeout is retried without a sleep and a connection error after a 5-second sleep |
| EncoderProperties.ListedModelName | src/hackingBuddyGPT/utils/openai/openai_llm.py:89-96 | a listed model id mentions a listed model, and its hosted name is the id without "google/" |
| EncoderProperties.GeminiFlash158bExpEncoder | src/hackingBuddyGPT/utils/openai/openai_llm.py:144-151 | the subclass encodes with the hosted "gemini-flash-1.5-8b-exp" tokenizer |
| EncoderProperties.GeminiFlash15ExpEncoder | src/hackingBuddyGPT/utils/openai/openai_llm.py:154-160 | the subclass encodes with the hosted "gemini-flash-1.5-exp" tokenizer |
| EncoderProperties.GeminiPro15ExpEncoder | src/hackingBuddyGPT/utils/openai/openai_llm.py:163-169 | the subclass encodes with the hosted "gemini-pro-1.5-exp" tokenizer |
| EncoderProperties.Gemma29bItFreeEncoder | src/hackingBuddyGPT/utils/openai/openai_llm.py:172-178 | the subclass encodes with the hosted "gemma-2-9b-it:free" tokenizer |
| EncoderProperties.GptSubclassEncoders | src/hackingBuddyGPT/utils/openai/openai_llm.py:123-141 | the GPT-3.5 Turbo, GPT-4 and GPT-4 Turbo subclasses encode with tiktoken for their own model id |

## Left out

- Tool definitions: `capabilities_to_tools`, and passing `tools` to the SDK, are not modelled. The capabilities module is not part of this model.
- The `instructor` property and the `client` property are not modelled. They only wrap the SDK client.
- `prompt.render(**kwargs)` is not modelled. Both connections' prompts are modelled by their string rendering, which is what `str(prompt)` records and what the REST body sends.
- Console output, `print` warnings, debug logging and the display-only `state` and `outputs` variables of `stream_response` are not modelled. They have no effect on results.
- The clock, the network and `time.sleep` are parameters or records, as described above.
- Tokenizer internals are oracles. `tiktoken.encoding_for_model` raising `KeyError` for an unknown model is not modelled.
- OpenAILib.TokenCounts: on the SDK path `prompt` is the message list itself. Hosted `count_tokens(prompt)` receives that list, and tiktoken's `encode(prompt)` on the direct "gpt-" branch raises on a list. The model passes the prompt's string rendering to both oracles, so it returns counts where the direct "gpt-" branch would raise.
- OpenAILib.GetResponse: inherits the `TokenCounts` gap. It succeeds on the direct "gpt-" branch where the source would raise in tiktoken's `encode`.
- Streaming.StreamResponse: inherits the `TokenCounts` gap. A completed stream on the direct "gpt-" branch yields a result where the source would raise in tiktoken's `encode`.
- The SDK's retries inside `openai.OpenAI` (`max_retries`) and its exceptions are not modelled. `init` only records the settings.
- A `None` message content in `OpenAILib.get_response` is not modelled. Message content is a string. A missing delta content is modelled as `None`.
- Malformed JSON and missing `choices`, `message` or `content` keys in the REST answer are not modelled. A token field that is present but JSON `null` is also not modelled. Token fields are either present integers or missing.
- OpenAIConnection.Extract: a JSON `null` message content (a reply carrying only tool calls or a refusal) is not modelled, because a choice's content is a string. The source then returns `None` as message and content on the usage path, and passes `None` to the hosted `count_tokens` on the OpenRouter path.
- A keyword `api_key=None` is not modelled. The override is either absent or a string.
- The `_tokenizer` attribute that `OpenAIConnection.get_response` and `encode` assign as a side effect is not modelled. It is never read back.
- The `OPENROUTER_API_KEY` environment lookup of the subclasses is not modelled. The key is a parameter of each subclass function.
- The `@configurable` registration and `parameter` descriptions are not modelled. They are configuration metadata only.
- wintermute.py and capabilities/gemini_request.py are not part of this model. They are callers.
- OpenAIConnection.GetResponse: its own contract bounds and describes the requests and sleeps. The exact trace is stated separately, by `RetryProperties.RetryTrace` and `RetryProperties.LastAttempt`.
