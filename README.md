# Streaming LLM adapters of screenshot-to-code, modelled in Dafny

This project models the provider-independent logic in `backend/llm.py` of the
screenshot-to-code backend. That file streams code generated by OpenAI and
Anthropic models (directly or through AWS Bedrock) to a caller-supplied
callback. The model covers five things:

- the `Llm` enum and the mapping from front-end model names to it;
- the OpenAI request parameters;
- the rewrite of OpenAI-style messages into Anthropic's shape: the system
  prompt is split off, and `data:` URL images become base64 image sources;
- the stream loops: each decoded text increment goes to the callback and to
  an accumulator, in order;
- the two-pass "draft, then refine" orchestration, which extends the
  caller's message list in place.

Everything that talks to the network is replaced by inputs:

- a provider's streamed response is a `Common.Stream`: the parsed events in
  arrival order, then how the stream ended (`Completed`, or failed with a
  `ClientError` or another client exception);
- the callback is the list `sent` of the arguments it receives;
- a Python call's ending is a `Common.Outcome`: it returns a value, returns
  `None` implicitly, or raises (`IndexError`, `KeyError`, `ValueError` as
  `InvalidModel`, or a transport failure).

Files, one module each:

- `common.dfy`: shared datatypes and `Concat`, the `"".join` of increments.
- `models.dfy`: the `Llm` enum and `convert_frontend_str_to_llm`.
- `messages.dfy`: the message model, `str.split`, the data-URL split, and
  the translation as reference functions with their properties.
- `translate.dfy`: the translation as the source runs it. It loops over a
  copied turn list and rewrites each content-part dict in an array, one key
  at a time. It is proved equal to the reference functions.
- `streaming.dfy`: `Drain`, the reference meaning of a stream loop, and
  `DrainStream`, the accumulating loop proved against it. All five stream
  loops of the source use this one loop, each with its own per-event decoder.
- `providers.dfy`: `stream_openai_response`, `stream_claude_response` and
  `stream_claude_response_aws_bedrock`.
- `multipass.dfy`: a `Conversation` class for the caller's list, and the two
  two-pass functions.

Points of `backend/llm.py` that are easy to misread, as the model has them:

- After each pass, including the second, the orchestrators append both
  turns, so two passes grow the list by four (`backend/llm.py:281-287` and
  `388-394`).
- Both Bedrock functions print a `ClientError` and fall off the end of the
  `try`, so they return `None` (`ReturnedNone`) instead of raising.
- A data URL fails when either delimiter is missing: no `:` before the first
  `;`, or no `,` at all. Both failures are a bare `IndexError`.
- The `if not response: raise Exception(...)` guard after the two-pass loop
  can never fire, because the loop body always runs and always sets
  `response`. The model states this as an assertion in both orchestrators.
- `stream_claude_response_native_aws_bedrock` always uses the Sonnet model
  id. Its `model` argument is ignored.

## Model

| member | source | states |
|---|---|---|
| Models.FromValue | backend/llm.py:16-31 | `Llm(s)` succeeds exactly when some member's value is `s`, returns that member, and otherwise fails with a ValueError naming `s` |
| Models.Value | backend/llm.py:16-21 | each member's version string; none of them is one of the two legacy front-end names |
| Models.ValuesDistinct | backend/llm.py:16-21 | distinct members have distinct version strings, so `Llm(s)` has at most one answer |
| Models.ConvertFrontendStrToLlm | backend/llm.py:24-31 | `"gpt_4_vision"` maps to GPT-4 Vision and `"claude_3_sonnet"` to Claude 3 Sonnet; any other string maps to the member with that value, or fails with a ValueError |
| Models.ConvertValueRoundTrip | backend/llm.py:16-31 | every member's value string maps back to that member |
| Models.ConvertSucceedsIff | backend/llm.py:24-31 | a front-end string is accepted exactly when it is a legacy name or an enum value |
| Providers.OpenAiRequest | backend/llm.py:43-54 | the OpenAI request passes the messages unchanged and fixes `stream`, `timeout = 600` and `temperature = 0.0`; `max_tokens = 4096` is present exactly for the two GPT-4 models |
| Providers.HasTokenLimit | backend/llm.py:52-53 | the models given a token limit are exactly those whose version string is `gpt-4-vision-preview` or `gpt-4-turbo-2024-04-09` |
| Providers.OpenAiTokenLimitForGpt4 | backend/llm.py:52-54 | `max_tokens` is set exactly when the model's version string starts with `gpt-4` |
| Providers.DecodeOpenAiChunk | backend/llm.py:59-60 | a chunk with no choices raises IndexError; otherwise a non-null delta content is exactly the increment, and a null content gives `""` |
| Providers.OpenAiDeliversEveryChunk | backend/llm.py:58-62 | when every chunk has a choice, the callback runs once per chunk with its content (or `""`), with no exception |
| Providers.StreamOpenAiResponse | backend/llm.py:34-66 | builds the request; the callback gets the decoded increments in order; the returned `full_response` is their concatenation; a chunk error or transport failure propagates |
| Messages.Split | backend/llm.py:97-98 | `str.split` gives at least one piece, no piece contains the separator, a single piece exactly when the separator is absent, and the first piece is the text before the first separator |
| Messages.SplitThenJoin | backend/llm.py:97-98 | joining the pieces of a split with the separator gives back the string |
| Messages.JoinThenSplit | backend/llm.py:97-98 | splitting a join of separator-free pieces gives back the pieces |
| Messages.HeadSegment | backend/llm.py:97 | `url.split(";")[0]` is a prefix of the URL with no `;`, followed in the URL by a `;` unless it is the whole URL |
| Messages.MediaTypeOf | backend/llm.py:97 | `url.split(";")[0].split(":")[1]` fails with IndexError exactly when the text before the first `;` has no `:`; the result contains no `:` or `;` |
| Messages.PayloadOf | backend/llm.py:98 | `url.split(",")[1]` fails with IndexError exactly when the URL has no `,` |
| Messages.ParseDataUrl | backend/llm.py:94-98 | the data-URL split fails, always with IndexError, exactly when one of the two delimiters is missing |
| Messages.ParseFormatRoundTrip | backend/llm.py:94-98 | splitting `data:<mt>;base64,<payload>` gives back `mt` and `payload` |
| Messages.ParsePngExample | backend/llm.py:95-98 | `data:image/png;base64,AAAA` yields media type `image/png` and data `AAAA` |
| Messages.ParseNoCommaExample | backend/llm.py:98 | a URL without `,` raises IndexError |
| Messages.ParseNoColonExample | backend/llm.py:97 | a URL with no `:` before its first `;` raises IndexError |
| Messages.TranslatePart | backend/llm.py:90-107 | a part that is not `image_url` is untouched; an `image_url` part without a URL raises KeyError; otherwise it fails exactly when its URL does not split, and on success it is typed `image`, has no `image_url` key, keeps its other keys and gets a `base64` source |
| Messages.TranslateWellFormedImage | backend/llm.py:94-107 | an image part with a well-formed data URL gets exactly that URL's media type and payload as its source |
| Messages.MapAll | backend/llm.py:86-107 | a left-to-right loop that raises out of its first failing element succeeds exactly when every element succeeds, and then keeps the length and the order |
| Messages.TranslateMessage | backend/llm.py:86-107 | a message with string content is untouched; otherwise its role is kept and every part is translated in place and in order |
| Messages.ToClaude | backend/llm.py:84-107 | an empty list raises IndexError; otherwise the system prompt is `messages[0]`'s content, and the turns are `messages[1:]` translated, one for one, in order |
| Messages.ToClaudeAllOk | backend/llm.py:86-107 | when every turn after the first translates, the result is `messages[0]`'s content with exactly those translated turns |
| Messages.ToClaudeFirstError | backend/llm.py:86-107 | the translation raises the exception of the first turn after `messages[0]` that fails |
| Messages.ToClaudeRemovesImageUrls | backend/llm.py:90-107 | after translation no turn has an `image_url` part |
| Messages.TranslateMessageIdempotent | backend/llm.py:90-107 | translating a translated message changes nothing |
| Messages.ToClaudeKeepsUntouched | backend/llm.py:86-91 | turns with string content, and parts not typed `image_url`, come through unchanged |
| Translate.RewriteParts | backend/llm.py:90-107 | the in-place rewrite of a part list ends in the same list, or the same first exception, as the reference translation |
| Translate.RewriteMessage | backend/llm.py:86-107 | skipping string content and rewriting list content agrees with the reference per-message translation |
| Translate.TranslateToClaude | backend/llm.py:84-107 | the copy-then-rewrite loop over `messages[1:]` agrees with the reference translation, errors included |
| Streaming.Drain | backend/llm.py:196-205 | a stream loop delivers at most one increment per event |
| Streaming.DrainStopsAtError | backend/llm.py:197-205 | after the first exception, no later event is decoded or delivered |
| Streaming.DrainSkipsSilentEvent | backend/llm.py:197-202 | an event that yields no text can be removed without changing what the callback sees |
| Streaming.DrainAllText | backend/llm.py:58-62 | when every event yields text, the callback runs once per event with those texts in order |
| Streaming.DrainStream | backend/llm.py:57-62 | the accumulating loop delivers exactly the reference increments and ends with an accumulator equal to their concatenation |
| Common.ConcatAppend | backend/llm.py:61 | `acc += text` keeps the accumulator equal to the concatenation of everything delivered |
| Common.ConcatJoin | backend/llm.py:383 | concatenation distributes over joining runs of increments |
| Providers.TextStreamDeliversAll | backend/llm.py:117-118 | the SDK's text increments reach the callback unchanged and in order |
| Providers.DecodeText | backend/llm.py:117-118 | every `text_stream` increment is passed on as it is, and decoding one never raises |
| Providers.StreamClaudeResponse | backend/llm.py:70-126 | a translation error raises before any request; otherwise it sends the Sonnet request with the translated turns, the callback gets the SDK's increments, and it returns the SDK's final text (equal to the concatenation when the SDK's final text is) |
| Providers.DecodeBedrockEvent | backend/llm.py:197-205 | an event contributes nothing exactly when it has no chunk or its chunk is not `content_block_delta`; a delta contributes its text; a delta without text raises KeyError |
| Providers.BedrockIgnoresNonDeltaEvent | backend/llm.py:197-202 | an event that is not a content delta changes nothing the caller sees |
| Providers.BedrockDeltasInOrder | backend/llm.py:195-205 | a run of delta events reaches the callback as exactly their texts, in order |
| Providers.StreamClaudeResponseAwsBedrock | backend/llm.py:129-214 | translation errors and chunk errors raise; a ClientError returns `None`; other failures re-raise; on success the returned `final_message` is the concatenation of the callback arguments |
| MultiPass.Appended | backend/llm.py:281-287 | each pass adds two entries to the list |
| MultiPass.Conversation.constructor | backend/llm.py:216-218 | the caller's `messages` list, which the orchestrator then extends in place with `+=`, starts as the list passed in |
| MultiPass.PassTurns | backend/llm.py:281-287 | a pass adds two turns: the assistant turn `"<thinking>" + text`, then the fixed user follow-up |
| MultiPass.Outgoing | backend/llm.py:246-250 | `messages_to_send` is the live list followed, only when thinking is asked for, by one bare `<thinking>` assistant turn |
| MultiPass.AppendedAt | backend/llm.py:281-287 | entry `2k` is pass `k`'s text behind the `<thinking>` marker as an assistant turn; entry `2k+1` is the fixed user follow-up |
| MultiPass.TwoPassesAppendFour | backend/llm.py:281-287 | two passes grow the list by exactly four entries, in the fixed order |
| MultiPass.NativePass | backend/llm.py:254-267 | a native pass delivers the SDK's increments; the text appended after it is the SDK's final message; it fails exactly when the stream failed |
| MultiPass.BedrockPass | backend/llm.py:372-384 | a Bedrock pass delivers the decoded delta texts; the text appended after it is their concatenation; it fails on a chunk error or a transport failure |
| MultiPass.NativePassesAt | backend/llm.py:242-267 | pass `k` of the native loop is the pass over response `k` |
| MultiPass.BedrockPassesAt | backend/llm.py:341-384 | pass `k` of the Bedrock loop is the pass over stream `k` |
| MultiPass.RunNativePass | backend/llm.py:254-267 | streaming one SDK response forwards its text increments in order and raises exactly when the stream failed |
| MultiPass.RunBedrockPass | backend/llm.py:369-384 | one Bedrock event loop forwards the delta texts, accumulates `response_text` as their concatenation, and ends with the first chunk error or the transport failure |
| MultiPass.NativeRequestsAt | backend/llm.py:245-260 | request `k` names the chosen model, 4096 tokens, temperature 0.0, the system prompt, and the list as it stood when pass `k` started, plus the bare `<thinking>` turn only when asked for |
| MultiPass.BedrockRequestsAt | backend/llm.py:344-368 | invocation `k` names the fixed Sonnet model id, `*/*`, `application/json`, version `bedrock-2023-05-31`, 4096 tokens, temperature 0.0, the system prompt and the list as it stood when pass `k` started, plus the bare `<thinking>` turn only when asked for |
| MultiPass.CompletedPasses | backend/llm.py:242-287 | counts the leading passes that ended without an exception |
| MultiPass.AllSentIsPassTexts | backend/llm.py:372-403 | `full_stream`, the concatenation of every callback argument, is the concatenation of the passes' texts |
| MultiPass.BedrockTwoPassesReturnBoth | backend/llm.py:383-403 | after two Bedrock passes, `full_stream` is the first pass's text followed by the second's |
| MultiPass.BedrockEnding | backend/llm.py:405-410 | a ClientError is swallowed and the call returns `None`; any other exception is re-raised |
| MultiPass.StreamClaudeResponseNative | backend/llm.py:216-302 | the loop body runs once per pass, twice in all; the requests are those of `NativeRequests`, one per pass started, each over the live list; the list gains exactly the two turns per completed pass; the callback gets every pass's increments in order; the result is the second pass's final text; a failure raises after the turns of the earlier passes are appended |
| MultiPass.StreamClaudeResponseNativeAwsBedrock | backend/llm.py:304-410 | the same two passes with the invocations of `BedrockRequests`, one per pass started; the list gains the two turns per completed pass; the result is `full_stream`, the concatenation of all increments of both passes; a ClientError returns `None` and any other failure re-raises |

## Left out

- Network clients, credentials, `base_url` and `client.close()` are not modelled. Each response stream is a parameter.
- The provider's answer does not depend on the request in the model. Requests are outputs and responses are inputs, independent of each other.
- `async`/`await` and the callback's backpressure are not modelled, because the model runs one loop and does not interleave.
- `json.dumps` of request bodies, `bytes.decode()` and `json.loads` of chunks are not modelled. Chunks arrive already parsed, as their `type` and delta text.
- `DebugFileWriter` and `IS_DEBUG_ENABLED` are not modelled. Neither are `pprint_prompt`, the `print` of streamed text and token usage, or the debug-only `full_stream` of the native variant. These side channels never affect what is returned.
- `get_final_message()` is computed by the Anthropic SDK, which is not part of this model. Its text is an input. The contracts state what follows when it equals the streamed concatenation.
- `response.content[0]` failing on an empty final message is not modelled. The final text is always present.
- The shallow copy shares the content lists. `dict(message)` copies the message dicts but not their content lists, so the source's in-place part rewrite also changes the caller's messages. The model works on values: the caller's list is left unchanged, and the aliasing is not captured.
- Message keys beyond `role` and `content` are not modelled. Neither are part keys beyond `type`, `text`, `image_url.url` and `source`. A message without a `content` key (a KeyError in the source) cannot be expressed.
- Bedrock's `if stream:` guard is not modelled separately. A missing response body behaves like an empty event stream, so the model reads it as one.
- The process-level `print` in the `except` branches is not modelled. Only the resulting `None` return or re-raise is.
- The `Llm` enum's other behaviour (iteration, names) is not modelled, because the core only uses value lookup.
- Translate.RewriteParts: its contract says nothing about the array after a failure. The code leaves the earlier parts rewritten, and the failing part is already retagged `image` but still has its `image_url` key. The exception ends the translation, so the model does not promise that partial state.
- A callback that raises is not modelled. `await callback(...)` would pass its exception on to the caller (`backend/llm.py:62`, `118`, `204`, `264`, `384`). The callback is the list of its arguments, so it always succeeds.
