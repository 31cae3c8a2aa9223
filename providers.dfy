/**
 * The three single-pass streaming adapters: the OpenAI chat-completions
 * stream, the Anthropic SDK stream, and the Bedrock response stream. Each
 * transport is an input stream of already-parsed events; the callback is the
 * list `sent` of the arguments it receives, in order.
 */
module Providers {
  import opened Common
  import opened Models
  import opened Messages
  import opened Streaming
  import Translate

  /** Request constants shared by the adapters. */
  const MaxTokens: int := 4096
  const Temperature: real := 0.0
  const OpenAiTimeout: int := 600

  // ---------------------------------------------------------------------
  // OpenAI
  // ---------------------------------------------------------------------

  /** The keyword arguments of `client.chat.completions.create`. */
  datatype OpenAiParams = OpenAiParams(
    model: string,
    messages: seq<Message>,
    stream: bool,
    timeout: int,
    temperature: real,
    maxTokens: Option<int>)

  /** The models that get a `max_tokens` entry. */
  predicate HasTokenLimit(model: Llm): (r: bool)
    ensures r <==> Value(model) == "gpt-4-vision-preview" || Value(model) == "gpt-4-turbo-2024-04-09"
  {
    model == Gpt4Vision || model == Gpt4Turbo20240409
  }

  /**
   * The request: messages passed through unchanged, streaming on, a 600
   * second timeout, temperature 0, and `max_tokens = 4096` only for the two
   * GPT-4 models.
   */
  function OpenAiRequest(messages: seq<Message>, model: Llm): (p: OpenAiParams)
    ensures p.model == Value(model) && p.messages == messages
    ensures p.stream && p.timeout == 600 && p.temperature == 0.0
    ensures p.maxTokens.Some? <==> HasTokenLimit(model)
    ensures p.maxTokens.Some? ==> p.maxTokens.value == 4096
  {
    OpenAiParams(Value(model), messages, true, OpenAiTimeout, Temperature,
                 if HasTokenLimit(model) then Some(MaxTokens) else None)
  }

  /** The token limit is set exactly for the models whose version string starts with "gpt-4". */
  lemma OpenAiTokenLimitForGpt4(messages: seq<Message>, model: Llm)
    ensures OpenAiRequest(messages, model).maxTokens.Some? <==> "gpt-4" <= Value(model)
  {
    match model
    case Gpt4Vision =>
      assert Value(model)[..5] == "gpt-4";
    case Gpt4Turbo20240409 =>
      assert Value(model)[..5] == "gpt-4";
    case Claude3Sonnet =>
      assert Value(model)[0] != 'g';
    case Claude3Opus =>
      assert Value(model)[0] != 'g';
    case Claude3Haiku =>
      assert Value(model)[0] != 'g';
  }

  /** One streamed chunk: the `delta.content` of each choice, `None` when null or absent. */
  datatype OpenAiChunk = OpenAiChunk(choices: seq<Option<string>>)

  /** `chunk.choices[0].delta.content or ""`. */
  function DecodeOpenAiChunk(chunk: OpenAiChunk): (r: Result<Option<string>>)
    ensures chunk.choices == [] ==> r == Err(IndexError)
    ensures chunk.choices != [] ==> r.Ok? && r.value.Some?
    ensures chunk.choices != [] && chunk.choices[0].None? ==> r.value.value == ""
    ensures chunk.choices != [] && chunk.choices[0].Some? ==> r == Ok(Some(chunk.choices[0].value))
  {
    if chunk.choices == [] then Err(IndexError)
    else
      match chunk.choices[0]
      case None => Ok(Some(""))
      case Some(content) => Ok(Some(content))
  }

  /**
   * Every chunk with a choice reaches the callback, an empty or missing
   * content as "", so the callback runs once per chunk.
   */
  lemma OpenAiDeliversEveryChunk(chunks: seq<OpenAiChunk>)
    requires forall k :: 0 <= k < |chunks| ==> chunks[k].choices != []
    ensures Drain(DecodeOpenAiChunk, chunks).error.None?
    ensures |Drain(DecodeOpenAiChunk, chunks).sent| == |chunks|
    ensures forall k :: 0 <= k < |chunks| ==>
              Drain(DecodeOpenAiChunk, chunks).sent[k] ==
                (if chunks[k].choices[0].Some? then chunks[k].choices[0].value else "")
  {
    DrainAllText(DecodeOpenAiChunk, chunks);
  }

  /**
   * `stream_openai_response`: the request, then the stream loop; the
   * returned `full_response` is the concatenation of the callback arguments.
   */
  method StreamOpenAiResponse(messages: seq<Message>, model: Llm, response: Stream<OpenAiChunk>)
    returns (request: OpenAiParams, sent: seq<string>, outcome: Outcome<string>)
    ensures request == OpenAiRequest(messages, model)
    ensures sent == Drain(DecodeOpenAiChunk, response.events).sent
    ensures outcome.Returned? <==> Drain(DecodeOpenAiChunk, response.events).error.None? && response.end.Completed?
    ensures outcome.Returned? ==> outcome.value == Concat(sent)
    ensures Drain(DecodeOpenAiChunk, response.events).error.Some? ==>
              outcome == Raised(Drain(DecodeOpenAiChunk, response.events).error.value)
    ensures Drain(DecodeOpenAiChunk, response.events).error.None? && response.end.Failed? ==>
              outcome == Raised(Transport(response.end.failure))
  {
    request := OpenAiRequest(messages, model);
    var fullResponse, error;
    sent, fullResponse, error := DrainStream(DecodeOpenAiChunk, response.events);
    if error.Some? {
      outcome := Raised(error.value);
    } else if response.end.Failed? {
      outcome := Raised(Transport(response.end.failure));
    } else {
      outcome := Returned(fullResponse);
    }
  }

  // ---------------------------------------------------------------------
  // Anthropic SDK
  // ---------------------------------------------------------------------

  /** The keyword arguments of `client.messages.stream`. */
  datatype ClaudeRequest = ClaudeRequest(
    model: string,
    maxTokens: int,
    temperature: real,
    system: Content,
    messages: seq<Message>)

  /**
   * What the SDK gives back: `text_stream`'s increments, then the text of
   * `get_final_message().content[0]`, which the SDK computes out of view.
   */
  datatype AnthropicResponse = AnthropicResponse(textStream: Stream<string>, finalText: string)

  /** `text_stream` yields plain text increments; nothing is filtered. */
  function DecodeText(text: string): (r: Result<Option<string>>)
    ensures r == Ok(Some(text))
  {
    Ok(Some(text))
  }

  /** The SDK's increments reach the callback unchanged and in order. */
  lemma TextStreamDeliversAll(texts: seq<string>)
    ensures Drain(DecodeText, texts) == Drained(texts, None)
  {
    DrainAllText(DecodeText, texts);
  }

  /**
   * `stream_claude_response`: translate, stream with the Sonnet model, and
   * return the SDK's final message text.
   */
  method StreamClaudeResponse(messages: seq<Message>, response: AnthropicResponse)
    returns (request: Option<ClaudeRequest>, sent: seq<string>, outcome: Outcome<string>)
    ensures ToClaude(messages).Err? ==>
              request.None? && sent == [] && outcome == Raised(ToClaude(messages).error)
    ensures ToClaude(messages).Ok? ==>
              && request == Some(ClaudeRequest(Value(Claude3Sonnet), 4096, 0.0,
                                               ToClaude(messages).value.system,
                                               ToClaude(messages).value.messages))
              && sent == response.textStream.events
              && (response.textStream.end.Completed? ==> outcome == Returned(response.finalText))
              && (response.textStream.end.Failed? ==> outcome == Raised(Transport(response.textStream.end.failure)))
    ensures outcome.Returned? && response.finalText == Concat(response.textStream.events) ==>
              outcome.value == Concat(sent)
  {
    var translated := Translate.TranslateToClaude(messages);
    if translated.Err? {
      return None, [], Raised(translated.error);
    }
    request := Some(ClaudeRequest(Value(Claude3Sonnet), MaxTokens, Temperature,
                                  translated.value.system, translated.value.messages));
    var streamed, error;
    sent, streamed, error := DrainStream(DecodeText, response.textStream.events);
    TextStreamDeliversAll(response.textStream.events);
    if response.textStream.end.Failed? {
      outcome := Raised(Transport(response.textStream.end.failure));
    } else {
      outcome := Returned(response.finalText);
    }
  }

  // ---------------------------------------------------------------------
  // Bedrock
  // ---------------------------------------------------------------------

  const BedrockModelId: string := "anthropic.claude-3-sonnet-20240229-v1:0"
  const BedrockVersion: string := "bedrock-2023-05-31"
  const BedrockAccept: string := "*/*"
  const BedrockContentType: string := "application/json"
  const ContentBlockDelta: string := "content_block_delta"

  /** The JSON request body. */
  datatype BedrockBody = BedrockBody(
    anthropicVersion: string,
    maxTokens: int,
    messages: seq<Message>,
    system: Content,
    temperature: real)

  /** The arguments of `invoke_model_with_response_stream`. */
  datatype BedrockInvocation = BedrockInvocation(
    modelId: string,
    accept: string,
    contentType: string,
    body: BedrockBody)

  /** A decoded chunk: its "type" and, when present, `["delta"]["text"]`. */
  datatype BedrockChunk = BedrockChunk(chunkType: string, deltaText: Option<string>)

  /** One event of the response body; `chunk` is `event.get("chunk")`. */
  datatype BedrockEvent = BedrockEvent(chunk: Option<BedrockChunk>)

  /**
   * Events without a chunk, and chunks of any type but `content_block_delta`,
   * contribute nothing; a delta chunk contributes its text.
   */
  function DecodeBedrockEvent(event: BedrockEvent): (r: Result<Option<string>>)
    ensures r == Ok(None) <==> event.chunk.None? || event.chunk.value.chunkType != ContentBlockDelta
    ensures r.Ok? && r.value.Some? ==> event.chunk == Some(BedrockChunk(ContentBlockDelta, Some(r.value.value)))
    ensures r.Err? ==> r.error == KeyError && event.chunk.value.deltaText.None?
  {
    match event.chunk
    case None => Ok(None)
    case Some(chunk) =>
      if chunk.chunkType != ContentBlockDelta then Ok(None)
      else
        match chunk.deltaText
        case None => Err(KeyError)
        case Some(text) => Ok(Some(text))
  }

  /** An event that is not a content delta changes nothing the caller sees. */
  lemma BedrockIgnoresNonDeltaEvent(before: seq<BedrockEvent>, event: BedrockEvent, after: seq<BedrockEvent>)
    requires event.chunk.None? || event.chunk.value.chunkType != ContentBlockDelta
    ensures Drain(DecodeBedrockEvent, before + [event] + after) == Drain(DecodeBedrockEvent, before + after)
  {
    DrainSkipsSilentEvent(DecodeBedrockEvent, before, event, after);
  }

  /** A run of delta events reaches the callback as exactly their texts, in order. */
  lemma BedrockDeltasInOrder(events: seq<BedrockEvent>, texts: seq<string>)
    requires |events| == |texts|
    requires forall k :: 0 <= k < |events| ==> events[k].chunk == Some(BedrockChunk(ContentBlockDelta, Some(texts[k])))
    ensures Drain(DecodeBedrockEvent, events) == Drained(texts, None)
  {
    DrainAllText(DecodeBedrockEvent, events);
  }

  /**
   * `stream_claude_response_aws_bedrock`: translate, invoke, and accumulate
   * delta texts. A ClientError is printed and swallowed, so the call returns
   * `None`; every other exception is re-raised.
   */
  method StreamClaudeResponseAwsBedrock(messages: seq<Message>, response: Stream<BedrockEvent>)
    returns (request: Option<BedrockInvocation>, sent: seq<string>, outcome: Outcome<string>)
    ensures ToClaude(messages).Err? ==>
              request.None? && sent == [] && outcome == Raised(ToClaude(messages).error)
    ensures ToClaude(messages).Ok? ==>
              && request == Some(BedrockInvocation(BedrockModelId, "*/*", "application/json",
                                   BedrockBody("bedrock-2023-05-31", 4096,
                                               ToClaude(messages).value.messages,
                                               ToClaude(messages).value.system, 0.0)))
              && sent == Drain(DecodeBedrockEvent, response.events).sent
              && var error := Drain(DecodeBedrockEvent, response.events).error;
                 && (error.Some? ==> outcome == Raised(error.value))
                 && (error.None? && response.end == Completed ==> outcome == Returned(Concat(sent)))
                 && (error.None? && response.end.Failed? && response.end.failure.ClientError? ==> outcome == ReturnedNone)
                 && (error.None? && response.end.Failed? && response.end.failure.OtherError? ==>
                       outcome == Raised(Transport(response.end.failure)))
    ensures outcome.Returned? ==> outcome.value == Concat(sent)
  {
    var translated := Translate.TranslateToClaude(messages);
    if translated.Err? {
      return None, [], Raised(translated.error);
    }
    var body := BedrockBody(BedrockVersion, MaxTokens, translated.value.messages,
                            translated.value.system, Temperature);
    request := Some(BedrockInvocation(BedrockModelId, BedrockAccept, BedrockContentType, body));
    var finalMessage, error;
    sent, finalMessage, error := DrainStream(DecodeBedrockEvent, response.events);
    if error.Some? {
      outcome := Raised(error.value);
    } else {
      match response.end {
        case Completed => outcome := Returned(finalMessage);
        case Failed(ClientError(_)) => outcome := ReturnedNone;
        case Failed(failure) => outcome := Raised(Transport(failure));
      }
    }
  }
}
