/**
 * The two-pass "draft, then refine" flow. The caller's message list is an
 * object whose list the orchestrator extends in place: after each pass it
 * gains the pass's text as a `<thinking>`-prefixed assistant turn and a fixed
 * follow-up instruction. When asked, the outgoing copy of each request also
 * ends with a bare `<thinking>` assistant turn; that turn is never kept.
 */
module MultiPass {
  import opened Common
  import opened Models
  import opened Messages
  import opened Streaming
  import opened Providers

  const MaxPasses: nat := 2
  const ThinkingPrefix: string := "<thinking>"
  const FollowUp: string := "You've done a good job with a first draft. Improve this further based on the original instructions so that the app is fully functional and looks like the original video of the app we're trying to replicate."

  /** The caller's `messages` list, which the orchestrator extends with `+=`. */
  class Conversation {
    var messages: seq<Message>

    constructor (initial: seq<Message>)
      ensures messages == initial
    {
      messages := initial;
    }
  }

  /** The two turns appended after a pass whose text is `passText`. */
  function PassTurns(passText: string): (turns: seq<Message>)
    ensures |turns| == 2
    ensures turns[0] == Message("assistant", Text("<thinking>" + passText))
    ensures turns[1].role == "user" && turns[1].content == Text(FollowUp)
  {
    [Message("assistant", Text(ThinkingPrefix + passText)), Message("user", Text(FollowUp))]
  }

  /** The list sent on a pass: the live list, plus the bare thinking turn when asked for. */
  function Outgoing(messages: seq<Message>, includeThinking: bool): (sent: seq<Message>)
    ensures |sent| == |messages| + (if includeThinking then 1 else 0)
    ensures sent[..|messages|] == messages
    ensures includeThinking ==> sent[|messages|] == Message("assistant", Text("<thinking>"))
  {
    if includeThinking then messages + [Message("assistant", Text(ThinkingPrefix))] else messages
  }

  /** What one pass gives the orchestrator. */
  datatype PassResult = PassResult(
    sent: seq<string>,        // its callback arguments, in order
    failure: Option<Error>,   // the exception that ended it, if any
    text: string)             // the text appended to the conversation after it

  /** A pass of the native variant: the text appended is the SDK's final message. */
  function NativePass(response: AnthropicResponse): (p: PassResult)
    ensures p.sent == response.textStream.events && p.text == response.finalText
    ensures p.failure.None? <==> response.textStream.end.Completed?
  {
    PassResult(response.textStream.events,
               if response.textStream.end.Failed? then Some(Transport(response.textStream.end.failure)) else None,
               response.finalText)
  }

  /** A pass of the Bedrock variant: the text appended is the concatenated delta texts. */
  function BedrockPass(stream: Stream<BedrockEvent>): (p: PassResult)
    ensures p.sent == Drain(DecodeBedrockEvent, stream.events).sent
    ensures p.text == Concat(p.sent)
    ensures p.failure.None? <==> Drain(DecodeBedrockEvent, stream.events).error.None? && stream.end.Completed?
  {
    var d := Drain(DecodeBedrockEvent, stream.events);
    PassResult(d.sent,
               if d.error.Some? then d.error
               else if stream.end.Failed? then Some(Transport(stream.end.failure))
               else None,
               Concat(d.sent))
  }

  /** The native passes over the given responses, in order. */
  function NativePasses(responses: seq<AnthropicResponse>): (ps: seq<PassResult>)
    ensures |ps| == |responses|
  {
    if responses == [] then []
    else NativePasses(responses[..|responses| - 1]) + [NativePass(responses[|responses| - 1])]
  }

  /** Pass `k` is the pass over response `k`. */
  lemma {:induction false} NativePassesAt(responses: seq<AnthropicResponse>, k: nat)
    requires k < |responses|
    ensures NativePasses(responses)[k] == NativePass(responses[k])
  {
    var init := responses[..|responses| - 1];
    if k < |responses| - 1 {
      NativePassesAt(init, k);
      assert init[k] == responses[k];
    }
  }

  /** The Bedrock passes over the given streams, in order. */
  function BedrockPasses(streams: seq<Stream<BedrockEvent>>): (ps: seq<PassResult>)
    ensures |ps| == |streams|
  {
    if streams == [] then []
    else BedrockPasses(streams[..|streams| - 1]) + [BedrockPass(streams[|streams| - 1])]
  }

  /** Pass `k` is the pass over stream `k`. */
  lemma {:induction false} BedrockPassesAt(streams: seq<Stream<BedrockEvent>>, k: nat)
    requires k < |streams|
    ensures BedrockPasses(streams)[k] == BedrockPass(streams[k])
  {
    var init := streams[..|streams| - 1];
    if k < |streams| - 1 {
      BedrockPassesAt(init, k);
      assert init[k] == streams[k];
    }
  }

  /** The number of leading passes that ended without an exception. */
  function CompletedPasses(passes: seq<PassResult>): (n: nat)
    ensures n <= |passes|
    ensures forall k :: 0 <= k < n ==> passes[k].failure.None?
    ensures n < |passes| ==> passes[n].failure.Some?
  {
    if passes == [] then 0
    else if passes[0].failure.Some? then 0
    else 1 + CompletedPasses(passes[1..])
  }

  /** The completed-pass count is the one index where the first failure, if any, sits. */
  lemma CompletedPassesIs(passes: seq<PassResult>, i: nat)
    requires i <= |passes|
    requires forall k :: 0 <= k < i ==> passes[k].failure.None?
    requires i < |passes| ==> passes[i].failure.Some?
    ensures CompletedPasses(passes) == i
  {
  }

  /** Everything appended after the first `count` passes, in pass order. */
  function Appended(passes: seq<PassResult>, count: nat): (turns: seq<Message>)
    requires count <= |passes|
    ensures |turns| == 2 * count
  {
    if count == 0 then [] else Appended(passes, count - 1) + PassTurns(passes[count - 1].text)
  }

  /** Entry `2k` is pass `k`'s text behind the thinking marker; entry `2k + 1` is the follow-up. */
  lemma {:induction false} AppendedAt(passes: seq<PassResult>, count: nat, k: nat)
    requires k < count <= |passes|
    ensures Appended(passes, count)[2 * k] == Message("assistant", Text("<thinking>" + passes[k].text))
    ensures Appended(passes, count)[2 * k + 1] == Message("user", Text(FollowUp))
  {
    if k < count - 1 {
      AppendedAt(passes, count - 1, k);
    }
  }

  /** Two passes grow the list by exactly four entries, in this order. */
  lemma TwoPassesAppendFour(initial: seq<Message>, passes: seq<PassResult>)
    requires |passes| == 2
    ensures |initial + Appended(passes, 2)| == |initial| + 4
    ensures Appended(passes, 2) ==
              [Message("assistant", Text("<thinking>" + passes[0].text)), Message("user", Text(FollowUp)),
               Message("assistant", Text("<thinking>" + passes[1].text)), Message("user", Text(FollowUp))]
  {
    assert Appended(passes, 1) == PassTurns(passes[0].text);
  }

  /** Every callback argument of the first `count` passes, in order. */
  function AllSent(passes: seq<PassResult>, count: nat): (all: seq<string>)
    requires count <= |passes|
  {
    if count == 0 then [] else AllSent(passes, count - 1) + passes[count - 1].sent
  }

  /** The texts of the first `count` passes, in order. */
  function Texts(passes: seq<PassResult>, count: nat): (ts: seq<string>)
    requires count <= |passes|
    ensures |ts| == count
  {
    if count == 0 then [] else Texts(passes, count - 1) + [passes[count - 1].text]
  }

  /**
   * The Bedrock variant's `full_stream`, the concatenation of everything the
   * callback received, is the concatenation of the passes' texts.
   */
  lemma {:induction false} AllSentIsPassTexts(streams: seq<Stream<BedrockEvent>>, count: nat)
    requires count <= |streams|
    ensures Concat(AllSent(BedrockPasses(streams), count)) == Concat(Texts(BedrockPasses(streams), count))
  {
    var ps := BedrockPasses(streams);
    if count > 0 {
      AllSentIsPassTexts(streams, count - 1);
      BedrockPassesAt(streams, count - 1);
      ConcatJoin(AllSent(ps, count - 1), ps[count - 1].sent);
      ConcatAppend(Texts(ps, count - 1), ps[count - 1].text);
    }
  }

  /** After two completed Bedrock passes, the result is the first pass's text followed by the second's. */
  lemma BedrockTwoPassesReturnBoth(streams: seq<Stream<BedrockEvent>>)
    requires |streams| == 2
    ensures Concat(AllSent(BedrockPasses(streams), 2)) ==
              BedrockPasses(streams)[0].text + BedrockPasses(streams)[1].text
  {
    AllSentIsPassTexts(streams, 2);
    var ps := BedrockPasses(streams);
    assert Texts(ps, 2) == [ps[0].text] + [ps[1].text];
    ConcatAppend([ps[0].text], ps[1].text);
  }

  /** The SDK requests of the first `count` native passes, each sent with the list as it stood then. */
  function NativeRequests(model: Llm, systemPrompt: string, initial: seq<Message>, passes: seq<PassResult>,
                          includeThinking: bool, count: nat): (rs: seq<ClaudeRequest>)
    requires count <= |passes|
    ensures |rs| == count
  {
    if count == 0 then []
    else NativeRequests(model, systemPrompt, initial, passes, includeThinking, count - 1) +
         [ClaudeRequest(Value(model), MaxTokens, Temperature, Text(systemPrompt),
                        Outgoing(initial + Appended(passes, count - 1), includeThinking))]
  }

  /** Request `k` carries the caller's system prompt and the list as it stood when pass `k` started. */
  lemma {:induction false} NativeRequestsAt(model: Llm, systemPrompt: string, initial: seq<Message>,
                                            passes: seq<PassResult>, includeThinking: bool, count: nat)
    requires count <= |passes|
    ensures forall k :: 0 <= k < count ==>
              NativeRequests(model, systemPrompt, initial, passes, includeThinking, count)[k] ==
              ClaudeRequest(Value(model), 4096, 0.0, Text(systemPrompt),
                            Outgoing(initial + Appended(passes, k), includeThinking))
  {
    if count > 0 {
      NativeRequestsAt(model, systemPrompt, initial, passes, includeThinking, count - 1);
    }
  }

  /** The Bedrock invocations of the first `count` passes, each sent with the list as it stood then. */
  function BedrockRequests(systemPrompt: string, initial: seq<Message>, passes: seq<PassResult>,
                           includeThinking: bool, count: nat): (rs: seq<BedrockInvocation>)
    requires count <= |passes|
    ensures |rs| == count
  {
    if count == 0 then []
    else BedrockRequests(systemPrompt, initial, passes, includeThinking, count - 1) +
         [BedrockInvocation(BedrockModelId, BedrockAccept, BedrockContentType,
                            BedrockBody(BedrockVersion, MaxTokens,
                                        Outgoing(initial + Appended(passes, count - 1), includeThinking),
                                        Text(systemPrompt), Temperature))]
  }

  /** Invocation `k` always names the Sonnet model id and carries the list as it stood when pass `k` started. */
  lemma {:induction false} BedrockRequestsAt(systemPrompt: string, initial: seq<Message>,
                                             passes: seq<PassResult>, includeThinking: bool, count: nat)
    requires count <= |passes|
    ensures forall k :: 0 <= k < count ==>
              BedrockRequests(systemPrompt, initial, passes, includeThinking, count)[k] ==
              BedrockInvocation(BedrockModelId, "*/*", "application/json",
                                BedrockBody("bedrock-2023-05-31", 4096,
                                            Outgoing(initial + Appended(passes, k), includeThinking),
                                            Text(systemPrompt), 0.0))
  {
    if count > 0 {
      BedrockRequestsAt(systemPrompt, initial, passes, includeThinking, count - 1);
    }
  }

  /** What the Bedrock variants do with an exception: a ClientError is swallowed, others re-raised. */
  function BedrockEnding(error: Error): (o: Outcome<string>)
    ensures o == ReturnedNone <==> error.Transport? && error.failure.ClientError?
    ensures o != ReturnedNone ==> o == Raised(error)
  {
    if error.Transport? && error.failure.ClientError? then ReturnedNone else Raised(error)
  }

  /**
   * One pass's `async with` block on the SDK: its text stream is forwarded to
   * the callback, and a transport failure ends the pass with an exception.
   */
  method RunNativePass(response: AnthropicResponse) returns (increments: seq<string>, failure: Option<Error>)
    ensures PassResult(increments, failure, response.finalText) == NativePass(response)
  {
    var streamed, error;
    increments, streamed, error := DrainStream(DecodeText, response.textStream.events);
    TextStreamDeliversAll(response.textStream.events);
    failure := if response.textStream.end.Failed? then Some(Transport(response.textStream.end.failure)) else None;
  }

  /**
   * One pass's event loop on Bedrock: each delta is forwarded and added to
   * `response_text`; a decoding error or a transport failure ends the pass.
   */
  method RunBedrockPass(stream: Stream<BedrockEvent>) returns (increments: seq<string>, responseText: string, failure: Option<Error>)
    ensures PassResult(increments, failure, responseText) == BedrockPass(stream)
  {
    var error;
    increments, responseText, error := DrainStream(DecodeBedrockEvent, stream.events);
    failure := if error.Some? then error else if stream.end.Failed? then Some(Transport(stream.end.failure)) else None;
  }

  /**
   * `stream_claude_response_native`: two passes, each sent with the live
   * list (plus the thinking turn when asked for); after each completed pass
   * the list is extended; the result is the last pass's final message.
   */
  method StreamClaudeResponseNative(systemPrompt: string, conversation: Conversation,
                                    responses: seq<AnthropicResponse>, includeThinking: bool, model: Llm)
    returns (requests: seq<ClaudeRequest>, sent: seq<string>, outcome: Outcome<string>)
    requires |responses| == MaxPasses
    modifies conversation
    ensures var passes := NativePasses(responses);
            var n := CompletedPasses(passes);
            && conversation.messages == old(conversation.messages) + Appended(passes, n)
            && |requests| == (if n == MaxPasses then MaxPasses else n + 1)
            && requests == NativeRequests(model, systemPrompt, old(conversation.messages), passes, includeThinking, |requests|)
            && sent == AllSent(passes, |requests|)
            && (n == MaxPasses ==> outcome == Returned(responses[MaxPasses - 1].finalText))
            && (n < MaxPasses ==> outcome == Raised(passes[n].failure.value))
  {
    ghost var initial := conversation.messages;
    ghost var passes := NativePasses(responses);
    var currentPassNum := 1;
    var response: Option<string> := None;
    requests, sent := [], [];
    while currentPassNum <= MaxPasses
      invariant 1 <= currentPassNum <= MaxPasses + 1
      invariant forall k :: 0 <= k < currentPassNum - 1 ==> passes[k].failure.None?
      invariant conversation.messages == initial + Appended(passes, currentPassNum - 1)
      invariant |requests| == currentPassNum - 1
      invariant requests == NativeRequests(model, systemPrompt, initial, passes, includeThinking, currentPassNum - 1)
      invariant sent == AllSent(passes, currentPassNum - 1)
      invariant currentPassNum > 1 ==> response == Some(responses[currentPassNum - 2].finalText)
    {
      var pass := currentPassNum - 1;
      currentPassNum := currentPassNum + 1;
      var messagesToSend := if includeThinking then conversation.messages + [Message("assistant", Text(ThinkingPrefix))]
                            else conversation.messages;
      requests := requests + [ClaudeRequest(Value(model), MaxTokens, Temperature, Text(systemPrompt), messagesToSend)];
      var increments, failure := RunNativePass(responses[pass]);
      NativePassesAt(responses, pass);
      assert passes[pass] == PassResult(increments, failure, responses[pass].finalText);
      sent := sent + increments;
      if failure.Some? {
        CompletedPassesIs(passes, pass);
        return requests, sent, Raised(failure.value);
      }
      response := Some(responses[pass].finalText);
      conversation.messages := conversation.messages + PassTurns(responses[pass].finalText);
    }
    CompletedPassesIs(passes, MaxPasses);
    // The source's `if not response: raise ...` guard: the loop always sets it.
    assert response.Some?;
    outcome := Returned(response.value);
  }

  /**
   * `stream_claude_response_native_aws_bedrock`: the same two passes over
   * Bedrock (always the Sonnet model id, whatever `model` says); the text
   * appended after a pass is its accumulated `response_text`, and the result
   * is `full_stream`, everything streamed over both passes.
   */
  method StreamClaudeResponseNativeAwsBedrock(systemPrompt: string, conversation: Conversation,
                                              streams: seq<Stream<BedrockEvent>>, includeThinking: bool, model: Llm)
    returns (requests: seq<BedrockInvocation>, sent: seq<string>, outcome: Outcome<string>)
    requires |streams| == MaxPasses
    modifies conversation
    ensures var passes := BedrockPasses(streams);
            var n := CompletedPasses(passes);
            && conversation.messages == old(conversation.messages) + Appended(passes, n)
            && |requests| == (if n == MaxPasses then MaxPasses else n + 1)
            && requests == BedrockRequests(systemPrompt, old(conversation.messages), passes, includeThinking, |requests|)
            && sent == AllSent(passes, |requests|)
            && (n == MaxPasses ==> outcome == Returned(Concat(sent)))
            && (n < MaxPasses ==> outcome == BedrockEnding(passes[n].failure.value))
  {
    ghost var initial := conversation.messages;
    ghost var passes := BedrockPasses(streams);
    var currentPassNum := 1;
    var response: Option<BedrockInvocation> := None;
    var fullStream := "";
    requests, sent := [], [];
    while currentPassNum <= MaxPasses
      invariant 1 <= currentPassNum <= MaxPasses + 1
      invariant forall k :: 0 <= k < currentPassNum - 1 ==> passes[k].failure.None?
      invariant conversation.messages == initial + Appended(passes, currentPassNum - 1)
      invariant |requests| == currentPassNum - 1
      invariant requests == BedrockRequests(systemPrompt, initial, passes, includeThinking, currentPassNum - 1)
      invariant sent == AllSent(passes, currentPassNum - 1)
      invariant fullStream == Concat(sent)
      invariant currentPassNum > 1 ==> response.Some?
    {
      var pass := currentPassNum - 1;
      currentPassNum := currentPassNum + 1;
      var messagesToSend := if includeThinking then conversation.messages + [Message("assistant", Text(ThinkingPrefix))]
                            else conversation.messages;
      var body := BedrockBody(BedrockVersion, MaxTokens, messagesToSend, Text(systemPrompt), Temperature);
      var invocation := BedrockInvocation(BedrockModelId, BedrockAccept, BedrockContentType, body);
      requests := requests + [invocation];
      response := Some(invocation);
      var increments, responseText, failure := RunBedrockPass(streams[pass]);
      BedrockPassesAt(streams, pass);
      assert passes[pass] == PassResult(increments, failure, responseText);
      ConcatJoin(sent, increments);
      sent := sent + increments;
      fullStream := fullStream + responseText;
      if failure.Some? {
        CompletedPassesIs(passes, pass);
        return requests, sent, BedrockEnding(failure.value);
      }
      conversation.messages := conversation.messages + PassTurns(responseText);
    }
    CompletedPassesIs(passes, MaxPasses);
    // The source's `if not response: raise ...` guard: the loop always sets it.
    assert response.Some?;
    outcome := Returned(fullStream);
  }
}
