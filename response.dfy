/**
  The response direction: building the chat-completion object
  (`claude_to_chatgpt_response`) and the streaming chunk
  (`claude_to_chatgpt_response_stream`) from an upstream completion.
 */
module Response {
  import opened Python
  import opened Tables

  /**
    The two clock readings a builder takes: `text` is `str(time.time())` as
    used in `id`, and `seconds` is `int(time.time())` as used in `created`.
    They come from separate calls, so nothing ties one to the other.
   */
  datatype Stamp = Stamp(text: string, seconds: int)

  /** An upstream completion object; `completion` is `None` when the key is absent. */
  datatype ClaudeResponse = ClaudeResponse(completion: Option<string>, stopReason: Value)

  datatype Usage = Usage(promptTokens: nat, completionTokens: nat, totalTokens: nat)

  /** The `message` of a response choice or the `delta` of a chunk choice. */
  datatype Delta = Delta(role: string, content: string)

  datatype Choice =
    | MessageChoice(message: Delta, index: nat, finishReason: Option<string>)
    | DeltaChoice(delta: Delta, index: nat, finishReason: Option<string>)

  /** The envelope shared by a chat-completion response and a streaming chunk. */
  datatype ChatObject = ChatObject(
    id: string,
    tag: string,
    created: int,
    model: string,
    usage: Usage,
    choices: seq<Choice>)

  const IdPrefix: string := "chatcmpl-"
  const ModelLabel: string := "gpt-3.5-turbo-0613"
  const ResponseObject: string := "chat.completion"
  const ChunkObject: string := "chat.completion.chunk"

  /** The text of a completion, `""` when the key is absent (`.get("completion", "")`). */
  function CompletionText(resp: ClaudeResponse): string {
    resp.completion.GetOr("")
  }

  /**
    The finish reason: `None` for a falsy stop reason, otherwise the
    unchecked lookup `stop_reason_map[stop_reason]`.
   */
  function FinishReason(stopReason: Value): Result<Option<string>> {
    if Truthy(stopReason) then
      match Lookup(StopReasonMap, stopReason)
      case Err(e) => Err(e)
      case Ok(reason) => Ok(Some(reason))
    else Ok(None)
  }

  /**
    The finish-reason table in full: a falsy stop reason gives `None`,
    `"stop_sequence"` gives `"stop"`, `"max_tokens"` gives `"length"`, and any
    other truthy value fails with the error of the dictionary lookup.
   */
  lemma FinishReasonTable(stopReason: Value)
    ensures FinishReason(stopReason) == Ok(None) <==> !Truthy(stopReason)
    ensures FinishReason(stopReason) == Ok(Some("stop")) <==> stopReason == VStr("stop_sequence")
    ensures FinishReason(stopReason) == Ok(Some("length")) <==> stopReason == VStr("max_tokens")
    ensures FinishReason(stopReason).Err? <==>
      Truthy(stopReason) && stopReason != VStr("stop_sequence") && stopReason != VStr("max_tokens")
    ensures FinishReason(stopReason).Err? ==>
      FinishReason(stopReason).error == (if Hashable(stopReason) then KeyError(stopReason) else TypeError)
  {
  }

  function Envelope(tokens: string -> nat, at: Stamp, tag: string, text: string, choice: Choice): ChatObject {
    var n := tokens(text);
    ChatObject(IdPrefix + at.text, tag, at.seconds, ModelLabel, Usage(0, n, n), [choice])
  }

  /** `claude_to_chatgpt_response`: the non-streaming response object; it fails exactly when the finish reason does. */
  function ToChatResponse(tokens: string -> nat, at: Stamp, resp: ClaudeResponse): (r: Result<ChatObject>)
    ensures r.Ok? <==> FinishReason(resp.stopReason).Ok?
    ensures r.Err? ==> r.error == FinishReason(resp.stopReason).error
  {
    var text := CompletionText(resp);
    match FinishReason(resp.stopReason)
    case Err(e) => Err(e)
    case Ok(reason) =>
      Ok(Envelope(tokens, at, ResponseObject, text, MessageChoice(Delta("assistant", text), 0, reason)))
  }

  /** `claude_to_chatgpt_response_stream`: one streaming chunk; it fails exactly when the finish reason does. */
  function ToChatChunk(tokens: string -> nat, at: Stamp, resp: ClaudeResponse): (r: Result<ChatObject>)
    ensures r.Ok? <==> FinishReason(resp.stopReason).Ok?
    ensures r.Err? ==> r.error == FinishReason(resp.stopReason).error
  {
    var text := CompletionText(resp);
    match FinishReason(resp.stopReason)
    case Err(e) => Err(e)
    case Ok(reason) =>
      Ok(Envelope(tokens, at, ChunkObject, text, DeltaChoice(Delta("assistant", text), 0, reason)))
  }

  /**
    The envelope of both builders: an id made of the fixed prefix and the first
    clock reading, the second reading's seconds, the fixed model label, no prompt tokens, a total equal to the
    completion tokens of the given text, and exactly one choice at index 0.
   */
  predicate EnvelopeShape(o: ChatObject, tokens: string -> nat, at: Stamp, text: string) {
    && o.id == "chatcmpl-" + at.text
    && o.created == at.seconds
    && o.model == "gpt-3.5-turbo-0613"
    && o.usage.promptTokens == 0
    && o.usage.completionTokens == tokens(text)
    && o.usage.totalTokens == o.usage.completionTokens
    && |o.choices| == 1
    && o.choices[0].index == 0
  }

  /** The non-streaming response: its envelope, its tag, and the completion (or `""`) as the assistant's message. */
  lemma ChatResponseShape(tokens: string -> nat, at: Stamp, resp: ClaudeResponse)
    requires FinishReason(resp.stopReason).Ok?
    ensures var o := ToChatResponse(tokens, at, resp).value;
      && EnvelopeShape(o, tokens, at, CompletionText(resp))
      && o.tag == "chat.completion"
      && o.choices[0].MessageChoice?
      && o.choices[0].message == Delta("assistant", CompletionText(resp))
      && o.choices[0].finishReason == FinishReason(resp.stopReason).value
  {
  }

  /** A streaming chunk: its envelope, its tag, and the completion (or `""`) as the assistant's delta. */
  lemma ChatChunkShape(tokens: string -> nat, at: Stamp, resp: ClaudeResponse)
    requires FinishReason(resp.stopReason).Ok?
    ensures var o := ToChatChunk(tokens, at, resp).value;
      && EnvelopeShape(o, tokens, at, CompletionText(resp))
      && o.tag == "chat.completion.chunk"
      && o.choices[0].DeltaChoice?
      && o.choices[0].delta == Delta("assistant", CompletionText(resp))
      && o.choices[0].finishReason == FinishReason(resp.stopReason).value
  {
  }

  /**
    The two builders agree on everything but the object tag and whether the
    single choice holds a `message` or a `delta`: same id, timestamp, model
    label, usage, content and finish reason, and the same failures.
   */
  lemma {:induction false} ResponseAndChunkAgree(tokens: string -> nat, at: Stamp, resp: ClaudeResponse)
    ensures ToChatResponse(tokens, at, resp).Ok? <==> ToChatChunk(tokens, at, resp).Ok?
    ensures ToChatResponse(tokens, at, resp).Err? ==> ToChatResponse(tokens, at, resp) == ToChatChunk(tokens, at, resp)
    ensures ToChatResponse(tokens, at, resp).Ok? ==>
      var full, chunk := ToChatResponse(tokens, at, resp).value, ToChatChunk(tokens, at, resp).value;
      && chunk == full.(tag := ChunkObject, choices := [DeltaChoice(full.choices[0].message, 0, full.choices[0].finishReason)])
  {
  }
}
