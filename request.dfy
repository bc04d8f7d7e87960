/**
  The request direction: folding chat messages into one completion prompt
  (`convert_messages_to_prompt`) and mapping the chat parameters onto the
  completion parameters (`openai_to_claude_params`).
 */
module Request {
  import opened Python
  import opened Tables

  datatype Message = Message(role: string, content: string)

  /**
    An inbound chat request. An optional field that the body leaves out is
    `VNull`, which is what `dict.get` returns for it.
   */
  datatype ChatRequest = ChatRequest(
    model: string,
    messages: seq<Message>,
    maxTokens: Value,
    stop: Value,
    temperature: Value,
    stream: Value)

  /** The cue that ends every prompt so that the model answers as the assistant. */
  const Cue: string := "\n\nAssistant: "

  const DefaultMaxTokens: int := 100000

  /** The speaker name a role is rendered with, or the KeyError of `role_map[role]`. */
  function Speaker(role: string): Result<string> {
    match Lookup(RoleMap, VStr(role))
    case Err(e) => Err(e)
    case Ok(name) => Ok(Capitalize(name))
  }

  /** Only the three table roles have a speaker: the assistant speaks as "Assistant", system and user as "Human". */
  lemma SpeakerTable(role: string)
    ensures Speaker(role).Ok? <==> role == "system" || role == "user" || role == "assistant"
    ensures Speaker(role).Ok? ==> Speaker(role).value == (if role == "assistant" then "Assistant" else "Human")
    ensures Speaker(role).Err? ==> Speaker(role).error == KeyError(VStr(role))
  {
    if role in RoleMap {
      SpeakerNamesAreCapitalized(role);
    }
  }

  /** One turn of the prompt. */
  function Turn(speaker: string, content: string): string {
    "\n\n" + speaker + ": " + content
  }

  /** The turn of one message, or the error of its role lookup. */
  function TurnOf(m: Message): Result<string> {
    match Speaker(m.role)
    case Err(e) => Err(e)
    case Ok(speaker) => Ok(Turn(speaker, m.content))
  }

  /** Appends two partial prompts; the first error, in order, wins. */
  function Chain(x: Result<string>, y: Result<string>): Result<string> {
    if x.Err? then x else if y.Err? then y else Ok(x.value + y.value)
  }

  /** The turns of all messages in order, or the error of the first message whose role is unknown. */
  function Transcript(ms: seq<Message>): Result<string> {
    if ms == [] then Ok("") else Chain(TurnOf(ms[0]), Transcript(ms[1..]))
  }

  /** The prompt built from `ms`: its transcript followed by the cue. */
  function Prompt(ms: seq<Message>): Result<string> {
    match Transcript(ms)
    case Err(e) => Err(e)
    case Ok(t) => Ok(t + Cue)
  }

  /** A prompt always ends with the cue, and the prompt of no messages is the cue alone. */
  lemma PromptEndsWithCue(ms: seq<Message>)
    ensures ms == [] ==> Prompt(ms) == Ok(Cue)
    ensures Prompt(ms).Ok? ==> |Prompt(ms).value| >= |Cue| && Prompt(ms).value[|Prompt(ms).value| - |Cue|..] == Cue
  {
    assert "" + Cue == Cue;
  }

  predicate AllRolesKnown(ms: seq<Message>) {
    forall i :: 0 <= i < |ms| ==> ms[i].role in RoleMap
  }

  lemma ChainAssociative(x: Result<string>, y: Result<string>, z: Result<string>)
    ensures Chain(Chain(x, y), z) == Chain(x, Chain(y, z))
  {
    if x.Ok? && y.Ok? && z.Ok? {
      assert (x.value + y.value) + z.value == x.value + (y.value + z.value);
    }
  }

  lemma ChainUnit(x: Result<string>)
    ensures Chain(Ok(""), x) == x && Chain(x, Ok("")) == x
  {
    if x.Ok? {
      assert "" + x.value == x.value && x.value + "" == x.value;
    }
  }

  /** The transcript of a concatenation is the concatenation of the transcripts, or the first error. */
  lemma {:induction false} TranscriptAppend(a: seq<Message>, b: seq<Message>)
    ensures Transcript(a + b) == Chain(Transcript(a), Transcript(b))
  {
    if a == [] {
      assert a + b == b;
      ChainUnit(Transcript(b));
    } else {
      assert (a + b)[1..] == a[1..] + b;
      TranscriptAppend(a[1..], b);
      ChainAssociative(TurnOf(a[0]), Transcript(a[1..]), Transcript(b));
    }
  }

  /** A single message is exactly its own turn. */
  lemma TranscriptSingle(m: Message)
    ensures Transcript([m]) == TurnOf(m)
  {
    assert [m][1..] == [];
    ChainUnit(TurnOf(m));
  }

  /** What one more iteration of the prompt loop does to the transcript of the prefix done so far. */
  lemma TranscriptStep(ms: seq<Message>, i: nat)
    requires i < |ms|
    ensures Transcript(ms[..i + 1]) == Chain(Transcript(ms[..i]), TurnOf(ms[i]))
    ensures Transcript(ms[..i]).Ok? && ms[i].role !in RoleMap ==> Prompt(ms) == Err(KeyError(VStr(ms[i].role)))
  {
    assert ms[..i + 1] == ms[..i] + [ms[i]];
    TranscriptAppend(ms[..i], [ms[i]]);
    TranscriptSingle(ms[i]);
    assert ms == ms[..i] + ms[i..];
    TranscriptAppend(ms[..i], ms[i..]);
  }

  /**
    `convert_messages_to_prompt`: appends one turn per message to an
    accumulator and finishes with the cue; an unknown role raises a KeyError
    and no prompt is returned.
   */
  method ConvertMessagesToPrompt(messages: seq<Message>) returns (r: Result<string>)
    ensures r == Prompt(messages)
  {
    var prompt := "";
    var i := 0;
    while i < |messages|
      invariant 0 <= i <= |messages|
      invariant Transcript(messages[..i]) == Ok(prompt)
    {
      var message := messages[i];
      TranscriptStep(messages, i);
      if message.role !in RoleMap {
        return Err(KeyError(VStr(message.role)));
      }
      var transformedRole := RoleMap[message.role];
      prompt := prompt + Turn(Capitalize(transformedRole), message.content);
      i := i + 1;
    }
    assert messages[..i] == messages;
    prompt := prompt + Cue;
    return Ok(prompt);
  }

  /** Folding succeeds exactly when every role is in the role table. */
  lemma {:induction false} PromptSucceedsIffRolesKnown(ms: seq<Message>)
    ensures Prompt(ms).Ok? <==> AllRolesKnown(ms)
  {
    if ms != [] {
      PromptSucceedsIffRolesKnown(ms[1..]);
      assert AllRolesKnown(ms) <==> ms[0].role in RoleMap && AllRolesKnown(ms[1..]) by {
        if ms[0].role in RoleMap && AllRolesKnown(ms[1..]) {
          forall i | 0 <= i < |ms| ensures ms[i].role in RoleMap {
            if i > 0 { assert ms[i] == ms[1..][i - 1]; }
          }
        }
      }
    }
  }

  /** Folding fails with the KeyError of the FIRST message whose role is unknown. */
  lemma {:induction false} PromptFailsAtFirstUnknownRole(ms: seq<Message>, k: nat)
    requires k < |ms| && ms[k].role !in RoleMap
    requires AllRolesKnown(ms[..k])
    ensures Prompt(ms) == Err(KeyError(VStr(ms[k].role)))
  {
    assert ms == ms[..k] + ms[k..];
    TranscriptAppend(ms[..k], ms[k..]);
    PromptSucceedsIffRolesKnown(ms[..k]);
  }

  lemma {:induction false} RolesKnownSlice(ms: seq<Message>, lo: nat, hi: nat)
    requires lo <= hi <= |ms| && AllRolesKnown(ms)
    ensures AllRolesKnown(ms[lo..hi])
  {
    forall j | 0 <= j < hi - lo ensures ms[lo..hi][j].role in RoleMap {
      assert ms[lo..hi][j] == ms[lo + j];
    }
  }

  /** The transcript splits around any message into the turns before, its own turn and the turns after. */
  lemma TranscriptSplit(a: seq<Message>, m: Message, b: seq<Message>)
    ensures Transcript(a + [m] + b) == Chain(Transcript(a), Chain(TurnOf(m), Transcript(b)))
  {
    assert a + [m] + b == a + ([m] + b);
    TranscriptAppend(a, [m] + b);
    TranscriptAppend([m], b);
    TranscriptSingle(m);
  }

  /**
    When every role is known, message `i` contributes exactly one turn, placed
    after the turns of the messages before it and before those of the messages
    after it.
   */
  lemma {:induction false} PromptTurnsInOrder(ms: seq<Message>, i: nat)
    requires i < |ms| && AllRolesKnown(ms)
    ensures Prompt(ms).Ok? && Transcript(ms[..i]).Ok? && Transcript(ms[i + 1..]).Ok?
    ensures Prompt(ms).value ==
      Transcript(ms[..i]).value + Turn(Speaker(ms[i].role).value, ms[i].content)
      + Transcript(ms[i + 1..]).value + Cue
  {
    var before, m, after := ms[..i], ms[i], ms[i + 1..];
    RolesKnownSlice(ms, 0, i);
    RolesKnownSlice(ms, i + 1, |ms|);
    PromptSucceedsIffRolesKnown(before);
    PromptSucceedsIffRolesKnown(after);
    SliceAround(ms, i);
    TranscriptSplit(before, m, after);
    var tb, ta := Transcript(before).value, Transcript(after).value;
    var turn := Turn(Speaker(m.role).value, m.content);
    assert TurnOf(m) == Ok(turn);
    assert Transcript(ms) == Ok(tb + (turn + ta));
    ConcatRegroup(tb, turn, ta, Cue);
  }

  lemma SliceAround(ms: seq<Message>, i: nat)
    requires i < |ms|
    ensures ms == ms[..i] + [ms[i]] + ms[i + 1..]
  {
  }

  lemma ConcatRegroup(a: string, b: string, c: string, d: string)
    ensures a + (b + c) + d == a + b + c + d
  {
  }

  /** The system and user roles are both rendered as the human speaker. */
  lemma SystemAndUserAreHuman(content: string)
    ensures Speaker("system") == Speaker("user") == Ok("Human")
    ensures Prompt([Message("system", content)]) == Prompt([Message("user", content)])
    ensures Prompt([Message("user", content)]) == Ok("\n\nHuman: " + content + Cue)
  {
    SpeakerTable("user");
    SpeakerTable("system");
    TranscriptSingle(Message("user", content));
    TranscriptSingle(Message("system", content));
    assert Turn("Human", content) == "\n\nHuman: " + content;
  }

  /** The keys that every completion request carries. */
  const BaseKeys: set<string> := {"model", "prompt", "max_tokens_to_sample"}

  /** The keys of the completion request built for `req`. */
  function RequestKeys(req: ChatRequest): set<string> {
    BaseKeys
    + (if Truthy(req.stop) then {"stop_sequences"} else {})
    + (if Truthy(req.temperature) then {"temperature"} else {})
    + (if Truthy(req.stream) then {"stream"} else {})
  }

  /**
    `openai_to_claude_params`: resolves the model name through `modelMap`
    (unlisted names pass through), folds the messages into the prompt, starts
    from the three mandatory keys and then adds each optional key only when its
    input is truthy.
   */
  method OpenAiToClaudeParams(modelMap: map<string, string>, req: ChatRequest)
    returns (r: Result<map<string, Value>>)
    ensures r.Err? <==> !AllRolesKnown(req.messages)
    ensures r.Err? ==> Prompt(req.messages).Err? && r.error == Prompt(req.messages).error
    ensures r.Ok? ==> r.value.Keys == RequestKeys(req)
    ensures r.Ok? ==>
      r.value["model"] == VStr(if req.model in modelMap then modelMap[req.model] else req.model)
    ensures r.Ok? ==> Prompt(req.messages).Ok? && r.value["prompt"] == VStr(Prompt(req.messages).value)
    ensures r.Ok? ==>
      r.value["max_tokens_to_sample"] == (if Truthy(req.maxTokens) then req.maxTokens else VInt(DefaultMaxTokens))
    ensures r.Ok? && "stop_sequences" in r.value ==> r.value["stop_sequences"] == req.stop
    ensures r.Ok? && "temperature" in r.value ==> r.value["temperature"] == req.temperature
    ensures r.Ok? && "stream" in r.value ==> r.value["stream"] == VBool(true)
  {
    var model := if req.model in modelMap then modelMap[req.model] else req.model;
    var prompt := ConvertMessagesToPrompt(req.messages);
    PromptSucceedsIffRolesKnown(req.messages);
    if prompt.Err? {
      return Err(prompt.error);
    }
    var params := map[
      "model" := VStr(model),
      "prompt" := VStr(prompt.value),
      "max_tokens_to_sample" := VInt(DefaultMaxTokens)];
    if Truthy(req.maxTokens) {
      params := params["max_tokens_to_sample" := req.maxTokens];
    }
    if Truthy(req.stop) {
      params := params["stop_sequences" := req.stop];
    }
    if Truthy(req.temperature) {
      params := params["temperature" := req.temperature];
    }
    if Truthy(req.stream) {
      params := params["stream" := VBool(true)];
    }
    return Ok(params);
  }
}
