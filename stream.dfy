/**
  The streaming relay inside `chat`: each upstream line is stripped, decoded
  and turned into zero, one or two outputs (chunks and the `"[DONE]"` marker).
 */
module Stream {
  import opened Python
  import opened Tables
  import opened Response

  /** What `json.loads` makes of a stripped line. */
  datatype Decoded =
    | Malformed                     // raises JSONDecodeError, which the relay catches
    | NotAnObject                   // decodes to a non-dict, whose `.get` raises AttributeError
    | Object(frame: ClaudeResponse) // decodes to a dict

  /** One line read from the upstream stream, with the clock readings taken when it is handled. */
  datatype Line = Line(text: string, at: Stamp)

  /** What the relay yields: a chunk object or the literal `"[DONE]"`. */
  datatype Out = Chunk(chunk: ChatObject) | Done

  /** The outputs yielded, and the exception that ended the relay early, if any. */
  datatype Relayed = Relayed(outputs: seq<Out>, failure: Option<Error>)

  /** The characters `line.lstrip("data:")` removes. */
  const DataChars: set<char> := {'d', 'a', 't', ':'}

  predicate Nonempty(completion: Option<string>) {
    completion.Some? && completion.value != ""
  }

  /** The text the relay hands to the decoder: the line after `lstrip("data:")`. */
  function Payload(line: Line): string {
    LStrip(line.text, DataChars)
  }

  /** The outputs of one line, or the exception raised while handling it. */
  function LineOutputs(decode: string -> Decoded, tokens: string -> nat, line: Line): Result<seq<Out>> {
    if line.text == "" then Ok([])
    else
      var stripped := Payload(line);
      if stripped == "" then Ok([])
      else
        match decode(stripped)
        case Malformed => Ok([])
        case NotAnObject => Err(AttributeError)
        case Object(frame) =>
          if Truthy(frame.stopReason) then
            match ToChatChunk(tokens, line.at, ClaudeResponse(Some(""), frame.stopReason))
            case Err(e) => Err(e)
            case Ok(c) => Ok([Chunk(c), Done])
          else if Nonempty(frame.completion) then
            Ok([Chunk(ToChatChunk(tokens, line.at, frame).value)])
          else Ok([])
  }

  /** The whole relay over `lines`: outputs in line order, stopping at the first uncaught exception. */
  function Relay(decode: string -> Decoded, tokens: string -> nat, lines: seq<Line>): Relayed {
    if lines == [] then Relayed([], None)
    else
      match LineOutputs(decode, tokens, lines[0])
      case Err(e) => Relayed([], Some(e))
      case Ok(outs) =>
        var rest := Relay(decode, tokens, lines[1..]);
        Relayed(outs + rest.outputs, rest.failure)
  }

  /** Relaying a concatenation relays the first part and, if it did not fail, continues with the second. */
  lemma {:induction false} RelayAppend(decode: string -> Decoded, tokens: string -> nat, a: seq<Line>, b: seq<Line>)
    ensures
      var ra := Relay(decode, tokens, a);
      var rb := Relay(decode, tokens, b);
      Relay(decode, tokens, a + b) ==
        if ra.failure.Some? then ra else Relayed(ra.outputs + rb.outputs, rb.failure)
  {
    if a == [] {
      assert a + b == b;
    } else {
      assert (a + b)[1..] == a[1..] + b;
      RelayAppend(decode, tokens, a[1..], b);
      match LineOutputs(decode, tokens, a[0])
      case Err(_) =>
      case Ok(outs) =>
        var ra' := Relay(decode, tokens, a[1..]);
        var rb := Relay(decode, tokens, b);
        if ra'.failure.None? {
          assert outs + (ra'.outputs + rb.outputs) == (outs + ra'.outputs) + rb.outputs;
        }
    }
  }

  /**
    The body of the relay loop of `chat` for one line: what it yields, or the
    exception that escapes it. Only a JSON decoding error is caught.
   */
  method HandleLine(decode: string -> Decoded, tokens: string -> nat, line: Line)
    returns (yielded: seq<Out>, raised: Option<Error>)
    ensures raised.None? <==> LineOutputs(decode, tokens, line).Ok?
    ensures raised.None? ==> yielded == LineOutputs(decode, tokens, line).value
    ensures raised.Some? ==> yielded == [] && raised.value == LineOutputs(decode, tokens, line).error
  {
    yielded, raised := [], None;
    if line.text != "" {
      var stripped := Payload(line);
      if stripped != "" {
        var decoded := decode(stripped);
        if decoded.NotAnObject? {
          return [], Some(AttributeError);
        }
        if decoded.Object? {
          var stopReason := decoded.frame.stopReason;
          if Truthy(stopReason) {
            var chunk := ToChatChunk(tokens, line.at, ClaudeResponse(Some(""), stopReason));
            if chunk.Err? {
              return [], Some(chunk.error);
            }
            yielded := yielded + [Chunk(chunk.value)];
            yielded := yielded + [Done];
          } else {
            var completion := decoded.frame.completion;
            if Nonempty(completion) {
              var chunk := ToChatChunk(tokens, line.at, decoded.frame);
              yielded := yielded + [Chunk(chunk.value)];
            }
          }
        }
      }
    }
  }

  /**
    The relay loop of `chat`: handles the lines in order, appending what each
    yields; the `"[DONE]"` marker does not end the loop, and only an uncaught
    exception does.
   */
  method RelayLines(decode: string -> Decoded, tokens: string -> nat, lines: seq<Line>)
    returns (outputs: seq<Out>, failure: Option<Error>)
    ensures Relayed(outputs, failure) == Relay(decode, tokens, lines)
  {
    outputs := [];
    var i := 0;
    while i < |lines|
      invariant 0 <= i <= |lines|
      invariant Relay(decode, tokens, lines[..i]) == Relayed(outputs, None)
    {
      RelayStep(decode, tokens, lines, i);
      RelayPrefixFailure(decode, tokens, lines, i + 1);
      var yielded, raised := HandleLine(decode, tokens, lines[i]);
      if raised.Some? {
        return outputs, raised;
      }
      outputs := outputs + yielded;
      i := i + 1;
    }
    assert lines[..i] == lines;
    return outputs, None;
  }

  /** The relay after one more line: nothing more after a failure, otherwise that line's outputs or its exception. */
  function Extend(done: Relayed, step: Result<seq<Out>>): Relayed {
    if done.failure.Some? then done
    else match step
      case Err(e) => Relayed(done.outputs, Some(e))
      case Ok(outs) => Relayed(done.outputs + outs, None)
  }

  lemma RelaySingle(decode: string -> Decoded, tokens: string -> nat, line: Line)
    ensures Relay(decode, tokens, [line]) == Extend(Relayed([], None), LineOutputs(decode, tokens, line))
  {
    assert [line][1..] == [];
    var step := LineOutputs(decode, tokens, line);
    if step.Ok? {
      assert step.value + [] == step.value;
    }
  }

  /** Relaying one more line extends the relay of the lines before it. */
  lemma RelaySnoc(decode: string -> Decoded, tokens: string -> nat, a: seq<Line>, line: Line)
    ensures Relay(decode, tokens, a + [line]) == Extend(Relay(decode, tokens, a), LineOutputs(decode, tokens, line))
  {
    RelaySingle(decode, tokens, line);
    RelayAppend(decode, tokens, a, [line]);
    var step := LineOutputs(decode, tokens, line);
    if step.Ok? {
      assert [] + step.value == step.value;
    }
  }

  /** What one more iteration of the relay loop does to the relay of the lines handled so far. */
  lemma RelayStep(decode: string -> Decoded, tokens: string -> nat, lines: seq<Line>, i: nat)
    requires i < |lines|
    ensures Relay(decode, tokens, lines[..i + 1]) ==
      Extend(Relay(decode, tokens, lines[..i]), LineOutputs(decode, tokens, lines[i]))
  {
    assert lines[..i + 1] == lines[..i] + [lines[i]];
    RelaySnoc(decode, tokens, lines[..i], lines[i]);
  }

  /** Once the lines handled so far have raised, the remaining lines change nothing. */
  lemma RelayPrefixFailure(decode: string -> Decoded, tokens: string -> nat, lines: seq<Line>, n: nat)
    requires n <= |lines|
    ensures Relay(decode, tokens, lines[..n]).failure.Some? ==>
      Relay(decode, tokens, lines) == Relay(decode, tokens, lines[..n])
  {
    assert lines == lines[..n] + lines[n..];
    RelayAppend(decode, tokens, lines[..n], lines[n..]);
  }

  // ----- Stripping -----

  /** Any leading run of `d`, `a`, `t` and `:`, in any order, is stripped, not only the literal `data:`. */
  lemma {:induction false} StripDropsAnyRunOfDataChars(run: string, s: string)
    requires forall i :: 0 <= i < |run| ==> run[i] in DataChars
    ensures LStrip(run + s, DataChars) == LStrip(s, DataChars)
  {
    if run == [] {
      assert run + s == s;
    } else {
      assert (run + s)[1..] == run[1..] + s;
      StripDropsAnyRunOfDataChars(run[1..], s);
    }
  }

  /** A `data:` line whose payload does not start with one of those characters keeps its payload intact. */
  lemma DataPrefixStripped(payload: string)
    requires payload == [] || payload[0] !in DataChars
    ensures LStrip("data:" + payload, DataChars) == payload
  {
    StripDropsAnyRunOfDataChars("data:", payload);
  }

  /** The quirk: a line `data:data` strips to nothing, and so does a payload that is itself made of those letters. */
  lemma StripIsNotPrefixRemoval(payload: string)
    requires payload == [] || payload[0] !in DataChars
    ensures LStrip("data:data" + payload, DataChars) == payload
    ensures LStrip("tad:" + payload, DataChars) == payload
  {
    assert "data:data" + payload == "data:" + ("data" + payload);
    StripDropsAnyRunOfDataChars("data:", "data" + payload);
    StripDropsAnyRunOfDataChars("data", payload);
    StripDropsAnyRunOfDataChars("tad:", payload);
  }

  // ----- The per-line rule -----

  /** Blank lines, lines that strip to nothing, undecodable lines and frames without stop reason or text yield nothing and raise nothing. */
  lemma SilentLine(decode: string -> Decoded, tokens: string -> nat, line: Line)
    ensures LineOutputs(decode, tokens, line) == Ok([]) <==>
      || line.text == ""
      || Payload(line) == ""
      || decode(Payload(line)).Malformed?
      || (decode(Payload(line)).Object?
          && !Truthy(decode(Payload(line)).frame.stopReason)
          && !Nonempty(decode(Payload(line)).frame.completion))
  {
  }

  /** A line raises exactly when it decodes to a non-dict or carries a truthy stop reason that is not in the table. */
  lemma LineFailure(decode: string -> Decoded, tokens: string -> nat, line: Line)
    ensures LineOutputs(decode, tokens, line).Err? <==>
      && line.text != "" && Payload(line) != ""
      && (|| decode(Payload(line)).NotAnObject?
          || (decode(Payload(line)).Object? && FinishReason(decode(Payload(line)).frame.stopReason).Err?
              && Truthy(decode(Payload(line)).frame.stopReason)))
    ensures LineOutputs(decode, tokens, line).Err? && decode(Payload(line)).Object? ==>
      LineOutputs(decode, tokens, line).error == FinishReason(decode(Payload(line)).frame.stopReason).error
    ensures line.text != "" && Payload(line) != "" && decode(Payload(line)).NotAnObject? ==>
      LineOutputs(decode, tokens, line) == Err(AttributeError)
  {
  }

  /** A final chunk: one delta choice with empty content and a finish reason. */
  predicate IsFinal(o: Out) {
    && o.Chunk? && |o.chunk.choices| == 1 && o.chunk.choices[0].DeltaChoice?
    && o.chunk.choices[0].finishReason.Some? && o.chunk.choices[0].delta.content == ""
  }

  /** A content chunk: one delta choice with non-empty content and no finish reason. */
  predicate IsContent(o: Out) {
    && o.Chunk? && |o.chunk.choices| == 1 && o.chunk.choices[0].DeltaChoice?
    && o.chunk.choices[0].finishReason.None? && o.chunk.choices[0].delta.content != ""
  }

  /**
    A frame with a truthy, mapped stop reason yields a final chunk with the
    mapped finish reason and no tokens of text, immediately followed by
    `"[DONE]"`.
   */
  lemma StopFrameRule(decode: string -> Decoded, tokens: string -> nat, line: Line)
    requires line.text != "" && Payload(line) != "" && decode(Payload(line)).Object?
    requires var stop := decode(Payload(line)).frame.stopReason;
      Truthy(stop) && FinishReason(stop).Ok?
    ensures var stop := decode(Payload(line)).frame.stopReason;
      var r := LineOutputs(decode, tokens, line);
      && r.Ok? && |r.value| == 2 && r.value[1] == Done && IsFinal(r.value[0])
      && EnvelopeShape(r.value[0].chunk, tokens, line.at, "")
      && r.value[0].chunk.tag == "chat.completion.chunk"
      && r.value[0].chunk.choices[0].delta == Delta("assistant", "")
      && r.value[0].chunk.choices[0].finishReason == FinishReason(stop).value
  {
    var stop := decode(Payload(line)).frame.stopReason;
    ChatChunkShape(tokens, line.at, ClaudeResponse(Some(""), stop));
  }

  /**
    A frame with no truthy stop reason and non-empty text yields one content
    chunk carrying that text as the assistant's delta, whose usage counts only
    that text.
   */
  lemma ContentFrameRule(decode: string -> Decoded, tokens: string -> nat, line: Line)
    requires line.text != "" && Payload(line) != "" && decode(Payload(line)).Object?
    requires var frame := decode(Payload(line)).frame;
      !Truthy(frame.stopReason) && Nonempty(frame.completion)
    ensures var text := decode(Payload(line)).frame.completion.value;
      var r := LineOutputs(decode, tokens, line);
      && r.Ok? && |r.value| == 1 && IsContent(r.value[0])
      && EnvelopeShape(r.value[0].chunk, tokens, line.at, text)
      && r.value[0].chunk.tag == "chat.completion.chunk"
      && r.value[0].chunk.choices[0].delta == Delta("assistant", text)
  {
    var frame := decode(Payload(line)).frame;
    ChatChunkShape(tokens, line.at, frame);
  }

  // ----- The shape of the relayed stream -----

  /**
    The relayed outputs form a sequence of content chunks and final chunks in
    which every final chunk is immediately followed by `"[DONE]"` and every
    `"[DONE]"` immediately follows a final chunk.
   */
  predicate WellFormed(outs: seq<Out>) {
    && (forall k :: 0 <= k < |outs| ==> IsContent(outs[k]) || IsFinal(outs[k]) || outs[k].Done?)
    && (forall k :: 0 <= k < |outs| && outs[k].Done? ==> k > 0 && IsFinal(outs[k - 1]))
    && (forall k :: 0 <= k < |outs| && IsFinal(outs[k]) ==> k + 1 < |outs| && outs[k + 1].Done?)
  }

  lemma WellFormedAppend(a: seq<Out>, b: seq<Out>)
    requires WellFormed(a) && WellFormed(b)
    ensures WellFormed(a + b)
  {
    var ab := a + b;
    forall k | 0 <= k < |ab| && ab[k].Done? ensures k > 0 && IsFinal(ab[k - 1]) {
      if k < |a| { assert ab[k] == a[k] && ab[k - 1] == a[k - 1]; }
      else { assert ab[k] == b[k - |a|]; assert ab[k - 1] == b[k - |a| - 1]; }
    }
    forall k | 0 <= k < |ab| && IsFinal(ab[k]) ensures k + 1 < |ab| && ab[k + 1].Done? {
      if k < |a| { assert ab[k] == a[k] && ab[k + 1] == a[k + 1]; }
      else { assert ab[k] == b[k - |a|]; assert ab[k + 1] == b[k + 1 - |a|]; }
    }
  }

  lemma WellFormedFinal(o: Out)
    requires IsFinal(o)
    ensures WellFormed([o, Done])
  {
    var outs := [o, Done];
    assert forall k :: 0 <= k < 2 ==> outs[k] == (if k == 0 then o else Done);
  }

  lemma WellFormedContent(o: Out)
    requires IsContent(o)
    ensures WellFormed([o])
  {
  }

  lemma LineOutputsWellFormed(decode: string -> Decoded, tokens: string -> nat, line: Line)
    requires LineOutputs(decode, tokens, line).Ok?
    ensures WellFormed(LineOutputs(decode, tokens, line).value)
  {
    var outs := LineOutputs(decode, tokens, line).value;
    if line.text != "" && Payload(line) != "" && decode(Payload(line)).Object? {
      var frame := decode(Payload(line)).frame;
      if Truthy(frame.stopReason) {
        StopFrameRule(decode, tokens, line);
        assert outs == [outs[0], Done];
        WellFormedFinal(outs[0]);
      } else if Nonempty(frame.completion) {
        ContentFrameRule(decode, tokens, line);
        assert outs == [outs[0]];
        WellFormedContent(outs[0]);
      } else {
        assert outs == [];
      }
    } else {
      assert outs == [];
    }
  }

  /** Whatever the lines, and however the relay ends, what it yielded is well formed. */
  lemma {:induction false} RelayWellFormed(decode: string -> Decoded, tokens: string -> nat, lines: seq<Line>)
    ensures WellFormed(Relay(decode, tokens, lines).outputs)
  {
    if lines != [] {
      var step := LineOutputs(decode, tokens, lines[0]);
      if step.Ok? {
        LineOutputsWellFormed(decode, tokens, lines[0]);
        RelayWellFormed(decode, tokens, lines[1..]);
        WellFormedAppend(step.value, Relay(decode, tokens, lines[1..]).outputs);
      }
    }
  }

  /** The relay fails at line `k`: the lines before it all went through and line `k` raised. */
  predicate FailsAt(decode: string -> Decoded, tokens: string -> nat, lines: seq<Line>, k: nat) {
    && k < |lines|
    && Relay(decode, tokens, lines[..k]).failure.None?
    && LineOutputs(decode, tokens, lines[k]).Err?
  }

  /** The index of the line whose exception ended a failed relay. */
  function FailingLine(decode: string -> Decoded, tokens: string -> nat, lines: seq<Line>): (k: nat)
    requires Relay(decode, tokens, lines).failure.Some?
    ensures k < |lines|
  {
    if LineOutputs(decode, tokens, lines[0]).Err? then 0 else 1 + FailingLine(decode, tokens, lines[1..])
  }

  lemma {:induction false} FailingLineFails(decode: string -> Decoded, tokens: string -> nat, lines: seq<Line>)
    requires Relay(decode, tokens, lines).failure.Some?
    ensures FailsAt(decode, tokens, lines, FailingLine(decode, tokens, lines))
  {
    assert lines[..0] == [];
    if LineOutputs(decode, tokens, lines[0]).Ok? {
      var rest := lines[1..];
      FailingLineFails(decode, tokens, rest);
      var k := FailingLine(decode, tokens, rest);
      assert lines[..k + 1] == [lines[0]] + rest[..k];
      assert rest[k] == lines[k + 1];
      RelaySingle(decode, tokens, lines[0]);
      RelayAppend(decode, tokens, [lines[0]], rest[..k]);
    }
  }

  /**
    A relay that fails has yielded exactly the outputs of the lines before the
    failing one, and the failure is that line's exception; nothing already
    yielded is taken back.
   */
  lemma RelayFailure(decode: string -> Decoded, tokens: string -> nat, lines: seq<Line>)
    requires Relay(decode, tokens, lines).failure.Some?
    ensures var k := FailingLine(decode, tokens, lines);
      && FailsAt(decode, tokens, lines, k)
      && Relay(decode, tokens, lines).outputs == Relay(decode, tokens, lines[..k]).outputs
      && Relay(decode, tokens, lines).failure == Some(LineOutputs(decode, tokens, lines[k]).error)
  {
    var k := FailingLine(decode, tokens, lines);
    FailingLineFails(decode, tokens, lines);
    RelayStep(decode, tokens, lines, k);
    RelayPrefixFailure(decode, tokens, lines, k + 1);
  }

  /**
    `"[DONE]"` does not end the relay: a content line after a stop line is
    still relayed, so a chunk can follow the marker.
   */
  lemma DoneDoesNotEndRelay(decode: string -> Decoded, tokens: string -> nat, stopLine: Line, textLine: Line)
    requires stopLine.text != "" && Payload(stopLine) != "" && decode(Payload(stopLine)).Object?
    requires var stop := decode(Payload(stopLine)).frame.stopReason;
      Truthy(stop) && FinishReason(stop).Ok?
    requires textLine.text != "" && Payload(textLine) != "" && decode(Payload(textLine)).Object?
    requires var frame := decode(Payload(textLine)).frame;
      !Truthy(frame.stopReason) && Nonempty(frame.completion)
    ensures var r := Relay(decode, tokens, [stopLine, textLine]);
      && r.failure.None? && |r.outputs| == 3
      && IsFinal(r.outputs[0]) && r.outputs[1] == Done && IsContent(r.outputs[2])
      && r.outputs[2].chunk.choices[0].delta.content == decode(Payload(textLine)).frame.completion.value
  {
    StopFrameRule(decode, tokens, stopLine);
    ContentFrameRule(decode, tokens, textLine);
    assert [stopLine, textLine] == [stopLine] + [textLine];
    RelaySingle(decode, tokens, stopLine);
    RelaySingle(decode, tokens, textLine);
    RelayAppend(decode, tokens, [stopLine], [textLine]);
  }
}
