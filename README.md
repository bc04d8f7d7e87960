# Claude-to-ChatGPT adapter, modelled in Dafny

`ClaudeAdapter` (claude_to_chatgpt/adapter.py) lets a client that speaks the
OpenAI chat-completion API talk to Anthropic's `/v1/complete` endpoint. It
translates in both directions:

- a chat request becomes a completion request: the model name goes through
  `model_map`, the messages fold into one `Human:`/`Assistant:` prompt, and the
  optional parameters are copied only when they are truthy;
- a completion becomes a chat-completion object, and each line of a streamed
  completion becomes zero, one or two stream outputs: a chunk, or a final chunk
  followed by `"[DONE]"`;
- the upstream API key is the second space-separated field of the
  `authorization` header, or the configured default.

The model keeps the code's form. The prompt loop, the in-place building of
the parameter dict and the line-by-line stream relay are methods with loops or
local state. The prompt loop and the stream relay are proved equal to
specification functions (`Request.Prompt`, `Stream.Relay`). The parameter
method's contract states each key of the dict it builds, in terms of the
request and of `Request.Prompt`. The response builders and `get_api_key` are
functions.

| file | module | models |
|---|---|---|
| `python.dfy` | `Python` | decoded JSON values and Python truthiness, the exceptions that escape, `d[k]`, `str.lstrip`, `str.split(" ")`, `str.capitalize` |
| `tables.dfy` | `Tables` | `role_map`, `stop_reason_map` |
| `request.dfy` | `Request` | `convert_messages_to_prompt`, `openai_to_claude_params` |
| `response.dfy` | `Response` | `claude_to_chatgpt_response`, `claude_to_chatgpt_response_stream` |
| `stream.dfy` | `Stream` | the line loop of `chat` for streamed responses |
| `apikey.dfy` | `ApiKey` | `get_api_key` |

Collaborators the code calls but does not define are parameters of the model:
- `tokens: string -> nat` stands for `num_tokens_from_string`.
- `decode: string -> Decoded` stands for `json.loads`. It returns `Malformed`, `NotAnObject` or `Object(frame)`.
- `modelMap` stands for `model_map`.
- `Stamp` stands for the two readings of `time.time()` each builder takes: the text put in `id` (`str(time.time())`) and the seconds put in `created` (`int(time.time())`). They are separate calls, so nothing ties one to the other. Each stream line carries the readings taken when it is handled.
- `defaultKey` stands for the `CLAUDE_API_KEY` environment variable.

A key that a request body leaves out is `VNull`, which is what `dict.get` returns for it.

## Quirks of the code that the model keeps

- The relay does not stop after `"[DONE]"`: the loop at adapter.py:166-196 has no `break`. `Stream.DoneDoesNotEndRelay` shows a chunk following the marker.
- `line.lstrip("data:")` removes any leading run of the characters `d`, `a`, `t` and `:`. It is not limited to a literal `data:` prefix (`Stream.StripIsNotPrefixRemoval`).
- `stop` is copied to `stop_sequences` only when it is truthy, so a present but empty `stop` (`""`, `[]`) is dropped (adapter.py:59-60).
- The authorization header is split with `split(" ")`, on every single space, unlike `split()` with no argument. So `"Bearer  k"` yields the empty key (`ApiKey.DoubleSpaceYieldsEmptyKey`), and a header without a space raises an IndexError.
- An empty message list is accepted. Its prompt is the cue alone.

## Model

| member | source | states |
|---|---|---|
| `Python.Lookup` | claude_to_chatgpt/adapter.py:39 | a dict lookup succeeds exactly for a present string key and returns its value; otherwise it raises a KeyError, or a TypeError for an unhashable key; it is the one definition of `d[k]` behind both `role_map[role]` and `stop_reason_map[...]` (adapter.py:90, 120) |
| `Python.LStripRemovesLongestRun` | claude_to_chatgpt/adapter.py:168 | `lstrip` leaves a suffix of its input that does not start with a stripped character; everything it removed is a stripped character |
| `Python.Split` | claude_to_chatgpt/adapter.py:30 | `split(" ")` always yields at least one field, no field contains a space, and joining the fields with single spaces gives back the input |
| `Python.SplitJoin` | claude_to_chatgpt/adapter.py:30 | splitting the joined separator-free fields gives back the fields (`split` inverts `join`; `Split`'s own contract gives the other direction) |
| `Python.SplitFieldCount` | claude_to_chatgpt/adapter.py:30 | `split(" ")` yields one field more than the number of spaces |
| `Python.CapitalizeFixed` | claude_to_chatgpt/adapter.py:40 | `capitalize()` leaves unchanged a word that starts with a non-lower-case letter and has no other capitals |
| `Tables.SpeakerNamesAreCapitalized` | claude_to_chatgpt/adapter.py:10-14 | every speaker name in `role_map` is `Human` or `Assistant`, and `capitalize()` leaves it unchanged |
| `Request.SpeakerTable` | claude_to_chatgpt/adapter.py:39-40 | only `system`, `user` and `assistant` have a speaker name; `assistant` is rendered `Assistant` and the other two `Human`; any other role raises a KeyError naming that role |
| `Request.TranscriptAppend` | claude_to_chatgpt/adapter.py:36-40 | the fold is order-preserving: the turns of a concatenation are the turns of the first part followed by those of the second, and the first error wins |
| `Request.ConvertMessagesToPrompt` | claude_to_chatgpt/adapter.py:34-42 | the accumulator loop returns exactly the prompt the fold specifies, or the KeyError of the first unknown role |
| `Request.PromptEndsWithCue` | claude_to_chatgpt/adapter.py:41 | every prompt ends with `"\n\nAssistant: "`; the prompt of no messages is exactly that cue |
| `Request.PromptSucceedsIffRolesKnown` | claude_to_chatgpt/adapter.py:36-39 | folding succeeds if and only if every message's role is in `role_map` |
| `Request.PromptFailsAtFirstUnknownRole` | claude_to_chatgpt/adapter.py:36-39 | folding fails with the KeyError of the first message whose role is unknown, and produces no prompt |
| `Request.PromptTurnsInOrder` | claude_to_chatgpt/adapter.py:36-41 | each message contributes the one turn `"\n\n" + Speaker + ": " + content`, after the turns of the earlier messages and before those of the later ones |
| `Request.SystemAndUserAreHuman` | claude_to_chatgpt/adapter.py:10-12 | `system` and `user` both render as `Human` and give the same prompt |
| `Request.OpenAiToClaudeParams` | claude_to_chatgpt/adapter.py:44-68 | the parameter dict has exactly `model`, `prompt` and `max_tokens_to_sample`, plus `stop_sequences`, `temperature` and `stream` each exactly when its input is truthy; `model` is `model_map[model]` or the input unchanged; `max_tokens_to_sample` is `max_tokens` when truthy and 100000 otherwise; `stream` is `True`; an unknown role fails the whole translation |
| `Response.FinishReasonTable` | claude_to_chatgpt/adapter.py:16-19 | about `Response.FinishReason`, the finish-reason expression of adapter.py:90-92 and 120-122: a falsy stop reason gives `None`; `stop_sequence` gives `stop` and `max_tokens` gives `length`, and only they do; any other truthy stop reason fails with the lookup's error |
| `Response.ToChatResponse` | claude_to_chatgpt/adapter.py:99-127 | building the response fails exactly when the finish-reason lookup fails, and with its error |
| `Response.ChatResponseShape` | claude_to_chatgpt/adapter.py:103-125 | the response has the id `chatcmpl-` followed by the first clock reading, the second reading's seconds as `created`, tag `chat.completion`, model `gpt-3.5-turbo-0613`, zero prompt tokens, total equal to the completion tokens of the text, and one choice at index 0 whose assistant message is the completion (or `""`) with the mapped finish reason |
| `Response.ToChatChunk` | claude_to_chatgpt/adapter.py:70-97 | building a chunk fails exactly when the finish-reason lookup fails, and with its error |
| `Response.ChatChunkShape` | claude_to_chatgpt/adapter.py:71-95 | the chunk has the same envelope with tag `chat.completion.chunk`, and its single choice carries the completion as a `delta` |
| `Response.ResponseAndChunkAgree` | claude_to_chatgpt/adapter.py:70-127 | the two builders fail alike and differ only in the tag and in holding a `message` rather than a `delta` |
| `Stream.RelayAppend` | claude_to_chatgpt/adapter.py:166-196 | outputs come in line order: relaying a concatenation relays the first part and, unless it raised, continues with the second |
| `Stream.HandleLine` | claude_to_chatgpt/adapter.py:167-196 | the loop body yields exactly the outputs of the per-line rule `Stream.LineOutputs`, or raises its exception with nothing yielded |
| `Stream.RelayLines` | claude_to_chatgpt/adapter.py:166-196 | the loop yields exactly what the relay specifies, and stops only at an uncaught exception |
| `Stream.StripDropsAnyRunOfDataChars` | claude_to_chatgpt/adapter.py:168 | any leading run of `d`, `a`, `t` and `:`, in any order, is stripped |
| `Stream.DataPrefixStripped` | claude_to_chatgpt/adapter.py:168 | a `data:` line whose payload does not start with one of those characters keeps its payload intact |
| `Stream.StripIsNotPrefixRemoval` | claude_to_chatgpt/adapter.py:168 | `data:data` and `tad:` strip just like `data:`, so more than the literal prefix can be removed |
| `Stream.SilentLine` | claude_to_chatgpt/adapter.py:167-190 | about `Stream.LineOutputs`: a line yields nothing and raises nothing exactly when it is blank, strips to nothing, fails to decode, or is a frame without a truthy stop reason or text |
| `Stream.LineFailure` | claude_to_chatgpt/adapter.py:171-190 | about `Stream.LineOutputs`: a line raises exactly when it decodes to a non-dict (an AttributeError), or carries a truthy stop reason outside the table (the lookup's error); only the decoding error is caught |
| `Stream.StopFrameRule` | claude_to_chatgpt/adapter.py:172-180 | a frame with a truthy, mapped stop reason yields a chunk with empty content, the mapped finish reason and the token count of `""`, immediately followed by `"[DONE]"` |
| `Stream.ContentFrameRule` | claude_to_chatgpt/adapter.py:181-189 | a frame without a truthy stop reason but with text yields one chunk whose delta is `{assistant, text}`, with no finish reason and usage counting only that text |
| `Stream.RelayWellFormed` | claude_to_chatgpt/adapter.py:166-196 | every relayed sequence is made of content chunks and final chunks in which each final chunk is immediately followed by `"[DONE]"` and each `"[DONE]"` immediately follows a final chunk |
| `Stream.RelayPrefixFailure` | claude_to_chatgpt/adapter.py:166-196 | once the lines handled so far have raised, the remaining lines yield nothing and change nothing |
| `Stream.RelayFailure` | claude_to_chatgpt/adapter.py:166-196 | a relay that raises has yielded exactly the outputs of the lines before the failing line, and the exception is that line's |
| `Stream.DoneDoesNotEndRelay` | claude_to_chatgpt/adapter.py:180 | after `"[DONE]"` the loop carries on: a text line after a stop line still yields its chunk |
| `ApiKey.GetApiKey` | claude_to_chatgpt/adapter.py:27-32 | an absent or empty header yields the default key; a non-empty header without a space raises an IndexError; otherwise the key contains no space |
| `ApiKey.KeyIsSecondField` | claude_to_chatgpt/adapter.py:30 | the key is the field after the first space: the header is `scheme + " " + key + rest` with no space in `scheme` and `rest` empty or starting with a space |
| `ApiKey.BearerHeaderYieldsKey` | claude_to_chatgpt/adapter.py:30 | conversely, for any headers, an authorization header of that form yields exactly that key |
| `ApiKey.DoubleSpaceYieldsEmptyKey` | claude_to_chatgpt/adapter.py:30 | `"Bearer  k"` yields the empty key, because the split is on single spaces |

## Left out

- The HTTP side of `chat` is network I/O and is not modelled (adapter.py:129-165). This covers the httpx client, the FastAPI request, the `async with` scopes and the async generator. It also covers the check of `stream` that picks the streaming call, the upstream headers (including `anthropic-version`) and raising on an upstream error status.
- `time.time()` is a clock. The pair of readings a builder takes is a `Stamp` parameter with independent parts, so `id` and `created` are stated only in terms of those readings.
- `num_tokens_from_string` is not part of this model. It is the uninterpreted parameter `tokens`, and nothing is assumed about it, not even that `""` has zero tokens.
- `json.loads` is not modelled as a parser. Each stripped line's decoding is given by the parameter `decode`.
- The contents of `model_map` are not part of this model. It is an arbitrary finite map.
- `os.getenv` and `logger.debug` are environment access and logging. The default key is a parameter and the log calls have no effect.
- `temperature` is copied, never computed with. A JSON float is a Dafny `real`, so NaN and infinities (which Python treats as truthy) are not represented.
- `Request.ChatRequest`: a request body is typed with a string `model`, and each message has a string `role` and `content`. So the KeyError for a missing `model`, `messages`, `role` or `content`, and `str()` of non-string content, are not modelled.
- `Response.ClaudeResponse`: `completion` is a string or absent. A present but non-string `completion` value, `null` included, is not modelled, because its effect depends on the tokenizer.
- `Python.Capitalize` covers ASCII only. It is applied only to the two speaker names of `role_map`.
- `ApiKey.GetApiKey`: headers are a map from lower-cased names to values. It does not model the case-insensitive multi-valued header object of the web framework.
