# Santa voice-agent relay, modelled in Dafny

This project models the core of a small relay between a voice-call
platform and a chat model playing Santa Claus. For each call, the platform
opens a websocket to the relay and sends it a stream of JSON messages:
`call_details`, `ping_pong`, `update_only`, `response_required` and
`reminder_required`. For a response cycle, the relay turns the call's
transcript into a chat prompt, streams the model's answer and forwards it
as a sequence of response events. Each event carries a `response_id`, a
text fragment, a `content_complete` flag and an `end_call` flag. A webhook
endpoint receives the platform's call lifecycle events.

There are four persona clients, and each has its own module:

- `FuncCallingLlm` (app/llm_with_func_calling.py) has a random opening line
  and three tools. Its stream reducer forwards text, latches at most one tool
  call, and accumulates the tool's JSON arguments. When an advertised tool's
  arguments decode to an object with a `message`, that message becomes the
  turn's single complete event. Only `end_magical_chat` ends the phone call.
  An unknown tool name ends the turn with no event.
- `PersonalLlm` (app/llm.py) is a class that keeps the call's dynamic
  variables and the opening line it spoke. It greets the child by name and
  puts a personalised context into the system message.
- `MultiChildLlm` (app/llm2.py) is a class that also keeps the children
  decoded from the `children` variable. It greets all children in one
  English list with a serial comma, and gives the model one detail block per
  child.
- `ClaudeLlm` (app/claude_with_func_calling.py) converts the transcript for
  a model that needs alternating roles. It starts from a fixed user
  preamble, merges consecutive user turns, and replaces blank user turns
  with "...".

`Protocol` holds the shared data: utterances, chat messages, response
events, streamed chunks, and `Generation`, which is what a `draft_response`
generator yields and whether it then raises. It also holds the plain-text
stream reducer shared by app/llm.py and app/llm2.py, whose loops are
identical. `Server` (app/server.py) holds the per-call websocket handler as
a class `CallSession`, its forwarding loop with the supersession rule, and
the webhook endpoint.

The stream reducers, the transcript conversions and the context builders
are proved against reference functions. The state-changing operations
(`SetMetadata`, `DraftBeginMessage`, `CallSession.HandleMessage`) and the
webhook state their result and the new state directly. The lemmas state
what the personas promise:

- Every turn is well formed. All events carry the request's id, only the
  last event can be complete, and only `end_magical_chat` ends the call.
- A stream without tool calls ends like a plain turn: every non-empty text,
  then the empty complete event. Unlike the plain personas, the
  function-calling persona drops empty texts and skips chunks without
  choices instead of raising.
- Forwarded text and arguments grow in stream order.
- The Anthropic conversion never produces two user messages in a row or a
  blank user message. It keeps every agent turn, and it merges a user turn
  into the previous user message as the earlier text, a space, then the new
  text.
- The children greeting is an English list.
- The forwarded prefix of a superseded cycle is unique.

Where the code and its prose description differ, the model follows the
code:

- Every `call_details` message sends (and records) an opening line again.
- The shared `response_id` is plainly assigned from each new request, not
  kept as a maximum.
- A latched tool whose name is not advertised ends the turn with no final
  event.
- `call_details_received` is set but never read.

## Model

| member | source | states |
|---|---|---|
| Protocol.ToModelMessage | app/llm.py:128-135 | an utterance becomes a message with the same text; the role is assistant exactly for "agent", user for every other role |
| Protocol.FirstChoiceless | app/llm.py:174-175 | the index where `chunk.choices[0]` first fails: every earlier chunk has a choice and the chunk there has none |
| Protocol.AssemblePrompt | app/llm.py:149-165 | the prompt is the system message, then the converted messages in order, then the nudge exactly on `reminder_required`; its length is counted exactly |
| Protocol.StreamText | app/llm.py:174-190 | the plain `draft_response` loop yields exactly `PlainTurn`: one non-final event per fragment that is not None, up to the first chunk without choices (then it raises), else a closing empty complete event |
| Protocol.PlainTurnShape | app/llm.py:167-190 | every plain turn carries the request id and never ends the call; it raises iff some chunk has no choice; a finished turn ends with exactly one complete event, the empty one; a raised turn has none |
| FuncCallingLlm.DraftBeginMessage | app/llm_with_func_calling.py:46-53 | the opening event has id 0, is complete, does not end the call, and its text is one of the four greetings (the `random.choice` at line 20) |
| FuncCallingLlm.ConvertTranscript | app/llm_with_func_calling.py:55-62 | one message per utterance, in order, with the same text; assistant iff "agent" |
| FuncCallingLlm.PreparePrompt | app/llm_with_func_calling.py:64-111 | the system prompt first, then the transcript in order, then the nudge exactly on `reminder_required`; no later message is a system message |
| FuncCallingLlm.NextStart | app/llm_with_func_calling.py:193-197 | the first chunk at or after a position whose first tool fragment has a truthy id; none in between starts a call |
| FuncCallingLlm.Cutoff | app/llm_with_func_calling.py:195-197 | the stream is consumed up to the second call-starting chunk (the `break`), or to its end; no call starts between the latching chunk and the cut-off |
| FuncCallingLlm.StartingChunk | app/llm_with_func_calling.py:195-202 | a call-starting chunk that is read either latches the call (none latched before) or is where reading stops |
| FuncCallingLlm.ReadChunk | app/llm_with_func_calling.py:191-213 | one pass of the loop body: it stops exactly on a call start while a call is latched, and otherwise latches the name (`or ""`), appends the argument fragment of a tool fragment without id, and forwards a truthy text |
| FuncCallingLlm.ReadStream | app/llm_with_func_calling.py:190-213 | the loop latches the first call's name, accumulates the arguments of every consumed chunk in order, and forwards one non-final event per truthy text of the consumed chunks |
| FuncCallingLlm.TextEventsCarryFragments | app/llm_with_func_calling.py:206-213 | the events forwarded chunk by chunk are exactly the non-final events of the forwarded texts, in order |
| FuncCallingLlm.Settle | app/llm_with_func_calling.py:215-239 | without a call: the empty complete event; with one: at most one complete event, which only an advertised tool yields and which ends the call iff the tool is `end_magical_chat`; it raises iff the arguments do not decode or an advertised tool lacks `message`, and a settlement that raises yields no event; an advertised tool whose arguments decode with a `message` yields exactly one complete event carrying that message, with `end_call` set iff the tool is `end_magical_chat`, and does not raise; an unknown tool whose arguments decode yields no event and does not raise |
| FuncCallingLlm.DraftResponse | app/llm_with_func_calling.py:178-239 | `draft_response` yields exactly `ToolTurn`: the forwarded texts of the consumed chunks, then the settlement of the latched call |
| FuncCallingLlm.ToolTurnShape | app/llm_with_func_calling.py:178-239 | every tool turn carries the request id; every event but the last is non-final and does not end the call; an event ends the call only when `end_magical_chat` was latched; with no call the turn closes normally with the empty complete event; a turn that raises has no complete event; when an advertised tool is latched and the consumed arguments decode with a `message`, the turn does not raise and ends with the complete event carrying that message, ending the call iff the tool is `end_magical_chat` |
| FuncCallingLlm.ArgumentTextGrows | app/llm_with_func_calling.py:203-204 | `func_arguments` only grows: the arguments read from a shorter prefix of the stream begin those read from a longer one |
| FuncCallingLlm.TextFragmentsGrow | app/llm_with_func_calling.py:206-213 | the texts forwarded from a shorter prefix of the stream are a prefix of those forwarded from a longer one |
| FuncCallingLlm.NoToolCallsGivesPlainTurn | app/llm_with_func_calling.py:233-239 | a stream without tool fragments yields every truthy text and then the empty complete event, and does not raise |
| FuncCallingLlm.GoodbyeEndsTheCall | app/llm_with_func_calling.py:215-224 | an `end_magical_chat` call whose arguments arrive in two fragments that decode to a goodbye ends the turn with that goodbye as the single complete event, which ends the call |
| PersonalLlm.ContextEmptyIffNoMetadata | app/llm.py:139-147 | the personalised context is empty iff the metadata is falsy; otherwise it opens with the "You're speaking with" line |
| PersonalLlm.LlmClient.constructor | app/llm.py:73-80 | a new client has no metadata and an empty history |
| PersonalLlm.LlmClient.SetMetadata | app/llm.py:82-86 | the dynamic variables replace the metadata iff they are present and non-empty; the history is untouched |
| PersonalLlm.LlmClient.DraftBeginMessage | app/llm.py:88-120 | the opening event has id 0 and is complete; its text is the fallback line without metadata, else the line naming `contact_child_name` (default ""); exactly that line is appended to the history, on every call |
| PersonalLlm.LlmClient.ConvertTranscript | app/llm.py:122-136 | a copy of the history followed by one message per utterance, in order |
| PersonalLlm.LlmClient.PersonalizedContext | app/llm.py:139-147 | the context is empty iff the metadata is falsy |
| PersonalLlm.LlmClient.PreparePrompt | app/llm.py:138-165 | the system message carries the persona text and the personalised context; then the history, then the transcript in order, then the nudge exactly on `reminder_required` |
| PersonalLlm.LlmClient.DraftResponse | app/llm.py:167-190 | the turn is exactly `PlainTurn` of the stream |
| MultiChildLlm.JoinInterleaves | app/llm2.py:98-99 | `sep.join(xs)` is the items interleaved with copies of the separator |
| MultiChildLlm.ChildrenGreeting | app/llm2.py:95-101 | the greeting of the names lists every name once, in order, with the English list separators (`ListSeparators`): "A", "A and B", "A, B, and C"; no names give "" |
| MultiChildLlm.ChildNames | app/llm2.py:93 | the names are read iff every child has one; then there is one per child, in order |
| MultiChildLlm.DetailBlocks | app/llm2.py:140-149 | the blocks are built iff every child has all six fields; then there is one block per child, in order, each naming the parent |
| MultiChildLlm.Context | app/llm2.py:138-155 | the context raises iff there are children and either no metadata or a child lacking a field; without children it is empty |
| MultiChildLlm.LlmClient.constructor | app/llm2.py:72-79 | a new client has no metadata, no history and no children |
| MultiChildLlm.LlmClient.SetMetadata | app/llm2.py:81-88 | truthy dynamic variables replace the metadata; a non-empty `children` text is decoded into the children; it raises iff that decoding fails, after the metadata was stored |
| MultiChildLlm.LlmClient.DraftBeginMessage | app/llm2.py:90-118 | it raises iff some child has no name, and then the history is unchanged; otherwise the opening event welcomes the English list of names and exactly that line is appended to the history |
| MultiChildLlm.LlmClient.ConvertTranscript | app/llm2.py:120-134 | a copy of the history followed by one message per utterance, in order |
| MultiChildLlm.LlmClient.PersonalizedContext | app/llm2.py:138-155 | the loop builds exactly the reference `Context`: one detail block per child in order, or the failure |
| MultiChildLlm.LlmClient.PreparePrompt | app/llm2.py:136-174 | it raises iff the context raises; otherwise it gives the system message with the context, then the history, then the transcript in order, then the nudge exactly on `reminder_required` |
| MultiChildLlm.LlmClient.DraftResponse | app/llm2.py:176-198 | a failing prompt raises before any event; otherwise the turn is exactly `PlainTurn` of the stream |
| ClaudeLlm.DraftBeginMessage | app/claude_with_func_calling.py:119-126 | the opening event has id 0, is complete and carries the fixed line |
| ClaudeLlm.ConvertTranscript | app/claude_with_func_calling.py:128-150 | the conversion loop computes exactly `Reconciled`: the preamble, then each utterance added (assistant appended; non-blank user text merged into a trailing user message or appended; blank user text as "...") |
| ClaudeLlm.AddUtteranceEffect | app/claude_with_func_calling.py:135-148 | what one pass of the loop (`AddUtterance`) does: an agent turn is appended as an assistant message; a user turn is merged into a trailing user message (the length is kept) or appended, and its text, or "..." when blank, ends the last message, which is user and not blank; every earlier message is kept |
| ClaudeLlm.UserTurnMergesWithSpace | app/claude_with_func_calling.py:139-148 | the exact new state for a user turn: after a user message, that message becomes the earlier text, a space, then the new text (or "..." when blank), and every other message is unchanged; otherwise the text is appended as a new user message |
| ClaudeLlm.AddUtteranceKeepsShape | app/claude_with_func_calling.py:135-148 | adding one utterance keeps the shape: it starts with the preamble user message, has no system message, no two user messages in a row and no blank user message |
| ClaudeLlm.ReconciledWellFormed | app/claude_with_func_calling.py:128-150 | every conversion has that shape |
| ClaudeLlm.AgentTurnsPreserved | app/claude_with_func_calling.py:136-137 | the assistant messages are exactly the agent's utterances, one for one, in order |
| ClaudeLlm.AlternatingTranscriptPassesThrough | app/claude_with_func_calling.py:128-150 | a transcript that opens with the agent, alternates and has no blank user turn comes through one for one after the preamble |
| Server.Forward | app/server.py:165-168 | the forwarded events are a prefix of the generator's events; it stops early only right after a send that saw a newer `response_id` |
| Server.ForwardedPrefixIsUnique | app/server.py:165-168 | one event stream and one interleaving admit exactly one forwarded prefix |
| Server.ForwardingStopsAtSupersession | app/server.py:165-168 | an unsuperseded cycle forwards everything; nothing after the send that saw a newer id is forwarded |
| Server.CallSession.Open | app/server.py:110-125 | a new session has a fresh persona client, has sent only the config message, and has `response_id` 0 |
| Server.CallSession.HandleMessage | app/server.py:127-168 | `call_details` stores the metadata and sends and records an opening line (every time); `ping_pong` echoes the timestamp; `update_only` and unknown types change nothing; a response cycle records the request's id and sends a forwarded prefix of the persona's turn (nothing for an empty transcript) |
| Server.CallSession.Serve | app/server.py:170-171 | the log of sent messages only grows; `response_id` ends as the id of the last response cycle requested; the flag is set iff some message was `call_details` |
| Server.HandleWebhook | app/server.py:71-101 | as written: 401 iff the signature is invalid and the keys read for the log exist; 200 iff validly signed with an event that is not `call_analyzed` and whose required keys exist; 500 otherwise |
| Server.CallAnalyzedIsNeverAcknowledged | app/server.py:91-93 | a validly signed `call_analyzed` event with any call id gets 500 |
| Server.HandleWebhookIntended | app/server.py:91-97 | corrected: a validly signed `call_analyzed` event with a call id is acknowledged iff the notifier succeeds, and one without a call id gets 500; every other request (a body that is not JSON, a bad signature, any other event) is handled as written |

## Left out

- Network I/O is a parameter. The chat-model stream is a `seq<Chunk>`, the
  websocket output is the log `sent`, and the HTTP replies are a datatype.
- Concurrency: each inbound message runs in its own task in the source. The
  model handles messages in order. The effect of the other tasks on a
  forwarding loop is the input `observed`, which is the shared `response_id`
  seen after each send.
- JSON decoding is a parameter. Tool arguments are decoded by `parse`, and
  the `children` text by `parseChildren`. A decoded value that is not an
  object or a list, or a field that is not text, is not modelled.
- A child record is a datatype with six optional text fields. `str()` of a
  non-text field is not modelled.
- Prompt texts, greetings, nudges and persona wording are opaque
  placeholder constants. Only their position in a prompt is modelled.
- The `random.choice` of the opening line is a parameter `choice`.
- Model names, temperatures and the tool schemas of `prepare_functions` are
  not modelled. Only the three tool names are kept.
- An inbound message's missing keys (a `KeyError` in the handler) are not
  modelled. Every `InboundMessage` carries all fields.
- The notifier `send_call_analyzed_webhook` and its outbound HTTP request
  are not modelled. Its outcome is the parameter `notifierSucceeded` of the
  corrected webhook.
- The handler's `finally` block, which retrieves the call and runs the
  notifier when the socket closes, is not modelled. Neither are the logging
  prints or the socket's close codes.
- Signature verification is the boolean `validSignature`.
- A streamed tool fragment always has its `function` part in the model
  (`ToolCallDelta.fn`). The `AttributeError` raised when it is None (reading
  `function.name` or `function.arguments`) is not modelled.
- The Anthropic persona's `draft_response` and `prepare_prompt` are not
  part of this model, because app/claude_with_func_calling.py does not
  contain them.
- `Server.CallSession.HandleMessage` does not model the `IndexError` on an
  empty transcript beyond its outcome. For an empty transcript it sends
  nothing and keeps the new id.
- `Server.CallSession.Serve` states the send log's growth, the final
  `response_id` and the flag, not the whole message-by-message log.

## Findings

| source | as written | input that shows it | evidently intended | confidence | as-written member | corrected member |
|---|---|---|---|---|---|---|
| app/server.py:25-33 | the notifier reads `call_data.recording_url` as an attribute, but `handle_webhook` passes it the decoded JSON object (a dict), so the read raises, and the raise becomes HTTP 500 | a validly signed `{"event": "call_analyzed", "data": {"call_id": "call_1"}}` | acknowledge the event with 200 once the notification has run | not executed | Server.CallAnalyzedIsNeverAcknowledged | Server.HandleWebhookIntended |
