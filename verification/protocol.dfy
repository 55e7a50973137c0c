/** The data exchanged by the relay: the platform's transcript, the message
    list handed to a chat model, the response events sent back over the
    call's websocket, and the chunks of a streamed chat completion.
    Also the plain-text stream reducer shared by the two OpenAI persona
    clients, whose `draft_response` loops are identical. */
module Protocol {

  datatype Option<+T> = None | Some(value: T)

  /** One turn of the platform's transcript; `role` is the platform's own
      string ("agent" or "user"). */
  datatype Utterance = Utterance(role: string, content: string)

  /** Role of a message in the list given to the chat model. */
  datatype Role = System | Assistant | User

  datatype Message = Message(role: Role, content: string)

  /** `ResponseResponse`: one outgoing fragment of a turn. */
  datatype ResponseEvent = ResponseEvent(responseId: int, content: string, contentComplete: bool, endCall: bool)

  /** `ResponseRequiredRequest`: the unit of work for one response cycle. */
  datatype ResponseRequiredRequest = ResponseRequiredRequest(interactionType: string, responseId: int, transcript: seq<Utterance>)

  const ReminderRequired: string := "reminder_required"

  /** A streamed chat-completion chunk: `choices`, each with a `delta`
      holding optional text and a list of tool-call fragments. */
  datatype FunctionDelta = FunctionDelta(name: Option<string>, arguments: Option<string>)
  datatype ToolCallDelta = ToolCallDelta(id: Option<string>, fn: FunctionDelta)
  datatype Delta = Delta(toolCalls: seq<ToolCallDelta>, content: Option<string>)
  datatype Chunk = Chunk(choices: seq<Delta>)

  /** What a `draft_response` generator yields before it is exhausted:
      its events in order, and whether it then raised instead of
      finishing normally. */
  datatype Generation = Generation(events: seq<ResponseEvent>, raised: bool)

  /** Python truthiness of an optional string: present and non-empty. */
  predicate Truthy(s: Option<string>) {
    s.Some? && s.value != ""
  }

  /** The call's `retell_llm_dynamic_variables`: string keys to string values. */
  type Metadata = map<string, string>

  /** Python truthiness of an optional dictionary. */
  predicate IsTruthy(m: Option<Metadata>) {
    m.Some? && |m.value| > 0
  }

  /** Label joining a persona's text and its personalised context. */
  const ContextLabel: string := "\n\nPersonalized Context:"

  /** The system message of a persona that personalises its prompt: the
      persona text, the label, then the context. */
  function PersonalizedSystemPrompt(agentPrompt: string, context: string): string {
    agentPrompt + ContextLabel + context
  }

  /** `x or ""` on an optional string. */
  function OrEmpty(s: Option<string>): string {
    if s.Some? then s.value else ""
  }

  /** The opening event every persona returns: id 0, complete, not ending the call. */
  predicate IsOpening(e: ResponseEvent) {
    e.responseId == 0 && e.contentComplete && !e.endCall
  }

  /** One utterance as a chat message: the platform's "agent" speaks as the
      assistant, every other role as the user; the text is kept. */
  function ToModelMessage(u: Utterance): (m: Message)
    ensures m.content == u.content
    ensures m.role == Assistant <==> u.role == "agent"
    ensures m.role == User <==> u.role != "agent"
  {
    Message(if u.role == "agent" then Assistant else User, u.content)
  }

  /** Text fragments streamed to the platform while a turn is in progress. */
  function ContentEvents(responseId: int, fragments: seq<string>): seq<ResponseEvent> {
    seq(|fragments|, i requires 0 <= i < |fragments| => ResponseEvent(responseId, fragments[i], false, false))
  }

  /** Events of consecutive fragments are consecutive events. */
  lemma ContentEventsAppend(responseId: int, a: seq<string>, b: seq<string>)
    ensures ContentEvents(responseId, a + b) == ContentEvents(responseId, a) + ContentEvents(responseId, b)
  {
    var lhs, rhs := ContentEvents(responseId, a + b), ContentEvents(responseId, a) + ContentEvents(responseId, b);
    assert |lhs| == |rhs|;
    forall k | 0 <= k < |lhs|
      ensures lhs[k] == rhs[k]
    {
      if k >= |a| {
        assert (a + b)[k] == b[k - |a|];
      }
    }
  }

  /** The tail of `prepare_prompt` shared by the OpenAI personas: the system
      message, every converted message in order, and the persona's nudge as a
      final user message exactly when the request is a reminder. */
  method AssemblePrompt(systemPrompt: string, transcriptMessages: seq<Message>, interactionType: string, nudge: string)
    returns (prompt: seq<Message>)
    ensures |prompt| == 1 + |transcriptMessages| + (if interactionType == ReminderRequired then 1 else 0)
    ensures prompt[0] == Message(System, systemPrompt)
    ensures forall k :: 0 <= k < |transcriptMessages| ==> prompt[1 + k] == transcriptMessages[k]
    ensures interactionType == ReminderRequired ==> prompt[|prompt| - 1] == Message(User, nudge)
  {
    prompt := [Message(System, systemPrompt)];
    for i := 0 to |transcriptMessages|
      invariant |prompt| == 1 + i
      invariant prompt[0] == Message(System, systemPrompt)
      invariant forall k :: 0 <= k < i ==> prompt[1 + k] == transcriptMessages[k]
    {
      prompt := prompt + [transcriptMessages[i]];
    }
    if interactionType == ReminderRequired {
      prompt := prompt + [Message(User, nudge)];
    }
  }

  /** The empty, complete event that closes an ordinary turn. */
  function EndOfTurn(responseId: int): ResponseEvent {
    ResponseEvent(responseId, "", true, false)
  }

  /** True when every event belongs to `responseId`, none ends the call, and
      a complete event can only be the last one. */
  predicate IsPartialTurn(events: seq<ResponseEvent>, responseId: int) {
    && (forall i :: 0 <= i < |events| ==> events[i].responseId == responseId && !events[i].endCall)
    && (forall i :: 0 <= i < |events| - 1 ==> !events[i].contentComplete)
  }

  // ---------------------------------------------------------------------
  // Plain-text stream reducer (no tools)
  // ---------------------------------------------------------------------

  predicate HasChoice(c: Chunk) {
    |c.choices| > 0
  }

  /** Index of the first chunk without choices, where `chunk.choices[0]`
      raises IndexError; `|cs|` when every chunk has a choice. */
  function FirstChoiceless(cs: seq<Chunk>): (r: nat)
    ensures r <= |cs|
    ensures forall j :: 0 <= j < r ==> HasChoice(cs[j])
    ensures r < |cs| ==> !HasChoice(cs[r])
  {
    if cs == [] then 0
    else if !HasChoice(cs[0]) then 0
    else 1 + FirstChoiceless(cs[1..])
  }

  /** The fragment a chunk contributes when its content `is not None`
      (the empty string included). */
  function PresentText(c: Chunk): seq<string> {
    if HasChoice(c) && c.choices[0].content.Some? then [c.choices[0].content.value] else []
  }

  /** All present fragments of a stream, in stream order. */
  function PresentTexts(cs: seq<Chunk>): seq<string> {
    if cs == [] then [] else PresentTexts(cs[..|cs| - 1]) + PresentText(cs[|cs| - 1])
  }

  /** Reference meaning of `draft_response` in the two plain personas: one
      non-final event per present fragment up to the first chunk without
      choices; then, if no such chunk exists, the closing empty complete
      event, otherwise the IndexError. */
  function PlainTurn(responseId: int, chunks: seq<Chunk>): Generation {
    var stop := FirstChoiceless(chunks);
    var body := ContentEvents(responseId, PresentTexts(chunks[..stop]));
    if stop < |chunks| then Generation(body, true) else Generation(body + [EndOfTurn(responseId)], false)
  }

  /** Every plain turn is well formed: all of its events carry the request's
      id and none ends the call; a turn that finishes normally ends with
      exactly one complete event, the empty one, and a turn that raised has
      none. */
  lemma PlainTurnShape(responseId: int, chunks: seq<Chunk>)
    ensures var g := PlainTurn(responseId, chunks);
      && IsPartialTurn(g.events, responseId)
      && (g.raised <==> exists j :: 0 <= j < |chunks| && !HasChoice(chunks[j]))
      && (!g.raised ==> |g.events| > 0 && g.events[|g.events| - 1] == EndOfTurn(responseId))
      && (g.raised ==> forall i :: 0 <= i < |g.events| ==> !g.events[i].contentComplete)
  {
    var stop := FirstChoiceless(chunks);
    if stop < |chunks| {
      assert !HasChoice(chunks[stop]);
    }
  }

  /** The loop of `draft_response` (app/llm.py and app/llm2.py): forward
      every present fragment, raise on a chunk without choices, and close the
      turn with an empty complete event. */
  method StreamText(responseId: int, chunks: seq<Chunk>) returns (gen: Generation)
    ensures gen == PlainTurn(responseId, chunks)
  {
    var events: seq<ResponseEvent> := [];
    var i := 0;
    while i < |chunks|
      invariant 0 <= i <= FirstChoiceless(chunks)
      invariant events == ContentEvents(responseId, PresentTexts(chunks[..i]))
    {
      if |chunks[i].choices| == 0 {
        return Generation(events, true);
      }
      assert chunks[..i + 1][..i] == chunks[..i];
      if chunks[i].choices[0].content.Some? {
        events := events + [ResponseEvent(responseId, chunks[i].choices[0].content.value, false, false)];
      }
      i := i + 1;
    }
    assert chunks[..i] == chunks;
    events := events + [EndOfTurn(responseId)];
    gen := Generation(events, false);
  }
}
