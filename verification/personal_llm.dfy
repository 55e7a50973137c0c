/** The single-child Santa persona (app/llm.py): a client object that
    remembers the call's dynamic variables (`metadata`) and the opening line
    it spoke (`message_history`), greets the child by name when it can, and
    builds prompts whose system message carries a personalised context. */
module PersonalLlm {
  import opened Protocol

  /** Persona text, opaque. */
  const AgentPrompt: string := "<agent prompt>"

  /** Opening line used when no metadata is known, opaque. */
  const FallbackGreeting: string := "<fallback>"

  /** The personalised opening line around the child's name, opaque. */
  const GreetingHead: string := "<greeting>"
  const GreetingTail: string := "<greeting tail>"

  /** The user-role nudge appended for `reminder_required`, opaque. */
  const ReminderNudge: string := "<nudge>"

  /** Pieces of the personalised-context template, in order. */
  const SpeakingWith: string := "\nYou're speaking with "
  const WhoIs: string := ",\nWho is "
  const YearsOld: string := " years old,\nTheir hobbies include: "
  const AdditionalDetails: string := ".\nAdditional details: "
  const ChildConnections: string := ".\nChild Connections: "
  const ContextEnd: string := ".\n"

  /** `dict.get(key, default)`. */
  function Get(m: Metadata, key: string, default: string): string {
    if key in m then m[key] else default
  }

  function PersonalGreeting(name: string): string {
    GreetingHead + name + GreetingTail
  }

  /** The personalised context for known metadata. */
  function ContextFor(m: Metadata): string {
    SpeakingWith + ContextDetails(m)
  }

  /** What follows the opening words of the context: each field in turn. */
  function ContextDetails(m: Metadata): string {
    Get(m, "contact_child_name", "a child")
    + WhoIs + Get(m, "contact_child_age", "")
    + YearsOld + Get(m, "contact_hobbies", "")
    + AdditionalDetails + Get(m, "contact_additional_information", "")
    + ChildConnections + Get(m, "contact_family_info", "")
    + ContextEnd
  }

  /** The context is empty exactly when the metadata is falsy; otherwise it
      names the child, falling back to "a child". */
  lemma ContextEmptyIffNoMetadata(m: Option<Metadata>)
    ensures var ctx := if IsTruthy(m) then ContextFor(m.value) else "";
      && (ctx == "" <==> !IsTruthy(m))
      && (IsTruthy(m) ==> ctx[..|SpeakingWith|] == SpeakingWith)
  {
    if IsTruthy(m) {
      assert (SpeakingWith + ContextDetails(m.value))[..|SpeakingWith|] == SpeakingWith;
    }
  }

  class LlmClient {
    var metadata: Option<Metadata>
    var messageHistory: seq<Message>

    constructor ()
      ensures metadata == None && messageHistory == []
    {
      metadata := None;
      messageHistory := [];
    }

    /** `set_metadata`: keep the dynamic variables when they are present and
        non-empty; otherwise leave the metadata as it was. */
    method SetMetadata(dynamicVariables: Option<Metadata>)
      modifies this
      ensures metadata == if IsTruthy(dynamicVariables) then dynamicVariables else old(metadata)
      ensures messageHistory == old(messageHistory)
    {
      if IsTruthy(dynamicVariables) {
        metadata := dynamicVariables;
      }
    }

    /** `draft_begin_message`: the fallback line without metadata, the line
        naming `contact_child_name` (default "") with it; either way exactly
        one assistant entry equal to the line is appended to the history. No
        guard stops a second call from appending again. */
    method DraftBeginMessage() returns (r: ResponseEvent)
      modifies this
      ensures IsOpening(r)
      ensures !IsTruthy(metadata) ==> r.content == FallbackGreeting
      ensures IsTruthy(metadata) ==> r.content == PersonalGreeting(Get(metadata.value, "contact_child_name", ""))
      ensures messageHistory == old(messageHistory) + [Message(Assistant, r.content)]
      ensures metadata == old(metadata)
    {
      if !IsTruthy(metadata) {
        var fallbackMessage := FallbackGreeting;
        messageHistory := messageHistory + [Message(Assistant, fallbackMessage)];
        return ResponseEvent(0, fallbackMessage, true, false);
      }
      var welcomeMessage := PersonalGreeting(Get(metadata.value, "contact_child_name", ""));
      messageHistory := messageHistory + [Message(Assistant, welcomeMessage)];
      r := ResponseEvent(0, welcomeMessage, true, false);
    }

    /** `convert_transcript_to_openai_messages`: a copy of the history followed
        by one message per utterance; the history itself is not touched. */
    method ConvertTranscript(transcript: seq<Utterance>) returns (messages: seq<Message>)
      ensures |messages| == |messageHistory| + |transcript|
      ensures forall i :: 0 <= i < |messageHistory| ==> messages[i] == messageHistory[i]
      ensures forall i :: 0 <= i < |transcript| ==> messages[|messageHistory| + i] == ToModelMessage(transcript[i])
    {
      messages := messageHistory;
      for i := 0 to |transcript|
        invariant |messages| == |messageHistory| + i
        invariant forall k :: 0 <= k < |messageHistory| ==> messages[k] == messageHistory[k]
        invariant forall k :: 0 <= k < i ==> messages[|messageHistory| + k] == ToModelMessage(transcript[k])
      {
        var u := transcript[i];
        if u.role == "agent" {
          messages := messages + [Message(Assistant, u.content)];
        } else {
          messages := messages + [Message(User, u.content)];
        }
      }
    }

    /** The personalised context of `prepare_prompt`. */
    function PersonalizedContext(): (ctx: string)
      reads this
      ensures ctx == "" <==> !IsTruthy(metadata)
    {
      ContextEmptyIffNoMetadata(metadata);
      if IsTruthy(metadata) then ContextFor(metadata.value) else ""
    }

    /** `prepare_prompt`: the system message, the history, the transcript in
        order, and the nudge last exactly when the request is a reminder. */
    method PreparePrompt(request: ResponseRequiredRequest) returns (prompt: seq<Message>)
      ensures var h, t := messageHistory, request.transcript;
        && |prompt| == 1 + |h| + |t| + (if request.interactionType == ReminderRequired then 1 else 0)
        && prompt[0] == Message(System, PersonalizedSystemPrompt(AgentPrompt, PersonalizedContext()))
        && (forall i :: 0 <= i < |h| ==> prompt[1 + i] == h[i])
        && (forall i :: 0 <= i < |t| ==> prompt[1 + |h| + i] == ToModelMessage(t[i]))
        && (request.interactionType == ReminderRequired ==> prompt[|prompt| - 1] == Message(User, ReminderNudge))
    {
      var personalizedContext := "";
      if IsTruthy(metadata) {
        personalizedContext := ContextFor(metadata.value);
      }
      var transcriptMessages := ConvertTranscript(request.transcript);
      prompt := AssemblePrompt(PersonalizedSystemPrompt(AgentPrompt, personalizedContext), transcriptMessages, request.interactionType, ReminderNudge);
    }

    /** `draft_response`: the prompt is assembled (it cannot fail here) and
        the stream is reduced as a plain-text turn. */
    method DraftResponse(request: ResponseRequiredRequest, chunks: seq<Chunk>) returns (gen: Generation)
      ensures gen == PlainTurn(request.responseId, chunks)
    {
      var _ := PreparePrompt(request);
      gen := StreamText(request.responseId, chunks);
    }
  }
}
