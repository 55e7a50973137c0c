/** The relay's per-call websocket handler and its webhook endpoint
    (app/server.py). One call's handler is a sequential state machine here:
    the concurrency of the source (a task per inbound message) is replaced
    by an explicit input, the value of the shared `response_id` seen right
    after each event is sent, which is all a forwarding loop can observe of
    the other tasks. The handler uses the single-child persona client, as
    the source does. */
module Server {
  import opened Protocol
  import PersonalLlm

  /** What the handler writes to the websocket. */
  datatype Outbound =
    | ConfigResponse(autoReconnect: bool, callDetails: bool, responseId: int)
    | PingPong(timestamp: int)
    | Response(event: ResponseEvent)

  /** One inbound websocket message; the fields a type does not use are
      ignored. `dynamicVariables` is `call.retell_llm_dynamic_variables` of a
      `call_details` message (None when absent). */
  datatype InboundMessage = InboundMessage(
    interactionType: string,
    responseId: int,
    timestamp: int,
    transcript: seq<Utterance>,
    dynamicVariables: Option<Metadata>)

  /** The environment of one inbound message: the model's stream for a
      response cycle, and the shared `response_id` seen after the k-th send. */
  datatype Turn = Turn(message: InboundMessage, chunks: seq<Chunk>, observed: nat -> int)

  const CallDetails: string := "call_details"
  const PingPongType: string := "ping_pong"
  const UpdateOnly: string := "update_only"
  const ResponseRequired: string := "response_required"

  /** The message sent once when the websocket opens. */
  const OpeningConfig: Outbound := ConfigResponse(true, true, 1)

  predicate IsResponseCycle(interactionType: string) {
    interactionType == ResponseRequired || interactionType == ReminderRequired
  }

  function Responses(events: seq<ResponseEvent>): seq<Outbound> {
    seq(|events|, i requires 0 <= i < |events| => Response(events[i]))
  }

  /** The supersession rule: the forwarded events are a prefix of the
      generator's events; every one of them but the last was followed by a
      `response_id` no newer than the request's; and forwarding stopped early
      only right after the send at which a newer one was seen. */
  predicate IsForwardedPrefix(forwarded: seq<ResponseEvent>, events: seq<ResponseEvent>, requestId: int, observed: nat -> int) {
    && forwarded <= events
    && (forall k: nat :: k < |forwarded| - 1 ==> observed(k) <= requestId)
    && (|forwarded| < |events| ==> |forwarded| > 0 && requestId < observed(|forwarded| - 1))
  }

  /** The forwarding loop of a response cycle: send each event, then stop if a
      newer `response_id` has been recorded meanwhile. */
  method Forward(events: seq<ResponseEvent>, requestId: int, observed: nat -> int) returns (forwarded: seq<ResponseEvent>)
    ensures IsForwardedPrefix(forwarded, events, requestId, observed)
  {
    forwarded := [];
    var k := 0;
    while k < |events|
      invariant k <= |events|
      invariant forwarded == events[..k]
      invariant forall j: nat :: j < k ==> observed(j) <= requestId
    {
      forwarded := forwarded + [events[k]];
      if requestId < observed(k) {
        return;
      }
      k := k + 1;
    }
  }

  /** The supersession rule fixes what is forwarded: one event stream and one
      interleaving admit a single forwarded prefix. */
  lemma ForwardedPrefixIsUnique(f1: seq<ResponseEvent>, f2: seq<ResponseEvent>, events: seq<ResponseEvent>, requestId: int, observed: nat -> int)
    requires IsForwardedPrefix(f1, events, requestId, observed)
    requires IsForwardedPrefix(f2, events, requestId, observed)
    ensures f1 == f2
  {
  }

  /** A cycle that is never superseded forwards everything; once a newer id
      is seen after the k-th send, nothing after that send is forwarded. */
  lemma ForwardingStopsAtSupersession(forwarded: seq<ResponseEvent>, events: seq<ResponseEvent>, requestId: int, observed: nat -> int, k: nat)
    requires IsForwardedPrefix(forwarded, events, requestId, observed)
    ensures (forall j: nat :: j < |events| ==> observed(j) <= requestId) ==> forwarded == events
    ensures k < |events| && requestId < observed(k) ==> |forwarded| <= k + 1
  {
  }

  /** `response_id` after a run of messages: plainly the id of the last
      response cycle requested, not the largest. */
  function LastRequestedId(messages: seq<InboundMessage>, initial: int): int {
    if messages == [] then initial
    else
      var last := messages[|messages| - 1];
      if IsResponseCycle(last.interactionType) then last.responseId
      else LastRequestedId(messages[..|messages| - 1], initial)
  }

  function Messages(turns: seq<Turn>): seq<InboundMessage> {
    seq(|turns|, i requires 0 <= i < |turns| => turns[i].message)
  }

  /** The state of one call's websocket handler. */
  class CallSession {
    var llm: PersonalLlm.LlmClient
    var responseId: int
    var callDetailsReceived: bool
    /** Everything written to the websocket, in order. */
    var sent: seq<Outbound>

    /** Opening the websocket: a fresh persona client, the config message
        sent once, and the shared `response_id` at 0. */
    constructor Open()
      ensures fresh(llm) && llm.metadata == None && llm.messageHistory == []
      ensures responseId == 0 && !callDetailsReceived
      ensures sent == [OpeningConfig]
    {
      llm := new PersonalLlm.LlmClient();
      callDetailsReceived := false;
      sent := [OpeningConfig];
      responseId := 0;
    }

    /** `handle_message`, dispatching on `interaction_type`. */
    method HandleMessage(message: InboundMessage, chunks: seq<Chunk>, observed: nat -> int)
      returns (ghost forwarded: seq<ResponseEvent>)
      modifies this, llm
      ensures llm == old(llm)
      // call_details: store the metadata, set the flag, send an opening line (every time)
      ensures message.interactionType == CallDetails ==>
        && llm.metadata == (if IsTruthy(message.dynamicVariables) then message.dynamicVariables else old(llm.metadata))
        && callDetailsReceived && responseId == old(responseId)
        && |sent| == |old(sent)| + 1 && sent[..|old(sent)|] == old(sent)
        && sent[|sent| - 1].Response? && IsOpening(sent[|sent| - 1].event)
        && sent[|sent| - 1].event.content == (if IsTruthy(llm.metadata)
             then PersonalLlm.PersonalGreeting(PersonalLlm.Get(llm.metadata.value, "contact_child_name", ""))
             else PersonalLlm.FallbackGreeting)
        && llm.messageHistory == old(llm.messageHistory) + [Message(Assistant, sent[|sent| - 1].event.content)]
      // ping_pong: echo the timestamp, nothing else changes
      ensures message.interactionType == PingPongType ==>
        && sent == old(sent) + [PingPong(message.timestamp)]
        && responseId == old(responseId) && callDetailsReceived == old(callDetailsReceived)
        && unchanged(llm)
      // update_only and unknown types: nothing happens
      ensures message.interactionType != CallDetails && message.interactionType != PingPongType
              && !IsResponseCycle(message.interactionType) ==>
        unchanged(this) && unchanged(llm)
      // a response cycle: record the id, then forward a prefix of the turn
      ensures IsResponseCycle(message.interactionType) ==>
        && responseId == message.responseId
        && callDetailsReceived == old(callDetailsReceived)
        && unchanged(llm)
        && (message.transcript == [] ==> sent == old(sent))
        && (message.transcript != [] ==>
             && IsForwardedPrefix(forwarded, PlainTurn(message.responseId, chunks).events, message.responseId, observed)
             && sent == old(sent) + Responses(forwarded))
    {
      forwarded := [];
      if message.interactionType == CallDetails {
        llm.SetMetadata(message.dynamicVariables);
        callDetailsReceived := true;
        var firstEvent := llm.DraftBeginMessage();
        sent := sent + [Response(firstEvent)];
        return;
      }
      if message.interactionType == PingPongType {
        sent := sent + [PingPong(message.timestamp)];
        return;
      }
      if message.interactionType == UpdateOnly {
        return;
      }
      if IsResponseCycle(message.interactionType) {
        responseId := message.responseId;
        var request := ResponseRequiredRequest(message.interactionType, responseId, message.transcript);
        if message.transcript == [] {
          // reading the last utterance for the log line raises IndexError
          return;
        }
        var gen := llm.DraftResponse(request, chunks);
        var events := Forward(gen.events, request.responseId, observed);
        forwarded := events;
        sent := sent + Responses(events);
      }
    }

    /** The read loop: every inbound message is handled in arrival order.
        Whatever was sent before stays first, the channel log only grows,
        `response_id` ends as the id of the last response cycle requested, and
        the flag records whether any `call_details` arrived. */
    method Serve(turns: seq<Turn>)
      modifies this, llm
      ensures llm == old(llm)
      ensures |sent| >= |old(sent)| && sent[..|old(sent)|] == old(sent)
      ensures responseId == LastRequestedId(Messages(turns), old(responseId))
      ensures callDetailsReceived <==> old(callDetailsReceived) || exists i :: 0 <= i < |turns| && turns[i].message.interactionType == CallDetails
    {
      for i := 0 to |turns|
        invariant llm == old(llm)
        invariant |sent| >= |old(sent)| && sent[..|old(sent)|] == old(sent)
        invariant responseId == LastRequestedId(Messages(turns[..i]), old(responseId))
        invariant callDetailsReceived <==> old(callDetailsReceived) || exists j :: 0 <= j < i && turns[j].message.interactionType == CallDetails
      {
        var turn := turns[i];
        ghost var before := sent;
        var _ := HandleMessage(turn.message, turn.chunks, turn.observed);
        assert before[..|old(sent)|] == old(sent);
        assert Messages(turns[..i + 1])[..i] == Messages(turns[..i]);
      }
      assert turns[..|turns|] == turns;
    }
  }

  // ---------------------------------------------------------------------
  // The webhook endpoint
  // ---------------------------------------------------------------------

  datatype CallData = CallData(callId: Option<string>)

  /** The JSON body of a webhook request; a missing key is None. */
  datatype WebhookBody = WebhookBody(event: Option<string>, data: Option<CallData>)

  datatype WebhookReply = Unauthorized | Received | InternalServerError

  function Status(r: WebhookReply): int {
    match r
    case Unauthorized => 401
    case Received => 200
    case InternalServerError => 500
  }

  /** `post_data["data"]["call_id"]` can be read. */
  predicate HasCallId(b: WebhookBody) {
    b.data.Some? && b.data.value.callId.Some?
  }

  /** `handle_webhook` as written. `body` is None when the request body is
      not JSON; `validSignature` is the signature check's verdict. A missing
      key read for logging raises (500). A `call_analyzed` event always ends
      in 500: the notifier reads `recording_url` as an attribute of the JSON
      object, which raises, and its HTTPException is caught by the
      endpoint's own handler. */
  function HandleWebhook(body: Option<WebhookBody>, validSignature: bool): (r: WebhookReply)
    ensures r == Received ==> validSignature
    ensures r == Unauthorized <==> body.Some? && !validSignature && body.value.event.Some? && HasCallId(body.value)
    ensures r == Received <==>
      && body.Some? && validSignature && body.value.event.Some?
      && body.value.event.value != "call_analyzed"
      && (body.value.event.value == "call_started" || body.value.event.value == "call_ended" ==> HasCallId(body.value))
  {
    if body.None? then InternalServerError
    else
      var b := body.value;
      if !validSignature then
        if b.event.Some? && HasCallId(b) then Unauthorized else InternalServerError
      else if b.event.None? then InternalServerError
      else if b.event.value == "call_started" || b.event.value == "call_ended" then
        if HasCallId(b) then Received else InternalServerError
      else if b.event.value == "call_analyzed" then InternalServerError
      else Received
  }

  /** As written, a validly signed, well-formed `call_analyzed` event is
      never acknowledged, whatever its call id. */
  lemma CallAnalyzedIsNeverAcknowledged(callId: string)
    ensures Status(HandleWebhook(Some(WebhookBody(Some("call_analyzed"), Some(CallData(Some(callId))))), true)) == 500
  {
  }

  /** `handle_webhook` as evidently intended: a `call_analyzed` event is
      acknowledged once the notifier has run without raising;
      `notifierSucceeded` stands for that outcome. */
  function HandleWebhookIntended(body: Option<WebhookBody>, validSignature: bool, notifierSucceeded: bool): (r: WebhookReply)
    ensures r == Received ==> validSignature
    ensures body.Some? && validSignature && body.value.event == Some("call_analyzed") && HasCallId(body.value) ==>
      (r == Received <==> notifierSucceeded)
    ensures body.Some? && validSignature && body.value.event == Some("call_analyzed") && !HasCallId(body.value) ==>
      r == InternalServerError
    // every request other than a validly signed `call_analyzed` event (a body
    // that is not JSON, a bad signature, any other event) is handled as written
    ensures !(body.Some? && validSignature && body.value.event == Some("call_analyzed")) ==>
      r == HandleWebhook(body, validSignature)
  {
    if body.Some? && validSignature && body.value.event == Some("call_analyzed") then
      if HasCallId(body.value) && notifierSucceeded then Received else InternalServerError
    else HandleWebhook(body, validSignature)
  }
}
