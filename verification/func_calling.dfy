/** The function-calling Santa persona (app/llm_with_func_calling.py): a
    random opening line, a 1:1 transcript conversion, a prompt of one system
    message plus the transcript plus an optional reminder nudge, and a
    stream reducer that forwards text and honours at most one tool call.
    The client object holds no state of its own, so its operations are
    module-level here. */
module FuncCallingLlm {
  import opened Protocol

  /** The four rotating opening lines; their wording is not modelled. */
  const MagicalGreetings: seq<string> := ["<greeting 1>", "<greeting 2>", "<greeting 3>", "<greeting 4>"]

  /** System prompt (guardrails followed by the persona text), opaque. */
  const SystemPrompt: string := "<system prompt>"

  /** The user-role nudge appended for `reminder_required`, opaque. */
  const ReminderNudge: string := "<nudge>"

  /** Names of the three tools advertised by `prepare_functions`. */
  const EndMagicalChat: string := "end_magical_chat"
  const RecordChristmasWish: string := "record_christmas_wish"
  const ShareNorthPoleMagic: string := "share_north_pole_magic"
  const AdvertisedTools: seq<string> := [EndMagicalChat, RecordChristmasWish, ShareNorthPoleMagic]

  /** Decoded tool arguments: the JSON object's string members. */
  type ToolArguments = map<string, string>

  /** `draft_begin_message`: `begin_sentence` is drawn once from the greeting
      list (by `random.choice`); `choice` stands for that draw. */
  function DraftBeginMessage(choice: nat): (r: ResponseEvent)
    requires choice < |MagicalGreetings|
    ensures IsOpening(r)
    ensures r.content in MagicalGreetings
  {
    ResponseEvent(0, MagicalGreetings[choice], true, false)
  }

  /** `convert_transcript_to_openai_messages`: one message per utterance, in order. */
  method ConvertTranscript(transcript: seq<Utterance>) returns (messages: seq<Message>)
    ensures |messages| == |transcript|
    ensures forall i :: 0 <= i < |transcript| ==>
      && messages[i].content == transcript[i].content
      && (messages[i].role == Assistant <==> transcript[i].role == "agent")
      && (messages[i].role == User <==> transcript[i].role != "agent")
  {
    messages := [];
    for i := 0 to |transcript|
      invariant |messages| == i
      invariant forall k :: 0 <= k < i ==> messages[k] == ToModelMessage(transcript[k])
    {
      var u := transcript[i];
      if u.role == "agent" {
        messages := messages + [Message(Assistant, u.content)];
      } else {
        messages := messages + [Message(User, u.content)];
      }
    }
  }

  /** `prepare_prompt`: the system message, then the transcript in order, then
      the nudge exactly when the request is a reminder. */
  method PreparePrompt(request: ResponseRequiredRequest) returns (prompt: seq<Message>)
    ensures var t := request.transcript;
      && |prompt| == 1 + |t| + (if request.interactionType == ReminderRequired then 1 else 0)
      && prompt[0] == Message(System, SystemPrompt)
      && (forall i :: 0 <= i < |t| ==> prompt[1 + i] == ToModelMessage(t[i]))
      && (forall i :: 1 <= i < |prompt| ==> prompt[i].role != System)
      && (request.interactionType == ReminderRequired ==> prompt[|prompt| - 1] == Message(User, ReminderNudge))
  {
    var transcriptMessages := ConvertTranscript(request.transcript);
    prompt := AssemblePrompt(SystemPrompt, transcriptMessages, request.interactionType, ReminderNudge);
    forall i | 1 <= i < |prompt|
      ensures prompt[i].role != System
    {
      if i - 1 < |transcriptMessages| {
        assert prompt[i] == transcriptMessages[i - 1];
      }
    }
  }

  // ---------------------------------------------------------------------
  // The stream reducer of `draft_response`
  // ---------------------------------------------------------------------

  /** The first tool-call fragment of a chunk's first choice, if any. */
  predicate HasToolCall(c: Chunk) {
    |c.choices| > 0 && |c.choices[0].toolCalls| > 0
  }

  /** A chunk that starts a tool call: its first tool fragment has a truthy id. */
  predicate StartsCall(c: Chunk) {
    HasToolCall(c) && Truthy(c.choices[0].toolCalls[0].id)
  }

  /** Index of the first chunk at or after `from` that starts a tool call, or `|cs|`. */
  function NextStart(cs: seq<Chunk>, from: nat): (r: nat)
    requires from <= |cs|
    ensures from <= r <= |cs|
    ensures forall j :: from <= j < r ==> !StartsCall(cs[j])
    ensures r < |cs| ==> StartsCall(cs[r])
    decreases |cs| - from
  {
    if from == |cs| then from
    else if StartsCall(cs[from]) then from
    else NextStart(cs, from + 1)
  }

  /** Index of the chunk that latches `func_call`, or `|cs|` when none does. */
  function Latch(cs: seq<Chunk>): nat {
    NextStart(cs, 0)
  }

  /** Number of chunks consumed: the stream is read to its end, except that a
      second call-starting chunk stops it before that chunk is handled. */
  function Cutoff(cs: seq<Chunk>): (r: nat)
    ensures Latch(cs) <= r <= |cs|
    ensures forall j :: Latch(cs) < j < r ==> !StartsCall(cs[j])
    ensures r < |cs| ==> Latch(cs) < r && StartsCall(cs[r])
  {
    var l := Latch(cs);
    if l == |cs| then l else NextStart(cs, l + 1)
  }

  /** The name of the latched call, if any. */
  function LatchedName(cs: seq<Chunk>): Option<string> {
    var l := Latch(cs);
    if l < |cs| then Some(CallName(cs[l])) else None
  }

  /** The name a call-starting chunk records: `function.name or ""`. */
  function CallName(c: Chunk): string
    requires StartsCall(c)
  {
    OrEmpty(c.choices[0].toolCalls[0].fn.name)
  }

  /** The argument fragment a chunk contributes: tool fragments without a
      truthy id add `arguments or ""`, whether or not a call is latched. */
  function ArgumentFragment(c: Chunk): string {
    if HasToolCall(c) && !StartsCall(c) then OrEmpty(c.choices[0].toolCalls[0].fn.arguments) else ""
  }

  /** The accumulated `func_arguments`, concatenated in arrival order. */
  function ArgumentText(cs: seq<Chunk>, n: nat): string
    requires n <= |cs|
  {
    if n == 0 then "" else ArgumentText(cs, n - 1) + ArgumentFragment(cs[n - 1])
  }

  /** The text a chunk forwards: a truthy `delta.content`. */
  function TextFragment(c: Chunk): seq<string> {
    if |c.choices| > 0 && Truthy(c.choices[0].content) then [c.choices[0].content.value] else []
  }

  /** All forwarded texts of the consumed chunks, in stream order. */
  function TextFragments(cs: seq<Chunk>, n: nat): seq<string>
    requires n <= |cs|
  {
    if n == 0 then [] else TextFragments(cs, n - 1) + TextFragment(cs[n - 1])
  }

  /** The event a chunk forwards: a non-final event for a truthy text. */
  function TextEvent(responseId: int, c: Chunk): seq<ResponseEvent> {
    if |c.choices| > 0 && Truthy(c.choices[0].content)
    then [ResponseEvent(responseId, c.choices[0].content.value, false, false)]
    else []
  }

  /** The events forwarded for the first `n` chunks, one per truthy text. */
  function TextEvents(responseId: int, cs: seq<Chunk>, n: nat): seq<ResponseEvent>
    requires n <= |cs|
  {
    if n == 0 then []
    else TextEvents(responseId, cs, n - 1) + TextEvent(responseId, cs[n - 1])
  }

  /** The forwarded events are exactly the non-final events of the forwarded
      texts, in order. */
  lemma {:induction false} TextEventsCarryFragments(responseId: int, cs: seq<Chunk>, n: nat)
    requires n <= |cs|
    ensures TextEvents(responseId, cs, n) == ContentEvents(responseId, TextFragments(cs, n))
  {
    if n > 0 {
      TextEventsCarryFragments(responseId, cs, n - 1);
      ContentEventsAppend(responseId, TextFragments(cs, n - 1), TextFragment(cs[n - 1]));
      assert TextEvent(responseId, cs[n - 1]) == ContentEvents(responseId, TextFragment(cs[n - 1]));
    }
  }

  /** What happens once the stream is over (lines 215-240): with no latched
      call, the empty complete event; with one, the arguments are decoded
      (a decoding failure raises) and the call's `message` (its absence
      raises) becomes the single complete event, ending the call only for
      `end_magical_chat`; any other name yields nothing. */
  function Settle(responseId: int, latched: Option<string>, arguments: string, parse: string -> Option<ToolArguments>): (r: Generation)
    ensures |r.events| <= 1
    ensures forall e :: e in r.events ==> e.responseId == responseId && e.contentComplete
    ensures latched.None? ==> r == Generation([EndOfTurn(responseId)], false)
    ensures latched.Some? ==>
      && (|r.events| == 1 ==> latched.value in AdvertisedTools)
      && (|r.events| == 1 ==> (r.events[0].endCall <==> latched.value == EndMagicalChat))
      && (latched.value !in AdvertisedTools ==> r.events == [])
      && (r.raised <==> parse(arguments).None? || (latched.value in AdvertisedTools && "message" !in parse(arguments).value))
    // an advertised tool whose arguments decode with a `message` speaks it as
    // the single complete event, ending the call only for `end_magical_chat`
    ensures latched.Some? && latched.value in AdvertisedTools && parse(arguments).Some? && "message" in parse(arguments).value ==>
      r == Generation([ResponseEvent(responseId, parse(arguments).value["message"], true, latched.value == EndMagicalChat)], false)
    // a settlement that raises yields nothing
    ensures r.raised ==> r.events == []
    // any other latched name ends the turn with no event at all
    ensures latched.Some? && latched.value !in AdvertisedTools && parse(arguments).Some? ==> r == Generation([], false)
  {
    match latched
    case None => Generation([EndOfTurn(responseId)], false)
    case Some(name) =>
      match parse(arguments)
      case None => Generation([], true)
      case Some(args) =>
        if name == EndMagicalChat then
          if "message" in args then Generation([ResponseEvent(responseId, args["message"], true, true)], false)
          else Generation([], true)
        else if name == RecordChristmasWish || name == ShareNorthPoleMagic then
          if "message" in args then Generation([ResponseEvent(responseId, args["message"], true, false)], false)
          else Generation([], true)
        else Generation([], false)
  }

  /** A call-starting chunk either latches the call (none was latched yet) or
      is where the stream is cut off (one was). */
  lemma StartingChunk(cs: seq<Chunk>, i: nat)
    requires i < |cs| && StartsCall(cs[i]) && i <= Cutoff(cs)
    ensures Latch(cs) >= i ==> Latch(cs) == i
    ensures Latch(cs) < i ==> Cutoff(cs) == i
  {
  }

  /** Reference meaning of `draft_response`: the forwarded texts of every
      consumed chunk, then the settlement of the latched call. */
  function ToolTurn(responseId: int, chunks: seq<Chunk>, parse: string -> Option<ToolArguments>): Generation {
    var n := Cutoff(chunks);
    var tail := Settle(responseId, LatchedName(chunks), ArgumentText(chunks, n), parse);
    Generation(ContentEvents(responseId, TextFragments(chunks, n)) + tail.events, tail.raised)
  }

  /** One pass of the `async for` body over `chunk`: it either stops the
      stream (a second call starts) or latches a call, adds the chunk's
      argument fragment and forwards its text. */
  method ReadChunk(responseId: int, chunk: Chunk, funcCall: Option<string>, funcArguments: string, events: seq<ResponseEvent>)
    returns (stop: bool, funcCall': Option<string>, funcArguments': string, events': seq<ResponseEvent>)
    ensures stop <==> StartsCall(chunk) && funcCall.Some?
    ensures stop ==> funcCall' == funcCall && funcArguments' == funcArguments && events' == events
    ensures !stop ==> funcCall' == if StartsCall(chunk) then Some(CallName(chunk)) else funcCall
    ensures !stop ==> funcArguments' == funcArguments + ArgumentFragment(chunk)
    ensures !stop ==> events' == events + TextEvent(responseId, chunk)
  {
    stop, funcCall', funcArguments', events' := false, funcCall, funcArguments, events;
    if |chunk.choices| == 0 {
      return;
    }
    var delta := chunk.choices[0];
    if |delta.toolCalls| > 0 {
      var toolCall := delta.toolCalls[0];
      if Truthy(toolCall.id) {
        if funcCall.Some? {
          stop := true;
          return;
        }
        funcCall' := Some(OrEmpty(toolCall.fn.name));
      } else {
        funcArguments' := funcArguments + OrEmpty(toolCall.fn.arguments);
      }
    }
    if Truthy(delta.content) {
      events' := events + [ResponseEvent(responseId, delta.content.value, false, false)];
    }
  }

  /** The `async for` loop of `draft_response`: the call it latches, the
      arguments it accumulates and the events it forwards, reading the stream
      to its end or until a second call starts. */
  method ReadStream(responseId: int, chunks: seq<Chunk>)
    returns (funcCall: Option<string>, funcArguments: string, events: seq<ResponseEvent>)
    ensures funcCall == LatchedName(chunks)
    ensures funcArguments == ArgumentText(chunks, Cutoff(chunks))
    ensures events == ContentEvents(responseId, TextFragments(chunks, Cutoff(chunks)))
  {
    funcCall := None;
    funcArguments := "";
    events := [];
    var i := 0;
    while i < |chunks|
      invariant i <= Cutoff(chunks)
      invariant funcCall == if Latch(chunks) < i then LatchedName(chunks) else None
      invariant funcArguments == ArgumentText(chunks, i)
      invariant events == TextEvents(responseId, chunks, i)
    {
      var stop;
      stop, funcCall, funcArguments, events := ReadChunk(responseId, chunks[i], funcCall, funcArguments, events);
      if StartsCall(chunks[i]) {
        StartingChunk(chunks, i);
      }
      if stop {
        break;
      }
      i := i + 1;
    }
    assert i == Cutoff(chunks);
    TextEventsCarryFragments(responseId, chunks, i);
  }

  /** `draft_response` over a finished stream; `parse` stands for `json.loads`
      of the accumulated arguments. */
  method DraftResponse(request: ResponseRequiredRequest, chunks: seq<Chunk>, parse: string -> Option<ToolArguments>)
    returns (gen: Generation)
    ensures gen == ToolTurn(request.responseId, chunks, parse)
  {
    var _ := PreparePrompt(request);
    var funcCall, funcArguments, events := ReadStream(request.responseId, chunks);
    var tail := Settle(request.responseId, funcCall, funcArguments, parse);
    gen := Generation(events + tail.events, tail.raised);
  }

  /** Every tool turn is well formed: all events carry the request's id; the
      forwarded texts are non-final and never end the call; at most one
      complete event closes the turn, and only `end_magical_chat` ends the
      call. */
  lemma {:induction false} ToolTurnShape(responseId: int, chunks: seq<Chunk>, parse: string -> Option<ToolArguments>)
    ensures var g := ToolTurn(responseId, chunks, parse);
      && (forall i :: 0 <= i < |g.events| ==> g.events[i].responseId == responseId)
      && (forall i :: 0 <= i < |g.events| - 1 ==> !g.events[i].contentComplete && !g.events[i].endCall)
      && (forall i :: 0 <= i < |g.events| ==> g.events[i].endCall ==> LatchedName(chunks) == Some(EndMagicalChat))
      && (LatchedName(chunks).None? ==> !g.raised && g.events[|g.events| - 1] == EndOfTurn(responseId))
      && (g.raised ==> forall i :: 0 <= i < |g.events| ==> !g.events[i].contentComplete)
      && (var name, args := LatchedName(chunks), parse(ArgumentText(chunks, Cutoff(chunks)));
          name.Some? && name.value in AdvertisedTools && args.Some? && "message" in args.value ==>
            && !g.raised && |g.events| > 0
            && g.events[|g.events| - 1] == ResponseEvent(responseId, args.value["message"], true, name.value == EndMagicalChat))
  {
    var n := Cutoff(chunks);
    var body := ContentEvents(responseId, TextFragments(chunks, n));
    var tail := Settle(responseId, LatchedName(chunks), ArgumentText(chunks, n), parse);
    var g := ToolTurn(responseId, chunks, parse);
    assert g.events == body + tail.events;
    forall i | 0 <= i < |g.events|
      ensures g.events[i].endCall ==> LatchedName(chunks) == Some(EndMagicalChat)
    {
      if i >= |body| {
        assert g.events[i] == tail.events[i - |body|];
      }
    }
  }

  /** Argument fragments accumulate in arrival order: the arguments read from
      the first `n` chunks begin the arguments read from the first `m`. */
  lemma {:induction false} ArgumentTextGrows(cs: seq<Chunk>, n: nat, m: nat)
    requires n <= m <= |cs|
    ensures ArgumentText(cs, n) <= ArgumentText(cs, m)
  {
    if n < m {
      ArgumentTextGrows(cs, n, m - 1);
    }
  }

  /** The texts forwarded before the stream stops are the first texts of the
      whole stream: forwarding is a prefix of the stream's text. */
  lemma {:induction false} TextFragmentsGrow(cs: seq<Chunk>, n: nat, m: nat)
    requires n <= m <= |cs|
    ensures TextFragments(cs, n) <= TextFragments(cs, m)
  {
    if n < m {
      TextFragmentsGrow(cs, n, m - 1);
    }
  }

  /** Without any tool-call fragment the function-calling persona behaves like
      a plain one: every truthy text, then the empty complete event. */
  lemma NoToolCallsGivesPlainTurn(responseId: int, chunks: seq<Chunk>, parse: string -> Option<ToolArguments>)
    requires forall j :: 0 <= j < |chunks| ==> !HasToolCall(chunks[j])
    ensures ToolTurn(responseId, chunks, parse)
      == Generation(ContentEvents(responseId, TextFragments(chunks, |chunks|)) + [EndOfTurn(responseId)], false)
  {
    assert Latch(chunks) == |chunks|;
  }

  /** A turn whose model calls `end_magical_chat`, streaming its arguments in
      two fragments `head` and `tail` that decode to a goodbye message, ends
      with that message as the single complete event, ending the call. */
  lemma {:induction false} GoodbyeEndsTheCall(responseId: int, head: string, tail: string, goodbye: string,
                                              parse: string -> Option<ToolArguments>)
    requires parse(head + tail) == Some(map["message" := goodbye])
    ensures var chunks := [
        Chunk([Delta([ToolCallDelta(Some("call_1"), FunctionDelta(Some(EndMagicalChat), None))], None)]),
        Chunk([Delta([ToolCallDelta(None, FunctionDelta(None, Some(head)))], None)]),
        Chunk([Delta([ToolCallDelta(None, FunctionDelta(None, Some(tail)))], None)])
      ];
      ToolTurn(responseId, chunks, parse) == Generation([ResponseEvent(responseId, goodbye, true, true)], false)
  {
    var chunks := [
        Chunk([Delta([ToolCallDelta(Some("call_1"), FunctionDelta(Some(EndMagicalChat), None))], None)]),
        Chunk([Delta([ToolCallDelta(None, FunctionDelta(None, Some(head)))], None)]),
        Chunk([Delta([ToolCallDelta(None, FunctionDelta(None, Some(tail)))], None)])
      ];
    assert StartsCall(chunks[0]);
    assert !StartsCall(chunks[1]) && !StartsCall(chunks[2]);
    assert Latch(chunks) == 0;
    assert Cutoff(chunks) == 3;
    assert ArgumentText(chunks, 1) == "";
    assert ArgumentText(chunks, 2) == head;
    assert ArgumentText(chunks, 3) == head + tail;
    assert TextFragment(chunks[0]) == [] && TextFragment(chunks[1]) == [] && TextFragment(chunks[2]) == [];
    assert TextFragments(chunks, 1) == [];
    assert TextFragments(chunks, 2) == [];
    assert TextFragments(chunks, 3) == [];
  }
}
