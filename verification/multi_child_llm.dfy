/** The multi-child Santa persona (app/llm2.py): a client object that keeps
    the call's dynamic variables (`metadata`), the children decoded from its
    `children` variable, and the opening line it spoke (`message_history`).
    It greets every child by name in one English list and gives the model one
    detail block per child. */
module MultiChildLlm {
  import opened Protocol

  /** One decoded child record: the text of each field the persona reads,
      None where the record lacks that key. */
  datatype Child = Child(
    childName: Option<string>, childAge: Option<string>, childGender: Option<string>,
    hobbies: Option<string>, details: Option<string>, connections: Option<string>)

  /** Persona text, opaque. */
  const AgentPrompt: string := "<agent prompt>"

  /** The opening line around the children's names, opaque. */
  const WelcomeHead: string := "<welcome>"
  const WelcomeTail: string := "<welcome tail>"

  /** The user-role nudge appended for `reminder_required`, opaque. */
  const ReminderNudge: string := "<nudge>"

  /** The group context around the detail blocks, opaque. */
  const GroupHead: string := "<group head>"
  const GroupTail: string := "<group tail>"

  /** Pieces of one child's detail block, in order. */
  const BlockIs: string := " is "
  const BlockYearsOld: string := " years old and "
  const BlockHobbies: string := ".\nTheir hobbies include: "
  const BlockDetails: string := ".\nAdditional details: "
  const BlockConnections: string := ".\nChild Connections: "
  const BlockParent: string := ".\nparent Name: "
  const BlockEnd: string := ".\n"

  // ---------------------------------------------------------------------
  // Joining names
  // ---------------------------------------------------------------------

  /** `sep.join(xs)`. */
  function Join(sep: string, xs: seq<string>): string {
    if |xs| == 0 then ""
    else if |xs| == 1 then xs[0]
    else Join(sep, xs[..|xs| - 1]) + sep + xs[|xs| - 1]
  }

  /** `xs[0] + seps[0] + xs[1] + ... + seps[n-2] + xs[n-1]`. */
  function Interleave(xs: seq<string>, seps: seq<string>): string
    requires |xs| >= 1 && |seps| == |xs| - 1
  {
    if |xs| == 1 then xs[0]
    else Interleave(xs[..|xs| - 1], seps[..|seps| - 1]) + seps[|seps| - 1] + xs[|xs| - 1]
  }

  /** The separators of an English list of `n` names with a serial comma:
      " and " between two names; ", " between the first ones and ", and "
      before the last one when there are more. */
  function ListSeparators(n: nat): (seps: seq<string>)
    ensures |seps| == if n == 0 then 0 else n - 1
  {
    if n <= 1 then []
    else if n == 2 then [" and "]
    else seq(n - 2, _ => ", ") + [", and "]
  }


  /** A join is its items interleaved with copies of the separator. */
  lemma {:induction false} JoinInterleaves(sep: string, xs: seq<string>)
    requires |xs| >= 1
    ensures Join(sep, xs) == Interleave(xs, seq(|xs| - 1, _ => sep))
  {
    if |xs| > 1 {
      JoinInterleaves(sep, xs[..|xs| - 1]);
      assert seq(|xs| - 1, _ => sep)[..|xs| - 2] == seq(|xs| - 2, _ => sep);
    }
  }

  /** The children greeting of `draft_begin_message`: every name once, in
      order, with the English list separators between them; no names give
      the empty greeting. */
  function ChildrenGreeting(names: seq<string>): (greeting: string)
    ensures names == [] ==> greeting == ""
    ensures names != [] ==> greeting == Interleave(names, ListSeparators(|names|))
  {
    var n := |names|;
    if n == 2 then
      assert names[..1] == [names[0]];
      names[0] + " and " + names[1]
    else if n > 2 then
      JoinInterleaves(", ", names[..n - 1]);
      assert ListSeparators(n)[..n - 2] == seq(n - 2, _ => ", ");
      assert names[..n - 1][..n - 2] == names[..n - 2];
      Join(", ", names[..n - 1]) + ", and " + names[n - 1]
    else if n > 0 then names[0]
    else ""
  }

  // ---------------------------------------------------------------------
  // Children
  // ---------------------------------------------------------------------

  /** `[child['childName'] for child in children]`; None when a child has no
      name (KeyError). */
  function ChildNames(children: seq<Child>): (r: Option<seq<string>>)
    ensures r.Some? <==> forall i :: 0 <= i < |children| ==> children[i].childName.Some?
    ensures r.Some? ==> |r.value| == |children| && forall i :: 0 <= i < |children| ==> r.value[i] == children[i].childName.value
  {
    if children == [] then Some([])
    else
      var last := children[|children| - 1];
      match ChildNames(children[..|children| - 1])
      case None => None
      case Some(names) => if last.childName.Some? then Some(names + [last.childName.value]) else None
  }

  /** The opening line that names the children. */
  function WelcomeMessage(greeting: string): string {
    WelcomeHead + greeting + WelcomeTail
  }

  predicate HasChildFields(child: Child) {
    && child.childName.Some? && child.childAge.Some? && child.childGender.Some?
    && child.hobbies.Some? && child.details.Some? && child.connections.Some?
  }

  /** One child's detail block. */
  function ChildBlock(child: Child, parentName: string): string
    requires HasChildFields(child)
  {
    child.childName.value + BlockIs + child.childAge.value + BlockYearsOld + child.childGender.value
    + BlockHobbies + child.hobbies.value + BlockDetails + child.details.value
    + BlockConnections + child.connections.value + BlockParent + parentName + BlockEnd
  }

  /** The detail blocks of all children, in order; None when a child lacks a
      field (KeyError). */
  function DetailBlocks(children: seq<Child>, parentName: string): (r: Option<seq<string>>)
    ensures r.Some? <==> forall i :: 0 <= i < |children| ==> HasChildFields(children[i])
    ensures r.Some? ==>
      && |r.value| == |children|
      && forall i :: 0 <= i < |children| ==> r.value[i] == ChildBlock(children[i], parentName)
  {
    if children == [] then Some([])
    else
      var last := children[|children| - 1];
      match DetailBlocks(children[..|children| - 1], parentName)
      case None => None
      case Some(blocks) => if HasChildFields(last) then Some(blocks + [ChildBlock(last, parentName)]) else None
  }

  /** The multi-child context around the children's detail blocks. */
  function GroupContext(blocks: seq<string>): string {
    GroupHead + Join("", blocks) + GroupTail
  }

  /** `metadata.get("parentName")` as printed: a missing key prints as "None". */
  function ParentName(m: Metadata): string {
    if "parentName" in m then m["parentName"] else "None"
  }

  /** The metadata carries a non-empty `children` value. */
  predicate HasChildrenText(m: Metadata) {
    "children" in m && m["children"] != ""
  }

  /** Whether the personalised context raises: some child lacks a field,
      or there are children but no metadata to read the parent's name from. */
  predicate ContextRaises(children: seq<Child>, metadata: Option<Metadata>) {
    children != [] && (metadata.None? || exists i :: 0 <= i < |children| && !HasChildFields(children[i]))
  }

  /** Reference meaning of the personalised context: empty without
      children, otherwise the group text around one detail block per child
      in order; None when it raises. */
  function Context(children: seq<Child>, metadata: Option<Metadata>): (ctx: Option<string>)
    ensures ctx.None? <==> ContextRaises(children, metadata)
    ensures children == [] ==> ctx == Some("")
  {
    if children == [] then Some("")
    else if ContextRaises(children, metadata) then None
    else Some(GroupContext(DetailBlocks(children, ParentName(metadata.value)).value))
  }

  class LlmClient {
    var metadata: Option<Metadata>
    var messageHistory: seq<Message>
    var children: seq<Child>

    constructor ()
      ensures metadata == None && messageHistory == [] && children == []
    {
      metadata := None;
      messageHistory := [];
      children := [];
    }

    /** `set_metadata`: with present, non-empty dynamic variables the metadata
        is replaced, and when they carry a non-empty `children` text it is
        decoded by `parseChildren` (standing for `json.loads`; a failure
        raises after the metadata was already stored). Otherwise nothing
        changes. */
    method SetMetadata(dynamicVariables: Option<Metadata>, parseChildren: string -> Option<seq<Child>>)
      returns (raised: bool)
      modifies this
      ensures messageHistory == old(messageHistory)
      ensures metadata == if IsTruthy(dynamicVariables) then dynamicVariables else old(metadata)
      ensures raised <==> IsTruthy(dynamicVariables) && HasChildrenText(dynamicVariables.value)
                          && parseChildren(dynamicVariables.value["children"]).None?
      ensures children == if IsTruthy(dynamicVariables) && HasChildrenText(dynamicVariables.value) && !raised
                          then parseChildren(dynamicVariables.value["children"]).value
                          else old(children)
    {
      raised := false;
      if IsTruthy(dynamicVariables) {
        metadata := dynamicVariables;
        var m := dynamicVariables.value;
        if HasChildrenText(m) {
          var parsed := parseChildren(m["children"]);
          if parsed.None? {
            return true;
          }
          children := parsed.value;
        }
      }
    }

    /** `draft_begin_message`: greet all children by name; when a child has
        no name the KeyError leaves the history unchanged, otherwise exactly
        one assistant entry equal to the line is appended. No guard stops a
        second call from appending again. */
    method DraftBeginMessage() returns (r: Option<ResponseEvent>)
      modifies this
      ensures metadata == old(metadata) && children == old(children)
      ensures r.None? <==> exists i :: 0 <= i < |children| && children[i].childName.None?
      ensures r.None? ==> messageHistory == old(messageHistory)
      ensures r.Some? ==>
        && IsOpening(r.value)
        && r.value.content == WelcomeMessage(ChildrenGreeting(ChildNames(children).value))
        && messageHistory == old(messageHistory) + [Message(Assistant, r.value.content)]
    {
      var childNames := ChildNames(children);
      if childNames.None? {
        return None;
      }
      var welcomeMessage := WelcomeMessage(ChildrenGreeting(childNames.value));
      messageHistory := messageHistory + [Message(Assistant, welcomeMessage)];
      r := Some(ResponseEvent(0, welcomeMessage, true, false));
    }

    /** `convert_transcript_to_openai_messages`: a copy of the history followed
        by one message per utterance; the history itself is not touched. */
    method ConvertTranscript(transcript: seq<Utterance>) returns (messages: seq<Message>)
      ensures |messages| == |messageHistory| + |transcript|
      ensures forall i :: 0 <= i < |messageHistory| ==> messages[i] == messageHistory[i]
      ensures forall i :: 0 <= i < |transcript| ==> messages[|messageHistory| + i] == ToModelMessage(transcript[i])
    {
      messages := messageHistory;
      for i := 0 to |transcript|
        invariant |messages| == |messageHistory| + i
        invariant forall k :: 0 <= k < |messageHistory| ==> messages[k] == messageHistory[k]
        invariant forall k :: 0 <= k < i ==> messages[|messageHistory| + k] == ToModelMessage(transcript[k])
      {
        var u := transcript[i];
        if u.role == "agent" {
          messages := messages + [Message(Assistant, u.content)];
        } else {
          messages := messages + [Message(User, u.content)];
        }
      }
    }

    /** The personalised context of `prepare_prompt`, built child by child. */
    method PersonalizedContext() returns (ctx: Option<string>)
      ensures ctx == Context(children, metadata)
    {
      if children == [] {
        return Some("");
      }
      var childrenDetails: seq<string> := [];
      for i := 0 to |children|
        invariant |childrenDetails| == i
        invariant i > 0 ==> metadata.Some?
        invariant forall k :: 0 <= k < i ==> HasChildFields(children[k])
        invariant forall k :: 0 <= k < i ==> childrenDetails[k] == ChildBlock(children[k], ParentName(metadata.value))
      {
        var child := children[i];
        if !HasChildFields(child) || metadata.None? {
          return None;
        }
        childrenDetails := childrenDetails + [ChildBlock(child, ParentName(metadata.value))];
      }
      assert childrenDetails == DetailBlocks(children, ParentName(metadata.value)).value;
      ctx := Some(GroupContext(childrenDetails));
    }

    /** `prepare_prompt`: the system message, the history, the transcript in
        order, and the nudge last exactly when the request is a reminder;
        None when the personalised context raises. */
    method PreparePrompt(request: ResponseRequiredRequest) returns (prompt: Option<seq<Message>>)
      ensures prompt.None? <==> ContextRaises(children, metadata)
      ensures prompt.Some? ==> var h, t, p := messageHistory, request.transcript, prompt.value;
        && |p| == 1 + |h| + |t| + (if request.interactionType == ReminderRequired then 1 else 0)
        && p[0] == Message(System, PersonalizedSystemPrompt(AgentPrompt, Context(children, metadata).value))
        && (forall i :: 0 <= i < |h| ==> p[1 + i] == h[i])
        && (forall i :: 0 <= i < |t| ==> p[1 + |h| + i] == ToModelMessage(t[i]))
        && (request.interactionType == ReminderRequired ==> p[|p| - 1] == Message(User, ReminderNudge))
    {
      var personalizedContext := PersonalizedContext();
      if personalizedContext.None? {
        return None;
      }
      var transcriptMessages := ConvertTranscript(request.transcript);
      var messages := AssemblePrompt(PersonalizedSystemPrompt(AgentPrompt, personalizedContext.value), transcriptMessages,
                                     request.interactionType, ReminderNudge);
      prompt := Some(messages);
    }

    /** `draft_response`: a prompt that raises ends the generator before any
        event; otherwise the stream is reduced as a plain-text turn. */
    method DraftResponse(request: ResponseRequiredRequest, chunks: seq<Chunk>) returns (gen: Generation)
      ensures gen == if ContextRaises(children, metadata) then Generation([], true) else PlainTurn(request.responseId, chunks)
    {
      var prompt := PreparePrompt(request);
      if prompt.None? {
        return Generation([], true);
      }
      gen := StreamText(request.responseId, chunks);
    }
  }
}
