/** The Anthropic Santa persona (app/claude_with_func_calling.py): a fixed
    opening line, and a transcript conversion that starts from a fixed user
    preamble, merges consecutive user turns and replaces blank user turns
    with an ellipsis, so that the model sees alternating roles and never a
    blank user message. The client object holds no state of its own, so its
    operations are module-level here. */
module ClaudeLlm {
  import opened Protocol

  /** The fixed opening line, opaque. */
  const BeginSentence: string := "<opening line>"

  /** The user message every conversation starts with, opaque (never blank). */
  const Preamble: string := "<preamble>"

  /** What a blank user turn becomes. */
  const Ellipsis: string := "..."

  /** Python's `str.isspace` for one character. */
  predicate IsSpace(c: char) {
    || c == ' '
    || '\t' <= c <= '\r'
    || '\U{1C}' <= c <= '\U{1F}'
    || c == '\U{85}' || c == '\U{A0}' || c == '\U{1680}'
    || '\U{2000}' <= c <= '\U{200A}'
    || c == '\U{2028}' || c == '\U{2029}' || c == '\U{202F}' || c == '\U{205F}' || c == '\U{3000}'
  }

  /** `s.strip() == ""`: the text holds nothing but whitespace. */
  predicate IsBlank(s: string) {
    forall i :: 0 <= i < |s| ==> IsSpace(s[i])
  }

  /** `draft_begin_message`: the fixed line as the opening event. */
  function DraftBeginMessage(): (r: ResponseEvent)
    ensures IsOpening(r)
    ensures r.content == BeginSentence
  {
    ResponseEvent(0, BeginSentence, true, false)
  }

  predicate LastIsUser(messages: seq<Message>) {
    |messages| > 0 && messages[|messages| - 1].role == User
  }

  /** `messages[-1]["content"] += text`. */
  function AppendToLast(messages: seq<Message>, text: string): seq<Message>
    requires |messages| > 0
  {
    var last := messages[|messages| - 1];
    messages[|messages| - 1 := Message(last.role, last.content + text)]
  }

  /** How one utterance is added to the messages built so far. */
  function AddUtterance(messages: seq<Message>, u: Utterance): seq<Message> {
    if u.role == "agent" then messages + [Message(Assistant, u.content)]
    else
      var text := if IsBlank(u.content) then Ellipsis else u.content;
      if LastIsUser(messages) then AppendToLast(messages, " " + text) else messages + [Message(User, text)]
  }

  /** What adding one utterance does: an agent turn is appended as an
      assistant message; a user turn is merged into a trailing user message
      (the list keeps its length) or appended, and its text, or "..." for a
      blank one, ends the last message, which is then not blank. Every
      earlier message is kept. */
  lemma AddUtteranceEffect(messages: seq<Message>, u: Utterance)
    ensures var r := AddUtterance(messages, u);
      && (u.role == "agent" ==> r == messages + [Message(Assistant, u.content)])
      && (u.role != "agent" ==>
           && |r| == (if LastIsUser(messages) then |messages| else |messages| + 1)
           && r[|r| - 1].role == User
           && !IsBlank(r[|r| - 1].content)
           && EndsWith(r[|r| - 1].content, if IsBlank(u.content) then Ellipsis else u.content))
      && forall i :: 0 <= i < |messages| - 1 ==> r[i] == messages[i]
  {
    if u.role != "agent" {
      var text := if IsBlank(u.content) then Ellipsis else u.content;
      if text == Ellipsis {
        assert !IsSpace(Ellipsis[0]);
      }
      UserTextAdded(messages, text);
    }
  }

  /** A user turn keeps what was said: after a user message it is merged
      into that message as the earlier text, a space, then the new text (or
      "..." when blank); otherwise it is appended as a new user message. All
      other messages are unchanged. */
  lemma UserTurnMergesWithSpace(messages: seq<Message>, u: Utterance)
    requires u.role != "agent"
    ensures var text := if IsBlank(u.content) then Ellipsis else u.content;
      var r := AddUtterance(messages, u);
      && (LastIsUser(messages) ==>
            r == messages[..|messages| - 1] + [Message(User, messages[|messages| - 1].content + " " + text)])
      && (!LastIsUser(messages) ==> r == messages + [Message(User, text)])
  {
    if LastIsUser(messages) {
      var text := if IsBlank(u.content) then Ellipsis else u.content;
      var last := messages[|messages| - 1];
      assert last.content + (" " + text) == last.content + " " + text;
    }
  }

  /** The user branch of `AddUtterance` for the text it adds, not blank. */
  lemma UserTextAdded(messages: seq<Message>, text: string)
    requires !IsBlank(text)
    ensures var r := if LastIsUser(messages) then AppendToLast(messages, " " + text) else messages + [Message(User, text)];
      && |r| == (if LastIsUser(messages) then |messages| else |messages| + 1)
      && r[|r| - 1].role == User
      && !IsBlank(r[|r| - 1].content)
      && EndsWith(r[|r| - 1].content, text)
      && forall i :: 0 <= i < |messages| - 1 ==> r[i] == messages[i]
  {
    if LastIsUser(messages) {
      var last := messages[|messages| - 1].content;
      NotBlankSuffix(last + " ", text);
      assert last + " " + text == last + (" " + text);
    } else {
      NotBlankSuffix("", text);
      assert "" + text == text;
    }
  }

  /** `s` ends with `t`. */
  predicate EndsWith(s: string, t: string) {
    |t| <= |s| && s[|s| - |t|..] == t
  }

  /** Putting anything before a text that is not blank leaves it not blank. */
  lemma NotBlankSuffix(s: string, t: string)
    requires !IsBlank(t)
    ensures !IsBlank(s + t)
    ensures EndsWith(s + t, t)
  {
    var i :| 0 <= i < |t| && !IsSpace(t[i]);
    assert (s + t)[|s| + i] == t[i];
    assert (s + t)[|s|..] == t;
  }

  /** Reference meaning of the conversion: the preamble, then every utterance
      added in transcript order. */
  function Reconciled(transcript: seq<Utterance>): seq<Message> {
    if transcript == [] then [Message(User, Preamble)]
    else AddUtterance(Reconciled(transcript[..|transcript| - 1]), transcript[|transcript| - 1])
  }

  /** `convert_transcript_to_anthropic_messages`. */
  method ConvertTranscript(transcript: seq<Utterance>) returns (messages: seq<Message>)
    ensures messages == Reconciled(transcript)
  {
    messages := [Message(User, Preamble)];
    for i := 0 to |transcript|
      invariant messages == Reconciled(transcript[..i])
    {
      var utterance := transcript[i];
      ghost var before := messages;
      if utterance.role == "agent" {
        messages := messages + [Message(Assistant, utterance.content)];
      } else {
        if !IsBlank(utterance.content) {
          if |messages| > 0 && messages[|messages| - 1].role == User {
            var last := messages[|messages| - 1];
            messages := messages[|messages| - 1 := Message(User, last.content + " " + utterance.content)];
            assert last.content + " " + utterance.content == last.content + (" " + utterance.content);
          } else {
            messages := messages + [Message(User, utterance.content)];
          }
        } else {
          if |messages| > 0 && messages[|messages| - 1].role == User {
            var last := messages[|messages| - 1];
            messages := messages[|messages| - 1 := Message(User, last.content + " " + Ellipsis)];
            assert last.content + " " + Ellipsis == last.content + (" " + Ellipsis);
          } else {
            messages := messages + [Message(User, Ellipsis)];
          }
        }
      }
      assert messages == AddUtterance(before, utterance);
      assert transcript[..i + 1][..i] == transcript[..i];
    }
    assert transcript[..|transcript|] == transcript;
  }

  // ---------------------------------------------------------------------
  // What the conversion guarantees
  // ---------------------------------------------------------------------

  /** The shape the model is given: it starts with a user message that begins
      with the preamble, has no system message, never has two user messages
      in a row, and no user message is blank. */
  predicate WellFormed(messages: seq<Message>) {
    && |messages| >= 1
    && messages[0].role == User
    && |messages[0].content| >= |Preamble| && messages[0].content[..|Preamble|] == Preamble
    && (forall i :: 0 <= i < |messages| ==> messages[i].role != System)
    && (forall i :: 0 <= i < |messages| - 1 ==> !(messages[i].role == User && messages[i + 1].role == User))
    && (forall i :: 0 <= i < |messages| ==> messages[i].role == User ==> !IsBlank(messages[i].content))
  }

  /** Appending anything to a text that is not blank leaves it not blank. */
  lemma NotBlankAppend(s: string, t: string)
    requires !IsBlank(s)
    ensures !IsBlank(s + t)
  {
    var i :| 0 <= i < |s| && !IsSpace(s[i]);
    assert (s + t)[i] == s[i];
  }

  /** Adding an utterance keeps the shape. */
  lemma AddUtteranceKeepsShape(messages: seq<Message>, u: Utterance)
    requires WellFormed(messages)
    ensures WellFormed(AddUtterance(messages, u))
  {
    var r := AddUtterance(messages, u);
    var n := |messages|;
    if u.role != "agent" && LastIsUser(messages) {
      var extra := if IsBlank(u.content) then " " + Ellipsis else " " + u.content;
      assert r == AppendToLast(messages, extra);
      NotBlankAppend(messages[n - 1].content, extra);
      if n == 1 {
        assert r[0].content == messages[0].content + extra;
        assert r[0].content[..|Preamble|] == messages[0].content[..|Preamble|];
      }
    } else if u.role != "agent" && IsBlank(u.content) {
      assert r == messages + [Message(User, Ellipsis)];
      assert !IsSpace(Ellipsis[0]);
    }
  }

  /** Every conversion has the shape: the model never sees an empty list, two
      user messages in a row, or a blank user message. */
  lemma {:induction false} ReconciledWellFormed(transcript: seq<Utterance>)
    ensures WellFormed(Reconciled(transcript))
  {
    if transcript == [] {
      assert Preamble[0] == '<';
      assert [Message(User, Preamble)][0].content[..|Preamble|] == Preamble;
    } else {
      ReconciledWellFormed(transcript[..|transcript| - 1]);
      AddUtteranceKeepsShape(Reconciled(transcript[..|transcript| - 1]), transcript[|transcript| - 1]);
    }
  }

  /** The contents of the assistant messages, in order. */
  function AssistantContents(messages: seq<Message>): seq<string> {
    if messages == [] then []
    else AssistantContents(messages[..|messages| - 1])
         + (if messages[|messages| - 1].role == Assistant then [messages[|messages| - 1].content] else [])
  }

  /** The contents of the agent's utterances, in order. */
  function AgentContents(transcript: seq<Utterance>): seq<string> {
    if transcript == [] then []
    else AgentContents(transcript[..|transcript| - 1])
         + (if transcript[|transcript| - 1].role == "agent" then [transcript[|transcript| - 1].content] else [])
  }

  /** The agent's turns come through one for one: as many assistant messages
      as agent utterances, in the same order, with the same text. */
  lemma {:induction false} AgentTurnsPreserved(transcript: seq<Utterance>)
    ensures AssistantContents(Reconciled(transcript)) == AgentContents(transcript)
  {
    if transcript != [] {
      var prefix := transcript[..|transcript| - 1];
      var u := transcript[|transcript| - 1];
      var before := Reconciled(prefix);
      AgentTurnsPreserved(prefix);
      ReconciledWellFormed(prefix);
      if u.role == "agent" {
        assert (before + [Message(Assistant, u.content)])[..|before|] == before;
      } else if LastIsUser(before) {
        var extra := if IsBlank(u.content) then " " + Ellipsis else " " + u.content;
        var after := AppendToLast(before, extra);
        assert Reconciled(transcript) == after;
        assert after[..|after| - 1] == before[..|before| - 1];
      } else {
        var added := if IsBlank(u.content) then Ellipsis else u.content;
        assert Reconciled(transcript) == before + [Message(User, added)];
        assert (before + [Message(User, added)])[..|before|] == before;
      }
    }
  }

  /** One step of a pass-through conversion: an agent turn, or a non-blank
      user turn after a message that is not the user's, is added as one
      message. */
  lemma PassThroughStep(before: seq<Message>, u: Utterance)
    requires u.role != "agent" ==> !LastIsUser(before) && !IsBlank(u.content)
    ensures AddUtterance(before, u) == before + [ToModelMessage(u)]
  {
  }

  /** A transcript that opens with the agent, alternates roles and has no
      blank user turn is passed through one for one after the preamble. */
  lemma {:induction false} AlternatingTranscriptPassesThrough(transcript: seq<Utterance>)
    requires transcript != [] ==> transcript[0].role == "agent"
    requires forall i :: 0 <= i < |transcript| ==> transcript[i].role != "agent" ==> !IsBlank(transcript[i].content)
    requires forall i :: 0 <= i < |transcript| - 1 ==> transcript[i].role == "agent" || transcript[i + 1].role == "agent"
    ensures var r := Reconciled(transcript);
      && |r| == 1 + |transcript|
      && r[0] == Message(User, Preamble)
      && forall i :: 0 <= i < |transcript| ==> r[1 + i] == ToModelMessage(transcript[i])
  {
    if transcript != [] {
      var n := |transcript|;
      var prefix := transcript[..n - 1];
      AlternatingTranscriptPassesThrough(prefix);
      var before := Reconciled(prefix);
      var u := transcript[n - 1];
      if u.role != "agent" {
        assert n >= 2 && prefix[n - 2] == transcript[n - 2];
        assert before[|before| - 1] == ToModelMessage(prefix[n - 2]);
      }
      PassThroughStep(before, u);
      var r := Reconciled(transcript);
      assert r == before + [ToModelMessage(u)];
      forall i | 0 <= i < n
        ensures r[1 + i] == ToModelMessage(transcript[i])
      {
        if i < n - 1 {
          assert r[1 + i] == before[1 + i] && prefix[i] == transcript[i];
        }
      }
    }
  }
}
