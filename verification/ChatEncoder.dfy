/** The chat-completions request encoder: one pass over the transcript, three id sets, and no more than
    one unanswered turn at a time. */
module ChatEncoder {
  import opened Options
  import opened Transcript

  datatype ChatToolCall = ChatToolCall(id: string, name: string, arguments: string)
  datatype ChatMessage = ChatMessage(role: string, content: string, toolCallId: string, toolCalls: seq<ChatToolCall>)

  /** JSON syntax enters only as a test of validity. */
  type JsonCheck = string -> bool

  predicate PlainText(m: Message) {
    forall i | 0 <= i < |m.parts| :: m.parts[i].kind == PART_TEXT && !m.parts[i].hasRef
  }

  function TextOf(parts: seq<Part>): string {
    if parts == [] then "" else parts[0].text + TextOf(parts[1..])
  }

  predicate ValidCall(valid: JsonCheck, call: ToolCall) {
    call.id != "" && call.name != "" && call.argumentsRef == "" && (call.arguments == "" || valid(call.arguments))
  }

  /** What a message must satisfy whatever came before it. */
  predicate Sendable(valid: JsonCheck, m: Message) {
    && m.role != "" && PlainText(m)
    && (IsTool(m) ==> m.toolCalls == [] && m.toolCallId != "")
    && (!IsTool(m) ==> m.toolCallId == "" && (m.toolCalls == [] || m.role == ROLE_ASSISTANT)
                       && forall i | 0 <= i < |m.toolCalls| :: ValidCall(valid, m.toolCalls[i]))
  }

  /** Plain text only; a call id on tool messages and no others; calls in assistant messages only, each with an id, a
      name and inline arguments that are JSON or empty. */
  ghost predicate FitsChat(valid: JsonCheck, m: Message) {
    && m.role != "" && (forall part | part in m.parts :: part.kind == "text" && !part.hasRef)
    && (m.role == "tool" <==> m.toolCallId != "") && (m.toolCalls != [] ==> m.role == "assistant")
    && forall call | call in m.toolCalls ::
         call.id != "" && call.name != "" && call.argumentsRef == "" && (call.arguments == "" || valid(call.arguments))
  }

  lemma SendableMeans(valid: JsonCheck, m: Message)
    ensures Sendable(valid, m) <==> FitsChat(valid, m)
  {
    assert forall i | 0 <= i < |m.parts| :: m.parts[i] in m.parts;
    assert forall i | 0 <= i < |m.toolCalls| :: m.toolCalls[i] in m.toolCalls;
  }

  function ChatCall(call: ToolCall): ChatToolCall {
    ChatToolCall(call.id, call.name, if call.arguments == "" then "{}" else call.arguments)
  }

  function ChatCalls(calls: seq<ToolCall>): seq<ChatToolCall> {
    seq(|calls|, i requires 0 <= i < |calls| => ChatCall(calls[i]))
  }

  function ChatForm(m: Message): ChatMessage {
    ChatMessage(m.role, TextOf(m.parts), if IsTool(m) then m.toolCallId else "", ChatCalls(m.toolCalls))
  }

  lemma {:induction false} TextOfIsFlat(parts: seq<Part>)
    ensures TextOf(parts) == Flat(PartTexts(parts))
  {
    if parts != [] {
      TextOfIsFlat(parts[1..]);
      assert PartTexts(parts)[1..] == PartTexts(parts[1..]);
    }
  }

  /** A message on the wire: its role, its part texts in order as one text, the call it answers, and its calls in order. */
  ghost predicate OnWire(m: Message, encoded: ChatMessage) {
    && encoded.role == m.role && encoded.content == Flat(PartTexts(m.parts))
    && encoded.toolCallId == m.toolCallId && |encoded.toolCalls| == |m.toolCalls|
    && forall i | 0 <= i < |m.toolCalls| ::
         && encoded.toolCalls[i].id == m.toolCalls[i].id && encoded.toolCalls[i].name == m.toolCalls[i].name
         && encoded.toolCalls[i].arguments == if m.toolCalls[i].arguments == "" then "{}" else m.toolCalls[i].arguments
  }

  lemma ChatFormOnWire(valid: JsonCheck, m: Message)
    requires Sendable(valid, m)
    ensures OnWire(m, ChatForm(m))
  {
    TextOfIsFlat(m.parts);
  }

  class ChatMessageEncoder {
    const valid: JsonCheck
    var pending: set<string>
    var completed: set<string>
    var seenCalls: set<string>

    constructor (valid: JsonCheck)
      ensures State() == EMPTY && this.valid == valid
    {
      this.valid := valid;
      pending, completed, seenCalls := {}, {}, {};
    }

    function State(): Ledger
      reads this
    {
      Ledger(pending, completed, seenCalls)
    }

    method EncodeToolCalls(calls: seq<ToolCall>) returns (encoded: Option<seq<ChatToolCall>>)
      modifies this
      ensures encoded.Some? <==>
        Declare(old(State()), Ids(calls)).Some? && forall i | 0 <= i < |calls| :: ValidCall(valid, calls[i])
      ensures encoded.Some? ==> encoded.value == ChatCalls(calls) && State() == Declare(old(State()), Ids(calls)).value
    {
      var list: seq<ChatToolCall> := [];
      var i := 0;
      assert Ids(calls)[0..] == Ids(calls);
      while i < |calls|
        invariant 0 <= i <= |calls| && |list| == i
        invariant forall k | 0 <= k < i :: ValidCall(valid, calls[k]) && list[k] == ChatCall(calls[k])
        invariant Declare(State(), Ids(calls)[i..]) == Declare(old(State()), Ids(calls))
      {
        var call := calls[i];
        assert Ids(calls)[i..][0] == call.id && Ids(calls)[i..][1..] == Ids(calls)[i + 1..];
        if !ValidCall(valid, call) || call.id in seenCalls {
          return None;
        }
        seenCalls := seenCalls + {call.id};
        pending := pending + {call.id};
        list := list + [ChatCall(call)];
        i := i + 1;
      }
      return Some(list);
    }

    method EncodeToolMessage(m: Message) returns (encoded: Option<ChatMessage>)
      requires IsTool(m)
      modifies this
      ensures encoded.Some? <==> Sendable(valid, m) && Advance(old(State()), m).Some?
      ensures encoded.Some? ==> encoded.value == ChatForm(m) && State() == Advance(old(State()), m).value
    {
      if m.toolCalls != [] || m.toolCallId == "" || m.toolCallId in completed || m.toolCallId !in pending || !PlainText(m) {
        return None;
      }
      pending := pending - {m.toolCallId};
      completed := completed + {m.toolCallId};
      return Some(ChatMessage(m.role, TextOf(m.parts), m.toolCallId, []));
    }

    /** One message: accepted when it is sendable and the calls it declares or answers fit what came before. */
    method Encode(m: Message) returns (encoded: Option<ChatMessage>)
      modifies this
      ensures encoded.Some? <==> Sendable(valid, m) && Advance(old(State()), m).Some?
      ensures encoded.Some? ==> encoded.value == ChatForm(m) && State() == Advance(old(State()), m).value
    {
      if m.role == "" {
        return None;
      }
      if IsTool(m) {
        encoded := EncodeToolMessage(m);
        return;
      }
      if pending != {} || m.toolCallId != "" || (m.toolCalls != [] && m.role != ROLE_ASSISTANT) || !PlainText(m) {
        return None;
      }
      var calls := EncodeToolCalls(m.toolCalls);
      if calls == None {
        return None;
      }
      return Some(ChatMessage(m.role, TextOf(m.parts), "", calls.value));
    }
  }

  /** The encoder accepts a transcript exactly when every message is sendable and the transcript is
      paired, and then encodes message by message. */
  method EncodeChatMessages(valid: JsonCheck, messages: seq<Message>) returns (encoded: Option<seq<ChatMessage>>)
    ensures encoded.Some? <==> Paired(messages) && forall i | 0 <= i < |messages| :: FitsChat(valid, messages[i])
    ensures encoded.Some? ==>
      |encoded.value| == |messages| && forall i | 0 <= i < |messages| :: OnWire(messages[i], encoded.value[i])
  {
    hide Paired, Advance, Sendable, ChatForm, OnWire, FitsChat;
    AcceptsPaired(messages);
    var encoder := new ChatMessageEncoder(valid);
    var list: seq<ChatMessage> := [];
    var i := 0;
    assert messages[0..] == messages;
    while i < |messages|
      invariant 0 <= i <= |messages| && |list| == i && encoder.valid == valid && fresh(encoder)
      invariant Follow(encoder.State(), messages[i..]) == Follow(EMPTY, messages)
      invariant forall k | 0 <= k < i :: FitsChat(valid, messages[k]) && OnWire(messages[k], list[k])
    {
      assert messages[i..][0] == messages[i] && messages[i..][1..] == messages[i + 1..];
      SendableMeans(valid, messages[i]);
      var item := encoder.Encode(messages[i]);
      if item == None {
        return None;
      }
      ChatFormOnWire(valid, messages[i]);
      list := list + [item.value];
      i := i + 1;
    }
    if encoder.pending != {} {
      return None;
    }
    return Some(list);
  }
}
