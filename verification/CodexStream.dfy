/** The Responses stream collector: what it keeps of a stream, event by event, and that the assistant
    message it builds replays through the request encoder. */
module CodexStream {
  import opened Options
  import opened Ordering
  import opened Transcript
  import opened ResponseState
  import opened ChatEncoder
  import opened CodexEncoder

  const MAX_OUTPUT_BYTES := 16 * 1024 * 1024

  datatype Content = OutputText(text: string) | RefusalText(refusal: string) | OtherContent
  datatype Usage = Usage(input: int, output: int, total: int)

  /** Stream events after JSON decoding; an item event still carries its item's JSON text. */
  datatype Event =
    | TextDelta(value: string)
    | RefusalDelta(value: string)
    | ItemDone(item: string)
    | Completed(id: string, usage: Option<Usage>)
    | Silent    // reasoning and tool-argument deltas, and unknown event types
    | Failure   // failed, incomplete or error events, and undecodable ones
    | Done      // the [DONE] marker

  /** The JSON library, and how the content list of a message item decodes. */
  datatype Decoder = Decoder(json: JsonCodec, contents: map<string, Field> -> Option<seq<Content>>)

  // What one item says.

  function ItemFields(dec: Decoder, item: string): map<string, Field> {
    var decoded := dec.json.decode(item);
    if decoded.Object? then decoded.fields else map[]
  }

  function ItemState(dec: Decoder, item: string): State {
    var state := Fields(ItemFields(dec, item));
    if state.Some? then state.value else State("", "", "", "")
  }

  predicate IsStateItem(dec: Decoder, e: Event) {
    e.ItemDone? && ItemState(dec, e.item).kind in {TYPE_REASONING, TYPE_FUNCTION_CALL}
  }

  predicate IsCall(dec: Decoder, e: Event) {
    e.ItemDone? && ItemState(dec, e.item).kind == TYPE_FUNCTION_CALL
  }

  function StateText(dec: Decoder, item: string): string {
    dec.json.encode(Canonical(ItemFields(dec, item)))
  }

  function CallOf(dec: Decoder, item: string): ToolCall {
    var state := ItemState(dec, item);
    ToolCall(state.callId, state.name, state.arguments, "")
  }

  function Contents(dec: Decoder, e: Event): seq<Content> {
    if e.ItemDone? && ItemState(dec, e.item).kind == "message" then
      var contents := dec.contents(ItemFields(dec, e.item));
      if contents.Some? then contents.value else []
    else []
  }

  function Texts(contents: seq<Content>): string {
    if contents == [] then "" else (if contents[0].OutputText? then contents[0].text else "") + Texts(contents[1..])
  }

  function Refusals(contents: seq<Content>): string {
    if contents == [] then "" else (if contents[0].RefusalText? then contents[0].refusal else "") + Refusals(contents[1..])
  }

  // What a stream says, independent of how it is collected.

  function Before(h: seq<Event>): seq<Event>
    requires h != []
  {
    h[..|h| - 1]
  }

  function Last(h: seq<Event>): Event
    requires h != []
  {
    h[|h| - 1]
  }

  /** Canonical reasoning and function-call items, in stream order. */
  function StateTexts(dec: Decoder, h: seq<Event>): seq<string> {
    if h == [] then []
    else StateTexts(dec, Before(h)) + if IsStateItem(dec, Last(h)) then [StateText(dec, Last(h).item)] else []
  }

  function Calls(dec: Decoder, h: seq<Event>): seq<ToolCall> {
    if h == [] then []
    else Calls(dec, Before(h)) + if IsCall(dec, Last(h)) then [CallOf(dec, Last(h).item)] else []
  }

  predicate SawTextDelta(h: seq<Event>) {
    exists i :: 0 <= i < |h| && h[i].TextDelta? && h[i].value != ""
  }

  predicate SawRefusalDelta(h: seq<Event>) {
    exists i :: 0 <= i < |h| && h[i].RefusalDelta? && h[i].value != ""
  }

  /** The text an event adds: a delta, or a finished message when no delta came before it. */
  function AddedText(dec: Decoder, h: seq<Event>, e: Event): string {
    if e.TextDelta? then e.value else if SawTextDelta(h) then "" else Texts(Contents(dec, e))
  }

  function AddedRefusal(dec: Decoder, h: seq<Event>, e: Event): string {
    if e.RefusalDelta? then e.value else if SawRefusalDelta(h) then "" else Refusals(Contents(dec, e))
  }

  function TextOfStream(dec: Decoder, h: seq<Event>): string {
    if h == [] then "" else TextOfStream(dec, Before(h)) + AddedText(dec, Before(h), Last(h))
  }

  function RefusalOfStream(dec: Decoder, h: seq<Event>): string {
    if h == [] then "" else RefusalOfStream(dec, Before(h)) + AddedRefusal(dec, Before(h), Last(h))
  }

  /** How many state items came before the first text. */
  function TextPosition(dec: Decoder, h: seq<Event>): (at: nat)
    ensures at <= |StateTexts(dec, h)|
  {
    if h == [] then 0
    else if TextOfStream(dec, Before(h)) == "" && TextOfStream(dec, h) != "" then |StateTexts(dec, Before(h))|
    else TextPosition(dec, Before(h))
  }

  function TotalLength(texts: seq<string>): nat {
    if texts == [] then 0 else TotalLength(texts[..|texts| - 1]) + |texts[|texts| - 1]|
  }

  predicate ItemDecodes(dec: Decoder, item: string) {
    && item != "" && |item| <= MAX_STREAM_FRAME_BYTES && dec.json.decode(item).Object?
    && Fields(ItemFields(dec, item)).Some? && Str(ItemFields(dec, item), "id").Some?
    && dec.contents(ItemFields(dec, item)).Some?
  }

  predicate StateFits(dec: Decoder, h: seq<Event>, item: string) {
    TotalLength(StateTexts(dec, h)) + |StateText(dec, item)| <= MAX_OUTPUT_BYTES
  }

  predicate ItemAcceptable(dec: Decoder, h: seq<Event>, item: string) {
    && ItemDecodes(dec, item)
    && var state := ItemState(dec, item);
    || (state.kind == TYPE_REASONING && StateFits(dec, h, item))
    || (state.kind == TYPE_FUNCTION_CALL && Replayable(dec.json, state)
        && state.callId !in Ids(Calls(dec, h)) && StateFits(dec, h, item))
    || (state.kind == "message" && |TextOfStream(dec, h)| + |AddedText(dec, h, ItemDone(item))| <= MAX_OUTPUT_BYTES)
  }

  /** Whether the collector takes `e` after `h`. */
  predicate Acceptable(dec: Decoder, h: seq<Event>, e: Event) {
    match e
    case TextDelta(value) => value == "" || |TextOfStream(dec, h)| + |value| <= MAX_OUTPUT_BYTES
    case RefusalDelta(_) => true
    case ItemDone(item) => ItemAcceptable(dec, h, item)
    case Completed(id, usage) =>
      id != "" && (usage.Some? ==> 0 <= usage.value.input && 0 <= usage.value.output && 0 <= usage.value.total)
    case Silent => true
    case Failure => false
    case Done => false
  }

  predicate AllAcceptable(dec: Decoder, h: seq<Event>) {
    h != [] ==> AllAcceptable(dec, Before(h)) && Acceptable(dec, Before(h), Last(h))
  }

  // The collector.

  class StreamResult {
    const dec: Decoder
    ghost var history: seq<Event>
    var text: string
    var stateParts: seq<string>
    var calls: seq<ToolCall>
    var seenCallIds: set<string>
    var refusal: string
    var completed: bool
    var sawTextDelta: bool
    var sawRefusal: bool
    var textStarted: bool
    var textStateAt: nat
    var stateBytes: nat

    /** Every field is what the stream so far says. */
    ghost predicate Valid()
      reads this
    {
      && AllAcceptable(dec, history)
      && text == TextOfStream(dec, history) && |text| <= MAX_OUTPUT_BYTES
      && stateParts == StateTexts(dec, history) && stateBytes == TotalLength(stateParts)
      && calls == Calls(dec, history) && seenCallIds == Elements(Ids(calls))
      && refusal == RefusalOfStream(dec, history)
      && (sawTextDelta <==> SawTextDelta(history)) && (sawRefusal <==> SawRefusalDelta(history))
      && (textStarted <==> text != "") && (textStarted ==> textStateAt == TextPosition(dec, history))
      && (completed <==> exists i :: 0 <= i < |history| && history[i].Completed?)
    }

    constructor (dec: Decoder)
      ensures Valid() && history == [] && !completed && this.dec == dec
    {
      this.dec := dec;
      history := [];
      text, refusal, stateParts, calls, seenCallIds := "", "", [], [], {};
      completed, sawTextDelta, sawRefusal, textStarted, textStateAt, stateBytes := false, false, false, false, 0, 0;
      new;
      assert Elements(Ids(calls)) == {};
    }

    method AppendText(value: string) returns (ok: bool)
      requires value != ""
      modifies this`text, this`textStarted, this`textStateAt
      ensures ok <==> old(|text|) + |value| <= MAX_OUTPUT_BYTES
      ensures ok ==> text == old(text) + value && textStarted
      ensures ok ==> textStateAt == if old(textStarted) then old(textStateAt) else |stateParts|
    {
      if MAX_OUTPUT_BYTES < |text| + |value| {
        return false;
      }
      if !textStarted {
        textStarted, textStateAt := true, |stateParts|;
      }
      text := text + value;
      return true;
    }

    method AddStatePart(fields: map<string, Field>) returns (ok: bool)
      modifies this`stateParts, this`stateBytes
      ensures var canonical := dec.json.encode(Canonical(fields));
        && (ok <==> old(stateBytes) + |canonical| <= MAX_OUTPUT_BYTES)
        && (ok ==> stateParts == old(stateParts) + [canonical] && stateBytes == old(stateBytes) + |canonical|)
    {
      var canonical := dec.json.encode(Canonical(fields));
      stateBytes := stateBytes + |canonical|;
      if MAX_OUTPUT_BYTES < stateBytes {
        return false;
      }
      stateParts := stateParts + [canonical];
      return true;
    }

    method AddFunctionCall(state: State, fields: map<string, Field>) returns (ok: bool)
      requires state.kind == TYPE_FUNCTION_CALL
      modifies this`stateParts, this`stateBytes, this`calls, this`seenCallIds
      ensures var canonical := dec.json.encode(Canonical(fields));
        && (ok <==> Replayable(dec.json, state) && state.callId !in old(seenCallIds) && old(stateBytes) + |canonical| <= MAX_OUTPUT_BYTES)
        && (ok ==> stateParts == old(stateParts) + [canonical] && stateBytes == old(stateBytes) + |canonical|
                   && calls == old(calls) + [ToolCall(state.callId, state.name, state.arguments, "")]
                   && seenCallIds == old(seenCallIds) + {state.callId})
    {
      if state.callId == "" || state.name == "" || !ValidJson(dec.json, state.arguments) || state.callId in seenCallIds {
        return false;
      }
      seenCallIds := seenCallIds + {state.callId};
      calls := calls + [ToolCall(state.callId, state.name, state.arguments, "")];
      ok := AddStatePart(fields);
    }

    method AddMessageItem(contents: seq<Content>) returns (ok: bool)
      modifies this`text, this`textStarted, this`textStateAt, this`refusal
      requires textStarted <==> text != ""
      requires |text| <= MAX_OUTPUT_BYTES
      ensures var added := if sawTextDelta then "" else Texts(contents);
        && (ok <==> old(|text|) + |added| <= MAX_OUTPUT_BYTES)
        && (ok ==> text == old(text) + added && (textStarted <==> text != ""))
        && (ok && !old(textStarted) && textStarted ==> textStateAt == |stateParts|)
        && (ok && old(textStarted) ==> textStateAt == old(textStateAt))
      ensures ok ==> refusal == old(refusal) + if sawRefusal then "" else Refusals(contents)
    {
      hide Texts, Refusals;
      var i := 0;
      ghost var before, refused := text, refusal;
      assert contents[0..] == contents;
      while i < |contents|
        invariant 0 <= i <= |contents|
        invariant if sawTextDelta then text == before else text + Texts(contents[i..]) == before + Texts(contents)
        invariant if sawRefusal then refusal == refused else refusal + Refusals(contents[i..]) == refused + Refusals(contents)
        invariant |text| <= MAX_OUTPUT_BYTES && (textStarted <==> text != "")
        invariant !old(textStarted) && textStarted ==> textStateAt == |stateParts|
        invariant old(textStarted) ==> textStarted && textStateAt == old(textStateAt)
      {
        ContentStep(contents, i, text, refusal);
        ok := AddMessageContent(contents[i]);
        if !ok {
          return;
        }
        i := i + 1;
      }
      NoContent();
      assert contents[i..] == [];
      return true;
    }

    method AddMessageContent(content: Content) returns (ok: bool)
      modifies this`text, this`textStarted, this`textStateAt, this`refusal
      requires textStarted <==> text != ""
      requires |text| <= MAX_OUTPUT_BYTES
      ensures var added := if content.OutputText? && !sawTextDelta then content.text else "";
        && (ok <==> old(|text|) + |added| <= MAX_OUTPUT_BYTES)
        && (ok ==> text == old(text) + added && (textStarted <==> text != ""))
        && (ok && !old(textStarted) && textStarted ==> textStateAt == |stateParts|)
        && (ok && old(textStarted) ==> textStateAt == old(textStateAt))
      ensures ok ==> refusal == old(refusal) + if content.RefusalText? && !sawRefusal then content.refusal else ""
    {
      ok := true;
      if content.OutputText? && !sawTextDelta && content.text != "" {
        ok := AppendText(content.text);
      } else if content.RefusalText? && !sawRefusal && content.refusal != "" {
        refusal := refusal + content.refusal;
      }
    }

    /** `handleEvent`: takes exactly the acceptable events and keeps every field in step with the stream. */
    method HandleEvent(e: Event) returns (ok: bool, terminal: bool)
      requires Valid()
      modifies this
      ensures ok <==> Acceptable(dec, old(history), e)
      ensures ok ==> Valid() && history == old(history) + [e] && (terminal <==> e.Completed?)
      ensures ok && terminal ==> completed
    {
      hide Valid, ItemAcceptable;
      terminal := e.Completed?;
      match e {
        case TextDelta(value) => ok := HandleTextDelta(value);
        case RefusalDelta(value) => ok := HandleRefusalDelta(value);
        case ItemDone(item) => ok := HandleItem(item);
        case Completed(id, usage) => ok := HandleCompleted(id, usage);
        case Silent => ok := HandleSilent();
        case Failure => ok := false;
        case Done => ok := false;
      }
    }

    method HandleTextDelta(value: string) returns (ok: bool)
      requires Valid()
      modifies this
      ensures ok <==> Acceptable(dec, old(history), TextDelta(value))
      ensures ok ==> Valid() && history == old(history) + [TextDelta(value)]
    {
      hide TextOfStream, RefusalOfStream, StateTexts, Calls, TextPosition, AllAcceptable, ItemFields, Fields, Canonical, Texts, Refusals,
        SawTextDelta, SawRefusalDelta, TotalLength, Ids, ItemAcceptable, IsStateItem, IsCall, StateText, CallOf;
      ghost var h := history;
      Extended(dec, h, TextDelta(value));
      FlagsExtended(h, TextDelta(value));
      ok := true;
      if value != "" {
        sawTextDelta := true;
        ok := AppendText(value);
      }
      if ok {
        history := h + [TextDelta(value)];
      }
    }

    method HandleRefusalDelta(value: string) returns (ok: bool)
      requires Valid()
      modifies this
      ensures ok <==> Acceptable(dec, old(history), RefusalDelta(value))
      ensures ok ==> Valid() && history == old(history) + [RefusalDelta(value)]
    {
      hide TextOfStream, RefusalOfStream, StateTexts, Calls, TextPosition, AllAcceptable, ItemFields, Fields, Canonical, Texts, Refusals,
        SawTextDelta, SawRefusalDelta, TotalLength, Ids, ItemAcceptable, IsStateItem, IsCall, StateText, CallOf;
      ghost var h := history;
      Extended(dec, h, RefusalDelta(value));
      FlagsExtended(h, RefusalDelta(value));
      if value != "" {
        sawRefusal := true;
        refusal := refusal + value;
      }
      history := h + [RefusalDelta(value)];
      return true;
    }

    method HandleItem(item: string) returns (ok: bool)
      requires Valid()
      modifies this
      ensures ok <==> Acceptable(dec, old(history), ItemDone(item))
      ensures ok ==> Valid() && history == old(history) + [ItemDone(item)]
    {
      hide TextOfStream, RefusalOfStream, StateTexts, Calls, TextPosition, AllAcceptable, ItemFields, Fields, Canonical, Texts, Refusals,
        SawTextDelta, SawRefusalDelta, TotalLength, Ids, ItemAcceptable, IsStateItem, IsCall, StateText, CallOf;
      ghost var h := history;
      Extended(dec, h, ItemDone(item));
      FlagsExtended(h, ItemDone(item));
      ok := AddOutputItem(item);
      if ok {
        history := h + [ItemDone(item)];
      }
    }

    method HandleCompleted(id: string, usage: Option<Usage>) returns (ok: bool)
      requires Valid()
      modifies this
      ensures ok <==> Acceptable(dec, old(history), Completed(id, usage))
      ensures ok ==> Valid() && history == old(history) + [Completed(id, usage)] && completed
    {
      hide TextOfStream, RefusalOfStream, StateTexts, Calls, TextPosition, AllAcceptable, ItemFields, Fields, Canonical, Texts, Refusals,
        SawTextDelta, SawRefusalDelta, TotalLength, Ids, ItemAcceptable, IsStateItem, IsCall, StateText, CallOf;
      ghost var h := history;
      Extended(dec, h, Completed(id, usage));
      FlagsExtended(h, Completed(id, usage));
      if id == "" || (usage.Some? && (usage.value.input < 0 || usage.value.output < 0 || usage.value.total < 0)) {
        return false;
      }
      completed := true;
      history := h + [Completed(id, usage)];
      return true;
    }

    method HandleSilent() returns (ok: bool)
      requires Valid()
      modifies this
      ensures ok <==> Acceptable(dec, old(history), Silent)
      ensures ok ==> Valid() && history == old(history) + [Silent]
    {
      hide TextOfStream, RefusalOfStream, StateTexts, Calls, TextPosition, AllAcceptable, ItemFields, Fields, Canonical, Texts, Refusals,
        SawTextDelta, SawRefusalDelta, TotalLength, Ids, ItemAcceptable, IsStateItem, IsCall, StateText, CallOf;
      ghost var h := history;
      Extended(dec, h, Silent);
      FlagsExtended(h, Silent);
      history := h + [Silent];
      return true;
    }

    method AddOutputItem(item: string) returns (ok: bool)
      requires Valid()
      modifies this`text, this`textStarted, this`textStateAt, this`refusal, this`stateParts, this`stateBytes, this`calls, this`seenCallIds
      ensures ok <==> ItemAcceptable(dec, history, item)
      ensures var e := ItemDone(item); ok ==>
        && text == old(text) + AddedText(dec, history, e) && |text| <= MAX_OUTPUT_BYTES && (textStarted <==> text != "")
        && (!old(textStarted) && textStarted ==> textStateAt == old(|stateParts|))
        && (old(textStarted) ==> textStateAt == old(textStateAt))
        && refusal == old(refusal) + AddedRefusal(dec, history, e)
        && stateParts == old(stateParts) + (if IsStateItem(dec, e) then [StateText(dec, item)] else [])
        && calls == old(calls) + (if IsCall(dec, e) then [CallOf(dec, item)] else [])
        && stateBytes == old(stateBytes) + (if IsStateItem(dec, e) then |StateText(dec, item)| else 0)
        && seenCallIds == old(seenCallIds) + (if IsCall(dec, e) then {CallOf(dec, item).id} else {})
    {
      hide TextOfStream, RefusalOfStream, StateTexts, Calls, TextPosition, AllAcceptable, Fields, Canonical, SawTextDelta, SawRefusalDelta;
      NothingAdded(dec, history, item);
      if !ItemDecodes(dec, item) {
        return false;
      }
      var fields := ItemFields(dec, item);
      var state := Fields(fields).value;
      if state.kind == TYPE_REASONING {
        ok := AddStatePart(fields);
      } else if state.kind == TYPE_FUNCTION_CALL {
        ok := AddFunctionCall(state, fields);
      } else if state.kind == "message" {
        ok := AddMessageItem(dec.contents(fields).value);
      } else {
        ok := false;
      }
    }

    /** The assistant message of a completed stream; a refusal together with tool calls is an error. */
    method Response() returns (message: Option<Message>)
      requires Valid()
      ensures message == if completed then ResponseMessage(dec, history) else None
    {
      if !completed || (calls != [] && refusal != "") {
        return None;
      }
      var parts := MessageParts();
      if calls == [] && refusal != "" && parts == [] {
        parts := [Part(PART_TEXT, refusal, false)];
      }
      return Some(Message(ROLE_ASSISTANT, parts, calls, ""));
    }

    method MessageParts() returns (parts: seq<Part>)
      requires Valid()
      ensures parts == Parts(StateTexts(dec, history), TextOfStream(dec, history), TextPosition(dec, history))
    {
      if text == "" {
        return StateParts(stateParts);
      }
      var split := if textStateAt < |stateParts| then textStateAt else |stateParts|;
      return StateParts(stateParts[..split]) + [Part(PART_TEXT, text, false)] + StateParts(stateParts[split..]);
    }
  }

  lemma ContentStep(contents: seq<Content>, i: nat, text: string, refusal: string)
    requires i < |contents|
    ensures var added, refused := if contents[i].OutputText? then contents[i].text else "", if contents[i].RefusalText? then contents[i].refusal else "";
      && (text + added) + Texts(contents[i + 1..]) == text + Texts(contents[i..])
      && (refusal + refused) + Refusals(contents[i + 1..]) == refusal + Refusals(contents[i..])
  {
    assert contents[i..][0] == contents[i] && contents[i..][1..] == contents[i + 1..];
  }

  lemma NoContent()
    ensures Texts([]) == "" && Refusals([]) == ""
  {}

  function StatePart(text: string): Part {
    Part(PART_RESPONSE_ITEM, text, false)
  }

  function StateParts(texts: seq<string>): (parts: seq<Part>)
    ensures |parts| == |texts| && forall i | 0 <= i < |texts| :: parts[i] == StatePart(texts[i])
  {
    if texts == [] then [] else [StatePart(texts[0])] + StateParts(texts[1..])
  }

  /** State parts in stream order, the text where it first appeared. */
  function Parts(states: seq<string>, text: string, at: nat): seq<Part>
    requires at <= |states|
  {
    if text == "" then StateParts(states)
    else StateParts(states[..at]) + [Part(PART_TEXT, text, false)] + StateParts(states[at..])
  }

  function ResponseMessage(dec: Decoder, h: seq<Event>): Option<Message> {
    var calls, refusal := Calls(dec, h), RefusalOfStream(dec, h);
    var parts := Parts(StateTexts(dec, h), TextOfStream(dec, h), TextPosition(dec, h));
    if calls != [] && refusal != "" then None
    else Some(Message(ROLE_ASSISTANT,
                      if refusal != "" && parts == [] then [Part(PART_TEXT, refusal, false)] else parts, calls, ""))
  }

  /** The declarative functions after one more event. */
  lemma Extended(dec: Decoder, h: seq<Event>, e: Event)
    ensures var g := h + [e];
      && StateTexts(dec, g) == StateTexts(dec, h) + (if IsStateItem(dec, e) then [StateText(dec, e.item)] else [])
      && Calls(dec, g) == Calls(dec, h) + (if IsCall(dec, e) then [CallOf(dec, e.item)] else [])
      && TotalLength(StateTexts(dec, g)) == TotalLength(StateTexts(dec, h)) + (if IsStateItem(dec, e) then |StateText(dec, e.item)| else 0)
      && Elements(Ids(Calls(dec, g))) == Elements(Ids(Calls(dec, h))) + (if IsCall(dec, e) then {CallOf(dec, e.item).id} else {})
      && TextOfStream(dec, g) == TextOfStream(dec, h) + AddedText(dec, h, e)
      && RefusalOfStream(dec, g) == RefusalOfStream(dec, h) + AddedRefusal(dec, h, e)
      && TextPosition(dec, g) == (if TextOfStream(dec, h) == "" && TextOfStream(dec, g) != "" then |StateTexts(dec, h)| else TextPosition(dec, h))
      && (AllAcceptable(dec, g) <==> AllAcceptable(dec, h) && Acceptable(dec, h, e))
    ensures !e.ItemDone? && !e.TextDelta? ==> AddedText(dec, h, e) == ""
    ensures !e.ItemDone? && !e.RefusalDelta? ==> AddedRefusal(dec, h, e) == ""
    ensures !e.ItemDone? ==> !IsStateItem(dec, e) && !IsCall(dec, e)
  {
    var g := h + [e];
    assert Before(g) == h && Last(g) == e;
    hide ItemState, StateText, CallOf, AddedText, AddedRefusal, Acceptable;
    IdsExtended(Calls(dec, h), Calls(dec, g));
    LengthExtended(StateTexts(dec, h), StateTexts(dec, g));
    SilentAdds(dec, h, e);
  }

  lemma SilentAdds(dec: Decoder, h: seq<Event>, e: Event)
    ensures !e.ItemDone? && !e.TextDelta? ==> AddedText(dec, h, e) == ""
    ensures !e.ItemDone? && !e.RefusalDelta? ==> AddedRefusal(dec, h, e) == ""
  {}

  lemma IdsExtended(a: seq<ToolCall>, b: seq<ToolCall>)
    requires b == a || (|b| == |a| + 1 && b[..|a|] == a)
    ensures Elements(Ids(b)) == Elements(Ids(a)) + if b == a then {} else {b[|a|].id}
  {
    if b != a {
      assert Ids(b) == Ids(a) + [b[|a|].id];
    }
  }

  lemma LengthExtended(a: seq<string>, b: seq<string>)
    requires b == a || (|b| == |a| + 1 && b[..|a|] == a)
    ensures TotalLength(b) == TotalLength(a) + if b == a then 0 else |b[|a|]|
  {}

  lemma NothingAdded(dec: Decoder, h: seq<Event>, item: string)
    ensures ItemState(dec, item).kind != "message" ==>
      AddedText(dec, h, ItemDone(item)) == "" && AddedRefusal(dec, h, ItemDone(item)) == ""
  {}

  lemma FlagsExtended(h: seq<Event>, e: Event)
    ensures var g := h + [e];
      && (SawTextDelta(g) <==> SawTextDelta(h) || (e.TextDelta? && e.value != ""))
      && (SawRefusalDelta(g) <==> SawRefusalDelta(h) || (e.RefusalDelta? && e.value != ""))
      && ((exists i :: 0 <= i < |g| && g[i].Completed?) <==> (exists i :: 0 <= i < |h| && h[i].Completed?) || e.Completed?)
  {
    var g := h + [e];
    assert g[|h|] == e;
    assert forall i | 0 <= i < |h| :: g[i] == h[i];
  }

  /** The stream ends at event `n`: the first completion, with every event up to it acceptable. */
  ghost predicate EndsAt(dec: Decoder, events: seq<Event>, n: nat) {
    && n < |events| && events[n].Completed? && AllAcceptable(dec, events[..n + 1])
    && forall i | 0 <= i < n :: !events[i].Completed?
  }

  lemma {:induction false} AcceptablePrefix(dec: Decoder, h: seq<Event>, n: nat)
    requires AllAcceptable(dec, h) && n <= |h|
    ensures AllAcceptable(dec, h[..n])
    decreases |h|
  {
    if n < |h| {
      assert Before(h)[..n] == h[..n];
      AcceptablePrefix(dec, Before(h), n);
    } else {
      assert h[..n] == h;
    }
  }

  lemma NotAcceptable(dec: Decoder, events: seq<Event>, i: nat)
    requires i < |events| && !Acceptable(dec, events[..i], events[i]) && forall k | 0 <= k < i :: !events[k].Completed?
    ensures forall n: nat :: !EndsAt(dec, events, n)
  {
    forall n: nat ensures !EndsAt(dec, events, n) {
      if i <= n < |events| && AllAcceptable(dec, events[..n + 1]) {
        AcceptablePrefix(dec, events[..n + 1], i + 1);
        assert events[..n + 1][..i + 1] == events[..i] + [events[i]];
        Extended(dec, events[..i], events[i]);
      }
    }
  }

  lemma HistoryAcceptable(result: StreamResult)
    requires result.Valid()
    ensures AllAcceptable(result.dec, result.history)
  {}

  /** Consumes a stream up to its completion; a stream that fails or ends before is an error. */
  method ConsumeStream(dec: Decoder, events: seq<Event>) returns (result: StreamResult, ok: bool)
    ensures fresh(result) && result.dec == dec
    ensures ok <==> exists n :: EndsAt(dec, events, n)
    ensures ok ==> result.Valid() && result.completed && exists n :: EndsAt(dec, events, n) && result.history == events[..n + 1]
  {
    hide Acceptable, StreamResult.Valid, AllAcceptable;
    result := new StreamResult(dec);
    var i := 0;
    while i < |events|
      invariant 0 <= i <= |events| && fresh(result) && result.dec == dec && result.Valid()
      invariant result.history == events[..i] && forall k | 0 <= k < i :: !events[k].Completed?
    {
      var taken, terminal := result.HandleEvent(events[i]);
      if !taken {
        NotAcceptable(dec, events, i);
        return result, false;
      }
      assert events[..i] + [events[i]] == events[..i + 1];
      if terminal {
        HistoryAcceptable(result);
        assert EndsAt(dec, events, i);
        return result, true;
      }
      i := i + 1;
    }
    return result, false;
  }
}
