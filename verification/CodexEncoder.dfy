/** The Responses request encoder: the same pairing check as the chat encoder, plus opaque response items
    that are replayed verbatim and must agree with the canonical tool calls. */
module CodexEncoder {
  import opened Options
  import opened Ordering
  import opened Transcript
  import opened ResponseState
  import opened ChatEncoder

  const PART_RESPONSE_ITEM := "openai.codex.response_item"

  datatype InputItem =
    | TextItem(role: string, texts: seq<string>)
    | StateItem(item: Item)
    | CallItem(callId: string, name: string, arguments: string)
    | OutputItem(callId: string, output: string)

  predicate KnownRole(role: string) {
    role in {ROLE_SYSTEM, ROLE_DEVELOPER, ROLE_USER, ROLE_ASSISTANT, ROLE_TOOL}
  }

  predicate EncodablePart(json: JsonCodec, role: string, part: Part) {
    && !part.hasRef
    && (part.kind == PART_TEXT || (part.kind == PART_RESPONSE_ITEM && role == ROLE_ASSISTANT && DecodeState(json, part.text).Some?))
  }

  predicate EncodableParts(json: JsonCodec, role: string, parts: seq<Part>) {
    forall i | 0 <= i < |parts| :: EncodablePart(json, role, parts[i])
  }

  function Flushed(role: string, texts: seq<string>): seq<InputItem> {
    if texts == [] then [] else [TextItem(role, texts)]
  }

  /** The input items of a message's parts: adjacent texts together, each response item where it stands. */
  function PartItems(json: JsonCodec, role: string, parts: seq<Part>, texts: seq<string>): seq<InputItem>
    requires EncodableParts(json, role, parts)
    decreases |parts|
  {
    if parts == [] then Flushed(role, texts)
    else if parts[0].kind == PART_TEXT then PartItems(json, role, parts[1..], texts + [parts[0].text])
    else Flushed(role, texts) + [StateItem(DecodeState(json, parts[0].text).value)] + PartItems(json, role, parts[1..], [])
  }

  /** The function calls among a message's response items. */
  function ReplayedCalls(json: JsonCodec, role: string, parts: seq<Part>): seq<ToolCall>
    requires EncodableParts(json, role, parts)
    decreases |parts|
  {
    if parts == [] then []
    else
      (if parts[0].kind == PART_TEXT then []
       else
         var state := DecodeState(json, parts[0].text).value.state;
         if state.kind == TYPE_FUNCTION_CALL then [ToolCall(state.callId, state.name, state.arguments, "")] else [])
      + ReplayedCalls(json, role, parts[1..])
  }

  function Arguments(call: ToolCall): string {
    if call.arguments == "" then "{}" else call.arguments
  }

  predicate Agrees(json: JsonCodec, replayed: ToolCall, call: ToolCall) {
    replayed.name == call.name && EqualJson(json, replayed.arguments, Arguments(call))
  }

  /** Each replayed call has its own id, is declared as a tool call, and agrees with that declaration. */
  predicate ReplayedDeclared(json: JsonCodec, calls: seq<ToolCall>, replayed: seq<ToolCall>) {
    && Distinct(Ids(replayed))
    && (forall j | 0 <= j < |replayed| :: replayed[j].id in Ids(calls))
    && (forall i, j | 0 <= i < |calls| && 0 <= j < |replayed| && replayed[j].id == calls[i].id :: Agrees(json, replayed[j], calls[i]))
  }

  predicate ValidText(json: JsonCodec, call: ToolCall) {
    ValidCall(text => ValidJson(json, text), call)
  }

  /** What a message must satisfy whatever came before it. */
  predicate Encodable(json: JsonCodec, m: Message) {
    && KnownRole(m.role)
    && (m.toolCalls == [] || m.role == ROLE_ASSISTANT)
    && (m.role == ROLE_TOOL <==> m.toolCallId != "")
    && if m.role == ROLE_SYSTEM || m.role == ROLE_TOOL then PlainText(m)
       else
         && EncodableParts(json, m.role, m.parts)
         && (forall i | 0 <= i < |m.toolCalls| :: ValidText(json, m.toolCalls[i]))
         && ReplayedDeclared(json, m.toolCalls, ReplayedCalls(json, m.role, m.parts))
  }

  /** Function-call items for the calls that no response item already carries. */
  function CallItems(calls: seq<ToolCall>, replayed: seq<ToolCall>): seq<InputItem> {
    if calls == [] then []
    else
      (if calls[0].id in Ids(replayed) then [] else [CallItem(calls[0].id, calls[0].name, Arguments(calls[0]))])
      + CallItems(calls[1..], replayed)
  }

  /** The input items an accepted message contributes. */
  function Items(json: JsonCodec, m: Message): seq<InputItem>
    requires Encodable(json, m)
  {
    if m.role == ROLE_SYSTEM then []
    else if m.role == ROLE_TOOL then [OutputItem(m.toolCallId, TextOf(m.parts))]
    else PartItems(json, m.role, m.parts, []) + CallItems(m.toolCalls, ReplayedCalls(json, m.role, m.parts))
  }

  function Instructions(m: Message): seq<string> {
    if m.role == ROLE_SYSTEM && TextOf(m.parts) != "" then [TextOf(m.parts)] else []
  }

  function AllItems(json: JsonCodec, messages: seq<Message>): seq<InputItem>
    requires forall i | 0 <= i < |messages| :: Encodable(json, messages[i])
  {
    if messages == [] then [] else Items(json, messages[0]) + AllItems(json, messages[1..])
  }

  function AllInstructions(messages: seq<Message>): seq<string> {
    if messages == [] then [] else Instructions(messages[0]) + AllInstructions(messages[1..])
  }

  // What an accepted message contributes, said without the functions that compute it.

  datatype Encoded = Encoded(instructions: seq<string>, input: seq<InputItem>)

  /** A text item as one item per text; other items as they are. */
  function Spread(item: InputItem): seq<InputItem> {
    if item.TextItem? then seq(|item.texts|, i requires 0 <= i < |item.texts| => TextItem(item.role, [item.texts[i]])) else [item]
  }

  function Spreads(items: seq<InputItem>): seq<InputItem> {
    if items == [] then [] else Spread(items[0]) + Spreads(items[1..])
  }

  /** No text item is empty, and no two stand next to each other. */
  predicate Merged(items: seq<InputItem>) {
    && (forall i | 0 <= i < |items| && items[i].TextItem? :: items[i].texts != [])
    && (forall i | 0 < i < |items| :: !(items[i - 1].TextItem? && items[i].TextItem?))
  }

  /** Each part as an item of its own: a text under the message's role, a response item as it decodes. */
  function PartByPart(json: JsonCodec, role: string, parts: seq<Part>): (items: seq<InputItem>)
    requires EncodableParts(json, role, parts)
  {
    seq(|parts|, i requires 0 <= i < |parts| =>
      if parts[i].kind == PART_TEXT then TextItem(role, [parts[i].text]) else StateItem(DecodeState(json, parts[i].text).value))
  }

  /** The call a part carries, if it is a function-call item. */
  function PartCall(json: JsonCodec, part: Part): Option<ToolCall> {
    var item := DecodeState(json, part.text);
    if part.kind == PART_TEXT || item == None || item.value.state.kind != "function_call" then None
    else Some(ToolCall(item.value.state.callId, item.value.state.name, item.value.state.arguments, ""))
  }

  predicate CarriesCall(json: JsonCodec, parts: seq<Part>, id: string) {
    exists i :: 0 <= i < |parts| && PartCall(json, parts[i]).Some? && PartCall(json, parts[i]).value.id == id
  }

  /** One function-call item per call, in order; empty arguments are sent as an empty object. */
  predicate CallsByCall(calls: seq<ToolCall>, items: seq<InputItem>) {
    && |items| == |calls|
    && forall i | 0 <= i < |calls| ::
         items[i] == CallItem(calls[i].id, calls[i].name, if calls[i].arguments == "" then "{}" else calls[i].arguments)
  }

  /** A system message becomes an instruction, a tool message the output of its call. Of any other, the parts come
      in order with adjacent texts in one item of the message's role, then the calls that no part carries. */
  ghost predicate Conveys(json: JsonCodec, m: Message, encoded: Encoded) {
    var text := Flat(PartTexts(m.parts));
    if m.role == "system" then encoded == Encoded(if text == "" then [] else [text], [])
    else if m.role == "tool" then encoded == Encoded([], [OutputItem(m.toolCallId, text)])
    else
      && encoded.instructions == [] && EncodableParts(json, m.role, m.parts)
      && exists spoken, declared: seq<InputItem> ::
           && encoded.input == spoken + declared
           && Merged(spoken) && Spreads(spoken) == PartByPart(json, m.role, m.parts)
           && CallsByCall(Filter(m.toolCalls, (call: ToolCall) => !CarriesCall(json, m.parts, call.id)), declared)
  }

  /** The whole input: what each message conveys, message by message. */
  ghost predicate Conveyed(json: JsonCodec, messages: seq<Message>, encoded: Encoded) {
    if messages == [] then encoded == Encoded([], [])
    else
      exists first, rest: Encoded ::
        && Conveys(json, messages[0], first) && Conveyed(json, messages[1..], rest)
        && encoded == Encoded(first.instructions + rest.instructions, first.input + rest.input)
  }

  lemma {:induction false} SpreadsAppend(a: seq<InputItem>, b: seq<InputItem>)
    ensures Spreads(a + b) == Spreads(a) + Spreads(b)
  {
    hide Spread;
    if a == [] {
      assert a + b == b;
    } else {
      assert (a + b)[0] == a[0] && (a + b)[1..] == a[1..] + b;
      SpreadsAppend(a[1..], b);
    }
  }

  lemma SpreadsFlushed(role: string, texts: seq<string>)
    ensures Spreads(Flushed(role, texts)) == seq(|texts|, i requires 0 <= i < |texts| => TextItem(role, [texts[i]]))
    ensures Merged(Flushed(role, texts))
  {
    if texts != [] { assert Flushed(role, texts)[1..] == []; }
  }

  lemma {:induction false} PartItemsSpread(json: JsonCodec, role: string, parts: seq<Part>, texts: seq<string>)
    requires EncodableParts(json, role, parts)
    ensures Merged(PartItems(json, role, parts, texts))
    ensures Spreads(PartItems(json, role, parts, texts)) == Spreads(Flushed(role, texts)) + PartByPart(json, role, parts)
    decreases |parts|
  {
    hide DecodeState, Spreads, Merged;
    if parts == [] {
      SpreadsFlushed(role, texts);
    } else {
      var part, rest := parts[0], parts[1..];
      assert parts == [part] + rest;
      PartItemsStep(json, role, part, rest, texts);
      hide PartItems, Flushed;
      PartByPartTail(json, role, parts);
      if part.kind == PART_TEXT {
        PartItemsSpread(json, role, rest, texts + [part.text]);
        FlushedMore(role, texts, part.text);
      } else {
        PartItemsSpread(json, role, rest, []);
        var item := StateItem(DecodeState(json, part.text).value);
        SpreadsFlushed(role, []);
        SpreadsFlushed(role, texts);
        StateBetween(Flushed(role, texts), item, PartItems(json, role, rest, []));
      }
    }
  }

  lemma PartByPartTail(json: JsonCodec, role: string, parts: seq<Part>)
    requires parts != [] && EncodableParts(json, role, parts)
    ensures EncodableParts(json, role, parts[1..])
    ensures PartByPart(json, role, parts) ==
      [if parts[0].kind == PART_TEXT then TextItem(role, [parts[0].text]) else StateItem(DecodeState(json, parts[0].text).value)]
        + PartByPart(json, role, parts[1..])
  {
    hide DecodeState;
  }

  lemma FlushedMore(role: string, texts: seq<string>, text: string)
    ensures Spreads(Flushed(role, texts + [text])) == Spreads(Flushed(role, texts)) + [TextItem(role, [text])]
  {
    SpreadsFlushed(role, texts);
    SpreadsFlushed(role, texts + [text]);
    hide Spreads, Flushed;
  }

  lemma StateBetween(front: seq<InputItem>, item: InputItem, back: seq<InputItem>)
    requires Merged(front) && Merged(back) && !item.TextItem?
    ensures Merged(front + [item] + back)
    ensures Spreads(front + [item] + back) == Spreads(front) + [item] + Spreads(back)
  {
    hide Merged, Spreads;
    MergedBetween(front, item, back);
    SpreadsAppend(front, [item]);
    SpreadsAppend(front + [item], back);
    SpreadsOne(item);
  }

  lemma SpreadsOne(item: InputItem)
    requires !item.TextItem?
    ensures Spreads([item]) == [item]
  {
    assert [item][1..] == [];
  }

  lemma MergedBetween(front: seq<InputItem>, item: InputItem, back: seq<InputItem>)
    requires Merged(front) && Merged(back) && !item.TextItem?
    ensures Merged(front + [item] + back)
  {
    var all, n := front + [item] + back, |front|;
    assert forall i | 0 <= i < n :: all[i] == front[i];
    assert all[n] == item && forall i | n < i < |all| :: all[i] == back[i - n - 1];
  }

  /** The replayed calls are those of the parts; their ids are distinct when no two parts carry the same. */
  lemma {:induction false} ReplayedFromParts(json: JsonCodec, role: string, parts: seq<Part>)
    requires EncodableParts(json, role, parts)
    ensures forall call :: call in ReplayedCalls(json, role, parts) <==> exists i :: 0 <= i < |parts| && PartCall(json, parts[i]) == Some(call)
    ensures Distinct(Ids(ReplayedCalls(json, role, parts))) <==> DistinctParts(json, parts)
    decreases |parts|
  {
    hide DecodeState, Distinct, Ids, DistinctParts, EncodablePart;
    if parts == [] {
      NoParts(json);
    } else {
      var part, rest := parts[0], parts[1..];
      assert parts == [part] + rest;
      PartItemsStep(json, role, part, rest, []);
      ReplayedFromParts(json, role, rest);
      OwnCall(json, role, part);
      DistinctPartsFirst(json, parts);
      var replayed := ReplayedCalls(json, role, rest);
      assert ReplayedCalls(json, role, parts) == (if PartCall(json, part).Some? then [PartCall(json, part).value] else []) + replayed;
      hide ReplayedCalls, PartCall;
      if PartCall(json, part).None? { assert [] + replayed == replayed; }
      if PartCall(json, part).Some? {
        DistinctFirst(PartCall(json, part).value, replayed);
        FreshAmong(json, PartCall(json, part).value, rest, replayed);
      }
    }
  }

  lemma FreshAmong(json: JsonCodec, call: ToolCall, parts: seq<Part>, replayed: seq<ToolCall>)
    requires forall c :: c in replayed <==> exists i :: 0 <= i < |parts| && PartCall(json, parts[i]) == Some(c)
    ensures (forall other | other in replayed :: call.id != other.id) <==>
      forall i | 0 <= i < |parts| && PartCall(json, parts[i]).Some? :: call.id != PartCall(json, parts[i]).value.id
  {
    hide PartCall;
    forall i | 0 <= i < |parts| && PartCall(json, parts[i]).Some? ensures PartCall(json, parts[i]).value in replayed {
      assert PartCall(json, parts[i]) == Some(PartCall(json, parts[i]).value);
    }
  }

  predicate DistinctParts(json: JsonCodec, parts: seq<Part>) {
    forall i, j | 0 <= i < j < |parts| && PartCall(json, parts[i]).Some? && PartCall(json, parts[j]).Some? ::
      PartCall(json, parts[i]).value.id != PartCall(json, parts[j]).value.id
  }

  lemma NoParts(json: JsonCodec)
    ensures DistinctParts(json, []) && Distinct(Ids([]))
  {}

  lemma OwnCall(json: JsonCodec, role: string, part: Part)
    requires EncodablePart(json, role, part)
    ensures PartCall(json, part) ==
      if part.kind == PART_TEXT then None
      else
        var state := DecodeState(json, part.text).value.state;
        if state.kind == TYPE_FUNCTION_CALL then Some(ToolCall(state.callId, state.name, state.arguments, "")) else None
  {
    hide DecodeState;
  }

  lemma DistinctPartsFirst(json: JsonCodec, parts: seq<Part>)
    requires parts != []
    ensures DistinctParts(json, parts) <==>
      && DistinctParts(json, parts[1..])
      && (PartCall(json, parts[0]).Some? ==>
            forall i | 0 <= i < |parts[1..]| && PartCall(json, parts[1..][i]).Some? ::
              PartCall(json, parts[0]).value.id != PartCall(json, parts[1..][i]).value.id)
  {
    hide PartCall;
    var rest := parts[1..];
    assert forall i | 0 <= i < |rest| :: rest[i] == parts[i + 1];
    if DistinctParts(json, parts) {
      forall i, j | 0 <= i < j < |rest| && PartCall(json, rest[i]).Some? && PartCall(json, rest[j]).Some?
        ensures PartCall(json, rest[i]).value.id != PartCall(json, rest[j]).value.id
      {
        assert rest[i] == parts[i + 1] && rest[j] == parts[j + 1];
      }
    }
    if DistinctParts(json, rest) {
      forall i, j | 1 <= i < j < |parts| && PartCall(json, parts[i]).Some? && PartCall(json, parts[j]).Some?
        ensures PartCall(json, parts[i]).value.id != PartCall(json, parts[j]).value.id
      {
        assert rest[i - 1] == parts[i] && rest[j - 1] == parts[j];
      }
    }
  }

  lemma DistinctFirst(call: ToolCall, calls: seq<ToolCall>)
    ensures Distinct(Ids([call] + calls)) <==> Distinct(Ids(calls)) && forall other | other in calls :: call.id != other.id
  {
    var all := [call] + calls;
    assert Ids(all) == [call.id] + Ids(calls);
    DistinctConcat([call.id], Ids(calls));
    forall other | other in calls ensures other.id in Elements(Ids(calls)) {
      var i :| 0 <= i < |calls| && calls[i] == other;
      assert Ids(calls)[i] == other.id;
    }
    forall id | id in Elements(Ids(calls)) ensures exists other :: other in calls && other.id == id {
      var i :| 0 <= i < |calls| && Ids(calls)[i] == id;
      assert calls[i] in calls;
    }
    assert Elements([call.id]) == {call.id} && Distinct([call.id]);
    hide Ids, Distinct;
  }

  lemma CarriedCalls(json: JsonCodec, role: string, parts: seq<Part>, id: string)
    requires EncodableParts(json, role, parts)
    ensures id in Ids(ReplayedCalls(json, role, parts)) <==> CarriesCall(json, parts, id)
  {
    hide PartCall, EncodableParts, ReplayedCalls;
    ReplayedFromParts(json, role, parts);
    var replayed := ReplayedCalls(json, role, parts);
    if i :| 0 <= i < |replayed| && Ids(replayed)[i] == id { assert replayed[i] in replayed; }
    if i :| 0 <= i < |parts| && PartCall(json, parts[i]).Some? && PartCall(json, parts[i]).value.id == id {
      assert PartCall(json, parts[i]).value in replayed;
      var k :| 0 <= k < |replayed| && replayed[k] == PartCall(json, parts[i]).value;
      assert Ids(replayed)[k] == id;
    }
  }

  /** Which messages are encodable, said of their parts and calls. */
  lemma EncodableMeans(json: JsonCodec, m: Message)
    ensures Encodable(json, m) <==>
      if m.role == "system" || m.role == "tool" then
        && m.toolCalls == [] && (m.role == "tool" <==> m.toolCallId != "")
        && forall i | 0 <= i < |m.parts| :: m.parts[i].kind == "text" && !m.parts[i].hasRef
      else
        && m.role in {"developer", "user", "assistant"} && m.toolCallId == "" && (m.toolCalls != [] ==> m.role == "assistant")
        && (forall i | 0 <= i < |m.parts| ::
              && !m.parts[i].hasRef
              && (m.parts[i].kind == "text"
                  || (m.parts[i].kind == "openai.codex.response_item" && m.role == "assistant" && DecodeState(json, m.parts[i].text).Some?)))
        && (forall k | 0 <= k < |m.toolCalls| ::
              var call := m.toolCalls[k];
              && call.id != "" && call.name != "" && call.argumentsRef == ""
              && (call.arguments != "" ==> json.decode(call.arguments) != Invalid))
        && DistinctParts(json, m.parts)
        && (forall i | 0 <= i < |m.parts| && PartCall(json, m.parts[i]).Some? ::
              var carried := PartCall(json, m.parts[i]).value;
              && (exists k :: 0 <= k < |m.toolCalls| && m.toolCalls[k].id == carried.id)
              && forall k | 0 <= k < |m.toolCalls| && m.toolCalls[k].id == carried.id ::
                   var arguments := if m.toolCalls[k].arguments == "" then "{}" else m.toolCalls[k].arguments;
                   && carried.name == m.toolCalls[k].name
                   && json.decode(carried.arguments) != Invalid && json.decode(arguments) != Invalid
                   && json.compact(carried.arguments) == json.compact(arguments))
  {
    hide DecodeState, PartCall, DistinctParts, ReplayedCalls, ReplayedDeclared;
    if m.role != ROLE_SYSTEM && m.role != ROLE_TOOL && EncodableParts(json, m.role, m.parts) {
      DeclaredMeans(json, m.role, m.parts, m.toolCalls);
    }
  }

  lemma DeclaredMeans(json: JsonCodec, role: string, parts: seq<Part>, calls: seq<ToolCall>)
    requires EncodableParts(json, role, parts)
    ensures ReplayedDeclared(json, calls, ReplayedCalls(json, role, parts)) <==>
      && DistinctParts(json, parts)
      && (forall i | 0 <= i < |parts| && PartCall(json, parts[i]).Some? ::
            var carried := PartCall(json, parts[i]).value;
            && (exists k :: 0 <= k < |calls| && calls[k].id == carried.id)
            && forall k | 0 <= k < |calls| && calls[k].id == carried.id :: Agrees(json, carried, calls[k]))
  {
    hide PartCall, DistinctParts, ReplayedCalls, EncodableParts, Distinct, Agrees;
    ReplayedFromParts(json, role, parts);
    DeclaredEach(json, calls, ReplayedCalls(json, role, parts));
  }

  lemma DeclaredEach(json: JsonCodec, calls: seq<ToolCall>, replayed: seq<ToolCall>)
    ensures ReplayedDeclared(json, calls, replayed) <==>
      && Distinct(Ids(replayed))
      && forall carried | carried in replayed ::
           && (exists k :: 0 <= k < |calls| && calls[k].id == carried.id)
           && forall k | 0 <= k < |calls| && calls[k].id == carried.id :: Agrees(json, carried, calls[k])
  {
    hide Distinct, Agrees;
    forall id ensures id in Ids(calls) <==> exists k :: 0 <= k < |calls| && calls[k].id == id {
      if k :| 0 <= k < |calls| && calls[k].id == id { assert Ids(calls)[k] == id; }
    }
    assert forall j | 0 <= j < |replayed| :: replayed[j] in replayed;
  }

  lemma {:induction false} CallItemsByCall(calls: seq<ToolCall>, replayed: seq<ToolCall>, keep: ToolCall -> bool)
    requires forall i | 0 <= i < |calls| :: keep(calls[i]) <==> calls[i].id !in Ids(replayed)
    ensures CallsByCall(Filter(calls, keep), CallItems(calls, replayed))
    decreases |calls|
  {
    hide Ids;
    if calls != [] {
      CallItemsByCall(calls[1..], replayed, keep);
      var kept, items := Filter(calls[1..], keep), CallItems(calls[1..], replayed);
      if keep(calls[0]) {
        assert Filter(calls, keep) == [calls[0]] + kept;
      } else {
        assert Filter(calls, keep) == [] + kept == kept && CallItems(calls, replayed) == [] + items == items;
      }
    }
  }

  /** An accepted message's items and instructions are what the message says. */
  lemma ItemsConvey(json: JsonCodec, m: Message)
    requires Encodable(json, m)
    ensures Conveys(json, m, Encoded(Instructions(m), Items(json, m)))
  {
    TextOfIsFlat(m.parts);
    if m.role != ROLE_SYSTEM && m.role != ROLE_TOOL {
      hide DecodeState, ReplayedDeclared, ValidText, PartItems, CallItems, Spreads, Merged, PartByPart, CarriesCall, CallsByCall, Filter, TextOf, Flat, Ids;
      var replayed := ReplayedCalls(json, m.role, m.parts);
      var keep := (call: ToolCall) => !CarriesCall(json, m.parts, call.id);
      PartItemsSpread(json, m.role, m.parts, []);
      SpreadsFlushed(m.role, []);
      forall i | 0 <= i < |m.toolCalls| ensures keep(m.toolCalls[i]) <==> m.toolCalls[i].id !in Ids(replayed) {
        CarriedCalls(json, m.role, m.parts, m.toolCalls[i].id);
      }
      CallItemsByCall(m.toolCalls, replayed, keep);
    }
  }

  lemma {:induction false} AllItemsConveyed(json: JsonCodec, messages: seq<Message>)
    requires forall i | 0 <= i < |messages| :: Encodable(json, messages[i])
    ensures Conveyed(json, messages, Encoded(AllInstructions(messages), AllItems(json, messages)))
    decreases |messages|
  {
    hide Encodable, Conveys, Items, Instructions;
    if messages != [] {
      ItemsConvey(json, messages[0]);
      AllItemsConveyed(json, messages[1..]);
    }
  }

  /** A message of texts only becomes one text item in its own role, then its calls. */
  lemma TextsConvey(json: JsonCodec, m: Message)
    requires Encodable(json, m) && m.role in {"user", "developer", "assistant"} && PlainText(m)
    ensures exists declared ::
      && CallsByCall(m.toolCalls, declared)
      && Items(json, m) == (if m.parts == [] then [] else [TextItem(m.role, PartTexts(m.parts))]) + declared
  {
    TextRun(json, m.role, m.parts, []);
    assert [] + PartTexts(m.parts) == PartTexts(m.parts);
    CallItemsByCall(m.toolCalls, [], (call: ToolCall) => true);
    AllKept(m.toolCalls, (call: ToolCall) => true);
    hide Encodable, PartItems, CallsByCall, Filter, CallItems, PartTexts;
  }

  lemma {:induction false} AllKept(calls: seq<ToolCall>, keep: ToolCall -> bool)
    requires forall i | 0 <= i < |calls| :: keep(calls[i])
    ensures Filter(calls, keep) == calls
  {
    if calls != [] {
      AllKept(calls[1..], keep);
      assert calls == [calls[0]] + calls[1..];
    }
  }

  lemma {:induction false} TextRun(json: JsonCodec, role: string, parts: seq<Part>, texts: seq<string>)
    requires EncodableParts(json, role, parts) && forall i | 0 <= i < |parts| :: parts[i].kind == PART_TEXT
    ensures PartItems(json, role, parts, texts) == Flushed(role, texts + PartTexts(parts)) && ReplayedCalls(json, role, parts) == []
    decreases |parts|
  {
    hide DecodeState, Flushed;
    if parts == [] {
      assert texts + PartTexts(parts) == texts;
    } else {
      TextRun(json, role, parts[1..], texts + [parts[0].text]);
      assert texts + [parts[0].text] + PartTexts(parts[1..]) == texts + PartTexts(parts);
    }
  }

  class MessageEncoder {
    const json: JsonCodec
    var instructions: seq<string>
    var input: seq<InputItem>
    var pending: set<string>
    var completed: set<string>
    var seenIds: set<string>

    constructor (json: JsonCodec)
      ensures Ids() == EMPTY && input == [] && instructions == [] && this.json == json
    {
      this.json := json;
      instructions, input := [], [];
      pending, completed, seenIds := {}, {}, {};
    }

    function Ids(): Ledger
      reads this
    {
      Ledger(pending, completed, seenIds)
    }

    method AddMessage(m: Message) returns (ok: bool)
      modifies this
      ensures ok <==> Encodable(json, m) && Advance(old(Ids()), m).Some?
      ensures ok ==> Ids() == Advance(old(Ids()), m).value
      ensures ok ==> input == old(input) + Items(json, m) && instructions == old(instructions) + Instructions(m)
    {
      hide EncodablePart, ReplayedDeclared, CallItems, ValidText;
      if !KnownRole(m.role) || (m.toolCalls != [] && m.role != ROLE_ASSISTANT)
         || (m.toolCallId != "" && m.role != ROLE_TOOL) || (m.role != ROLE_TOOL && pending != {}) {
        return false;
      }
      if m.role == ROLE_SYSTEM {
        ok := AddInstruction(m);
      } else if m.role == ROLE_TOOL {
        ok := AddToolOutput(m);
      } else {
        ok := AddModelMessage(m);
      }
    }

    method AddInstruction(m: Message) returns (ok: bool)
      modifies this`instructions
      ensures ok <==> PlainText(m)
      ensures ok ==> instructions == old(instructions) + if TextOf(m.parts) == "" then [] else [TextOf(m.parts)]
    {
      if !PlainText(m) {
        return false;
      }
      if TextOf(m.parts) != "" {
        instructions := instructions + [TextOf(m.parts)];
      }
      return true;
    }

    method AddToolOutput(m: Message) returns (ok: bool)
      requires IsTool(m)
      modifies this
      ensures ok <==> m.toolCallId != "" && PlainText(m) && Advance(old(Ids()), m).Some?
      ensures ok ==> Ids() == Advance(old(Ids()), m).value && instructions == old(instructions)
      ensures ok ==> input == old(input) + [OutputItem(m.toolCallId, TextOf(m.parts))]
    {
      if m.toolCallId == "" || m.toolCallId in completed || m.toolCallId !in pending || !PlainText(m) {
        return false;
      }
      input := input + [OutputItem(m.toolCallId, TextOf(m.parts))];
      pending := pending - {m.toolCallId};
      completed := completed + {m.toolCallId};
      return true;
    }

    method AddModelMessage(m: Message) returns (ok: bool)
      requires !IsTool(m)
      modifies this
      ensures ok <==>
        && EncodableParts(json, m.role, m.parts)
        && (forall i | 0 <= i < |m.toolCalls| :: ValidText(json, m.toolCalls[i]))
        && ReplayedDeclared(json, m.toolCalls, ReplayedCalls(json, m.role, m.parts))
        && Declare(old(Ids()), Transcript.Ids(m.toolCalls)).Some?
      ensures ok ==> Ids() == Declare(old(Ids()), Transcript.Ids(m.toolCalls)).value && instructions == old(instructions)
      ensures ok ==> input == old(input) + PartItems(json, m.role, m.parts, []) + CallItems(m.toolCalls, ReplayedCalls(json, m.role, m.parts))
    {
      hide ReplayedDeclared, CallItems, DecodeState, Declare, PartItems, ReplayedCalls, EncodableParts, EncodablePart, ValidText, Transcript.Ids;
      var content: seq<string>, replayed: seq<ToolCall> := [], [];
      var i := 0;
      ghost var before := input;
      assert m.parts[0..] == m.parts && m.parts[..0] == [];
      PartsStart(json, m.role, m.parts, before);
      while i < |m.parts|
        invariant 0 <= i <= |m.parts| && Ids() == old(Ids()) && instructions == old(instructions)
        invariant EncodableParts(json, m.role, m.parts[..i])
        invariant EncodableParts(json, m.role, m.parts) ==> PartsSoFar(json, m.role, m.parts, i, content, replayed, before, input)
      {
        PartsEncodable(json, m.role, m.parts, i);
        if !EncodablePart(json, m.role, m.parts[i]) {
          return false;
        }
        ghost var midway := input;
        ghost var texts, calls := content, replayed;
        content, replayed := AddPart(m.role, m.parts[i], content, replayed);
        if EncodableParts(json, m.role, m.parts) {
          PartsStep(json, m.role, m.parts, i, texts, calls, before, midway);
        }
        i := i + 1;
      }
      assert m.parts[..i] == m.parts;
      PartsDone(json, m.role, m.parts, content, replayed, before, input);
      Flush(m.role, content);
      assert Ids() == old(Ids());
      ok := AddToolCalls(m.toolCalls, replayed);
    }

    /** A text joins the current run; a response item ends it and is added as it stands. */
    method AddPart(role: string, part: Part, content: seq<string>, replayed: seq<ToolCall>) returns (content': seq<string>, replayed': seq<ToolCall>)
      requires EncodablePart(json, role, part)
      modifies this`input
      ensures part.kind == PART_TEXT ==> input == old(input) && content' == content + [part.text] && replayed' == replayed
      ensures part.kind != PART_TEXT ==>
        var item := DecodeState(json, part.text).value;
        && input == old(input) + Flushed(role, content) + [StateItem(item)] && content' == []
        && replayed' == replayed + (if item.state.kind == TYPE_FUNCTION_CALL
                                    then [ToolCall(item.state.callId, item.state.name, item.state.arguments, "")] else [])
    {
      content', replayed' := content, replayed;
      if part.kind == PART_TEXT {
        content' := content' + [part.text];
      } else {
        Flush(role, content);
        content' := [];
        var item := DecodeState(json, part.text).value;
        input := input + [StateItem(item)];
        if item.state.kind == TYPE_FUNCTION_CALL {
          replayed' := replayed' + [ToolCall(item.state.callId, item.state.name, item.state.arguments, "")];
        }
      }
    }

    method Flush(role: string, content: seq<string>)
      modifies this`input
      ensures input == old(input) + Flushed(role, content)
    {
      if content != [] {
        input := input + [TextItem(role, content)];
      }
    }

    method AddToolCalls(calls: seq<ToolCall>, replayed: seq<ToolCall>) returns (ok: bool)
      modifies this
      ensures ok <==>
        && (forall i | 0 <= i < |calls| :: ValidText(json, calls[i]))
        && ReplayedDeclared(json, calls, replayed) && Declare(old(Ids()), Transcript.Ids(calls)).Some?
      ensures ok ==> Ids() == Declare(old(Ids()), Transcript.Ids(calls)).value && instructions == old(instructions)
      ensures ok ==> input == old(input) + CallItems(calls, replayed)
    {
      hide ReplayedDeclared, Matched, ValidText, Distinct, Agrees, Declare, CallItems, Transcript.Ids;
      NotIndexed(json, calls, replayed);
      var indexed := IndexReplayedCalls(replayed);
      if indexed == None {
        return false;
      }
      var remaining := indexed.value;
      var i := 0;
      MatchedStart(json, calls, replayed, remaining);
      ghost var before := input;
      assert calls[..0] == [] && Transcript.Ids(calls)[0..] == Transcript.Ids(calls);
      NothingLeft(Ids(), calls, replayed);
      while i < |calls|
        invariant 0 <= i <= |calls| && instructions == old(instructions)
        invariant Declare(Ids(), Transcript.Ids(calls)[i..]) == Declare(old(Ids()), Transcript.Ids(calls))
        invariant input == before + CallItems(calls[..i], replayed)
        invariant forall k | 0 <= k < i :: ValidText(json, calls[k]) && calls[k].id in seenIds
        invariant Matched(json, calls, i, replayed, remaining)
      {
        var call := calls[i];
        DeclareStep(Ids(), Transcript.Ids(calls), i);
        CallItemsStep(before, calls, i, replayed);
        MatchedStepUnlessSeen(json, calls, i, replayed, remaining, seenIds);
        var added := AddToolCall(call, remaining);
        if !added {
          return false;
        }
        remaining := remaining - {call.id};
        i := i + 1;
      }
      MatchedEnd(json, calls, replayed, remaining);
      NothingLeft(Ids(), calls, replayed);
      assert calls[..i] == calls;
      return remaining == map[];
    }

    /** Adds one canonical call, as an item of its own unless a replayed item already carries it. */
    method AddToolCall(call: ToolCall, replayed: map<string, ToolCall>) returns (ok: bool)
      modifies this`input, this`seenIds, this`pending
      ensures ok <==>
        ValidText(json, call) && call.id !in old(seenIds) && (call.id in replayed ==> Agrees(json, replayed[call.id], call))
      ensures ok ==> Ids() == old(Ids()).(pending := old(pending) + {call.id}, seen := old(seenIds) + {call.id})
      ensures ok ==>
        input == old(input) + if call.id in replayed then [] else [CallItem(call.id, call.name, Arguments(call))]
    {
      if !ValidText(json, call) || call.id in seenIds {
        return false;
      }
      if call.id in replayed {
        if !Agrees(json, replayed[call.id], call) {
          return false;
        }
      } else {
        input := input + [CallItem(call.id, call.name, Arguments(call))];
      }
      seenIds := seenIds + {call.id};
      pending := pending + {call.id};
      return true;
    }

    /** The replayed calls by id; a repeated id is an error. */
    method IndexReplayedCalls(calls: seq<ToolCall>) returns (indexed: Option<map<string, ToolCall>>)
      ensures indexed.Some? <==> Distinct(Transcript.Ids(calls))
      ensures indexed.Some? ==>
        && (forall id :: id in indexed.value <==> id in Transcript.Ids(calls))
        && forall j | 0 <= j < |calls| :: calls[j].id in indexed.value && indexed.value[calls[j].id] == calls[j]
    {
      hide Transcript.Ids;
      var byId: map<string, ToolCall> := map[];
      var i := 0;
      while i < |calls|
        invariant 0 <= i <= |calls| && forall j, k | 0 <= j < k < i :: calls[j].id != calls[k].id
        invariant forall id | id in byId :: exists j :: 0 <= j < i && calls[j].id == id
        invariant forall j | 0 <= j < i :: calls[j].id in byId && byId[calls[j].id] == calls[j]
      {
        if calls[i].id in byId {
          var j :| 0 <= j < i && calls[j].id == calls[i].id;
          assert Transcript.Ids(calls)[j] == Transcript.Ids(calls)[i];
          return None;
        }
        byId := byId[calls[i].id := calls[i]];
        i := i + 1;
      }
      forall id ensures id in byId <==> id in Transcript.Ids(calls) {
        if id in byId {
          var j :| 0 <= j < i && calls[j].id == id;
          assert Transcript.Ids(calls)[j] == id;
        }
      }
      return Some(byId);
    }
  }

  /** What is still to be added for the parts from `i` on completes what has been. */
  ghost predicate PartsSoFar(json: JsonCodec, role: string, parts: seq<Part>, i: nat, content: seq<string>, replayed: seq<ToolCall>,
                             before: seq<InputItem>, input: seq<InputItem>)
    requires EncodableParts(json, role, parts)
  {
    && i <= |parts| && EncodableParts(json, role, parts[i..])
    && input + PartItems(json, role, parts[i..], content) == before + PartItems(json, role, parts, [])
    && replayed + ReplayedCalls(json, role, parts[i..]) == ReplayedCalls(json, role, parts)
  }

  lemma PartsStart(json: JsonCodec, role: string, parts: seq<Part>, before: seq<InputItem>)
    ensures EncodableParts(json, role, [])
    ensures EncodableParts(json, role, parts) ==> PartsSoFar(json, role, parts, 0, [], [], before, before)
  {
    hide EncodablePart, PartItems, ReplayedCalls;
    assert parts[0..] == parts;
    if EncodableParts(json, role, parts) { assert [] + ReplayedCalls(json, role, parts) == ReplayedCalls(json, role, parts); }
  }

  lemma PartsEncodable(json: JsonCodec, role: string, parts: seq<Part>, i: nat)
    requires i < |parts| && EncodableParts(json, role, parts[..i])
    ensures EncodablePart(json, role, parts[i]) ==> EncodableParts(json, role, parts[..i + 1])
    ensures EncodableParts(json, role, parts) ==> EncodablePart(json, role, parts[i])
  {
    hide EncodablePart;
    assert parts[..i + 1] == parts[..i] + [parts[i]];
  }

  lemma PartItemsStep(json: JsonCodec, role: string, part: Part, rest: seq<Part>, content: seq<string>)
    requires EncodableParts(json, role, [part] + rest)
    ensures EncodableParts(json, role, rest) && EncodablePart(json, role, part)
    ensures var parts := [part] + rest;
      if part.kind == PART_TEXT then
        && PartItems(json, role, parts, content) == PartItems(json, role, rest, content + [part.text])
        && ReplayedCalls(json, role, parts) == ReplayedCalls(json, role, rest)
      else
        && var item := DecodeState(json, part.text).value;
        && PartItems(json, role, parts, content) == Flushed(role, content) + [StateItem(item)] + PartItems(json, role, rest, [])
        && ReplayedCalls(json, role, parts)
             == (if item.state.kind == TYPE_FUNCTION_CALL then [ToolCall(item.state.callId, item.state.name, item.state.arguments, "")] else [])
                + ReplayedCalls(json, role, rest)
  {
    hide DecodeState;
    var parts := [part] + rest;
    assert parts[0] == part && parts[1..] == rest;
    forall i | 0 <= i < |rest| ensures EncodablePart(json, role, rest[i]) { assert parts[i + 1] == rest[i]; }
    assert [] + ReplayedCalls(json, role, rest) == ReplayedCalls(json, role, rest);
  }

  lemma PartsStep(json: JsonCodec, role: string, parts: seq<Part>, i: nat, content: seq<string>, replayed: seq<ToolCall>,
                  before: seq<InputItem>, input: seq<InputItem>)
    requires EncodableParts(json, role, parts) && i < |parts| && PartsSoFar(json, role, parts, i, content, replayed, before, input)
    ensures EncodablePart(json, role, parts[i])
    ensures parts[i].kind == PART_TEXT ==> PartsSoFar(json, role, parts, i + 1, content + [parts[i].text], replayed, before, input)
    ensures parts[i].kind != PART_TEXT ==>
      var item := DecodeState(json, parts[i].text).value;
      var calls := if item.state.kind == TYPE_FUNCTION_CALL then [ToolCall(item.state.callId, item.state.name, item.state.arguments, "")] else [];
      PartsSoFar(json, role, parts, i + 1, [], replayed + calls, before, input + Flushed(role, content) + [StateItem(item)])
  {
    hide DecodeState, PartItems, ReplayedCalls, EncodableParts, Flushed;
    assert parts[i..] == [parts[i]] + parts[i + 1..];
    PartItemsStep(json, role, parts[i], parts[i + 1..], content);
  }

  lemma PartsDone(json: JsonCodec, role: string, parts: seq<Part>, content: seq<string>, replayed: seq<ToolCall>,
                  before: seq<InputItem>, input: seq<InputItem>)
    requires EncodableParts(json, role, parts) && PartsSoFar(json, role, parts, |parts|, content, replayed, before, input)
    ensures input + Flushed(role, content) == before + PartItems(json, role, parts, [])
    ensures replayed == ReplayedCalls(json, role, parts)
  {
    assert parts[|parts|..] == [] && replayed + [] == replayed;
    hide EncodablePart;
  }

  lemma DeclareStep(s: Ledger, ids: seq<string>, i: nat)
    requires i < |ids|
    ensures Declare(s, ids[i..]) ==
      if ids[i] in s.seen then None
      else Declare(s.(pending := s.pending + {ids[i]}, seen := s.seen + {ids[i]}), ids[i + 1..])
  {
    assert ids[i..][0] == ids[i] && ids[i..][1..] == ids[i + 1..];
  }

  lemma {:induction false} CallItemsSnoc(calls: seq<ToolCall>, call: ToolCall, replayed: seq<ToolCall>)
    ensures CallItems(calls + [call], replayed) == CallItems(calls, replayed)
      + if call.id in Ids(replayed) then [] else [CallItem(call.id, call.name, Arguments(call))]
  {
    if calls == [] {
      assert [call][1..] == [];
    } else {
      hide Ids, Arguments;
      var all, rest := calls + [call], CallItems(calls[1..], replayed);
      assert all[0] == calls[0] && all[1..] == calls[1..] + [call];
      CallItemsSnoc(calls[1..], call, replayed);
      var first := if calls[0].id in Ids(replayed) then [] else [CallItem(calls[0].id, calls[0].name, Arguments(calls[0]))];
      var last := if call.id in Ids(replayed) then [] else [CallItem(call.id, call.name, Arguments(call))];
      assert CallItems(all, replayed) == first + (rest + last) && CallItems(calls, replayed) == first + rest;
      assert first + (rest + last) == (first + rest) + last;
    }
  }

  lemma CallItemsStep(before: seq<InputItem>, calls: seq<ToolCall>, i: nat, replayed: seq<ToolCall>)
    requires i < |calls|
    ensures before + CallItems(calls[..i + 1], replayed) == before + CallItems(calls[..i], replayed)
      + if calls[i].id in Ids(replayed) then [] else [CallItem(calls[i].id, calls[i].name, Arguments(calls[i]))]
  {
    assert calls[..i + 1] == calls[..i] + [calls[i]];
    CallItemsSnoc(calls[..i], calls[i], replayed);
  }

  lemma NothingLeft(s: Ledger, calls: seq<ToolCall>, replayed: seq<ToolCall>)
    ensures Declare(s, Ids(calls)[|calls|..]) == Some(s) && CallItems([], replayed) == []
  {}

  /** After `i` calls: their replayed counterparts agree with them, and `remaining` holds the others. */
  ghost predicate Matched(json: JsonCodec, calls: seq<ToolCall>, i: nat, replayed: seq<ToolCall>, remaining: map<string, ToolCall>) {
    && i <= |calls|
    && (forall k, j | 0 <= k < i && 0 <= j < |replayed| && replayed[j].id == calls[k].id :: Agrees(json, replayed[j], calls[k]))
    && (forall id :: id in remaining <==> id in Ids(replayed) && forall k | 0 <= k < i :: calls[k].id != id)
    && (forall j | 0 <= j < |replayed| && replayed[j].id in remaining :: remaining[replayed[j].id] == replayed[j])
  }

  lemma NotIndexed(json: JsonCodec, calls: seq<ToolCall>, replayed: seq<ToolCall>)
    ensures ReplayedDeclared(json, calls, replayed) ==> Distinct(Ids(replayed))
  {
    hide Ids, Agrees;
  }

  lemma MatchedStart(json: JsonCodec, calls: seq<ToolCall>, replayed: seq<ToolCall>, remaining: map<string, ToolCall>)
    requires forall id :: id in remaining <==> id in Ids(replayed)
    requires forall j | 0 <= j < |replayed| :: replayed[j].id in remaining && remaining[replayed[j].id] == replayed[j]
    ensures Matched(json, calls, 0, replayed, remaining)
  {}

  lemma MatchedStep(json: JsonCodec, calls: seq<ToolCall>, i: nat, replayed: seq<ToolCall>, remaining: map<string, ToolCall>)
    requires i < |calls| && Matched(json, calls, i, replayed, remaining) && forall k | 0 <= k < i :: calls[k].id != calls[i].id
    ensures var id := calls[i].id;
      && (id in remaining <==> id in Ids(replayed))
      && (id in remaining && !Agrees(json, remaining[id], calls[i]) ==> !ReplayedDeclared(json, calls, replayed))
      && (id !in remaining || Agrees(json, remaining[id], calls[i]) ==> Matched(json, calls, i + 1, replayed, remaining - {id}))
  {
    hide Agrees;
    var id := calls[i].id;
    if id in remaining {
      var j :| 0 <= j < |replayed| && Ids(replayed)[j] == id;
      assert remaining[id] == replayed[j];
    }
    forall j | 0 <= j < |replayed| && replayed[j].id == id ensures id in remaining { assert Ids(replayed)[j] == id; }
  }

  lemma MatchedStepUnlessSeen(json: JsonCodec, calls: seq<ToolCall>, i: nat, replayed: seq<ToolCall>, remaining: map<string, ToolCall>, seen: set<string>)
    requires i < |calls| && Matched(json, calls, i, replayed, remaining) && forall k | 0 <= k < i :: calls[k].id in seen
    ensures var id := calls[i].id; id !in seen ==>
      && (id in remaining <==> id in Ids(replayed))
      && (id in remaining && !Agrees(json, remaining[id], calls[i]) ==> !ReplayedDeclared(json, calls, replayed))
      && (id !in remaining || Agrees(json, remaining[id], calls[i]) ==> Matched(json, calls, i + 1, replayed, remaining - {id}))
  {
    hide Matched, ReplayedDeclared, Agrees, Ids;
    if calls[i].id !in seen { MatchedStep(json, calls, i, replayed, remaining); }
  }

  lemma MatchedEnd(json: JsonCodec, calls: seq<ToolCall>, replayed: seq<ToolCall>, remaining: map<string, ToolCall>)
    requires Matched(json, calls, |calls|, replayed, remaining) && Distinct(Ids(replayed))
    ensures remaining == map[] <==> ReplayedDeclared(json, calls, replayed)
  {
    if remaining == map[] {
      forall j | 0 <= j < |replayed| ensures replayed[j].id in Ids(calls) {
        assert Ids(replayed)[j] == replayed[j].id && replayed[j].id !in remaining;
        var k :| 0 <= k < |calls| && calls[k].id == replayed[j].id;
        assert Ids(calls)[k] == replayed[j].id;
      }
    }
    if ReplayedDeclared(json, calls, replayed) {
      forall id ensures id !in remaining {
        if id in Ids(replayed) {
          var j :| 0 <= j < |replayed| && Ids(replayed)[j] == id;
          assert replayed[j].id in Ids(calls);
        }
      }
    }
  }

  lemma {:induction false} AllItemsSnoc(json: JsonCodec, messages: seq<Message>, m: Message)
    requires Encodable(json, m) && forall i | 0 <= i < |messages| :: Encodable(json, messages[i])
    ensures AllItems(json, messages + [m]) == AllItems(json, messages) + Items(json, m)
    ensures AllInstructions(messages + [m]) == AllInstructions(messages) + Instructions(m)
    decreases |messages|
  {
    hide Encodable, Items, Instructions;
    if messages == [] {
      assert [m][1..] == [];
    } else {
      assert (messages + [m])[0] == messages[0] && (messages + [m])[1..] == messages[1..] + [m];
      AllItemsSnoc(json, messages[1..], m);
    }
  }

  /** The encoder accepts a transcript exactly when every message is encodable and the transcript is
      paired; its input is then each message's items in order. */
  method EncodeMessages(json: JsonCodec, messages: seq<Message>) returns (encoded: Option<Encoded>)
    ensures encoded.Some? <==> Paired(messages) && forall i | 0 <= i < |messages| :: Encodable(json, messages[i])
    ensures encoded.Some? ==> encoded.value == Encoded(AllInstructions(messages), AllItems(json, messages))
    ensures encoded.Some? ==> Conveyed(json, messages, encoded.value)
  {
    hide Paired, Advance, Encodable, Items, Instructions, Conveyed;
    AcceptsPaired(messages);
    var encoder := new MessageEncoder(json);
    var i := 0;
    assert messages[0..] == messages;
    while i < |messages|
      invariant 0 <= i <= |messages| && encoder.json == json && fresh(encoder)
      invariant Follow(encoder.Ids(), messages[i..]) == Follow(EMPTY, messages)
      invariant forall k | 0 <= k < i :: Encodable(json, messages[k])
      invariant encoder.input == AllItems(json, messages[..i]) && encoder.instructions == AllInstructions(messages[..i])
    {
      assert messages[i..][0] == messages[i] && messages[i..][1..] == messages[i + 1..];
      var ok := encoder.AddMessage(messages[i]);
      if !ok {
        return None;
      }
      assert messages[..i + 1] == messages[..i] + [messages[i]];
      AllItemsSnoc(json, messages[..i], messages[i]);
      i := i + 1;
    }
    assert messages[..i] == messages;
    if encoder.pending != {} {
      return None;
    }
    AllItemsConveyed(json, messages);
    return Some(Encoded(encoder.instructions, encoder.input));
  }
}
