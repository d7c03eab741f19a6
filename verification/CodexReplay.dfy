/** The replay round trip: the message built from a completed stream, followed by its tool outputs, is
    accepted by the request encoder and sends the stream's items back as they came. */
module CodexReplay {
  import opened Options
  import opened Ordering
  import opened Transcript
  import opened ResponseState
  import opened ChatEncoder
  import opened CodexEncoder
  import opened CodexStream

  /** The states of the reasoning and function-call items, in stream order. */
  function States(dec: Decoder, h: seq<Event>): seq<State> {
    if h == [] then []
    else States(dec, Before(h)) + if IsStateItem(dec, Last(h)) then [ItemState(dec, Last(h).item)] else []
  }

  function CallIn(state: State): seq<ToolCall> {
    if state.kind == TYPE_FUNCTION_CALL then [ToolCall(state.callId, state.name, state.arguments, "")] else []
  }

  function CallsIn(states: seq<State>): seq<ToolCall> {
    if states == [] then []
    else CallIn(states[0]) + CallsIn(states[1..])
  }

  lemma {:induction false} CallsInAppend(a: seq<State>, b: seq<State>)
    ensures CallsIn(a + b) == CallsIn(a) + CallsIn(b)
  {
    if a == [] {
      assert a + b == b;
    } else {
      assert (a + b)[0] == a[0] && (a + b)[1..] == a[1..] + b;
      CallsInAppend(a[1..], b);
    }
  }

  /** A stored state part decodes to the item it came from, unless it outgrew a frame. */
  ghost predicate DecodesTo(json: JsonCodec, text: string, state: State) {
    && Replayable(json, state)
    && DecodeState(json, text) == if |text| <= MAX_STREAM_FRAME_BYTES then Some(Item(state, text)) else None
  }

  lemma StateItemDecodes(dec: Decoder, h: seq<Event>, item: string)
    requires Lawful(dec.json) && Acceptable(dec, h, ItemDone(item)) && IsStateItem(dec, ItemDone(item))
    ensures DecodesTo(dec.json, StateText(dec, item), ItemState(dec, item))
  {
    CanonicalReplays(dec.json, ItemFields(dec, item));
    hide TextOfStream, StateTexts, Calls, TotalLength, Fields, Canonical;
  }

  lemma {:induction false} StreamCalls(dec: Decoder, h: seq<Event>)
    ensures Calls(dec, h) == CallsIn(States(dec, h))
    decreases |h|
  {
    if h != [] {
      var g, e := Before(h), Last(h);
      StreamCalls(dec, g);
      if IsStateItem(dec, e) {
        var state := ItemState(dec, e.item);
        CallsInAppend(States(dec, g), [state]);
        assert [state][1..] == [];
        hide ItemState;
        assert CallsIn([state]) == CallIn(state) + [] == CallIn(state);
        assert CallsIn(States(dec, h)) == Calls(dec, g) + CallIn(state);
      } else {
        assert States(dec, h) == States(dec, g) && Calls(dec, h) == Calls(dec, g);
      }
    }
  }

  lemma {:induction false} StreamStates(dec: Decoder, h: seq<Event>)
    requires Lawful(dec.json) && AllAcceptable(dec, h)
    ensures |States(dec, h)| == |StateTexts(dec, h)|
    ensures forall i | 0 <= i < |States(dec, h)| :: DecodesTo(dec.json, StateTexts(dec, h)[i], States(dec, h)[i])
    ensures Calls(dec, h) == CallsIn(States(dec, h)) && Distinct(Ids(Calls(dec, h)))
    decreases |h|
  {
    hide DecodesTo, Acceptable, Lawful, CallsIn, ItemState, CallOf;
    StreamCalls(dec, h);
    if h != [] {
      var g, e := Before(h), Last(h);
      StreamStates(dec, g);
      if IsStateItem(dec, e) { StateItemDecodes(dec, g, e.item); }
      if IsCall(dec, e) {
        CallIsNew(dec, g, e.item);
        assert Ids(Calls(dec, h)) == Ids(Calls(dec, g)) + [CallOf(dec, e.item).id];
      }
    }
  }

  lemma CallIsNew(dec: Decoder, h: seq<Event>, item: string)
    requires Acceptable(dec, h, ItemDone(item)) && IsCall(dec, ItemDone(item))
    ensures CallOf(dec, item).id !in Ids(Calls(dec, h))
  {}

  function StateItems(states: seq<State>, texts: seq<string>): (items: seq<InputItem>)
    requires |states| == |texts|
    ensures |items| == |texts|
  {
    if texts == [] then [] else [StateItem(Item(states[0], texts[0]))] + StateItems(states[1..], texts[1..])
  }

  ghost predicate AllFit(texts: seq<string>) {
    forall i | 0 <= i < |texts| :: |texts[i]| <= MAX_STREAM_FRAME_BYTES
  }

  ghost predicate Decode(json: JsonCodec, texts: seq<string>, states: seq<State>) {
    |states| == |texts| && forall i | 0 <= i < |texts| :: DecodesTo(json, texts[i], states[i])
  }

  lemma StatePartsEncodable(json: JsonCodec, texts: seq<string>, states: seq<State>)
    requires Decode(json, texts, states)
    ensures EncodableParts(json, ROLE_ASSISTANT, StateParts(texts)) <==> AllFit(texts)
  {
    hide DecodeState, Replayable;
    var parts := StateParts(texts);
    assert forall i | 0 <= i < |texts| :: parts[i].text == texts[i] && parts[i].kind == PART_RESPONSE_ITEM && !parts[i].hasRef;
    assert forall i | 0 <= i < |texts| :: EncodablePart(json, ROLE_ASSISTANT, parts[i]) <==> |texts[i]| <= MAX_STREAM_FRAME_BYTES;
  }

  lemma EncodableConcat(json: JsonCodec, role: string, a: seq<Part>, b: seq<Part>)
    ensures EncodableParts(json, role, a + b) <==> EncodableParts(json, role, a) && EncodableParts(json, role, b)
  {
    hide EncodablePart;
    assert forall i | 0 <= i < |a| :: (a + b)[i] == a[i];
    assert forall i | 0 <= i < |b| :: (a + b)[|a| + i] == b[i];
  }

  /** State parts in front contribute their items and calls one by one. */
  lemma {:induction false} StatePartsFirst(json: JsonCodec, texts: seq<string>, states: seq<State>, rest: seq<Part>)
    requires Decode(json, texts, states) && AllFit(texts) && EncodableParts(json, ROLE_ASSISTANT, rest)
    ensures EncodableParts(json, ROLE_ASSISTANT, StateParts(texts) + rest)
    ensures PartItems(json, ROLE_ASSISTANT, StateParts(texts) + rest, []) == StateItems(states, texts) + PartItems(json, ROLE_ASSISTANT, rest, [])
    ensures ReplayedCalls(json, ROLE_ASSISTANT, StateParts(texts) + rest) == CallsIn(states) + ReplayedCalls(json, ROLE_ASSISTANT, rest)
    decreases |texts|
  {
    hide DecodesTo, EncodableParts, Replayable, DecodeState, AllFit, StateParts, StateItems, CallsIn, CallIn, PartItems, ReplayedCalls;
    StatePartsEncodable(json, texts, states);
    EncodableConcat(json, ROLE_ASSISTANT, StateParts(texts), rest);
    if texts == [] {
      NoStateParts(states, texts, rest);
    } else {
      FitTail(texts);
      assert DecodesTo(json, texts[0], states[0]);
      StatePartsFirst(json, texts[1..], states[1..], rest);
      StatePartsTail(texts, states, rest);
      OneStatePart(json, texts[0], states[0], StateParts(texts[1..]) + rest);
    }
  }

  lemma NoStateParts(states: seq<State>, texts: seq<string>, rest: seq<Part>)
    requires texts == [] && states == []
    ensures StateParts(texts) + rest == rest && StateItems(states, texts) == [] && CallsIn(states) == []
  {
    assert StateParts(texts) == [];
  }

  lemma FitTail(texts: seq<string>)
    requires AllFit(texts) && texts != []
    ensures AllFit(texts[1..]) && |texts[0]| <= MAX_STREAM_FRAME_BYTES
  {}

  lemma {:induction false} StatePartsTail(texts: seq<string>, states: seq<State>, rest: seq<Part>)
    requires texts != [] && |states| == |texts|
    ensures StateParts(texts) + rest == [StatePart(texts[0])] + (StateParts(texts[1..]) + rest)
    ensures StateItems(states, texts) == [StateItem(Item(states[0], texts[0]))] + StateItems(states[1..], texts[1..])
    ensures CallsIn(states) == CallIn(states[0]) + CallsIn(states[1..])
  {
    hide StatePart;
    var part, parts := StatePart(texts[0]), StateParts(texts[1..]);
    assert StateParts(texts) == [part] + parts;
    assert ([part] + parts) + rest == [part] + (parts + rest);
  }

  lemma OneStatePart(json: JsonCodec, text: string, state: State, rest: seq<Part>)
    requires DecodesTo(json, text, state) && |text| <= MAX_STREAM_FRAME_BYTES && EncodableParts(json, ROLE_ASSISTANT, rest)
    ensures var parts := [StatePart(text)] + rest;
      && EncodableParts(json, ROLE_ASSISTANT, parts)
      && PartItems(json, ROLE_ASSISTANT, parts, []) == [StateItem(Item(state, text))] + PartItems(json, ROLE_ASSISTANT, rest, [])
      && ReplayedCalls(json, ROLE_ASSISTANT, parts) == CallIn(state) + ReplayedCalls(json, ROLE_ASSISTANT, rest)
  {
    hide DecodeState, Replayable;
    var part := StatePart(text);
    var parts := [part] + rest;
    assert parts[0] == part && parts[1..] == rest && PART_RESPONSE_ITEM != PART_TEXT;
    assert EncodablePart(json, ROLE_ASSISTANT, part);
    EncodableConcat(json, ROLE_ASSISTANT, [part], rest);
  }

  lemma TextThenStates(json: JsonCodec, text: string, texts: seq<string>, states: seq<State>)
    requires Decode(json, texts, states) && AllFit(texts)
    ensures var parts := [Part(PART_TEXT, text, false)] + StateParts(texts);
      && EncodableParts(json, ROLE_ASSISTANT, parts)
      && PartItems(json, ROLE_ASSISTANT, parts, []) == [TextItem(ROLE_ASSISTANT, [text])] + StateItems(states, texts)
      && ReplayedCalls(json, ROLE_ASSISTANT, parts) == CallsIn(states)
  {
    hide DecodeState, Replayable, EncodablePart, StateParts, StateItems, CallsIn, AllFit, EncodableParts, ReplayedCalls, PartItems;
    var first, rest := Part(PART_TEXT, text, false), StateParts(texts);
    var none: seq<string> := [];
    assert none + [text] == [text];
    Nothing(json);
    StatePartsFirst(json, texts, states, []);
    assert rest + [] == rest && StateItems(states, texts) + [] == StateItems(states, texts) && CallsIn(states) + [] == CallsIn(states);
    TextEncodable(json, text);
    EncodableConcat(json, ROLE_ASSISTANT, [first], rest);
    PartItemsStep(json, ROLE_ASSISTANT, first, rest, []);
    TextBeforeStates(json, text, texts, states);
  }

  /** Text collected before state parts becomes an item of its own in front of them. */
  lemma TextBeforeStates(json: JsonCodec, text: string, texts: seq<string>, states: seq<State>)
    requires |states| == |texts| && EncodableParts(json, ROLE_ASSISTANT, StateParts(texts))
    ensures PartItems(json, ROLE_ASSISTANT, StateParts(texts), [text])
      == [TextItem(ROLE_ASSISTANT, [text])] + PartItems(json, ROLE_ASSISTANT, StateParts(texts), [])
  {
    hide DecodeState, EncodablePart;
    var rest := StateParts(texts);
    if texts != [] {
      assert rest[0].kind == PART_RESPONSE_ITEM && PART_RESPONSE_ITEM != PART_TEXT;
    } else {
      assert rest == [];
    }
  }

  lemma FitSplit(texts: seq<string>, at: nat)
    requires at <= |texts|
    ensures AllFit(texts) <==> AllFit(texts[..at]) && AllFit(texts[at..])
  {
    var tail := texts[at..];
    assert forall i | 0 <= i < |tail| :: tail[i] == texts[at + i];
    if AllFit(texts[..at]) && AllFit(tail) {
      forall i | 0 <= i < |texts| ensures |texts[i]| <= MAX_STREAM_FRAME_BYTES {
        if at <= i { assert tail[i - at] == texts[i]; } else { assert texts[..at][i] == texts[i]; }
      }
    }
  }

  lemma DecodeSplit(json: JsonCodec, texts: seq<string>, states: seq<State>, at: nat)
    requires Decode(json, texts, states) && at <= |texts|
    ensures Decode(json, texts[..at], states[..at]) && Decode(json, texts[at..], states[at..])
  {
    hide DecodesTo;
    forall i | 0 <= i < |texts| - at ensures DecodesTo(json, texts[at..][i], states[at..][i]) {
      assert texts[at..][i] == texts[at + i] && states[at..][i] == states[at + i];
    }
  }

  /** The input items of the message's parts: state items in stream order, the text at its position. */
  function Interleaved(states: seq<State>, texts: seq<string>, text: string, at: nat): seq<InputItem>
    requires |states| == |texts| && at <= |texts|
  {
    if text == "" then StateItems(states, texts)
    else StateItems(states[..at], texts[..at]) + [TextItem(ROLE_ASSISTANT, [text])] + StateItems(states[at..], texts[at..])
  }

  lemma PartsReplay(json: JsonCodec, texts: seq<string>, states: seq<State>, text: string, at: nat)
    requires Decode(json, texts, states) && at <= |texts|
    ensures var parts := Parts(texts, text, at);
      && (EncodableParts(json, ROLE_ASSISTANT, parts) <==> AllFit(texts))
      && (AllFit(texts) ==>
            && PartItems(json, ROLE_ASSISTANT, parts, []) == Interleaved(states, texts, text, at)
            && ReplayedCalls(json, ROLE_ASSISTANT, parts) == CallsIn(states))
  {
    hide DecodesTo, AllFit, EncodableParts, PartItems, ReplayedCalls, StateParts, StateItems, CallsIn;
    DecodeSplit(json, texts, states, at);
    FitSplit(texts, at);
    assert states == states[..at] + states[at..];
    CallsInAppend(states[..at], states[at..]);
    StatePartsEncodable(json, texts, states);
    if text == "" {
      if AllFit(texts) {
        Nothing(json);
        StatePartsFirst(json, texts, states, []);
        assert StateParts(texts) + [] == StateParts(texts);
        assert CallsIn(states) + [] == CallsIn(states) && StateItems(states, texts) + [] == StateItems(states, texts);
      }
    } else {
      var tail := [Part(PART_TEXT, text, false)] + StateParts(texts[at..]);
      assert Parts(texts, text, at) == StateParts(texts[..at]) + tail;
      StatePartsEncodable(json, texts[..at], states[..at]);
      StatePartsEncodable(json, texts[at..], states[at..]);
      EncodableConcat(json, ROLE_ASSISTANT, StateParts(texts[..at]), tail);
      EncodableConcat(json, ROLE_ASSISTANT, [Part(PART_TEXT, text, false)], StateParts(texts[at..]));
      TextEncodable(json, text);
      if AllFit(texts) {
        TextThenStates(json, text, texts[at..], states[at..]);
        StatePartsFirst(json, texts[..at], states[..at], tail);
      }
    }
  }

  lemma Nothing(json: JsonCodec)
    ensures EncodableParts(json, ROLE_ASSISTANT, []) && PartItems(json, ROLE_ASSISTANT, [], []) == [] && ReplayedCalls(json, ROLE_ASSISTANT, []) == []
  {}

  lemma TextEncodable(json: JsonCodec, text: string)
    ensures EncodableParts(json, ROLE_ASSISTANT, [Part(PART_TEXT, text, false)])
  {}

  lemma {:induction false} CallsAreReplayed(calls: seq<ToolCall>, all: seq<ToolCall>)
    requires forall i | 0 <= i < |calls| :: calls[i].id in Ids(all)
    ensures CallItems(calls, all) == []
    decreases |calls|
  {
    if calls != [] { CallsAreReplayed(calls[1..], all); }
  }

  lemma {:induction false} CallsInValid(json: JsonCodec, texts: seq<string>, states: seq<State>)
    requires Lawful(json) && Decode(json, texts, states)
    ensures forall i | 0 <= i < |CallsIn(states)| ::
      var call := CallsIn(states)[i]; ValidText(json, call) && call.arguments != "" && ValidJson(json, call.arguments)
    decreases |states|
  {
    if states != [] {
      CallsInValid(json, texts[1..], states[1..]);
      assert DecodesTo(json, texts[0], states[0]);
      hide DecodeState;
    }
  }

  /** A stream's own calls always agree with the items that carry them. */
  lemma OwnCallsDeclared(json: JsonCodec, texts: seq<string>, states: seq<State>)
    requires Lawful(json) && Decode(json, texts, states) && Distinct(Ids(CallsIn(states)))
    ensures ReplayedDeclared(json, CallsIn(states), CallsIn(states)) && CallItems(CallsIn(states), CallsIn(states)) == []
  {
    var calls := CallsIn(states);
    CallsInValid(json, texts, states);
    forall i | 0 <= i < |calls| ensures calls[i].id in Ids(calls) { assert Ids(calls)[i] == calls[i].id; }
    CallsAreReplayed(calls, calls);
    forall i, j | 0 <= i < |calls| && 0 <= j < |calls| && calls[j].id == calls[i].id ensures Agrees(json, calls[j], calls[i]) {
      assert Ids(calls)[i] == calls[i].id && Ids(calls)[j] == calls[j].id;
      assert i == j;
    }
  }

  /** What a completed stream sends back: its items in order, its text (or bare refusal) in place, and no
      separate function call. */
  function Emitted(dec: Decoder, h: seq<Event>): seq<InputItem>
    requires |States(dec, h)| == |StateTexts(dec, h)|
  {
    var text, refusal := TextOfStream(dec, h), RefusalOfStream(dec, h);
    if text == "" && StateTexts(dec, h) == [] && refusal != "" then [TextItem(ROLE_ASSISTANT, [refusal])]
    else Interleaved(States(dec, h), StateTexts(dec, h), text, TextPosition(dec, h))
  }

  lemma MessageReplays(dec: Decoder, h: seq<Event>)
    requires Lawful(dec.json) && AllAcceptable(dec, h) && ResponseMessage(dec, h).Some?
    ensures |States(dec, h)| == |StateTexts(dec, h)|
    ensures var m := ResponseMessage(dec, h).value;
      && (Encodable(dec.json, m) <==> AllFit(StateTexts(dec, h)))
      && (Encodable(dec.json, m) ==> Items(dec.json, m) == Emitted(dec, h))
      && m.role == ROLE_ASSISTANT && m.toolCalls == Calls(dec, h)
  {
    hide StateTexts, States, TextOfStream, TextPosition, RefusalOfStream, Calls, AllAcceptable, DecodesTo, Lawful, ValidCall, CallsIn;
    var m := ResponseMessage(dec, h).value;
    var json, texts, states, text, at := dec.json, StateTexts(dec, h), States(dec, h), TextOfStream(dec, h), TextPosition(dec, h);
    StreamStates(dec, h);
    assert Decode(json, texts, states);
    OwnCallsDeclared(json, texts, states);
    CallsInValid(json, texts, states);
    PartsReplay(json, texts, states, text, at);
    if RefusalOfStream(dec, h) != "" && Parts(texts, text, at) == [] {
      RefusalReplays(json, RefusalOfStream(dec, h));
      NoParts(texts, text, at);
      hide Parts, EncodableParts, PartItems, ReplayedCalls, ReplayedDeclared, CallItems, ValidText, Ids, Distinct;
    } else {
      if Parts(texts, text, at) != [] { SomeParts(texts, text, at); }
      hide Parts, EncodableParts, PartItems, ReplayedCalls, ReplayedDeclared, CallItems, Interleaved, ValidText, Ids, Distinct, AllFit;
    }
  }

  lemma NoParts(texts: seq<string>, text: string, at: nat)
    requires at <= |texts| && Parts(texts, text, at) == []
    ensures texts == [] && text == ""
  {}

  lemma SomeParts(texts: seq<string>, text: string, at: nat)
    requires at <= |texts| && Parts(texts, text, at) != []
    ensures texts != [] || text != ""
  {}

  lemma RefusalReplays(json: JsonCodec, refusal: string)
    ensures var parts := [Part(PART_TEXT, refusal, false)];
      && EncodableParts(json, ROLE_ASSISTANT, parts)
      && PartItems(json, ROLE_ASSISTANT, parts, []) == [TextItem(ROLE_ASSISTANT, [refusal])]
      && ReplayedCalls(json, ROLE_ASSISTANT, parts) == []
      && ReplayedDeclared(json, [], []) && CallItems([], []) == []
  {
    var parts := [Part(PART_TEXT, refusal, false)];
    var none: seq<string> := [];
    assert parts[1..] == [] && none + [refusal] == [refusal];
  }

  lemma {:induction false} ToolsOnly(outputs: seq<Message>)
    requires forall i | 0 <= i < |outputs| :: IsTool(outputs[i])
    ensures AllDeclared(outputs) == [] && TurnsAnswered(outputs) && |Answers(outputs)| == |outputs|
    decreases |outputs|
  {
    if outputs != [] { ToolsOnly(outputs[1..]); }
  }

  /** A fresh assistant turn followed by one output per call keeps a paired transcript paired. */
  lemma TurnKeepsPaired(prior: seq<Message>, m: Message, outputs: seq<Message>)
    requires Paired(prior) && !IsTool(m) && forall i | 0 <= i < |outputs| :: IsTool(outputs[i])
    requires Distinct(Ids(m.toolCalls)) && Elements(Ids(m.toolCalls)) !! Elements(AllDeclared(prior))
    requires multiset(Answers(outputs)) == multiset(Ids(m.toolCalls))
    ensures Paired(prior + [m] + outputs)
  {
    var ids := Ids(m.toolCalls);
    AcceptsPaired(prior);
    FollowSeen(EMPTY, prior);
    var s := Follow(EMPTY, prior).value;
    assert s.seen == Elements(AllDeclared(prior));
    DeclareMeaning(s, ids);
    var t := Advance(s, m).value;
    ToolsOnly(outputs);
    DistinctMultiset(ids);
    assert t.pending == Elements(ids);
    FollowMeaning(t, outputs);
    assert Completes(t, outputs);
    assert [m][1..] == [] && Follow(s, [m]) == Some(t);
    FollowAppend(EMPTY, prior, [m]);
    FollowAppend(EMPTY, prior + [m], outputs);
    AcceptsPaired(prior + [m] + outputs);
    hide Paired, TurnsAnswered, Distinct, Follow, Completes, Elements;
  }

  lemma {:induction false} AllItemsAppend(json: JsonCodec, a: seq<Message>, b: seq<Message>)
    requires forall i | 0 <= i < |a| :: Encodable(json, a[i])
    requires forall i | 0 <= i < |b| :: Encodable(json, b[i])
    ensures forall i | 0 <= i < |a + b| :: Encodable(json, (a + b)[i])
    ensures AllItems(json, a + b) == AllItems(json, a) + AllItems(json, b)
    decreases |a|
  {
    hide Encodable, Items;
    if a == [] {
      assert a + b == b;
    } else {
      assert (a + b)[0] == a[0] && (a + b)[1..] == a[1..] + b;
      AllItemsAppend(json, a[1..], b);
    }
  }

  /** Replaying a completed stream after a paired transcript its call ids are new to, followed by one output
      per call: the encoder accepts it exactly when every canonical item still fits a frame, and then sends
      the stream's items back in order between what came before and the outputs. */
  lemma ReplayRoundTrip(dec: Decoder, h: seq<Event>, prior: seq<Message>, outputs: seq<Message>)
    requires Lawful(dec.json) && AllAcceptable(dec, h) && ResponseMessage(dec, h).Some?
    requires Paired(prior) && forall i | 0 <= i < |prior| :: Encodable(dec.json, prior[i])
    requires forall i | 0 <= i < |outputs| :: IsTool(outputs[i]) && Encodable(dec.json, outputs[i])
    requires multiset(Answers(outputs)) == multiset(Ids(Calls(dec, h)))
    requires Elements(Ids(Calls(dec, h))) !! Elements(AllDeclared(prior))
    ensures |States(dec, h)| == |StateTexts(dec, h)|
    ensures var m := ResponseMessage(dec, h).value; var transcript := prior + [m] + outputs;
      && Paired(transcript)
      && ((forall i | 0 <= i < |transcript| :: Encodable(dec.json, transcript[i])) <==> AllFit(StateTexts(dec, h)))
      && (AllFit(StateTexts(dec, h)) ==>
            && (forall i | 0 <= i < |transcript| :: Encodable(dec.json, transcript[i]))
            && AllItems(dec.json, transcript) == AllItems(dec.json, prior) + Emitted(dec, h) + AllItems(dec.json, outputs))
  {
    hide Lawful, AllAcceptable, ResponseMessage, Encodable, Items, Paired, Answers, AllDeclared, Elements, Calls, Ids, Distinct, Emitted, States,
      StateTexts, AllFit, AllItems, DecodesTo, CallsIn;
    var m := ResponseMessage(dec, h).value;
    MessageReplays(dec, h);
    StreamStates(dec, h);
    TurnKeepsPaired(prior, m, outputs);
    ItemsBetween(dec.json, prior, m, outputs);
  }

  lemma ItemsBetween(json: JsonCodec, prior: seq<Message>, m: Message, outputs: seq<Message>)
    requires forall i | 0 <= i < |prior| :: Encodable(json, prior[i])
    requires forall i | 0 <= i < |outputs| :: Encodable(json, outputs[i])
    ensures var transcript := prior + [m] + outputs;
      && ((forall i | 0 <= i < |transcript| :: Encodable(json, transcript[i])) <==> Encodable(json, m))
      && (Encodable(json, m) ==> AllItems(json, transcript) == AllItems(json, prior) + Items(json, m) + AllItems(json, outputs))
  {
    hide Encodable, Items, AllItems;
    var transcript := prior + [m] + outputs;
    assert transcript[|prior|] == m;
    if Encodable(json, m) {
      AllItemsAppend(json, prior, [m]);
      AllItemsAppend(json, prior + [m], outputs);
      OneMessage(json, m);
    }
  }

  lemma OneMessage(json: JsonCodec, m: Message)
    requires Encodable(json, m)
    ensures AllItems(json, [m]) == Items(json, m)
  {
    hide Encodable, Items;
    assert [m][1..] == [];
  }
}
