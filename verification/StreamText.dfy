/** What a stream says, in closed form: its text, its refusal, the items it keeps and the calls it makes, and the
    message they become. */
module StreamText {
  import opened Transcript
  import opened ResponseState
  import opened CodexStream

  /** The JSON fields of a finished item. */
  function FieldsOf(dec: Decoder, e: Event): map<string, Field> {
    if e.ItemDone? && dec.json.decode(e.item).Object? then dec.json.decode(e.item).fields else map[]
  }

  function KindOf(dec: Decoder, e: Event): string {
    Get(FieldsOf(dec, e), "type")
  }

  /** The contents of a finished message item, in order. */
  function Body(dec: Decoder, e: Event): seq<Content> {
    if KindOf(dec, e) != "message" then []
    else
      var contents := dec.contents(FieldsOf(dec, e));
      if contents.Some? then contents.value else []
  }

  function OutputTexts(contents: seq<Content>): (texts: seq<string>)
    ensures |texts| == |contents|
  {
    seq(|contents|, i requires 0 <= i < |contents| => if contents[i].OutputText? then contents[i].text else "")
  }

  function RefusalTexts(contents: seq<Content>): (texts: seq<string>)
    ensures |texts| == |contents|
  {
    seq(|contents|, i requires 0 <= i < |contents| => if contents[i].RefusalText? then contents[i].refusal else "")
  }

  /** What each finished message item says. */
  function Finished(dec: Decoder, h: seq<Event>): (texts: seq<string>)
    ensures |texts| == |h|
  {
    seq(|h|, i requires 0 <= i < |h| => Flat(OutputTexts(Body(dec, h[i]))))
  }

  function FinishedRefusals(dec: Decoder, h: seq<Event>): (texts: seq<string>)
    ensures |texts| == |h|
  {
    seq(|h|, i requires 0 <= i < |h| => Flat(RefusalTexts(Body(dec, h[i]))))
  }

  function Deltas(h: seq<Event>): (texts: seq<string>)
    ensures |texts| == |h|
  {
    seq(|h|, i requires 0 <= i < |h| => if h[i].TextDelta? then h[i].value else "")
  }

  function RefusalDeltas(h: seq<Event>): (texts: seq<string>)
    ensures |texts| == |h|
  {
    seq(|h|, i requires 0 <= i < |h| => if h[i].RefusalDelta? then h[i].value else "")
  }

  /** Where the first delta with content is; the length of the stream if there is none. */
  function FirstDelta(h: seq<Event>): (n: nat)
    ensures n <= |h|
    ensures forall i | 0 <= i < n :: h[i].TextDelta? ==> h[i].value == ""
    ensures n < |h| ==> h[n].TextDelta? && h[n].value != ""
  {
    if h == [] || (h[0].TextDelta? && h[0].value != "") then 0 else 1 + FirstDelta(h[1..])
  }

  function FirstRefusalDelta(h: seq<Event>): (n: nat)
    ensures n <= |h|
    ensures forall i | 0 <= i < n :: h[i].RefusalDelta? ==> h[i].value == ""
    ensures n < |h| ==> h[n].RefusalDelta? && h[n].value != ""
  {
    if h == [] || (h[0].RefusalDelta? && h[0].value != "") then 0 else 1 + FirstRefusalDelta(h[1..])
  }

  /** The texts of the message items finished before the first delta, then all deltas. */
  function Spoken(dec: Decoder, h: seq<Event>): string {
    var n := FirstDelta(h);
    Flat(Finished(dec, h[..n])) + Flat(Deltas(h[n..]))
  }

  function Refused(dec: Decoder, h: seq<Event>): string {
    var n := FirstRefusalDelta(h);
    Flat(FinishedRefusals(dec, h[..n])) + Flat(RefusalDeltas(h[n..]))
  }

  /** Reasoning and function-call items in order, each without its id and status. */
  function Kept(dec: Decoder, h: seq<Event>): seq<string> {
    if h == [] then []
    else
      (if KindOf(dec, h[0]) in {"reasoning", "function_call"} then [dec.json.encode(FieldsOf(dec, h[0]) - {"id", "status"})] else [])
      + Kept(dec, h[1..])
  }

  /** The calls the function-call items make, in order. */
  function Called(dec: Decoder, h: seq<Event>): seq<ToolCall> {
    if h == [] then []
    else
      var fields := FieldsOf(dec, h[0]);
      (if KindOf(dec, h[0]) == "function_call" then [ToolCall(Get(fields, "call_id"), Get(fields, "name"), Get(fields, "arguments"), "")] else [])
      + Called(dec, h[1..])
  }

  /** An event the collector can take, whatever came before it. */
  predicate WellFormed(dec: Decoder, e: Event) {
    match e
    case TextDelta(_) => true
    case RefusalDelta(_) => true
    case ItemDone(item) =>
      var fields, kind := FieldsOf(dec, e), KindOf(dec, e);
      && item != "" && |item| <= 4 * 1024 * 1024 && dec.json.decode(item).Object? && dec.contents(fields).Some?
      && (forall key | key in {"type", "id", "call_id", "name", "arguments"} && key in fields :: !fields[key].Other?)
      && (|| kind == "message"
          || kind == "reasoning"
          || (kind == "function_call" && Get(fields, "call_id") != "" && Get(fields, "name") != ""
              && dec.json.decode(Get(fields, "arguments")) != Invalid))
    case Completed(id, usage) =>
      id != "" && (usage.Some? ==> 0 <= usage.value.input && 0 <= usage.value.output && 0 <= usage.value.total)
    case Silent => true
    case Failure => false
    case Done => false
  }

  function ItemParts(texts: seq<string>): (parts: seq<Part>)
    ensures |parts| == |texts|
  {
    seq(|texts|, i requires 0 <= i < |texts| => Part("openai.codex.response_item", texts[i], false))
  }

  // The collector's functions have these values.

  lemma {:induction false} FlatSnoc(texts: seq<string>, text: string)
    ensures Flat(texts + [text]) == Flat(texts) + text
    decreases |texts|
  {
    if texts == [] {
      assert [text][1..] == [];
    } else {
      assert (texts + [text])[0] == texts[0] && (texts + [text])[1..] == texts[1..] + [text];
      FlatSnoc(texts[1..], text);
    }
  }

  lemma {:induction false} ContentsFlat(contents: seq<Content>)
    ensures Texts(contents) == Flat(OutputTexts(contents)) && Refusals(contents) == Flat(RefusalTexts(contents))
  {
    if contents != [] {
      ContentsFlat(contents[1..]);
      assert OutputTexts(contents)[1..] == OutputTexts(contents[1..]) && RefusalTexts(contents)[1..] == RefusalTexts(contents[1..]);
    }
  }

  lemma ItemRead(dec: Decoder, e: Event)
    requires e.ItemDone? ==> ItemDecodes(dec, e.item)
    ensures e.ItemDone? ==> ItemFields(dec, e.item) == FieldsOf(dec, e)
    ensures e.ItemDone? ==>
      var fields := FieldsOf(dec, e);
      ItemState(dec, e.item) == State(KindOf(dec, e), Get(fields, "call_id"), Get(fields, "name"), Get(fields, "arguments"))
    ensures !e.ItemDone? ==> KindOf(dec, e) == ""
    ensures Contents(dec, e) == Body(dec, e)
  {
    hide Fields;
    FieldsRead(FieldsOf(dec, e));
  }

  lemma AcceptableDecodes(dec: Decoder, h: seq<Event>, e: Event)
    requires Acceptable(dec, h, e)
    ensures e.ItemDone? ==> ItemDecodes(dec, e.item)
  {}

  lemma FirstDeltaSnoc(h: seq<Event>, e: Event)
    ensures FirstDelta(h) < |h| <==> SawTextDelta(h)
    ensures FirstDelta(h + [e]) ==
      if FirstDelta(h) < |h| || (e.TextDelta? && e.value != "") then FirstDelta(h) else |h| + 1
  {
    var g, n := h + [e], FirstDelta(h + [e]);
    assert g[|h|] == e && forall i | 0 <= i < |h| :: g[i] == h[i];
    if FirstDelta(h) < |h| { assert g[FirstDelta(h)] == h[FirstDelta(h)]; }
  }

  lemma FirstRefusalSnoc(h: seq<Event>, e: Event)
    ensures FirstRefusalDelta(h) < |h| <==> SawRefusalDelta(h)
    ensures FirstRefusalDelta(h + [e]) ==
      if FirstRefusalDelta(h) < |h| || (e.RefusalDelta? && e.value != "") then FirstRefusalDelta(h) else |h| + 1
  {
    var g, n := h + [e], FirstRefusalDelta(h + [e]);
    assert g[|h|] == e && forall i | 0 <= i < |h| :: g[i] == h[i];
    if FirstRefusalDelta(h) < |h| { assert g[FirstRefusalDelta(h)] == h[FirstRefusalDelta(h)]; }
  }

  lemma SpokenSnoc(dec: Decoder, h: seq<Event>, e: Event)
    ensures Spoken(dec, h + [e]) ==
      Spoken(dec, h) + if e.TextDelta? then e.value else if SawTextDelta(h) then "" else Flat(OutputTexts(Body(dec, e)))
  {
    hide OutputTexts, FirstDelta, Flat;
    var g, n := h + [e], FirstDelta(h);
    FirstDeltaSnoc(h, e);
    if n < |h| || (e.TextDelta? && e.value != "") {
      assert g[..n] == h[..n] && g[n..] == h[n..] + [e];
      var value := if e.TextDelta? then e.value else "";
      assert Deltas(g[n..]) == Deltas(h[n..]) + [value];
      FlatSnoc(Deltas(h[n..]), value);
    } else {
      assert h[..n] == h && h[n..] == [] && g[..|g|] == h + [e] && g[|g|..] == [];
      assert Finished(dec, g) == Finished(dec, h) + [Flat(OutputTexts(Body(dec, e)))];
      FlatSnoc(Finished(dec, h), Flat(OutputTexts(Body(dec, e))));
      NothingSaid(dec, e);
    }
  }

  lemma NothingSaid(dec: Decoder, e: Event)
    ensures !e.ItemDone? ==> Flat(OutputTexts(Body(dec, e))) == "" && Flat(RefusalTexts(Body(dec, e))) == ""
    ensures Flat(Deltas([])) == "" && Flat(RefusalDeltas([])) == ""
  {}

  lemma RefusedSnoc(dec: Decoder, h: seq<Event>, e: Event)
    ensures Refused(dec, h + [e]) ==
      Refused(dec, h) + if e.RefusalDelta? then e.value else if SawRefusalDelta(h) then "" else Flat(RefusalTexts(Body(dec, e)))
  {
    hide RefusalTexts, FirstRefusalDelta, Flat;
    var g, n := h + [e], FirstRefusalDelta(h);
    FirstRefusalSnoc(h, e);
    if n < |h| || (e.RefusalDelta? && e.value != "") {
      assert g[..n] == h[..n] && g[n..] == h[n..] + [e];
      var value := if e.RefusalDelta? then e.value else "";
      assert RefusalDeltas(g[n..]) == RefusalDeltas(h[n..]) + [value];
      FlatSnoc(RefusalDeltas(h[n..]), value);
    } else {
      assert h[..n] == h && h[n..] == [] && g[..|g|] == h + [e] && g[|g|..] == [];
      assert FinishedRefusals(dec, g) == FinishedRefusals(dec, h) + [Flat(RefusalTexts(Body(dec, e)))];
      FlatSnoc(FinishedRefusals(dec, h), Flat(RefusalTexts(Body(dec, e))));
      NothingSaid(dec, e);
    }
  }

  lemma {:induction false} KeptAppend(dec: Decoder, a: seq<Event>, b: seq<Event>)
    ensures Kept(dec, a + b) == Kept(dec, a) + Kept(dec, b) && Called(dec, a + b) == Called(dec, a) + Called(dec, b)
    decreases |a|
  {
    hide KindOf, FieldsOf, Get;
    if a == [] {
      assert a + b == b;
    } else {
      assert (a + b)[0] == a[0] && (a + b)[1..] == a[1..] + b;
      KeptAppend(dec, a[1..], b);
    }
  }

  lemma KeptSnoc(dec: Decoder, h: seq<Event>, e: Event)
    requires e.ItemDone? ==> ItemDecodes(dec, e.item)
    ensures Kept(dec, h + [e]) == Kept(dec, h) + if IsStateItem(dec, e) then [StateText(dec, e.item)] else []
    ensures Called(dec, h + [e]) == Called(dec, h) + if IsCall(dec, e) then [CallOf(dec, e.item)] else []
  {
    KeptAppend(dec, h, [e]);
    ItemRead(dec, e);
    hide KindOf, FieldsOf, ItemState, ItemFields, Get;
    assert [e][1..] == [];
  }

  /** Text, refusal, items and calls of a stream the collector takes. */
  lemma {:induction false} StreamSays(dec: Decoder, h: seq<Event>)
    requires AllAcceptable(dec, h)
    ensures TextOfStream(dec, h) == Spoken(dec, h) && RefusalOfStream(dec, h) == Refused(dec, h)
    ensures StateTexts(dec, h) == Kept(dec, h) && Calls(dec, h) == Called(dec, h)
    decreases |h|
  {
    hide Acceptable, Spoken, Refused, ItemState, StateText, CallOf, ItemDecodes, Body, Contents, Texts, Refusals, OutputTexts, RefusalTexts, Flat;
    if h == [] {
      NothingSpoken(dec);
    } else {
      var g, e := Before(h), Last(h);
      assert h == g + [e];
      StreamSays(dec, g);
      AcceptableDecodes(dec, g, e);
      ItemRead(dec, e);
      ContentsFlat(Contents(dec, e));
      SpokenSnoc(dec, g, e);
      RefusedSnoc(dec, g, e);
      KeptSnoc(dec, g, e);
    }
  }

  lemma NothingSpoken(dec: Decoder)
    ensures Spoken(dec, []) == "" && Refused(dec, []) == ""
  {}

  /** The text starts at the first event that gives it any content. */
  lemma {:induction false} TextStarts(dec: Decoder, h: seq<Event>) returns (k: nat)
    requires TextOfStream(dec, h) != ""
    ensures k < |h| && TextOfStream(dec, h[..k]) == "" && TextOfStream(dec, h[..k + 1]) != ""
    ensures TextPosition(dec, h) == |StateTexts(dec, h[..k])|
    decreases |h|
  {
    hide AddedText, IsStateItem, StateText;
    if TextOfStream(dec, Before(h)) == "" {
      k := |h| - 1;
      assert h[..k + 1] == h;
    } else {
      k := TextStarts(dec, Before(h));
      assert Before(h)[..k] == h[..k] && Before(h)[..k + 1] == h[..k + 1];
    }
  }

  lemma PartsSplit(a: seq<string>, b: seq<string>, text: string)
    ensures Parts(a + b, text, |a|) == if text == "" then ItemParts(a + b) else ItemParts(a) + [Part("text", text, false)] + ItemParts(b)
  {
    assert (a + b)[..|a|] == a && (a + b)[|a|..] == b;
    assert StateParts(a) == ItemParts(a) && StateParts(b) == ItemParts(b) && StateParts(a + b) == ItemParts(a + b);
  }

  /** The message of a completed stream: the kept items in order, the text where it first got content; a refusal
      stands in only for a message without parts, and excludes calls. */
  lemma ResponseSays(dec: Decoder, h: seq<Event>)
    requires AllAcceptable(dec, h)
    ensures var m, text, refusal, calls := ResponseMessage(dec, h), Spoken(dec, h), Refused(dec, h), Called(dec, h);
      && (m.None? <==> calls != [] && refusal != "")
      && (m.Some? ==>
            && m.value.role == "assistant" && m.value.toolCallId == "" && m.value.toolCalls == calls
            && (text == "" ==>
                  m.value.parts == if Kept(dec, h) == [] && refusal != "" then [Part("text", refusal, false)] else ItemParts(Kept(dec, h)))
            && (text != "" ==>
                  exists k :: 0 <= k < |h| && Spoken(dec, h[..k]) == "" && Spoken(dec, h[..k + 1]) != ""
                    && m.value.parts == ItemParts(Kept(dec, h[..k])) + [Part("text", text, false)] + ItemParts(Kept(dec, h[k..]))))
  {
    hide Spoken, Refused, Kept, Called, TextOfStream, RefusalOfStream, StateTexts, Calls, ItemParts, TextPosition, Parts, AllAcceptable;
    StreamSays(dec, h);
    PartsSay(dec, h);
    NoItemParts(Kept(dec, h));
    var parts := Parts(StateTexts(dec, h), TextOfStream(dec, h), TextPosition(dec, h));
    if Spoken(dec, h) != "" { assert parts != []; }
  }

  lemma NoItemParts(texts: seq<string>)
    ensures ItemParts(texts) == [] <==> texts == []
  {}

  lemma PartsSay(dec: Decoder, h: seq<Event>)
    requires AllAcceptable(dec, h)
    ensures var text, parts := Spoken(dec, h), Parts(StateTexts(dec, h), TextOfStream(dec, h), TextPosition(dec, h));
      && (text == "" ==> parts == ItemParts(Kept(dec, h)))
      && (text != "" ==>
            exists k :: 0 <= k < |h| && Spoken(dec, h[..k]) == "" && Spoken(dec, h[..k + 1]) != ""
              && parts == ItemParts(Kept(dec, h[..k])) + [Part("text", text, false)] + ItemParts(Kept(dec, h[k..])))
  {
    hide Spoken, Refused, Kept, Called, TextOfStream, RefusalOfStream, StateTexts, Calls, ItemParts, TextPosition, Parts, AllAcceptable;
    StreamSays(dec, h);
    var text, states, at := TextOfStream(dec, h), StateTexts(dec, h), TextPosition(dec, h);
    if text == "" {
      assert states[..at] + states[at..] == states;
      PartsSplit(states[..at], states[at..], "");
    } else {
      var k := TextStarts(dec, h);
      PrefixSays(dec, h, k);
      PrefixSays(dec, h, k + 1);
      assert h[..k] + h[k..] == h;
      KeptAppend(dec, h[..k], h[k..]);
      PartsSplit(Kept(dec, h[..k]), Kept(dec, h[k..]), text);
    }
  }

  lemma PrefixSays(dec: Decoder, h: seq<Event>, k: nat)
    requires AllAcceptable(dec, h) && k <= |h|
    ensures TextOfStream(dec, h[..k]) == Spoken(dec, h[..k]) && StateTexts(dec, h[..k]) == Kept(dec, h[..k])
  {
    AcceptablePrefix(dec, h, k);
    hide Spoken, Kept, TextOfStream, StateTexts, AllAcceptable;
    StreamSays(dec, h[..k]);
  }

  // Which streams are taken.

  lemma {:induction false} FlatLength(texts: seq<string>)
    ensures |Flat(texts)| == TotalLength(texts)
    decreases |texts|
  {
    if texts != [] {
      var last := |texts| - 1;
      FlatLength(texts[..last]);
      FlatSnoc(texts[..last], texts[last]);
      assert texts == texts[..last] + [texts[last]];
    }
  }

  lemma IdsSnoc(calls: seq<ToolCall>, call: ToolCall)
    ensures Distinct(Ids(calls + [call])) <==> Distinct(Ids(calls)) && call.id !in Ids(calls)
  {
    var ids := Ids(calls);
    assert Ids(calls + [call]) == ids + [call.id];
    if Distinct(ids + [call.id]) {
      assert forall i | 0 <= i < |ids| :: (ids + [call.id])[i] == ids[i];
      assert (ids + [call.id])[|ids|] == call.id;
    }
  }

  lemma ItemWellFormed(dec: Decoder, e: Event)
    requires e.ItemDone?
    ensures WellFormed(dec, e) ==> ItemDecodes(dec, e.item)
    ensures WellFormed(dec, e) <==>
      && ItemDecodes(dec, e.item)
      && var state := ItemState(dec, e.item);
      state.kind == "message" || state.kind == "reasoning" || (state.kind == "function_call" && Replayable(dec.json, state))
  {
    hide Fields;
    FieldsRead(FieldsOf(dec, e));
    assert Str(FieldsOf(dec, e), "id").Some? <==> ("id" in FieldsOf(dec, e) ==> !FieldsOf(dec, e)["id"].Other?);
  }

  /** One more event is taken exactly when it is well formed and text, kept items and call ids stay within bounds. */
  lemma TakenNext(dec: Decoder, h: seq<Event>, e: Event)
    requires AllAcceptable(dec, h) && |Spoken(dec, h)| <= 16 * 1024 * 1024 && |Flat(Kept(dec, h))| <= 16 * 1024 * 1024
    requires Distinct(Ids(Called(dec, h)))
    ensures var g := h + [e];
      Acceptable(dec, h, e) <==>
        && WellFormed(dec, e) && |Spoken(dec, g)| <= 16 * 1024 * 1024 && |Flat(Kept(dec, g))| <= 16 * 1024 * 1024
        && Distinct(Ids(Called(dec, g)))
  {
    hide Spoken, Kept, Called, TextOfStream, ItemAcceptable, AllAcceptable, OutputTexts, Flat, Body, Texts, Distinct, Ids, WellFormed;
    if e.ItemDone? {
      ItemTaken(dec, h, e);
      assert e == ItemDone(e.item);
    } else {
      StreamSays(dec, h);
      SpokenSnoc(dec, h, e);
      EventWellFormed(dec, e);
      KeptSnoc(dec, h, e);
      assert Kept(dec, h + [e]) == Kept(dec, h) && Called(dec, h + [e]) == Called(dec, h);
    }
  }

  lemma ItemTaken(dec: Decoder, h: seq<Event>, e: Event)
    requires e.ItemDone? && AllAcceptable(dec, h)
    requires |Spoken(dec, h)| <= 16 * 1024 * 1024 && |Flat(Kept(dec, h))| <= 16 * 1024 * 1024 && Distinct(Ids(Called(dec, h)))
    ensures var g := h + [e];
      ItemAcceptable(dec, h, e.item) <==>
        && WellFormed(dec, e) && |Spoken(dec, g)| <= 16 * 1024 * 1024 && |Flat(Kept(dec, g))| <= 16 * 1024 * 1024
        && Distinct(Ids(Called(dec, g)))
  {
    hide Spoken, Kept, Called, TextOfStream, StateTexts, Calls, ItemState, ItemDecodes, AllAcceptable, OutputTexts, Flat, Body, Contents, StateText,
      TotalLength, Replayable, Texts, Distinct, Ids, WellFormed;
    ItemWellFormed(dec, e);
    if ItemDecodes(dec, e.item) {
      StreamSays(dec, h);
      SpokenSnoc(dec, h, e);
      ItemRead(dec, e);
      Said(dec, e);
      KeptSnoc(dec, h, e);
      FlatLength(Kept(dec, h));
      FlatSnoc(Kept(dec, h), StateText(dec, e.item));
      IdsSnoc(Called(dec, h), CallOf(dec, e.item));
      var g := h + [e];
      assert e == ItemDone(e.item);
      assert |Spoken(dec, g)| == |TextOfStream(dec, h)| + |AddedText(dec, h, e)|;
      if ItemState(dec, e.item).kind == "message" {
        assert Kept(dec, g) == Kept(dec, h) && Called(dec, g) == Called(dec, h);
      } else {
        assert |Spoken(dec, g)| == |Spoken(dec, h)|;
      }
      if ItemState(dec, e.item).kind == "reasoning" { assert Called(dec, g) == Called(dec, h); }
    }
  }

  lemma EventWellFormed(dec: Decoder, e: Event)
    requires !e.ItemDone?
    ensures WellFormed(dec, e) <==>
      && !e.Failure? && !e.Done?
      && (e.Completed? ==> e.id != "" && (e.usage.Some? ==> 0 <= e.usage.value.input && 0 <= e.usage.value.output && 0 <= e.usage.value.total))
    ensures Flat(OutputTexts(Body(dec, e))) == ""
  {}

  lemma Said(dec: Decoder, e: Event)
    requires e.ItemDone? && Contents(dec, e) == Body(dec, e)
    ensures Texts(Contents(dec, e)) == Flat(OutputTexts(Body(dec, e)))
    ensures ItemState(dec, e.item).kind != "message" ==> Flat(OutputTexts(Body(dec, e))) == ""
  {
    hide ItemState;
    ContentsFlat(Contents(dec, e));
  }

  /** Bounds that hold after an event held before it. */
  lemma BoundsKept(dec: Decoder, h: seq<Event>, e: Event)
    ensures |Spoken(dec, h)| <= |Spoken(dec, h + [e])| && |Flat(Kept(dec, h))| <= |Flat(Kept(dec, h + [e]))|
    ensures Distinct(Ids(Called(dec, h + [e]))) ==> Distinct(Ids(Called(dec, h)))
  {
    hide Spoken, Kept, Called, Flat, Ids, Distinct;
    SpokenSnoc(dec, h, e);
    KeptAppend(dec, h, [e]);
    FlatAppend(Kept(dec, h), Kept(dec, [e]));
    if Distinct(Ids(Called(dec, h + [e]))) { DistinctPrefix(Called(dec, h), Called(dec, [e])); }
  }

  lemma {:induction false} FlatAppend(a: seq<string>, b: seq<string>)
    ensures Flat(a + b) == Flat(a) + Flat(b)
    decreases |b|
  {
    if b == [] {
      assert a + b == a;
    } else {
      var last := |b| - 1;
      FlatAppend(a, b[..last]);
      FlatSnoc(a + b[..last], b[last]);
      FlatSnoc(b[..last], b[last]);
      assert a + b == a + b[..last] + [b[last]] && b == b[..last] + [b[last]];
    }
  }

  lemma DistinctPrefix(a: seq<ToolCall>, b: seq<ToolCall>)
    requires Distinct(Ids(a + b))
    ensures Distinct(Ids(a))
  {
    assert forall i | 0 <= i < |a| :: Ids(a + b)[i] == Ids(a)[i];
  }

  lemma NothingKept(dec: Decoder)
    ensures Kept(dec, []) == [] && Called(dec, []) == [] && Flat([]) == "" && Distinct(Ids([]))
  {}

  /** A stream is taken if and only if its events are well formed, its text and its kept items stay within 16 MiB each,
      and no call id repeats. */
  lemma {:induction false} AcceptedStreams(dec: Decoder, h: seq<Event>)
    ensures AllAcceptable(dec, h) <==>
      && (forall e | e in h :: WellFormed(dec, e))
      && |Spoken(dec, h)| <= 16 * 1024 * 1024 && |Flat(Kept(dec, h))| <= 16 * 1024 * 1024 && Distinct(Ids(Called(dec, h)))
    decreases |h|
  {
    hide Spoken, Kept, Called, WellFormed, Acceptable, Flat, Ids;
    if h == [] {
      NothingSpoken(dec);
      NothingKept(dec);
    } else {
      var g, e := Before(h), Last(h);
      assert h == g + [e];
      AcceptedStreams(dec, g);
      BoundsKept(dec, g, e);
      if AllAcceptable(dec, g) { TakenNext(dec, g, e); }
    }
  }
}
