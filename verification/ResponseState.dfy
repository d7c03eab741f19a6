/** Opaque response items as JSON objects: what a replayed item must look like, and its canonical form. */
module ResponseState {
  import opened Options

  const MAX_STREAM_FRAME_BYTES := 4 * 1024 * 1024
  const TYPE_REASONING := "reasoning"
  const TYPE_FUNCTION_CALL := "function_call"

  datatype Field = Text(s: string) | Null | Other(raw: string)
  datatype Json = Invalid | Value | Object(fields: map<string, Field>)

  /** The JSON library: objects are field maps, and `encode` is what `decode` reads back. */
  datatype JsonCodec = JsonCodec(decode: string -> Json, encode: map<string, Field> -> string, compact: string -> string)

  ghost predicate Lawful(json: JsonCodec) {
    && json.decode("") == Invalid
    && forall fields :: json.decode(json.encode(fields)) == Object(fields)
  }

  predicate ValidJson(json: JsonCodec, text: string) {
    json.decode(text) != Invalid
  }

  predicate EqualJson(json: JsonCodec, left: string, right: string) {
    ValidJson(json, left) && ValidJson(json, right) && json.compact(left) == json.compact(right)
  }

  datatype State = State(kind: string, callId: string, name: string, arguments: string)

  /** A string field; absent and null read as empty, another type is a decoding error. */
  function Str(fields: map<string, Field>, key: string): Option<string> {
    if key !in fields || fields[key].Null? then Some("")
    else if fields[key].Text? then Some(fields[key].s)
    else None
  }

  function Fields(fields: map<string, Field>): Option<State> {
    var kind, callId, name, arguments := Str(fields, "type"), Str(fields, "call_id"), Str(fields, "name"), Str(fields, "arguments");
    if kind == None || callId == None || name == None || arguments == None then None
    else Some(State(kind.value, callId.value, name.value, arguments.value))
  }

  predicate Replayable(json: JsonCodec, state: State) {
    || state.kind == TYPE_REASONING
    || (state.kind == TYPE_FUNCTION_CALL && state.callId != "" && state.name != "" && ValidJson(json, state.arguments))
  }

  /** Ids and terminal status are output-only and dropped before an item is stored or replayed. */
  function Canonical(fields: map<string, Field>): map<string, Field> {
    fields - {"id", "status"}
  }

  datatype Item = Item(state: State, raw: string)

  /** `decodeResponseState`: a replayed item, or why it is refused. */
  function DecodeState(json: JsonCodec, text: string): Option<Item> {
    var decoded := json.decode(text);
    if text == "" || !decoded.Object? || MAX_STREAM_FRAME_BYTES < |text| then None
    else
      var state := Fields(decoded.fields);
      if state == None || !Replayable(json, state.value) then None
      else Some(Item(state.value, json.encode(Canonical(decoded.fields))))
  }

  /** The value of a string field; anything else reads as empty. */
  function Get(fields: map<string, Field>, key: string): string {
    if key in fields && fields[key].Text? then fields[key].s else ""
  }

  /** Which texts are replayed items, and what is sent for one: everything it holds but its id and status. */
  lemma DecodedState(json: JsonCodec, text: string)
    ensures var item, decoded := DecodeState(json, text), json.decode(text);
      && (item.Some? <==>
            && text != "" && |text| <= 4 * 1024 * 1024 && decoded.Object?
            && (forall key | key in {"type", "call_id", "name", "arguments"} && key in decoded.fields :: !decoded.fields[key].Other?)
            && var kind := Get(decoded.fields, "type");
            || kind == "reasoning"
            || (kind == "function_call" && Get(decoded.fields, "call_id") != "" && Get(decoded.fields, "name") != ""
                && json.decode(Get(decoded.fields, "arguments")) != Invalid))
      && (item.Some? ==>
            && item.value.raw == json.encode(decoded.fields - {"id", "status"})
            && item.value.state == State(Get(decoded.fields, "type"), Get(decoded.fields, "call_id"),
                                         Get(decoded.fields, "name"), Get(decoded.fields, "arguments")))
  {
    var decoded := json.decode(text);
    if decoded.Object? { FieldsRead(decoded.fields); }
    hide Fields, Get;
  }

  lemma FieldsRead(fields: map<string, Field>)
    ensures Fields(fields).Some? <==> forall key | key in {"type", "call_id", "name", "arguments"} && key in fields :: !fields[key].Other?
    ensures Fields(fields).Some? ==>
      Fields(fields).value == State(Get(fields, "type"), Get(fields, "call_id"), Get(fields, "name"), Get(fields, "arguments"))
  {
    assert forall key :: Str(fields, key).Some? <==> (key in fields ==> !fields[key].Other?);
    assert forall key | Str(fields, key).Some? :: Str(fields, key).value == Get(fields, key);
  }

  lemma CanonicalKeepsState(fields: map<string, Field>)
    ensures Canonical(Canonical(fields)) == Canonical(fields) && Fields(Canonical(fields)) == Fields(fields)
  {}

  /** A stored canonical item replays to itself exactly when it is no longer than a frame. */
  lemma CanonicalReplays(json: JsonCodec, fields: map<string, Field>)
    requires Lawful(json) && Fields(fields).Some? && Replayable(json, Fields(fields).value)
    ensures var text := json.encode(Canonical(fields));
      DecodeState(json, text) ==
        if |text| <= MAX_STREAM_FRAME_BYTES then Some(Item(Fields(fields).value, text)) else None
  {
    CanonicalKeepsState(fields);
    var text := json.encode(Canonical(fields));
    assert json.decode(text) == Object(Canonical(fields));
  }
}
