/** The agent loop run on the Responses model: which of the requests it builds the encoder accepts. */
module CodexAgent {
  import opened Options
  import opened Ordering
  import opened Transcript
  import opened ResponseState
  import opened ChatEncoder
  import opened CodexEncoder
  import opened CodexStream
  import opened CodexReplay
  import opened React

  /** What `CodexEncoder.EncodeMessages` accepts. */
  ghost predicate Encodes(json: JsonCodec, messages: seq<Message>) {
    Paired(messages) && forall i | 0 <= i < |messages| :: Encodable(json, messages[i])
  }

  /** The model's answer from a completed stream. */
  function ReplyOf(dec: Decoder, h: seq<Event>): Reply {
    var message := ResponseMessage(dec, h);
    if message == None then ModelError
    else
      Reply(message.value,
            if message.value.toolCalls != [] then ToolCalls else if RefusalOfStream(dec, h) != "" then Refusal else Final, None)
  }

  /** The stream up to its completion; an error unless every event up to there is taken. */
  ghost function Taken(dec: Decoder, events: seq<Event>): Option<seq<Event>> {
    if n: nat :| EndsAt(dec, events, n) then Some(events[..n + 1]) else None
  }

  /** What the server streams in a turn, for a request. */
  type Server = (nat, seq<Message>) -> seq<Event>

  /** Surroundings whose model encodes the request, collects the server's stream and answers with it; each step can fail. */
  ghost function OnCodex(dec: Decoder, server: Server, tools: Surroundings): Surroundings {
    tools.(model := (turn: nat, request: seq<Message>) =>
      if Encodes(dec.json, request) && Taken(dec, server(turn, request)).Some?
      then ReplyOf(dec, Taken(dec, server(turn, request)).value) else ModelError)
  }

  /** The turn after `request` can be sent back: its call ids are new, its canonical items fit a frame and its tool
      outcomes are plain text. */
  ghost predicate SendsBack(dec: Decoder, env: Surroundings, registry: map<string, Kind>, turn: nat, request: seq<Message>, h: seq<Event>) {
    && Elements(Ids(Calls(dec, h))) !! Elements(AllDeclared(request))
    && AllFit(StateTexts(dec, h))
    && forall call | call in Calls(dec, h) ::
         var outcome := OutcomeIn(env, registry, turn, call);
         outcome.Some? ==> PlainText(Observed(call, outcome.value))
  }

  lemma OutputEncodable(json: JsonCodec, call: ToolCall, parts: seq<Part>)
    requires call.id != ""
    ensures Encodable(json, Observed(call, parts)) <==> PlainText(Observed(call, parts))
  {}

  lemma OutputsEncodable(json: JsonCodec, env: Surroundings, registry: map<string, Kind>, turn: nat, calls: seq<ToolCall>, answers: seq<Message>)
    requires AnswersTo(env, registry, turn, calls, answers) && forall k | 0 <= k < |calls| :: calls[k].id != ""
    ensures (forall k | 0 <= k < |answers| :: Encodable(json, answers[k])) <==>
      forall call | call in calls :: var outcome := OutcomeIn(env, registry, turn, call); outcome.Some? ==> PlainText(Observed(call, outcome.value))
  {
    hide Encodable, PlainText, OutcomeIn;
    forall k | 0 <= k < |calls|
      ensures var outcome := OutcomeIn(env, registry, turn, calls[k]);
        outcome.Some? && (Encodable(json, answers[k]) <==> PlainText(Observed(calls[k], outcome.value)))
    {
      OutputEncodable(json, calls[k], OutcomeIn(env, registry, turn, calls[k]).value);
    }
  }

  lemma EncodableSplit(json: JsonCodec, prior: seq<Message>, m: Message, answers: seq<Message>)
    requires forall i | 0 <= i < |prior| :: Encodable(json, prior[i])
    ensures var next := prior + [m] + answers;
      (forall i | 0 <= i < |next| :: Encodable(json, next[i])) <==>
        Encodable(json, m) && forall k | 0 <= k < |answers| :: Encodable(json, answers[k])
  {
    hide Encodable;
    var next := prior + [m] + answers;
    assert next[|prior|] == m && forall k | 0 <= k < |answers| :: next[|prior| + 1 + k] == answers[k];
    assert forall i | 0 <= i < |prior| :: next[i] == prior[i];
  }

  lemma PairedSplit(prior: seq<Message>, m: Message, answers: seq<Message>)
    requires Paired(prior) && m.role == ROLE_ASSISTANT && Distinct(Ids(m.toolCalls)) && AnswersInOrder(m.toolCalls, answers)
    ensures Paired(prior + [m] + answers) <==> Elements(Ids(m.toolCalls)) !! Elements(AllDeclared(prior))
  {
    hide Paired, AnswersInOrder, Distinct, Elements, AllDeclared, Follow;
    AcceptsPaired(prior);
    AcceptsPaired(prior + [m] + answers);
    ToolTurnPairs(prior, m, answers);
  }

  /** One turn: the next request is accepted exactly when the turn sends back, and then its input goes on from the
      previous one with the stream's items and the outputs. */
  lemma TurnSendsBack(dec: Decoder, env: Surroundings, registry: map<string, Kind>, turn: nat, request: seq<Message>, h: seq<Event>,
                      answers: seq<Message>)
    requires Lawful(dec.json) && Encodes(dec.json, request) && AllAcceptable(dec, h) && ResponseMessage(dec, h).Some?
    requires AnswersTo(env, registry, turn, Calls(dec, h), answers) && forall k | 0 <= k < |Calls(dec, h)| :: Calls(dec, h)[k].id != ""
    ensures var next := request + [ResponseMessage(dec, h).value] + answers;
      && (Encodes(dec.json, next) <==> SendsBack(dec, env, registry, turn, request, h))
      && (Encodes(dec.json, next) ==>
            && |States(dec, h)| == |StateTexts(dec, h)| && (forall k | 0 <= k < |answers| :: Encodable(dec.json, answers[k]))
            && AllItems(dec.json, next) == AllItems(dec.json, request) + Emitted(dec, h) + AllItems(dec.json, answers))
  {
    var m := ResponseMessage(dec, h).value;
    MessageReplays(dec, h);
    StreamStates(dec, h);
    hide Lawful, AllAcceptable, ResponseMessage, Encodable, Items, Paired, AllDeclared, Elements, Calls, Distinct, Emitted, States,
      StateTexts, AllFit, AllItems, DecodesTo, CallsIn, PlainText, OutcomeIn, AnswersTo, AnswersInOrder;
    AnswersAreInOrder(env, registry, turn, m.toolCalls, answers);
    PairedSplit(request, m, answers);
    EncodableSplit(dec.json, request, m, answers);
    OutputsEncodable(dec.json, env, registry, turn, m.toolCalls, answers);
    if Encodes(dec.json, request + [m] + answers) { ItemsBetween(dec.json, request, m, answers); }
  }

  /** A turn that was followed by another: its request was accepted, its stream completed and asked for tools. */
  lemma TurnContinued(dec: Decoder, server: Server, tools: Surroundings, env: Surroundings, registry: map<string, Kind>,
                      turn: nat, request: seq<Message>, next: seq<Message>)
    returns (h: seq<Event>, answers: seq<Message>)
    requires env == OnCodex(dec, server, tools) && Extends(env, registry, turn, request, env.model(turn, request), next)
    ensures Encodes(dec.json, request) && Taken(dec, server(turn, request)) == Some(h)
    ensures AllAcceptable(dec, h) && ResponseMessage(dec, h).Some? && ResponseMessage(dec, h).value.toolCalls == Calls(dec, h)
    ensures AnswersTo(env, registry, turn, Calls(dec, h), answers) && next == request + [ResponseMessage(dec, h).value] + answers
    ensures forall k | 0 <= k < |Calls(dec, h)| :: Calls(dec, h)[k].id != ""
  {
    hide Encodes, AnswersTo, StateTexts, Calls, TextOfStream, RefusalOfStream, TextPosition, Parts, AllAcceptable;
    h := Taken(dec, server(turn, request)).value;
    answers :| AnswersTo(env, registry, turn, env.model(turn, request).message.toolCalls, answers)
      && next == request + [env.model(turn, request).message] + answers;
  }

  /** The agent on this model, from a transcript the encoder accepts: a request is accepted exactly when every turn
      before it sends back. */
  lemma {:induction false} RequestsSendable(dec: Decoder, server: Server, tools: Surroundings, env: Surroundings,
                                            registry: map<string, Kind>, initial: seq<Message>, log: Log, i: nat)
    requires Lawful(dec.json) && env == OnCodex(dec, server, tools) && Encodes(dec.json, initial)
    requires Faithful(env, registry, initial, log) && i < |log.requests|
    ensures forall j: nat | j < i :: Taken(dec, server(j + 1, log.requests[j])).Some?
    ensures Encodes(dec.json, log.requests[i]) <==>
      forall j: nat | j < i :: SendsBack(dec, env, registry, j + 1, log.requests[j], Taken(dec, server(j + 1, log.requests[j])).value)
    decreases i
  {
    hide OnCodex, Encodes, Lawful, Extends, SendsBack, Taken, Dispatched, PartlyDispatched, AnswersTo, AllAcceptable, ResponseMessage, AllItems,
      Emitted, States, StateTexts, Calls;
    if 0 < i {
      var request := log.requests[i - 1];
      RequestsSendable(dec, server, tools, env, registry, initial, log, i - 1);
      assert env.model(i, request) == log.replies[i - 1];
      var h, answers := TurnContinued(dec, server, tools, env, registry, i, request, log.requests[i]);
      TurnSendsBack(dec, env, registry, i, request, h, answers);
    }
  }

  /** Each accepted request repeats the input of the one before it, and appends what the model streamed and what its
      tools returned. */
  lemma InputsGrow(dec: Decoder, server: Server, tools: Surroundings, env: Surroundings, registry: map<string, Kind>,
                   initial: seq<Message>, log: Log, i: nat)
    requires Lawful(dec.json) && env == OnCodex(dec, server, tools)
    requires Faithful(env, registry, initial, log) && 0 < i < |log.requests| && Encodes(dec.json, log.requests[i])
    ensures Encodes(dec.json, log.requests[i - 1]) && Taken(dec, server(i, log.requests[i - 1])).Some?
    ensures var h := Taken(dec, server(i, log.requests[i - 1])).value;
      |States(dec, h)| == |StateTexts(dec, h)| &&
      exists answers: seq<Message> ::
        && AnswersTo(env, registry, i, Calls(dec, h), answers) && (forall k | 0 <= k < |answers| :: Encodable(dec.json, answers[k]))
        && AllItems(dec.json, log.requests[i]) == AllItems(dec.json, log.requests[i - 1]) + Emitted(dec, h) + AllItems(dec.json, answers)
  {
    hide OnCodex, Lawful, Extends, SendsBack, Taken, Dispatched, PartlyDispatched, AnswersTo, AllAcceptable, ResponseMessage, AllItems,
      Emitted, States, StateTexts, Calls, Paired, Encodable;
    var request := log.requests[i - 1];
    assert env.model(i, request) == log.replies[i - 1];
    var h, answers := TurnContinued(dec, server, tools, env, registry, i, request, log.requests[i]);
    TurnSendsBack(dec, env, registry, i, request, h, answers);
  }
}
