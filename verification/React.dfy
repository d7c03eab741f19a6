/** The model-tool loop: for any model and any tools, what it sends, what it dispatches and when it stops. */
module React {
  import opened Options
  import opened Ordering
  import opened Transcript

  datatype Intent = Final | ToolCalls | Repair | Refusal | NoIntent

  /** What a model call returns: an error, or a message with an intent and, for a repair, what is observed of
      it (nothing when it cannot be observed). */
  datatype Reply = ModelError | Reply(message: Message, intent: Intent, repair: Option<seq<Part>>)

  datatype Kind = Invokable | Direct

  /** The agent's surroundings: the model by turn and request, tools by turn and call (no outcome is a failed
      execution), JSON syntax, and the role under which repair requests are shown. */
  datatype Surroundings = Surroundings(
    model: (nat, seq<Message>) -> Reply,
    execute: (nat, ToolCall) -> Option<seq<Part>>,
    validJson: string -> bool,
    repairRole: string)

  datatype Limits = Limits(maxTurns: nat, maxToolCalls: nat)

  predicate IsInvokable(registry: map<string, Kind>, call: ToolCall) {
    call.name in registry && registry[call.name] == Invokable
  }

  /** A tool outcome as the next request shows it. */
  function Observed(call: ToolCall, parts: seq<Part>): Message {
    Message(ROLE_TOOL, parts, [], call.id)
  }

  function Said(reply: Reply): seq<Message>
    requires reply.Reply?
  {
    if reply.message.parts != [] || reply.message.role != "" then [reply.message] else []
  }

  predicate ValidCalls(validJson: string -> bool, calls: seq<ToolCall>) {
    && calls != [] && Distinct(Ids(calls))
    && forall i | 0 <= i < |calls| ::
         calls[i].id != "" && calls[i].name != "" && (calls[i].arguments == "" || validJson(calls[i].arguments))
  }

  /** A turn that asks for tools and is not refused as malformed. */
  predicate ToolTurn(env: Surroundings, reply: Reply) {
    && reply.Reply? && reply.intent == ToolCalls && reply.message.role == ROLE_ASSISTANT
    && ValidCalls(env.validJson, reply.message.toolCalls)
  }

  predicate RepairTurn(reply: Reply) {
    reply.Reply? && reply.intent == Repair && reply.message.toolCalls == [] && reply.repair.Some?
  }

  predicate FinalTurn(reply: Reply) {
    reply.Reply? && reply.intent == Final && reply.message.toolCalls == []
  }

  /** `answers` are tool messages for `calls`, one each, in declaration order. */
  predicate AnswersInOrder(calls: seq<ToolCall>, answers: seq<Message>) {
    |answers| == |calls| && forall k | 0 <= k < |calls| :: IsTool(answers[k]) && answers[k].toolCallId == calls[k].id && answers[k].toolCalls == []
  }

  /** What a call yields in a turn. A tool that is not registered is answered with a rejection, not run. */
  function OutcomeIn(env: Surroundings, registry: map<string, Kind>, turn: nat, call: ToolCall): Option<seq<Part>> {
    if call.name !in registry then Some([Part(PART_TEXT, "unknown tool: " + call.name, false)]) else env.execute(turn, call)
  }

  /** `answers` show the outcomes of `calls` in that turn, one each, in declaration order. */
  predicate AnswersTo(env: Surroundings, registry: map<string, Kind>, turn: nat, calls: seq<ToolCall>, answers: seq<Message>) {
    && |answers| == |calls|
    && forall k | 0 <= k < |calls| ::
         var outcome := OutcomeIn(env, registry, turn, calls[k]);
         outcome.Some? && answers[k] == Message(ROLE_TOOL, outcome.value, [], calls[k].id)
  }

  lemma AnswersAreInOrder(env: Surroundings, registry: map<string, Kind>, turn: nat, calls: seq<ToolCall>, answers: seq<Message>)
    requires AnswersTo(env, registry, turn, calls, answers)
    ensures AnswersInOrder(calls, answers)
  {}

  /** How the request of a turn grows into the next one: by the reply and what was observed of it. */
  ghost predicate Extends(env: Surroundings, registry: map<string, Kind>, turn: nat, request: seq<Message>, reply: Reply, next: seq<Message>) {
    || (ToolTurn(env, reply)
        && exists answers :: AnswersTo(env, registry, turn, reply.message.toolCalls, answers) && next == request + [reply.message] + answers)
    || (RepairTurn(reply) && next == request + Said(reply) + [Message(env.repairRole, reply.repair.value, [], "")])
  }

  // Batches.

  function Concat(batches: seq<seq<ToolCall>>): seq<ToolCall> {
    if batches == [] then [] else batches[0] + Concat(batches[1..])
  }

  /** One invokable call, or a run of others that ends only before an invokable call or at the end. */
  predicate IsBatch(registry: map<string, Kind>, batch: seq<ToolCall>, rest: seq<ToolCall>) {
    && batch != []
    && (|batch| == 1 || forall i | 0 <= i < |batch| :: !IsInvokable(registry, batch[i]))
    && (IsInvokable(registry, batch[0]) || rest == [] || IsInvokable(registry, rest[0]))
  }

  /** The batches cut `calls` from the front, in order, leaving `rest`. */
  predicate CutInto(registry: map<string, Kind>, calls: seq<ToolCall>, batches: seq<seq<ToolCall>>, rest: seq<ToolCall>) {
    if batches == [] then rest == calls
    else
      && |batches[0]| <= |calls| && calls[..|batches[0]|] == batches[0]
      && IsBatch(registry, batches[0], calls[|batches[0]|..])
      && CutInto(registry, calls[|batches[0]|..], batches[1..], rest)
  }

  /** Batches concatenate to the calls they were cut from: each is dispatched once and in order. */
  lemma {:induction false} CutConcat(registry: map<string, Kind>, calls: seq<ToolCall>, batches: seq<seq<ToolCall>>, rest: seq<ToolCall>)
    requires CutInto(registry, calls, batches, rest)
    ensures Concat(batches) + rest == calls
    decreases |batches|
  {
    hide IsBatch;
    if batches != [] {
      CutConcat(registry, calls[|batches[0]|..], batches[1..], rest);
      Rejoined(calls, batches[0], Concat(batches[1..]), rest);
    }
  }

  lemma Rejoined(calls: seq<ToolCall>, batch: seq<ToolCall>, others: seq<ToolCall>, rest: seq<ToolCall>)
    requires |batch| <= |calls| && calls[..|batch|] == batch && others + rest == calls[|batch|..]
    ensures batch + others + rest == calls
  {
    assert batch + others + rest == batch + (others + rest);
  }

  lemma {:induction false} CutOneMore(registry: map<string, Kind>, calls: seq<ToolCall>, batches: seq<seq<ToolCall>>, batch: seq<ToolCall>, rest: seq<ToolCall>)
    requires CutInto(registry, calls, batches, batch + rest) && IsBatch(registry, batch, rest)
    ensures CutInto(registry, calls, batches + [batch], rest)
    decreases |batches|
  {
    if batches == [] {
      assert batches + [batch] == [batch] && [batch][1..] == [];
      assert calls[..|batch|] == batch && calls[|batch|..] == rest;
    } else {
      assert (batches + [batch])[0] == batches[0] && (batches + [batch])[1..] == batches[1..] + [batch];
      CutOneMore(registry, calls[|batches[0]|..], batches[1..], batch, rest);
    }
  }

  /** A tool turn: calls with distinct ids and names, and arguments that are JSON or empty. */
  lemma ToolTurnMeans(env: Surroundings, reply: Reply)
    ensures ToolTurn(env, reply) <==>
      && reply.Reply? && reply.intent == ToolCalls && reply.message.role == "assistant"
      && var calls := reply.message.toolCalls;
      && 0 < |calls| && (forall i, j | 0 <= i < j < |calls| :: calls[i].id != calls[j].id)
      && (forall i | 0 <= i < |calls| :: calls[i].id != "" && calls[i].name != "" && (calls[i].arguments == "" || env.validJson(calls[i].arguments)))
  {}

  // The agent.

  datatype TurnKind = TurnFinal | TurnTools | TurnRepair

  class Agent {
    const env: Surroundings
    const registry: map<string, Kind>
    const limits: Limits
    var turn: nat
    var toolCalls: nat
    var messages: seq<Message>
    var pendingObservations: seq<Message>
    var remaining: seq<ToolCall>

    constructor (env: Surroundings, registry: map<string, Kind>, limits: Limits, initial: seq<Message>)
      ensures this.env == env && this.registry == registry && this.limits == limits
      ensures turn == 0 && toolCalls == 0 && messages == initial && pendingObservations == [] && remaining == []
    {
      this.env, this.registry, this.limits := env, registry, limits;
      turn, toolCalls, messages, pendingObservations, remaining := 0, 0, initial, [], [];
    }

    method Prepare() returns (request: Option<seq<Message>>)
      modifies this`turn, this`messages, this`pendingObservations
      ensures request.Some? <==> old(turn) < limits.maxTurns
      ensures request.Some? ==>
        turn == old(turn) + 1 && request.value == messages == old(messages) + old(pendingObservations) && pendingObservations == []
    {
      if limits.maxTurns <= turn {
        return None;
      }
      turn := turn + 1;
      messages := messages + pendingObservations;
      pendingObservations := [];
      return Some(messages);
    }

    method Model(reply: Reply) returns (kind: Option<TurnKind>)
      modifies this`messages, this`toolCalls, this`remaining, this`pendingObservations
      ensures kind == Some(TurnFinal) <==> reply.Reply? && reply.intent == Final && reply.message.toolCalls == []
      ensures kind == Some(TurnTools) <==>
        && reply.Reply? && reply.intent == ToolCalls && reply.message.role == "assistant"
        && var calls := reply.message.toolCalls;
        && 0 < |calls| <= limits.maxToolCalls - old(toolCalls)
        && (forall i, j | 0 <= i < j < |calls| :: calls[i].id != calls[j].id)
        && (forall i | 0 <= i < |calls| :: calls[i].id != "" && calls[i].name != "" && (calls[i].arguments == "" || env.validJson(calls[i].arguments)))
      ensures kind == Some(TurnRepair) <==> reply.Reply? && reply.intent == Repair && reply.message.toolCalls == [] && reply.repair.Some?
      ensures kind.Some? ==> reply.Reply? && messages == old(messages) + Said(reply)
      ensures kind == Some(TurnTools) ==>
        toolCalls == old(toolCalls) + |reply.message.toolCalls| && remaining == reply.message.toolCalls && pendingObservations == old(pendingObservations)
      ensures kind == Some(TurnRepair) ==>
        toolCalls == old(toolCalls) && remaining == old(remaining)
        && pendingObservations == old(pendingObservations) + [Message(env.repairRole, reply.repair.value, [], "")]
      ensures toolCalls <= old(toolCalls) || toolCalls <= limits.maxToolCalls
    {
      if reply.ModelError? {
        return None;
      }
      messages := messages + Said(reply);
      if reply.message.toolCalls != [] && reply.intent != ToolCalls {
        return None;
      }
      match reply.intent
      case Final => return Some(TurnFinal);
      case ToolCalls =>
        if !ValidCalls(env.validJson, reply.message.toolCalls) || reply.message.role != ROLE_ASSISTANT
           || limits.maxToolCalls < toolCalls + |reply.message.toolCalls| {
          return None;
        }
        toolCalls := toolCalls + |reply.message.toolCalls|;
        remaining := reply.message.toolCalls;
        return Some(TurnTools);
      case Repair =>
        if reply.repair == None {
          return None;
        }
        pendingObservations := pendingObservations + [Message(env.repairRole, reply.repair.value, [], "")];
        return Some(TurnRepair);
      case Refusal => return None;
      case NoIntent => return None;
    }

    method ToolBatchEnd(calls: seq<ToolCall>) returns (end: nat)
      requires calls != []
      ensures end <= |calls| && IsBatch(registry, calls[..end], calls[end..])
      ensures var invokable := (call: ToolCall) => call.name in registry && registry[call.name].Invokable?;
        && (invokable(calls[0]) ==> end == 1)
        && (forall i | 0 < i < end :: !invokable(calls[i]))
        && (!invokable(calls[0]) && end < |calls| ==> invokable(calls[end]))
    {
      end := 1;
      if IsInvokable(registry, calls[0]) {
        return;
      }
      while end < |calls|
        invariant 1 <= end <= |calls| && forall i | 0 <= i < end :: !IsInvokable(registry, calls[i])
      {
        if IsInvokable(registry, calls[end]) {
          break;
        }
        end := end + 1;
      }
    }

    method DispatchTools() returns (batch: seq<ToolCall>)
      requires remaining != []
      modifies this`remaining
      ensures old(remaining) == batch + remaining && IsBatch(registry, batch, remaining)
    {
      var end := ToolBatchEnd(remaining);
      batch := remaining[..end];
      remaining := remaining[end..];
    }

    /** Runs a batch; observations are recorded in dispatch order. */
    method ObserveTools(batch: seq<ToolCall>) returns (ok: bool)
      modifies this`pendingObservations
      ensures ok <==> forall k | 0 <= k < |batch| :: OutcomeIn(env, registry, turn, batch[k]).Some?
      ensures ok ==>
        exists answers :: AnswersTo(env, registry, turn, batch, answers) && pendingObservations == old(pendingObservations) + answers
    {
      ghost var answers: seq<Message> := [];
      var i := 0;
      while i < |batch|
        invariant 0 <= i <= |batch| && pendingObservations == old(pendingObservations) + answers
        invariant AnswersTo(env, registry, turn, batch[..i], answers)
        invariant forall k | 0 <= k < i :: OutcomeIn(env, registry, turn, batch[k]).Some?
      {
        var outcome := OutcomeIn(env, registry, turn, batch[i]);
        if outcome == None {
          return false;
        }
        pendingObservations := pendingObservations + [Observed(batch[i], outcome.value)];
        answers := answers + [Observed(batch[i], outcome.value)];
        i := i + 1;
      }
      assert batch[..i] == batch;
      return true;
    }
  }

  /** Everything a run did: the request and reply of each turn, and the batches dispatched in it. */
  datatype Log = Log(requests: seq<seq<Message>>, replies: seq<Reply>, batches: seq<seq<seq<ToolCall>>>)

  function DispatchCount(batches: seq<seq<seq<ToolCall>>>): nat {
    if batches == [] then 0 else DispatchCount(batches[..|batches| - 1]) + |Concat(batches[|batches| - 1])|
  }

  /** `batches` were cut from the reply's calls, in order, and `rest` is still to come. */
  predicate Dispatched(registry: map<string, Kind>, reply: Reply, batches: seq<seq<ToolCall>>, rest: seq<ToolCall>) {
    if reply.Reply? && reply.intent == ToolCalls then CutInto(registry, reply.message.toolCalls, batches, rest)
    else batches == [] && rest == []
  }

  ghost predicate PartlyDispatched(registry: map<string, Kind>, reply: Reply, batches: seq<seq<ToolCall>>) {
    exists rest: seq<ToolCall> :: Dispatched(registry, reply, batches, rest)
  }

  /** Every request grew out of the turn before it, every reply is the model's, and every turn before the
      last dispatched all its calls. */
  ghost predicate Faithful(env: Surroundings, registry: map<string, Kind>, initial: seq<Message>, log: Log) {
    var n := |log.requests|;
    && |log.replies| == n && |log.batches| == n
    && (0 < n ==> log.requests[0] == initial)
    && (forall i | 0 <= i < n :: log.replies[i] == env.model(i + 1, log.requests[i]))
    && (forall i | 0 <= i < n - 1 :: Extends(env, registry, i + 1, log.requests[i], log.replies[i], log.requests[i + 1]))
    && (forall i | 0 <= i < n - 1 :: Dispatched(registry, log.replies[i], log.batches[i], []))
    && (0 < n ==> PartlyDispatched(registry, log.replies[n - 1], log.batches[n - 1]))
  }

  /** Ready for the next request, which will be `context`. */
  ghost predicate AtPrepare(env: Surroundings, registry: map<string, Kind>, initial: seq<Message>, log: Log, context: seq<Message>) {
    var n := |log.requests|;
    && Faithful(env, registry, initial, log)
    && (n == 0 ==> context == initial)
    && (0 < n ==> Extends(env, registry, n, log.requests[n - 1], log.replies[n - 1], context) && Dispatched(registry, log.replies[n - 1], log.batches[n - 1], []))
  }

  /** In the middle of a tool turn: the calls before `remaining` are answered in order by `pending`. */
  ghost predicate AtDispatch(env: Surroundings, registry: map<string, Kind>, initial: seq<Message>, log: Log, messages: seq<Message>, pending: seq<Message>, remaining: seq<ToolCall>) {
    var n := |log.requests|;
    && Faithful(env, registry, initial, log) && 0 < n
    && ToolTurn(env, log.replies[n - 1])
    && var calls := log.replies[n - 1].message.toolCalls;
    && messages == log.requests[n - 1] + [log.replies[n - 1].message]
    && |remaining| <= |calls| && remaining == calls[|calls| - |remaining|..]
    && AnswersTo(env, registry, n, calls[..|calls| - |remaining|], pending)
    && CutInto(registry, calls, log.batches[n - 1], remaining)
  }

  function WithTurn(log: Log, request: seq<Message>, reply: Reply): Log {
    Log(log.requests + [request], log.replies + [reply], log.batches + [[]])
  }

  function WithBatch(log: Log, batch: seq<ToolCall>): Log
    requires log.batches != []
  {
    var last := |log.batches| - 1;
    log.(batches := log.batches[last := log.batches[last] + [batch]])
  }

  lemma TurnLogged(env: Surroundings, registry: map<string, Kind>, initial: seq<Message>, log: Log, context: seq<Message>)
    requires AtPrepare(env, registry, initial, log, context)
    ensures var reply := env.model(|log.requests| + 1, context); var next := WithTurn(log, context, reply);
      && Faithful(env, registry, initial, next) && next.batches[..|log.batches|] == log.batches
      && next.requests[|log.requests|] == context && next.replies[|log.requests|] == reply && next.batches[|log.requests|] == []
      && Dispatched(registry, reply, [], if reply.Reply? && reply.intent == ToolCalls then reply.message.toolCalls else [])
  {
    var reply := env.model(|log.requests| + 1, context);
    hide Extends, Dispatched, PartlyDispatched;
    NothingCut(registry, reply);
    TurnsKept(env, registry, initial, log, context);
  }

  lemma TurnsKept(env: Surroundings, registry: map<string, Kind>, initial: seq<Message>, log: Log, context: seq<Message>)
    requires AtPrepare(env, registry, initial, log, context)
    requires PartlyDispatched(registry, env.model(|log.requests| + 1, context), [])
    ensures Faithful(env, registry, initial, WithTurn(log, context, env.model(|log.requests| + 1, context)))
  {
    hide Extends, Dispatched, PartlyDispatched;
    var n := |log.requests|;
    var next := WithTurn(log, context, env.model(n + 1, context));
    forall i | 0 <= i < n
      ensures Extends(env, registry, i + 1, next.requests[i], next.replies[i], next.requests[i + 1])
      ensures Dispatched(registry, next.replies[i], next.batches[i], [])
      ensures next.replies[i] == env.model(i + 1, next.requests[i])
    {
      TurnKept(env, registry, initial, log, context, next.replies[n], i);
    }
  }

  lemma TurnKept(env: Surroundings, registry: map<string, Kind>, initial: seq<Message>, log: Log, context: seq<Message>, reply: Reply, i: nat)
    requires AtPrepare(env, registry, initial, log, context) && i < |log.requests|
    ensures var next := WithTurn(log, context, reply);
      && Extends(env, registry, i + 1, next.requests[i], next.replies[i], next.requests[i + 1])
      && Dispatched(registry, next.replies[i], next.batches[i], [])
      && next.replies[i] == env.model(i + 1, next.requests[i])
  {
    hide Extends, Dispatched, PartlyDispatched;
    var n, next := |log.requests|, WithTurn(log, context, reply);
    assert next.requests[i] == log.requests[i] && next.replies[i] == log.replies[i] && next.batches[i] == log.batches[i];
    if i < n - 1 { assert next.requests[i + 1] == log.requests[i + 1]; }
  }

  lemma TurnTaken(env: Surroundings, registry: map<string, Kind>, initial: seq<Message>, log: Log, context: seq<Message>)
    requires AtPrepare(env, registry, initial, log, context)
    ensures var reply := env.model(|log.requests| + 1, context); var next := WithTurn(log, context, reply);
      && Faithful(env, registry, initial, next) && DispatchCount(next.batches) == DispatchCount(log.batches)
      && (ToolTurn(env, reply) ==> AtDispatch(env, registry, initial, next, context + [reply.message], [], reply.message.toolCalls))
      && (RepairTurn(reply) ==>
            AtPrepare(env, registry, initial, next, context + Said(reply) + [Message(env.repairRole, reply.repair.value, [], "")]))
  {
    var reply := env.model(|log.requests| + 1, context);
    TurnLogged(env, registry, initial, log, context);
    var next := WithTurn(log, context, reply);
    hide Faithful, Extends, ToolTurn, CutInto, AtPrepare, WithTurn;
    assert |next.batches| == |log.batches| + 1;
    if ToolTurn(env, reply) { ToolTurnShape(env, registry, reply); }
    if RepairTurn(reply) {
      RepairExtends(env, registry, |next.requests|, context, reply);
      RepairLogged(env, registry, initial, next, context + Said(reply) + [Message(env.repairRole, reply.repair.value, [], "")]);
    }
  }

  lemma RepairLogged(env: Surroundings, registry: map<string, Kind>, initial: seq<Message>, log: Log, context: seq<Message>)
    requires Faithful(env, registry, initial, log) && log.requests != []
    requires var n := |log.requests|;
      && RepairTurn(log.replies[n - 1]) && log.batches[n - 1] == [] && Extends(env, registry, n, log.requests[n - 1], log.replies[n - 1], context)
    ensures AtPrepare(env, registry, initial, log, context)
  {
    hide Extends;
  }

  lemma RepairExtends(env: Surroundings, registry: map<string, Kind>, turn: nat, context: seq<Message>, reply: Reply)
    requires RepairTurn(reply)
    ensures Extends(env, registry, turn, context, reply, context + Said(reply) + [Message(env.repairRole, reply.repair.value, [], "")])
  {}

  lemma NothingCut(registry: map<string, Kind>, reply: Reply)
    ensures Dispatched(registry, reply, [], if reply.Reply? && reply.intent == ToolCalls then reply.message.toolCalls else [])
    ensures PartlyDispatched(registry, reply, [])
  {
    assert Dispatched(registry, reply, [], if reply.Reply? && reply.intent == ToolCalls then reply.message.toolCalls else []);
  }

  lemma ToolTurnShape(env: Surroundings, registry: map<string, Kind>, reply: Reply)
    requires ToolTurn(env, reply)
    ensures reply.Reply? && CutInto(registry, reply.message.toolCalls, [], reply.message.toolCalls)
    ensures forall turn: nat :: AnswersTo(env, registry, turn, [], [])
    ensures reply.message.toolCalls != [] && Said(reply) == [reply.message]
  {}

  lemma {:induction false} ConcatOneMore(batches: seq<seq<ToolCall>>, batch: seq<ToolCall>)
    ensures Concat(batches + [batch]) == Concat(batches) + batch
  {
    if batches == [] {
      assert [batch][1..] == [];
    } else {
      assert (batches + [batch])[0] == batches[0] && (batches + [batch])[1..] == batches[1..] + [batch];
      ConcatOneMore(batches[1..], batch);
    }
  }

  lemma BatchLogged(env: Surroundings, registry: map<string, Kind>, initial: seq<Message>, log: Log, batch: seq<ToolCall>, rest: seq<ToolCall>)
    requires Faithful(env, registry, initial, log) && log.requests != []
    requires var last := |log.requests| - 1; Dispatched(registry, log.replies[last], log.batches[last] + [batch], rest)
    ensures Faithful(env, registry, initial, WithBatch(log, batch))
  {
    hide Extends, Dispatched;
    var n, next := |log.requests|, WithBatch(log, batch);
    assert PartlyDispatched(registry, next.replies[n - 1], next.batches[n - 1]);
    forall i | 0 <= i < n - 1 ensures Dispatched(registry, next.replies[i], next.batches[i], []) {
      assert next.batches[i] == log.batches[i];
    }
  }

  lemma BatchCounted(log: Log, batch: seq<ToolCall>)
    requires log.batches != []
    ensures DispatchCount(WithBatch(log, batch).batches) == DispatchCount(log.batches) + |batch|
  {
    var n, next := |log.batches|, WithBatch(log, batch);
    ConcatOneMore(log.batches[n - 1], batch);
    assert next.batches[..n - 1] == log.batches[..n - 1];
  }

  lemma BatchTaken(env: Surroundings, registry: map<string, Kind>, initial: seq<Message>, log: Log, messages: seq<Message>, pending: seq<Message>,
                   remaining: seq<ToolCall>, batch: seq<ToolCall>, rest: seq<ToolCall>)
    requires AtDispatch(env, registry, initial, log, messages, pending, remaining)
    requires remaining == batch + rest && IsBatch(registry, batch, rest)
    ensures var next := WithBatch(log, batch);
      && Faithful(env, registry, initial, next)
      && DispatchCount(next.batches) == DispatchCount(log.batches) + |batch|
      && (forall answers | AnswersTo(env, registry, |log.requests|, batch, answers) :: AtDispatch(env, registry, initial, next, messages, pending + answers, rest))
  {
    var n, next := |log.requests|, WithBatch(log, batch);
    BatchCounted(log, batch);
    BatchCut(env, registry, initial, log, messages, pending, remaining, batch, rest);
    hide AtDispatch, Faithful, DispatchCount, AnswersTo, IsBatch, WithBatch;
    forall answers | AnswersTo(env, registry, n, batch, answers) ensures AtDispatch(env, registry, initial, next, messages, pending + answers, rest) {
      BatchAnswered(env, registry, initial, log, messages, pending, remaining, batch, rest, answers);
    }
  }

  lemma BatchCut(env: Surroundings, registry: map<string, Kind>, initial: seq<Message>, log: Log, messages: seq<Message>, pending: seq<Message>,
                 remaining: seq<ToolCall>, batch: seq<ToolCall>, rest: seq<ToolCall>)
    requires AtDispatch(env, registry, initial, log, messages, pending, remaining)
    requires remaining == batch + rest && IsBatch(registry, batch, rest)
    ensures Faithful(env, registry, initial, WithBatch(log, batch))
    ensures var n := |log.requests|; CutInto(registry, log.replies[n - 1].message.toolCalls, log.batches[n - 1] + [batch], rest)
  {
    hide CutInto, Extends, ToolTurn, IsBatch, AnswersTo, PartlyDispatched;
    var n := |log.requests|;
    var reply := log.replies[n - 1];
    ToolIntent(env, reply);
    CutOneMore(registry, reply.message.toolCalls, log.batches[n - 1], batch, rest);
    BatchLogged(env, registry, initial, log, batch, rest);
  }

  lemma BatchAnswered(env: Surroundings, registry: map<string, Kind>, initial: seq<Message>, log: Log, messages: seq<Message>, pending: seq<Message>,
                      remaining: seq<ToolCall>, batch: seq<ToolCall>, rest: seq<ToolCall>, answers: seq<Message>)
    requires AtDispatch(env, registry, initial, log, messages, pending, remaining) && remaining == batch + rest
    requires AnswersTo(env, registry, |log.requests|, batch, answers) && Faithful(env, registry, initial, WithBatch(log, batch))
    requires var n := |log.requests|; CutInto(registry, log.replies[n - 1].message.toolCalls, log.batches[n - 1] + [batch], rest)
    ensures AtDispatch(env, registry, initial, WithBatch(log, batch), messages, pending + answers, rest)
  {
    hide CutInto, Extends, ToolTurn, AnswersTo, PartlyDispatched, Dispatched;
    var n := |log.requests|;
    ToolIntent(env, log.replies[n - 1]);
    AnswersAppend(env, registry, n, log.replies[n - 1].message.toolCalls, remaining, batch, rest, pending, answers);
  }

  lemma ToolIntent(env: Surroundings, reply: Reply)
    requires ToolTurn(env, reply)
    ensures reply.Reply? && reply.intent == ToolCalls
  {}

  lemma AnswersAppend(env: Surroundings, registry: map<string, Kind>, turn: nat, calls: seq<ToolCall>, remaining: seq<ToolCall>,
                      batch: seq<ToolCall>, rest: seq<ToolCall>, pending: seq<Message>, answers: seq<Message>)
    requires |remaining| <= |calls| && remaining == calls[|calls| - |remaining|..] && remaining == batch + rest
    requires AnswersTo(env, registry, turn, calls[..|calls| - |remaining|], pending) && AnswersTo(env, registry, turn, batch, answers)
    ensures rest == calls[|calls| - |rest|..] && AnswersTo(env, registry, turn, calls[..|calls| - |rest|], pending + answers)
  {
    hide OutcomeIn, Observed;
    var done := |calls| - |remaining|;
    assert calls == calls[..done] + remaining;
    assert calls[..|calls| - |rest|] == calls[..done] + batch;
  }

  lemma TurnAnswered(env: Surroundings, registry: map<string, Kind>, initial: seq<Message>, log: Log, messages: seq<Message>, pending: seq<Message>)
    requires AtDispatch(env, registry, initial, log, messages, pending, [])
    ensures AtPrepare(env, registry, initial, log, messages + pending)
  {
    var n := |log.requests|;
    var calls := log.replies[n - 1].message.toolCalls;
    assert calls[..|calls|] == calls;
  }

  /** A turn that cannot be continued: a final turn without content, a reply that is neither final nor a repair
      nor a well-formed tool turn, a tool turn over the call budget, or a batch with a call that failed. */
  predicate Stuck(env: Surroundings, registry: map<string, Kind>, limits: Limits, reply: Reply, batches: seq<seq<seq<ToolCall>>>)
    requires batches != []
  {
    var turn, last := |batches|, batches[|batches| - 1];
    || (FinalTurn(reply) && reply.message.parts == [])
    || !(FinalTurn(reply) || RepairTurn(reply) || ToolTurn(env, reply))
    || (ToolTurn(env, reply) && last == [] && limits.maxToolCalls < DispatchCount(batches) + |reply.message.toolCalls|)
    || (ToolTurn(env, reply) && last != [] && exists call | call in last[|last| - 1] :: OutcomeIn(env, registry, turn, call) == None)
  }

  /** Every turn allowed was taken and none of them gave an answer or failed. */
  predicate OutOfTurns(env: Surroundings, registry: map<string, Kind>, limits: Limits, log: Log) {
    var n := |log.requests|;
    && n == limits.maxTurns && |log.replies| == n && |log.batches| == n
    && (0 < n ==> (ToolTurn(env, log.replies[n - 1]) || RepairTurn(log.replies[n - 1]))
                  && Dispatched(registry, log.replies[n - 1], log.batches[n - 1], []))
  }

  predicate Answered(log: Log, answer: Option<Message>) {
    && log.replies != []
    && var reply := log.replies[|log.replies| - 1];
    FinalTurn(reply) && reply.message.parts != [] && answer == Some(reply.message)
  }

  /** The whole loop. Any model and any tools: requests and batches are as `Faithful` says, there are at most
      `maxTurns` model calls and `maxToolCalls` dispatched calls, and it stops: with the content of a final turn,
      or because the turns are used up, or because the last turn cannot be continued. */
  method Run(env: Surroundings, registry: map<string, Kind>, limits: Limits, initial: seq<Message>) returns (log: Log, answer: Option<Message>)
    ensures Faithful(env, registry, initial, log)
    ensures |log.requests| <= limits.maxTurns && DispatchCount(log.batches) <= limits.maxToolCalls
    ensures answer.Some? <==>
      && log.replies != []
      && var last := log.replies[|log.replies| - 1];
      last.Reply? && last.intent == Final && last.message.toolCalls == [] && last.message.parts != []
    ensures answer.Some? ==> Answered(log, answer)
    ensures answer == None ==>
      OutOfTurns(env, registry, limits, log)
      || (log.batches != [] && log.replies != [] && Stuck(env, registry, limits, log.replies[|log.replies| - 1], log.batches))
  {
    hide Faithful, AtPrepare, AtDispatch, ToolTurn, DispatchCount, WithBatch, WithTurn, AnswersTo, IsBatch, Said, OutcomeIn, OutOfTurns, Stuck;
    var agent := new Agent(env, registry, limits, initial);
    log := Log([], [], []);
    var dispatching := false;
    Start(env, registry, initial);
    while true
      invariant fresh(agent) && agent.env == env && agent.registry == registry && agent.limits == limits
      invariant agent.turn == |log.requests| == |log.replies| == |log.batches| && agent.turn <= limits.maxTurns
      invariant DispatchCount(log.batches) + |agent.remaining| == agent.toolCalls && agent.toolCalls <= limits.maxToolCalls
      invariant Faithful(env, registry, initial, log)
      invariant !dispatching ==> agent.remaining == [] && AtPrepare(env, registry, initial, log, agent.messages + agent.pendingObservations)
      invariant dispatching ==> agent.remaining != [] && 0 < agent.turn
      invariant dispatching ==> AtDispatch(env, registry, initial, log, agent.messages, agent.pendingObservations, agent.remaining)
      decreases limits.maxTurns - agent.turn, if dispatching then 1 else 0, |agent.remaining|
    {
      if dispatching {
        ghost var pending, remaining := agent.pendingObservations, agent.remaining;
        var batch := agent.DispatchTools();
        BatchTaken(env, registry, initial, log, agent.messages, pending, remaining, batch, agent.remaining);
        LastIsTools(env, registry, initial, log, agent.messages, pending, remaining);
        log := Extended(log, batch);
        var observed := agent.ObserveTools(batch);
        if !observed {
          FailedBatch(env, registry, limits, log, batch);
          return log, None;
        }
        dispatching := agent.remaining != [];
        if !dispatching { TurnAnswered(env, registry, initial, log, agent.messages, agent.pendingObservations); }
      } else {
        ghost var context := agent.messages + agent.pendingObservations;
        var request := agent.Prepare();
        if request == None {
          TurnsUsed(env, registry, limits, initial, log, context);
          return log, None;
        }
        var reply := env.model(agent.turn, request.value);
        TurnTaken(env, registry, initial, log, context);
        log := Started(log, request.value, reply);
        var kind := agent.Model(reply);
        ToolTurnMeans(env, reply);
        if kind == None {
          Refused(env, registry, limits, reply, log.batches);
          return log, None;
        }
        match kind.value
        case TurnFinal =>
          if reply.message.parts == [] {
            Refused(env, registry, limits, reply, log.batches);
            return log, None;
          }
          return log, Some(reply.message);
        case TurnTools =>
          ToolTurnShape(env, registry, reply);
          assert agent.messages + [] == agent.messages;
          dispatching := true;
        case TurnRepair =>
          assert agent.pendingObservations == [Message(env.repairRole, reply.repair.value, [], "")];
          dispatching := false;
      }
    }
  }

  lemma LastIsTools(env: Surroundings, registry: map<string, Kind>, initial: seq<Message>, log: Log, messages: seq<Message>, pending: seq<Message>, remaining: seq<ToolCall>)
    requires AtDispatch(env, registry, initial, log, messages, pending, remaining)
    ensures log.replies != [] && ToolTurn(env, log.replies[|log.replies| - 1]) && !FinalTurn(log.replies[|log.replies| - 1])
  {
    hide ValidCalls, CutInto, AnswersTo, Extends, PartlyDispatched, Dispatched;
  }

  lemma FailedBatch(env: Surroundings, registry: map<string, Kind>, limits: Limits, log: Log, batch: seq<ToolCall>)
    requires log.batches != [] && log.replies != [] && ToolTurn(env, log.replies[|log.replies| - 1])
    requires log.batches[|log.batches| - 1] != [] && var last := log.batches[|log.batches| - 1]; last[|last| - 1] == batch
    requires exists k :: 0 <= k < |batch| && OutcomeIn(env, registry, |log.batches|, batch[k]) == None
    ensures Stuck(env, registry, limits, log.replies[|log.replies| - 1], log.batches)
  {
    hide OutcomeIn, ToolTurn;
  }

  lemma TurnsUsed(env: Surroundings, registry: map<string, Kind>, limits: Limits, initial: seq<Message>, log: Log, context: seq<Message>)
    requires AtPrepare(env, registry, initial, log, context) && |log.requests| == limits.maxTurns
    ensures OutOfTurns(env, registry, limits, log)
    ensures log.replies != [] ==> !FinalTurn(log.replies[|log.replies| - 1])
  {
    hide AnswersTo, ValidCalls, Dispatched, PartlyDispatched;
  }

  lemma Refused(env: Surroundings, registry: map<string, Kind>, limits: Limits, reply: Reply, batches: seq<seq<seq<ToolCall>>>)
    requires batches != [] && batches[|batches| - 1] == []
    requires FinalTurn(reply) ==> reply.message.parts == []
    requires !RepairTurn(reply) && (ToolTurn(env, reply) ==> limits.maxToolCalls < DispatchCount(batches) + |reply.message.toolCalls|)
    ensures Stuck(env, registry, limits, reply, batches)
  {
    hide DispatchCount, ValidCalls;
  }

  function Started(log: Log, request: seq<Message>, reply: Reply): (next: Log)
    ensures next == WithTurn(log, request, reply)
    ensures |next.requests| == |log.requests| + 1 && |next.replies| == |log.replies| + 1 && |next.batches| == |log.batches| + 1
    ensures next.replies[|next.replies| - 1] == reply && next.batches[|next.batches| - 1] == []
  {
    WithTurn(log, request, reply)
  }

  function Extended(log: Log, batch: seq<ToolCall>): (next: Log)
    requires log.batches != []
    ensures next == WithBatch(log, batch) && next.requests == log.requests && next.replies == log.replies && |next.batches| == |log.batches|
    ensures var last := next.batches[|next.batches| - 1]; last != [] && last[|last| - 1] == batch
  {
    WithBatch(log, batch)
  }

  lemma Start(env: Surroundings, registry: map<string, Kind>, initial: seq<Message>)
    ensures AtPrepare(env, registry, initial, Log([], [], []), initial + []) && DispatchCount([]) == 0
  {
    assert initial + [] == initial;
  }

  // Pairing.

  /** A reply that reuses no call id and does not speak as a tool. */
  predicate Clean(request: seq<Message>, reply: Reply) {
    && (reply.Reply? && reply.intent == ToolCalls ==> Elements(Ids(reply.message.toolCalls)) !! Elements(AllDeclared(request)))
    && (reply.Reply? && reply.intent == Repair ==> !IsTool(reply.message))
  }

  lemma {:induction false} FollowAnswers(s: Ledger, calls: seq<ToolCall>, answers: seq<Message>)
    requires Balanced(s) && s.pending == Elements(Ids(calls)) && Distinct(Ids(calls)) && AnswersInOrder(calls, answers)
    ensures Follow(s, answers).Some? && Follow(s, answers).value.pending == {}
    decreases |answers|
  {
    if answers == [] {
      assert Ids(calls) == [] && Elements(Ids(calls)) == {};
    } else {
      var x := calls[0].id;
      assert Ids(calls)[0] == x && Ids(calls)[1..] == Ids(calls[1..]);
      assert x in s.pending;
      var t := Advance(s, answers[0]).value;
      forall y ensures y in t.pending <==> y in Ids(calls[1..]) {
        if y in Ids(calls[1..]) {
          var k :| 0 <= k < |calls[1..]| && Ids(calls[1..])[k] == y;
          assert Ids(calls)[k + 1] == y && Ids(calls)[0] != Ids(calls)[k + 1];
        }
      }
      assert t.pending == Elements(Ids(calls[1..]));
      assert Distinct(Ids(calls[1..])) by {
        forall i, j | 0 <= i < j < |calls[1..]| ensures Ids(calls[1..])[i] != Ids(calls[1..])[j] {
          assert Ids(calls)[i + 1] != Ids(calls)[j + 1];
        }
      }
      FollowAnswers(t, calls[1..], answers[1..]);
    }
  }

  lemma ToolTurnPairs(request: seq<Message>, m: Message, answers: seq<Message>)
    requires Accepts(request) && m.role == ROLE_ASSISTANT && Distinct(Ids(m.toolCalls)) && AnswersInOrder(m.toolCalls, answers)
    ensures var unused := Elements(Ids(m.toolCalls)) !! Elements(AllDeclared(request)); var next := request + [m] + answers;
      && (unused ==> Accepts(next)) && (!unused ==> Follow(EMPTY, next).None?)
  {
    var s, ids := Follow(EMPTY, request).value, Ids(m.toolCalls);
    FollowSeen(EMPTY, request);
    assert s.seen == Elements(AllDeclared(request));
    DeclareMeaning(s, ids);
    FollowAppend(EMPTY, request, [m]);
    FollowAppend(EMPTY, request + [m], answers);
    assert [m][0] == m && [m][1..] == [];
    if Elements(ids) !! Elements(AllDeclared(request)) {
      var t := Advance(s, m).value;
      assert t.pending == Elements(ids);
      assert Follow(s, [m]) == Some(t);
      FollowAnswers(t, m.toolCalls, answers);
    } else {
      assert Follow(s, [m]) == None;
    }
  }

  lemma RepairTurnPairs(request: seq<Message>, said: seq<Message>, observed: Message)
    requires Accepts(request) && |said| <= 1 && (said != [] ==> said[0].toolCalls == [])
    requires !IsTool(observed) && observed.toolCalls == []
    ensures var next := request + said + [observed];
      if said != [] && IsTool(said[0]) then Follow(EMPTY, next).None? else Accepts(next)
  {
    var s := Follow(EMPTY, request).value;
    FollowAppend(EMPTY, request, said);
    FollowAppend(EMPTY, request + said, [observed]);
    assert [observed][1..] == [];
    if said != [] {
      assert said[1..] == [];
      assert Follow(s, said) == Advance(s, said[0]);
    } else {
      assert Follow(s, said) == Some(s);
    }
  }

  lemma TurnPairs(env: Surroundings, registry: map<string, Kind>, turn: nat, request: seq<Message>, reply: Reply, next: seq<Message>)
    requires env.repairRole != ROLE_TOOL && Accepts(request) && Extends(env, registry, turn, request, reply, next)
    ensures Clean(request, reply) ==> Accepts(next)
    ensures !Clean(request, reply) ==> Follow(EMPTY, next).None?
  {
    if ToolTurn(env, reply) {
      var answers :| AnswersTo(env, registry, turn, reply.message.toolCalls, answers) && next == request + [reply.message] + answers;
      hide Accepts, AnswersTo, AnswersInOrder, Elements, Distinct, Follow;
      AnswersAreInOrder(env, registry, turn, reply.message.toolCalls, answers);
      ToolTurnPairs(request, reply.message, answers);
    } else {
      hide Accepts, Follow, ToolTurn;
      RepairTurnPairs(request, Said(reply), Message(env.repairRole, reply.repair.value, [], ""));
    }
  }

  lemma ExtendsPrefix(env: Surroundings, registry: map<string, Kind>, turn: nat, request: seq<Message>, reply: Reply, next: seq<Message>)
    requires Extends(env, registry, turn, request, reply, next)
    ensures Follow(EMPTY, request).None? ==> Follow(EMPTY, next).None?
  {
    if RepairTurn(reply) && next == request + Said(reply) + [Message(env.repairRole, reply.repair.value, [], "")] {
      var rest := Said(reply) + [Message(env.repairRole, reply.repair.value, [], "")];
      assert next == request + rest;
      FollowAppend(EMPTY, request, rest);
    } else {
      var answers :| AnswersTo(env, registry, turn, reply.message.toolCalls, answers) && next == request + [reply.message] + answers;
      assert next == request + ([reply.message] + answers);
      FollowAppend(EMPTY, request, [reply.message] + answers);
    }
  }

  ghost predicate AllClean(log: Log, n: nat)
    requires n <= |log.requests| && |log.replies| == |log.requests|
  {
    forall i | 0 <= i < n :: Clean(log.requests[i], log.replies[i])
  }

  lemma {:induction false} RequestChecks(env: Surroundings, registry: map<string, Kind>, initial: seq<Message>, log: Log, i: nat)
    requires Faithful(env, registry, initial, log) && i < |log.requests|
    requires env.repairRole != ROLE_TOOL && Accepts(initial)
    ensures AllClean(log, i) ==> Accepts(log.requests[i])
    ensures !AllClean(log, i) ==> Follow(EMPTY, log.requests[i]).None?
    decreases i
  {
    hide Extends, Clean, Dispatched, PartlyDispatched, Accepts;
    if 0 < i {
      RequestChecks(env, registry, initial, log, i - 1);
      if AllClean(log, i - 1) {
        TurnPairs(env, registry, i, log.requests[i - 1], log.replies[i - 1], log.requests[i]);
      } else {
        ExtendsPrefix(env, registry, i, log.requests[i - 1], log.replies[i - 1], log.requests[i]);
      }
      assert AllClean(log, i) <==> AllClean(log, i - 1) && Clean(log.requests[i - 1], log.replies[i - 1]);
    }
  }

  /** Given a paired initial transcript, a request is paired exactly when no earlier reply reused a call id of
      the transcript it answered or was a repair that speaks as a tool. */
  lemma RequestsPaired(env: Surroundings, registry: map<string, Kind>, initial: seq<Message>, log: Log, i: nat)
    requires Faithful(env, registry, initial, log) && i < |log.requests|
    requires env.repairRole != ROLE_TOOL && Paired(initial)
    ensures Paired(log.requests[i]) <==> AllClean(log, i)
  {
    AcceptsPaired(initial);
    AcceptsPaired(log.requests[i]);
    RequestChecks(env, registry, initial, log, i);
    hide Paired, Faithful, AllClean;
  }

  /** Each declared call of a finished turn is dispatched exactly once and in order. */
  lemma CallsDispatchedOnce(env: Surroundings, registry: map<string, Kind>, initial: seq<Message>, log: Log, i: nat)
    requires Faithful(env, registry, initial, log) && i < |log.requests| - 1 && ToolTurn(env, log.replies[i])
    ensures Concat(log.batches[i]) == log.replies[i].message.toolCalls
    ensures CutInto(registry, log.replies[i].message.toolCalls, log.batches[i], [])
  {
    hide Extends, CutInto;
    var calls := log.replies[i].message.toolCalls;
    assert Dispatched(registry, log.replies[i], log.batches[i], []);
    CutConcat(registry, calls, log.batches[i], []);
    assert Concat(log.batches[i]) + [] == Concat(log.batches[i]);
  }

  // What the model sees of its tools.

  /** `after` is `before`, the reply, and one tool message per call in declaration order: with what the tool returned, or
      with a rejection when no such tool is registered. */
  predicate ShowsOutcomes(env: Surroundings, registry: map<string, Kind>, turn: nat, before: seq<Message>, reply: Message, after: seq<Message>) {
    var n := |before|;
    && |after| == n + 1 + |reply.toolCalls| && after[..n] == before && after[n] == reply
    && forall k | 0 <= k < |reply.toolCalls| ::
         var call, shown := reply.toolCalls[k], after[n + 1 + k];
         && shown.role == "tool" && shown.toolCallId == call.id && shown.toolCalls == []
         && (call.name in registry ==> env.execute(turn, call) == Some(shown.parts))
         && (call.name !in registry ==> shown.parts == [Part("text", "unknown tool: " + call.name, false)])
  }

  /** The request after a tool turn shows the model the outcome of each of its calls. */
  lemma NextRequestShowsOutcomes(env: Surroundings, registry: map<string, Kind>, initial: seq<Message>, log: Log, i: nat)
    requires Faithful(env, registry, initial, log) && i < |log.requests| - 1 && ToolTurn(env, log.replies[i])
    ensures ShowsOutcomes(env, registry, i + 1, log.requests[i], log.replies[i].message, log.requests[i + 1])
  {
    hide Dispatched, PartlyDispatched, ToolTurn, AnswersTo, OutcomeIn, Extends, ShowsOutcomes;
    var before, reply, after := log.requests[i], log.replies[i], log.requests[i + 1];
    assert Extends(env, registry, i + 1, before, reply, after);
    hide Faithful;
    var answers := ToolTurnAnswers(env, registry, i + 1, before, reply, after);
    ShownOutcomes(env, registry, i + 1, before, reply.message, answers);
  }

  lemma ToolTurnAnswers(env: Surroundings, registry: map<string, Kind>, turn: nat, request: seq<Message>, reply: Reply, next: seq<Message>)
    returns (answers: seq<Message>)
    requires ToolTurn(env, reply) && Extends(env, registry, turn, request, reply, next)
    ensures reply.Reply? && AnswersTo(env, registry, turn, reply.message.toolCalls, answers) && next == request + [reply.message] + answers
  {
    hide AnswersTo, ValidCalls;
    answers :| AnswersTo(env, registry, turn, reply.message.toolCalls, answers) && next == request + [reply.message] + answers;
  }

  lemma ShownOutcomes(env: Surroundings, registry: map<string, Kind>, turn: nat, before: seq<Message>, m: Message, answers: seq<Message>)
    requires AnswersTo(env, registry, turn, m.toolCalls, answers)
    ensures ShowsOutcomes(env, registry, turn, before, m, before + [m] + answers)
  {
    var after := before + [m] + answers;
    assert forall k | 0 <= k < |answers| :: after[|before| + 1 + k] == answers[k];
  }

  /** The request after any other turn is the one before, the reply unless it is empty, and the repair observation. */
  lemma NextRequestShowsRepair(env: Surroundings, registry: map<string, Kind>, initial: seq<Message>, log: Log, i: nat)
    requires Faithful(env, registry, initial, log) && i < |log.requests| - 1 && !ToolTurn(env, log.replies[i])
    ensures var reply := log.replies[i];
      && reply.Reply? && reply.repair.Some? && reply.message.toolCalls == []
      && var said := if reply.message.parts == [] && reply.message.role == "" then [] else [reply.message];
      log.requests[i + 1] == log.requests[i] + said + [Message(env.repairRole, reply.repair.value, [], "")]
  {
    hide Dispatched, PartlyDispatched, ValidCalls;
    assert Extends(env, registry, i + 1, log.requests[i], log.replies[i], log.requests[i + 1]);
  }

  /** What a tool that is not registered would do never matters: it is not run. */
  lemma UnregisteredToolsAreNotRun(env: Surroundings, other: Surroundings, registry: map<string, Kind>, initial: seq<Message>, log: Log)
    requires other == env.(execute := other.execute)
    requires forall turn: nat, call: ToolCall | call.name in registry :: env.execute(turn, call) == other.execute(turn, call)
    ensures Faithful(env, registry, initial, log) <==> Faithful(other, registry, initial, log)
  {
    hide Dispatched, PartlyDispatched;
    forall turn: nat, request, reply, next
      ensures Extends(env, registry, turn, request, reply, next) <==> Extends(other, registry, turn, request, reply, next)
    {
      SameAnswers(env, other, registry, turn);
    }
    hide Extends;
  }

  lemma SameAnswers(env: Surroundings, other: Surroundings, registry: map<string, Kind>, turn: nat)
    requires forall turn: nat, call: ToolCall | call.name in registry :: env.execute(turn, call) == other.execute(turn, call)
    ensures forall calls, answers :: AnswersTo(env, registry, turn, calls, answers) <==> AnswersTo(other, registry, turn, calls, answers)
  {}

  // Two inputs on which a request is not paired.

  const LOOKUP := ToolCall("call", "missing", "", "")
  const ASKS := Message(ROLE_ASSISTANT, [], [LOOKUP], "")
  const REJECTED := Observed(LOOKUP, [Part(PART_TEXT, "unknown tool: " + LOOKUP.name, false)])

  /** A model that declares the same call id in every turn. */
  const REPEATS := Surroundings((turn, request) => Reply(ASKS, ToolCalls, None), (turn, call) => None, text => true, ROLE_USER)

  const REPEATED := Log([[], [ASKS, REJECTED], [ASKS, REJECTED, ASKS, REJECTED]],
                        [Reply(ASKS, ToolCalls, None), Reply(ASKS, ToolCalls, None), Reply(ASKS, ToolCalls, None)],
                        [[[LOOKUP]], [[LOOKUP]], []])

  lemma RepeatedExtends(turn: nat, request: seq<Message>)
    ensures Extends(REPEATS, map[], turn, request, Reply(ASKS, ToolCalls, None), request + [ASKS, REJECTED])
    ensures Dispatched(map[], Reply(ASKS, ToolCalls, None), [[LOOKUP]], [])
    ensures Dispatched(map[], Reply(ASKS, ToolCalls, None), [], [LOOKUP])
  {
    assert AnswersTo(REPEATS, map[], turn, [LOOKUP], [REJECTED]);
    assert request + [ASKS, REJECTED] == request + [ASKS] + [REJECTED];
  }

  lemma RepeatedIsFaithful()
    ensures Faithful(REPEATS, map[], [], REPEATED)
  {
    hide Extends, Dispatched, PartlyDispatched, ToolTurn, AnswersTo;
    RepeatedExtends(1, []);
    RepeatedExtends(2, REPEATED.requests[1]);
    assert [] + [ASKS, REJECTED] == REPEATED.requests[1];
    assert REPEATED.requests[1] + [ASKS, REJECTED] == REPEATED.requests[2];
    LastPartly(Reply(ASKS, ToolCalls, None), [LOOKUP]);
  }

  lemma LastPartly(reply: Reply, rest: seq<ToolCall>)
    requires Dispatched(map[], reply, [], rest)
    ensures PartlyDispatched(map[], reply, [])
  {
    hide Dispatched;
  }

  lemma RepeatedIsNotClean()
    ensures !Clean(REPEATED.requests[1], REPEATED.replies[1])
  {
    var request, id := REPEATED.requests[1], LOOKUP.id;
    assert request[0] == ASKS && Declared(ASKS)[0] == id;
    assert id in AllDeclared(request) && Ids(ASKS.toolCalls)[0] == id;
    assert id in Elements(AllDeclared(request)) && id in Elements(Ids(ASKS.toolCalls));
  }

  /** A reused call id unpairs the third request. */
  lemma ReusedIdUnpairs()
    ensures Faithful(REPEATS, map[], [], REPEATED) && Paired([]) && !Paired(REPEATED.requests[2])
  {
    hide Faithful, Clean;
    RepeatedIsFaithful();
    RepeatedIsNotClean();
    RequestsPaired(REPEATS, map[], [], REPEATED, 2);
  }

  const CLAIMS := Message(ROLE_TOOL, [Part(PART_TEXT, "done", false)], [], "call")
  const SHOWN := Message(ROLE_USER, [], [], "")

  /** A model whose every reply is a repair in the role of a tool. */
  const POSES := Surroundings((turn, request) => Reply(CLAIMS, Repair, Some([])), (turn, call) => None, text => true, ROLE_USER)

  const POSED := Log([[], [CLAIMS, SHOWN]], [Reply(CLAIMS, Repair, Some([])), Reply(CLAIMS, Repair, Some([]))], [[], []])

  /** A repair that speaks as a tool unpairs the second request. */
  lemma RepairAsToolUnpairs()
    ensures Faithful(POSES, map[], [], POSED) && !Paired(POSED.requests[1])
  {
    var reply := Reply(CLAIMS, Repair, Some([]));
    assert [] + Said(reply) + [Message(POSES.repairRole, [], [], "")] == POSED.requests[1];
    assert Extends(POSES, map[], 1, [], reply, POSED.requests[1]);
    assert Dispatched(map[], reply, [], []) && PartlyDispatched(map[], reply, []);
    hide Extends, Dispatched, PartlyDispatched;
    assert !Clean(POSED.requests[0], POSED.replies[0]);
    RequestsPaired(POSES, map[], [], POSED, 1);
  }
}
