/** Transcripts, and when every tool call in one is answered: once as a rule about whole transcripts,
    once as the running check that both request encoders perform, with a proof that they agree. */
module Transcript {
  import opened Options
  import opened Ordering

  const ROLE_SYSTEM := "system"
  const ROLE_DEVELOPER := "developer"
  const ROLE_USER := "user"
  const ROLE_ASSISTANT := "assistant"
  const ROLE_TOOL := "tool"
  const PART_TEXT := "text"

  datatype ToolCall = ToolCall(id: string, name: string, arguments: string, argumentsRef: string)
  datatype Part = Part(kind: string, text: string, hasRef: bool)
  datatype Message = Message(role: string, parts: seq<Part>, toolCalls: seq<ToolCall>, toolCallId: string)

  predicate IsTool(m: Message) { m.role == ROLE_TOOL }

  /** The texts, one after the other. */
  function Flat(texts: seq<string>): string {
    if texts == [] then "" else texts[0] + Flat(texts[1..])
  }

  function PartTexts(parts: seq<Part>): (texts: seq<string>)
    ensures |texts| == |parts| && forall i | 0 <= i < |parts| :: texts[i] == parts[i].text
  {
    seq(|parts|, i requires 0 <= i < |parts| => parts[i].text)
  }

  function Ids(calls: seq<ToolCall>): (ids: seq<string>)
    ensures |ids| == |calls| && forall i | 0 <= i < |ids| :: ids[i] == calls[i].id
  {
    seq(|calls|, i requires 0 <= i < |calls| => calls[i].id)
  }

  /** The calls a message declares; a tool message declares none. */
  function Declared(m: Message): seq<string> {
    if IsTool(m) then [] else Ids(m.toolCalls)
  }

  function AllDeclared(ms: seq<Message>): seq<string> {
    if ms == [] then [] else Declared(ms[0]) + AllDeclared(ms[1..])
  }

  /** The call ids answered by the tool messages at the front. */
  function Answers(ms: seq<Message>): seq<string> {
    if ms == [] || !IsTool(ms[0]) then [] else [ms[0].toolCallId] + Answers(ms[1..])
  }

  predicate Distinct(ids: seq<string>) {
    forall i, j | 0 <= i < j < |ids| :: ids[i] != ids[j]
  }

  /** Between each message and the next one that is not a tool's, its calls are answered once each. */
  predicate TurnsAnswered(ms: seq<Message>) {
    forall i | 0 <= i < |ms| && !IsTool(ms[i]) :: multiset(Answers(ms[i + 1..])) == multiset(Declared(ms[i]))
  }

  /** All call ids are distinct, every call is answered exactly once before the next message that is
      not a tool's or the end, and no tool message answers anything else. */
  predicate Paired(ms: seq<Message>) {
    Distinct(AllDeclared(ms)) && TurnsAnswered(ms) && Answers(ms) == []
  }

  // The running check.

  datatype Ledger = Ledger(pending: set<string>, completed: set<string>, seen: set<string>)

  const EMPTY := Ledger({}, {}, {})

  ghost predicate Balanced(s: Ledger) {
    s.seen == s.pending + s.completed && s.pending !! s.completed
  }

  function Declare(s: Ledger, ids: seq<string>): (r: Option<Ledger>)
    ensures Balanced(s) && r.Some? ==> Balanced(r.value)
    decreases |ids|
  {
    if ids == [] then Some(s)
    else if ids[0] in s.seen then None
    else Declare(s.(pending := s.pending + {ids[0]}, seen := s.seen + {ids[0]}), ids[1..])
  }

  function Advance(s: Ledger, m: Message): (r: Option<Ledger>)
    ensures Balanced(s) && r.Some? ==> Balanced(r.value)
  {
    if IsTool(m) then
      if m.toolCallId in s.completed || m.toolCallId !in s.pending then None
      else Some(s.(pending := s.pending - {m.toolCallId}, completed := s.completed + {m.toolCallId}))
    else if s.pending != {} then None
    else Declare(s, Ids(m.toolCalls))
  }

  function Follow(s: Ledger, ms: seq<Message>): (r: Option<Ledger>)
    ensures Balanced(s) && r.Some? ==> Balanced(r.value)
    decreases |ms|
  {
    if ms == [] then Some(s)
    else
      var next := Advance(s, ms[0]);
      if next == None then None else Follow(next.value, ms[1..])
  }

  predicate Accepts(ms: seq<Message>) {
    var end := Follow(EMPTY, ms);
    end.Some? && end.value.pending == {}
  }

  lemma {:induction false} DeclareMeaning(s: Ledger, ids: seq<string>)
    ensures var r := Declare(s, ids);
      && (r.Some? <==> Distinct(ids) && Elements(ids) !! s.seen)
      && (r.Some? ==> r.value == Ledger(s.pending + Elements(ids), s.completed, s.seen + Elements(ids)))
    decreases |ids|
  {
    if ids != [] {
      var x, rest := ids[0], ids[1..];
      assert Elements(ids) == {x} + Elements(rest);
      if x !in s.seen {
        DeclareMeaning(s.(pending := s.pending + {x}, seen := s.seen + {x}), rest);
        assert Distinct(ids) <==> Distinct(rest) && x !in rest by {
          if Distinct(rest) && x !in rest {
            forall i, j | 0 <= i < j < |ids| ensures ids[i] != ids[j] {
              assert ids[j] == rest[j - 1];
              if 0 < i { assert ids[i] == rest[i - 1]; }
            }
          }
          if Distinct(ids) { forall i, j | 0 <= i < j < |rest| ensures rest[i] != rest[j] { assert ids[i + 1] != ids[j + 1]; } }
        }
      }
    }
  }

  lemma {:induction false} DistinctMultiset(ids: seq<string>)
    requires Distinct(ids)
    ensures multiset(Elements(ids)) == multiset(ids)
    decreases |ids|
  {
    hide Distinct;
    if ids != [] {
      var x, rest := ids[0], ids[1..];
      RestDistinct(ids);
      DistinctMultiset(rest);
      assert ids == [x] + rest;
      assert Elements(ids) == {x} + Elements(rest);
      OneMore(x, Elements(rest));
    } else {
      assert Elements(ids) == {};
    }
  }

  lemma OneMore(x: string, rest: set<string>)
    requires x !in rest
    ensures multiset({x} + rest) == multiset{x} + multiset(rest)
  {}

  lemma RestDistinct(ids: seq<string>)
    requires Distinct(ids) && ids != []
    ensures Distinct(ids[1..]) && ids[0] !in Elements(ids[1..])
  {
    var rest := ids[1..];
    forall i, j | 0 <= i < j < |rest| ensures rest[i] != rest[j] { assert ids[i + 1] != ids[j + 1]; }
    forall i | 0 <= i < |rest| ensures rest[i] != ids[0] { assert ids[i + 1] != ids[0]; }
  }

  lemma DistinctConcat(a: seq<string>, b: seq<string>)
    ensures Distinct(a + b) <==> Distinct(a) && Distinct(b) && Elements(a) !! Elements(b)
  {
    var c := a + b;
    if Distinct(c) {
      forall i, j | 0 <= i < j < |a| ensures a[i] != a[j] { assert c[i] != c[j]; }
      forall i, j | 0 <= i < j < |b| ensures b[i] != b[j] { assert c[|a| + i] != c[|a| + j]; }
      forall i, j | 0 <= i < |a| && 0 <= j < |b| ensures a[i] != b[j] { assert c[i] != c[|a| + j]; }
    }
    if Distinct(a) && Distinct(b) && Elements(a) !! Elements(b) {
      forall i, j | 0 <= i < j < |c| ensures c[i] != c[j] {
        if i < |a| && |a| <= j { assert c[i] in Elements(a) && c[j] in Elements(b); }
      }
    }
  }

  /** What is left to be true of `ms` when the running check stands at `s`. */
  ghost predicate Completes(s: Ledger, ms: seq<Message>) {
    && Distinct(AllDeclared(ms)) && Elements(AllDeclared(ms)) !! s.seen
    && multiset(Answers(ms)) == multiset(s.pending) && TurnsAnswered(ms)
  }

  lemma TurnsAnsweredCons(ms: seq<Message>)
    requires ms != []
    ensures TurnsAnswered(ms) <==>
      TurnsAnswered(ms[1..]) && (IsTool(ms[0]) || multiset(Answers(ms[1..])) == multiset(Declared(ms[0])))
  {
    var rest := ms[1..];
    assert forall i | 0 <= i < |rest| :: rest[i] == ms[i + 1] && rest[i + 1..] == ms[i + 2..];
    if TurnsAnswered(ms) {
      forall i | 0 <= i < |rest| && !IsTool(rest[i]) ensures multiset(Answers(rest[i + 1..])) == multiset(Declared(rest[i])) {
        assert !IsTool(ms[i + 1]);
      }
    }
    if TurnsAnswered(rest) {
      forall i | 1 <= i < |ms| && !IsTool(ms[i]) ensures multiset(Answers(ms[i + 1..])) == multiset(Declared(ms[i])) {
        assert !IsTool(rest[i - 1]);
      }
    }
  }

  lemma OneAnswer(x: string, rest: multiset<string>, pending: set<string>)
    ensures multiset{x} + rest == multiset(pending) <==> x in pending && rest == multiset(pending - {x})
  {
    var all := multiset{x} + rest;
    if all == multiset(pending) {
      assert x in all;
      assert all - multiset{x} == rest;
      assert multiset(pending) - multiset{x} == multiset(pending - {x});
    }
    if x in pending { assert multiset(pending) == multiset{x} + multiset(pending - {x}); }
  }

  lemma ToolStep(s: Ledger, ms: seq<Message>)
    requires Balanced(s) && ms != [] && IsTool(ms[0])
    ensures Completes(s, ms) <==> Advance(s, ms[0]).Some? && Completes(Advance(s, ms[0]).value, ms[1..])
  {
    var x, rest := ms[0].toolCallId, ms[1..];
    TurnsAnsweredCons(ms);
    assert Declared(ms[0]) + AllDeclared(rest) == AllDeclared(rest);
    assert multiset(Answers(ms)) == multiset{x} + multiset(Answers(rest)) by { assert Answers(ms) == [x] + Answers(rest); }
    hide Distinct, TurnsAnswered, Elements, AllDeclared, Answers;
    OneAnswer(x, multiset(Answers(rest)), s.pending);
  }

  lemma NothingPending(pending: set<string>)
    ensures multiset(pending) == multiset{} <==> pending == {}
  {
    if pending != {} { var x :| x in pending; assert x in multiset(pending); }
  }

  /** What a message that is not a tool's does to the check. */
  lemma AdvanceMeaning(s: Ledger, m: Message)
    requires !IsTool(m)
    ensures var ids, r := Declared(m), Advance(s, m);
      && (r.Some? <==> s.pending == {} && Distinct(ids) && Elements(ids) !! s.seen)
      && (r.Some? ==> r.value == Ledger(Elements(ids), s.completed, s.seen + Elements(ids)) && multiset(r.value.pending) == multiset(ids))
  {
    var ids := Declared(m);
    DeclareMeaning(s, ids);
    hide Declare, Distinct, Elements;
    if Distinct(ids) { DistinctMultiset(ids); }
    assert {} + Elements(ids) == Elements(ids);
  }

  lemma MessageStep(s: Ledger, ms: seq<Message>)
    requires Balanced(s) && ms != [] && !IsTool(ms[0])
    ensures Completes(s, ms) <==> Advance(s, ms[0]).Some? && Completes(Advance(s, ms[0]).value, ms[1..])
  {
    hide Distinct, TurnsAnswered, Advance, Elements, Declared;
    var ids, rest := Declared(ms[0]), ms[1..];
    TurnsAnsweredCons(ms);
    AdvanceMeaning(s, ms[0]);
    DistinctConcat(ids, AllDeclared(rest));
    ElementsConcat(ids, AllDeclared(rest));
    NothingPending(s.pending);
    assert AllDeclared(ms) == ids + AllDeclared(rest) && Answers(ms) == [];
  }

  lemma ElementsConcat(a: seq<string>, b: seq<string>)
    ensures Elements(a + b) == Elements(a) + Elements(b)
  {}

  lemma {:induction false} FollowMeaning(s: Ledger, ms: seq<Message>)
    requires Balanced(s)
    ensures Follow(s, ms).Some? && Follow(s, ms).value.pending == {} <==> Completes(s, ms)
    decreases |ms|
  {
    if ms == [] {
      NothingPending(s.pending);
    } else {
      if IsTool(ms[0]) { ToolStep(s, ms); } else { MessageStep(s, ms); }
      if Advance(s, ms[0]).Some? { FollowMeaning(Advance(s, ms[0]).value, ms[1..]); }
      hide Completes, Advance;
    }
  }

  /** The running check accepts exactly the paired transcripts. */
  lemma AcceptsPaired(ms: seq<Message>)
    ensures Accepts(ms) <==> Paired(ms)
  {
    FollowMeaning(EMPTY, ms);
    assert multiset(Answers(ms)) == multiset(EMPTY.pending) <==> Answers(ms) == [] by {
      if Answers(ms) != [] { assert Answers(ms)[0] in multiset(Answers(ms)); }
    }
  }

  lemma {:induction false} FollowAppend(s: Ledger, a: seq<Message>, b: seq<Message>)
    ensures Follow(s, a + b) == if Follow(s, a) == None then None else Follow(Follow(s, a).value, b)
    decreases |a|
  {
    if a == [] {
      assert a + b == b;
    } else {
      assert (a + b)[0] == a[0] && (a + b)[1..] == a[1..] + b;
      if Advance(s, a[0]).Some? { FollowAppend(Advance(s, a[0]).value, a[1..], b); }
    }
  }

  /** The check has seen exactly the calls declared so far. */
  lemma {:induction false} FollowSeen(s: Ledger, ms: seq<Message>)
    ensures Follow(s, ms).Some? ==> Follow(s, ms).value.seen == s.seen + Elements(AllDeclared(ms))
    decreases |ms|
  {
    if ms == [] {
      assert Elements(AllDeclared(ms)) == {};
    } else if Advance(s, ms[0]).Some? {
      FollowSeen(Advance(s, ms[0]).value, ms[1..]);
      DeclareMeaning(s, Ids(ms[0].toolCalls));
      assert Elements(Declared(ms[0]) + AllDeclared(ms[1..])) == Elements(Declared(ms[0])) + Elements(AllDeclared(ms[1..]));
    }
  }
}
