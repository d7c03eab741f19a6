/** The server-sent-events decoder: line by line, with hard limits; what it makes of any input, and the
    exact round trip for payloads written as `data:` lines. */
module Sse {
  import opened Options
  import opened ResponseState

  const MAX_STREAM_BYTES := 32 * 1024 * 1024

  // Lines.

  function FirstNewline(text: string): (i: nat)
    ensures i <= |text| && (i < |text| ==> text[i] == '\n') && forall k | 0 <= k < i :: text[k] != '\n'
  {
    if text == "" || text[0] == '\n' then 0 else 1 + FirstNewline(text[1..])
  }

  /** Newline-terminated lines, and a last unterminated one if it is not empty. */
  function RawLines(text: string): seq<string>
    decreases |text|
  {
    if text == "" then []
    else
      var i := FirstNewline(text);
      if i == |text| then [text] else [text[..i]] + RawLines(text[i + 1..])
  }

  function WithoutReturn(line: string): string {
    if line != "" && line[|line| - 1] == '\r' then line[..|line| - 1] else line
  }

  /** The scanner drops one carriage return and the decoder another. */
  function Trimmed(line: string): string {
    WithoutReturn(WithoutReturn(line))
  }

  /** The value of a `data` field, without one leading space. */
  function DataValue(line: string): Option<string> {
    if |line| < 5 || line[..5] != "data:" then None
    else if 5 < |line| && line[5] == ' ' then Some(line[6..])
    else Some(line[5..])
  }

  function Joined(data: string, value: string): string {
    if data == "" then value else data + "\n" + value
  }

  function Emitted(data: string): seq<string> {
    if data == "" then [] else [data]
  }

  /** The events of the remaining lines when `data` has been collected: a blank line or the end of input
      completes an event, and empty data is no event. */
  function Events(lines: seq<string>, data: string): seq<string> {
    if lines == [] then Emitted(data)
    else
      var line := Trimmed(lines[0]);
      if line == "" then Emitted(data) + Events(lines[1..], "")
      else
        var value := DataValue(line);
        Events(lines[1..], if value.Some? then Joined(data, value.value) else data)
  }

  /** Whether the remaining lines stay within the line, event and stream limits. */
  predicate Within(lines: seq<string>, data: string, total: nat) {
    lines == []
    || (|lines[0]| < MAX_STREAM_FRAME_BYTES
        && var line := Trimmed(lines[0]);
        var now := total + |line| + 1;
        now <= MAX_STREAM_BYTES
        && if line == "" then Within(lines[1..], "", now)
           else
             var value := DataValue(line);
             if value == None then Within(lines[1..], data, now)
             else |Joined(data, value.value)| <= MAX_STREAM_FRAME_BYTES && Within(lines[1..], Joined(data, value.value), now))
  }

  /** The events completed before the input ends or a line breaks a limit. */
  function Delivered(lines: seq<string>, data: string, total: nat): seq<string> {
    if lines == [] then Emitted(data)
    else
      var line := Trimmed(lines[0]);
      var now, value := total + |line| + 1, DataValue(line);
      if MAX_STREAM_FRAME_BYTES <= |lines[0]| || MAX_STREAM_BYTES < now then []
      else if line == "" then Emitted(data) + Delivered(lines[1..], "", now)
      else if value == None then Delivered(lines[1..], data, now)
      else if MAX_STREAM_FRAME_BYTES < |Joined(data, value.value)| then []
      else Delivered(lines[1..], Joined(data, value.value), now)
  }

  /** Events completed by a blank line; what is collected after the last one is left out. */
  function Completed(lines: seq<string>, data: string): seq<string> {
    if lines == [] then []
    else
      var line := Trimmed(lines[0]);
      if line == "" then Emitted(data) + Completed(lines[1..], "")
      else
        var value := DataValue(line);
        Completed(lines[1..], if value.Some? then Joined(data, value.value) else data)
  }

  /** Within the limits every event is delivered. */
  lemma {:induction false} AllDelivered(lines: seq<string>, data: string, total: nat)
    requires Within(lines, data, total)
    ensures Delivered(lines, data, total) == Events(lines, data)
    decreases |lines|
  {
    hide Trimmed, DataValue, Joined;
    if lines != [] {
      var line := Trimmed(lines[0]);
      var next := if line == "" then "" else if DataValue(line).Some? then Joined(data, DataValue(line).value) else data;
      AllDelivered(lines[1..], next, total + |line| + 1);
    }
  }

  /** How many lines are read before one breaks a limit. */
  function LinesBefore(lines: seq<string>, data: string, total: nat): (n: nat)
    ensures n <= |lines| && (Within(lines, data, total) <==> n == |lines|)
  {
    if lines == [] then 0
    else
      var line := Trimmed(lines[0]);
      var now, value := total + |line| + 1, DataValue(line);
      if MAX_STREAM_FRAME_BYTES <= |lines[0]| || MAX_STREAM_BYTES < now then 0
      else if line == "" then 1 + LinesBefore(lines[1..], "", now)
      else if value == None then 1 + LinesBefore(lines[1..], data, now)
      else if MAX_STREAM_FRAME_BYTES < |Joined(data, value.value)| then 0
      else 1 + LinesBefore(lines[1..], Joined(data, value.value), now)
  }

  /** Beyond the limits exactly the events completed before the first offending line are delivered. */
  lemma {:induction false} DeliveredBeforeLimit(lines: seq<string>, data: string, total: nat)
    requires !Within(lines, data, total)
    ensures var n := LinesBefore(lines, data, total);
      && n < |lines| && Within(lines[..n], data, total) && !Within(lines[..n + 1], data, total)
      && Delivered(lines, data, total) == Completed(lines[..n], data)
    decreases |lines|
  {
    hide Trimmed, DataValue, Joined;
    var n, line := LinesBefore(lines, data, total), Trimmed(lines[0]);
    if n == 0 {
      assert lines[..1][0] == lines[0];
    } else {
      var next := if line == "" then "" else if DataValue(line).Some? then Joined(data, DataValue(line).value) else data;
      PrefixTail(lines, n);
      PrefixTail(lines, n + 1);
      DeliveredBeforeLimit(lines[1..], next, total + |line| + 1);
    }
  }

  lemma PrefixTail(lines: seq<string>, n: nat)
    requires 0 < n <= |lines|
    ensures lines[..n][0] == lines[0] && lines[..n][1..] == lines[1..][..n - 1]
  {}

  // The decoder.

  datatype Outcome = Data(value: string) | End | Failed

  class SseDecoder {
    var lines: seq<string>
    var data: string
    var total: nat
    var eof: bool

    constructor (text: string)
      ensures lines == RawLines(text) && data == "" && total == 0 && !eof
    {
      lines, data, total, eof := RawLines(text), "", 0, false;
    }

    /** The next event, the end of the stream, or a limit exceeded. */
    method Next() returns (outcome: Outcome)
      requires eof ==> lines == [] && data == ""
      modifies this
      ensures eof ==> lines == [] && data == ""
      ensures outcome.Data? ==>
        && Delivered(old(lines), old(data), old(total)) == [outcome.value] + Delivered(lines, data, total)
        && (Within(old(lines), old(data), old(total)) <==> Within(lines, data, total))
        && data == "" && (|lines| < old(|lines|) || (!old(eof) && eof))
      ensures outcome.End? ==> Delivered(old(lines), old(data), old(total)) == [] && Within(old(lines), old(data), old(total)) && eof
      ensures outcome.Failed? ==> Delivered(old(lines), old(data), old(total)) == [] && !Within(old(lines), old(data), old(total))
    {
      hide Delivered, Within, Trimmed, DataValue, Joined;
      if eof {
        EndOfLines("", total);
        return End;
      }
      while lines != []
        invariant Delivered(lines, data, total) == Delivered(old(lines), old(data), old(total))
        invariant Within(lines, data, total) <==> Within(old(lines), old(data), old(total))
        invariant |lines| <= old(|lines|) && !eof
        decreases |lines|
      {
        LineStep(lines, data, total);
        if MAX_STREAM_FRAME_BYTES <= |lines[0]| {
          return Failed;
        }
        var line := Trimmed(lines[0]);
        lines := lines[1..];
        outcome := AcceptLine(line);
        if outcome != End {
          return;
        }
      }
      EndOfLines(data, total);
      EndOfLines("", total);
      eof := true;
      if data == "" {
        return End;
      }
      outcome := Data(data);
      data := "";
    }

    /** Takes one line; `End` means that it completed no event. */
    method AcceptLine(line: string) returns (outcome: Outcome)
      modifies this`total, this`data
      ensures var now, value := old(total) + |line| + 1, DataValue(line);
        if MAX_STREAM_BYTES < now then outcome == Failed
        else if line == "" then
          total == now && data == "" && outcome == if old(data) == "" then End else Data(old(data))
        else if value == None then outcome == End && total == now && data == old(data)
        else if MAX_STREAM_FRAME_BYTES < |Joined(old(data), value.value)| then outcome == Failed
        else outcome == End && total == now && data == Joined(old(data), value.value)
    {
      total := total + |line| + 1;
      if MAX_STREAM_BYTES < total {
        return Failed;
      }
      if line == "" {
        if data == "" {
          return End;
        }
        outcome := Data(data);
        data := "";
        return;
      }
      if DataValue(line) == None {
        return End;
      }
      var value := DataValue(line).value;
      var prefix := if data == "" then "" else data + "\n";
      if MAX_STREAM_FRAME_BYTES < |prefix| + |value| {
        return Failed;
      }
      data := prefix + value;
      return End;
    }
  }

  lemma LineStep(lines: seq<string>, data: string, total: nat)
    requires lines != []
    ensures var line := Trimmed(lines[0]); var now, value := total + |line| + 1, DataValue(line);
      if MAX_STREAM_FRAME_BYTES <= |lines[0]| || MAX_STREAM_BYTES < now
         || (line != "" && value.Some? && MAX_STREAM_FRAME_BYTES < |Joined(data, value.value)|)
      then Delivered(lines, data, total) == [] && !Within(lines, data, total)
      else
        var next := if line == "" then "" else if value.Some? then Joined(data, value.value) else data;
        && Delivered(lines, data, total) == (if line == "" then Emitted(data) else []) + Delivered(lines[1..], next, now)
        && (Within(lines, data, total) <==> Within(lines[1..], next, now))
  {
    hide Trimmed, DataValue, Joined;
  }

  lemma EndOfLines(data: string, total: nat)
    ensures Delivered([], data, total) == Emitted(data) && Within([], data, total)
  {}

  /** Decoding a whole input succeeds exactly within the limits and yields its events in order; a failure
      comes after the events completed before the offending line. */
  method DecodeAll(text: string) returns (events: seq<string>, ok: bool)
    ensures ok <==> Within(RawLines(text), "", 0)
    ensures ok ==> events == Events(RawLines(text), "")
    ensures !ok ==> events == Completed(RawLines(text)[..LinesBefore(RawLines(text), "", 0)], "")
  {
    hide Delivered, Within, Events, Completed, LinesBefore, RawLines;
    var decoder := new SseDecoder(text);
    events := [];
    while true
      invariant fresh(decoder) && (decoder.eof ==> decoder.lines == [] && decoder.data == "")
      invariant events + Delivered(decoder.lines, decoder.data, decoder.total) == Delivered(RawLines(text), "", 0)
      invariant Within(decoder.lines, decoder.data, decoder.total) <==> Within(RawLines(text), "", 0)
      decreases |decoder.lines|, if decoder.eof then 0 else 1
    {
      var outcome := decoder.Next();
      if outcome.End? {
        AllDelivered(RawLines(text), "", 0);
        return events, true;
      }
      if outcome.Failed? {
        DeliveredBeforeLimit(RawLines(text), "", 0);
        return events, false;
      }
      events := events + [outcome.value];
    }
  }

  // Writing payloads.

  /** The lines of a payload; always at least one. */
  function Split(payload: string): (lines: seq<string>)
    ensures lines != []
    decreases |payload|
  {
    var i := FirstNewline(payload);
    if i == |payload| then [payload] else [payload[..i]] + Split(payload[i + 1..])
  }

  function DataLines(lines: seq<string>): seq<string> {
    if lines == [] then [] else ["data: " + lines[0]] + DataLines(lines[1..])
  }

  /** `data: ` before each line, and a blank line after each payload. */
  function WireLines(payloads: seq<string>): seq<string> {
    if payloads == [] then [] else DataLines(Split(payloads[0])) + [""] + WireLines(payloads[1..])
  }

  function Terminated(lines: seq<string>): string {
    if lines == [] then "" else lines[0] + "\n" + Terminated(lines[1..])
  }

  function Wire(payloads: seq<string>): string {
    Terminated(WireLines(payloads))
  }

  predicate NewlineFree(line: string) {
    forall k | 0 <= k < |line| :: line[k] != '\n'
  }

  lemma FirstNewlineIs(text: string, i: nat)
    requires i < |text| && text[i] == '\n' && forall k | 0 <= k < i :: text[k] != '\n'
    ensures FirstNewline(text) == i
  {}

  lemma {:induction false} RawLinesOf(lines: seq<string>)
    requires forall i | 0 <= i < |lines| :: NewlineFree(lines[i])
    ensures RawLines(Terminated(lines)) == lines
    decreases |lines|
  {
    if lines != [] {
      RawLinesOf(lines[1..]);
      RawLinesCons(lines[0], Terminated(lines[1..]));
      assert lines == [lines[0]] + lines[1..];
    }
  }

  lemma RawLinesCons(line: string, rest: string)
    requires NewlineFree(line)
    ensures RawLines(line + "\n" + rest) == [line] + RawLines(rest)
  {
    var text, i := line + "\n" + rest, |line|;
    assert text[i] == '\n' && text[..i] == line && text[i + 1..] == rest;
    FirstNewlineIs(text, i);
  }

  lemma {:induction false} SplitNewlineFree(payload: string)
    ensures forall i | 0 <= i < |Split(payload)| :: NewlineFree(Split(payload)[i])
    decreases |payload|
  {
    var i := FirstNewline(payload);
    if i < |payload| { SplitNewlineFree(payload[i + 1..]); }
  }

  lemma {:induction false} DataLinesFree(lines: seq<string>)
    requires forall i | 0 <= i < |lines| :: NewlineFree(lines[i])
    ensures |DataLines(lines)| == |lines|
    ensures forall i | 0 <= i < |DataLines(lines)| :: DataLines(lines)[i] == "data: " + lines[i] && NewlineFree(DataLines(lines)[i])
  {
    if lines != [] { DataLinesFree(lines[1..]); }
  }

  lemma {:induction false} WireLinesFree(payloads: seq<string>)
    ensures forall i | 0 <= i < |WireLines(payloads)| :: NewlineFree(WireLines(payloads)[i])
  {
    if payloads != [] {
      SplitNewlineFree(payloads[0]);
      DataLinesFree(Split(payloads[0]));
      WireLinesFree(payloads[1..]);
    }
  }

  /** A payload without its leading empty lines. */
  function Stripped(payload: string): (rest: string)
    ensures rest == "" || rest[0] != '\n'
    ensures |rest| <= |payload| && (payload == "" || payload[0] != '\n' ==> rest == payload)
  {
    if payload == "" || payload[0] != '\n' then payload else Stripped(payload[1..])
  }

  /** No line of the payload ends in a carriage return. */
  predicate NoReturns(payload: string) {
    forall i | 0 <= i < |Split(payload)| :: Split(payload)[i] == "" || Split(payload)[i][|Split(payload)[i]| - 1] != '\r'
  }

  lemma DataLineValue(line: string)
    requires line == "" || line[|line| - 1] != '\r'
    ensures var wire := "data: " + line; Trimmed(wire) == wire && wire != "" && DataValue(wire) == Some(line)
  {}

  lemma DataStep(line: string, rest: seq<string>, data: string)
    requires line == "" || line[|line| - 1] != '\r'
    ensures Events(["data: " + line] + rest, data) == Events(rest, Joined(data, line))
  {
    var wire := ["data: " + line] + rest;
    DataLineValue(line);
    assert wire[0] == "data: " + line && wire[1..] == rest;
    hide DataValue, Trimmed, Joined;
  }

  lemma BlankStep(rest: seq<string>, data: string)
    ensures Events([""] + rest, data) == Emitted(data) + Events(rest, "")
  {
    var wire := [""] + rest;
    assert wire[0] == "" && wire[1..] == rest;
  }

  function FirstLine(payload: string): string {
    payload[..FirstNewline(payload)]
  }

  function AfterFirst(payload: string): string {
    if FirstNewline(payload) == |payload| then "" else payload[FirstNewline(payload) + 1..]
  }

  predicate OneLine(payload: string) {
    FirstNewline(payload) == |payload|
  }

  /** A payload's lines are its first line and the lines of what follows the first newline. */
  lemma SplitStep(payload: string)
    ensures var line, tail := FirstLine(payload), AfterFirst(payload);
      && NewlineFree(line) && |tail| <= |payload|
      && (OneLine(payload) ==> payload == line && Split(payload) == [line] && DataLines(Split(payload)) == ["data: " + line])
      && (!OneLine(payload) ==>
            && payload == line + "\n" + tail && |tail| < |payload| && |payload| == |line| + 1 + |tail|
            && Split(payload) == [line] + Split(tail)
            && DataLines(Split(payload)) == ["data: " + line] + DataLines(Split(tail)))
  {
    var line, tail := FirstLine(payload), AfterFirst(payload);
    if OneLine(payload) {
      assert payload == line;
      assert [line][1..] == [];
    } else {
      assert payload == line + "\n" + tail;
      assert ([line] + Split(tail))[1..] == Split(tail);
    }
  }

  lemma LinesStep(payload: string)
    requires NoReturns(payload)
    ensures FirstLine(payload) == "" || FirstLine(payload)[|FirstLine(payload)| - 1] != '\r'
    ensures !OneLine(payload) ==> NoReturns(AfterFirst(payload))
    ensures LinesFit(Split(payload)) ==> |FirstLine(payload)| < MAX_STREAM_FRAME_BYTES - 6
    ensures LinesFit(Split(payload)) && !OneLine(payload) ==> LinesFit(Split(AfterFirst(payload)))
  {
    SplitStep(payload);
    var line, tail, all := FirstLine(payload), AfterFirst(payload), Split(payload);
    assert all[0] == line;
    hide FirstLine, AfterFirst, OneLine, Split;
    if !OneLine(payload) {
      var rest := Split(tail);
      assert forall k | 0 <= k < |rest| :: all[k + 1] == rest[k];
    }
  }

  /** Reading one payload's lines collects it after `data`, dropping leading empty lines if nothing came before. */
  lemma {:induction false} PayloadCollected(payload: string, data: string, rest: seq<string>)
    requires NoReturns(payload)
    ensures var collected := if data == "" then Stripped(payload) else data + "\n" + payload;
      Events(DataLines(Split(payload)) + [""] + rest, data) == Emitted(collected) + Events(rest, "")
    decreases |payload|
  {
    var line, tail := FirstLine(payload), AfterFirst(payload);
    SplitStep(payload);
    LinesStep(payload);
    hide Events, NoReturns, Emitted, Joined, Stripped, Split, DataLines, FirstLine, AfterFirst, OneLine, NewlineFree;
    var wire := DataLines(Split(payload)) + [""] + rest;
    if OneLine(payload) {
      assert wire == ["data: " + line] + ([""] + rest);
      DataStep(line, [""] + rest, data);
      BlankStep(rest, Joined(data, line));
      CollectedLine(data, line);
    } else {
      var more := DataLines(Split(tail)) + [""] + rest;
      assert wire == ["data: " + line] + more;
      DataStep(line, more, data);
      PayloadCollected(tail, Joined(data, line), rest);
      CollectedSoFar(data, line, tail);
    }
  }

  lemma CollectedLine(data: string, line: string)
    requires NewlineFree(line)
    ensures Joined(data, line) == if data == "" then Stripped(line) else data + "\n" + line
  {
    if line != "" { assert line[0] != '\n'; }
  }

  lemma CollectedSoFar(data: string, line: string, tail: string)
    requires NewlineFree(line)
    ensures var payload, joined := line + "\n" + tail, Joined(data, line);
      (if data == "" then Stripped(payload) else data + "\n" + payload) == if joined == "" then Stripped(tail) else joined + "\n" + tail
  {
    var payload := line + "\n" + tail;
    if data == "" {
      if line == "" {
        assert payload[0] == '\n' && payload[1..] == tail;
      } else {
        assert payload[0] == line[0] != '\n';
      }
    } else {
      assert data + "\n" + payload == (data + "\n" + line) + "\n" + tail;
    }
  }

  function Survivors(payloads: seq<string>): seq<string> {
    if payloads == [] then [] else Emitted(Stripped(payloads[0])) + Survivors(payloads[1..])
  }

  lemma {:induction false} WireEvents(payloads: seq<string>)
    requires forall i | 0 <= i < |payloads| :: NoReturns(payloads[i])
    ensures Events(WireLines(payloads), "") == Survivors(payloads)
  {
    if payloads != [] {
      PayloadCollected(payloads[0], "", WireLines(payloads[1..]));
      WireEvents(payloads[1..]);
    }
  }

  lemma {:induction false} SurvivorsAre(payloads: seq<string>)
    ensures (Survivors(payloads) == payloads) <==> forall i | 0 <= i < |payloads| :: payloads[i] != "" && payloads[i][0] != '\n'
    ensures forall i | 0 <= i < |Survivors(payloads)| :: Survivors(payloads)[i] != "" && Survivors(payloads)[i][0] != '\n'
  {
    if payloads != [] {
      SurvivorsAre(payloads[1..]);
      if payloads[0] != "" && payloads[0][0] != '\n' {
        assert Survivors(payloads)[0] == payloads[0] && Survivors(payloads)[1..] == Survivors(payloads[1..]);
        assert payloads == [payloads[0]] + payloads[1..];
      }
    }
  }

  /** Within the limits, writing payloads and decoding them returns each without its leading empty lines,
      and the same list exactly when every payload's first line is not empty. */
  lemma RoundTrip(payloads: seq<string>)
    requires forall i | 0 <= i < |payloads| :: NoReturns(payloads[i])
    ensures Events(RawLines(Wire(payloads)), "") == Survivors(payloads)
    ensures Events(RawLines(Wire(payloads)), "") == payloads <==>
      forall i | 0 <= i < |payloads| :: payloads[i] != "" && payloads[i][0] != '\n'
  {
    WireLinesFree(payloads);
    RawLinesOf(WireLines(payloads));
    WireEvents(payloads);
    SurvivorsAre(payloads);
    hide Events, Survivors, WireLines, RawLines;
  }

  /** The last blank line is not needed: the end of input completes the last event. */
  lemma {:induction false} LastBlankOptional(lines: seq<string>, data: string)
    ensures Events(lines + [""], data) == Events(lines, data)
  {
    if lines == [] {
      assert lines + [""] == [""] && [""][1..] == [] && Trimmed("") == "";
    } else {
      assert (lines + [""])[0] == lines[0] && (lines + [""])[1..] == lines[1..] + [""];
      var line := Trimmed(lines[0]);
      LastBlankOptional(lines[1..], if line == "" then "" else if DataValue(line).Some? then Joined(data, DataValue(line).value) else data);
    }
  }

  lemma {:induction false} TerminatedAppend(a: seq<string>, b: seq<string>)
    ensures Terminated(a + b) == Terminated(a) + Terminated(b)
  {
    if a == [] {
      assert a + b == b;
    } else {
      assert (a + b)[0] == a[0] && (a + b)[1..] == a[1..] + b;
      TerminatedAppend(a[1..], b);
    }
  }

  lemma {:induction false} WireEndsBlank(payloads: seq<string>)
    requires payloads != []
    ensures WireLines(payloads) != [] && WireLines(payloads)[|WireLines(payloads)| - 1] == ""
  {
    if 1 < |payloads| { WireEndsBlank(payloads[1..]); }
  }

  lemma RoundTripWithoutLastBlank(payloads: seq<string>)
    requires payloads != [] && forall i | 0 <= i < |payloads| :: NoReturns(payloads[i])
    ensures var wire := Wire(payloads);
      && wire != "" && wire[|wire| - 1] == '\n'
      && Events(RawLines(wire[..|wire| - 1]), "") == Survivors(payloads)
  {
    var lines := WireLines(payloads);
    WireEndsBlank(payloads);
    var shorter := lines[..|lines| - 1];
    assert lines == shorter + [""];
    TerminatedAppend(shorter, [""]);
    assert [""][1..] == [] && Terminated([""]) == "\n";
    var wire := Wire(payloads);
    assert wire[..|wire| - 1] == Terminated(shorter);
    WireLinesFree(payloads);
    RawLinesOf(shorter);
    LastBlankOptional(shorter, "");
    WireEvents(payloads);
    hide Events, Survivors, WireLines, RawLines, Terminated;
  }

  // Line ends.

  predicate Plain(line: string) {
    line == "" || line[|line| - 1] != '\r'
  }

  function Returns(n: nat): (text: string)
    ensures |text| == n && forall k | 0 <= k < n :: text[k] == '\r'
  {
    seq(n, _ => '\r')
  }

  /** Each line with that many carriage returns after it. */
  function WithReturns(lines: seq<string>, ends: seq<nat>): (wire: seq<string>)
    requires |ends| == |lines|
    ensures |wire| == |lines|
  {
    seq(|lines|, i requires 0 <= i < |lines| => lines[i] + Returns(ends[i]))
  }

  /** Up to two carriage returns at the end of a line are dropped, any others stay. */
  lemma ReturnsDropped(line: string, n: nat)
    requires Plain(line)
    ensures Trimmed(line + Returns(n)) == line + Returns(if n <= 2 then 0 else n - 2)
  {
    var wire := line + Returns(n);
    if 1 <= n { assert wire[..|wire| - 1] == line + Returns(n - 1); }
    if 2 <= n { assert (line + Returns(n - 1))[..|wire| - 2] == line + Returns(n - 2); }
    assert line + Returns(0) == line;
  }

  /** Up to two carriage returns at the end of any lines make no difference. */
  lemma {:induction false} LineEndsIgnored(lines: seq<string>, ends: seq<nat>, data: string)
    requires |ends| == |lines| && forall i | 0 <= i < |lines| :: Plain(lines[i]) && ends[i] <= 2
    ensures Events(WithReturns(lines, ends), data) == Events(lines, data)
    decreases |lines|
  {
    hide Trimmed, DataValue, Joined;
    if lines != [] {
      ReturnsDropped(lines[0], ends[0]);
      ReturnsDropped(lines[0], 0);
      assert lines[0] + Returns(0) == lines[0];
      assert WithReturns(lines, ends)[1..] == WithReturns(lines[1..], ends[1..]);
      var line := Trimmed(lines[0]);
      LineEndsIgnored(lines[1..], ends[1..], if line == "" then "" else if DataValue(line).Some? then Joined(data, DataValue(line).value) else data);
    }
  }

  lemma {:induction false} WireLinesPlain(payloads: seq<string>)
    requires forall i | 0 <= i < |payloads| :: NoReturns(payloads[i])
    ensures forall i | 0 <= i < |WireLines(payloads)| :: Plain(WireLines(payloads)[i])
    decreases |payloads|
  {
    if payloads != [] {
      SplitNewlineFree(payloads[0]);
      DataLinesFree(Split(payloads[0]));
      WireLinesPlain(payloads[1..]);
    }
  }

  /** The round trip with each line ended by a newline after none, one or two carriage returns. */
  lemma RoundTripWithReturns(payloads: seq<string>, ends: seq<nat>)
    requires forall i | 0 <= i < |payloads| :: NoReturns(payloads[i])
    requires |ends| == |WireLines(payloads)| && forall i | 0 <= i < |ends| :: ends[i] <= 2
    ensures Events(RawLines(Terminated(WithReturns(WireLines(payloads), ends))), "") == Survivors(payloads)
  {
    hide Events, Survivors, WireLines, RawLines, Terminated, NoReturns;
    WireLinesFree(payloads);
    WireLinesPlain(payloads);
    RawLinesOf(WithReturns(WireLines(payloads), ends));
    LineEndsIgnored(WireLines(payloads), ends, "");
    WireEvents(payloads);
  }

  // Limits.

  /** What is collected after the lines when `data` was before them. */
  function Pending(lines: seq<string>, data: string): string {
    if lines == [] then data
    else
      var line := Trimmed(lines[0]);
      var value := DataValue(line);
      Pending(lines[1..], if line == "" then "" else if value.Some? then Joined(data, value.value) else data)
  }

  function AllTrimmed(lines: seq<string>): (trimmed: seq<string>)
    ensures |trimmed| == |lines|
  {
    seq(|lines|, i requires 0 <= i < |lines| => Trimmed(lines[i]))
  }

  /** The limits, in closed form: each line is shorter than a frame, what is collected never exceeds a frame, and the
      trimmed lines with their newlines fit the stream. */
  lemma {:induction false} WithinMeans(lines: seq<string>, data: string, total: nat)
    requires |data| <= 4 * 1024 * 1024 && total <= 32 * 1024 * 1024
    ensures Within(lines, data, total) <==>
      && (forall line | line in lines :: |line| < 4 * 1024 * 1024)
      && (forall n | 0 <= n <= |lines| :: |Pending(lines[..n], data)| <= 4 * 1024 * 1024)
      && total + |Terminated(AllTrimmed(lines))| <= 32 * 1024 * 1024
    decreases |lines|
  {
    hide Trimmed, DataValue, Joined;
    if lines != [] {
      var line, rest := Trimmed(lines[0]), lines[1..];
      var next := if line == "" then "" else if DataValue(line).Some? then Joined(data, DataValue(line).value) else data;
      var now := total + |line| + 1;
      assert AllTrimmed(lines)[1..] == AllTrimmed(rest);
      assert lines == [lines[0]] + rest;
      PendingPrefixes(lines, data);
      if |next| <= 4 * 1024 * 1024 && now <= 32 * 1024 * 1024 { WithinMeans(rest, next, now); }
    }
  }

  lemma PendingPrefixes(lines: seq<string>, data: string)
    requires lines != []
    ensures var line := Trimmed(lines[0]);
      var next := if line == "" then "" else if DataValue(line).Some? then Joined(data, DataValue(line).value) else data;
      && (forall n | 0 < n <= |lines| :: Pending(lines[..n], data) == Pending(lines[1..][..n - 1], next))
      && Pending(lines[..0], data) == data && Pending(lines[1..][..0], next) == next
      && forall n | 0 <= n <= |lines[1..]| :: Pending(lines[..n + 1], data) == Pending(lines[1..][..n], next)
  {
    hide Trimmed, DataValue, Joined;
    forall n | 0 < n <= |lines|
      ensures lines[..n][0] == lines[0] && lines[..n][1..] == lines[1..][..n - 1]
    {
      PrefixTail(lines, n);
    }
  }

  lemma {:induction false} SplitBounds(payload: string)
    ensures forall i | 0 <= i < |Split(payload)| :: |Split(payload)[i]| <= |payload|
    decreases |payload|
  {
    var i := FirstNewline(payload);
    if i < |payload| { SplitBounds(payload[i + 1..]); }
  }

  predicate LinesFit(lines: seq<string>) {
    forall i | 0 <= i < |lines| :: |lines[i]| < MAX_STREAM_FRAME_BYTES - 6
  }

  lemma WithinDataStep(line: string, rest: seq<string>, data: string, total: nat)
    requires line == "" || line[|line| - 1] != '\r'
    requires |line| + 6 < MAX_STREAM_FRAME_BYTES && |Joined(data, line)| <= MAX_STREAM_FRAME_BYTES
    requires total + |line| + 7 <= MAX_STREAM_BYTES && Within(rest, Joined(data, line), total + |line| + 7)
    ensures Within(["data: " + line] + rest, data, total)
  {
    var wire := ["data: " + line] + rest;
    DataLineValue(line);
    assert wire[0] == "data: " + line && wire[1..] == rest && |wire[0]| == |line| + 6;
    hide DataValue, Trimmed, Joined;
  }

  lemma WithinBlankStep(rest: seq<string>, data: string, total: nat)
    requires total + 1 <= MAX_STREAM_BYTES && Within(rest, "", total + 1)
    ensures Within([""] + rest, data, total)
  {
    var wire := [""] + rest;
    assert wire[0] == "" && wire[1..] == rest;
  }

  function WireSize(payload: string): nat {
    |Terminated(DataLines(Split(payload)) + [""])|
  }

  lemma WireSizeStep(payload: string)
    ensures WireSize(payload) == |FirstLine(payload)| + if OneLine(payload) then 8 else 7 + WireSize(AfterFirst(payload))
  {
    var line, tail := FirstLine(payload), AfterFirst(payload);
    SplitStep(payload);
    hide Split, DataLines, FirstLine, AfterFirst, OneLine, NewlineFree;
    OneWireLine(line);
    var group := if OneLine(payload) then [""] else DataLines(Split(tail)) + [""];
    assert DataLines(Split(payload)) + [""] == ["data: " + line] + group;
    TerminatedAppend(["data: " + line], group);
    hide Terminated;
  }

  lemma OneWireLine(line: string)
    ensures |Terminated(["data: " + line])| == |line| + 7 && |Terminated([""])| == 1
  {
    assert ["data: " + line][1..] == [] && [""][1..] == [];
  }

  function Room(data: string): nat {
    if data == "" then 0 else |data| + 1
  }

  lemma RoomLeft(data: string, line: string)
    ensures |Joined(data, line)| == Room(data) + |line| && Room(Joined(data, line)) <= Room(data) + |line| + 1
  {}

  lemma PayloadStep(payload: string, data: string, total: nat, rest: seq<string>)
    requires NoReturns(payload) && LinesFit(Split(payload)) && Room(data) + |payload| <= MAX_STREAM_FRAME_BYTES
    requires total + |FirstLine(payload)| + 7 <= MAX_STREAM_BYTES
    requires var more := if OneLine(payload) then [""] + rest else PayloadLines(AfterFirst(payload), rest);
      Within(more, Joined(data, FirstLine(payload)), total + |FirstLine(payload)| + 7)
    ensures Within(PayloadLines(payload, rest), data, total)
  {
    hide Within, NoReturns, Split, DataLines, FirstLine, AfterFirst, OneLine, NewlineFree, LinesFit, Joined, Room, PayloadLines, FirstNewline;
    SplitStep(payload);
    LinesStep(payload);
    RoomLeft(data, FirstLine(payload));
    PayloadWire(payload, rest);
    var more := if OneLine(payload) then [""] + rest else PayloadLines(AfterFirst(payload), rest);
    WithinDataStep(FirstLine(payload), more, data, total);
  }

  lemma PayloadShorter(payload: string, data: string)
    requires Room(data) + |payload| <= MAX_STREAM_FRAME_BYTES
    ensures !OneLine(payload) ==> |AfterFirst(payload)| < |payload|
    ensures !OneLine(payload) ==> Room(Joined(data, FirstLine(payload))) + |AfterFirst(payload)| <= MAX_STREAM_FRAME_BYTES
  {
    SplitStep(payload);
    RoomLeft(data, FirstLine(payload));
    hide Split, DataLines, FirstLine, AfterFirst, OneLine, Joined, Room;
  }

  /** One payload whose lines and total fit is collected within the limits. */
  lemma {:induction false} PayloadWithin(payload: string, data: string, total: nat, rest: seq<string>)
    requires NoReturns(payload) && LinesFit(Split(payload)) && Room(data) + |payload| <= MAX_STREAM_FRAME_BYTES
    requires total + WireSize(payload) <= MAX_STREAM_BYTES && Within(rest, "", total + WireSize(payload))
    ensures Within(PayloadLines(payload, rest), data, total)
    decreases |payload|
  {
    hide Within, NoReturns, Split, FirstLine, AfterFirst, OneLine, LinesFit, WireSize, Joined, Room, PayloadLines, FirstNewline, DataLines, Terminated;
    LinesStep(payload);
    WireSizeStep(payload);
    PayloadShorter(payload, data);
    var now := total + |FirstLine(payload)| + 7;
    if OneLine(payload) {
      WithinBlankStep(rest, Joined(data, FirstLine(payload)), now);
    } else {
      PayloadWithin(AfterFirst(payload), Joined(data, FirstLine(payload)), now, rest);
    }
    PayloadStep(payload, data, total, rest);
  }

  function PayloadLines(payload: string, rest: seq<string>): seq<string> {
    DataLines(Split(payload)) + [""] + rest
  }

  lemma PayloadWire(payload: string, rest: seq<string>)
    ensures PayloadLines(payload, rest) ==
      ["data: " + FirstLine(payload)] + if OneLine(payload) then [""] + rest else PayloadLines(AfterFirst(payload), rest)
  {
    SplitStep(payload);
    hide Split, DataLines, FirstLine, AfterFirst, OneLine, NewlineFree;
  }

  predicate Sized(payload: string) {
    |payload| <= MAX_STREAM_FRAME_BYTES && LinesFit(Split(payload))
  }

  lemma {:induction false} WireWithin(payloads: seq<string>, total: nat)
    requires forall i | 0 <= i < |payloads| :: NoReturns(payloads[i]) && Sized(payloads[i])
    requires total + |Wire(payloads)| <= MAX_STREAM_BYTES
    ensures Within(WireLines(payloads), "", total)
    decreases |payloads|
  {
    if payloads != [] {
      var group := DataLines(Split(payloads[0])) + [""];
      assert WireLines(payloads) == group + WireLines(payloads[1..]);
      TerminatedAppend(group, WireLines(payloads[1..]));
      WireWithin(payloads[1..], total + |Terminated(group)|);
      PayloadWithin(payloads[0], "", total, WireLines(payloads[1..]));
    }
  }

  /** Payloads that fit a frame, in a stream that fits the stream limit, always decode. */
  lemma RoundTripSucceeds(payloads: seq<string>)
    requires forall i | 0 <= i < |payloads| :: NoReturns(payloads[i]) && Sized(payloads[i])
    requires |Wire(payloads)| <= MAX_STREAM_BYTES
    ensures Within(RawLines(Wire(payloads)), "", 0)
  {
    WireLinesFree(payloads);
    RawLinesOf(WireLines(payloads));
    WireWithin(payloads, 0);
  }

  // The WHATWG HTML Living Standard, section 9.2.6, on the same lines.

  /** A field without a colon has an empty value. */
  function StandardValue(line: string): Option<string> {
    if line == "data" then Some("") else DataValue(line)
  }

  /** Each value is buffered with a newline after it; a blank line dispatches a non-empty buffer without its
      last newline; data pending at the end of input is discarded. */
  function StandardEvents(lines: seq<string>, buffer: string): seq<string> {
    if lines == [] then []
    else
      var line := Trimmed(lines[0]);
      if line == "" then (if buffer == "" then [] else [buffer[..|buffer| - 1]]) + StandardEvents(lines[1..], "")
      else
        var value := StandardValue(line);
        StandardEvents(lines[1..], if value.Some? then buffer + value.value + "\n" else buffer)
  }

  /** No blank line follows, and no further value has any content. */
  predicate Quiet(lines: seq<string>) {
    lines == []
    || (var line := Trimmed(lines[0]);
        line != "" && (StandardValue(line).Some? ==> StandardValue(line).value == "") && Quiet(lines[1..]))
  }

  /** Every event starts with a non-empty value, has no bare `data` line and is completed by a blank line;
      only a last event that never gets any content may break this. */
  predicate Exact(lines: seq<string>, data: string) {
    if lines == [] then data == ""
    else
      var line := Trimmed(lines[0]);
      var value := DataValue(line);
      if line == "" then Exact(lines[1..], "")
      else if line == "data" then data == "" && Quiet(lines[1..])
      else if value == None then Exact(lines[1..], data)
      else if data == "" && value.value == "" then Quiet(lines[1..])
      else Exact(lines[1..], Joined(data, value.value))
  }

  predicate AllNewlineFree(lines: seq<string>) {
    forall i | 0 <= i < |lines| :: NewlineFree(lines[i])
  }

  /** Collected data, if any, does not start with a newline. */
  predicate Headed(data: string) {
    data == "" || data[0] != '\n'
  }

  lemma ValueHeaded(line: string, data: string)
    requires NewlineFree(line) && Headed(data)
    ensures DataValue(Trimmed(line)).Some? ==> Headed(Joined(data, DataValue(Trimmed(line)).value))
  {
    var trimmed := Trimmed(line);
    assert forall k | 0 <= k < |trimmed| :: trimmed[k] == line[k];
    if DataValue(trimmed).Some? { JoinedHeaded(data, DataValue(trimmed).value); }
  }

  lemma JoinedHeaded(data: string, value: string)
    requires Headed(data) && Headed(value)
    ensures Headed(Joined(data, value))
  {
    if data != "" { assert Joined(data, value)[0] == data[0]; }
  }

  /** A decoded event is never empty and never starts with a newline. */
  lemma {:induction false} EventsHeaded(lines: seq<string>, data: string)
    requires AllNewlineFree(lines) && Headed(data)
    ensures forall i | 0 <= i < |Events(lines, data)| :: Events(lines, data)[i] != "" && Headed(Events(lines, data)[i])
    decreases |lines|
  {
    hide Trimmed, DataValue, Joined, NewlineFree;
    if lines != [] {
      var line := Trimmed(lines[0]);
      ValueHeaded(lines[0], data);
      EventsHeaded(lines[1..], if line == "" then "" else if DataValue(line).Some? then Joined(data, DataValue(line).value) else data);
    }
  }

  lemma JoinedValue(data: string, value: string)
    ensures Joined(data, value) == "" <==> data == "" && value == ""
    ensures |Joined(data, value)| == (if data == "" then 0 else |data| + 1) + |value|
    ensures data != "" ==> (data + "\n") + value + "\n" == Joined(data, value) + "\n"
    ensures data == "" ==> "" + value + "\n" == Joined(data, value) + "\n"
  {
    assert "" + value == value;
  }

  lemma ValueOfLine(line: string)
    ensures line == "data" ==> DataValue(line) == None && StandardValue(line) == Some("")
    ensures line != "data" ==> StandardValue(line) == DataValue(line)
  {}

  /** A standard buffer that starts with a newline agrees only when neither side emits anything. */
  lemma {:induction false} NewlineFirst(lines: seq<string>, data: string, buffer: string)
    requires AllNewlineFree(lines) && Headed(data) && buffer != "" && buffer[0] == '\n'
    ensures Events(lines, data) == StandardEvents(lines, buffer) <==> data == "" && Quiet(lines)
    decreases |lines|
  {
    hide Trimmed, DataValue, Joined, NewlineFree, StandardValue;
    if lines != [] {
      var line, rest := Trimmed(lines[0]), lines[1..];
      EventsHeaded(lines, data);
      if line == "" {
        assert StandardEvents(lines, buffer)[0] == buffer[..|buffer| - 1];
      } else {
        ValueHeaded(lines[0], data);
        ValueOfLine(line);
        if DataValue(line).Some? {
          JoinedValue(data, DataValue(line).value);
          NewlineFirst(rest, Joined(data, DataValue(line).value), buffer + DataValue(line).value + "\n");
        } else if line == "data" {
          NewlineFirst(rest, data, buffer + "" + "\n");
        } else {
          NewlineFirst(rest, data, buffer);
        }
      }
    }
  }

  /** A buffer longer than the collected data and one newline never agrees again. */
  lemma {:induction false} BufferLonger(lines: seq<string>, data: string, buffer: string)
    requires data != "" && |data| + 1 < |buffer|
    ensures Events(lines, data) != StandardEvents(lines, buffer)
    decreases |lines|
  {
    hide Trimmed, DataValue, Joined, StandardValue;
    if lines != [] {
      var line, rest := Trimmed(lines[0]), lines[1..];
      if line == "" {
        assert Events(lines, data)[0] == data && StandardEvents(lines, buffer)[0] == buffer[..|buffer| - 1];
      } else {
        ValueOfLine(line);
        if DataValue(line).Some? {
          JoinedValue(data, DataValue(line).value);
          BufferLonger(rest, Joined(data, DataValue(line).value), buffer + DataValue(line).value + "\n");
        } else if line == "data" {
          BufferLonger(rest, data, buffer + "" + "\n");
        } else {
          BufferLonger(rest, data, buffer);
        }
      }
    }
  }

  lemma SameHead(head: seq<string>, a: seq<string>, b: seq<string>)
    ensures head + a == head + b <==> a == b
  {
    assert (head + a)[|head|..] == a && (head + b)[|head|..] == b;
  }

  function BufferOf(data: string): string {
    if data == "" then "" else data + "\n"
  }

  lemma BlankAgrees(lines: seq<string>, data: string)
    requires lines != [] && Trimmed(lines[0]) == ""
    ensures Events(lines, data) == StandardEvents(lines, BufferOf(data)) <==> Events(lines[1..], "") == StandardEvents(lines[1..], "")
  {
    if data != "" { assert BufferOf(data)[..|BufferOf(data)| - 1] == data; }
    SameHead(Emitted(data), Events(lines[1..], ""), StandardEvents(lines[1..], ""));
  }

  /** From any point of a stream the decoder and the standard yield the same events if and only if the rest is exact. */
  lemma {:induction false} AgreesFrom(lines: seq<string>, data: string)
    requires AllNewlineFree(lines) && Headed(data)
    ensures Events(lines, data) == StandardEvents(lines, BufferOf(data)) <==> Exact(lines, data)
    decreases |lines|
  {
    hide Trimmed, DataValue, Joined, NewlineFree, StandardValue, Quiet;
    if lines != [] {
      var line, rest := Trimmed(lines[0]), lines[1..];
      ValueHeaded(lines[0], data);
      ValueOfLine(line);
      if line == "" {
        BlankAgrees(lines, data);
        AgreesFrom(rest, "");
      } else if line == "data" {
        if data == "" { NewlineFirst(rest, "", "" + "" + "\n"); } else { BufferLonger(rest, data, BufferOf(data) + "" + "\n"); }
      } else if DataValue(line) == None {
        AgreesFrom(rest, data);
      } else {
        var value := DataValue(line).value;
        JoinedValue(data, value);
        if data == "" && value == "" { NewlineFirst(rest, "", "" + "" + "\n"); } else { AgreesFrom(rest, Joined(data, value)); }
      }
    }
  }

  lemma {:induction false} RawLinesFree(text: string)
    ensures AllNewlineFree(RawLines(text))
    decreases |text|
  {
    var i := FirstNewline(text);
    if text != "" && i < |text| { RawLinesFree(text[i + 1..]); }
  }

  /** On any input the decoder yields the events of the standard if and only if the input is exact. */
  lemma AgreesWithStandard(text: string)
    ensures Events(RawLines(text), "") == StandardEvents(RawLines(text), "") <==> Exact(RawLines(text), "")
  {
    hide Events, StandardEvents, Exact, RawLines, AllNewlineFree;
    RawLinesFree(text);
    AgreesFrom(RawLines(text), "");
  }

  /** A leading empty value: the standard keeps its newline, the decoder drops it. */
  lemma LeadingEmptyValueDiffers()
    ensures Events(["data:", "data: x", ""], "") == ["x"]
    ensures StandardEvents(["data:", "data: x", ""], "") == ["\nx"]
  {
    var lines := ["data:", "data: x", ""];
    assert lines[1..] == ["data: x", ""] && lines[1..][1..] == [""] && lines[1..][1..][1..] == [];
    assert "data:"[..5] == "data:" && "data:"[5..] == "";
    assert Trimmed("data:") == "data:" && DataValue("data:") == Some("");
    assert Trimmed("data: x") == "data: x" && DataValue("data: x") == Some("x");
    assert Events(lines[1..], "") == ["x"] by { assert Events([""], "x") == ["x"]; }
    assert "" + "" + "\n" == "\n" && "\n" + "x" + "\n" == "\nx\n" && "\nx\n"[..2] == "\nx";
    assert StandardEvents([""], "\nx\n") == ["\nx"];
  }

  /** Data pending at the end of input: the standard discards it, the decoder delivers it. */
  lemma PendingDataDiffers()
    ensures Events(["data: x"], "") == ["x"] && StandardEvents(["data: x"], "") == []
  {
    var lines := ["data: x"];
    assert lines[1..] == [] && Trimmed("data: x") == "data: x" && DataValue("data: x") == Some("x");
  }
}
