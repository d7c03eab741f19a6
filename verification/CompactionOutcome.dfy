/** When a confirmed compaction is carried out, and which refusal it gives otherwise. */
module CompactionOutcome {
  import opened Options
  import opened Ordering
  import opened Tables
  import opened Transactions
  import opened Retention
  import opened Invariant
  import opened Compaction
  import opened Fencing
  import opened Outcomes

  ghost predicate ProperCompaction(request: CompactRequest) {
    && Indexable(request.run) && request.before != ZERO_TIME && request.allowHistoryLoss
    && 0 <= request.limit <= 10000 && 0 <= request.byteLimit <= 1024 * 1024 * 1024
  }

  /** The run has an event of that sequence. */
  ghost predicate HasSequence(d: Db, run: RunId, sequence: int) {
    exists o :: o in d.events && d.events[o].runId == run && d.events[o].sequence == sequence
  }

  /** The run has an event of that sequence, appended before the cutoff. */
  ghost predicate HasOldSequence(d: Db, run: RunId, sequence: int, before: Time) {
    exists o :: o in d.events && o in d.retention && d.events[o].runId == run && d.events[o].sequence == sequence && d.retention[o].appendedAt < before
  }

  /** The `n` events after the floor are there and old enough, and leave room for more bytes. */
  ghost predicate Compactable(codec: Codec, d: Db, run: RunId, w: Window, n: nat) {
    && (forall sequence | w.floor < sequence <= w.floor + n :: HasOldSequence(d, run, sequence, w.before))
    && SumOver(RangeOrdinals(d, run, w.floor, w.floor + n), EventSize(codec, d)) < w.bytes
  }

  /** A sequence is missing before the compaction has reached a limit or a younger event, though a later confirmed one is
      there. */
  ghost predicate Gap(codec: Codec, d: Db, run: RunId, w: Window) {
    exists n: nat :: n < w.limit && Compactable(codec, d, run, w, n) && !HasSequence(d, run, w.floor + n + 1)
      && exists sequence :: w.floor + n + 1 < sequence <= w.confirmed && HasSequence(d, run, sequence)
  }

  /** Where the contiguous count finds a gap. */
  ghost predicate GapAt(cs: seq<ConfirmedCandidate>, expected: int, before: Time, bytes: int, n: nat) {
    && n < |cs| && cs[n].sequence != expected + n && ConfirmedBytes(cs[..n]) < bytes
    && forall i | 0 <= i < n :: cs[i].sequence == expected + i && cs[i].appendedAt < before
  }

  lemma {:induction false} CountFails(cs: seq<ConfirmedCandidate>, floor: int, expected: int, before: Time, bytes: int)
    requires 0 < bytes && forall i | 0 <= i < |cs| :: 0 < cs[i].size
    ensures ContiguousCount(cs, floor, expected, before, bytes).Err? <==> exists n :: GapAt(cs, expected, before, bytes, n)
    decreases |cs|
  {
    if cs != [] {
      assert cs[..0] == [] && ConfirmedBytes([]) == 0;
      if cs[0].sequence != expected {
        assert GapAt(cs, expected, before, bytes, 0);
      } else {
        var rest := cs[1..];
        forall n: nat | 0 < n <= |cs| ensures ConfirmedBytes(cs[..n]) == cs[0].size + ConfirmedBytes(rest[..n - 1]) {
          assert cs[..n][0] == cs[0] && cs[..n][1..] == rest[..n - 1];
        }
        forall n: nat ensures GapAt(cs, expected, before, bytes, n) <==>
          0 < n && cs[0].appendedAt < before && cs[0].size < bytes && GapAt(rest, expected + 1, before, bytes - cs[0].size, n - 1)
        {
          GapMoves(cs, expected, before, bytes, n);
        }
        if cs[0].appendedAt < before && cs[0].size < bytes {
          var following, left := expected + 1, bytes - cs[0].size;
          CountFails(rest, floor, following, before, left);
          if n: nat :| GapAt(rest, following, before, left, n) { assert GapAt(cs, expected, before, bytes, n + 1); }
        }
      }
    }
  }

  lemma GapMoves(cs: seq<ConfirmedCandidate>, expected: int, before: Time, bytes: int, n: nat)
    requires cs != [] && cs[0].sequence == expected
    requires forall m: nat | 0 < m <= |cs| :: ConfirmedBytes(cs[..m]) == cs[0].size + ConfirmedBytes(cs[1..][..m - 1])
    ensures GapAt(cs, expected, before, bytes, n) <==>
      0 < n && cs[0].appendedAt < before && cs[0].size < bytes && GapAt(cs[1..], expected + 1, before, bytes - cs[0].size, n - 1)
  {
    hide ConfirmedBytes;
    var rest := cs[1..];
    assert forall i | 0 <= i < |rest| :: rest[i] == cs[i + 1];
    if 0 < n && GapAt(rest, expected + 1, before, bytes - cs[0].size, n - 1) {
      forall i | 0 <= i < n ensures cs[0].appendedAt < before ==> cs[i].sequence == expected + i && cs[i].appendedAt < before {
        if 0 < i { assert rest[i - 1] == cs[i]; }
      }
    }
    if GapAt(cs, expected, before, bytes, n) {
      assert 0 < n && rest[n - 1] == cs[n] && cs[0].appendedAt < before;
      forall i | 0 <= i < n - 1 ensures rest[i].sequence == expected + 1 + i && rest[i].appendedAt < before { assert rest[i] == cs[i + 1]; }
    }
  }

  lemma PrefixBytes(codec: Codec, d: Db, run: RunId, w: Window, cs: seq<ConfirmedCandidate>, n: nat)
    requires Valid(codec, d) && CandidateList(codec, d, run, w, cs) && n <= |cs|
    requires forall i | 0 <= i < n :: cs[i].sequence == w.floor + 1 + i
    ensures ConfirmedBytes(cs[..n]) == SumOver(RangeOrdinals(d, run, w.floor, w.floor + n), EventSize(codec, d))
  {
    hide Valid, SumOver, ConfirmedBytes, RangeOrdinals;
    CandidateSequence(codec, d, run, w, cs);
    SpanBytes(codec, d, run, w.floor, cs[..n]);
  }

  lemma SpanBytes(codec: Codec, d: Db, run: RunId, floor: int, selected: seq<ConfirmedCandidate>)
    requires Valid(codec, d)
    requires forall i | 0 <= i < |selected| ::
      && selected[i].ordinal in d.events && d.events[selected[i].ordinal].runId == run
      && selected[i].sequence == floor + 1 + i == d.events[selected[i].ordinal].sequence
      && selected[i].size == codec.recordSize(d.events[selected[i].ordinal])
    ensures ConfirmedBytes(selected) == SumOver(RangeOrdinals(d, run, floor, floor + |selected|), EventSize(codec, d))
  {
    Retains(codec, d);
    UniqueSequences(codec, d);
    forall i | 0 <= i < |selected| ensures selected[i].ordinal in OrdinalsOf(d, run) {}
    hide Valid, SumOver, ConfirmedBytes, RangeOrdinals, ConfirmedIds, EventsRetained, SequencesUnique, OrdinalsOf;
    SelectedRange(codec, d, run, floor, selected);
    SelectedBytes(codec, d, selected);
  }

  lemma ConfirmedMember(codec: Codec, d: Db, run: RunId, w: Window, o: Ordinal)
    requires Valid(codec, d) && o in d.events && d.events[o].runId == run && w.floor < d.events[o].sequence <= w.confirmed
    ensures o in ConfirmedOrdinals(d, run, w.floor, w.confirmed)
  {}

  lemma CandidateSequence(codec: Codec, d: Db, run: RunId, w: Window, cs: seq<ConfirmedCandidate>)
    requires CandidateList(codec, d, run, w, cs)
    ensures forall i | 0 <= i < |cs| ::
      && cs[i].ordinal in d.events && d.events[cs[i].ordinal].runId == run && cs[i].ordinal in d.retention && w.floor < cs[i].sequence <= w.confirmed
      && cs[i].sequence == d.events[cs[i].ordinal].sequence && cs[i].appendedAt == d.retention[cs[i].ordinal].appendedAt
      && 0 < cs[i].size == codec.recordSize(d.events[cs[i].ordinal])
  {
    forall i | 0 <= i < |cs| ensures cs[i].ordinal in ConfirmedOrdinals(d, run, w.floor, w.confirmed) {}
  }

  lemma NextFound(codec: Codec, d: Db, run: RunId, w: Window, cs: seq<ConfirmedCandidate>, n: nat, o: Ordinal)
    requires Valid(codec, d) && CandidateList(codec, d, run, w, cs) && n <= |cs| && n < w.limit
    requires forall i | 0 <= i < n :: cs[i].sequence == w.floor + 1 + i
    requires o in d.events && d.events[o].runId == run && d.events[o].sequence == w.floor + n + 1 <= w.confirmed
    ensures n < |cs| && cs[n].ordinal == o
  {
    ConfirmedMember(codec, d, run, w, o);
    CandidateSequence(codec, d, run, w, cs);
    hide Valid, ConfirmedOrdinals;
    NextCandidate(cs, w.floor, n, w.limit, o, w.floor + n + 1);
  }

  lemma CandidatesAscend(codec: Codec, d: Db, run: RunId, w: Window, cs: seq<ConfirmedCandidate>)
    requires CandidateList(codec, d, run, w, cs)
    ensures |cs| <= w.limit && forall i, j | 0 <= i < j < |cs| :: cs[i].sequence < cs[j].sequence
  {}

  lemma FoundGapIsGap(codec: Codec, d: Db, run: RunId, w: Window, cs: seq<ConfirmedCandidate>, n: nat)
    requires Valid(codec, d) && CandidateList(codec, d, run, w, cs) && GapAt(cs, w.floor + 1, w.before, w.bytes, n)
    ensures Gap(codec, d, run, w)
  {
    hide Valid, ConfirmedBytes, SumOver, OrdinalsOf, RangeOrdinals, CandidateList;
    PrefixBytes(codec, d, run, w, cs, n);
    CandidateSequence(codec, d, run, w, cs);
    CandidatesAscend(codec, d, run, w, cs);
    forall sequence | w.floor < sequence <= w.floor + n ensures HasOldSequence(d, run, sequence, w.before) {
      assert cs[sequence - w.floor - 1].sequence == sequence;
    }
    assert n == 0 || cs[n - 1].sequence < cs[n].sequence;
    assert w.floor + n + 1 < cs[n].sequence && HasSequence(d, run, cs[n].sequence);
    forall o | o in d.events && d.events[o].runId == run ensures d.events[o].sequence != w.floor + n + 1 {
      if d.events[o].sequence == w.floor + n + 1 { NextFound(codec, d, run, w, cs, n, o); }
    }
    assert !HasSequence(d, run, w.floor + n + 1) && Compactable(codec, d, run, w, n) && n < w.limit;
  }

  lemma {:induction false} CandidatesContinue(codec: Codec, d: Db, run: RunId, w: Window, cs: seq<ConfirmedCandidate>, n: nat)
    requires Valid(codec, d) && CandidateList(codec, d, run, w, cs) && n <= w.limit && w.floor + n <= w.confirmed
    requires forall sequence | w.floor < sequence <= w.floor + n :: HasOldSequence(d, run, sequence, w.before)
    ensures n <= |cs| && forall i | 0 <= i < n :: cs[i].sequence == w.floor + 1 + i && cs[i].appendedAt < w.before
    decreases n
  {
    hide Valid, OrdinalsOf, CandidateList;
    if 0 < n {
      CandidatesContinue(codec, d, run, w, cs, n - 1);
      assert HasOldSequence(d, run, w.floor + n, w.before);
      var o :| o in d.events && o in d.retention && d.events[o].runId == run && d.events[o].sequence == w.floor + n
        && d.retention[o].appendedAt < w.before;
      NextFound(codec, d, run, w, cs, n - 1, o);
      CandidateSequence(codec, d, run, w, cs);
    }
  }

  lemma MoreCandidates(codec: Codec, d: Db, run: RunId, w: Window, cs: seq<ConfirmedCandidate>, n: nat, o: Ordinal)
    requires Valid(codec, d) && CandidateList(codec, d, run, w, cs) && n <= |cs| && n < w.limit
    requires forall i | 0 <= i < n :: cs[i].sequence == w.floor + 1 + i
    requires o in d.events && d.events[o].runId == run && w.floor + n < d.events[o].sequence <= w.confirmed
    ensures n < |cs|
  {
    ConfirmedMember(codec, d, run, w, o);
    hide Valid, ConfirmedOrdinals;
  }

  lemma GapIsFound(codec: Codec, d: Db, run: RunId, w: Window, cs: seq<ConfirmedCandidate>) returns (n: nat)
    requires Valid(codec, d) && CandidateList(codec, d, run, w, cs) && Gap(codec, d, run, w)
    ensures GapAt(cs, w.floor + 1, w.before, w.bytes, n)
  {
    hide Valid, ConfirmedBytes, SumOver, RangeOrdinals, HasOldSequence, CandidateList;
    n :| n < w.limit && Compactable(codec, d, run, w, n) && !HasSequence(d, run, w.floor + n + 1)
      && exists sequence :: w.floor + n + 1 < sequence <= w.confirmed && HasSequence(d, run, sequence);
    CandidatesContinue(codec, d, run, w, cs, n);
    PrefixBytes(codec, d, run, w, cs, n);
    CandidateSequence(codec, d, run, w, cs);
    var sequence :| w.floor + n + 1 < sequence <= w.confirmed && HasSequence(d, run, sequence);
    var o :| o in d.events && d.events[o].runId == run && d.events[o].sequence == sequence;
    MoreCandidates(codec, d, run, w, cs, n, o);
    assert HasSequence(d, run, cs[n].sequence);
  }

  lemma SelectionFails(codec: Codec, d: Db, run: RunId, w: Window)
    requires Valid(codec, d) && 0 < w.bytes && 0 < w.limit
    ensures var cs := ConfirmedCandidates(codec, d, run, w.floor, w.confirmed, w.limit);
      && (cs == [] <==> forall sequence | w.floor < sequence <= w.confirmed :: !HasSequence(d, run, sequence))
      && (ContiguousCount(cs, w.floor, w.floor + 1, w.before, w.bytes).Err? <==> Gap(codec, d, run, w))
  {
    hide ConfirmedCandidates, ContiguousCount, Gap, CheckpointSide, RowsSized, EventsRetained, RegistryConsistent, EventsRegistered, SequencesUnique, OrdinalsOf;
    CandidatesMeaning(codec, d, run, w);
    var cs := ConfirmedCandidates(codec, d, run, w.floor, w.confirmed, w.limit);
    CandidateSequence(codec, d, run, w, cs);
    var first := w.floor + 1;
    CountFails(cs, w.floor, first, w.before, w.bytes);
    if n: nat :| GapAt(cs, first, w.before, w.bytes, n) { FoundGapIsGap(codec, d, run, w, cs, n); }
    if Gap(codec, d, run, w) { var n := GapIsFound(codec, d, run, w, cs); }
    if cs == [] {
      forall sequence | w.floor < sequence <= w.confirmed ensures !HasSequence(d, run, sequence) {
        if o :| o in d.events && d.events[o].runId == run && d.events[o].sequence == sequence { ConfirmedMember(codec, d, run, w, o); }
      }
    } else {
      assert HasSequence(d, run, cs[0].sequence);
    }
  }

  /** What is compacted at most: above the floor, up to the confirmed sequence, within both limits and the cutoff. */
  ghost function Range(d: Db, c: Checkpoint, request: CompactRequest): Window
    requires 0 <= request.limit && 0 <= request.byteLimit
  {
    Window(FloorOf(d, request.run), c.confirmedSequence, if request.limit == 0 then 1000 else request.limit,
           if request.byteLimit == 0 then 64 * 1024 * 1024 else request.byteLimit, request.before)
  }

  /** A compaction is carried out exactly for a proper request on a live workflow run without a pending event whose
      confirmed range is empty, or holds some event and shows no gap before a limit or a younger event is reached. */
  lemma CompactOutcome(codec: Codec, d: Db, request: CompactRequest)
    requires Valid(codec, d)
    ensures var r, c := Retention.Compact(codec, d, request), Current(d, request.run);
      var proper, floor := ProperCompaction(request), FloorOf(d, request.run);
      && (r == Err(InvalidRequest) <==> !proper)
      && (r == Err(NotActiveWorkflow) <==> proper && c.None?)
      && (r == Err(TerminalRun) <==> proper && c.Some? && c.value.status !in {Running, Interrupted})
      && (r == Err(PendingEvent) <==> proper && c.Some? && c.value.status in {Running, Interrupted} && c.value.pendingSequence != 0)
      && (proper && c.Some? && c.value.status in {Running, Interrupted} && c.value.pendingSequence == 0 ==>
            var w := Range(d, c.value, request);
            var any := exists sequence :: floor < sequence <= w.confirmed && HasSequence(d, request.run, sequence);
            && (r == Err(MissingSequence(floor + 1)) <==> floor < w.confirmed && !any)
            && (r == Err(SequenceGap(floor)) <==> floor < w.confirmed && Gap(codec, d, request.run, w))
            && (r.Ok? <==> w.confirmed <= floor || (any && !Gap(codec, d, request.run, w))))
  {
    IndexableIsValid(request.run);
    CurrentIsLatest(codec, d, request.run);
    hide Valid, Indexable, ValidIndexedId, DeleteConfirmed, ContiguousCount, ConfirmedCandidates, HasSequence, Gap, Current, Range;
    var c := Current(d, request.run);
    if ProperCompaction(request) && c.Some? {
      SelectionOutcome(codec, d, request);
    }
  }

  /** The head matches, the window is the range, and nothing fails once a selection is made. */
  lemma SelectionOutcome(codec: Codec, d: Db, request: CompactRequest)
    requires Valid(codec, d) && ValidCompactRequest(request) && Current(d, request.run).Some?
    ensures var r, c, run := Retention.Compact(codec, d, request), Current(d, request.run).value, request.run;
      var w := Range(d, c, request);
      var cs := ConfirmedCandidates(codec, d, run, w.floor, w.confirmed, w.limit);
      var count := ContiguousCount(cs, w.floor, w.floor + 1, w.before, w.bytes);
      && (c.status !in {Running, Interrupted} ==> r == Err(TerminalRun))
      && (c.status in {Running, Interrupted} && c.pendingSequence != 0 ==> r == Err(PendingEvent))
      && (c.status in {Running, Interrupted} && c.pendingSequence == 0 ==>
            && (w.confirmed <= w.floor ==> r.Ok?)
            && (w.floor < w.confirmed && cs == [] ==> r == Err(MissingSequence(w.floor + 1)))
            && (w.floor < w.confirmed && cs != [] ==> if count.Err? then r == Err(SequenceGap(w.floor)) else r.Ok?))
      && (cs == [] <==> forall sequence | w.floor < sequence <= w.confirmed :: !HasSequence(d, run, sequence))
      && (count.Err? <==> Gap(codec, d, run, w))
  {
    hide Valid, ContiguousCount, ConfirmedCandidates, HasSequence, Gap, Current, Retention.Compact;
    SelectionFails(codec, d, request.run, Range(d, Current(d, request.run).value, request));
    CompactCases(codec, d, request);
  }

  lemma CompactCases(codec: Codec, d: Db, request: CompactRequest)
    requires Valid(codec, d) && ValidCompactRequest(request) && Current(d, request.run).Some?
    ensures var r, c, run := Retention.Compact(codec, d, request), Current(d, request.run).value, request.run;
      var w := Range(d, c, request);
      var cs := ConfirmedCandidates(codec, d, run, w.floor, w.confirmed, w.limit);
      var count := ContiguousCount(cs, w.floor, w.floor + 1, w.before, w.bytes);
      if c.status !in {Running, Interrupted} then r == Err(TerminalRun)
      else if c.pendingSequence != 0 then r == Err(PendingEvent)
      else if w.confirmed <= w.floor then r.Ok?
      else if cs == [] then r == Err(MissingSequence(w.floor + 1))
      else if count.Err? then r == Err(SequenceGap(w.floor))
      else r.Ok?
  {
    var c, run := Current(d, request.run).value, request.run;
    var w := Range(d, c, request);
    SelectionCases(codec, d, request);
    Retains(codec, d);
    UniqueSequences(codec, d);
    LiveRun(codec, d, run);
    hide Valid, DeleteConfirmed, ContiguousCount, ConfirmedCandidates, Prefix, Longest, RefusalExpected, Latest, Versions,
      CompactedExactly, EventsRetained, SequencesUnique, Current, CompactSelection, Range;
    CompactSelectionMeaning(codec, d, request);
    var selection := CompactSelection(codec, d, request);
    if selection.Ok? { PrefixCommits(codec, d, request, selection.value); }
  }

  lemma LiveRun(codec: Codec, d: Db, run: RunId)
    requires Valid(codec, d) && Current(d, run).Some?
    ensures ActiveWorkflow(d, run) && run in d.heads && Versions(d, run) != {} && Current(d, run) == Some(Latest(d, run))
    ensures Latest(d, run).runId == run && d.heads[run] == HeadOf(Latest(d, run))
  {
    CurrentIsLatest(codec, d, run);
    HeadIsLatest(codec, d, run);
  }

  lemma SelectionCases(codec: Codec, d: Db, request: CompactRequest)
    requires Valid(codec, d) && ValidCompactRequest(request) && Current(d, request.run).Some?
    ensures var r, c, run := CompactSelection(codec, d, request), Current(d, request.run).value, request.run;
      var w := Range(d, c, request);
      var cs := ConfirmedCandidates(codec, d, run, w.floor, w.confirmed, w.limit);
      var count := ContiguousCount(cs, w.floor, w.floor + 1, w.before, w.bytes);
      if c.status !in {Running, Interrupted} then r == Err(TerminalRun)
      else if c.pendingSequence != 0 then r == Err(PendingEvent)
      else if w.confirmed <= w.floor then r.Ok?
      else if cs == [] then r == Err(MissingSequence(w.floor + 1))
      else if count.Err? then r == Err(SequenceGap(w.floor))
      else r.Ok?
  {
    hide Valid, ContiguousCount, ConfirmedCandidates, Latest, Versions, Current, Range, OrDefault, HeadOf;
    var run := request.run;
    LiveRun(codec, d, run);
    RangeIs(d, Current(d, run).value, request);
    var w := Range(d, Current(d, run).value, request);
    GapError(ConfirmedCandidates(codec, d, run, w.floor, w.confirmed, w.limit), w);
  }

  lemma RangeIs(d: Db, c: Checkpoint, request: CompactRequest)
    requires ValidCompactRequest(request) && request.run in d.registry
    ensures var w := Range(d, c, request);
      && w.floor == d.registry[request.run].floor && w.confirmed == c.confirmedSequence && w.before == request.before
      && w.limit == OrDefault(request.limit, DEFAULT_PURGE_ROW_LIMIT) && w.bytes == OrDefault(request.byteLimit, DEFAULT_PURGE_BYTE_LIMIT)
  {}

  lemma UniqueSequences(codec: Codec, d: Db)
    requires Valid(codec, d)
    ensures SequencesUnique(d)
  {}
}
