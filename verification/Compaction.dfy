/** Confirmed compaction is exact: it deletes sequences floor+1 .. floor+n and nothing else. */
module Compaction {
  import opened Ordering
  import opened Tables
  import opened Transactions
  import opened Retention
  import opened Protocol
  import opened Invariant
  import opened RetentionInvariant

  function ConfirmedBytes(cs: seq<ConfirmedCandidate>): (total: nat)
  {
    if cs == [] then 0 else cs[0].size + ConfirmedBytes(cs[1..])
  }

  /** The kept prefix continues the sequence, is old enough and fits; it ends only at the end of the
      list, at a young event, or where one more event would exceed the byte limit. */
  lemma {:induction false} ContiguousCountIsLongest(cs: seq<ConfirmedCandidate>, floor: int, expected: int, before: Time, limit: int)
    requires 0 <= limit && forall i | 0 <= i < |cs| :: 0 < cs[i].size
    ensures var r := ContiguousCount(cs, floor, expected, before, limit);
      r.Ok? ==>
        && (forall i | 0 <= i < r.value :: cs[i].sequence == expected + i && cs[i].appendedAt < before)
        && ConfirmedBytes(cs[..r.value]) <= limit
        && (r.value < |cs| ==> before <= cs[r.value].appendedAt || limit < ConfirmedBytes(cs[..r.value]) + cs[r.value].size)
    decreases |cs|
  {
    if cs != [] && cs[0].sequence == expected && cs[0].appendedAt < before && cs[0].size <= limit {
      assert cs[..1][1..] == [];
      if cs[0].size < limit {
        var r := ContiguousCount(cs[1..], floor, expected + 1, before, limit - cs[0].size);
        ContiguousCountIsLongest(cs[1..], floor, expected + 1, before, limit - cs[0].size);
        if r.Ok? {
          assert cs[..r.value + 1][1..] == cs[1..][..r.value];
          assert forall i | 1 <= i < r.value + 1 :: cs[i] == cs[1..][i - 1];
        }
      }
    }
  }

  datatype Window = Window(floor: int, confirmed: int, limit: nat, bytes: nat, before: Time)

  /** Candidates copy event and retention rows in sequence order, cut off at the limit. */
  ghost predicate CandidateList(codec: Codec, d: Db, run: RunId, w: Window, cs: seq<ConfirmedCandidate>) {
    && |cs| <= w.limit
    && (forall i | 0 <= i < |cs| ::
          && cs[i].ordinal in ConfirmedOrdinals(d, run, w.floor, w.confirmed)
          && cs[i] == ConfirmedCandidate(cs[i].ordinal, d.events[cs[i].ordinal].sequence,
                                         codec.recordSize(d.events[cs[i].ordinal]), d.retention[cs[i].ordinal].appendedAt))
    && (forall i, j | 0 <= i < j < |cs| :: cs[i].sequence < cs[j].sequence)
    && (forall o | o in ConfirmedOrdinals(d, run, w.floor, w.confirmed) ::
          (exists i :: 0 <= i < |cs| && cs[i].ordinal == o)
          || (|cs| == w.limit && forall i | 0 <= i < |cs| :: cs[i].sequence < d.events[o].sequence))
  }

  lemma CandidatesMeaning(codec: Codec, d: Db, run: RunId, w: Window)
    requires SequencesUnique(d)
    ensures CandidateList(codec, d, run, w, ConfirmedCandidates(codec, d, run, w.floor, w.confirmed, w.limit))
  {
    BySequenceIsTotal(d.events);
    var all := Sorted(ConfirmedOrdinals(d, run, w.floor, w.confirmed), BySequence(d.events));
    SortedCovers(d, ConfirmedOrdinals(d, run, w.floor, w.confirmed), all);
    CandidatesCover(codec, d, run, w, all, ConfirmedCandidates(codec, d, run, w.floor, w.confirmed, w.limit));
  }

  lemma SortedCovers(d: Db, source: set<Ordinal>, all: seq<Ordinal>)
    requires SequencesUnique(d) && Elements(all) == source && Ascending(all, BySequence(d.events))
    requires source <= d.events.Keys
    requires forall a, b | a in source && b in source :: d.events[a].runId == d.events[b].runId
    ensures forall i | 0 <= i < |all| :: all[i] in source && all[i] in d.events
    ensures forall i, j | 0 <= i < j < |all| :: d.events[all[i]].sequence < d.events[all[j]].sequence
    ensures forall o | o in source :: exists i :: 0 <= i < |all| && all[i] == o
  {
    forall i | 0 <= i < |all| ensures all[i] in source && all[i] in d.events { assert all[i] in Elements(all); assert all[i] in source; }
    forall i, j | 0 <= i < j < |all| ensures d.events[all[i]].sequence < d.events[all[j]].sequence {
      assert BySequence(d.events)(all[i], all[j]);
    }
    forall o | o in source ensures exists i :: 0 <= i < |all| && all[i] == o { assert o in Elements(all); }
  }

  lemma CandidatesCover(codec: Codec, d: Db, run: RunId, w: Window, all: seq<Ordinal>, cs: seq<ConfirmedCandidate>)
    requires forall i | 0 <= i < |all| ::
      all[i] in ConfirmedOrdinals(d, run, w.floor, w.confirmed) && all[i] in d.events && all[i] in d.retention
    requires |cs| <= |all| && |cs| <= w.limit && (|cs| == w.limit || |cs| == |all|)
    requires forall i | 0 <= i < |cs| ::
      cs[i] == ConfirmedCandidate(all[i], d.events[all[i]].sequence, codec.recordSize(d.events[all[i]]), d.retention[all[i]].appendedAt)
    requires forall i, j | 0 <= i < j < |all| :: d.events[all[i]].sequence < d.events[all[j]].sequence
    requires forall o | o in ConfirmedOrdinals(d, run, w.floor, w.confirmed) :: exists i :: 0 <= i < |all| && all[i] == o
    ensures CandidateList(codec, d, run, w, cs)
  {
    forall o | o in ConfirmedOrdinals(d, run, w.floor, w.confirmed)
      ensures (exists i :: 0 <= i < |cs| && cs[i].ordinal == o)
           || (|cs| == w.limit && forall i | 0 <= i < |cs| :: cs[i].sequence < d.events[o].sequence)
    {
      var k :| 0 <= k < |all| && all[k] == o;
      if k < |cs| { assert cs[k].ordinal == o; }
    }
  }

  function RangeOrdinals(d: Db, run: RunId, floor: int, through: int): set<Ordinal> {
    set o | o in OrdinalsOf(d, run) && floor < d.events[o].sequence <= through
  }

  lemma IdsAreDistinct(selected: seq<ConfirmedCandidate>)
    requires forall i, j | 0 <= i < j < |selected| :: selected[i].ordinal != selected[j].ordinal
    ensures |ConfirmedIds(selected)| == |selected|
  {
    var ordinals := seq(|selected|, i requires 0 <= i < |selected| => selected[i].ordinal);
    forall x ensures x in ConfirmedIds(selected) <==> x in ordinals {
      if x in ConfirmedIds(selected) {
        var i :| 0 <= i < |selected| && selected[i].ordinal == x;
        assert ordinals[i] == x;
      }
      if x in ordinals {
        var i :| 0 <= i < |ordinals| && ordinals[i] == x;
        assert selected[i] in selected;
      }
    }
    DistinctSize(ordinals, ConfirmedIds(selected));
  }

  /** A selected prefix is the whole stored range it spans, one event per sequence. */
  lemma SelectedRange(codec: Codec, d: Db, run: RunId, floor: int, selected: seq<ConfirmedCandidate>)
    requires EventsRetained(d) && SequencesUnique(d)
    requires forall i | 0 <= i < |selected| ::
      selected[i].ordinal in OrdinalsOf(d, run) && selected[i].sequence == floor + 1 + i == d.events[selected[i].ordinal].sequence
    ensures ConfirmedIds(selected) == RangeOrdinals(d, run, floor, floor + |selected|)
    ensures |ConfirmedIds(selected)| == |selected|
  {
    forall i, j | 0 <= i < j < |selected| ensures selected[i].ordinal != selected[j].ordinal {}
    IdsAreDistinct(selected);
    forall o | o in RangeOrdinals(d, run, floor, floor + |selected|) ensures o in ConfirmedIds(selected) {
      var i := d.events[o].sequence - floor - 1;
      assert selected[i] in selected && d.events[selected[i].ordinal].sequence == d.events[o].sequence;
    }
  }

  /** Deleting a selected range commits, keeps the invariant and raises the floor by its length. */
  lemma DeleteConfirmedIsExact(codec: Codec, d: Db, run: RunId, selected: seq<ConfirmedCandidate>)
    requires Valid(codec, d) && ActiveWorkflow(d, run)
    requires forall i | 0 <= i < |selected| ::
      selected[i].ordinal in OrdinalsOf(d, run)
      && selected[i].sequence == d.registry[run].floor + 1 + i == d.events[selected[i].ordinal].sequence
    ensures var r, floor, n := DeleteConfirmed(d, run, selected), d.registry[run].floor, |selected|;
      && r.Ok? && r.value == (Truncated(d, run, n), CompactResult(n, floor + n))
      && |RangeOrdinals(d, run, floor, floor + n)| == n
      && Valid(codec, Truncated(d, run, n))
  {
    var floor, ordinals := d.registry[run].floor, ConfirmedIds(selected);
    SelectedRange(codec, d, run, floor, selected);
    assert ordinals <= OrdinalsOf(d, run);
    TruncatedKeepsValid(codec, d, run, |selected|);
    RetainedOrdinals(d, run, ordinals);
    hide EventSide, CheckpointSide, RowsSized;
    DeleteRange(d, run, selected);
  }

  lemma DeleteRange(d: Db, run: RunId, selected: seq<ConfirmedCandidate>)
    requires run in d.registry
    requires var floor, ordinals := d.registry[run].floor, ConfirmedIds(selected);
      && ordinals == RangeOrdinals(d, run, floor, floor + |selected|) && |ordinals| == |selected|
      && (set o | o in ordinals && o in d.retention && d.retention[o].run == run) == ordinals
      && (selected != [] ==> selected[|selected| - 1].sequence == floor + |selected|)
    ensures var n, floor := |selected|, d.registry[run].floor;
      DeleteConfirmed(d, run, selected) == Ok((Truncated(d, run, n), CompactResult(n, floor + n)))
  {
    if selected == [] {
      TruncatedByNone(d, run);
    } else {
      assert OrdinalsOf(d, run) * ConfirmedIds(selected) == ConfirmedIds(selected);
    }
  }

  /** `d` without the first `n` sequences of `run` above its floor, which moves up by `n`. */
  function Truncated(d: Db, run: RunId, n: nat): Db
    requires run in d.registry
  {
    var floor := d.registry[run].floor;
    var gone := RangeOrdinals(d, run, floor, floor + n);
    d.(events := d.events - gone, retention := d.retention - gone,
       registry := d.registry[run := d.registry[run].(floor := floor + n)])
  }

  lemma TruncatedByNone(d: Db, run: RunId)
    requires run in d.registry
    ensures Truncated(d, run, 0) == d
  {
    var floor := d.registry[run].floor;
    assert RangeOrdinals(d, run, floor, floor) == {};
    assert d.registry[run := d.registry[run].(floor := floor)] == d.registry;
    assert d.events - {} == d.events && d.retention - {} == d.retention;
  }

  lemma RetainedOrdinals(d: Db, run: RunId, ordinals: set<Ordinal>)
    requires EventsRetained(d) && ordinals <= OrdinalsOf(d, run)
    ensures (set o | o in ordinals && o in d.retention && d.retention[o].run == run) == ordinals
  {
    forall o | o in ordinals ensures o in d.retention && d.retention[o].run == run {
      assert o in OrdinalsOf(d, run);
    }
  }

  lemma TruncatedKeepsEventSide(d: Db, run: RunId, n: nat)
    requires EventSide(d) && ActiveWorkflow(d, run)
    ensures EventSide(Truncated(d, run, n))
  {
    var floor := d.registry[run].floor;
    var gone := RangeOrdinals(d, run, floor, floor + n);
    var d1 := WithoutEvents(d, run, gone);
    WithoutEventsShape(d, run, gone);
    WithoutEventsKeepsEventSide(d, run, gone);
    assert 0 <= floor;
    forall o | o in OrdinalsOf(d1, run) ensures floor + n < d1.events[o].sequence { assert o in OrdinalsOf(d, run); }
    hide EventSide;
    FloorKeepsEventSide(d1, run, floor + n);
    assert OrdinalsOf(d, run) * gone == gone;
  }

  lemma TruncatedKeepsValid(codec: Codec, d: Db, run: RunId, n: nat)
    requires Valid(codec, d) && ActiveWorkflow(d, run)
    ensures Valid(codec, Truncated(d, run, n))
  {
    hide EventSide;
    TruncatedKeepsEventSide(d, run, n);
    CheckpointSideFrame(d, Truncated(d, run, n));
    hide CheckpointSide;
    RowsSizedSubset(codec, d, Truncated(d, run, n));
  }

  lemma FloorKeepsEventSide(d: Db, run: RunId, floor: int)
    requires EventSide(d) && ActiveWorkflow(d, run) && 0 <= floor
    requires forall o | o in OrdinalsOf(d, run) :: floor < d.events[o].sequence
    ensures EventSide(d.(registry := d.registry[run := d.registry[run].(floor := floor)]))
  {
    var e := d.(registry := d.registry[run := d.registry[run].(floor := floor)]);
    assert forall r :: OrdinalsOf(d, r) == OrdinalsOf(e, r);
    forall o | o in e.events ensures e.registry[e.events[o].runId].floor < e.events[o].sequence {
      assert o in OrdinalsOf(d, e.events[o].runId);
    }
  }

  /** The confirmed sequence a compaction is bounded by. */
  function Confirmed(d: Db, run: RunId): int {
    if Versions(d, run) == {} then 0 else Latest(d, run).confirmedSequence
  }

  function SizeAt(codec: Codec, d: Db, o: Ordinal): nat {
    if o in d.events then codec.recordSize(d.events[o]) else 0
  }

  function EventSize(codec: Codec, d: Db): int -> nat {
    (o: int) => SizeAt(codec, d, o)
  }

  /** The oldest `n` confirmed sequences are gone, all old enough and within the limits, and `n` cannot
      be larger: the next confirmed sequence is beyond the row limit, too young or too large. */
  ghost predicate CompactedExactly(codec: Codec, d: Db, e: Db, request: CompactRequest, result: CompactResult) {
    var run, n := request.run, result.events;
    var limit, bytes := OrDefault(request.limit, DEFAULT_PURGE_ROW_LIMIT), OrDefault(request.byteLimit, DEFAULT_PURGE_BYTE_LIMIT);
    && ActiveWorkflow(d, run) && 0 <= n <= limit
    && var floor := d.registry[run].floor;
    var gone := RangeOrdinals(d, run, floor, floor + n);
    && e == Truncated(d, run, n) && result.floor == floor + n && |gone| == n
    && (0 < n ==> floor + n <= Confirmed(d, run))
    && SumOver(gone, EventSize(codec, d)) <= bytes
    && (forall o | o in gone && o in d.retention :: d.retention[o].appendedAt < request.before)
    && (n < limit ==>
          forall o | o in OrdinalsOf(d, run) && o in d.retention && d.events[o].sequence == floor + n + 1 <= Confirmed(d, run) ::
            request.before <= d.retention[o].appendedAt || bytes < SumOver(gone, EventSize(codec, d)) + codec.recordSize(d.events[o]))
  }

  ghost predicate Prefix(codec: Codec, d: Db, run: RunId, w: Window, selected: seq<ConfirmedCandidate>) {
    && |selected| <= w.limit && ConfirmedBytes(selected) <= w.bytes
    && (0 < |selected| ==> w.floor + |selected| <= w.confirmed)
    && forall i | 0 <= i < |selected| ::
         && selected[i].ordinal in OrdinalsOf(d, run) && selected[i].ordinal in d.retention
         && selected[i].size == codec.recordSize(d.events[selected[i].ordinal])
         && selected[i].sequence == w.floor + 1 + i == d.events[selected[i].ordinal].sequence
         && d.retention[selected[i].ordinal].appendedAt < w.before
  }

  /** The event that would extend the prefix is too young or too large. */
  ghost predicate Longest(codec: Codec, d: Db, run: RunId, w: Window, selected: seq<ConfirmedCandidate>) {
    |selected| < w.limit ==>
      forall o | o in OrdinalsOf(d, run) && o in d.retention && d.retention[o].run == run
                 && d.events[o].sequence == w.floor + |selected| + 1 <= w.confirmed ::
        w.before <= d.retention[o].appendedAt || w.bytes < ConfirmedBytes(selected) + codec.recordSize(d.events[o])
  }

  lemma PrefixIsLongest(codec: Codec, d: Db, run: RunId, w: Window, cs: seq<ConfirmedCandidate>)
    requires CandidateList(codec, d, run, w, cs)
    ensures var r := ContiguousCount(cs, w.floor, w.floor + 1, w.before, w.bytes);
      r.Ok? ==> Prefix(codec, d, run, w, cs[..r.value]) && Longest(codec, d, run, w, cs[..r.value])
  {
    ContiguousCountIsLongest(cs, w.floor, w.floor + 1, w.before, w.bytes);
    var r := ContiguousCount(cs, w.floor, w.floor + 1, w.before, w.bytes);
    if r.Ok? {
      KeptIsPrefix(codec, d, run, w, cs, r.value);
      KeptIsLongest(codec, d, run, w, cs, r.value);
    }
  }

  lemma KeptIsPrefix(codec: Codec, d: Db, run: RunId, w: Window, cs: seq<ConfirmedCandidate>, n: nat)
    requires CandidateList(codec, d, run, w, cs) && n <= |cs| && ConfirmedBytes(cs[..n]) <= w.bytes
    requires forall i | 0 <= i < n :: cs[i].sequence == w.floor + 1 + i && cs[i].appendedAt < w.before
    ensures Prefix(codec, d, run, w, cs[..n])
  {
    hide ConfirmedBytes;
    if 0 < n { assert cs[n - 1].ordinal in ConfirmedOrdinals(d, run, w.floor, w.confirmed); }
  }

  lemma KeptIsLongest(codec: Codec, d: Db, run: RunId, w: Window, cs: seq<ConfirmedCandidate>, n: nat)
    requires CandidateList(codec, d, run, w, cs) && n <= |cs|
    requires forall i | 0 <= i < n :: cs[i].sequence == w.floor + 1 + i
    requires n < |cs| ==> w.before <= cs[n].appendedAt || w.bytes < ConfirmedBytes(cs[..n]) + cs[n].size
    ensures Longest(codec, d, run, w, cs[..n])
  {
    hide ConfirmedBytes;
    if n < w.limit {
      forall o | o in OrdinalsOf(d, run) && o in d.retention && d.retention[o].run == run
                 && d.events[o].sequence == w.floor + n + 1 <= w.confirmed
        ensures w.before <= d.retention[o].appendedAt || w.bytes < ConfirmedBytes(cs[..n]) + codec.recordSize(d.events[o])
      {
        assert o in ConfirmedOrdinals(d, run, w.floor, w.confirmed);
        NextCandidate(cs, w.floor, n, w.limit, o, d.events[o].sequence);
      }
    }
  }

  /** In a sorted candidate list cut off at `limit`, the event continuing a contiguous prefix comes next. */
  lemma NextCandidate(cs: seq<ConfirmedCandidate>, floor: int, n: nat, limit: nat, o: Ordinal, sequence: int)
    requires n <= |cs| <= limit && n < limit && sequence == floor + n + 1
    requires forall i | 0 <= i < n :: cs[i].sequence == floor + 1 + i
    requires forall i | 0 <= i < |cs| :: floor < cs[i].sequence
    requires forall i, j | 0 <= i < j < |cs| :: cs[i].sequence < cs[j].sequence
    requires (exists i :: 0 <= i < |cs| && cs[i].ordinal == o && cs[i].sequence == sequence)
          || (|cs| == limit && forall i | 0 <= i < |cs| :: cs[i].sequence < sequence)
    ensures n < |cs| && cs[n].ordinal == o
  {
    if n < |cs| {
      assert n == 0 || cs[n - 1].sequence < cs[n].sequence;
    }
  }

  function WindowOf(d: Db, request: CompactRequest): Window
    requires request.run in d.registry && 0 <= request.limit && 0 <= request.byteLimit
  {
    Window(d.registry[request.run].floor, Confirmed(d, request.run), OrDefault(request.limit, DEFAULT_PURGE_ROW_LIMIT),
           OrDefault(request.byteLimit, DEFAULT_PURGE_BYTE_LIMIT), request.before)
  }

  predicate RefusalExpected(d: Db, run: RunId, error: Error) {
    || error in {InvalidRequest, NotActiveWorkflow, TerminalRun, PendingEvent}
    || (run in d.registry && error in {MissingSequence(d.registry[run].floor + 1), SequenceGap(d.registry[run].floor)})
  }

  lemma CompactSelectionMeaning(codec: Codec, d: Db, request: CompactRequest)
    requires EventsRetained(d) && SequencesUnique(d) && ValidCompactRequest(request)
    requires ActiveWorkflow(d, request.run) ==>
      && request.run in d.heads && Versions(d, request.run) != {}
      && Latest(d, request.run).runId == request.run && d.heads[request.run] == HeadOf(Latest(d, request.run))
    ensures var r, run := CompactSelection(codec, d, request), request.run;
      && (r.Err? ==> RefusalExpected(d, run, r.error))
      && (r.Ok? ==> ActiveWorkflow(d, run) && Prefix(codec, d, run, WindowOf(d, request), r.value)
                    && Longest(codec, d, run, WindowOf(d, request), r.value))
  {
    hide ConfirmedCandidates, Prefix, Longest, CandidateList, ContiguousCount, SequencesUnique, EventsRetained;
    if ActiveWorkflow(d, request.run) {
      var w := WindowOf(d, request);
      var cs := ConfirmedCandidates(codec, d, request.run, w.floor, w.confirmed, w.limit);
      CandidatesMeaning(codec, d, request.run, w);
      PrefixIsLongest(codec, d, request.run, w, cs);
      GapError(cs, w);
      EmptyPrefix(codec, d, request.run, w);
    }
  }

  lemma EmptyPrefix(codec: Codec, d: Db, run: RunId, w: Window)
    ensures Prefix(codec, d, run, w, [])
    ensures w.confirmed <= w.floor ==> Longest(codec, d, run, w, [])
  {}

  lemma {:induction false} GapErrorAt(cs: seq<ConfirmedCandidate>, floor: int, expected: int, before: Time, limit: int)
    ensures var r := ContiguousCount(cs, floor, expected, before, limit); r.Err? ==> r.error == SequenceGap(floor)
    decreases |cs|
  {
    if cs != [] { GapErrorAt(cs[1..], floor, expected + 1, before, limit - cs[0].size); }
  }

  lemma GapError(cs: seq<ConfirmedCandidate>, w: Window)
    ensures var r := ContiguousCount(cs, w.floor, w.floor + 1, w.before, w.bytes); r.Err? ==> r.error == SequenceGap(w.floor)
  {
    GapErrorAt(cs, w.floor, w.floor + 1, w.before, w.bytes);
  }

  /** `PurgeConfirmedRunLog`: an error changes nothing and is never a row-count or head mismatch; success
      deletes exactly the oldest n confirmed sequences, for the largest n the limits admit. */
  lemma CompactIsExact(codec: Codec, d: Db, request: CompactRequest)
    requires Valid(codec, d)
    ensures var r := Retention.Compact(codec, d, request);
      && (r.Err? ==> RefusalExpected(d, request.run, r.error))
      && (r.Ok? ==> CompactedExactly(codec, d, r.value.0, request, r.value.1) && Valid(codec, r.value.0))
  {
    if ValidCompactRequest(request) {
      hide CompactSelection, DeleteConfirmed, EventSide, CheckpointSide, RowsSized;
      assert request.run in d.heads <==> ActiveWorkflow(d, request.run);
      if request.run in d.heads { HeadIsLatest(codec, d, request.run); }
      CompactSelectionMeaning(codec, d, request);
      var selection := CompactSelection(codec, d, request);
      if selection.Ok? { PrefixCommits(codec, d, request, selection.value); }
      hide WindowOf, Prefix, Longest, CompactedExactly, RefusalExpected;
    }
  }

  lemma PrefixCommits(codec: Codec, d: Db, request: CompactRequest, selected: seq<ConfirmedCandidate>)
    requires Valid(codec, d) && ValidCompactRequest(request) && ActiveWorkflow(d, request.run)
    requires Prefix(codec, d, request.run, WindowOf(d, request), selected)
    requires Longest(codec, d, request.run, WindowOf(d, request), selected)
    ensures var r := DeleteConfirmed(d, request.run, selected);
      r.Ok? && CompactedExactly(codec, d, r.value.0, request, r.value.1) && Valid(codec, r.value.0)
  {
    hide EventSide, CheckpointSide, RowsSized, DeleteConfirmed, Truncated, SumOver, ConfirmedBytes;
    DeleteConfirmedIsExact(codec, d, request.run, selected);
    PrefixSpansRange(codec, d, request.run, WindowOf(d, request), selected);
  }

  lemma PrefixSpansRange(codec: Codec, d: Db, run: RunId, w: Window, selected: seq<ConfirmedCandidate>)
    requires Valid(codec, d) && Prefix(codec, d, run, w, selected)
    ensures var gone := RangeOrdinals(d, run, w.floor, w.floor + |selected|);
      && SumOver(gone, EventSize(codec, d)) == ConfirmedBytes(selected)
      && (forall o | o in gone && o in d.retention :: d.retention[o].appendedAt < w.before)
      && forall o | o in OrdinalsOf(d, run) && o in d.retention :: d.retention[o].run == run
  {
    SelectedRange(codec, d, run, w.floor, selected);
    SelectedBytes(codec, d, selected);
    forall o | o in ConfirmedIds(selected) && o in d.retention ensures d.retention[o].appendedAt < w.before {
      var c :| c in selected && c.ordinal == o;
    }
  }

  lemma {:induction false} SelectedBytes(codec: Codec, d: Db, selected: seq<ConfirmedCandidate>)
    requires forall i | 0 <= i < |selected| ::
      selected[i].ordinal in d.events && selected[i].size == codec.recordSize(d.events[selected[i].ordinal])
    requires forall i, j | 0 <= i < j < |selected| :: selected[i].ordinal != selected[j].ordinal
    ensures SumOver(ConfirmedIds(selected), EventSize(codec, d)) == ConfirmedBytes(selected)
    decreases |selected|
  {
    if selected == [] {
      assert ConfirmedIds(selected) == {};
    } else {
      var o := selected[0].ordinal;
      assert selected[0] in selected;
      assert ConfirmedIds(selected) - {o} == ConfirmedIds(selected[1..]) by {
        forall x ensures x in ConfirmedIds(selected) - {o} <==> x in ConfirmedIds(selected[1..]) {
          if x in ConfirmedIds(selected) - {o} {
            var i :| 0 <= i < |selected| && selected[i].ordinal == x;
            assert selected[1..][i - 1] == selected[i];
          }
          if x in ConfirmedIds(selected[1..]) {
            var i :| 0 <= i < |selected[1..]| && selected[1..][i].ordinal == x;
            assert selected[i + 1] in selected;
          }
        }
      }
      SumRemove(ConfirmedIds(selected), o, EventSize(codec, d));
      SelectedBytes(codec, d, selected[1..]);
    }
  }
}
