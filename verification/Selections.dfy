/** Which rows the purges take: always the first in their order, and as many as the limits allow. */
module Selections {
  import opened Ordering
  import opened Tables
  import opened Retention
  import opened Invariant
  import opened RetentionInvariant
  import opened Compaction
  import opened PurgeCall
  import opened PurgeBudgets

  /** `chosen` comes first in `all`, keeps to both limits, and stops only at the row limit or before the next row that
      would exceed the byte limit. */
  ghost predicate TakesFirst(all: set<int>, le: (int, int) -> bool, size: int -> nat, rows: int, bytes: int, chosen: set<int>) {
    && chosen <= all && |chosen| <= rows && SumOver(chosen, size) <= bytes
    && (forall a, b | a in chosen && b in all - chosen :: le(a, b))
    && (chosen == all || |chosen| == rows
        || exists next :: next in all - chosen && (forall b | b in all - chosen :: le(next, b)) && bytes < SumOver(chosen, size) + size(next))
  }

  lemma FittingTakesFirst(all: set<int>, le: (int, int) -> bool, size: int -> nat, rows: nat, bytes: nat, cs: seq<Candidate>)
    requires TotalOrder(le)
    requires |cs| == |Limited(Sorted(all, le), rows)|
    requires forall i | 0 <= i < |cs| :: cs[i].id == Limited(Sorted(all, le), rows)[i] && cs[i].size == size(cs[i].id) && 0 < cs[i].size
    ensures TakesFirst(all, le, size, rows, bytes, Ids(Fitting(cs, bytes)))
  {
    hide TotalOrder, Sorted, Ascending, Elements, SumOver, FittingCount, TotalSize, Limited, Ids;
    var sorted, n := Sorted(all, le), FittingCount(cs, bytes);
    SortedLists(all, le);
    FittingIsLongest(cs, bytes);
    var fitting := cs[..n];
    forall i, j | 0 <= i < j < n ensures fitting[i].id != fitting[j].id { assert sorted[i] != sorted[j]; }
    TotalSizeIsSum(fitting, size);
    IdsOfPrefix(cs, sorted, n);
    PrefixTakesFirst(all, sorted, le, size, rows, bytes, |cs|, n, Ids(fitting));
  }

  lemma IdsOfPrefix(cs: seq<Candidate>, sorted: seq<int>, n: nat)
    requires n <= |cs| <= |sorted| && forall i | 0 <= i < |cs| :: cs[i].id == sorted[i]
    ensures forall x :: x in Ids(cs[..n]) <==> exists i :: 0 <= i < n && sorted[i] == x
  {
    forall x ensures x in Ids(cs[..n]) <==> exists i :: 0 <= i < n && sorted[i] == x {
      if i :| 0 <= i < n && sorted[i] == x { assert cs[..n][i].id == x; }
      if x in Ids(cs[..n]) {
        var i :| 0 <= i < n && cs[..n][i].id == x;
        assert sorted[i] == x;
      }
    }
  }

  lemma PrefixTakesFirst(all: set<int>, sorted: seq<int>, le: (int, int) -> bool, size: int -> nat, rows: nat, bytes: nat, m: nat, n: nat, chosen: set<int>)
    requires TotalOrder(le) && (forall x :: x in all <==> x in sorted)
    requires forall i, j | 0 <= i < j < |sorted| :: le(sorted[i], sorted[j]) && sorted[i] != sorted[j]
    requires n <= m <= |sorted| && (m == rows || m == |sorted|) && m <= rows
    requires |chosen| == n && (forall x :: x in chosen <==> exists i :: 0 <= i < n && sorted[i] == x)
    requires SumOver(chosen, size) <= bytes && (n < m ==> bytes < SumOver(chosen, size) + size(sorted[n]))
    ensures TakesFirst(all, le, size, rows, bytes, chosen)
  {
    hide SumOver;
    forall b | b in all - chosen ensures exists j :: n <= j < |sorted| && sorted[j] == b {
      var j :| 0 <= j < |sorted| && sorted[j] == b;
    }
    forall b | b in all - chosen && n < |sorted| ensures le(sorted[n], b) {
      var j :| n <= j < |sorted| && sorted[j] == b;
      assert le(b, b);
    }
    forall a, b | a in chosen && b in all - chosen ensures le(a, b) {
      var i :| 0 <= i < n && sorted[i] == a;
      var j :| n <= j < |sorted| && sorted[j] == b;
    }
    forall a | a in chosen ensures a in all {
      var i :| 0 <= i < n && sorted[i] == a;
      assert a in sorted;
    }
    if n < m {
      var next: int := sorted[n];
      forall i | 0 <= i < n ensures sorted[i] != next {}
      assert next in sorted;
      assert next in all && next !in chosen;
      assert next in all - chosen && (forall b | b in all - chosen :: le(next, b)) && bytes < SumOver(chosen, size) + size(next);
    } else if m == |sorted| {
      forall x ensures x in chosen <==> x in all {}
    }
  }

  lemma TakesFirstUnder(all: set<int>, le: (int, int) -> bool, order: (int, int) -> bool, size: int -> nat, rows: int, bytes: int, chosen: set<int>)
    requires TakesFirst(all, le, size, rows, bytes, chosen)
    requires forall a, b | a in all && b in all && le(a, b) :: order(a, b)
    ensures TakesFirst(all, order, size, rows, bytes, chosen)
  {
    hide SumOver;
    if chosen != all && |chosen| != rows {
      var next :| next in all - chosen && (forall b | b in all - chosen :: le(next, b)) && bytes < SumOver(chosen, size) + size(next);
      assert forall b | b in all - chosen :: order(next, b);
    }
  }

  // Deleting a purging run's history.

  predicate NoLater(a: int, b: int) { a <= b }

  ghost function BySequenceNumber(d: Db): (int, int) -> bool {
    (a: int, b: int) => a in d.events && b in d.events && d.events[a].sequence <= d.events[b].sequence
  }

  lemma EventCandidatesListed(codec: Codec, d: Db, run: RunId, rows: int)
    requires 0 <= rows && TotalOrder(BySequence(d.events))
    ensures var cs, page := RunLogCandidates(codec, d, run, rows), Limited(Sorted(OrdinalsOf(d, run), BySequence(d.events)), rows);
      |cs| == |page| && forall i | 0 <= i < |cs| :: cs[i].id == page[i] && cs[i].size == EventSize(codec, d)(cs[i].id) && 0 < cs[i].size
  {
    hide TotalOrder, Sorted, Limited, OrdinalsOf;
    var cs, page := RunLogCandidates(codec, d, run, rows), Limited(Sorted(OrdinalsOf(d, run), BySequence(d.events)), rows);
    PageIsFirst(OrdinalsOf(d, run), BySequence(d.events), rows);
    OrdinalsAreKeys(d, run);
    assert forall i | 0 <= i < |page| :: page[i] in page && page[i] in d.events;
    assert |cs| == |page| && forall i | 0 <= i < |cs| :: cs[i] == EventCandidate(codec, d, page[i]);
  }

  lemma CheckpointCandidatesListed(codec: Codec, d: Db, run: RunId, rows: int)
    requires 0 <= rows && TotalOrder(IntLe)
    ensures var cs, page := CheckpointCandidates(codec, d, run, rows), Limited(Sorted(Versions(d, run), IntLe), rows);
      |cs| == |page| && forall i | 0 <= i < |cs| :: cs[i].id == page[i] && cs[i].size == VersionSize(codec, d, run)(cs[i].id) && 0 < cs[i].size
  {
    hide TotalOrder, Sorted, Limited, Versions, CheckpointBytes;
    var cs, page := CheckpointCandidates(codec, d, run, rows), Limited(Sorted(Versions(d, run), IntLe), rows);
    PageIsFirst(Versions(d, run), IntLe, rows);
    VersionsAreKeys(d, run);
    assert forall i | 0 <= i < |page| :: page[i] in page && Key(run, page[i]) in d.checkpoints;
    assert |cs| == |page| && forall i | 0 <= i < |cs| :: cs[i] == CheckpointCandidate(codec, d, run, page[i]);
    forall i | 0 <= i < |cs| ensures 0 < cs[i].size { StoredBytesPositive(codec, d.checkpoints[Key(run, cs[i].id)]); }
  }

  lemma EventsTakeFirst(codec: Codec, d: Db, run: RunId, budget: Budget)
    requires 0 < budget.rows && 0 < budget.bytes
    ensures var taken := Ids(SelectedEvents(codec, d, run, budget));
      && TakesFirst(OrdinalsOf(d, run), BySequenceNumber(d), EventSize(codec, d), budget.rows, budget.bytes, taken)
      && |taken| == |SelectedEvents(codec, d, run, budget)| <= budget.rows
      && SumOver(taken, EventSize(codec, d)) == TotalSize(SelectedEvents(codec, d, run, budget)) <= budget.bytes
  {
    hide TakesFirst, TotalSize, SumOver, Sorted, Limited, TotalOrder, Ids, FittingCount, OrdinalsOf, RunLogCandidates;
    BySequenceIsTotal(d.events);
    var all, cs := OrdinalsOf(d, run), RunLogCandidates(codec, d, run, budget.rows);
    EventCandidatesListed(codec, d, run, budget.rows);
    FittingTakesFirst(all, BySequence(d.events), EventSize(codec, d), budget.rows, budget.bytes, cs);
    OrdinalsAreKeys(d, run);
    TakesFirstUnder(all, BySequence(d.events), BySequenceNumber(d), EventSize(codec, d), budget.rows, budget.bytes, Ids(Fitting(cs, budget.bytes)));
    EventSelection(codec, d, run, budget);
    SelectedEventSizes(codec, d, run, budget);
    TotalSizeIsSum(SelectedEvents(codec, d, run, budget), EventSize(codec, d));
  }

  lemma CheckpointsTakeFirst(codec: Codec, d: Db, run: RunId, budget: Budget)
    requires 0 <= budget.rows && 0 <= budget.bytes
    ensures var taken := Ids(SelectedCheckpoints(codec, d, run, budget));
      && TakesFirst(Versions(d, run), NoLater, VersionSize(codec, d, run), budget.rows, budget.bytes, taken)
      && Versions(DeleteCheckpoints(codec, d, run, budget).0, run) == Versions(d, run) - taken && taken <= Versions(d, run)
  {
    hide TakesFirst, SumOver, Sorted, Limited, TotalOrder, FittingCount, Versions, CheckpointBytes, CheckpointCandidates;
    IntLeIsTotal();
    var all, cs := Versions(d, run), CheckpointCandidates(codec, d, run, budget.rows);
    CheckpointCandidatesListed(codec, d, run, budget.rows);
    FittingTakesFirst(all, IntLe, VersionSize(codec, d, run), budget.rows, budget.bytes, cs);
    NothingFitsNothing(cs, budget);
    TakesFirstUnder(all, IntLe, NoLater, VersionSize(codec, d, run), budget.rows, budget.bytes, Ids(Fitting(cs, budget.bytes)));
    SelectedCheckpointSizes(codec, d, run, budget);
    VersionsRemoved(d, run, Ids(SelectedCheckpoints(codec, d, run, budget)));
  }

  lemma NothingFitsNothing(cs: seq<Candidate>, budget: Budget)
    requires 0 <= budget.rows && 0 <= budget.bytes && |cs| <= budget.rows && forall i | 0 <= i < |cs| :: 0 < cs[i].size
    ensures budget.rows <= 0 || budget.bytes <= 0 ==> Fitting(cs, budget.bytes) == []
  {}

  /** The events, and the versions, of `run` that `d` has and `e` has no more. */
  ghost function EventsTaken(d: Db, e: Db, run: RunId): set<Ordinal> { OrdinalsOf(d, run) - OrdinalsOf(e, run) }

  ghost function VersionsTaken(d: Db, e: Db, run: RunId): set<int> { Versions(d, run) - Versions(e, run) }

  /** A deletion step over a purging run takes its events by sequence and its checkpoints by version, the lowest first,
      each as far as the limits allow: both limits for the events, what is left of them for the checkpoints. */
  lemma DeletionTakesOldest(codec: Codec, d: Db, host: Time, run: RunId, budget: Budget)
    requires Valid(codec, d) && IsPurging(d, run) && 0 < budget.rows && 0 < budget.bytes
    ensures var e := Retention.DeletePurging(codec, d, host, run, budget).0;
      var events, versions := EventsTaken(d, e, run), VersionsTaken(d, e, run);
      && OrdinalsOf(e, run) <= OrdinalsOf(d, run) && Versions(e, run) <= Versions(d, run)
      && TakesFirst(OrdinalsOf(d, run), BySequenceNumber(d), EventSize(codec, d), budget.rows, budget.bytes, events)
      && TakesFirst(Versions(d, run), NoLater, VersionSize(codec, d, run),
                    budget.rows - |events|, budget.bytes - SumOver(events, EventSize(codec, d)), versions)
  {
    hide TakesFirst, Versions, OrdinalsOf, Retention.DeletePurging, SumOver, Valid, IsPurging, EventsTaken, VersionsTaken, RestBudget;
    DeletionTakesEvents(codec, d, host, run, budget);
    DeletionTakesCheckpoints(codec, d, host, run, budget);
  }

  lemma DeletionTakesEvents(codec: Codec, d: Db, host: Time, run: RunId, budget: Budget)
    requires Valid(codec, d) && IsPurging(d, run) && 0 < budget.rows && 0 < budget.bytes
    ensures var e := Retention.DeletePurging(codec, d, host, run, budget).0; var events := EventsTaken(d, e, run);
      && OrdinalsOf(e, run) <= OrdinalsOf(d, run) && events == Ids(SelectedEvents(codec, d, run, budget))
      && TakesFirst(OrdinalsOf(d, run), BySequenceNumber(d), EventSize(codec, d), budget.rows, budget.bytes, events)
      && RestBudget(codec, d, run, budget) == Budget(budget.rows - |events|, budget.bytes - SumOver(events, EventSize(codec, d)))
      && 0 <= budget.rows - |events| && 0 <= budget.bytes - SumOver(events, EventSize(codec, d))
  {
    hide SelectedEvents, SumOver, OrdinalsOf, Ids, Valid, TakesFirst, Retention.DeletePurging, DeleteRunLogs, RestBudget, DeleteCheckpoints,
      TotalSize, IsPurging, Versions;
    EventsTakeFirst(codec, d, run, budget);
    EventsLeft(codec, d, run, budget);
    RowsLeft(codec, d, host, run, budget);
    SetMinus(OrdinalsOf(d, run), OrdinalsOf(DeleteRunLogs(codec, d, run, budget).0, run), Ids(SelectedEvents(codec, d, run, budget)));
  }

  lemma DeletionTakesCheckpoints(codec: Codec, d: Db, host: Time, run: RunId, budget: Budget)
    requires Valid(codec, d) && IsPurging(d, run) && 0 < budget.rows && 0 < budget.bytes
    ensures var e, rest := Retention.DeletePurging(codec, d, host, run, budget).0, RestBudget(codec, d, run, budget);
      && Versions(e, run) <= Versions(d, run)
      && TakesFirst(Versions(d, run), NoLater, VersionSize(codec, d, run), rest.rows, rest.bytes, VersionsTaken(d, e, run))
  {
    hide SelectedEvents, SelectedCheckpoints, SumOver, OrdinalsOf, Ids, Valid, TakesFirst, Retention.DeletePurging, DeleteRunLogs, RestBudget,
      DeleteCheckpoints, TotalSize, IsPurging, Versions;
    var d1, rest := DeleteRunLogs(codec, d, run, budget).0, RestBudget(codec, d, run, budget);
    DeletionTakesEvents(codec, d, host, run, budget);
    EventsLeft(codec, d, run, budget);
    CheckpointsTakeFirst(codec, d1, run, rest);
    RowsLeft(codec, d, host, run, budget);
    SameVersions(codec, d, d1, run);
    SetMinus(Versions(d, run), Versions(DeleteCheckpoints(codec, d1, run, rest).0, run), Ids(SelectedCheckpoints(codec, d1, run, rest)));
  }

  lemma EventsLeft(codec: Codec, d: Db, run: RunId, budget: Budget)
    requires Valid(codec, d) && IsPurging(d, run)
    ensures var d1, taken, rest := DeleteRunLogs(codec, d, run, budget).0, Ids(SelectedEvents(codec, d, run, budget)), RestBudget(codec, d, run, budget);
      && taken <= OrdinalsOf(d, run) && OrdinalsOf(d1, run) == OrdinalsOf(d, run) - taken && d1.checkpoints == d.checkpoints
      && rest == Budget(budget.rows - |taken|, budget.bytes - TotalSize(SelectedEvents(codec, d, run, budget)))
  {
    hide Valid, SelectedEvents, OrdinalsOf, Ids, TotalSize, IsPurging;
    DeleteRunLogsShape(codec, d, run, budget);
  }

  /** Marking the purge complete, and the checkpoint half, leave the events; the former leaves the checkpoints. */
  lemma RowsLeft(codec: Codec, d: Db, host: Time, run: RunId, budget: Budget)
    requires IsPurging(d, run)
    ensures var e, d1, rest := Retention.DeletePurging(codec, d, host, run, budget).0, DeleteRunLogs(codec, d, run, budget).0, RestBudget(codec, d, run, budget);
      && OrdinalsOf(e, run) == OrdinalsOf(d1, run)
      && Versions(e, run) == Versions(DeleteCheckpoints(codec, d1, run, rest).0, run)
  {
    hide SelectedEvents, SelectedCheckpoints, Versions, OrdinalsOf, CompletePurge, Ids, TotalSize, IsPurging, EventBytes, LogBytes, KeysAt;
    DeletePurgingUnfolded(codec, d, host, run, budget);
    var d1, d2 := DeleteRunLogs(codec, d, run, budget).0, AfterDeletions(codec, d, run, budget);
    PurgingRegistered(d2, run);
    CompletionKeepsRows(codec, d2, host, run);
    var e := CompletePurge(d2, host, run).0;
    SameVersions(codec, d2, e, run);
    SameEventRows(d1, d2, run);
    SameEventRows(d2, e, run);
  }

  lemma VersionsAreKeys(d: Db, run: RunId)
    ensures forall v | v in Versions(d, run) :: Key(run, v) in d.checkpoints
  {}

  lemma SetMinus<T>(all: set<T>, left: set<T>, gone: set<T>)
    requires gone <= all && left == all - gone
    ensures left <= all && all - left == gone
  {}

  lemma PurgingRegistered(d: Db, run: RunId)
    requires IsPurging(d, run)
    ensures run in d.registry
  {}

  lemma SameVersions(codec: Codec, d: Db, e: Db, run: RunId)
    requires e.checkpoints == d.checkpoints
    ensures Versions(e, run) == Versions(d, run) && VersionSize(codec, e, run) == VersionSize(codec, d, run)
  {}

  lemma SameEventRows(d: Db, e: Db, run: RunId)
    requires e.events == d.events
    ensures OrdinalsOf(e, run) == OrdinalsOf(d, run)
  {}

  // The runs a purge call works on.

  /** The pending page: the purging workflow runs that have waited longest, by run id among equals. */
  lemma PurgingPageIsOldest(d: Db, limit: nat)
    ensures var page := PurgingPage(d, limit);
      && (forall r | r in page :: r in d.registry && d.registry[r].kind == Workflow && d.registry[r].state == Purging)
      && (forall i, j | 0 <= i < j < |page| ::
            && d.registry[page[i]].updatedAt <= d.registry[page[j]].updatedAt && page[i] != page[j]
            && (d.registry[page[i]].updatedAt == d.registry[page[j]].updatedAt ==> StringLe(page[i], page[j])))
      && (forall r | r in d.registry && d.registry[r].kind == Workflow && d.registry[r].state == Purging && r !in page ::
            && |page| == limit
            && forall i | 0 <= i < |page| ::
                 && d.registry[page[i]].updatedAt <= d.registry[r].updatedAt
                 && (d.registry[page[i]].updatedAt == d.registry[r].updatedAt ==> StringLe(page[i], r)))
  {
    hide TotalOrder, Sorted, Limited, StringLe;
    ByAgeIsTotal(RegistryAge(d));
    PageIsFirst(PurgingRuns(d), ByAge(RegistryAge(d)), limit);
    LeftOut(PurgingRuns(d), PurgingPage(d, limit), limit);
  }

  /** The enrolment page: of the active workflow runs whose head is terminal, newest and older than the cutoff, those
      that ended first. */
  lemma TerminalPageIsOldest(d: Db, before: Time, limit: nat)
    ensures var page := TerminalPage(d, before, limit);
      && (forall r | r in page :: Ended(d, r, before))
      && (forall i, j | 0 <= i < j < |page| ::
            && d.heads[page[i]].updatedAt <= d.heads[page[j]].updatedAt && page[i] != page[j]
            && (d.heads[page[i]].updatedAt == d.heads[page[j]].updatedAt ==> StringLe(page[i], page[j])))
      && (forall r | Ended(d, r, before) && r !in page ::
            && |page| == limit
            && forall i | 0 <= i < |page| ::
                 && d.heads[page[i]].updatedAt <= d.heads[r].updatedAt
                 && (d.heads[page[i]].updatedAt == d.heads[r].updatedAt ==> StringLe(page[i], r)))
  {
    hide TotalOrder, Sorted, Limited, StringLe, Eligible, Ended;
    ByAgeIsTotal(HeadAge(d));
    PageIsFirst(EligibleRuns(d, before), ByAge(HeadAge(d)), limit);
    LeftOut(EligibleRuns(d, before), TerminalPage(d, before, limit), limit);
    forall r ensures Ended(d, r, before) <==> r in EligibleRuns(d, before) { EndedIsEligible(d, r, before); }
    forall r | Ended(d, r, before) ensures r in d.heads { EndedIsEligible(d, r, before); }
  }

  ghost predicate Ended(d: Db, run: RunId, before: Time) {
    && run in d.registry && d.registry[run].kind == Workflow && d.registry[run].state == Active
    && run in d.heads && d.heads[run].status in {Completed, Failed, Canceled, Terminated} && d.heads[run].updatedAt < before
    && forall k | k in d.checkpoints && k.run == run :: k.version <= d.heads[run].version
  }

  lemma EndedIsEligible(d: Db, run: RunId, before: Time)
    ensures Ended(d, run, before) <==> Eligible(d, run, before)
    ensures Ended(d, run, before) <==> run in EligibleRuns(d, before)
    ensures Ended(d, run, before) ==> run in d.heads
  {}
}
