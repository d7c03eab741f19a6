/** A retired workflow run stays retired: its registry row is permanent, it accepts no write, it is
    invisible to readers, and its remaining rows only go away. */
module Tombstones {
  import opened Options
  import opened Ordering
  import opened Tables
  import opened Transactions
  import opened Retention
  import opened Protocol
  import opened Invariant
  import opened RetentionInvariant
  import opened Compaction
  import opened Reachability
  import opened Fencing

  ghost predicate SameEvents(d: Db, e: Db, run: RunId) {
    OrdinalsOf(d, run) == OrdinalsOf(e, run) && forall o | o in OrdinalsOf(d, run) :: e.events[o] == d.events[o]
  }

  ghost predicate SameRegistry(d: Db, e: Db, run: RunId) {
    (run in d.registry <==> run in e.registry) && (run in d.registry ==> e.registry[run] == d.registry[run])
  }

  ghost predicate SameRows(d: Db, e: Db, run: RunId) {
    SameLog(d, e, run) && SameRegistry(d, e, run) && SameEvents(d, e, run)
  }

  lemma AppendedElsewhere(d: Db, e: Db, now: Time, host: Time, record: Record, run: RunId)
    requires EventsRetained(d) && Appended(d, e, now, host, record) && run != record.runId
    ensures SameRows(d, e, run)
  {
    hide OrdinalsAt, OrdinalsOf, SameEvents;
    RecordedElsewhere(d, Joined(d, record.runId, host), now, record, run);
    SameEventsReflexive(d, run);
  }

  lemma RecordedElsewhere(d: Db, e: Db, now: Time, record: Record, run: RunId)
    requires EventsRetained(d) && run != record.runId && e.events == d.events && e.nextOrdinal == d.nextOrdinal
    ensures SameEvents(d, WithRecord(e, now, record), run)
  {}

  lemma DeletePurgingElsewhere(codec: Codec, d: Db, host: Time, run: RunId, budget: Budget, other: RunId)
    requires other != run
    ensures SameRows(d, Retention.DeletePurging(codec, d, host, run, budget).0, other)
  {
    hide Retention.DeletePurging, AfterDeletions, HasHistory, OrdinalsOf;
    if IsPurging(d, run) {
      DeletePurgingUnfolded(codec, d, host, run, budget);
      DeletionsElsewhere(codec, d, run, budget, other);
      CompletionElsewhere(AfterDeletions(codec, d, run, budget), host, run, other);
      hide CompletePurge;
    } else {
      DeletePurgingIdle(codec, d, host, run, budget);
    }
  }

  lemma CompletionElsewhere(d: Db, host: Time, run: RunId, other: RunId)
    requires run in d.registry && other != run
    ensures SameRows(d, CompletePurge(d, host, run).0, other)
  {}

  lemma DeletePurgingIdle(codec: Codec, d: Db, host: Time, run: RunId, budget: Budget)
    requires !IsPurging(d, run)
    ensures Retention.DeletePurging(codec, d, host, run, budget) == (d, HistoryDeletion(0, 0, 0, false))
  {}

  lemma WithoutEventsElsewhere(d: Db, run: RunId, ordinals: set<Ordinal>, other: RunId)
    requires other != run
    ensures SameEvents(d, WithoutEvents(d, run, ordinals), other)
  {}

  lemma SameEventsFrame(d: Db, d1: Db, e: Db, run: RunId)
    requires SameEvents(d, d1, run) && e.events == d1.events
    ensures SameEvents(d, e, run)
  {}

  lemma SameEventsReflexive(d: Db, run: RunId)
    ensures SameEvents(d, d, run)
  {}

  lemma DeletionsElsewhere(codec: Codec, d: Db, run: RunId, budget: Budget, other: RunId)
    requires other != run
    ensures SameRows(d, AfterDeletions(codec, d, run, budget), other)
  {
    hide SelectedEvents, SelectedCheckpoints, Ids, TotalSize, SameEvents, OrdinalsOf;
    var d1 := DeleteRunLogs(codec, d, run, budget).0;
    WithoutEventsElsewhere(d, run, Ids(SelectedEvents(codec, d, run, budget)), other);
    SameEventsFrame(d, d1, AfterDeletions(codec, d, run, budget), other);
  }

  lemma PurgeJournalElsewhere(d: Db, run: RunId, ordinals: set<Ordinal>, before: Time, other: RunId)
    requires other != run
    ensures SameRows(d, Retention.PurgeJournalRun(d, run, ordinals, before).0, other)
  {
    hide EligibleOrdinals, SameEvents, OrdinalsOf;
    var d1 := WithoutEvents(d, run, EligibleOrdinals(d, run, ordinals, before));
    WithoutEventsElsewhere(d, run, EligibleOrdinals(d, run, ordinals, before), other);
    SameEventsReflexive(d, other);
    var e := Retention.PurgeJournalRun(d, run, ordinals, before).0;
    if e.events == d.events { SameEventsFrame(d, d, e, other); } else { SameEventsFrame(d, d1, e, other); }
  }

  lemma CompactElsewhere(codec: Codec, d: Db, request: CompactRequest, other: RunId)
    requires other != request.run
    ensures var r := Retention.Compact(codec, d, request); r.Ok? ==> SameRows(d, r.value.0, other)
  {
    hide CompactSelection, ConfirmedIds;
    if ValidCompactRequest(request) { CompactSelectionActive(codec, d, request); }
  }

  lemma CreateShape(codec: Codec, d: Db, s: Step)
    requires s.op.Create? && Execute(codec, d, s).Ok?
    ensures var e, run := Next(codec, d, s), s.op.record.runId;
      && run in e.registry && run in e.heads && Key(run, 1) in e.checkpoints
      && e == d.(registry := d.registry[run := e.registry[run]], heads := d.heads[run := e.heads[run]],
                 checkpoints := d.checkpoints[Key(run, 1) := e.checkpoints[Key(run, 1)]])
  {
    hide CheckpointBytes, ValidCheckpoint;
    var run := s.op.record.runId;
    if run in d.registry { assert d.registry == d.registry[run := d.registry[run]]; }
  }

  lemma CreateElsewhere(codec: Codec, d: Db, s: Step, other: RunId)
    requires s.op.Create? && other != s.op.record.runId
    ensures SameRows(d, Next(codec, d, s), other)
  {
    hide Execute;
    if Execute(codec, d, s).Ok? { CreateShape(codec, d, s); }
  }

  /** A transaction touches no row of any run but its own. */
  lemma OtherRunsUntouched(codec: Codec, d: Db, s: Step, run: RunId)
    requires Valid(codec, d) && RunOf(s.op) != Some(run)
    ensures SameRows(d, Next(codec, d, s), run)
  {
    hide EventSide, CheckpointSide, RowsSized, Retention.DeletePurging, Retention.PurgeJournalRun, Retention.Compact, Retention.Enroll,
      Transactions.Append, Transactions.AppendFenced, Transactions.Claim, Transactions.Write, Transactions.RenewLease, Transactions.Create, Appended;
    match s.op
    case Create(record, duration) => CreateElsewhere(codec, d, s, run);
    case Claim(candidate, duration, version) => if Execute(codec, d, s).Ok? { ClaimEvolves(codec, d, s); }
    case RenewLease(lease) => if Execute(codec, d, s).Ok? { RenewEvolves(codec, d, s); }
    case Write(record, duration, version, terminal) => if Execute(codec, d, s).Ok? { WriteEvolves(codec, d, s); }
    case Append(event) =>
      if Execute(codec, d, s).Ok? {
        AppendKeepsValid(codec, d, s.now, s.host, event);
        Retains(codec, d);
        AppendedElsewhere(d, Next(codec, d, s), s.now, s.host, event, run);
      }
    case AppendFenced(event, fence) =>
      if Execute(codec, d, s).Ok? {
        AppendFencedKeepsValid(codec, d, s.now, s.host, event, fence);
        Retains(codec, d);
        AppendedElsewhere(d, Next(codec, d, s), s.now, s.host, event, run);
      }
    case Enroll(r, before) => EnrollKeepsValid(codec, d, s.host, r, before);
    case DeletePurging(r, budget) => DeletePurgingElsewhere(codec, d, s.host, r, budget, run);
    case PurgeJournalRun(r, ordinals, before) => PurgeJournalElsewhere(d, r, ordinals, before, run);
    case Compact(request) => CompactElsewhere(codec, d, request, run);
    case SkipOrdinals(count) =>
  }

  predicate IsWorkflow(d: Db, run: RunId) {
    run in d.registry && d.registry[run].kind == Workflow
  }

  predicate Retired(d: Db, run: RunId) {
    IsWorkflow(d, run) && d.registry[run].state != Active
  }

  /** Nothing of `run` that was not in `d` is in `e`, and what is left is unchanged. */
  ghost predicate OnlyLost(d: Db, e: Db, run: RunId) {
    && (forall v | Key(run, v) in e.checkpoints :: Key(run, v) in d.checkpoints && e.checkpoints[Key(run, v)] == d.checkpoints[Key(run, v)])
    && (forall o | o in OrdinalsOf(e, run) :: o in OrdinalsOf(d, run) && e.events[o] == d.events[o])
  }

  /** Every operation of the checkpoint and log interfaces on a retired run is refused. */
  lemma RetiredRefusesWrites(codec: Codec, d: Db, s: Step, run: RunId)
    requires Valid(codec, d) && Retired(d, run) && RunOf(s.op) == Some(run)
    ensures !(s.op.Enroll? || s.op.DeletePurging? || s.op.PurgeJournalRun?) ==> Execute(codec, d, s).Err?
    ensures s.op.Enroll? || s.op.PurgeJournalRun? ==> Execute(codec, d, s) == Ok(d)
  {
    assert run in d.heads <==> ActiveWorkflow(d, run);
    hide EventSide, CheckpointSide, RowsSized, Retention.DeletePurging, CheckpointBytes, ValidCheckpoint, Versions, OrdinalsOf, OrdinalsAt,
      InsertRecord, ConfirmedCandidates, ContiguousCount, DeleteConfirmed;
  }

  /** `Load` and `ListCheckpoints` do not find a retired run, and `List` returns none of its records. */
  lemma RetiredIsInvisible(d: Db, run: RunId, after: int, limit: int, query: Query)
    requires Retired(d, run)
    ensures Load(d, run).Err? && ListCheckpoints(d, run, after, limit).Err?
    ensures List(d, query).Ok? ==> forall r | r in List(d, query).value :: r.runId != run
  {
    if List(d, query).Ok? { FoundMatch(d, query); }
    hide FindRecords, CheckpointsAt, Latest, Versions, Sorted;
  }

  ghost predicate StoredMatch(d: Db, query: Query, r: Record) {
    exists o :: o in d.events && Matches(d, query, o) && r == d.events[o]
  }

  /** Every listed record is a stored one that matches the query. */
  lemma FoundMatch(d: Db, query: Query)
    ensures forall r | r in FindRecords(d, query) :: StoredMatch(d, query, r)
  {
    hide TotalOrder, Ascending;
    IntLeIsTotal();
    var rows, found := Sorted(MatchingOrdinals(d, query), IntLe), FindRecords(d, query);
    forall r | r in found ensures StoredMatch(d, query, r) {
      var i :| 0 <= i < |found| && found[i] == r;
      var o := rows[i];
      assert o in MatchingOrdinals(d, query) && r == d.events[o];
    }
  }

  lemma DeletePurgingOnlyLoses(codec: Codec, d: Db, host: Time, run: RunId, budget: Budget)
    ensures OnlyLost(d, Retention.DeletePurging(codec, d, host, run, budget).0, run)
  {
    hide SelectedEvents, SelectedCheckpoints, Ids, TotalSize, HasHistory;
  }

  lemma SameRowsLoseNothing(d: Db, e: Db, run: RunId)
    requires SameRows(d, e, run)
    ensures OnlyLost(d, e, run)
  {}

  function Rank(state: RunState): nat {
    match state case Active => 0 case Purging => 1 case Purged => 2
  }

  /** A workflow registry row is never deleted, keeps its kind, and its state and floor only advance. */
  ghost predicate RegistryAdvances(d: Db, e: Db, run: RunId) {
    run in d.registry && d.registry[run].kind == Workflow ==>
      && run in e.registry && e.registry[run].kind == Workflow
      && Rank(d.registry[run].state) <= Rank(e.registry[run].state)
      && d.registry[run].floor <= e.registry[run].floor
  }

  lemma RegistryStep(codec: Codec, d: Db, s: Step, run: RunId)
    requires Valid(codec, d)
    ensures RegistryAdvances(d, Next(codec, d, s), run)
  {
    if RunOf(s.op) != Some(run) {
      OtherRunsUntouched(codec, d, s, run);
      hide Valid, Execute, SameLog, SameEvents;
    } else {
      OwnRegistryStep(codec, d, s, run);
    }
  }

  lemma OwnRegistryStep(codec: Codec, d: Db, s: Step, run: RunId)
    requires Valid(codec, d) && RunOf(s.op) == Some(run)
    ensures RegistryAdvances(d, Next(codec, d, s), run)
  {
    hide EventSide, CheckpointSide, RowsSized, Retention.PurgeJournalRun, Retention.Compact, Retention.Enroll, Retention.DeletePurging,
      Transactions.Append, Transactions.AppendFenced, Transactions.Claim, Transactions.Write, Transactions.RenewLease, Transactions.Create;
    match s.op
    case Create(record, duration) => CreateKeepsValid(codec, d, s.now, s.host, record, duration); CreateRefused(codec, d, s);
    case Claim(candidate, duration, version) => if Execute(codec, d, s).Ok? { ClaimEvolves(codec, d, s); }
    case RenewLease(lease) => if Execute(codec, d, s).Ok? { RenewEvolves(codec, d, s); }
    case Write(record, duration, version, terminal) => if Execute(codec, d, s).Ok? { WriteEvolves(codec, d, s); }
    case Append(event) => AppendKeepsValid(codec, d, s.now, s.host, event);
    case AppendFenced(event, fence) => AppendFencedKeepsValid(codec, d, s.now, s.host, event, fence);
    case Enroll(r, before) => EnrollKeepsValid(codec, d, s.host, r, before); HeadsActive(codec, d, r);
    case DeletePurging(r, budget) => DeletePurgingRegistry(codec, d, s.host, r, budget);
    case PurgeJournalRun(r, ordinals, before) => PurgeJournalRegistry(d, r, ordinals, before);
    case Compact(request) => CompactIsExact(codec, d, request);
    case SkipOrdinals(count) =>
  }

  lemma HeadsActive(codec: Codec, d: Db, run: RunId)
    requires Valid(codec, d)
    ensures run in d.heads <==> ActiveWorkflow(d, run)
  {}

  lemma CreateRefused(codec: Codec, d: Db, s: Step)
    requires Valid(codec, d) && s.op.Create?
    ensures Execute(codec, d, s).Ok? ==> s.op.record.runId !in d.registry
  {
    CreateKeepsOtherLogs(codec, d, s);
  }

  lemma DeletePurgingRegistry(codec: Codec, d: Db, host: Time, run: RunId, budget: Budget)
    ensures var e := Retention.DeletePurging(codec, d, host, run, budget).0;
      && e.heads == d.heads && e.nextOrdinal == d.nextOrdinal
      && (e.registry == d.registry ||
          (IsPurging(d, run) && e.registry == d.registry[run := d.registry[run].(state := Purged, updatedAt := host)]))
  {
    hide SelectedEvents, SelectedCheckpoints, Ids, TotalSize, HasHistory, OrdinalsOf;
  }

  lemma PurgeJournalRegistry(d: Db, run: RunId, ordinals: set<Ordinal>, before: Time)
    ensures var e := Retention.PurgeJournalRun(d, run, ordinals, before).0;
      e.registry == d.registry || (IsJournal(d, run) && e.registry == d.registry - {run})
  {
    hide EligibleOrdinals, OrdinalsOf;
  }

  lemma OwnStepOnlyLoses(codec: Codec, d: Db, s: Step, run: RunId)
    requires Valid(codec, d) && Retired(d, run) && RunOf(s.op) == Some(run)
    ensures OnlyLost(d, Next(codec, d, s), run)
  {
    hide Valid, OnlyLost, Execute, Retention.DeletePurging, SameRows, Retired;
    if s.op.DeletePurging? {
      DeletePurgingOnlyLoses(codec, d, s.host, run, s.op.budget);
      DeletePurgingExecutes(codec, d, s);
    } else {
      SameRowsReflexive(d, run);
      RetiredRefusesWrites(codec, d, s, run);
      SameRowsLoseNothing(d, d, run);
    }
  }

  lemma DeletePurgingExecutes(codec: Codec, d: Db, s: Step)
    requires s.op.DeletePurging?
    ensures Next(codec, d, s) == Retention.DeletePurging(codec, d, s.host, s.op.run, s.op.budget).0
  {
    hide Retention.DeletePurging;
  }

  lemma SameRowsReflexive(d: Db, run: RunId)
    ensures SameRows(d, d, run)
  {}

  /** Once retired, always retired, and rows are only ever lost. */
  lemma RetiredStep(codec: Codec, d: Db, s: Step, run: RunId)
    requires Valid(codec, d) && Retired(d, run)
    ensures Retired(Next(codec, d, s), run) && OnlyLost(d, Next(codec, d, s), run)
  {
    hide Valid, SameRows, OnlyLost, Next;
    RegistryStep(codec, d, s, run);
    if RunOf(s.op) != Some(run) {
      OtherRunsUntouched(codec, d, s, run);
      SameRowsLoseNothing(d, Next(codec, d, s), run);
    } else {
      OwnStepOnlyLoses(codec, d, s, run);
    }
  }

  lemma {:induction false} RetiredForever(codec: Codec, d: Db, steps: seq<Step>, run: RunId)
    requires Valid(codec, d) && Retired(d, run)
    ensures var e := Exec(codec, d, steps); Retired(e, run) && OnlyLost(d, e, run) && Valid(codec, e)
    decreases |steps|
  {
    hide Valid, Retired;
    if steps != [] {
      var d1 := Next(codec, d, steps[0]);
      RetiredStep(codec, d, steps[0], run);
      NextKeepsValid(codec, d, steps[0]);
      RetiredForever(codec, d1, steps[1..], run);
    }
  }

  /** A tombstone is permanent: after any run of transactions the run is still retired, every late
      write to it fails, and once purged it has no row besides its registry row. */
  lemma TombstonesArePermanent(codec: Codec, d: Db, steps: seq<Step>, run: RunId, late: Step)
    requires Valid(codec, d) && Retired(d, run) && RunOf(late.op) == Some(run)
    requires !(late.op.Enroll? || late.op.DeletePurging? || late.op.PurgeJournalRun?)
    ensures var e := Exec(codec, d, steps);
      && Retired(e, run) && OnlyLost(d, e, run)
      && Execute(codec, e, late).Err? && Load(e, run).Err?
      && (e.registry[run].state == Purged ==>
            OrdinalsOf(e, run) == {} && Versions(e, run) == {} && run !in e.heads
            && forall o | o in e.retention :: e.retention[o].run != run)
  {
    var e := Exec(codec, d, steps);
    RetiredForever(codec, d, steps, run);
    RetiredRefusesWrites(codec, e, late, run);
    PurgedIsEmpty(codec, e, run);
    hide Execute, Valid, OnlyLost;
  }

  lemma PurgedIsEmpty(codec: Codec, d: Db, run: RunId)
    requires Valid(codec, d) && run in d.registry && d.registry[run].kind == Workflow
    ensures d.registry[run].state == Purged ==>
      && OrdinalsOf(d, run) == {} && Versions(d, run) == {} && run !in d.heads
      && forall o | o in d.retention :: d.retention[o].run != run
  {
    assert run in d.heads <==> ActiveWorkflow(d, run);
    if d.registry[run].state == Purged {
      forall k | k in d.checkpoints ensures k.run != run {}
      forall o | o in d.events ensures d.events[o].runId != run {}
      assert OrdinalsOf(d, run) == {} && Versions(d, run) == {};
    }
  }
}
