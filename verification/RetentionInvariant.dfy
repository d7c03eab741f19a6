/** The retention transactions keep the invariant, and in a valid database none of their
    consistency failures can occur. */
module RetentionInvariant {
  import opened Tables
  import opened Transactions
  import opened Retention
  import opened Protocol
  import opened Invariant

  lemma WithoutEventsShape(d: Db, run: RunId, ordinals: set<Ordinal>)
    requires EventsRetained(d) && ordinals <= OrdinalsOf(d, run)
    ensures var e := WithoutEvents(d, run, ordinals);
      && e.events.Keys == d.events.Keys - ordinals && EventsRetained(e)
      && OrdinalsOf(d, run) * ordinals == ordinals
      && (forall r :: OrdinalsOf(e, r) == OrdinalsOf(d, r) - ordinals)
      && (forall r | r != run :: OrdinalsOf(e, r) == OrdinalsOf(d, r))
  {
    var e := WithoutEvents(d, run, ordinals);
    assert OrdinalsOf(d, run) * ordinals == ordinals;
    forall r | r != run ensures OrdinalsOf(e, r) == OrdinalsOf(d, r) {
      assert forall o | o in OrdinalsOf(d, r) :: o !in ordinals;
    }
  }

  lemma WithoutEventsKeepsEventSide(d: Db, run: RunId, ordinals: set<Ordinal>)
    requires EventSide(d) && ordinals <= OrdinalsOf(d, run)
    requires run in d.registry && d.registry[run].kind == Workflow
    ensures EventSide(WithoutEvents(d, run, ordinals))
  {
    WithoutEventsShape(d, run, ordinals);
  }

  /** Enrolling never meets a missing or mismatched head, and retires exactly a run whose newest
      checkpoint is terminal and older than the cutoff. */
  lemma EnrollKeepsValid(codec: Codec, d: Db, host: Time, run: RunId, before: Time)
    requires Valid(codec, d)
    ensures var r := Retention.Enroll(d, host, run, before);
      && (r.Err? <==> !(run in d.registry && d.registry[run].kind == Workflow))
      && (r.Err? ==> r.error == NotActiveWorkflow)
      && (r.Ok? ==> Valid(codec, r.value))
      && (r.Ok? ==>
            if run in d.heads && Terminal(d.heads[run].status) && d.heads[run].updatedAt < before
            then r.value == d.(heads := d.heads - {run},
                               registry := d.registry[run := d.registry[run].(state := Purging, updatedAt := host)])
            else r.value == d)
  {
    assert run in d.heads <==> ActiveWorkflow(d, run);
    if run in d.heads {
      HeadIsLatest(codec, d, run);
      RetireKeepsValid(codec, d, run, d.registry[run].(state := Purging, updatedAt := host));
      hide EventSide, CheckpointSide, RowsSized;
      assert Latest(d, run).runId == run;
    }
  }

  /** Dropping the head of an active run together with its active state. */
  lemma RetireKeepsValid(codec: Codec, d: Db, run: RunId, row: Registry)
    requires Valid(codec, d) && run in d.heads && run in d.registry
    requires row.kind == Workflow && row.state == Purging && row.floor == d.registry[run].floor
    ensures Valid(codec, d.(heads := d.heads - {run}, registry := d.registry[run := row]))
  {
    hide LogWellFormed;
    var e := d.(heads := d.heads - {run}, registry := d.registry[run := row]);
    assert forall q :: OrdinalsOf(d, q) == OrdinalsOf(e, q);
    forall q ensures q in e.heads <==> ActiveWorkflow(e, q) { assert q in d.heads <==> ActiveWorkflow(d, q); }
    forall q | q in e.heads ensures LogWellFormed(e.checkpoints, q, e.heads[q]) {}
  }

  /** The event half of a deletion step removes listed events of the purging run only. */
  lemma DeleteRunLogsShape(codec: Codec, d: Db, run: RunId, budget: Budget)
    requires Valid(codec, d) && IsPurging(d, run)
    ensures var (e, part) := DeleteRunLogs(codec, d, run, budget);
      var gone := Ids(SelectedEvents(codec, d, run, budget));
      && gone <= OrdinalsOf(d, run) && part.rows == |gone|
      && e.events.Keys == d.events.Keys - gone && (forall r :: OrdinalsOf(e, r) == OrdinalsOf(d, r) - gone)
      && e == d.(events := e.events, retention := e.retention)
      && (forall o | o in e.events :: e.events[o] == d.events[o])
      && Valid(codec, e)
  {
    var e := DeleteRunLogs(codec, d, run, budget).0;
    var gone := Ids(SelectedEvents(codec, d, run, budget));
    assert gone <= OrdinalsOf(d, run);
    WithoutEventsShape(d, run, gone);
    WithoutEventsKeepsEventSide(d, run, gone);
    CheckpointSideFrame(d, e);
  }

  /** The checkpoint half removes listed checkpoints of the purging run only. */
  lemma DeleteCheckpointsShape(codec: Codec, d: Db, run: RunId, budget: Budget)
    requires Valid(codec, d) && IsPurging(d, run)
    ensures var (e, part) := DeleteCheckpoints(codec, d, run, budget);
      var gone := KeysAt(d, run, Ids(SelectedCheckpoints(codec, d, run, budget)));
      && part.rows == |gone|
      && e == d.(checkpoints := d.checkpoints - gone)
      && Valid(codec, e)
  {
    var e := DeleteCheckpoints(codec, d, run, budget).0;
    EventSideFrame(d, e);
    RetireKeepsCheckpointSide(d, e, run, KeysAt(d, run, Ids(SelectedCheckpoints(codec, d, run, budget))));
  }

  lemma RetireKeepsCheckpointSide(d: Db, e: Db, run: RunId, gone: set<Key>)
    requires CheckpointSide(d) && run in d.registry && d.registry[run].kind == Workflow && d.registry[run].state != Active
    requires e.heads == d.heads && e.checkpoints == d.checkpoints - gone && forall k | k in gone :: k.run == run
    requires e.registry == d.registry
    ensures CheckpointSide(e)
  {
    assert run in d.heads <==> ActiveWorkflow(d, run);
    forall q ensures q in e.heads <==> ActiveWorkflow(e, q) { assert q in d.heads <==> ActiveWorkflow(d, q); }
    forall q | q in e.heads ensures LogWellFormed(e.checkpoints, q, e.heads[q]) {
      LogFrame(d.checkpoints, e.checkpoints, q, d.heads[q]);
    }
  }

  lemma CompletePurgeKeepsValid(codec: Codec, d: Db, host: Time, run: RunId)
    requires Valid(codec, d) && IsPurging(d, run)
    ensures Valid(codec, CompletePurge(d, host, run).0)
  {
    var e := CompletePurge(d, host, run).0;
    if !HasHistory(d, run) {
      hide LogWellFormed;
      assert forall r :: OrdinalsOf(d, r) == OrdinalsOf(e, r);
      forall o | o in e.events ensures d.events[o].runId != run { assert o !in OrdinalsOf(d, run); }
      forall k | k in e.checkpoints ensures k.run != run { assert k.version !in Versions(d, run) || k.run != run; }
      CheckpointSideFrame(d, e);
    }
  }

  lemma DeleteRunLogsKeepsValid(codec: Codec, d: Db, run: RunId, budget: Budget)
    requires Valid(codec, d) && IsPurging(d, run)
    ensures var e := DeleteRunLogs(codec, d, run, budget).0; Valid(codec, e) && IsPurging(e, run)
  {
    DeleteRunLogsShape(codec, d, run, budget);
  }

  lemma DeleteCheckpointsKeepsValid(codec: Codec, d: Db, run: RunId, budget: Budget)
    requires Valid(codec, d) && IsPurging(d, run)
    ensures var e := DeleteCheckpoints(codec, d, run, budget).0; Valid(codec, e) && IsPurging(e, run)
  {
    DeleteCheckpointsShape(codec, d, run, budget);
  }

  function RestBudget(codec: Codec, d: Db, run: RunId, budget: Budget): Budget {
    var events := DeleteRunLogs(codec, d, run, budget).1;
    Budget(budget.rows - events.rows, budget.bytes - events.bytes)
  }

  /** The database after both halves of a deletion step, before the purge is marked complete. */
  function AfterDeletions(codec: Codec, d: Db, run: RunId, budget: Budget): Db {
    DeleteCheckpoints(codec, DeleteRunLogs(codec, d, run, budget).0, run, RestBudget(codec, d, run, budget)).0
  }

  lemma AfterDeletionsValid(codec: Codec, d: Db, run: RunId, budget: Budget)
    requires Valid(codec, d) && IsPurging(d, run)
    ensures Valid(codec, AfterDeletions(codec, d, run, budget)) && IsPurging(AfterDeletions(codec, d, run, budget), run)
  {
    DeleteRunLogsKeepsValid(codec, d, run, budget);
    DeleteCheckpointsKeepsValid(codec, DeleteRunLogs(codec, d, run, budget).0, run, RestBudget(codec, d, run, budget));
  }

  lemma DeletionsKeepPurging(codec: Codec, d: Db, run: RunId, budget: Budget)
    ensures DeleteRunLogs(codec, d, run, budget).0.registry == d.registry
    ensures DeleteCheckpoints(codec, d, run, budget).0.registry == d.registry
  {
    hide SelectedEvents, SelectedCheckpoints, Ids, TotalSize, OrdinalsOf, KeysAt;
  }

  lemma DeletePurgingUnfolded(codec: Codec, d: Db, host: Time, run: RunId, budget: Budget)
    requires IsPurging(d, run)
    ensures IsPurging(AfterDeletions(codec, d, run, budget), run)
    ensures var (e, deletion) := Retention.DeletePurging(codec, d, host, run, budget);
      && e == CompletePurge(AfterDeletions(codec, d, run, budget), host, run).0
      && deletion.complete == CompletePurge(AfterDeletions(codec, d, run, budget), host, run).1
  {
    hide DeleteCheckpoints, DeleteRunLogs, CompletePurge, IsPurging;
    AfterDeletionsPurging(codec, d, run, budget);
  }

  lemma AfterDeletionsPurging(codec: Codec, d: Db, run: RunId, budget: Budget)
    requires IsPurging(d, run)
    ensures IsPurging(AfterDeletions(codec, d, run, budget), run)
  {
    hide DeleteCheckpoints, DeleteRunLogs;
    DeletionsKeepPurging(codec, d, run, budget);
    DeletionsKeepPurging(codec, DeleteRunLogs(codec, d, run, budget).0, run, RestBudget(codec, d, run, budget));
  }

  lemma DeletePurgingKeepsValid(codec: Codec, d: Db, host: Time, run: RunId, budget: Budget)
    requires Valid(codec, d)
    ensures Valid(codec, Retention.DeletePurging(codec, d, host, run, budget).0)
  {
    if IsPurging(d, run) {
      hide DeleteCheckpoints, DeleteRunLogs;
      AfterDeletionsValid(codec, d, run, budget);
      CompletePurgeKeepsValid(codec, AfterDeletions(codec, d, run, budget), host, run);
      DeletePurgingUnfolded(codec, d, host, run, budget);
    }
  }

  /** A journal purge step deletes exactly the listed, still-old events of an active journal, and
      drops the registry row exactly when the last event goes. */
  lemma PurgeJournalShape(codec: Codec, d: Db, run: RunId, ordinals: set<Ordinal>, before: Time)
    requires Valid(codec, d) && IsJournal(d, run)
    ensures var (e, n) := Retention.PurgeJournalRun(d, run, ordinals, before);
      var gone := EligibleOrdinals(d, run, ordinals, before);
      && gone <= OrdinalsOf(d, run) && n == |gone|
      && e.events.Keys == d.events.Keys - gone && e.retention == d.retention - gone
      && (forall o | o in e.events :: e.events[o] == d.events[o])
      && (forall r | r != run :: OrdinalsOf(e, r) == OrdinalsOf(d, r)) && OrdinalsOf(e, run) == OrdinalsOf(d, run) - gone
      && e.checkpoints == d.checkpoints && e.heads == d.heads && e.nextOrdinal == d.nextOrdinal
      && e.registry == (if OrdinalsOf(e, run) == {} then d.registry - {run} else d.registry)
  {
    var gone := EligibleOrdinals(d, run, ordinals, before);
    forall o | o in gone ensures o in OrdinalsOf(d, run) { assert o in d.events; }
    WithoutEventsShape(d, run, gone);
    if gone == {} {
      assert WithoutEvents(d, run, gone).events == d.events;
    } else {
      var d1, e := WithoutEvents(d, run, gone), Retention.PurgeJournalRun(d, run, ordinals, before).0;
      assert forall r :: OrdinalsOf(e, r) == OrdinalsOf(d1, r);
    }
  }

  lemma JournalRowsKeepEventSide(d: Db, e: Db, run: RunId, gone: set<Ordinal>)
    requires EventSide(d) && IsJournal(d, run) && gone <= OrdinalsOf(d, run)
    requires e.events.Keys == d.events.Keys - gone && e.retention == d.retention - gone && e.nextOrdinal == d.nextOrdinal
    requires forall o | o in e.events :: e.events[o] == d.events[o]
    requires forall r | r != run :: OrdinalsOf(e, r) == OrdinalsOf(d, r)
    requires e.registry == (if OrdinalsOf(e, run) == {} then d.registry - {run} else d.registry)
    ensures EventSide(e)
  {
    forall o | o in e.events ensures e.events[o].runId in e.registry {
      assert o in OrdinalsOf(e, e.events[o].runId);
    }
  }

  lemma PurgeJournalKeepsValid(codec: Codec, d: Db, run: RunId, ordinals: set<Ordinal>, before: Time)
    requires Valid(codec, d)
    ensures Valid(codec, Retention.PurgeJournalRun(d, run, ordinals, before).0)
  {
    if IsJournal(d, run) {
      PurgeJournalShape(codec, d, run, ordinals, before);
      var e := Retention.PurgeJournalRun(d, run, ordinals, before).0;
      CheckpointSideFrame(d, e);
      hide CheckpointSide;
      JournalRowsKeepEventSide(d, e, run, EligibleOrdinals(d, run, ordinals, before));
      hide EventSide;
      RowsSizedSubset(codec, d, e);
    }
  }
}
