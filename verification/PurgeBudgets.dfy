/** Whatever other clients do in between, one `PurgeTerminalRuns` call never fails halfway, deletes at
    most its row and byte budgets, and reports exactly the rows it removed. */
module PurgeBudgets {
  import opened Options
  import opened Ordering
  import opened Tables
  import opened Retention
  import opened Protocol
  import opened Invariant
  import opened RetentionInvariant
  import opened Compaction
  import opened Reachability
  import opened Tombstones
  import opened PurgeCall

  /** The byte-bounded selection is the longest prefix that fits. */
  lemma {:induction false} FittingIsLongest(cs: seq<Candidate>, limit: int)
    requires 0 <= limit && forall i | 0 <= i < |cs| :: 0 < cs[i].size
    ensures var n := FittingCount(cs, limit);
      && TotalSize(cs[..n]) <= limit
      && (n < |cs| ==> limit < TotalSize(cs[..n]) + cs[n].size)
    decreases |cs|
  {
    if cs != [] && cs[0].size <= limit {
      assert cs[..1][1..] == [];
      if cs[0].size < limit {
        var n := FittingCount(cs[1..], limit - cs[0].size);
        FittingIsLongest(cs[1..], limit - cs[0].size);
        assert cs[..n + 1][1..] == cs[1..][..n];
      }
    }
  }

  lemma {:induction false} TotalSizeIsSum(cs: seq<Candidate>, size: int -> nat)
    requires forall i | 0 <= i < |cs| :: cs[i].size == size(cs[i].id)
    requires forall i, j | 0 <= i < j < |cs| :: cs[i].id != cs[j].id
    ensures SumOver(Ids(cs), size) == TotalSize(cs) && |Ids(cs)| == |cs|
    decreases |cs|
  {
    if cs == [] {
      assert Ids(cs) == {};
    } else {
      IdsRest(cs);
      hide Ids;
      SumRemove(Ids(cs), cs[0].id, size);
      TotalSizeIsSum(cs[1..], size);
    }
  }

  lemma IdsRest(cs: seq<Candidate>)
    requires cs != [] && forall i, j | 0 <= i < j < |cs| :: cs[i].id != cs[j].id
    ensures cs[0].id in Ids(cs) && Ids(cs) - {cs[0].id} == Ids(cs[1..])
  {
    var x := cs[0].id;
    assert cs[0] in cs;
    forall y ensures y in Ids(cs) - {x} <==> y in Ids(cs[1..]) {
      if y in Ids(cs) - {x} {
        var i :| 0 <= i < |cs| && cs[i].id == y;
        assert cs[1..][i - 1] == cs[i];
      }
      if y in Ids(cs[1..]) {
        var i :| 0 <= i < |cs[1..]| && cs[1..][i].id == y;
        assert cs[i + 1] in cs;
      }
    }
  }

  lemma {:induction false} SumSame(s: set<int>, f: int -> nat, g: int -> nat)
    requires forall x | x in s :: f(x) == g(x)
    ensures SumOver(s, f) == SumOver(s, g)
    decreases |s|
  {
    if s != {} {
      var m := Least(s, IntLe);
      SumSame(s - {m}, f, g);
    }
  }

  /** Removing a part of a set removes its share of the sum. */
  lemma SumSubset(s: set<int>, part: set<int>, f: int -> nat, rest: set<int>, g: int -> nat)
    requires part <= s && rest == s - part && forall x | x in rest :: f(x) == g(x)
    ensures SumOver(s, f) == SumOver(part, f) + SumOver(rest, g)
  {
    SumDisjoint(part, rest, f);
    assert part + rest == s;
    SumSame(rest, f, g);
  }

  function VersionSize(codec: Codec, d: Db, run: RunId): int -> nat {
    (v: int) => if Key(run, v) in d.checkpoints then CheckpointBytes(codec, d.checkpoints[Key(run, v)]) else 0
  }

  function EventBytes(codec: Codec, d: Db, run: RunId): nat {
    SumOver(OrdinalsOf(d, run), EventSize(codec, d))
  }

  function LogBytes(codec: Codec, d: Db, run: RunId): nat {
    SumOver(Versions(d, run), VersionSize(codec, d, run))
  }

  ghost predicate Selection(cs: seq<Candidate>, budget: Budget) {
    && (forall i, j | 0 <= i < j < |cs| :: cs[i].id != cs[j].id)
    && |cs| <= (if budget.rows < 0 then 0 else budget.rows)
    && TotalSize(cs) <= (if budget.bytes < 0 then 0 else budget.bytes)
  }

  lemma FittingSelects(cs: seq<Candidate>, budget: Budget)
    requires 0 < budget.rows && 0 < budget.bytes && |cs| <= budget.rows
    requires forall i, j | 0 <= i < j < |cs| :: cs[i].id != cs[j].id
    requires forall i | 0 <= i < |cs| :: 0 < cs[i].size
    ensures Selection(Fitting(cs, budget.bytes), budget)
  {
    FittingIsLongest(cs, budget.bytes);
  }

  lemma DistinctEvents(codec: Codec, d: Db, run: RunId, limit: int)
    ensures var cs := RunLogCandidates(codec, d, run, limit);
      forall i, j | 0 <= i < j < |cs| :: cs[i].id != cs[j].id
  {
    BySequenceIsTotal(d.events);
    var rows := Limited(Sorted(OrdinalsOf(d, run), BySequence(d.events)), AtLeastZero(limit));
    var cs := RunLogCandidates(codec, d, run, limit);
    assert |cs| == |rows| && forall i | 0 <= i < |cs| :: cs[i] == EventCandidate(codec, d, rows[i]);
  }

  lemma DistinctCheckpoints(codec: Codec, d: Db, run: RunId, limit: int)
    ensures var cs := CheckpointCandidates(codec, d, run, limit);
      forall i, j | 0 <= i < j < |cs| :: cs[i].id != cs[j].id
  {
    IntLeIsTotal();
    var rows := Limited(Sorted(Versions(d, run), IntLe), AtLeastZero(limit));
    var cs := CheckpointCandidates(codec, d, run, limit);
    assert |cs| == |rows| && forall i | 0 <= i < |cs| :: cs[i] == CheckpointCandidate(codec, d, run, rows[i]);
  }

  lemma EventSelection(codec: Codec, d: Db, run: RunId, budget: Budget)
    ensures Selection(SelectedEvents(codec, d, run, budget), budget)
  {
    hide Fitting, RunLogCandidates;
    DistinctEvents(codec, d, run, budget.rows);
    if 0 < budget.rows && 0 < budget.bytes {
      FittingSelects(RunLogCandidates(codec, d, run, budget.rows), budget);
    }
  }

  lemma CheckpointSelection(codec: Codec, d: Db, run: RunId, budget: Budget)
    ensures Selection(SelectedCheckpoints(codec, d, run, budget), budget)
  {
    hide Fitting, CheckpointCandidates, CheckpointBytes;
    DistinctCheckpoints(codec, d, run, budget.rows);
    if 0 < budget.rows && 0 < budget.bytes {
      var cs := CheckpointCandidates(codec, d, run, budget.rows);
      forall i | 0 <= i < |cs| ensures 0 < cs[i].size { StoredBytesPositive(codec, d.checkpoints[Key(run, cs[i].id)]); }
      FittingSelects(cs, budget);
    }
  }

  lemma StoredBytesPositive(codec: Codec, record: Checkpoint)
    ensures 0 < CheckpointBytes(codec, record)
  {}

  lemma KeysRemoved<T>(before: set<T>, after: set<T>, gone: set<T>)
    requires gone <= before && after == before - gone
    ensures |gone| == |before| - |after|
  {}

  lemma EventBytesDeleted(codec: Codec, d: Db, run: RunId, budget: Budget)
    requires Valid(codec, d) && IsPurging(d, run)
    ensures var (e, part) := DeleteRunLogs(codec, d, run, budget);
      && part.rows == |d.events| - |e.events| == |SelectedEvents(codec, d, run, budget)|
      && part.bytes == EventBytes(codec, d, run) - EventBytes(codec, e, run)
      && e.checkpoints == d.checkpoints
      && Selection(SelectedEvents(codec, d, run, budget), budget) && part.bytes == TotalSize(SelectedEvents(codec, d, run, budget))
  {
    var cs := SelectedEvents(codec, d, run, budget);
    DeleteRunLogsShape(codec, d, run, budget);
    EventSelection(codec, d, run, budget);
    SelectedEventSizes(codec, d, run, budget);
    hide Valid, SelectedEvents, Ids, TotalSize, WithoutEvents, OrdinalsOf, EventBytes;
    EventsGone(codec, d, DeleteRunLogs(codec, d, run, budget).0, run, cs);
  }

  lemma EventsGone(codec: Codec, d: Db, e: Db, run: RunId, cs: seq<Candidate>)
    requires forall i | 0 <= i < |cs| :: cs[i].size == EventSize(codec, d)(cs[i].id)
    requires forall i, j | 0 <= i < j < |cs| :: cs[i].id != cs[j].id
    requires Ids(cs) <= OrdinalsOf(d, run) && OrdinalsOf(e, run) == OrdinalsOf(d, run) - Ids(cs)
    requires e.events.Keys == d.events.Keys - Ids(cs) && forall o | o in e.events :: e.events[o] == d.events[o]
    ensures |cs| == |Ids(cs)| == |d.events| - |e.events|
    ensures TotalSize(cs) == EventBytes(codec, d, run) - EventBytes(codec, e, run)
  {
    hide Ids, TotalSize, SumOver, OrdinalsOf;
    TotalSizeIsSum(cs, EventSize(codec, d));
    OrdinalsAreKeys(d, run);
    OrdinalsAreKeys(e, run);
    KeysRemoved(d.events.Keys, e.events.Keys, Ids(cs));
    SumSubset(OrdinalsOf(d, run), Ids(cs), EventSize(codec, d), OrdinalsOf(e, run), EventSize(codec, e));
  }

  lemma OrdinalsAreKeys(d: Db, run: RunId)
    ensures OrdinalsOf(d, run) <= d.events.Keys
  {}

  lemma SelectedEventSizes(codec: Codec, d: Db, run: RunId, budget: Budget)
    ensures forall i | 0 <= i < |SelectedEvents(codec, d, run, budget)| ::
      var c := SelectedEvents(codec, d, run, budget)[i]; c.size == EventSize(codec, d)(c.id)
  {
    hide RunLogCandidates;
  }

  lemma SelectedCheckpointSizes(codec: Codec, d: Db, run: RunId, budget: Budget)
    ensures forall i | 0 <= i < |SelectedCheckpoints(codec, d, run, budget)| ::
      var c := SelectedCheckpoints(codec, d, run, budget)[i]; c.size == VersionSize(codec, d, run)(c.id) && Key(run, c.id) in d.checkpoints
  {
    hide CheckpointCandidates;
  }

  lemma {:induction false} KeysAtSize(d: Db, run: RunId, versions: set<int>)
    requires forall v | v in versions :: Key(run, v) in d.checkpoints
    ensures |KeysAt(d, run, versions)| == |versions|
    decreases |versions|
  {
    if versions == {} {
      assert KeysAt(d, run, versions) == {};
    } else {
      var v := Least(versions, IntLe);
      assert KeysAt(d, run, versions) - {Key(run, v)} == KeysAt(d, run, versions - {v});
      assert Key(run, v) in KeysAt(d, run, versions);
      KeysAtSize(d, run, versions - {v});
    }
  }

  lemma VersionsRemoved(d: Db, run: RunId, versions: set<int>)
    requires forall v | v in versions :: Key(run, v) in d.checkpoints
    ensures versions <= Versions(d, run) && Versions(WithoutCheckpoints(d, run, versions), run) == Versions(d, run) - versions
  {
    var e := WithoutCheckpoints(d, run, versions);
    forall v ensures (v in Versions(e, run) <==> Key(run, v) in e.checkpoints) && (v in Versions(d, run) <==> Key(run, v) in d.checkpoints) {}
    forall v ensures v in Versions(e, run) <==> v in Versions(d, run) - versions {}
    forall v | v in versions ensures v in Versions(d, run) { assert Key(run, v) in d.checkpoints; }
  }

  lemma WithoutCheckpointsShape(d: Db, run: RunId, versions: set<int>)
    requires forall v | v in versions :: Key(run, v) in d.checkpoints
    ensures var e := WithoutCheckpoints(d, run, versions);
      && versions <= Versions(d, run) && Versions(e, run) == Versions(d, run) - versions
      && |e.checkpoints| == |d.checkpoints| - |versions| && |KeysAt(d, run, versions)| == |versions|
  {
    var e, gone := WithoutCheckpoints(d, run, versions), KeysAt(d, run, versions);
    KeysAtSize(d, run, versions);
    VersionsRemoved(d, run, versions);
    assert e.checkpoints.Keys == d.checkpoints.Keys - gone && gone <= d.checkpoints.Keys;
    KeysRemoved(d.checkpoints.Keys, e.checkpoints.Keys, gone);
  }

  lemma CheckpointBytesDeleted(codec: Codec, d: Db, run: RunId, budget: Budget)
    ensures var (e, part) := DeleteCheckpoints(codec, d, run, budget);
      && part.rows == |d.checkpoints| - |e.checkpoints| == |SelectedCheckpoints(codec, d, run, budget)|
      && part.bytes == LogBytes(codec, d, run) - LogBytes(codec, e, run)
      && e == d.(checkpoints := e.checkpoints)
      && Selection(SelectedCheckpoints(codec, d, run, budget), budget) && part.bytes == TotalSize(SelectedCheckpoints(codec, d, run, budget))
  {
    var e := DeleteCheckpoints(codec, d, run, budget).0;
    var cs := SelectedCheckpoints(codec, d, run, budget);
    CheckpointSelection(codec, d, run, budget);
    SelectedCheckpointSizes(codec, d, run, budget);
    TotalSizeIsSum(cs, VersionSize(codec, d, run));
    WithoutCheckpointsShape(d, run, Ids(cs));
    hide SelectedCheckpoints, TotalSize, SumOver, CheckpointBytes;
    forall v | v in Versions(e, run) ensures VersionSize(codec, d, run)(v) == VersionSize(codec, e, run)(v) {}
    hide Versions;
    SumSubset(Versions(d, run), Ids(cs), VersionSize(codec, d, run), Versions(e, run), VersionSize(codec, e, run));
  }

  function AtLeastZero(n: int): nat {
    if n < 0 then 0 else n
  }

  /** The report of a deletion step is what it removed, and stays within its budget. */
  ghost predicate Accurate(codec: Codec, part: Deletion, budget: Budget) {
    var d, e, r := part.before, part.after, part.report;
    && 0 <= r.events == |d.events| - |e.events|
    && 0 <= r.checkpoints == |d.checkpoints| - |e.checkpoints|
    && 0 <= r.bytes == EventBytes(codec, d, part.run) + LogBytes(codec, d, part.run) - EventBytes(codec, e, part.run) - LogBytes(codec, e, part.run)
    && r.events + r.checkpoints <= AtLeastZero(budget.rows) && r.bytes <= AtLeastZero(budget.bytes)
    && (r.complete <==> IsPurging(d, part.run) && part.run in e.registry && e.registry[part.run].state == Purged)
    && (forall q | q != part.run :: SameRows(d, e, q))
  }

  lemma LogBytesFrame(codec: Codec, d: Db, e: Db, run: RunId)
    requires e.checkpoints == d.checkpoints
    ensures LogBytes(codec, e, run) == LogBytes(codec, d, run)
  {
    hide SumOver, CheckpointBytes;
    assert Versions(e, run) == Versions(d, run);
    hide Versions;
    SumSame(Versions(d, run), VersionSize(codec, d, run), VersionSize(codec, e, run));
  }

  lemma EventBytesFrame(codec: Codec, d: Db, e: Db, run: RunId)
    requires e.events == d.events
    ensures EventBytes(codec, e, run) == EventBytes(codec, d, run)
  {
    assert OrdinalsOf(e, run) == OrdinalsOf(d, run);
    hide SumOver, OrdinalsOf;
    SumSame(OrdinalsOf(d, run), EventSize(codec, d), EventSize(codec, e));
  }

  lemma CompletionKeepsRows(codec: Codec, d: Db, host: Time, run: RunId)
    requires run in d.registry
    ensures var (e, complete) := CompletePurge(d, host, run);
      && e == d.(registry := e.registry) && run in e.registry
      && (if complete then e.registry[run].state == Purged else e == d)
      && EventBytes(codec, e, run) == EventBytes(codec, d, run) && LogBytes(codec, e, run) == LogBytes(codec, d, run)
  {
    hide HasHistory;
    var e := CompletePurge(d, host, run).0;
    EventBytesFrame(codec, d, e, run);
    LogBytesFrame(codec, d, e, run);
  }

  /** Both halves of a deletion step, summed. */
  lemma DeletionsAccount(codec: Codec, d: Db, run: RunId, budget: Budget)
    requires Valid(codec, d) && IsPurging(d, run)
    ensures var d1 := DeleteRunLogs(codec, d, run, budget).0; var rest := RestBudget(codec, d, run, budget);
      var events, checkpoints := DeleteRunLogs(codec, d, run, budget).1, DeleteCheckpoints(codec, d1, run, rest).1;
      var e := AfterDeletions(codec, d, run, budget);
      && 0 <= events.rows == |d.events| - |e.events| && 0 <= checkpoints.rows == |d.checkpoints| - |e.checkpoints|
      && 0 <= events.bytes && 0 <= checkpoints.bytes
      && events.bytes + checkpoints.bytes
           == EventBytes(codec, d, run) + LogBytes(codec, d, run) - EventBytes(codec, e, run) - LogBytes(codec, e, run)
      && events.rows + checkpoints.rows <= AtLeastZero(budget.rows) && events.bytes + checkpoints.bytes <= AtLeastZero(budget.bytes)
      && e.registry == d.registry
  {
    hide Valid, DeleteRunLogs, DeleteCheckpoints, SelectedEvents, SelectedCheckpoints, EventBytes, LogBytes, TotalSize;
    var d1, rest := DeleteRunLogs(codec, d, run, budget).0, RestBudget(codec, d, run, budget);
    EventBytesDeleted(codec, d, run, budget);
    CheckpointBytesDeleted(codec, d1, run, rest);
    LogBytesFrame(codec, d, d1, run);
    EventBytesFrame(codec, d1, AfterDeletions(codec, d, run, budget), run);
    DeleteRunLogsKeepRegistry(codec, d, run, budget);
  }

  lemma DeleteRunLogsKeepRegistry(codec: Codec, d: Db, run: RunId, budget: Budget)
    ensures DeleteRunLogs(codec, d, run, budget).0.registry == d.registry
  {
    hide SelectedEvents, OrdinalsOf, Ids;
  }

  lemma DeletePurgingReport(codec: Codec, d: Db, host: Time, run: RunId, budget: Budget)
    requires IsPurging(d, run)
    ensures var d1 := DeleteRunLogs(codec, d, run, budget).0; var rest := RestBudget(codec, d, run, budget);
      var events, checkpoints := DeleteRunLogs(codec, d, run, budget).1, DeleteCheckpoints(codec, d1, run, rest).1;
      Retention.DeletePurging(codec, d, host, run, budget).1
        == HistoryDeletion(events.rows, checkpoints.rows, events.bytes + checkpoints.bytes, CompletePurge(AfterDeletions(codec, d, run, budget), host, run).1)
  {
    hide DeleteRunLogs, DeleteCheckpoints, CompletePurge;
  }

  lemma DeletionIsAccurate(codec: Codec, d: Db, host: Time, run: RunId, budget: Budget)
    requires Valid(codec, d)
    ensures var (e, report) := Retention.DeletePurging(codec, d, host, run, budget);
      Accurate(codec, Deletion(run, d, e, report), budget) && Valid(codec, e)
  {
    hide Valid, Retention.DeletePurging, DeleteRunLogs, DeleteCheckpoints, AfterDeletions, EventBytes, LogBytes, RestBudget, SameRows, CompletePurge;
    forall q | q != run ensures SameRows(d, Retention.DeletePurging(codec, d, host, run, budget).0, q) {
      DeletePurgingElsewhere(codec, d, host, run, budget, q);
    }
    DeletePurgingKeepsValid(codec, d, host, run, budget);
    if IsPurging(d, run) {
      DeletionsAccount(codec, d, run, budget);
      DeletePurgingUnfolded(codec, d, host, run, budget);
      DeletePurgingReport(codec, d, host, run, budget);
      CompletionKeepsRows(codec, AfterDeletions(codec, d, run, budget), host, run);
    } else {
      DeletePurgingIdle(codec, d, host, run, budget);
    }
  }

  /** `e` is what some interleaving of transactions makes of `d`. */
  ghost predicate Reaches(codec: Codec, d: Db, e: Db) {
    exists steps :: Exec(codec, d, steps) == e
  }

  lemma ReachesTransitive(codec: Codec, d: Db, e: Db, f: Db)
    requires Reaches(codec, d, e) && Reaches(codec, e, f)
    ensures Reaches(codec, d, f)
  {
    var a :| Exec(codec, d, a) == e;
    var b :| Exec(codec, e, b) == f;
    ExecAppend(codec, d, a, b);
  }

  lemma StepReaches(codec: Codec, d: Db, s: Step)
    ensures Reaches(codec, d, Next(codec, d, s))
  {
    hide Next;
    assert Exec(codec, d, [s]) == Exec(codec, Next(codec, d, s), [s][1..]);
  }

  lemma WaitReaches(codec: Codec, env: Environment, w: World)
    ensures Reaches(codec, w.d, Wait(codec, env, w).d)
  {}

  lemma ReachedIsValid(codec: Codec, d: Db, e: Db)
    requires Valid(codec, d) && Reaches(codec, d, e)
    ensures Valid(codec, e)
  {
    var steps :| Exec(codec, d, steps) == e;
    ExecKeepsValid(codec, d, steps);
  }

  lemma {:induction false} WorkflowForever(codec: Codec, d: Db, steps: seq<Step>, run: RunId)
    requires Valid(codec, d) && IsWorkflow(d, run)
    ensures IsWorkflow(Exec(codec, d, steps), run)
    decreases |steps|
  {
    hide Valid, Next;
    if steps != [] {
      RegistryStep(codec, d, steps[0], run);
      NextKeepsValid(codec, d, steps[0]);
      WorkflowForever(codec, Next(codec, d, steps[0]), steps[1..], run);
    }
  }

  lemma ReachedIsWorkflow(codec: Codec, d: Db, e: Db, run: RunId)
    requires Valid(codec, d) && Reaches(codec, d, e) && IsWorkflow(d, run)
    ensures IsWorkflow(e, run)
  {
    var steps :| Exec(codec, d, steps) == e;
    WorkflowForever(codec, d, steps, run);
  }

  lemma FitsReaches(codec: Codec, env: Environment, w: World, run: RunId, budget: Budget)
    ensures Reaches(codec, w.d, FirstHistoryRowFits(codec, env, w, run, budget).0.d)
  {
    hide RunLogCandidates, CheckpointCandidates, Exec;
    assert Reaches(codec, w.d, w.d) by { ExecNothing(codec, w.d); }
    var w1 := Wait(codec, env, w);
    WaitReaches(codec, env, w);
    WaitReaches(codec, env, w1);
    ReachesTransitive(codec, w.d, w1.d, Wait(codec, env, w1).d);
    hide Reaches, Wait;
  }

  lemma ExecNothing(codec: Codec, d: Db)
    ensures Exec(codec, d, []) == d
  {}

  /** Enrolling listed workflow runs never fails, whatever happens in between. */
  lemma {:induction false} EnrollAllSucceeds(codec: Codec, env: Environment, w: World, runs: seq<RunId>, before: Time, budget: Budget)
    requires Valid(codec, w.d) && forall i | 0 <= i < |runs| :: IsWorkflow(w.d, runs[i])
    ensures var r := EnrollAll(codec, env, w, runs, before, budget); r.error == None && Reaches(codec, w.d, r.w.d)
    decreases |runs|
  {
    hide Valid, Reaches, Wait, FirstHistoryRowFits, Retention.Enroll;
    if runs == [] {
      assert Reaches(codec, w.d, w.d) by { ExecNothing(codec, w.d); StaysReached(codec, w.d); }
    } else {
      var (w1, fits) := FirstHistoryRowFits(codec, env, w, runs[0], budget);
      FitsReaches(codec, env, w, runs[0], budget);
      if fits {
        var w2, host := Wait(codec, env, w1), env(w1.turn).host;
        WaitReaches(codec, env, w1);
        ReachesTransitive(codec, w.d, w1.d, w2.d);
        ReachedIsValid(codec, w.d, w2.d);
        ReachedIsWorkflow(codec, w.d, w2.d, runs[0]);
        EnrollKeepsValid(codec, w2.d, host, runs[0], before);
        var e := Retention.Enroll(w2.d, host, runs[0], before).value;
        EnrollReaches(codec, w2.d, host, runs[0], before);
        ReachesTransitive(codec, w.d, w2.d, e);
        forall i | 0 <= i < |runs[1..]| ensures IsWorkflow(e, runs[1..][i]) { ReachedIsWorkflow(codec, w.d, e, runs[i + 1]); }
        EnrollAllSucceeds(codec, env, w2.(d := e), runs[1..], before, budget);
        ReachesTransitive(codec, w.d, e, EnrollAll(codec, env, w, runs, before, budget).w.d);
      }
    }
  }

  lemma StaysReached(codec: Codec, d: Db)
    ensures Reaches(codec, d, d)
  {
    ExecNothing(codec, d);
  }

  lemma EnrollReaches(codec: Codec, d: Db, host: Time, run: RunId, before: Time)
    requires Retention.Enroll(d, host, run, before).Ok?
    ensures Reaches(codec, d, Retention.Enroll(d, host, run, before).value)
  {
    hide Retention.Enroll;
    StepReaches(codec, d, Step(Op.Enroll(run, before), 0, host));
  }

  lemma DeleteReaches(codec: Codec, d: Db, host: Time, run: RunId, budget: Budget)
    ensures Reaches(codec, d, Retention.DeletePurging(codec, d, host, run, budget).0)
  {
    hide Retention.DeletePurging;
    StepReaches(codec, d, Step(Op.DeletePurging(run, budget), 0, host));
  }

  /** Each deletion reports what it removed; together they stay within the budget. */
  ghost predicate AllAccurate(codec: Codec, deletions: seq<Deletion>, budget: Budget)
    decreases |deletions|
  {
    deletions != [] ==> Accurate(codec, deletions[0], budget) && AllAccurate(codec, deletions[1..], Remaining(budget, deletions[0].report))
  }

  lemma {:induction false} SweepIsAccurate(codec: Codec, env: Environment, w: World, runs: seq<RunId>, budget: Budget)
    requires Valid(codec, w.d)
    ensures var r := DeleteAll(codec, env, w, runs, budget);
      && AllAccurate(codec, r.deletions, budget) && |r.deletions| <= |runs|
      && Reaches(codec, w.d, r.w.d)
    decreases |runs|
  {
    hide Valid, Reaches, Wait, Retention.DeletePurging, Accurate;
    StaysReached(codec, w.d);
    if runs != [] {
      var w1, host := Wait(codec, env, w), env(w.turn).host;
      WaitReaches(codec, env, w);
      ReachedIsValid(codec, w.d, w1.d);
      var (e, report) := Retention.DeletePurging(codec, w1.d, host, runs[0], budget);
      DeletionIsAccurate(codec, w1.d, host, runs[0], budget);
      DeleteReaches(codec, w1.d, host, runs[0], budget);
      ReachesTransitive(codec, w.d, w1.d, e);
      var part, rest := Deletion(runs[0], w1.d, e, report), Remaining(budget, report);
      if rest.rows <= 0 || rest.bytes <= 0 {
        assert [part][1..] == [];
      } else {
        SweepIsAccurate(codec, env, w1.(d := e), runs[1..], rest);
        var sweep := DeleteAll(codec, env, w1.(d := e), runs[1..], rest);
        assert ([part] + sweep.deletions)[1..] == sweep.deletions;
        ReachesTransitive(codec, w.d, e, sweep.w.d);
      }
    }
  }

  function EventsRemoved(deletions: seq<Deletion>): int {
    if deletions == [] then 0 else |deletions[0].before.events| - |deletions[0].after.events| + EventsRemoved(deletions[1..])
  }

  function CheckpointsRemoved(deletions: seq<Deletion>): int {
    if deletions == [] then 0 else |deletions[0].before.checkpoints| - |deletions[0].after.checkpoints| + CheckpointsRemoved(deletions[1..])
  }

  /** How many of the deletions took a purging run to its end. */
  function RunsEnded(deletions: seq<Deletion>): nat {
    if deletions == [] then 0
    else
      var d, e, run := deletions[0].before, deletions[0].after, deletions[0].run;
      (if IsPurging(d, run) && run in e.registry && e.registry[run].state == Purged then 1 else 0) + RunsEnded(deletions[1..])
  }

  lemma {:induction false} AccurateTotals(codec: Codec, deletions: seq<Deletion>, budget: Budget)
    requires AllAccurate(codec, deletions, budget)
    ensures TotalEvents(deletions) == EventsRemoved(deletions) && TotalCheckpoints(deletions) == CheckpointsRemoved(deletions)
    ensures TotalEvents(deletions) + TotalCheckpoints(deletions) <= AtLeastZero(budget.rows)
    ensures TotalBytes(deletions) <= AtLeastZero(budget.bytes) && TotalRuns(deletions) == RunsEnded(deletions)
    decreases |deletions|
  {
    hide EventBytes, LogBytes, SameRows;
    if deletions != [] { AccurateTotals(codec, deletions[1..], Remaining(budget, deletions[0].report)); }
  }

  /** A valid request always completes; over all its transactions it removes at most `rowLimit` rows and
      `byteLimit` bytes and reports exactly the rows it removed, under any interference. The call is
      itself one of the interleavings every other theorem quantifies over. */
  lemma PurgeStaysWithinBudget(codec: Codec, env: Environment, w: World, request: PurgeRequest)
    requires Valid(codec, w.d)
    ensures var r, budget := PurgeTerminalRuns(codec, env, w, request), PurgeBudget(request);
      && (r.result.Ok? <==>
            request.before != ZERO_TIME && 0 <= request.limit <= 1000
            && 0 <= request.rowLimit <= 10000 && 0 <= request.byteLimit <= 1024 * 1024 * 1024)
      && Reaches(codec, w.d, r.w.d) && Valid(codec, r.w.d)
      && (r.result.Ok? ==>
            && r.result.value.events == EventsRemoved(r.deletions)
            && r.result.value.checkpoints == CheckpointsRemoved(r.deletions)
            && r.result.value.runs == RunsEnded(r.deletions) && r.result.value.pending == |PurgingRuns(r.w.d)|
            && r.result.value.events + r.result.value.checkpoints <= budget.rows
            && TotalBytes(r.deletions) <= budget.bytes
            && AllAccurate(codec, r.deletions, budget)
            && |r.deletions| <= RunLimit(request))
  {
    hide Valid, Reaches, Wait, EnrollPhase, DeletePhase, Accurate, PurgingRuns;
    StaysReached(codec, w.d);
    if ValidPurgeRequest(request) {
      var w1 := EnrollPhase(codec, env, w, request).w;
      EnrollPhaseSucceeds(codec, env, w, request);
      ReachedIsValid(codec, w.d, w1.d);
      var sweep := DeletePhase(codec, env, w1, request);
      DeletePhaseAccurate(codec, env, w1, request);
      AccurateTotals(codec, sweep.deletions, PurgeBudget(request));
      ReachesTransitive(codec, w.d, w1.d, sweep.w.d);
      WaitReaches(codec, env, sweep.w);
      ReachesTransitive(codec, w.d, sweep.w.d, Wait(codec, env, sweep.w).d);
      ReachedIsValid(codec, w.d, Wait(codec, env, sweep.w).d);
    } else {
      ReachedIsValid(codec, w.d, w.d);
    }
  }

  lemma EnrollPhaseSucceeds(codec: Codec, env: Environment, w: World, request: PurgeRequest)
    requires Valid(codec, w.d) && ValidPurgeRequest(request)
    ensures var r := EnrollPhase(codec, env, w, request); r.error == None && Reaches(codec, w.d, r.w.d)
  {
    hide Valid, Reaches, Wait, PurgingPage, TerminalPage, EnrollAll;
    var w1 := Wait(codec, env, w);
    var w2 := Wait(codec, env, w1);
    WaitReaches(codec, env, w);
    WaitReaches(codec, env, w1);
    ReachesTransitive(codec, w.d, w1.d, w2.d);
    ReachedIsValid(codec, w.d, w2.d);
    var capacity := RunLimit(request) - |PurgingPage(w1.d, RunLimit(request))|;
    if 0 < capacity {
      var page := TerminalPage(w2.d, request.before, capacity);
      forall i | 0 <= i < |page| ensures IsWorkflow(w2.d, page[i]) { assert Eligible(w2.d, page[i], request.before); }
      EnrollAllSucceeds(codec, env, w2, page, request.before, PurgeBudget(request));
      ReachesTransitive(codec, w.d, w2.d, EnrollPhase(codec, env, w, request).w.d);
    }
  }

  lemma DeletePhaseAccurate(codec: Codec, env: Environment, w: World, request: PurgeRequest)
    requires Valid(codec, w.d) && ValidPurgeRequest(request)
    ensures var r := DeletePhase(codec, env, w, request);
      && AllAccurate(codec, r.deletions, PurgeBudget(request)) && |r.deletions| <= RunLimit(request)
      && Reaches(codec, w.d, r.w.d)
  {
    hide Valid, Reaches, Wait, PurgingPage, DeleteAll, Accurate;
    var w1 := Wait(codec, env, w);
    WaitReaches(codec, env, w);
    ReachedIsValid(codec, w.d, w1.d);
    SweepIsAccurate(codec, env, w1, PurgingPage(w1.d, RunLimit(request)), PurgeBudget(request));
    ReachesTransitive(codec, w.d, w1.d, DeletePhase(codec, env, w, request).w.d);
  }
}
