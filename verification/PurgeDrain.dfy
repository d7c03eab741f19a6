/** On a store nobody else writes to, repeated purge calls empty every terminal run old enough and touch
    nothing else; a call is stuck exactly when no selected run has a row that fits its byte budget. */
module PurgeDrain {
  import opened Ordering
  import opened Tables
  import opened Retention
  import opened Protocol
  import opened Invariant
  import opened RetentionInvariant
  import opened Tombstones
  import opened PurgeCall
  import opened PurgeBudgets

  ghost predicate Quiescent(env: Environment) {
    forall turn :: env(turn).others == []
  }

  predicate IsPurged(d: Db, run: RunId) {
    IsWorkflow(d, run) && d.registry[run].state == Purged
  }

  /** The runs a purge with this cutoff is to empty. */
  predicate Doomed(d: Db, run: RunId, before: Time) {
    IsPurging(d, run) || Eligible(d, run, before)
  }

  function Unpurged(d: Db): set<RunId> {
    set r | r in d.registry && IsWorkflow(d, r) && !IsPurged(d, r)
  }

  /** Stored history rows plus workflow runs not yet purged. */
  function Work(d: Db): nat {
    |d.events| + |d.checkpoints| + |Unpurged(d)|
  }

  /** From `d` to `e` doomed runs stay doomed or get purged, no other run changes, and work only shrinks. */
  ghost predicate Moves(d: Db, e: Db, before: Time) {
    && (forall r | Doomed(e, r, before) :: Doomed(d, r, before))
    && (forall r | Doomed(d, r, before) :: Doomed(e, r, before) || IsPurged(e, r))
    && (forall r | !Doomed(d, r, before) :: SameRows(d, e, r))
    && Work(e) <= Work(d)
  }

  lemma SameRowsTransitive(d: Db, e: Db, f: Db, run: RunId)
    requires SameRows(d, e, run) && SameRows(e, f, run)
    ensures SameRows(d, f, run)
  {}

  lemma SameRowsSameFate(d: Db, e: Db, run: RunId, before: Time)
    requires SameRows(d, e, run)
    ensures Doomed(d, run, before) <==> Doomed(e, run, before)
    ensures IsPurged(d, run) <==> IsPurged(e, run)
    ensures IsWorkflow(d, run) <==> IsWorkflow(e, run)
  {
    forall k: Key | k.run == run ensures k in d.checkpoints <==> k in e.checkpoints { assert k == Key(run, k.version); }
  }

  lemma MovesTransitive(d: Db, e: Db, f: Db, before: Time)
    requires Moves(d, e, before) && Moves(e, f, before)
    ensures Moves(d, f, before)
  {
    hide Doomed, SameRows, Work, IsPurged;
    forall r | !Doomed(d, r, before) ensures SameRows(d, f, r) { SameRowsTransitive(d, e, f, r); }
    forall r | Doomed(d, r, before) ensures Doomed(f, r, before) || IsPurged(f, r) {
      if !Doomed(e, r, before) {
        SameRowsSameFate(e, f, r, before);
      }
    }
  }

  lemma StaysPut(d: Db, before: Time)
    ensures Moves(d, d, before)
  {}

  lemma EnrollMoves(codec: Codec, d: Db, host: Time, run: RunId, before: Time)
    requires Valid(codec, d) && Retention.Enroll(d, host, run, before).Ok?
    ensures var e := Retention.Enroll(d, host, run, before).value;
      && Moves(d, e, before) && Valid(codec, e)
      && (Eligible(d, run, before) ==> IsPurging(e, run))
      && (forall q | IsPurging(d, q) :: IsPurging(e, q))
  {
    hide Retention.Enroll, EventSide, CheckpointSide, RowsSized;
    var e := Retention.Enroll(d, host, run, before).value;
    EnrollKeepsValid(codec, d, host, run, before);
    HeadsActive(codec, d, run);
    if e != d {
      HeadIsNewest(codec, d, run);
      assert Eligible(d, run, before) && IsPurging(e, run);
      EnrolledElsewhere(d, e, run);
      hide SameRows, Moves;
      EnrolledMoves(d, e, run, before);
    } else {
      StaysPut(d, before);
    }
  }

  lemma EnrolledElsewhere(d: Db, e: Db, run: RunId)
    requires run in e.registry && e == d.(heads := d.heads - {run}, registry := d.registry[run := e.registry[run]])
    ensures forall r | r != run :: SameRows(d, e, r)
  {}

  lemma HeadIsNewest(codec: Codec, d: Db, run: RunId)
    requires Valid(codec, d) && run in d.heads
    ensures forall k | k in d.checkpoints && k.run == run :: k.version <= d.heads[run].version
  {
    assert LogWellFormed(d.checkpoints, run, d.heads[run]);
    forall k | k in d.checkpoints && k.run == run ensures k.version <= d.heads[run].version {
      assert k == Key(run, k.version);
    }
  }

  lemma EnrolledMoves(d: Db, e: Db, run: RunId, before: Time)
    requires Eligible(d, run, before) && IsPurging(e, run)
    requires e.events == d.events && e.checkpoints == d.checkpoints
    requires forall r | r != run :: SameRows(d, e, r)
    ensures Moves(d, e, before)
  {
    hide SameRows;
    forall r | r != run ensures (Doomed(d, r, before) <==> Doomed(e, r, before)) && (r in Unpurged(d) <==> r in Unpurged(e)) {
      SameRowsSameFate(d, e, r, before);
    }
    assert Unpurged(d) == Unpurged(e);
    assert Doomed(d, run, before) && Doomed(e, run, before);
    hide Doomed;
  }

  /** Some row of `run` fits the budget, or none is left. */
  ghost predicate CanDelete(codec: Codec, d: Db, run: RunId, budget: Budget) {
    || !HasHistory(d, run)
    || (0 < budget.rows && 0 < budget.bytes
        && ((OrdinalsOf(d, run) != {} && RunLogCandidates(codec, d, run, 1)[0].size <= budget.bytes)
            || (Versions(d, run) != {} && CheckpointCandidates(codec, d, run, 1)[0].size <= budget.bytes)))
  }

  lemma FirstEvent(codec: Codec, d: Db, run: RunId, limit: int)
    requires 0 < limit
    ensures var one, cs := RunLogCandidates(codec, d, run, 1), RunLogCandidates(codec, d, run, limit);
      && (OrdinalsOf(d, run) != {} <==> cs != []) && (OrdinalsOf(d, run) != {} <==> one != [])
      && (cs != [] ==> one[0] == cs[0])
  {
    BySequenceIsTotal(d.events);
    var all := Sorted(OrdinalsOf(d, run), BySequence(d.events));
    var one, cs := RunLogCandidates(codec, d, run, 1), RunLogCandidates(codec, d, run, limit);
    assert |cs| == |Limited(all, limit)| && |one| == |Limited(all, 1)|;
    assert cs != [] ==> cs[0] == EventCandidate(codec, d, all[0]) && one[0] == EventCandidate(codec, d, all[0]);
  }

  lemma FirstCheckpoint(codec: Codec, d: Db, run: RunId, limit: int)
    requires 0 < limit
    ensures var one, cs := CheckpointCandidates(codec, d, run, 1), CheckpointCandidates(codec, d, run, limit);
      && (Versions(d, run) != {} <==> cs != []) && (Versions(d, run) != {} <==> one != [])
      && (cs != [] ==> one[0] == cs[0])
  {
    IntLeIsTotal();
    hide CheckpointBytes;
    var all := Sorted(Versions(d, run), IntLe);
    var one, cs := CheckpointCandidates(codec, d, run, 1), CheckpointCandidates(codec, d, run, limit);
    assert |cs| == |Limited(all, limit)| && |one| == |Limited(all, 1)|;
    assert cs != [] ==> cs[0] == CheckpointCandidate(codec, d, run, all[0]) && one[0] == CheckpointCandidate(codec, d, run, all[0]);
  }

  lemma SelectsEvents(codec: Codec, d: Db, run: RunId, budget: Budget)
    ensures SelectedEvents(codec, d, run, budget) != [] <==>
      0 < budget.rows && 0 < budget.bytes && OrdinalsOf(d, run) != {} && RunLogCandidates(codec, d, run, 1)[0].size <= budget.bytes
  {
    hide RunLogCandidates;
    if 0 < budget.rows { FirstEvent(codec, d, run, budget.rows); } else { FirstEvent(codec, d, run, 1); }
  }

  lemma SelectsCheckpoints(codec: Codec, d: Db, run: RunId, budget: Budget)
    ensures SelectedCheckpoints(codec, d, run, budget) != [] <==>
      0 < budget.rows && 0 < budget.bytes && Versions(d, run) != {} && CheckpointCandidates(codec, d, run, 1)[0].size <= budget.bytes
  {
    hide CheckpointCandidates, CheckpointBytes;
    if 0 < budget.rows { FirstCheckpoint(codec, d, run, budget.rows); } else { FirstCheckpoint(codec, d, run, 1); }
  }

  lemma NothingSelected(codec: Codec, d: Db, run: RunId, budget: Budget)
    ensures SelectedEvents(codec, d, run, budget) == [] ==>
      DeleteRunLogs(codec, d, run, budget) == (d, HistoryPart(0, 0)) && RestBudget(codec, d, run, budget) == budget
    ensures SelectedCheckpoints(codec, d, run, budget) == [] ==>
      DeleteCheckpoints(codec, d, run, budget) == (d, HistoryPart(0, 0))
  {
    hide SelectedEvents, SelectedCheckpoints;
    assert d.retention - {} == d.retention && d.events - {} == d.events && d.checkpoints - {} == d.checkpoints;
    assert OrdinalsOf(d, run) * {} == {};
    assert Ids([]) == {} && KeysAt(d, run, {}) == {};
  }

  /** The deletions of a step remove no row exactly when no row fits. */
  lemma DeletionsProgress(codec: Codec, d: Db, run: RunId, budget: Budget)
    requires Valid(codec, d) && IsPurging(d, run) && HasHistory(d, run)
    ensures var e := AfterDeletions(codec, d, run, budget);
      && (CanDelete(codec, d, run, budget) ==> |e.events| + |e.checkpoints| < |d.events| + |d.checkpoints|)
      && (!CanDelete(codec, d, run, budget) ==> e == d)
  {
    hide Valid, DeleteRunLogs, DeleteCheckpoints, SelectedEvents, SelectedCheckpoints, HasHistory, EventBytes, LogBytes, TotalSize,
      RunLogCandidates, CheckpointCandidates, OrdinalsOf, Versions;
    var d1, rest := DeleteRunLogs(codec, d, run, budget).0, RestBudget(codec, d, run, budget);
    SelectsEvents(codec, d, run, budget);
    EventBytesDeleted(codec, d, run, budget);
    CheckpointBytesDeleted(codec, d1, run, rest);
    if SelectedEvents(codec, d, run, budget) == [] {
      NothingSelected(codec, d, run, budget);
      SelectsCheckpoints(codec, d, run, budget);
      hide RestBudget;
    }
  }

  lemma UnpurgedAfterCompletion(d: Db, e: Db, run: RunId)
    requires IsPurging(d, run) && IsPurged(e, run) && forall r | r != run :: IsWorkflow(e, r) && !IsPurged(e, r) <==> IsWorkflow(d, r) && !IsPurged(d, r)
    ensures |Unpurged(e)| == |Unpurged(d)| - 1
  {
    assert Unpurged(e) == Unpurged(d) - {run};
  }

  lemma UnpurgedSame(d: Db, e: Db)
    requires e.registry == d.registry
    ensures Unpurged(e) == Unpurged(d)
  {}

  /** One deletion step makes progress exactly when some row fits or none is left, and otherwise changes nothing. */
  lemma DeletionProgress(codec: Codec, d: Db, host: Time, run: RunId, budget: Budget)
    requires Valid(codec, d) && IsPurging(d, run)
    ensures var (e, report) := Retention.DeletePurging(codec, d, host, run, budget);
      if CanDelete(codec, d, run, budget) then Work(e) < Work(d)
      else e == d && report == HistoryDeletion(0, 0, 0, false)
  {
    hide Valid, CanDelete, Retention.DeletePurging, AfterDeletions, HasHistory, Unpurged, SameRows, EventBytes, LogBytes, IsWorkflow;
    var (e, report) := Retention.DeletePurging(codec, d, host, run, budget);
    var d2 := AfterDeletions(codec, d, run, budget);
    DeletePurgingUnfolded(codec, d, host, run, budget);
    DeletionIsAccurate(codec, d, host, run, budget);
    DeletionsAccount(codec, d, run, budget);
    if HasHistory(d, run) {
      DeletionsProgress(codec, d, run, budget);
      CompletionWork(d2, host, run);
      UnpurgedSame(d, d2);
    } else {
      CanDeleteNothing(codec, d, run, budget);
      NoHistoryNoDeletion(codec, d, run, budget);
      CompletionWork(d, host, run);
    }
  }

  lemma CanDeleteNothing(codec: Codec, d: Db, run: RunId, budget: Budget)
    requires !HasHistory(d, run)
    ensures CanDelete(codec, d, run, budget)
  {}

  lemma NoHistoryNoDeletion(codec: Codec, d: Db, run: RunId, budget: Budget)
    requires !HasHistory(d, run)
    ensures AfterDeletions(codec, d, run, budget) == d
  {
    hide DeleteRunLogs, DeleteCheckpoints, SelectedEvents, SelectedCheckpoints, RunLogCandidates, CheckpointCandidates, OrdinalsOf, Versions;
    SelectsEvents(codec, d, run, budget);
    NothingSelected(codec, d, run, budget);
    SelectsCheckpoints(codec, d, run, budget);
    hide RestBudget;
  }

  lemma CompletionWork(d: Db, host: Time, run: RunId)
    requires IsPurging(d, run)
    ensures var e := CompletePurge(d, host, run).0;
      && e.events == d.events && e.checkpoints == d.checkpoints
      && (if HasHistory(d, run) then e == d else |Unpurged(e)| == |Unpurged(d)| - 1)
  {
    hide HasHistory;
    var e := CompletePurge(d, host, run).0;
    if !HasHistory(d, run) {
      hide Unpurged;
      UnpurgedAfterCompletion(d, e, run);
    }
  }

  lemma DeletionMoves(codec: Codec, d: Db, host: Time, run: RunId, budget: Budget, before: Time)
    requires Valid(codec, d)
    ensures var (e, report) := Retention.DeletePurging(codec, d, host, run, budget);
      Moves(d, e, before) && Valid(codec, e)
  {
    hide Valid, Retention.DeletePurging, CanDelete, SameRows, Work, EventBytes, LogBytes;
    var e := Retention.DeletePurging(codec, d, host, run, budget).0;
    DeletionIsAccurate(codec, d, host, run, budget);
    if IsPurging(d, run) {
      DeletionProgress(codec, d, host, run, budget);
      DeletePurgingRegistry(codec, d, host, run, budget);
      forall r | r != run ensures Doomed(d, r, before) <==> Doomed(e, r, before) { SameRowsSameFate(d, e, r, before); }
      PurgingIsDoomed(d, run, before);
      PurgingOrPurged(d, e, host, run, before);
      hide Doomed, IsPurged;
    } else {
      DeletePurgingIdle(codec, d, host, run, budget);
      StaysPut(d, before);
    }
  }

  lemma PurgingIsDoomed(d: Db, run: RunId, before: Time)
    requires IsPurging(d, run)
    ensures Doomed(d, run, before)
  {}

  lemma PurgingOrPurged(d: Db, e: Db, host: Time, run: RunId, before: Time)
    requires IsPurging(d, run)
    requires e.registry == d.registry || e.registry == d.registry[run := d.registry[run].(state := Purged, updatedAt := host)]
    ensures Doomed(e, run, before) || IsPurged(e, run)
  {}

  lemma QuietWait(codec: Codec, env: Environment, w: World)
    requires Quiescent(env)
    ensures Wait(codec, env, w) == World(w.d, w.turn + 1)
  {}

  ghost predicate KeepsPurging(d: Db, e: Db) {
    forall q | IsPurging(d, q) :: IsPurging(e, q)
  }

  lemma {:induction false} EnrollAllMoves(codec: Codec, env: Environment, w: World, runs: seq<RunId>, before: Time, budget: Budget)
    requires Valid(codec, w.d) && Quiescent(env)
    ensures var r := EnrollAll(codec, env, w, runs, before, budget);
      Moves(w.d, r.w.d, before) && Valid(codec, r.w.d) && KeepsPurging(w.d, r.w.d)
    decreases |runs|
  {
    hide Valid, Moves, Quiescent, Wait, Retention.Enroll, Eligible, IsPurging, RunLogCandidates, CheckpointCandidates;
    StaysPut(w.d, before);
    if runs != [] {
      var (w1, fits) := FirstHistoryRowFits(codec, env, w, runs[0], budget);
      QuietWait(codec, env, w);
      QuietWait(codec, env, Wait(codec, env, w));
      assert w1.d == w.d;
      if fits {
        QuietWait(codec, env, w1);
        var w2, host := Wait(codec, env, w1), env(w1.turn).host;
        var r := Retention.Enroll(w.d, host, runs[0], before);
        if r.Ok? {
          EnrollMoves(codec, w.d, host, runs[0], before);
          EnrollAllMoves(codec, env, w2.(d := r.value), runs[1..], before, budget);
          MovesTransitive(w.d, r.value, EnrollAll(codec, env, w, runs, before, budget).w.d, before);
        }
      }
    }
  }

  /** Ample budgets: every stored row fits. */
  predicate Ample(budget: Budget) {
    0 < budget.rows && MAX_CHECKPOINT_BYTES <= budget.bytes && MAX_RUNLOG_BYTES <= budget.bytes
  }

  lemma RowsFit(codec: Codec, d: Db, run: RunId, limit: int)
    requires Valid(codec, d)
    ensures forall i | 0 <= i < |RunLogCandidates(codec, d, run, limit)| :: RunLogCandidates(codec, d, run, limit)[i].size <= MAX_RUNLOG_BYTES
    ensures forall i | 0 <= i < |CheckpointCandidates(codec, d, run, limit)| :: CheckpointCandidates(codec, d, run, limit)[i].size <= MAX_CHECKPOINT_BYTES
  {
    hide RunLogCandidates, CheckpointCandidates, EventSide, CheckpointSide, CheckpointBytes;
  }

  lemma AmpleCanDelete(codec: Codec, d: Db, run: RunId, budget: Budget)
    requires Valid(codec, d) && Ample(budget)
    ensures CanDelete(codec, d, run, budget)
  {
    RowsFit(codec, d, run, 1);
    FirstEvent(codec, d, run, 1);
    FirstCheckpoint(codec, d, run, 1);
    hide RunLogCandidates, CheckpointCandidates, Valid, OrdinalsOf, Versions;
  }

  lemma AmpleFits(codec: Codec, env: Environment, w: World, run: RunId, budget: Budget)
    requires Valid(codec, w.d) && Ample(budget) && Quiescent(env)
    ensures var (w1, fits) := FirstHistoryRowFits(codec, env, w, run, budget); fits && w1.d == w.d
  {
    hide Valid, Wait, Quiescent, RunLogCandidates, CheckpointCandidates;
    QuietWait(codec, env, w);
    QuietWait(codec, env, Wait(codec, env, w));
    RowsFit(codec, w.d, run, 1);
  }

  /** With ample budgets the first eligible run listed becomes purging. */
  lemma EnrollAllEnrolls(codec: Codec, env: Environment, w: World, runs: seq<RunId>, before: Time, budget: Budget)
    requires Valid(codec, w.d) && Quiescent(env) && Ample(budget) && runs != [] && Eligible(w.d, runs[0], before)
    ensures IsPurging(EnrollAll(codec, env, w, runs, before, budget).w.d, runs[0])
  {
    hide Valid, Moves, Quiescent, Wait, Retention.Enroll, FirstHistoryRowFits, IsPurging;
    var w1 := FirstHistoryRowFits(codec, env, w, runs[0], budget).0;
    AmpleFits(codec, env, w, runs[0], budget);
    QuietWait(codec, env, w1);
    var w2, host := Wait(codec, env, w1), env(w1.turn).host;
    EnrollKeepsValid(codec, w.d, host, runs[0], before);
    EnrollMoves(codec, w.d, host, runs[0], before);
    var e := Retention.Enroll(w.d, host, runs[0], before).value;
    EnrollAllMoves(codec, env, w2.(d := e), runs[1..], before, budget);
  }

  ghost predicate AnyDoomed(d: Db, before: Time) {
    exists r :: Doomed(d, r, before)
  }

  lemma EnrollPhaseMoves(codec: Codec, env: Environment, w: World, request: PurgeRequest)
    requires Valid(codec, w.d) && Quiescent(env) && ValidPurgeRequest(request)
    ensures var e := EnrollPhase(codec, env, w, request).w.d;
      && Moves(w.d, e, request.before) && Valid(codec, e)
      && (Ample(PurgeBudget(request)) && AnyDoomed(w.d, request.before) ==> PurgingRuns(e) != {})
  {
    hide Valid, Moves, Quiescent, Wait, EnrollAll, PurgingPage, TerminalPage, Eligible, IsPurging, Ample;
    var w1 := Wait(codec, env, w);
    QuietWait(codec, env, w);
    QuietWait(codec, env, w1);
    var w2, limit, budget := Wait(codec, env, w1), RunLimit(request), PurgeBudget(request);
    StaysPut(w.d, request.before);
    var capacity := limit - |PurgingPage(w1.d, limit)|;
    var e := EnrollPhase(codec, env, w, request).w.d;
    if 0 < capacity {
      var page := TerminalPage(w2.d, request.before, capacity);
      EnrollAllMoves(codec, env, w2, page, request.before, budget);
      if page != [] && Ample(budget) {
        EnrollAllEnrolls(codec, env, w2, page, request.before, budget);
        PurgingMember(e, page[0]);
      }
    }
    assert KeepsPurging(w.d, e);
    if PurgingRuns(w.d) != {} {
      var r :| r in PurgingRuns(w.d);
      PurgingMember(e, r);
    } else if AnyDoomed(w.d, request.before) {
      var r :| Doomed(w.d, r, request.before);
      DoomedMember(w.d, r, request.before);
      var page := PurgingPage(w.d, limit);
      assert page == [] by { if page != [] { PurgingMember(w.d, page[0]); } }
    }
  }

  lemma PurgingMember(d: Db, run: RunId)
    ensures IsPurging(d, run) <==> run in PurgingRuns(d)
  {}

  lemma DoomedMember(d: Db, run: RunId, before: Time)
    requires Doomed(d, run, before)
    ensures run in PurgingRuns(d) || run in EligibleRuns(d, before)
  {}

  /** A sweep makes progress exactly when one of its runs can give up a row or be completed. */
  lemma {:induction false} SweepProgress(codec: Codec, env: Environment, w: World, runs: seq<RunId>, budget: Budget, before: Time)
    requires Valid(codec, w.d) && Quiescent(env) && 0 < budget.rows && 0 < budget.bytes
    requires forall i | 0 <= i < |runs| :: IsPurging(w.d, runs[i])
    ensures var e := DeleteAll(codec, env, w, runs, budget).w.d;
      && Moves(w.d, e, before) && Valid(codec, e)
      && (if exists i :: 0 <= i < |runs| && CanDelete(codec, w.d, runs[i], budget) then Work(e) < Work(w.d) else e == w.d)
    decreases |runs|
  {
    hide Valid, Moves, Quiescent, Wait, Retention.DeletePurging, CanDelete, IsPurging, Work;
    StaysPut(w.d, before);
    if runs != [] {
      QuietWait(codec, env, w);
      var w1, host := Wait(codec, env, w), env(w.turn).host;
      var (e, report) := Retention.DeletePurging(codec, w1.d, host, runs[0], budget);
      DeletionMoves(codec, w1.d, host, runs[0], budget, before);
      DeletionProgress(codec, w1.d, host, runs[0], budget);
      if CanDelete(codec, w.d, runs[0], budget) {
        StaysPut(e, before);
        SweepMoves(codec, env, w1.(d := e), runs[1..], Remaining(budget, report), before);
        var f := DeleteAll(codec, env, w, runs, budget).w.d;
        MovesTransitive(w.d, e, f, before);
        MovesShrink(e, f, before);
      } else {
        SweepProgress(codec, env, w1.(d := e), runs[1..], budget, before);
        assert (exists i :: 0 <= i < |runs| && CanDelete(codec, w.d, runs[i], budget))
          <==> (exists i :: 0 <= i < |runs[1..]| && CanDelete(codec, w.d, runs[1..][i], budget)) by {
          if exists i :: 0 <= i < |runs| && CanDelete(codec, w.d, runs[i], budget) {
            var i :| 0 <= i < |runs| && CanDelete(codec, w.d, runs[i], budget);
            assert runs[1..][i - 1] == runs[i];
          }
        }
      }
    }
  }

  lemma MovesShrink(d: Db, e: Db, before: Time)
    requires Moves(d, e, before)
    ensures Work(e) <= Work(d)
  {}

  lemma {:induction false} SweepMoves(codec: Codec, env: Environment, w: World, runs: seq<RunId>, budget: Budget, before: Time)
    requires Valid(codec, w.d) && Quiescent(env)
    ensures var e := DeleteAll(codec, env, w, runs, budget).w.d; Moves(w.d, e, before) && Valid(codec, e)
    decreases |runs|
  {
    hide Valid, Moves, Quiescent, Wait, Retention.DeletePurging;
    StaysPut(w.d, before);
    if runs != [] {
      QuietWait(codec, env, w);
      var w1, host := Wait(codec, env, w), env(w.turn).host;
      var (e, report) := Retention.DeletePurging(codec, w1.d, host, runs[0], budget);
      DeletionMoves(codec, w1.d, host, runs[0], budget, before);
      SweepMoves(codec, env, w1.(d := e), runs[1..], Remaining(budget, report), before);
      MovesTransitive(w.d, e, DeleteAll(codec, env, w1.(d := e), runs[1..], Remaining(budget, report)).w.d, before);
    }
  }

  /** The second phase of a call is stuck exactly when no selected run has a row that fits the budget:
      an oversized row is not deleted, not even alone. */
  lemma DeletePhaseProgress(codec: Codec, env: Environment, w: World, request: PurgeRequest)
    requires Valid(codec, w.d) && Quiescent(env) && ValidPurgeRequest(request)
    ensures var e, page, budget := DeletePhase(codec, env, w, request).w.d, PurgingPage(w.d, RunLimit(request)), PurgeBudget(request);
      && Moves(w.d, e, request.before) && Valid(codec, e)
      && (if exists i :: 0 <= i < |page| && CanDelete(codec, w.d, page[i], budget) then Work(e) < Work(w.d) else e == w.d)
  {
    hide Valid, Moves, Quiescent, Wait, PurgingPage, CanDelete, IsPurging, Work, DeleteAll;
    QuietWait(codec, env, w);
    var w1 := Wait(codec, env, w);
    SweepProgress(codec, env, w1, PurgingPage(w1.d, RunLimit(request)), PurgeBudget(request), request.before);
  }

  lemma CallMoves(codec: Codec, env: Environment, w: World, request: PurgeRequest)
    requires Valid(codec, w.d) && Quiescent(env) && ValidPurgeRequest(request)
    ensures var r := PurgeTerminalRuns(codec, env, w, request);
      && r.result.Ok? && Moves(w.d, r.w.d, request.before) && Valid(codec, r.w.d)
      && r.result.value.pending == |PurgingRuns(r.w.d)|
      && (Ample(PurgeBudget(request)) && AnyDoomed(w.d, request.before) ==> Work(r.w.d) < Work(w.d))
  {
    hide Valid, Moves, Quiescent, Wait, EnrollPhase, DeletePhase, CanDelete, Work, PurgingPage, PurgingRuns, IsPurging, AnyDoomed, Ample;
    var r := PurgeTerminalRuns(codec, env, w, request);
    var w1 := EnrollPhase(codec, env, w, request).w;
    var sweep := DeletePhase(codec, env, w1, request);
    EnrollPhaseSucceeds(codec, env, w, request);
    EnrollPhaseMoves(codec, env, w, request);
    DeletePhaseProgress(codec, env, w1, request);
    QuietWait(codec, env, sweep.w);
    MovesTransitive(w.d, w1.d, sweep.w.d, request.before);
    MovesShrink(w.d, w1.d, request.before);
    if Ample(PurgeBudget(request)) && AnyDoomed(w.d, request.before) {
      var page := PurgingPage(w1.d, RunLimit(request));
      AmpleCanDelete(codec, w1.d, page[0], PurgeBudget(request));
    }
  }

  /** `n` purge calls in a row. */
  function Calls(codec: Codec, env: Environment, w: World, request: PurgeRequest, n: nat): World
    decreases n
  {
    if n == 0 then w else Calls(codec, env, PurgeTerminalRuns(codec, env, w, request).w, request, n - 1)
  }

  /** With ample budgets, as many calls as there is work purge every doomed run completely, leave every
      other run exactly as it was, and find nothing more to do. */
  lemma {:induction false} PurgeDrains(codec: Codec, env: Environment, w: World, request: PurgeRequest, n: nat)
    requires Valid(codec, w.d) && Quiescent(env) && ValidPurgeRequest(request) && Ample(PurgeBudget(request))
    requires Work(w.d) <= n
    ensures var e := Calls(codec, env, w, request, n).d;
      && Valid(codec, e) && PurgingRuns(e) == {} && EligibleRuns(e, request.before) == {}
      && forall r ::
           if Doomed(w.d, r, request.before) then IsPurged(e, r) && OrdinalsOf(e, r) == {} && Versions(e, r) == {}
           else SameRows(w.d, e, r)
    decreases n
  {
    CallsMove(codec, env, w, request, n);
    var e := Calls(codec, env, w, request, n).d;
    forall r ensures
      if Doomed(w.d, r, request.before) then IsPurged(e, r) && OrdinalsOf(e, r) == {} && Versions(e, r) == {}
      else SameRows(w.d, e, r)
    {
      if Doomed(w.d, r, request.before) { PurgedIsEmpty(codec, e, r); }
    }
    NoneDoomed(e, request.before);
    hide Valid, Calls, Work, Doomed, SameRows, Ample, OrdinalsOf, Versions;
  }

  lemma NoneDoomed(d: Db, before: Time)
    requires !AnyDoomed(d, before)
    ensures PurgingRuns(d) == {} && EligibleRuns(d, before) == {}
  {
    forall r | r in PurgingRuns(d) ensures Doomed(d, r, before) {}
    forall r | r in EligibleRuns(d, before) ensures Doomed(d, r, before) {}
  }

  lemma {:induction false} CallsMove(codec: Codec, env: Environment, w: World, request: PurgeRequest, n: nat)
    requires Valid(codec, w.d) && Quiescent(env) && ValidPurgeRequest(request) && Ample(PurgeBudget(request))
    requires Work(w.d) <= n
    ensures var e := Calls(codec, env, w, request, n).d;
      Valid(codec, e) && Moves(w.d, e, request.before) && !AnyDoomed(e, request.before)
    decreases n
  {
    hide Valid, Quiescent, Moves, Ample, AnyDoomed, Work, PurgeTerminalRuns;
    StaysPut(w.d, request.before);
    if n == 0 {
      CallMoves(codec, env, w, request);
    } else {
      var w1 := PurgeTerminalRuns(codec, env, w, request).w;
      CallMoves(codec, env, w, request);
      if AnyDoomed(w.d, request.before) {
        CallsMove(codec, env, w1, request, n - 1);
      } else {
        StillNoneDoomed(w.d, w1.d, request.before);
        CallsIdle(codec, env, w1, request, n - 1);
      }
      MovesTransitive(w.d, w1.d, Calls(codec, env, w1, request, n - 1).d, request.before);
    }
  }

  lemma StillNoneDoomed(d: Db, e: Db, before: Time)
    requires Moves(d, e, before) && !AnyDoomed(d, before)
    ensures !AnyDoomed(e, before)
  {
    hide Doomed, SameRows;
  }

  lemma {:induction false} CallsIdle(codec: Codec, env: Environment, w: World, request: PurgeRequest, n: nat)
    requires Valid(codec, w.d) && Quiescent(env) && ValidPurgeRequest(request) && !AnyDoomed(w.d, request.before)
    ensures var e := Calls(codec, env, w, request, n).d;
      Valid(codec, e) && Moves(w.d, e, request.before) && !AnyDoomed(e, request.before)
    decreases n
  {
    hide Valid, Quiescent, Moves, AnyDoomed, PurgeTerminalRuns;
    StaysPut(w.d, request.before);
    if n != 0 {
      var w1 := PurgeTerminalRuns(codec, env, w, request).w;
      CallMoves(codec, env, w, request);
      StillNoneDoomed(w.d, w1.d, request.before);
      CallsIdle(codec, env, w1, request, n - 1);
      MovesTransitive(w.d, w1.d, Calls(codec, env, w1, request, n - 1).d, request.before);
    }
  }
}
