/** What one transaction can do to a run, and what follows for whole runs: fencing tokens only grow,
    each names one owner, and the time windows of successive claims do not overlap. */
module Fencing {
  import opened Options
  import opened Tables
  import opened Transactions
  import opened Retention
  import opened Protocol
  import opened Invariant
  import opened RetentionInvariant
  import opened Reachability

  /** The newest checkpoint of an active run. */
  function Current(d: Db, run: RunId): Option<Checkpoint> {
    if run in d.heads && Key(run, d.heads[run].version) in d.checkpoints
    then Some(d.checkpoints[Key(run, d.heads[run].version)]) else None
  }

  lemma CurrentIsLatest(codec: Codec, d: Db, run: RunId)
    requires Valid(codec, d)
    ensures Current(d, run).Some? <==> run in d.heads
    ensures run in d.heads <==> ActiveWorkflow(d, run)
    ensures run in d.heads ==>
      && Versions(d, run) != {} && Current(d, run) == Some(Latest(d, run))
      && Latest(d, run).version == d.heads[run].version && Latest(d, run).runId == run && Latest(d, run).status == d.heads[run].status
  {
    if run in d.heads { HeadIsLatest(codec, d, run); }
  }

  function RunOf(op: Op): Option<RunId> {
    match op
    case Create(record, _) => Some(record.runId)
    case Claim(candidate, _, _) => Some(candidate.runId)
    case RenewLease(lease) => Some(lease.runId)
    case Write(record, _, _, _) => Some(record.runId)
    case Append(event) => Some(event.runId)
    case AppendFenced(event, _) => Some(event.runId)
    case Enroll(run, _) => Some(run)
    case DeletePurging(run, _) => Some(run)
    case PurgeJournalRun(run, _, _) => Some(run)
    case Compact(request) => Some(request.run)
    case SkipOrdinals(_) => None
  }

  /** How a committed transaction may change the newest checkpoint of an active run. */
  ghost predicate Renewed(c: Checkpoint, c': Checkpoint, s: Step) {
    && s.op.RenewLease? && HoldsLease(c, s.now, s.op.lease.ownerId, s.op.lease.claimSequence)
    && c.leaseExpiresAt <= c'.leaseExpiresAt && c' == c.(leaseExpiresAt := c'.leaseExpiresAt)
  }

  ghost predicate Claimed(c: Checkpoint, c': Checkpoint, s: Step) {
    && s.op.Claim? && c.status in {Running, Interrupted}
    && c.leaseExpiresAt <= s.now < c'.leaseExpiresAt
    && c'.claimSequence == c.claimSequence + 1 == s.op.candidate.claimSequence && c'.ownerId == s.op.candidate.ownerId != ""
    && c'.version == c.version + 1 && SameIdentity(c, c') && c'.status == Running
    && c' == s.op.candidate.(leaseExpiresAt := c'.leaseExpiresAt, version := c'.version)
    && Ok(c'.leaseExpiresAt) == ResolveLeaseExpiry(s.now, s.op.candidate.leaseExpiresAt, s.op.duration)
  }

  ghost predicate Written(c: Checkpoint, c': Checkpoint, s: Step) {
    && s.op.Write? && !Terminal(c.status)
    && c'.claimSequence == c.claimSequence == s.op.record.claimSequence
    && c'.ownerId == s.op.record.ownerId && (c'.ownerId == c.ownerId || c'.ownerId == "")
    && (c.ownerId != "" ==> s.now < c.leaseExpiresAt)
    && (c'.ownerId == c.ownerId ==> c.leaseExpiresAt <= c'.leaseExpiresAt)
    && c'.version == c.version + 1 && SameIdentity(c, c')
    && c' == s.op.record.(leaseExpiresAt := c'.leaseExpiresAt, version := c'.version)
  }

  ghost predicate Enrolled(c: Checkpoint, s: Step) {
    s.op.Enroll? && Terminal(c.status) && c.updatedAt < s.op.before
  }

  ghost predicate Evolves(c: Checkpoint, next: Option<Checkpoint>, s: Step) {
    || next == Some(c)
    || (next == None && Enrolled(c, s))
    || (next.Some? && (Renewed(c, next.value, s) || Claimed(c, next.value, s) || Written(c, next.value, s)))
  }

  ghost predicate SameLog(d: Db, e: Db, run: RunId) {
    && (run in d.heads <==> run in e.heads)
    && (run in d.heads ==> d.heads[run] == e.heads[run])
    && (forall v :: Key(run, v) in d.checkpoints <==> Key(run, v) in e.checkpoints)
    && (forall v | Key(run, v) in d.checkpoints :: d.checkpoints[Key(run, v)] == e.checkpoints[Key(run, v)])
  }

  lemma ClaimEvolves(codec: Codec, d: Db, s: Step)
    requires Valid(codec, d) && s.op.Claim? && Execute(codec, d, s).Ok?
    ensures var run := s.op.candidate.runId; var e := Next(codec, d, s);
      && Current(d, run).Some? && Current(e, run).Some? && Claimed(Current(d, run).value, Current(e, run).value, s)
      && e == d.(checkpoints := e.checkpoints, heads := e.heads) && forall q | q != run :: SameLog(d, e, q)
  {
    hide EventSide, CheckpointSide, RowsSized;
    var run := s.op.candidate.runId;
    CurrentIsLatest(codec, d, run);
    ClaimKeepsValid(codec, d, s.now, s.op.candidate, s.op.duration, s.op.version);
  }

  lemma WriteEvolves(codec: Codec, d: Db, s: Step)
    requires Valid(codec, d) && s.op.Write? && Execute(codec, d, s).Ok?
    ensures var run := s.op.record.runId; var e := Next(codec, d, s);
      && Current(d, run).Some? && Current(e, run).Some? && Written(Current(d, run).value, Current(e, run).value, s)
      && e == d.(checkpoints := e.checkpoints, heads := e.heads) && forall q | q != run :: SameLog(d, e, q)
  {
    hide EventSide, CheckpointSide, RowsSized;
    var run := s.op.record.runId;
    CurrentIsLatest(codec, d, run);
    WriteKeepsValid(codec, d, s.now, s.op.record, s.op.duration, s.op.version, s.op.terminal);
  }

  lemma RenewEvolves(codec: Codec, d: Db, s: Step)
    requires Valid(codec, d) && s.op.RenewLease? && Execute(codec, d, s).Ok?
    ensures var run := s.op.lease.runId; var e := Next(codec, d, s);
      && Current(d, run).Some? && Current(e, run).Some? && Renewed(Current(d, run).value, Current(e, run).value, s)
      && e == d.(checkpoints := e.checkpoints) && forall q | q != run :: SameLog(d, e, q)
  {
    hide EventSide, CheckpointSide, RowsSized;
    var run := s.op.lease.runId;
    CurrentIsLatest(codec, d, run);
    RenewKeepsValid(codec, d, s.now, s.op.lease);
  }

  /** Transactions that are not claims, writes, renewals or creations leave every active log alone,
      except that enrolling drops the head of a terminal run. */
  lemma OtherTransactionsKeepLogs(codec: Codec, d: Db, s: Step)
    requires Valid(codec, d) && !(s.op.Claim? || s.op.Write? || s.op.RenewLease? || s.op.Create?)
    ensures var e := Next(codec, d, s);
      && (forall q | q in d.heads && q !in e.heads ::
            s.op.Enroll? && q == s.op.run && Terminal(d.heads[q].status) && d.heads[q].updatedAt < s.op.before)
      && (forall q | q in e.heads :: q in d.heads && SameLog(d, e, q))
  {
    hide EventSide, RowsSized, LogsWellFormed, CheckpointsRegistered, Retention.DeletePurging, Retention.PurgeJournalRun, Retention.Compact,
      Retention.Enroll, Transactions.Append, Transactions.AppendFenced;
    match s.op
    case Append(event) => AppendKeepsValid(codec, d, s.now, s.host, event); JoinedFrame(d, s, event);
    case AppendFenced(event, fence) => AppendFencedKeepsValid(codec, d, s.now, s.host, event, fence); JoinedFrame(d, s, event);
    case Enroll(run, before) => EnrollKeepsValid(codec, d, s.host, run, before);
    case DeletePurging(run, budget) => DeletePurgingKeepsLogs(codec, d, s.host, run, budget);
    case PurgeJournalRun(run, ordinals, before) => PurgeJournalKeepsLogs(d, run, ordinals, before);
    case Compact(request) => CompactKeepsLogs(codec, d, request);
    case SkipOrdinals(count) =>
  }

  lemma JoinedFrame(d: Db, s: Step, record: Record)
    ensures forall e | Appended(d, e, s.now, s.host, record) :: e.heads == d.heads && e.checkpoints == d.checkpoints
  {}

  lemma PurgeJournalKeepsLogs(d: Db, run: RunId, ordinals: set<Ordinal>, before: Time)
    ensures var e := Retention.PurgeJournalRun(d, run, ordinals, before).0; e.heads == d.heads && e.checkpoints == d.checkpoints
  {
    hide OrdinalsOf, EligibleOrdinals;
  }

  lemma CompactKeepsLogs(codec: Codec, d: Db, request: CompactRequest)
    ensures var r := Retention.Compact(codec, d, request); r.Ok? ==> r.value.0.heads == d.heads && r.value.0.checkpoints == d.checkpoints
  {
    hide CompactSelection, OrdinalsOf, ConfirmedIds;
    if ValidCompactRequest(request) && CompactSelection(codec, d, request).Ok? {
      assert request.run in d.registry by { CompactSelectionActive(codec, d, request); }
    }
  }

  lemma CompactSelectionActive(codec: Codec, d: Db, request: CompactRequest)
    ensures CompactSelection(codec, d, request).Ok? ==> request.run in d.registry
  {
    hide ConfirmedCandidates, ContiguousCount, Latest, Versions;
  }

  lemma DeletePurgingKeepsLogs(codec: Codec, d: Db, host: Time, run: RunId, budget: Budget)
    requires HeadsExact(d)
    ensures var e := Retention.DeletePurging(codec, d, host, run, budget).0;
      e.heads == d.heads && forall q | q in e.heads :: SameLog(d, e, q)
  {
    hide SelectedEvents, SelectedCheckpoints, Ids, TotalSize, OrdinalsOf, HasHistory;
    assert run in d.heads <==> ActiveWorkflow(d, run);
    if IsPurging(d, run) {
      var d1 := DeleteRunLogs(codec, d, run, budget).0;
      var d2 := DeleteCheckpoints(codec, d1, run, RestBudget(codec, d, run, budget)).0;
      assert forall k | k in d.checkpoints && k.run != run :: k in d2.checkpoints && d2.checkpoints[k] == d.checkpoints[k];
      DeletePurgingUnfolded(codec, d, host, run, budget);
    }
  }

  lemma CreateKeepsOtherLogs(codec: Codec, d: Db, s: Step)
    requires Valid(codec, d) && s.op.Create?
    ensures var e := Next(codec, d, s);
      && (Execute(codec, d, s).Ok? ==> s.op.record.runId !in d.registry)
      && (forall q | q != s.op.record.runId || q in d.heads :: SameLog(d, e, q))
  {
    hide EventSide, RowsSized, LogsWellFormed, CheckpointsRegistered, CheckpointBytes, ValidCheckpoint;
    CreateKeepsValid(codec, d, s.now, s.host, s.op.record, s.op.duration);
    assert s.op.record.runId in d.heads <==> ActiveWorkflow(d, s.op.record.runId);
  }

  lemma SameLogSameCurrent(d: Db, e: Db, run: RunId)
    requires SameLog(d, e, run)
    ensures Current(d, run) == Current(e, run)
  {}

  /** Every transaction either leaves a run's newest checkpoint, or changes it in one of four ways. */
  lemma StepOnRun(codec: Codec, d: Db, s: Step, run: RunId)
    requires Valid(codec, d)
    ensures var e := Next(codec, d, s);
      && Valid(codec, e)
      && (Current(d, run).Some? ==> Evolves(Current(d, run).value, Current(e, run), s))
      && (Current(d, run).None? ==> Current(e, run).None? || (run !in d.registry && s.op.Create? && s.op.record.runId == run))
  {
    hide EventSide, CheckpointSide, RowsSized, Execute, LogWellFormed, Claimed, Written, Renewed;
    var e := Next(codec, d, s);
    NextKeepsValid(codec, d, s);
    CurrentIsLatest(codec, d, run);
    CurrentIsLatest(codec, e, run);
    if Execute(codec, d, s).Err? {
      assert e == d;
    } else if s.op.Claim? {
      ClaimEvolves(codec, d, s);
      if run != s.op.candidate.runId { SameLogSameCurrent(d, e, run); }
    } else if s.op.Write? {
      WriteEvolves(codec, d, s);
      if run != s.op.record.runId { SameLogSameCurrent(d, e, run); }
    } else if s.op.RenewLease? {
      RenewEvolves(codec, d, s);
      if run != s.op.lease.runId { SameLogSameCurrent(d, e, run); }
    } else if s.op.Create? {
      CreateKeepsOtherLogs(codec, d, s);
      if run != s.op.record.runId || run in d.heads { SameLogSameCurrent(d, e, run); }
    } else {
      OtherTransactionsKeepLogs(codec, d, s);
      if run in e.heads { SameLogSameCurrent(d, e, run); }
      HeadUpdatedAt(codec, d, run);
    }
  }

  lemma HeadUpdatedAt(codec: Codec, d: Db, run: RunId)
    requires Valid(codec, d)
    ensures run in d.heads ==> Current(d, run).Some? && Current(d, run).value.updatedAt == d.heads[run].updatedAt
  {
    if run in d.heads { HeadIsLatest(codec, d, run); }
  }
}
