/** The store as it is written: tables updated in place, a transaction undone on failure. Each method is
    proved to do what its transaction function says, so every theorem about those functions is about it. */
module DbStore {
  import opened Options
  import opened Ordering
  import opened Tables
  import opened Transactions
  import opened Retention
  import opened Protocol
  import opened PurgeCall
  import opened JournalPurge
  import opened Metadata
  import opened Backfill

  /** A finished transaction: committed as `r` says, or rolled back to `before`. */
  ghost predicate Commits(r: Result<Db>, before: Db, after: Db, error: Option<Error>) {
    match r
    case Ok(d) => error == None && after == d
    case Err(e) => error == Some(e) && after == before
  }

  /** A step inside a transaction: on failure the caller rolls back. */
  ghost predicate Applies(r: Result<Db>, after: Db, error: Option<Error>) {
    match r
    case Ok(d) => error == None && after == d
    case Err(e) => error == Some(e)
  }

  class Store {
    const codec: Codec
    const env: Environment
    var checkpoints: map<Key, Checkpoint>
    var heads: map<RunId, Head>
    var registry: map<RunId, Registry>
    var events: map<Ordinal, Record>
    var retention: map<Ordinal, Tables.Retention>
    var nextOrdinal: Ordinal
    var turn: nat

    constructor (codec: Codec, env: Environment)
      ensures Snapshot() == EMPTY && turn == 0 && this.codec == codec && this.env == env
    {
      this.codec, this.env := codec, env;
      checkpoints, heads, registry, events, retention, nextOrdinal, turn := map[], map[], map[], map[], map[], 1, 0;
    }

    function Snapshot(): Db
      reads this
    {
      Db(checkpoints, heads, registry, events, retention, nextOrdinal)
    }

    function Here(): World
      reads this
    {
      World(Snapshot(), turn)
    }

    method Restore(saved: Db)
      modifies this
      ensures Snapshot() == saved && turn == old(turn)
    {
      checkpoints, heads, registry := saved.checkpoints, saved.heads, saved.registry;
      events, retention, nextOrdinal := saved.events, saved.retention, saved.nextOrdinal;
    }

    /** Other clients' transactions before the next statement of a call. */
    method Yield() returns (host: Time)
      modifies this
      ensures Here() == Wait(codec, env, old(Here())) && host == env(old(turn)).host
    {
      host := env(turn).host;
      Restore(Exec(codec, Snapshot(), env(turn).others));
      turn := turn + 1;
    }

    method EnsureRunRegistry(run: RunId, kind: Kind, host: Time) returns (error: Option<Error>)
      modifies this`registry
      ensures Applies(EnsureRegistry(old(Snapshot()), run, kind, host), Snapshot(), error)
    {
      if run !in registry {
        registry := registry[run := Registry(kind, Active, host, 0)];
      }
      var current := registry[run];
      if current.state != Active {
        return Some(RunRetired);
      }
      if current.kind != kind && !(kind == Journal && current.kind == Workflow) {
        return Some(KindConflict);
      }
      return None;
    }

    method LoadCheckpoint(run: RunId) returns (record: Option<Checkpoint>)
      ensures record == if Versions(Snapshot(), run) == {} then None else Some(Latest(Snapshot(), run))
    {
      record := if Versions(Snapshot(), run) == {} then None else Some(Latest(Snapshot(), run));
    }

    method InsertCheckpoint(record: Checkpoint) returns (error: Option<Error>)
      modifies this`checkpoints
      ensures var key := Key(record.runId, record.version);
        if MAX_CHECKPOINT_BYTES < CheckpointBytes(codec, record) then error == Some(InvalidCheckpoint)
        else if key in old(checkpoints) then error == Some(DuplicateKey)
        else error == None && checkpoints == old(checkpoints)[key := record]
    {
      var key := Key(record.runId, record.version);
      if MAX_CHECKPOINT_BYTES < CheckpointBytes(codec, record) {
        return Some(InvalidCheckpoint);
      }
      if key in checkpoints {
        return Some(DuplicateKey);
      }
      checkpoints := checkpoints[key := record];
      return None;
    }

    method AdvanceCheckpoint(record: Checkpoint, prior: int) returns (error: Option<Error>)
      modifies this`checkpoints, this`heads
      ensures Applies(Transactions.AdvanceCheckpoint(codec, old(Snapshot()), record, prior), Snapshot(), error)
    {
      error := InsertCheckpoint(record);
      if error.Some? {
        return;
      }
      if record.runId !in heads || heads[record.runId].version != prior {
        return Some(HeadConflict);
      }
      heads := heads[record.runId := HeadOf(record)];
    }

    method Create(now: Time, host: Time, record: Checkpoint, duration: int) returns (error: Option<Error>)
      modifies this
      ensures Commits(Transactions.Create(codec, old(Snapshot()), now, host, record, duration), old(Snapshot()), Snapshot(), error)
      ensures turn == old(turn)
    {
      hide CheckpointBytes, ValidCheckpoint;
      if record.version != 1 || record.status != Running || !ValidCheckpoint(record, duration) {
        return Some(InvalidCheckpoint);
      }
      var saved := Snapshot();
      error := CreateRows(now, host, record, duration);
      if error.Some? {
        Restore(saved);
        if error.value in {DuplicateKey, KindConflict, RunRetired} {
          error := Some(CheckpointExists);
        }
      }
    }

    method CreateRows(now: Time, host: Time, record: Checkpoint, duration: int) returns (error: Option<Error>)
      requires record.version == 1 && record.status == Running && ValidCheckpoint(record, duration)
      modifies this
      ensures Applies(CreateBody(codec, old(Snapshot()), now, host, record, duration), Snapshot(), error) && turn == old(turn)
    {
      hide CheckpointBytes, ValidCheckpoint;
      var stored := record;
      error := EnsureRunRegistry(record.runId, Workflow, host);
      if error.Some? {
        return;
      }
      if duration != 0 {
        var expiry := ResolveLeaseExpiry(now, record.leaseExpiresAt, duration);
        if expiry.Err? || expiry.value <= now {
          return Some(InvalidCheckpoint);
        }
        stored := stored.(leaseExpiresAt := expiry.value);
      }
      error := InsertCheckpoint(stored);
      if error.Some? {
        return;
      }
      if stored.runId in heads {
        return Some(DuplicateKey);
      }
      heads := heads[stored.runId := HeadOf(stored)];
    }

    method Claim(now: Time, candidate: Checkpoint, duration: int, version: int) returns (error: Option<Error>)
      modifies this
      ensures Commits(Transactions.Claim(codec, old(Snapshot()), now, candidate, duration, version), old(Snapshot()), Snapshot(), error)
      ensures turn == old(turn)
    {
      hide CheckpointBytes, ValidCheckpoint, SameIdentity, Latest, Versions, Transactions.AdvanceCheckpoint;
      if version <= 0 || candidate.version != version || candidate.status != Running
         || candidate.ownerId == "" || candidate.claimSequence <= 0
         || (candidate.leaseExpiresAt == ZERO_TIME && duration <= 0)
         || !ValidCheckpoint(candidate, duration) {
        return Some(InvalidCheckpoint);
      }
      if candidate.runId !in heads {
        return Some(CheckpointNotFound);
      }
      var loaded := LoadCheckpoint(candidate.runId);
      if loaded == None {
        return Some(CheckpointNotFound);
      }
      var current := loaded.value;
      var expiry := ResolveLeaseExpiry(now, candidate.leaseExpiresAt, duration);
      if expiry.Err? || expiry.value <= now {
        return Some(InvalidCheckpoint);
      }
      if current.version != version || (current.status != Running && current.status != Interrupted) {
        return Some(CheckpointConflict);
      }
      if !SameIdentity(current, candidate) {
        return Some(CheckpointMismatch);
      }
      if now < current.leaseExpiresAt || candidate.claimSequence != current.claimSequence + 1 {
        return Some(CheckpointConflict);
      }
      error := Advance(candidate.(leaseExpiresAt := expiry.value, version := version + 1), version);
    }

    /** `advanceCheckpoint` as the last step of a transaction: undone on failure, conflicts reported as such. */
    method Advance(record: Checkpoint, prior: int) returns (error: Option<Error>)
      modifies this
      ensures Commits(OrConflict(Transactions.AdvanceCheckpoint(codec, old(Snapshot()), record, prior)), old(Snapshot()), Snapshot(), error)
      ensures turn == old(turn)
    {
      hide CheckpointBytes;
      var saved := Snapshot();
      error := AdvanceCheckpoint(record, prior);
      if error.Some? {
        Restore(saved);
        if error.value in {DuplicateKey, HeadConflict} {
          error := Some(CheckpointConflict);
        }
      }
    }

    method RenewLease(now: Time, lease: Lease) returns (error: Option<Error>)
      modifies this`checkpoints
      ensures Commits(Transactions.RenewLease(codec, old(Snapshot()), now, lease), old(Snapshot()), Snapshot(), error)
    {
      hide CheckpointBytes, Latest, Versions;
      if !ValidIndexedId(lease.runId) || lease.ownerId == "" || lease.claimSequence <= 0
         || (lease.expiresAt == ZERO_TIME && lease.duration <= 0) {
        return Some(InvalidCheckpoint);
      }
      if lease.runId !in heads {
        return Some(LeaseLost);
      }
      var loaded := LoadCheckpoint(lease.runId);
      if loaded == None || !HoldsLease(loaded.value, now, lease.ownerId, lease.claimSequence) {
        return Some(LeaseLost);
      }
      var current := loaded.value;
      var expiry := ResolveLeaseExpiry(now, lease.expiresAt, lease.duration);
      if expiry.Err? || expiry.value <= now {
        return Some(InvalidCheckpoint);
      }
      if expiry.value <= current.leaseExpiresAt {
        return None;
      }
      current := current.(leaseExpiresAt := expiry.value);
      if MAX_CHECKPOINT_BYTES < CheckpointBytes(codec, current) {
        return Some(InvalidCheckpoint);
      }
      var key := Key(lease.runId, current.version);
      if key !in checkpoints {
        return Some(LeaseLost);
      }
      checkpoints := checkpoints[key := current.(payload := checkpoints[key].payload)];
      return None;
    }

    /** `Save` when not `terminal`, `Finish` when `terminal`. */
    method Write(now: Time, record: Checkpoint, duration: int, version: int, terminal: bool) returns (error: Option<Error>)
      modifies this
      ensures Commits(Transactions.Write(codec, old(Snapshot()), now, record, duration, version, terminal), old(Snapshot()), Snapshot(), error)
      ensures turn == old(turn)
    {
      hide CheckpointBytes, ValidCheckpoint, SameIdentity, Latest, Versions, Transactions.AdvanceCheckpoint;
      if version <= 0 || record.version != version {
        return Some(CheckpointConflict);
      }
      if terminal != Terminal(record.status) || !ValidCheckpoint(record, duration) {
        return Some(InvalidCheckpoint);
      }
      if record.runId !in heads {
        return Some(CheckpointNotFound);
      }
      var loaded := LoadCheckpoint(record.runId);
      if loaded == None {
        return Some(CheckpointNotFound);
      }
      var current := loaded.value;
      if !SameIdentity(current, record) {
        return Some(CheckpointMismatch);
      }
      var lease := PrepareWriteLease(now, current, record, duration);
      if lease.Err? {
        return Some(lease.error);
      }
      if current.version != version || Terminal(current.status) {
        return Some(CheckpointConflict);
      }
      var stored := record.(leaseExpiresAt := lease.value);
      if record.ownerId == current.ownerId && stored.leaseExpiresAt < current.leaseExpiresAt {
        stored := stored.(leaseExpiresAt := current.leaseExpiresAt);
      }
      error := Advance(stored.(version := version + 1), version);
    }

    method PrepareWriteLease(now: Time, current: Checkpoint, record: Checkpoint, duration: int) returns (expiry: Result<Time>)
      ensures expiry.Ok? <==>
        && record.claimSequence == current.claimSequence && record.ownerId in {"", current.ownerId}
        && (current.ownerId != "" ==> now < current.leaseExpiresAt && (record.ownerId != "" ==> 0 <= duration))
      ensures expiry.Ok? ==>
        expiry.value == if current.ownerId == "" || record.ownerId == "" then record.leaseExpiresAt
                        else if duration == 0 then current.leaseExpiresAt else now + duration
      ensures expiry.Err? ==>
        expiry.error == if record.claimSequence == current.claimSequence && record.ownerId == current.ownerId && now < current.leaseExpiresAt
                        then InvalidCheckpoint else LeaseLost
    {
      if record.claimSequence != current.claimSequence || (record.ownerId != "" && record.ownerId != current.ownerId) {
        return Err(LeaseLost);
      }
      if current.ownerId == "" {
        return Ok(record.leaseExpiresAt);
      }
      if current.leaseExpiresAt <= now {
        return Err(LeaseLost);
      }
      if record.ownerId == "" {
        return Ok(record.leaseExpiresAt);
      }
      return ResolveLeaseExpiry(now, current.leaseExpiresAt, duration);
    }

    method AppendRunLog(now: Time, record: Record) returns (error: Option<Error>)
      modifies this`events, this`retention, this`nextOrdinal
      ensures Applies(InsertRecord(old(Snapshot()), now, record), Snapshot(), error)
    {
      if OrdinalsAt(Snapshot(), record.runId, record.sequence) == {} {
        events, nextOrdinal := events[nextOrdinal := record], nextOrdinal + 1;
        assert old(nextOrdinal) in OrdinalsAt(Snapshot(), record.runId, record.sequence);
      }
      var ordinal := Least(OrdinalsAt(Snapshot(), record.runId, record.sequence), IntLe);
      if events[ordinal] != record {
        return Some(RunLogConflict);
      }
      if ordinal !in retention {
        retention := retention[ordinal := Tables.Retention(record.runId, now)];
      }
      return None;
    }

    method Append(now: Time, host: Time, record: Record) returns (error: Option<Error>)
      modifies this
      ensures Commits(Transactions.Append(codec, old(Snapshot()), now, host, record), old(Snapshot()), Snapshot(), error)
      ensures turn == old(turn)
    {
      hide InsertRecord, Encodable;
      if !Encodable(codec, record) {
        return Some(InvalidRecord);
      }
      var saved := Snapshot();
      error := EnsureRunRegistry(record.runId, Journal, host);
      if error.Some? {
        error := Some(RunLogConflict);
      } else if record.sequence <= registry[record.runId].floor {
        error := Some(HistoryCompacted(registry[record.runId].floor));
      } else {
        error := AppendRunLog(now, record);
      }
      if error.Some? {
        Restore(saved);
      }
    }

    method AppendFenced(now: Time, host: Time, record: Record, fence: Fence) returns (error: Option<Error>)
      modifies this
      ensures Commits(Transactions.AppendFenced(codec, old(Snapshot()), now, host, record, fence), old(Snapshot()), Snapshot(), error)
      ensures turn == old(turn)
    {
      hide InsertRecord, Encodable, Latest, Versions;
      if fence.ownerId == "" || fence.claimSequence <= 0 {
        return Some(InvalidCheckpoint);
      }
      if !Encodable(codec, record) {
        return Some(InvalidRecord);
      }
      var saved := Snapshot();
      error := EnsureRunRegistry(record.runId, Workflow, host);
      if error.Some? {
        error := Some(LeaseLost);
      } else if record.sequence <= registry[record.runId].floor {
        error := Some(HistoryCompacted(registry[record.runId].floor));
      } else {
        var loaded := LoadCheckpoint(record.runId);
        if record.runId !in heads || loaded == None || !HoldsLease(loaded.value, now, fence.ownerId, fence.claimSequence) {
          error := Some(LeaseLost);
        } else {
          error := AppendRunLog(now, record);
        }
      }
      if error.Some? {
        Restore(saved);
      }
    }

    method EnrollTerminalRun(host: Time, run: RunId, before: Time) returns (error: Option<Error>)
      modifies this`registry, this`heads
      ensures Commits(Retention.Enroll(old(Snapshot()), host, run, before), old(Snapshot()), Snapshot(), error)
    {
      hide Latest, Versions;
      if run !in registry || registry[run].kind != Workflow {
        return Some(NotActiveWorkflow);
      }
      if registry[run].state != Active || run !in heads {
        return None;
      }
      var head := heads[run];
      var loaded := LoadCheckpoint(run);
      if loaded == None {
        return Some(NoCheckpoint);
      }
      var checkpoint := loaded.value;
      if head.version != checkpoint.version {
        return None;
      }
      if head != HeadOf(checkpoint) || checkpoint.runId != run {
        return Some(HeadMismatch);
      }
      if !Terminal(checkpoint.status) || before <= head.updatedAt {
        return None;
      }
      registry := registry[run := registry[run].(state := Purging, updatedAt := host)];
      heads := heads - {run};
      return None;
    }

    method DeleteRunLogs(run: RunId, budget: Budget) returns (part: HistoryPart)
      modifies this`events, this`retention
      ensures (Snapshot(), part) == Retention.DeleteRunLogs(codec, old(Snapshot()), run, budget)
    {
      hide RunLogCandidates, OrdinalsOf;
      var ids: seq<int>, bytes: nat := [], 0;
      if 0 < budget.rows && 0 < budget.bytes {
        ids, bytes := DeletionIdsWithinBudget(RunLogCandidates(codec, Snapshot(), run, budget.rows), budget.bytes);
      }
      var ordinals := Elements(ids);
      assert ordinals == Ids(SelectedEvents(codec, Snapshot(), run, budget));
      var rows := OrdinalsOf(Snapshot(), run) * ordinals;
      retention := retention - ordinals;
      events := events - rows;
      return HistoryPart(|rows|, bytes);
    }

    method DeleteCheckpoints(run: RunId, budget: Budget) returns (part: HistoryPart)
      modifies this`checkpoints
      ensures (Snapshot(), part) == Retention.DeleteCheckpoints(codec, old(Snapshot()), run, budget)
    {
      hide CheckpointCandidates, KeysAt, CheckpointBytes;
      var ids: seq<int>, bytes: nat := [], 0;
      if 0 < budget.rows && 0 < budget.bytes {
        ids, bytes := DeletionIdsWithinBudget(CheckpointCandidates(codec, Snapshot(), run, budget.rows), budget.bytes);
      }
      assert Elements(ids) == Ids(SelectedCheckpoints(codec, Snapshot(), run, budget));
      var rows := KeysAt(Snapshot(), run, Elements(ids));
      checkpoints := checkpoints - rows;
      return HistoryPart(|rows|, bytes);
    }

    method DeletePurgingHistory(host: Time, run: RunId, budget: Budget) returns (deleted: HistoryDeletion)
      modifies this
      ensures (Snapshot(), deleted) == Retention.DeletePurging(codec, old(Snapshot()), host, run, budget)
      ensures turn == old(turn)
    {
      hide Retention.DeleteRunLogs, Retention.DeleteCheckpoints, HasHistory;
      if !IsPurging(Snapshot(), run) {
        return HistoryDeletion(0, 0, 0, false);
      }
      label Start:
      var deletedEvents := DeleteRunLogs(run, budget);
      label Middle:
      var deletedCheckpoints := DeleteCheckpoints(run, Budget(budget.rows - deletedEvents.rows, budget.bytes - deletedEvents.bytes));
      assert run in registry;
      var complete := !HasHistory(Snapshot(), run);
      if complete {
        registry := registry[run := registry[run].(state := Purged, updatedAt := host)];
      }
      return HistoryDeletion(deletedEvents.rows, deletedCheckpoints.rows, deletedEvents.bytes + deletedCheckpoints.bytes, complete);
    }

    method FirstHistoryRowFits(run: RunId, budget: Budget) returns (fits: bool)
      modifies this
      ensures (Here(), fits) == PurgeCall.FirstHistoryRowFits(codec, env, old(Here()), run, budget)
    {
      hide RunLogCandidates, CheckpointCandidates, Exec;
      if budget.rows <= 0 || budget.bytes <= 0 {
        return false;
      }
      var _ := Yield();
      var candidates := RunLogCandidates(codec, Snapshot(), run, 1);
      if candidates == [] {
        var _ := Yield();
        candidates := CheckpointCandidates(codec, Snapshot(), run, 1);
      }
      return candidates == [] || candidates[0].size <= budget.bytes;
    }

    method EnrollTerminalRuns(runs: seq<RunId>, before: Time, budget: Budget) returns (error: Option<Error>)
      modifies this
      ensures Enrollment(Here(), error) == EnrollAll(codec, env, old(Here()), runs, before, budget)
    {
      hide Wait, PurgeCall.FirstHistoryRowFits, Retention.Enroll;
      var i := 0;
      while i < |runs|
        invariant 0 <= i <= |runs|
        invariant EnrollAll(codec, env, Here(), runs[i..], before, budget) == EnrollAll(codec, env, old(Here()), runs, before, budget)
      {
        assert runs[i..][0] == runs[i] && runs[i..][1..] == runs[i + 1..];
        var fits := FirstHistoryRowFits(runs[i], budget);
        if !fits {
          return None;
        }
        var host := Yield();
        error := EnrollTerminalRun(host, runs[i], before);
        if error.Some? {
          return;
        }
        i := i + 1;
      }
      return None;
    }

    method PurgeTerminalRuns(request: PurgeRequest) returns (result: PurgeResult, error: Option<Error>)
      modifies this
      ensures var r := PurgeCall.PurgeTerminalRuns(codec, env, old(Here()), request);
        && Here() == r.w
        && (r.result.Ok? ==> error == None && result == r.result.value)
        && (r.result.Err? ==> error == Some(r.result.error))
    {
      hide Wait, EnrollAll, DeleteAll, PurgingPage, TerminalPage, Retention.DeletePurging, PurgingRuns;
      result := PurgeResult(0, 0, 0, 0);
      if !ValidPurgeRequest(request) {
        return result, Some(InvalidRequest);
      }
      var limit, budget := RunLimit(request), PurgeBudget(request);
      var _ := Yield();
      var pending := PurgingPage(Snapshot(), limit);
      var capacity := limit - |pending|;
      if 0 < capacity {
        var _ := Yield();
        error := EnrollTerminalRuns(TerminalPage(Snapshot(), request.before, capacity), request.before, budget);
        if error.Some? {
          return;
        }
      }
      assert Enrollment(Here(), None) == EnrollPhase(codec, env, old(Here()), request);
      var _ := Yield();
      pending := PurgingPage(Snapshot(), limit);
      var runs, deletedCheckpoints, deletedEvents := SweepPending(pending, budget);
      var _ := Yield();
      return PurgeResult(runs, deletedCheckpoints, deletedEvents, |PurgingRuns(Snapshot())|), None;
    }

    /** The deletion loop: stops when the budget is used up. */
    method SweepPending(pending: seq<RunId>, budget: Budget) returns (runs: int, deletedCheckpoints: int, deletedEvents: int)
      modifies this
      ensures var sweep := DeleteAll(codec, env, old(Here()), pending, budget);
        && Here() == sweep.w && runs == TotalRuns(sweep.deletions)
        && deletedCheckpoints == TotalCheckpoints(sweep.deletions) && deletedEvents == TotalEvents(sweep.deletions)
    {
      hide Wait, Retention.DeletePurging;
      runs, deletedCheckpoints, deletedEvents := 0, 0, 0;
      var remaining, remainingBytes := budget.rows, budget.bytes;
      ghost var sweep := DeleteAll(codec, env, old(Here()), pending, budget);
      var i := 0;
      while i < |pending|
        invariant 0 <= i <= |pending|
        invariant var rest := DeleteAll(codec, env, Here(), pending[i..], Budget(remaining, remainingBytes));
          && rest.w == sweep.w
          && runs + TotalRuns(rest.deletions) == TotalRuns(sweep.deletions)
          && deletedCheckpoints + TotalCheckpoints(rest.deletions) == TotalCheckpoints(sweep.deletions)
          && deletedEvents + TotalEvents(rest.deletions) == TotalEvents(sweep.deletions)
      {
        assert pending[i..][0] == pending[i] && pending[i..][1..] == pending[i + 1..];
        ghost var rest := DeleteAll(codec, env, Here(), pending[i..], Budget(remaining, remainingBytes));
        var host := Yield();
        var deleted := DeletePurgingHistory(host, pending[i], Budget(remaining, remainingBytes));
        deletedEvents := deletedEvents + deleted.events;
        deletedCheckpoints := deletedCheckpoints + deleted.checkpoints;
        remaining := remaining - (deleted.events + deleted.checkpoints);
        remainingBytes := remainingBytes - deleted.bytes;
        if deleted.complete {
          runs := runs + 1;
        }
        assert rest.deletions[0].report == deleted;
        if remaining <= 0 || remainingBytes <= 0 {
          assert rest.deletions[1..] == [];
          return;
        }
        assert rest.deletions[1..] == DeleteAll(codec, env, Here(), pending[i + 1..], Budget(remaining, remainingBytes)).deletions;
        i := i + 1;
      }
    }

    method PurgeJournal(run: RunId, ordinals: set<Ordinal>, before: Time) returns (deleted: nat)
      modifies this`events, this`retention, this`registry
      ensures (Snapshot(), deleted) == Retention.PurgeJournalRun(old(Snapshot()), run, ordinals, before)
    {
      hide OrdinalsOf;
      if !IsJournal(Snapshot(), run) {
        return 0;
      }
      var eligible := EligibleOrdinals(Snapshot(), run, ordinals, before);
      if eligible == {} {
        return 0;
      }
      var rows := OrdinalsOf(Snapshot(), run) * eligible;
      retention := retention - eligible;
      events := events - rows;
      if OrdinalsOf(Snapshot(), run) == {} {
        registry := registry - {run};
      }
      return |rows|;
    }

    method PurgeRunLog(request: JournalRequest) returns (deleted: nat, error: Option<Error>)
      modifies this
      ensures var r := JournalPurge.PurgeRunLog(codec, env, old(Here()), request);
        && Here() == r.w
        && (r.result.Ok? ==> error == None && deleted == r.result.value)
        && (r.result.Err? ==> error == Some(r.result.error))
    {
      hide Wait, JournalCandidates, Retention.PurgeJournalRun, RunOrder, Group, Fitting;
      if !ValidJournalRequest(request) {
        return 0, Some(InvalidRequest);
      }
      var _ := Yield();
      ghost var d0 := Snapshot();
      var limits := JournalBudget(request);
      var candidates := JournalCandidates(codec, Snapshot(), request.before, limits.rows);
      var count := LongestFitting(candidates, limits.bytes);
      var selected := candidates[..count];
      assert selected == JournalSelection(codec, d0, request) by { FittingIsPrefix(candidates, limits.bytes); }
      var order, byRun := GroupByRun(selected);
      deleted := PurgeRuns(order, byRun, d0, selected, request.before);
      return deleted, None;
    }

    method PurgeRuns(order: seq<RunId>, byRun: map<RunId, set<Ordinal>>, ghost d0: Db, ghost selected: seq<Candidate>, before: Time)
      returns (deleted: nat)
      requires forall r | r in order :: r in byRun && byRun[r] == Group(d0, selected, r)
      modifies this
      ensures var sweep := PurgeGroups(codec, env, old(Here()), d0, selected, order, before);
        Here() == sweep.w && deleted == TotalDeleted(sweep.deletions)
    {
      hide Wait, Retention.PurgeJournalRun, Group;
      ghost var sweep := PurgeGroups(codec, env, Here(), d0, selected, order, before);
      deleted := 0;
      var i := 0;
      while i < |order|
        invariant 0 <= i <= |order|
        invariant var rest := PurgeGroups(codec, env, Here(), d0, selected, order[i..], before);
          && rest.w == sweep.w && deleted + TotalDeleted(rest.deletions) == TotalDeleted(sweep.deletions)
      {
        assert order[i..][0] == order[i] && order[i..][1..] == order[i + 1..];
        ghost var rest := PurgeGroups(codec, env, Here(), d0, selected, order[i..], before);
        var _ := Yield();
        var n := PurgeJournal(order[i], byRun[order[i]], before);
        assert rest.deletions[0].events == n;
        assert rest.deletions[1..] == PurgeGroups(codec, env, Here(), d0, selected, order[i + 1..], before).deletions;
        deleted := deleted + n;
        i := i + 1;
      }
    }

    /** Collects the selected ordinals by run, runs in order of first occurrence. */
    method GroupByRun(selected: seq<Candidate>) returns (order: seq<RunId>, byRun: map<RunId, set<Ordinal>>)
      ensures order == RunOrder(Snapshot(), selected, [])
      ensures forall r | r in order :: r in byRun && byRun[r] == Group(Snapshot(), selected, r)
    {
      hide Collected, RunOrder, Group;
      order, byRun := [], map[];
      var i := 0;
      NothingCollected(Snapshot(), selected);
      while i < |selected|
        invariant 0 <= i <= |selected| && Collected(Snapshot(), selected, i, order, byRun)
        invariant forall r :: r in byRun <==> r in order
      {
        var run := RetainedRun(Snapshot(), selected[i].id);
        CollectedStep(Snapshot(), selected, i, order, byRun);
        var group := if run in byRun then byRun[run] else {};
        if run !in byRun {
          order := order + [run];
          assert group + {selected[i].id} == {selected[i].id};
        }
        byRun := byRun[run := group + {selected[i].id}];
        i := i + 1;
      }
      AllCollected(Snapshot(), selected, order, byRun);
    }

    method PurgeConfirmedRunLog(request: CompactRequest) returns (result: CompactResult, error: Option<Error>)
      modifies this`events, this`retention, this`registry
      ensures var r := Retention.Compact(codec, old(Snapshot()), request);
        && (r.Ok? ==> error == None && (Snapshot(), result) == r.value)
        && (r.Err? ==> error == Some(r.error) && Snapshot() == old(Snapshot()))
    {
      hide ConfirmedCandidates, OrdinalsOf, Latest, Versions;
      result := CompactResult(0, 0);
      if !ValidCompactRequest(request) {
        return result, Some(InvalidRequest);
      }
      var run := request.run;
      if !ActiveWorkflow(Snapshot(), run) {
        return result, Some(NotActiveWorkflow);
      }
      var floor := registry[run].floor;
      result := CompactResult(0, floor);
      if run !in heads {
        return result, Some(NoRunHead);
      }
      var loaded := LoadCheckpoint(run);
      if loaded == None {
        return result, Some(NoCheckpoint);
      }
      var checkpoint := loaded.value;
      if heads[run] != HeadOf(checkpoint) || checkpoint.runId != run {
        return result, Some(HeadMismatch);
      }
      if checkpoint.status != Running && checkpoint.status != Interrupted {
        return result, Some(TerminalRun);
      }
      if checkpoint.pendingSequence != 0 {
        return result, Some(PendingEvent);
      }
      if checkpoint.confirmedSequence <= floor {
        return result, None;
      }
      var candidates := ConfirmedCandidates(codec, Snapshot(), run, floor, checkpoint.confirmedSequence,
                                            OrDefault(request.limit, DEFAULT_PURGE_ROW_LIMIT));
      if candidates == [] {
        return result, Some(MissingSequence(floor + 1));
      }
      var selection := ContiguousConfirmed(candidates, floor, request.before, OrDefault(request.byteLimit, DEFAULT_PURGE_BYTE_LIMIT));
      if selection.Err? {
        return result, Some(selection.error);
      }
      result, error := DeleteConfirmedRows(run, floor, selection.value);
    }

    method DeleteConfirmedRows(run: RunId, floor: int, selected: seq<ConfirmedCandidate>) returns (result: CompactResult, error: Option<Error>)
      requires run in registry && registry[run].floor == floor
      modifies this`events, this`retention, this`registry
      ensures var r := DeleteConfirmed(old(Snapshot()), run, selected);
        && (r.Ok? ==> error == None && (Snapshot(), result) == r.value)
        && (r.Err? ==> error == Some(r.error) && Snapshot() == old(Snapshot()))
    {
      hide OrdinalsOf;
      result := CompactResult(0, floor);
      if selected == [] {
        return result, None;
      }
      var saved, ordinals := Snapshot(), ConfirmedIds(selected);
      var retained := set o | o in ordinals && o in retention && retention[o].run == run;
      retention := retention - ordinals;
      if |retained| != |selected| {
        retention := saved.retention;
        return result, Some(RetentionChanged);
      }
      var rows := OrdinalsOf(Snapshot(), run) * ordinals;
      events := events - rows;
      assert OrdinalsOf(saved, run) * ordinals == rows by { SameOrdinals(saved, saved.(retention := saved.retention - ordinals), run); }
      if |rows| != |selected| {
        retention, events := saved.retention, saved.events;
        return result, Some(EventsChanged);
      }
      var through := selected[|selected| - 1].sequence;
      registry := registry[run := registry[run].(floor := through)];
      return CompactResult(|rows|, through), None;
    }

    method BackfillRunLogRetention(host: Time)
      modifies this`retention
      ensures Snapshot() == RetentionBackfilled(old(Snapshot()), host)
    {
      hide TotalOrder, Sorted, Retained, Unretained;
      ghost var d := Snapshot();
      var after := 0;
      RetainedNone(d, host);
      while true
        invariant 0 <= after && Snapshot() == Retained(d, Through(d, after), host)
        decreases |Unretained(d, after)|
      {
        RetainedThrough(d, after, host);
        var missing := Unretained(Snapshot(), after);
        IntLeIsTotal();
        PageCovers(missing, IntLe, BACKFILL_BATCH_SIZE);
        var page := Limited(Sorted(missing, IntLe), BACKFILL_BATCH_SIZE);
        if page == [] {
          RetainedAll(d, after, missing, host);
          return;
        }
        var last := page[|page| - 1];
        UnretainedAreEvents(Snapshot(), after);
        RetainPage(d, after, last, Elements(page), host);
        InsertRetention(Elements(page), host);
        after := last;
        if |page| < BACKFILL_BATCH_SIZE {
          RetainedAll(d, after, Unretained(d, after), host);
          return;
        }
      }
    }

    /** Insert-or-ignore of one retention row per listed event. */
    method InsertRetention(ordinals: set<Ordinal>, host: Time)
      requires ordinals <= events.Keys
      modifies this`retention
      ensures Snapshot() == Retained(old(Snapshot()), ordinals, host)
    {
      var rows := map o | o in ordinals :: Tables.Retention(events[o].runId, host);
      retention := rows + retention;
      assert retention == Retained(old(Snapshot()), ordinals, host).retention;
    }

    method BackfillRegistryKind(kind: Kind)
      modifies this`registry
      ensures var d := old(Snapshot()); Snapshot() == Registered(d, kind, Later(SourceRuns(d, kind), ""))
    {
      hide Registered, SourceRuns, RunsThrough, Later, RegistryBatch;
      ghost var d := Snapshot();
      var after := "";
      RegisteredNone(d, kind);
      while true
        invariant Snapshot() == Registered(d, kind, RunsThrough(SourceRuns(d, kind), after))
        decreases |Later(SourceRuns(d, kind), after)|
      {
        var page := RegistryBatch(Snapshot(), kind, after);
        if page == [] {
          SameSource(d, kind, RunsThrough(SourceRuns(d, kind), after));
          RunsThroughAll(SourceRuns(d, kind), after);
          return;
        }
        RegistryPage(d, kind, after, page);
        registry := Registered(Snapshot(), kind, Elements(page)).registry;
        after := page[|page| - 1];
        if |page| < BACKFILL_BATCH_SIZE {
          RunsThroughAll(SourceRuns(d, kind), after);
          return;
        }
      }
    }

    method PromoteWorkflowRegistries(host: Time)
      modifies this`registry
      ensures registry.Keys == old(registry).Keys
      ensures forall r | r in registry && r in heads && old(registry)[r].kind == Journal && old(registry)[r].state == Active ::
        registry[r] == Registry(Workflow, Active, host, old(registry)[r].floor)
      ensures forall r | r in registry && !(r in heads && old(registry)[r].kind == Journal && old(registry)[r].state == Active) ::
        registry[r] == old(registry)[r]
    {
      registry := map r | r in registry ::
        if r in heads && registry[r].kind == Journal && registry[r].state == Active
        then registry[r].(kind := Workflow, updatedAt := host) else registry[r];
    }

    /** Repeats the backfills until the metadata is complete, at most twice. */
    method ReconcileV2Metadata(hosts: nat -> Time) returns (error: Option<Error>)
      modifies this`retention, this`registry
      ensures Snapshot() == Pass(old(Snapshot()), hosts(0), hosts(1))
      ensures error == if V2MetadataGap(Snapshot()) == NoGap then None else Some(MetadataGap)
    {
      hide RetentionBackfilled, Registered, Promoted, V2MetadataGap, Later, LogRuns;
      ghost var d := Snapshot();
      var attempt := 0;
      var gap := NoGap;
      while attempt < METADATA_RECONCILE_ATTEMPTS
        invariant 0 <= attempt <= METADATA_RECONCILE_ATTEMPTS
        invariant attempt == 0 ==> Snapshot() == d
        invariant 0 < attempt ==> Snapshot() == Pass(d, hosts(0), hosts(1)) && gap == V2MetadataGap(Snapshot()) && gap != NoGap
      {
        ghost var e := Snapshot();
        BackfillRunLogRetention(hosts(2 * attempt));
        BackfillRegistryKind(Workflow);
        BackfillRegistryKind(Journal);
        ghost var registered := Snapshot();
        PromoteWorkflowRegistries(hosts(2 * attempt + 1));
        PromotedRows(registered, Snapshot(), hosts(2 * attempt + 1));
        assert Snapshot() == Pass(e, hosts(2 * attempt), hosts(2 * attempt + 1));
        if 0 < attempt {
          PassIsIdempotent(d, hosts(0), hosts(1), hosts(2 * attempt), hosts(2 * attempt + 1));
        }
        gap := V2MetadataGap(Snapshot());
        if gap == NoGap {
          return None;
        }
        attempt := attempt + 1;
      }
      return Some(MetadataGap);
    }

    /** Copies the newest checkpoint of every stale run into its head, page by page. */
    method BackfillRunHeads() returns (error: Option<Error>)
      modifies this`heads
      ensures error == None ==> Snapshot() == HeadsBackfilled(old(Snapshot()))
      ensures error == None <==> AllMatch(old(Snapshot()), Later(StaleRuns(old(Snapshot())), ""))
      ensures error.Some? ==> error.value == MetadataMismatch
      ensures error.Some? ==> exists copied :: copied <= StaleRuns(old(Snapshot())) && Snapshot() == HeadsCopied(old(Snapshot()), copied)
    {
      hide TotalOrder, Sorted, StringLe, HeadsCopied, StaleRuns, Mismatched, Versions, Later, RunsThrough, AllMatch, HeadBatch;
      ghost var d := Snapshot();
      var after := "";
      CopiedNone(d);
      LaterIsPart(StaleRuns(d));
      while true
        invariant RunsThrough(StaleRuns(d), after) <= StaleRuns(d)
        invariant Snapshot() == HeadsCopied(d, RunsThrough(StaleRuns(d), after))
        invariant AllMatch(d, RunsThrough(StaleRuns(d), after))
        decreases |Later(StaleRuns(d), after)|
      {
        var page := HeadBatch(Snapshot(), after);
        if page == [] {
          StaleAfter(d, after);
          RunsThroughAll(StaleRuns(d), after);
          return None;
        }
        HeadPage(d, after, page);
        PageDecides(d, Snapshot(), after, page);
        if exists i :: 0 <= i < |page| && Mismatched(Snapshot(), page[i]) {
          return Some(MetadataMismatch);
        }
        heads := HeadsCopied(Snapshot(), Elements(page)).heads;
        after := page[|page| - 1];
        if |page| < BACKFILL_BATCH_SIZE {
          RunsThroughAll(StaleRuns(d), after);
          return None;
        }
      }
    }
  }

  lemma PromotedRows(d: Db, e: Db, host: Time)
    requires e == d.(registry := e.registry) && e.registry.Keys == d.registry.Keys
    requires forall r | r in e.registry && r in d.heads && d.registry[r].kind == Journal && d.registry[r].state == Active ::
      e.registry[r] == Registry(Workflow, Active, host, d.registry[r].floor)
    requires forall r | r in e.registry && !(r in d.heads && d.registry[r].kind == Journal && d.registry[r].state == Active) ::
      e.registry[r] == d.registry[r]
    ensures e == Promoted(d, host)
  {
    assert e.registry == Promoted(d, host).registry;
  }

  lemma SameOrdinals(d: Db, e: Db, run: RunId)
    requires d.events == e.events
    ensures OrdinalsOf(d, run) == OrdinalsOf(e, run)
  {}

  /** After `i` rows: the runs seen so far, in order, with their ordinals. */
  ghost predicate Collected(d: Db, selected: seq<Candidate>, i: nat, order: seq<RunId>, byRun: map<RunId, set<Ordinal>>) {
    && i <= |selected| && (forall j, k | 0 <= j < k < |order| :: order[j] != order[k])
    && RunOrder(d, selected[i..], order) == RunOrder(d, selected, [])
    && (forall r :: r in byRun <==> r in order)
    && (forall r | r in byRun :: byRun[r] == Group(d, selected[..i], r))
    && (forall j | 0 <= j < i :: RetainedRun(d, selected[j].id) in byRun)
  }

  lemma NothingCollected(d: Db, selected: seq<Candidate>)
    ensures Collected(d, selected, 0, [], map[])
  {
    hide RunOrder;
    assert selected[0..] == selected;
  }

  lemma CollectedStep(d: Db, selected: seq<Candidate>, i: nat, order: seq<RunId>, byRun: map<RunId, set<Ordinal>>)
    requires i < |selected| && Collected(d, selected, i, order, byRun)
    ensures var run := RetainedRun(d, selected[i].id);
      if run in byRun then Collected(d, selected, i + 1, order, byRun[run := byRun[run] + {selected[i].id}])
      else Collected(d, selected, i + 1, order + [run], byRun[run := {selected[i].id}])
  {
    hide RunOrder, Group, RetainedRun;
    GroupSnoc(d, selected, i);
    RunOrderStep(d, selected, i, order);
    var run := RetainedRun(d, selected[i].id);
    if run !in order { assert forall j | 0 <= j < |order| :: order[j] in order; }
  }

  lemma AllCollected(d: Db, selected: seq<Candidate>, order: seq<RunId>, byRun: map<RunId, set<Ordinal>>)
    requires Collected(d, selected, |selected|, order, byRun)
    ensures order == RunOrder(d, selected, []) && forall r | r in order :: r in byRun && byRun[r] == Group(d, selected, r)
  {
    hide RunOrder, Group;
    assert selected[..|selected|] == selected && selected[|selected|..] == [];
    RunOrderDone(d, order);
  }

  lemma RunOrderStep(d: Db, selected: seq<Candidate>, i: nat, order: seq<RunId>)
    requires i < |selected| && forall j, k | 0 <= j < k < |order| :: order[j] != order[k]
    ensures var run := RetainedRun(d, selected[i].id);
      RunOrder(d, selected[i..], order) == RunOrder(d, selected[i + 1..], if run in order then order else order + [run])
  {
    assert selected[i..][0] == selected[i] && selected[i..][1..] == selected[i + 1..];
  }

  lemma RunOrderDone(d: Db, order: seq<RunId>)
    requires forall j, k | 0 <= j < k < |order| :: order[j] != order[k]
    ensures RunOrder(d, [], order) == order
  {}

  lemma GroupSnoc(d: Db, selected: seq<Candidate>, i: nat)
    requires i < |selected|
    ensures var run := RetainedRun(d, selected[i].id);
      && Group(d, selected[..i + 1], run) == Group(d, selected[..i], run) + {selected[i].id}
      && (forall r | r != run :: Group(d, selected[..i + 1], r) == Group(d, selected[..i], r))
      && ((forall j | 0 <= j < i :: RetainedRun(d, selected[j].id) != run) ==> Group(d, selected[..i], run) == {})
  {
    assert selected[..i + 1] == selected[..i] + [selected[i]];
    forall o ensures o in Ids(selected[..i + 1]) <==> o in Ids(selected[..i]) || o == selected[i].id {
      if o in Ids(selected[..i]) {
        var c :| c in selected[..i] && c.id == o;
        assert c in selected[..i + 1];
      }
      if o == selected[i].id { assert selected[i] in selected[..i + 1]; }
    }
  }

  lemma FittingIsPrefix(candidates: seq<Candidate>, limit: int)
    ensures Fitting(candidates, limit) == candidates[..FittingCount(candidates, limit)]
  {}

  /** How many leading candidates fit, by one pass with a running total. */
  method LongestFitting(candidates: seq<Candidate>, byteLimit: int) returns (count: nat)
    ensures count == FittingCount(candidates, byteLimit)
  {
    var bytes := 0;
    count := 0;
    while count < |candidates|
      invariant 0 <= count <= |candidates|
      invariant FittingCount(candidates, byteLimit) == count + FittingCount(candidates[count..], byteLimit - bytes)
    {
      assert candidates[count..][0] == candidates[count] && candidates[count..][1..] == candidates[count + 1..];
      if byteLimit < bytes + candidates[count].size {
        return;
      }
      bytes := bytes + candidates[count].size;
      count := count + 1;
      if byteLimit <= bytes {
        return;
      }
    }
  }

  lemma {:induction false} TotalSizeSnoc(candidates: seq<Candidate>, c: Candidate)
    ensures TotalSize(candidates + [c]) == TotalSize(candidates) + c.size
  {
    if candidates != [] {
      assert (candidates + [c])[1..] == candidates[1..] + [c];
      TotalSizeSnoc(candidates[1..], c);
    }
  }

  method DeletionIdsWithinBudget(candidates: seq<Candidate>, byteLimit: int) returns (ids: seq<int>, bytes: nat)
    ensures Elements(ids) == Ids(Fitting(candidates, byteLimit)) && |ids| == FittingCount(candidates, byteLimit)
    ensures bytes == TotalSize(Fitting(candidates, byteLimit))
  {
    ids, bytes := [], 0;
    var i := 0;
    while i < |candidates|
      invariant 0 <= i <= |candidates| && |ids| == i
      invariant FittingCount(candidates, byteLimit) == i + FittingCount(candidates[i..], byteLimit - bytes)
      invariant bytes == TotalSize(candidates[..i])
      invariant forall j | 0 <= j < i :: ids[j] == candidates[j].id
    {
      var candidate := candidates[i];
      assert candidates[i..][0] == candidate && candidates[i..][1..] == candidates[i + 1..];
      if byteLimit < bytes + candidate.size {
        break;
      }
      ids := ids + [candidate.id];
      assert candidates[..i + 1] == candidates[..i] + [candidate];
      TotalSizeSnoc(candidates[..i], candidate);
      bytes := bytes + candidate.size;
      i := i + 1;
      if byteLimit <= bytes {
        break;
      }
    }
    IdsListed(candidates[..i], ids);
  }

  lemma IdsListed(candidates: seq<Candidate>, ids: seq<int>)
    requires |ids| == |candidates| && forall j | 0 <= j < |ids| :: ids[j] == candidates[j].id
    ensures Elements(ids) == Ids(candidates)
  {
    forall x ensures x in Elements(ids) <==> x in Ids(candidates) {
      if x in Elements(ids) {
        var j :| 0 <= j < |ids| && ids[j] == x;
        assert candidates[j] in candidates;
      }
    }
  }

  method ContiguousConfirmed(candidates: seq<ConfirmedCandidate>, floor: int, before: Time, byteLimit: int) returns (selected: Result<seq<ConfirmedCandidate>>)
    ensures var n := ContiguousCount(candidates, floor, floor + 1, before, byteLimit);
      selected == if n.Ok? then Ok(candidates[..n.value]) else Err(n.error)
  {
    var bytes, expected, i := 0, floor + 1, 0;
    while i < |candidates|
      invariant 0 <= i <= |candidates| && expected == floor + 1 + i
      invariant var n := ContiguousCount(candidates, floor, floor + 1, before, byteLimit);
        var rest := ContiguousCount(candidates[i..], floor, expected, before, byteLimit - bytes);
        n == if rest.Ok? then Ok(i + rest.value) else rest
    {
      var candidate := candidates[i];
      assert candidates[i..][0] == candidate && candidates[i..][1..] == candidates[i + 1..];
      if candidate.sequence != expected {
        return Err(SequenceGap(floor));
      }
      if before <= candidate.appendedAt || byteLimit < bytes + candidate.size {
        break;
      }
      bytes, expected, i := bytes + candidate.size, expected + 1, i + 1;
      if byteLimit <= bytes {
        break;
      }
    }
    return Ok(candidates[..i]);
  }
}
