/** What each public operation of the store does to the tables, one transaction at a time.
    `Ok(d')` commits `d'`; `Err(e)` rolls back and leaves the tables as they were. */
module Transactions {
  import opened Ordering
  import opened Tables

  function ResolveLeaseExpiry(now: Time, supplied: Time, duration: int): Result<Time> {
    if duration < 0 then Err(InvalidCheckpoint)
    else if 0 < duration then Ok(now + duration)
    else Ok(supplied)
  }

  function EnsureRegistry(d: Db, run: RunId, kind: Kind, host: Time): (r: Result<Db>)
    ensures r.Ok? ==> run in r.value.registry
  {
    var d1 := if run in d.registry then d
              else d.(registry := d.registry[run := Registry(kind, Active, host, 0)]);
    var current := d1.registry[run];
    if current.state != Active then Err(RunRetired)
    else if current.kind != kind && !(kind == Journal && current.kind == Workflow) then Err(KindConflict)
    else Ok(d1)
  }

  /** Takes the row lock of the run head and loads the newest checkpoint. */
  function LoadLocked(d: Db, run: RunId, absent: Error): Result<Checkpoint> {
    if run !in d.heads || Versions(d, run) == {} then Err(absent) else Ok(Latest(d, run))
  }

  function AdvanceCheckpoint(codec: Codec, d: Db, record: Checkpoint, prior: int): Result<Db> {
    var key := Key(record.runId, record.version);
    if MAX_CHECKPOINT_BYTES < CheckpointBytes(codec, record) then Err(InvalidCheckpoint)
    else if key in d.checkpoints then Err(DuplicateKey)
    else if record.runId !in d.heads || d.heads[record.runId].version != prior then Err(HeadConflict)
    else Ok(d.(checkpoints := d.checkpoints[key := record],
               heads := d.heads[record.runId := HeadOf(record)]))
  }

  function OrConflict(r: Result<Db>): Result<Db> {
    if r.Err? && (r.error.DuplicateKey? || r.error.HeadConflict?) then Err(CheckpointConflict) else r
  }

  /** The initial checkpoint with its lease resolved against the database clock. */
  function LeasedRecord(now: Time, record: Checkpoint, duration: int): Result<Checkpoint> {
    if duration == 0 then Ok(record)
    else
      var expiry :- ResolveLeaseExpiry(now, record.leaseExpiresAt, duration);
      if expiry <= now then Err(InvalidCheckpoint) else Ok(record.(leaseExpiresAt := expiry))
  }

  function InsertFirst(codec: Codec, d: Db, record: Checkpoint): Result<Db> {
    var key := Key(record.runId, record.version);
    if MAX_CHECKPOINT_BYTES < CheckpointBytes(codec, record) then Err(InvalidCheckpoint)
    else if key in d.checkpoints || record.runId in d.heads then Err(DuplicateKey)
    else Ok(d.(checkpoints := d.checkpoints[key := record], heads := d.heads[record.runId := HeadOf(record)]))
  }

  function CreateBody(codec: Codec, d: Db, now: Time, host: Time, record: Checkpoint, duration: int): Result<Db> {
    if record.version != 1 || record.status != Running || !ValidCheckpoint(record, duration) then Err(InvalidCheckpoint)
    else
      var d1 :- EnsureRegistry(d, record.runId, Workflow, host);
      var stored :- LeasedRecord(now, record, duration);
      InsertFirst(codec, d1, stored)
  }

  function Create(codec: Codec, d: Db, now: Time, host: Time, record: Checkpoint, duration: int): Result<Db> {
    var r := CreateBody(codec, d, now, host, record, duration);
    if r.Err? && (r.error.DuplicateKey? || r.error.KindConflict? || r.error.RunRetired?) then Err(CheckpointExists) else r
  }

  /** The checkpoint a claim stores, or why it is refused. */
  function ClaimRecord(d: Db, now: Time, candidate: Checkpoint, duration: int, version: int): Result<Checkpoint> {
    if version <= 0 || candidate.version != version || candidate.status != Running
       || candidate.ownerId == "" || candidate.claimSequence <= 0
       || (candidate.leaseExpiresAt == ZERO_TIME && duration <= 0)
       || !ValidCheckpoint(candidate, duration) then Err(InvalidCheckpoint)
    else
      var current :- LoadLocked(d, candidate.runId, CheckpointNotFound);
      var expiry :- ResolveLeaseExpiry(now, candidate.leaseExpiresAt, duration);
      if expiry <= now then Err(InvalidCheckpoint)
      else if current.version != version || (current.status != Running && current.status != Interrupted)
        then Err(CheckpointConflict)
      else if !SameIdentity(current, candidate) then Err(CheckpointMismatch)
      else if now < current.leaseExpiresAt || candidate.claimSequence != current.claimSequence + 1
        then Err(CheckpointConflict)
      else Ok(candidate.(leaseExpiresAt := expiry, version := version + 1))
  }

  function ClaimBody(codec: Codec, d: Db, now: Time, candidate: Checkpoint, duration: int, version: int): Result<Db> {
    var stored :- ClaimRecord(d, now, candidate, duration, version);
    AdvanceCheckpoint(codec, d, stored, version)
  }

  function Claim(codec: Codec, d: Db, now: Time, candidate: Checkpoint, duration: int, version: int): Result<Db> {
    OrConflict(ClaimBody(codec, d, now, candidate, duration, version))
  }

  predicate HoldsLease(current: Checkpoint, now: Time, owner: string, claim: int) {
    current.status == Running && current.ownerId == owner && current.claimSequence == claim && now < current.leaseExpiresAt
  }

  function RenewLease(codec: Codec, d: Db, now: Time, lease: Lease): Result<Db> {
    if !ValidIndexedId(lease.runId) || lease.ownerId == "" || lease.claimSequence <= 0
       || (lease.expiresAt == ZERO_TIME && lease.duration <= 0) then Err(InvalidCheckpoint)
    else
      var current :- LoadLocked(d, lease.runId, LeaseLost);
      if !HoldsLease(current, now, lease.ownerId, lease.claimSequence) then Err(LeaseLost)
      else
        var expiry :- ResolveLeaseExpiry(now, lease.expiresAt, lease.duration);
        if expiry <= now then Err(InvalidCheckpoint)
        else if expiry <= current.leaseExpiresAt then Ok(d)
        else
          var renewed := current.(leaseExpiresAt := expiry);
          var key := Key(lease.runId, current.version);
          if MAX_CHECKPOINT_BYTES < CheckpointBytes(codec, renewed) then Err(InvalidCheckpoint)
          else if key !in d.checkpoints then Err(LeaseLost)
          else Ok(d.(checkpoints := d.checkpoints[key := renewed.(payload := d.checkpoints[key].payload)]))
  }

  /** The expiry a write is stored with, or why its author no longer holds the run. */
  function WriteLease(now: Time, current: Checkpoint, record: Checkpoint, duration: int): Result<Time> {
    if record.claimSequence != current.claimSequence || (record.ownerId != "" && record.ownerId != current.ownerId)
      then Err(LeaseLost)
    else if current.ownerId == "" then Ok(record.leaseExpiresAt)
    else if current.leaseExpiresAt <= now then Err(LeaseLost)
    else if record.ownerId == "" then Ok(record.leaseExpiresAt)
    else ResolveLeaseExpiry(now, current.leaseExpiresAt, duration)
  }

  /** The checkpoint a save or finish stores, or why it is refused. */
  function WriteRecord(d: Db, now: Time, record: Checkpoint, duration: int, version: int, terminal: bool): Result<Checkpoint> {
    if version <= 0 || record.version != version then Err(CheckpointConflict)
    else if terminal != Terminal(record.status) || !ValidCheckpoint(record, duration) then Err(InvalidCheckpoint)
    else
      var current :- LoadLocked(d, record.runId, CheckpointNotFound);
      if !SameIdentity(current, record) then Err(CheckpointMismatch)
      else
        var lease :- WriteLease(now, current, record, duration);
        if current.version != version || Terminal(current.status) then Err(CheckpointConflict)
        else
          var expiry := if record.ownerId == current.ownerId && lease < current.leaseExpiresAt
                        then current.leaseExpiresAt else lease;
          Ok(record.(leaseExpiresAt := expiry, version := version + 1))
  }

  function WriteBody(codec: Codec, d: Db, now: Time, record: Checkpoint, duration: int, version: int, terminal: bool): Result<Db> {
    var stored :- WriteRecord(d, now, record, duration, version, terminal);
    AdvanceCheckpoint(codec, d, stored, version)
  }

  /** `Save` when not `terminal`, `Finish` when `terminal`. */
  function Write(codec: Codec, d: Db, now: Time, record: Checkpoint, duration: int, version: int, terminal: bool): Result<Db> {
    OrConflict(WriteBody(codec, d, now, record, duration, version, terminal))
  }

  predicate Encodable(codec: Codec, record: Record) {
    ValidRecord(record) && codec.recordSize(record) <= MAX_RUNLOG_BYTES
  }

  /** Insert-or-ignore on (run, sequence), then compare with what is stored there. */
  function InsertRecord(d: Db, now: Time, record: Record): Result<Db> {
    var d1 := if OrdinalsAt(d, record.runId, record.sequence) != {} then d
              else d.(events := d.events[d.nextOrdinal := record], nextOrdinal := d.nextOrdinal + 1);
    var found := OrdinalsAt(d1, record.runId, record.sequence);
    assert found != {} by { assert d1 != d ==> d.nextOrdinal in found; }
    var o := Least(found, IntLe);
    if d1.events[o] != record then Err(RunLogConflict)
    else if o in d1.retention then Ok(d1)
    else Ok(d1.(retention := d1.retention[o := Retention(record.runId, now)]))
  }

  function Append(codec: Codec, d: Db, now: Time, host: Time, record: Record): Result<Db> {
    if !Encodable(codec, record) then Err(InvalidRecord)
    else
      var r := EnsureRegistry(d, record.runId, Journal, host);
      if r.Err? then Err(RunLogConflict)
      else
        var floor := r.value.registry[record.runId].floor;
        if record.sequence <= floor then Err(HistoryCompacted(floor))
        else InsertRecord(r.value, now, record)
  }

  function AppendFenced(codec: Codec, d: Db, now: Time, host: Time, record: Record, fence: Fence): Result<Db> {
    if fence.ownerId == "" || fence.claimSequence <= 0 then Err(InvalidCheckpoint)
    else if !Encodable(codec, record) then Err(InvalidRecord)
    else
      var r := EnsureRegistry(d, record.runId, Workflow, host);
      if r.Err? then Err(LeaseLost)
      else
        var floor := r.value.registry[record.runId].floor;
        if record.sequence <= floor then Err(HistoryCompacted(floor))
        else
          var current :- LoadLocked(r.value, record.runId, LeaseLost);
          if !HoldsLease(current, now, fence.ownerId, fence.claimSequence) then Err(LeaseLost)
          else InsertRecord(r.value, now, record)
  }

  predicate ActiveWorkflow(d: Db, run: RunId) {
    run in d.registry && d.registry[run].kind == Workflow && d.registry[run].state == Active
  }

  function Load(d: Db, run: RunId): Result<Checkpoint> {
    if !ValidIndexedId(run) then Err(InvalidCheckpoint)
    else if !ActiveWorkflow(d, run) || Versions(d, run) == {} then Err(CheckpointNotFound)
    else Ok(Latest(d, run))
  }

  function CheckpointsAt(d: Db, run: RunId, versions: seq<int>): (records: seq<Checkpoint>)
    requires forall i | 0 <= i < |versions| :: Key(run, versions[i]) in d.checkpoints
    ensures |records| == |versions| && forall i | 0 <= i < |records| :: records[i] == d.checkpoints[Key(run, versions[i])]
  {
    if versions == [] then [] else [d.checkpoints[Key(run, versions[0])]] + CheckpointsAt(d, run, versions[1..])
  }

  function ListCheckpoints(d: Db, run: RunId, after: int, limit: int): Result<seq<Checkpoint>> {
    if !ValidIndexedId(run) || after < 0 || limit < 0 then Err(InvalidCheckpoint)
    else if !ActiveWorkflow(d, run) || Versions(d, run) == {} then Err(CheckpointNotFound)
    else
      var later := set v | v in Versions(d, run) && after < v;
      var sorted := Sorted(later, IntLe);
      Ok(CheckpointsAt(d, run, if 0 < limit then Limited(sorted, limit) else sorted))
  }

  predicate Matches(d: Db, query: Query, o: Ordinal)
    requires o in d.events
  {
    var e := d.events[o];
    && e.runId in d.registry && d.registry[e.runId].state == Active
    && (query.sessionId == "" || e.sessionId == query.sessionId)
    && (query.runId == "" || e.runId == query.runId)
    && query.after < e.sequence
  }

  function MatchingOrdinals(d: Db, query: Query): set<Ordinal> {
    set o | o in d.events && Matches(d, query, o)
  }

  function FindRecords(d: Db, query: Query): seq<Record> {
    var rows := Sorted(MatchingOrdinals(d, query), IntLe);
    RecordsAt(d.events, if 0 < query.limit then Limited(rows, query.limit) else rows)
  }

  function List(d: Db, query: Query): Result<seq<Record>> {
    if query.after < 0 || query.limit < 0
       || (query.sessionId != "" && !ValidIndexedId(query.sessionId))
       || (query.runId != "" && !ValidIndexedId(query.runId))
       || (query.sessionId != "" && query.runId == "" && query.after != 0) then Err(InvalidQuery)
    else if query.runId != "" && query.runId in d.registry && d.registry[query.runId].kind == Workflow
            && query.after < d.registry[query.runId].floor
      then Err(HistoryCompacted(d.registry[query.runId].floor))
    else Ok(FindRecords(d, query))
  }
}
