/** When each operation of the store succeeds, what it then stores, and which error it reports otherwise: in terms of
    the newest checkpoint of the run, the request and the clock, for every consistent database. */
module Outcomes {
  import opened Ordering
  import opened Tables
  import opened Transactions
  import opened Invariant
  import opened Fencing
  import opened CheckpointLog

  /** A row of this checkpoint is not too large. */
  ghost predicate Storable(codec: Codec, record: Checkpoint) {
    codec.metadataSize(record.(payload := [])) + |record.payload| <= 4 * 1024 * 1024
  }

  /** `d` with a new version of a run, and the head that copies it. */
  ghost function Advanced(d: Db, record: Checkpoint): Db {
    d.(checkpoints := d.checkpoints[Key(record.runId, record.version) := record],
       heads := d.heads[record.runId := Head(record.sessionId, record.status, record.version, record.createdAt, record.updatedAt)])
  }

  /** The expiry a request asks for: the database clock plus a positive duration, or else the time it names. */
  ghost function AskedExpiry(now: Time, named: Time, duration: int): Time {
    if 0 < duration then now + duration else named
  }

  /** One run of one workflow: everything that identifies it is equal. */
  ghost predicate OneRun(a: Checkpoint, b: Checkpoint) {
    && a.id == b.id && a.sessionId == b.sessionId && a.runId == b.runId && a.workflowName == b.workflowName
    && a.topologyVersion == b.topologyVersion && a.schemaVersion == b.schemaVersion
  }

  /** The newest checkpoint is running under this owner and token, and its lease has not expired. */
  ghost predicate Owns(c: Checkpoint, now: Time, owner: string, token: int) {
    c.status == Running && c.ownerId == owner && c.claimSequence == token && now < c.leaseExpiresAt
  }

  /** An identifier that may be indexed: 1 to 191 characters, no null character, no trailing space. */
  ghost predicate Indexable(id: string) {
    0 < |id| <= 191 && id[|id| - 1] != ' ' && forall i | 0 <= i < |id| :: id[i] != '\0'
  }

  /** What every checkpoint must satisfy to be stored. */
  ghost predicate WellFormed(record: Checkpoint, duration: int) {
    && Indexable(record.sessionId) && Indexable(record.runId)
    && record.id != "" && record.workflowName != "" && record.topologyVersion != "" && 0 < record.schemaVersion
    && record.status != UnknownStatus && record.replayStatus != InvalidReplayStatus
    && 0 <= duration && 0 <= record.confirmedSequence && 0 <= record.pendingSequence
    && record.createdAt != ZERO_TIME && record.updatedAt != ZERO_TIME
    && 0 < |record.payload| <= 4 * 1024 * 1024
  }

  lemma WellFormedIsValid(record: Checkpoint, duration: int)
    ensures WellFormed(record, duration) <==> ValidCheckpoint(record, duration)
    ensures Indexable(record.runId) <==> ValidIndexedId(record.runId)
  {
    IndexableIsValid(record.sessionId);
    IndexableIsValid(record.runId);
    hide Indexable, ValidIndexedId;
  }

  lemma IndexableIsValid(id: string)
    ensures Indexable(id) <==> ValidIndexedId(id)
  {}

  // Creating.

  ghost predicate ProperCreation(record: Checkpoint, duration: int) {
    record.version == 1 && record.status == Running && WellFormed(record, duration)
  }

  /** A creation succeeds exactly for a proper first checkpoint of a run id never seen, and stores it with its lease. */
  lemma CreateOutcome(codec: Codec, d: Db, now: Time, host: Time, record: Checkpoint, duration: int)
    requires Valid(codec, d)
    ensures var r := Transactions.Create(codec, d, now, host, record, duration);
      var stored := record.(leaseExpiresAt := AskedExpiry(now, record.leaseExpiresAt, duration));
      && (r.Ok? <==> ProperCreation(record, duration) && record.runId !in d.registry && Storable(codec, stored))
      && (r.Ok? ==> r.value == Advanced(d.(registry := d.registry[record.runId := Registry(Workflow, Active, host, 0)]), stored))
      && (r == Err(CheckpointExists) <==>
            ProperCreation(record, duration) && record.runId in d.registry && (record.runId in d.heads ==> Storable(codec, stored)))
      && (r.Err? ==> r.error in {CheckpointExists, InvalidCheckpoint})
  {
    KnownRuns(codec, d, record.runId);
    WellFormedIsValid(record, duration);
    hide Valid, ValidCheckpoint, WellFormed;
  }

  lemma KnownRuns(codec: Codec, d: Db, run: RunId)
    requires Valid(codec, d)
    ensures run in d.heads <==> ActiveWorkflow(d, run)
    ensures Key(run, 1) in d.checkpoints ==> run in d.registry
  {}

  // Claiming.

  ghost predicate ProperClaim(candidate: Checkpoint, duration: int, version: int) {
    && 0 < version == candidate.version && candidate.status == Running
    && candidate.ownerId != "" && 0 < candidate.claimSequence
    && (0 < duration || candidate.leaseExpiresAt != ZERO_TIME)
    && WellFormed(candidate, duration)
  }

  /** Any claimer may take over a run that is running or interrupted at the version it names, as the same run, once the
      lease recorded there has expired, with the next token; and then the claim is stored as the next version. */
  lemma ClaimOutcome(codec: Codec, d: Db, now: Time, candidate: Checkpoint, duration: int, version: int)
    requires Valid(codec, d)
    ensures var r, c := Transactions.Claim(codec, d, now, candidate, duration, version), Current(d, candidate.runId);
      var expiry := AskedExpiry(now, candidate.leaseExpiresAt, duration);
      var stored := candidate.(leaseExpiresAt := expiry, version := version + 1);
      var asked := ProperClaim(candidate, duration, version) && c.Some? && now < expiry;
      && (r.Ok? <==>
            && asked && c.value.version == version && c.value.status in {Running, Interrupted} && OneRun(c.value, candidate)
            && c.value.leaseExpiresAt <= now && candidate.claimSequence == c.value.claimSequence + 1 && Storable(codec, stored))
      && (r.Ok? ==> r.value == Advanced(d, stored))
      && (r == Err(CheckpointNotFound) <==> ProperClaim(candidate, duration, version) && c.None?)
      && (r == Err(CheckpointMismatch) <==>
            asked && c.value.version == version && c.value.status in {Running, Interrupted} && !OneRun(c.value, candidate))
      && (r == Err(CheckpointConflict) <==>
            asked && (c.value.version != version || c.value.status !in {Running, Interrupted}
                      || (OneRun(c.value, candidate)
                          && (now < c.value.leaseExpiresAt || candidate.claimSequence != c.value.claimSequence + 1))))
      && (r.Err? ==> r.error in {CheckpointNotFound, CheckpointMismatch, CheckpointConflict, InvalidCheckpoint})
  {
    hide Valid, ValidCheckpoint, WellFormed, ClaimRecord, AdvanceCheckpoint, ProperClaim, Advanced, Storable, OneRun, Current;
    ClaimRecordOutcome(codec, d, now, candidate, duration, version);
    if ClaimRecord(d, now, candidate, duration, version).Ok? {
      AdvanceOutcome(codec, d, ClaimRecord(d, now, candidate, duration, version).value, version);
    }
  }

  lemma ClaimRecordOutcome(codec: Codec, d: Db, now: Time, candidate: Checkpoint, duration: int, version: int)
    requires Valid(codec, d)
    ensures var r, c := ClaimRecord(d, now, candidate, duration, version), Current(d, candidate.runId);
      var expiry := AskedExpiry(now, candidate.leaseExpiresAt, duration);
      var asked := ProperClaim(candidate, duration, version) && c.Some? && now < expiry;
      && (r.Ok? <==>
            && asked && c.value.version == version && c.value.status in {Running, Interrupted} && OneRun(c.value, candidate)
            && c.value.leaseExpiresAt <= now && candidate.claimSequence == c.value.claimSequence + 1)
      && (r.Ok? ==> r.value == candidate.(leaseExpiresAt := expiry, version := version + 1))
      && (r == Err(CheckpointNotFound) <==> ProperClaim(candidate, duration, version) && c.None?)
      && (r == Err(CheckpointMismatch) <==>
            asked && c.value.version == version && c.value.status in {Running, Interrupted} && !OneRun(c.value, candidate))
      && (r == Err(CheckpointConflict) <==>
            asked && (c.value.version != version || c.value.status !in {Running, Interrupted}
                      || (OneRun(c.value, candidate)
                          && (now < c.value.leaseExpiresAt || candidate.claimSequence != c.value.claimSequence + 1))))
      && (r.Err? ==> r.error in {CheckpointNotFound, CheckpointMismatch, CheckpointConflict, InvalidCheckpoint})
  {
    CurrentIsLatest(codec, d, candidate.runId);
    WellFormedIsValid(candidate, duration);
    hide Valid, ValidCheckpoint, WellFormed, Versions, Latest, Current;
  }

  /** Storing the version after the newest fails only for its size. */
  lemma AdvanceOutcome(codec: Codec, d: Db, record: Checkpoint, version: int)
    requires Valid(codec, d) && Current(d, record.runId).Some? && Current(d, record.runId).value.version == version == record.version - 1
    ensures AdvanceCheckpoint(codec, d, record, version) == if Storable(codec, record) then Ok(Advanced(d, record)) else Err(InvalidCheckpoint)
  {
    NextIsFree(codec, d, record.runId);
    hide Valid, Current;
  }

  /** The version after the newest is not stored yet, and the head names the newest. */
  lemma NextIsFree(codec: Codec, d: Db, run: RunId)
    requires Valid(codec, d)
    ensures Current(d, run).Some? ==>
      && run in d.heads && d.heads[run].version == Current(d, run).value.version
      && Key(run, Current(d, run).value.version) in d.checkpoints && Key(run, Current(d, run).value.version + 1) !in d.checkpoints
  {
    if run in d.heads {
      HeadIsLatest(codec, d, run);
      assert LogWellFormed(d.checkpoints, run, d.heads[run]);
    }
  }

  // Renewing.

  ghost predicate ProperRenewal(lease: Lease) {
    && Indexable(lease.runId) && lease.ownerId != "" && 0 < lease.claimSequence
    && (0 < lease.duration || lease.expiresAt != ZERO_TIME)
  }

  /** The owner of an unexpired lease may extend it to any future time; a lease is never cut short. */
  lemma RenewOutcome(codec: Codec, d: Db, now: Time, lease: Lease)
    requires Valid(codec, d)
    ensures var r, c := Transactions.RenewLease(codec, d, now, lease), Current(d, lease.runId);
      var expiry := AskedExpiry(now, lease.expiresAt, lease.duration);
      var owned := ProperRenewal(lease) && c.Some? && Owns(c.value, now, lease.ownerId, lease.claimSequence);
      && (r.Ok? <==>
            && owned && 0 <= lease.duration && now < expiry
            && (c.value.leaseExpiresAt < expiry ==> Storable(codec, c.value.(leaseExpiresAt := expiry))))
      && (r.Ok? ==>
            r.value == if expiry <= c.value.leaseExpiresAt then d
                       else d.(checkpoints := d.checkpoints[Key(lease.runId, c.value.version) := c.value.(leaseExpiresAt := expiry)]))
      && (r == Err(LeaseLost) <==> ProperRenewal(lease) && !owned)
      && (r.Err? ==> r.error in {LeaseLost, InvalidCheckpoint})
  {
    CurrentIsLatest(codec, d, lease.runId);
    NextIsFree(codec, d, lease.runId);
    IndexableIsValid(lease.runId);
    hide Valid, ValidIndexedId, Indexable, Versions;
  }

  // Saving and finishing.

  ghost predicate ProperWrite(record: Checkpoint, duration: int, version: int, terminal: bool) {
    && 0 < version == record.version && WellFormed(record, duration)
    && (terminal <==> record.status in {Completed, Failed, Canceled, Terminated})
  }

  /** Whether the author of `record` may still write: it holds the newest token, names no other owner, and the lease of an
      owned run has not expired. */
  ghost predicate MayWrite(c: Checkpoint, now: Time, record: Checkpoint) {
    && record.claimSequence == c.claimSequence && record.ownerId in {"", c.ownerId}
    && (c.ownerId != "" ==> now < c.leaseExpiresAt)
  }

  /** The expiry a write stores: its own when it gives the run up, and otherwise one no earlier than the recorded. */
  ghost function KeptExpiry(c: Checkpoint, now: Time, record: Checkpoint, duration: int): Time {
    if record.ownerId != c.ownerId then record.leaseExpiresAt
    else
      var asked := if c.ownerId == "" then record.leaseExpiresAt else AskedExpiry(now, c.leaseExpiresAt, duration);
      if asked < c.leaseExpiresAt then c.leaseExpiresAt else asked
  }

  /** `Save` takes only statuses that are not terminal, `Finish` only terminal ones; both need the right to write, the
      newest version and a run not yet ended. */
  lemma WriteOutcome(codec: Codec, d: Db, now: Time, record: Checkpoint, duration: int, version: int, terminal: bool)
    requires Valid(codec, d)
    ensures var r, c := Transactions.Write(codec, d, now, record, duration, version, terminal), Current(d, record.runId);
      var proper := ProperWrite(record, duration, version, terminal);
      && (r.Ok? <==>
            && proper && c.Some? && OneRun(c.value, record) && MayWrite(c.value, now, record)
            && c.value.version == version && c.value.status !in {Completed, Failed, Canceled, Terminated}
            && Storable(codec, record.(leaseExpiresAt := KeptExpiry(c.value, now, record, duration), version := version + 1)))
      && (r.Ok? ==>
            r.value == Advanced(d, record.(leaseExpiresAt := KeptExpiry(c.value, now, record, duration), version := version + 1)))
      && (r == Err(CheckpointNotFound) <==> proper && c.None?)
      && (r == Err(CheckpointMismatch) <==> proper && c.Some? && !OneRun(c.value, record))
      && (r == Err(LeaseLost) <==> proper && c.Some? && OneRun(c.value, record) && !MayWrite(c.value, now, record))
      && (r == Err(CheckpointConflict) <==>
            || !(0 < version == record.version)
            || (proper && c.Some? && OneRun(c.value, record) && MayWrite(c.value, now, record)
                && (c.value.version != version || c.value.status in {Completed, Failed, Canceled, Terminated})))
      && (r.Err? ==> r.error in {CheckpointNotFound, CheckpointMismatch, LeaseLost, CheckpointConflict, InvalidCheckpoint})
  {
    hide Valid, ValidCheckpoint, WellFormed, WriteRecord, AdvanceCheckpoint, ProperWrite, Advanced, Storable, OneRun, MayWrite, KeptExpiry, Current;
    WriteRecordOutcome(codec, d, now, record, duration, version, terminal);
    if WriteRecord(d, now, record, duration, version, terminal).Ok? {
      AdvanceOutcome(codec, d, WriteRecord(d, now, record, duration, version, terminal).value, version);
    }
  }

  lemma WriteRecordOutcome(codec: Codec, d: Db, now: Time, record: Checkpoint, duration: int, version: int, terminal: bool)
    requires Valid(codec, d)
    ensures var r, c := WriteRecord(d, now, record, duration, version, terminal), Current(d, record.runId);
      var proper := ProperWrite(record, duration, version, terminal);
      && (r.Ok? <==>
            && proper && c.Some? && OneRun(c.value, record) && MayWrite(c.value, now, record)
            && c.value.version == version && c.value.status !in {Completed, Failed, Canceled, Terminated})
      && (r.Ok? ==> r.value == record.(leaseExpiresAt := KeptExpiry(c.value, now, record, duration), version := version + 1))
      && (r == Err(CheckpointNotFound) <==> proper && c.None?)
      && (r == Err(CheckpointMismatch) <==> proper && c.Some? && !OneRun(c.value, record))
      && (r == Err(LeaseLost) <==> proper && c.Some? && OneRun(c.value, record) && !MayWrite(c.value, now, record))
      && (r == Err(CheckpointConflict) <==>
            || !(0 < version == record.version)
            || (proper && c.Some? && OneRun(c.value, record) && MayWrite(c.value, now, record)
                && (c.value.version != version || c.value.status in {Completed, Failed, Canceled, Terminated})))
      && (r.Err? ==> r.error in {CheckpointNotFound, CheckpointMismatch, LeaseLost, CheckpointConflict, InvalidCheckpoint})
  {
    CurrentIsLatest(codec, d, record.runId);
    WellFormedIsValid(record, duration);
    hide Valid, ValidCheckpoint, WellFormed, Versions, Latest, Current;
  }

  // Appending.

  /** A record the log accepts at all. */
  ghost predicate ProperRecord(codec: Codec, record: Record) {
    && Indexable(record.sessionId) && Indexable(record.runId) && 0 < record.sequence && record.eventType != "" && record.source != ""
    && record.timestamp != ZERO_TIME && 0 <= record.sourceEventSeq && (record.sourceRunId == "" <==> record.sourceEventSeq == 0)
    && codec.recordSize(record) <= 4 * 1024 * 1024
  }

  ghost function FloorOf(d: Db, run: RunId): int {
    if run in d.registry then d.registry[run].floor else 0
  }

  /** The event stored at the record's place in its run, if there is one, is that very record. */
  ghost predicate Agreeing(d: Db, record: Record) {
    forall o | o in d.events && d.events[o].runId == record.runId && d.events[o].sequence == record.sequence :: d.events[o] == record
  }

  ghost predicate Stored(d: Db, record: Record) {
    exists o :: o in d.events && d.events[o] == record
  }

  /** `d` with one more event, at the next ordinal and appended now. */
  ghost function WithEvent(d: Db, now: Time, record: Record): Db {
    d.(events := d.events[d.nextOrdinal := record],
       retention := d.retention[d.nextOrdinal := Tables.Retention(record.runId, now)],
       nextOrdinal := d.nextOrdinal + 1)
  }

  /** An insert succeeds exactly when nothing else is stored at that place; repeating a record changes nothing. */
  lemma InsertOutcome(d: Db, now: Time, record: Record)
    requires EventsRetained(d) && SequencesUnique(d)
    ensures var r := InsertRecord(d, now, record);
      && (r.Ok? <==> Agreeing(d, record))
      && (r.Ok? ==> r.value == if Stored(d, record) then d else WithEvent(d, now, record))
      && (r.Err? ==> r.error == RunLogConflict)
  {
    InsertShape(d, now, record);
    if OrdinalsAt(d, record.runId, record.sequence) == {} {
      forall o | o in d.events ensures !(d.events[o].runId == record.runId && d.events[o].sequence == record.sequence) {
        assert o !in OrdinalsAt(d, record.runId, record.sequence);
      }
    } else {
      var o :| o in OrdinalsAt(d, record.runId, record.sequence);
    }
  }

  /** A plain append goes to any run that is not retired, above its floor; it may open a journal. */
  lemma AppendOutcome(codec: Codec, d: Db, now: Time, host: Time, record: Record)
    requires Valid(codec, d)
    ensures var r, run := Transactions.Append(codec, d, now, host, record), record.runId;
      var e := if run in d.registry then d else d.(registry := d.registry[run := Registry(Journal, Active, host, 0)]);
      var open := run in d.registry ==> d.registry[run].state == Active;
      && (r.Ok? <==> ProperRecord(codec, record) && open && FloorOf(d, run) < record.sequence && Agreeing(d, record))
      && (r.Ok? ==> r.value == if Stored(d, record) then e else WithEvent(e, now, record))
      && (r == Err(InvalidRecord) <==> !ProperRecord(codec, record))
      && (forall floor :: r == Err(HistoryCompacted(floor)) <==>
            ProperRecord(codec, record) && open && floor == FloorOf(d, run) && record.sequence <= floor)
      && (r.Err? ==> r.error in {InvalidRecord, RunLogConflict} || r.error.HistoryCompacted?)
  {
    var run := record.runId;
    var e := if run in d.registry then d else d.(registry := d.registry[run := Registry(Journal, Active, host, 0)]);
    RecordIsProper(codec, record);
    hide CheckpointSide, RowsSized, RegistryConsistent, EventsRegistered, Transactions.Encodable, ProperRecord, InsertRecord;
    if !Transactions.Encodable(codec, record) || EnsureRegistry(d, run, Journal, host).Err? || record.sequence <= FloorOf(d, run) {
    } else {
      InsertOutcome(e, now, record);
    }
  }

  /** A fenced append needs the owner's unexpired lease on the run, and then does the same; it never opens a run. */
  lemma AppendFencedOutcome(codec: Codec, d: Db, now: Time, host: Time, record: Record, fence: Fence)
    requires Valid(codec, d)
    ensures var r, c := Transactions.AppendFenced(codec, d, now, host, record, fence), Current(d, record.runId);
      var proper := fence.ownerId != "" && 0 < fence.claimSequence && ProperRecord(codec, record);
      var owned := c.Some? && Owns(c.value, now, fence.ownerId, fence.claimSequence);
      && (r.Ok? <==> proper && owned && FloorOf(d, record.runId) < record.sequence && Agreeing(d, record))
      && (r.Ok? ==> r.value == if Stored(d, record) then d else WithEvent(d, now, record))
      && (r == Err(InvalidCheckpoint) <==> fence.ownerId == "" || fence.claimSequence <= 0)
      && (r == Err(InvalidRecord) <==> fence.ownerId != "" && 0 < fence.claimSequence && !ProperRecord(codec, record))
      && (forall floor :: r == Err(HistoryCompacted(floor)) <==>
            proper && c.Some? && floor == FloorOf(d, record.runId) && record.sequence <= floor)
      && (r == Err(LeaseLost) <==> proper && !owned && (c.Some? ==> FloorOf(d, record.runId) < record.sequence))
      && (r.Err? ==> r.error in {InvalidCheckpoint, InvalidRecord, LeaseLost, RunLogConflict} || r.error.HistoryCompacted?)
  {
    hide Valid, Transactions.AppendFenced, InsertRecord, Agreeing, Stored, WithEvent, Owns, ProperRecord, Current, FloorOf, ValidRecord;
    AppendFencedCases(codec, d, now, host, record, fence);
    Retains(codec, d);
    InsertOutcome(d, now, record);
  }

  lemma AppendFencedCases(codec: Codec, d: Db, now: Time, host: Time, record: Record, fence: Fence)
    requires Valid(codec, d)
    ensures var c, floor := Current(d, record.runId), FloorOf(d, record.runId);
      Transactions.AppendFenced(codec, d, now, host, record, fence) ==
        if fence.ownerId == "" || fence.claimSequence <= 0 then Err(InvalidCheckpoint)
        else if !ProperRecord(codec, record) then Err(InvalidRecord)
        else if c.Some? && record.sequence <= floor then Err(HistoryCompacted(floor))
        else if c.Some? && Owns(c.value, now, fence.ownerId, fence.claimSequence) then InsertRecord(d, now, record)
        else Err(LeaseLost)
    ensures SequencesUnique(d)
  {
    CurrentIsLatest(codec, d, record.runId);
    RecordIsProper(codec, record);
    hide CheckpointSide, RowsSized, RegistryConsistent, EventsRegistered, EventsRetained, SequencesUnique, Transactions.Encodable, ProperRecord,
      InsertRecord, Versions, Latest, Current;
  }

  lemma RecordIsProper(codec: Codec, record: Record)
    ensures ProperRecord(codec, record) <==> Transactions.Encodable(codec, record)
    ensures ProperRecord(codec, record) ==> 0 < record.sequence
  {
    IndexableIsValid(record.sessionId);
    IndexableIsValid(record.runId);
    hide Indexable, ValidIndexedId;
  }

  // Reading.

  /** Loading finds the newest checkpoint of an active run and nothing else. */
  lemma LoadOutcome(codec: Codec, d: Db, run: RunId)
    requires Valid(codec, d)
    ensures var c := Current(d, run);
      Load(d, run) == if !Indexable(run) then Err(InvalidCheckpoint) else if c.None? then Err(CheckpointNotFound) else Ok(c.value)
  {
    CurrentIsLatest(codec, d, run);
    IndexableIsValid(run);
    hide Valid, Indexable, ValidIndexedId;
  }

  /** Listing an active run gives its versions after the cursor in ascending order, as stored, up to the limit. */
  lemma ListCheckpointsOutcome(codec: Codec, d: Db, run: RunId, after: int, limit: int)
    requires Valid(codec, d)
    ensures var r, c := ListCheckpoints(d, run, after, limit), Current(d, run);
      && (r == Err(InvalidCheckpoint) <==> !Indexable(run) || after < 0 || limit < 0)
      && (r == Err(CheckpointNotFound) <==> Indexable(run) && 0 <= after && 0 <= limit && c.None?)
      && (r.Err? ==> r.error in {InvalidCheckpoint, CheckpointNotFound})
      && (r.Ok? ==>
            var left := if after < c.value.version then c.value.version - after else 0;
            && |r.value| == (if 0 < limit < left then limit else left)
            && forall i | 0 <= i < |r.value| ::
                 Key(run, after + 1 + i) in d.checkpoints && r.value[i] == d.checkpoints[Key(run, after + 1 + i)])
  {
    CurrentIsLatest(codec, d, run);
    IndexableIsValid(run);
    hide Valid, Indexable, ValidIndexedId, Latest, Sorted, CheckpointsAt;
    if Indexable(run) && 0 <= after && 0 <= limit && run in d.heads { ActiveLogIsComplete(codec, d, run, after, limit); }
  }

  // Listing.

  /** An event a query asks for: of an active run, of the session and run it names, after its cursor. */
  ghost predicate Asked(d: Db, query: Query, o: Ordinal) {
    && o in d.events && d.events[o].runId in d.registry && d.registry[d.events[o].runId].state == Active
    && (query.sessionId != "" ==> d.events[o].sessionId == query.sessionId)
    && (query.runId != "" ==> d.events[o].runId == query.runId)
    && query.after < d.events[o].sequence
  }

  ghost predicate ProperQuery(query: Query) {
    && 0 <= query.after && 0 <= query.limit
    && (query.sessionId == "" || Indexable(query.sessionId)) && (query.runId == "" || Indexable(query.runId))
    && (query.sessionId != "" && query.runId == "" ==> query.after == 0)
  }

  /** A workflow run named by the query has been compacted past its cursor. */
  ghost predicate Compacted(d: Db, query: Query) {
    query.runId != "" && query.runId in d.registry && d.registry[query.runId].kind == Workflow && query.after < d.registry[query.runId].floor
  }

  /** `rows` are the first events asked for, in append order: all of them, or as many as the limit. */
  ghost predicate FirstAsked(d: Db, query: Query, rows: seq<Ordinal>) {
    && (forall i | 0 <= i < |rows| :: Asked(d, query, rows[i]))
    && (forall i, j | 0 <= i < j < |rows| :: rows[i] < rows[j])
    && (0 < query.limit ==> |rows| <= query.limit)
    && (forall o, i | Asked(d, query, o) && o !in rows && 0 <= i < |rows| :: rows[i] < o)
    && (forall o | Asked(d, query, o) && o !in rows :: 0 < query.limit == |rows|)
  }

  /** Every `List` reports a bad query or a compacted history, or returns the first events asked for, as stored. */
  lemma ListOutcome(d: Db, query: Query)
    ensures var r := List(d, query);
      && (r.Ok? <==> ProperQuery(query) && !Compacted(d, query))
      && (r.Err? ==> r.error == if ProperQuery(query) then HistoryCompacted(d.registry[query.runId].floor) else InvalidQuery)
      && (r.Ok? ==>
            exists rows :: FirstAsked(d, query, rows) && |r.value| == |rows|
              && forall i | 0 <= i < |rows| :: rows[i] in d.events && r.value[i] == d.events[rows[i]])
  {
    IndexableIsValid(query.sessionId);
    IndexableIsValid(query.runId);
    hide Indexable, ValidIndexedId, FindRecords, FirstAsked;
    if List(d, query).Ok? {
      var rows := RowsFound(d, query);
      assert FirstAsked(d, query, rows);
    }
  }

  lemma RowsFound(d: Db, query: Query) returns (rows: seq<Ordinal>)
    ensures FirstAsked(d, query, rows) && |FindRecords(d, query)| == |rows|
    ensures forall i | 0 <= i < |rows| :: rows[i] in d.events && FindRecords(d, query)[i] == d.events[rows[i]]
  {
    hide TotalOrder, Sorted, Limited, Asked, Matches, MatchingOrdinals;
    IntLeIsTotal();
    var all := MatchingOrdinals(d, query);
    AskedMatch(d, query);
    rows := Sorted(all, IntLe);
    if 0 < query.limit {
      rows := Limited(rows, query.limit);
      PageIsFirst(all, IntLe, query.limit);
      LeftOut(all, rows, query.limit);
    } else {
      SortedLists(all, IntLe);
    }
    forall i | 0 <= i < |rows| ensures Asked(d, query, rows[i]) && rows[i] in d.events { assert rows[i] in rows; }
    hide FindRecords;
    assert FirstAsked(d, query, rows);
  }

  lemma AskedMatch(d: Db, query: Query)
    ensures forall o :: o in MatchingOrdinals(d, query) <==> Asked(d, query, o)
    ensures forall o | Asked(d, query, o) :: o in d.events
  {}
}
