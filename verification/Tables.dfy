/** The five tables of the store, the rows they hold, and the values its callers pass in. */
module Tables {
  import opened Ordering

  const MAX_CHECKPOINT_BYTES := 4 * 1024 * 1024
  const MAX_RUNLOG_BYTES := 4 * 1024 * 1024
  const MAX_INDEXED_ID_BYTES := 191

  /** Instants are nanoseconds since the Unix epoch; this one is the zero `time.Time`. */
  const ZERO_TIME := -62_135_596_800_000_000_000

  type RunId = string
  type Time = int
  type Ordinal = int
  newtype byte = b: int | 0 <= b < 256
  type Bytes = seq<byte>
  type Positive = n: int | 0 < n witness 1

  datatype Status = Running | Interrupted | Completed | Failed | Canceled | Terminated | UnknownStatus
  datatype ReplayStatus = ReplayUnknown | ReplaySafe | ReplayUnsafe | InvalidReplayStatus

  datatype Checkpoint = Checkpoint(
    id: string, sessionId: string, runId: RunId, workflowName: string, topologyVersion: string,
    schemaVersion: int, version: int, status: Status, replayStatus: ReplayStatus,
    ownerId: string, claimSequence: int, leaseExpiresAt: Time,
    confirmedSequence: int, pendingSequence: int, createdAt: Time, updatedAt: Time, payload: Bytes)

  datatype Record = Record(
    sessionId: string, runId: RunId, sequence: int, eventType: string, source: string,
    timestamp: Time, sourceRunId: string, sourceEventSeq: int, body: Bytes)

  datatype Lease = Lease(runId: RunId, ownerId: string, claimSequence: int, expiresAt: Time, duration: int)
  datatype Fence = Fence(ownerId: string, claimSequence: int)
  datatype Query = Query(sessionId: string, runId: RunId, after: int, limit: int)

  datatype Kind = Journal | Workflow
  datatype RunState = Active | Purging | Purged

  datatype Key = Key(run: RunId, version: int)
  datatype Head = Head(sessionId: string, status: Status, version: int, createdAt: Time, updatedAt: Time)
  datatype Registry = Registry(kind: Kind, state: RunState, updatedAt: Time, floor: int)
  datatype Retention = Retention(run: RunId, appendedAt: Time)

  /** `events` is keyed by its auto-increment primary key; the other columns of an event row are
      fields of the record it encodes. */
  datatype Db = Db(
    checkpoints: map<Key, Checkpoint>,
    heads: map<RunId, Head>,
    registry: map<RunId, Registry>,
    events: map<Ordinal, Record>,
    retention: map<Ordinal, Retention>,
    nextOrdinal: Ordinal)

  const EMPTY := Db(map[], map[], map[], map[], map[], 1)

  /** JSON encoding enters the model only through the sizes of what it produces. */
  datatype Codec = Codec(metadataSize: Checkpoint -> Positive, recordSize: Record -> Positive)

  datatype Error =
    | InvalidCheckpoint | CheckpointConflict | CheckpointMismatch | CheckpointNotFound | CheckpointExists
    | LeaseLost | InvalidRecord | RunLogConflict | HistoryCompacted(floor: int) | InvalidQuery
    | DuplicateKey | HeadConflict | RunRetired | KindConflict
    | InvalidRequest | NotActiveWorkflow | NoRunHead | NoCheckpoint | HeadMismatch | HeadChanged
    | TerminalRun | PendingEvent | MissingSequence(sequence: int) | SequenceGap(after: int)
    | RetentionChanged | EventsChanged | FloorChanged | MetadataMismatch | MetadataGap

  datatype Result<+T> = Ok(value: T) | Err(error: Error) {
    predicate IsFailure() { Err? }
    function PropagateFailure<U>(): Result<U> requires Err? { Err(error) }
    function Extract(): T requires Ok? { value }
  }

  function CheckpointBytes(codec: Codec, record: Checkpoint): (size: nat)
  {
    codec.metadataSize(record.(payload := [])) + |record.payload|
  }

  predicate ValidIndexedId(id: string) {
    && 0 < |id| <= MAX_INDEXED_ID_BYTES
    && '\0' !in id
    && id[|id| - 1] != ' '
  }

  predicate ValidCheckpoint(record: Checkpoint, duration: int) {
    && record.id != "" && record.workflowName != "" && record.topologyVersion != ""
    && ValidIndexedId(record.sessionId) && ValidIndexedId(record.runId)
    && 0 < record.schemaVersion
    && 0 <= duration
    && 0 <= record.confirmedSequence && 0 <= record.pendingSequence
    && 0 < |record.payload| <= MAX_CHECKPOINT_BYTES
    && record.createdAt != ZERO_TIME && record.updatedAt != ZERO_TIME
    && record.status != UnknownStatus
    && record.replayStatus != InvalidReplayStatus
  }

  predicate ValidRecord(record: Record) {
    && ValidIndexedId(record.sessionId) && ValidIndexedId(record.runId)
    && 0 < record.sequence
    && record.eventType != "" && record.source != ""
    && record.timestamp != ZERO_TIME
    && (record.sourceRunId == "" <==> record.sourceEventSeq == 0)
    && 0 <= record.sourceEventSeq
  }

  predicate Terminal(status: Status) {
    status in {Completed, Failed, Canceled, Terminated}
  }

  predicate SameIdentity(left: Checkpoint, right: Checkpoint) {
    && left.id == right.id && left.sessionId == right.sessionId && left.runId == right.runId
    && left.workflowName == right.workflowName && left.topologyVersion == right.topologyVersion
    && left.schemaVersion == right.schemaVersion
  }

  function HeadOf(record: Checkpoint): Head {
    Head(record.sessionId, record.status, record.version, record.createdAt, record.updatedAt)
  }

  function Versions(d: Db, run: RunId): set<int> {
    set k | k in d.checkpoints && k.run == run :: k.version
  }

  function OrdinalsOf(d: Db, run: RunId): set<Ordinal> {
    set o | o in d.events && d.events[o].runId == run
  }

  function OrdinalsAt(d: Db, run: RunId, sequence: int): set<Ordinal> {
    set o | o in d.events && d.events[o].runId == run && d.events[o].sequence == sequence
  }

  predicate DescendingLe(a: int, b: int) { b <= a }

  /** `ORDER BY version DESC LIMIT 1`. */
  function LatestVersion(d: Db, run: RunId): (v: int)
    requires Versions(d, run) != {}
    ensures v in Versions(d, run) && forall w | w in Versions(d, run) :: w <= v
    ensures Key(run, v) in d.checkpoints
  {
    Least(Versions(d, run), DescendingLe)
  }

  function Latest(d: Db, run: RunId): Checkpoint
    requires Versions(d, run) != {}
  {
    d.checkpoints[Key(run, LatestVersion(d, run))]
  }

  /** The records at the listed ordinals, in list order. */
  function RecordsAt(events: map<Ordinal, Record>, ordinals: seq<Ordinal>): (records: seq<Record>)
    requires forall i | 0 <= i < |ordinals| :: ordinals[i] in events
    ensures |records| == |ordinals| && forall i | 0 <= i < |records| :: records[i] == events[ordinals[i]]
  {
    if ordinals == [] then [] else [events[ordinals[0]]] + RecordsAt(events, ordinals[1..])
  }
}
