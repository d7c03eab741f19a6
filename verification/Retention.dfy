/** The transactions of the retention operations, and the byte-budget selection they share. */
module Retention {
  import opened Ordering
  import opened Tables
  import opened Transactions

  const DEFAULT_PURGE_LIMIT := 100
  const MAX_PURGE_LIMIT := 1000
  const DEFAULT_PURGE_ROW_LIMIT := 1000
  const MAX_PURGE_ROW_LIMIT := 10000
  const DEFAULT_PURGE_BYTE_LIMIT := 64 * 1024 * 1024
  const MAX_PURGE_BYTE_LIMIT := 1024 * 1024 * 1024

  datatype Candidate = Candidate(id: int, size: nat)
  datatype Budget = Budget(rows: int, bytes: int)
  datatype HistoryPart = HistoryPart(rows: int, bytes: int)
  datatype HistoryDeletion = HistoryDeletion(events: int, checkpoints: int, bytes: int, complete: bool)

  function TotalSize(candidates: seq<Candidate>): (total: nat)
  {
    if candidates == [] then 0 else candidates[0].size + TotalSize(candidates[1..])
  }

  function Ids(candidates: seq<Candidate>): (ids: set<int>) {
    set c | c in candidates :: c.id
  }

  /** How many leading candidates a byte-bounded deletion takes. */
  function FittingCount(candidates: seq<Candidate>, limit: int): (n: nat)
    ensures n <= |candidates|
  {
    if candidates == [] || limit < candidates[0].size then 0
    else if limit <= candidates[0].size then 1
    else 1 + FittingCount(candidates[1..], limit - candidates[0].size)
  }

  function Fitting(candidates: seq<Candidate>, limit: int): seq<Candidate> {
    candidates[..FittingCount(candidates, limit)]
  }

  function SequenceOf(events: map<Ordinal, Record>, o: Ordinal): int {
    if o in events then events[o].sequence else 0
  }

  /** `ORDER BY sequence`, ties broken by the primary key. */
  function BySequence(events: map<Ordinal, Record>): (Ordinal, Ordinal) -> bool {
    (a: Ordinal, b: Ordinal) =>
      SequenceOf(events, a) < SequenceOf(events, b) || (SequenceOf(events, a) == SequenceOf(events, b) && a <= b)
  }

  lemma BySequenceIsTotal(events: map<Ordinal, Record>)
    ensures TotalOrder(BySequence(events))
  {}

  function EventCandidate(codec: Codec, d: Db, o: Ordinal): Candidate
    requires o in d.events
  {
    Candidate(o, codec.recordSize(d.events[o]))
  }

  function RunLogCandidates(codec: Codec, d: Db, run: RunId, limit: int): (cs: seq<Candidate>)
    ensures |cs| <= if limit < 0 then 0 else limit
    ensures forall i | 0 <= i < |cs| :: cs[i].id in d.events && d.events[cs[i].id].runId == run && cs[i] == EventCandidate(codec, d, cs[i].id)
  {
    BySequenceIsTotal(d.events);
    var rows := Limited(Sorted(OrdinalsOf(d, run), BySequence(d.events)), if limit < 0 then 0 else limit);
    seq(|rows|, i requires 0 <= i < |rows| => EventCandidate(codec, d, rows[i]))
  }

  function CheckpointCandidate(codec: Codec, d: Db, run: RunId, version: int): Candidate
    requires Key(run, version) in d.checkpoints
  {
    Candidate(version, CheckpointBytes(codec, d.checkpoints[Key(run, version)]))
  }

  function CheckpointCandidates(codec: Codec, d: Db, run: RunId, limit: int): (cs: seq<Candidate>)
    ensures |cs| <= if limit < 0 then 0 else limit
    ensures forall i | 0 <= i < |cs| :: Key(run, cs[i].id) in d.checkpoints && cs[i] == CheckpointCandidate(codec, d, run, cs[i].id)
  {
    var rows := Limited(Sorted(Versions(d, run), IntLe), if limit < 0 then 0 else limit);
    seq(|rows|, i requires 0 <= i < |rows| => CheckpointCandidate(codec, d, run, rows[i]))
  }

  function SelectedEvents(codec: Codec, d: Db, run: RunId, budget: Budget): seq<Candidate> {
    if budget.rows <= 0 || budget.bytes <= 0 then []
    else Fitting(RunLogCandidates(codec, d, run, budget.rows), budget.bytes)
  }

  function SelectedCheckpoints(codec: Codec, d: Db, run: RunId, budget: Budget): seq<Candidate> {
    if budget.rows <= 0 || budget.bytes <= 0 then []
    else Fitting(CheckpointCandidates(codec, d, run, budget.rows), budget.bytes)
  }

  /** `DELETE` of the listed retention rows, and of those listed events that belong to `run`. */
  function WithoutEvents(d: Db, run: RunId, ordinals: set<Ordinal>): Db {
    d.(retention := d.retention - ordinals, events := d.events - (OrdinalsOf(d, run) * ordinals))
  }

  function KeysAt(d: Db, run: RunId, versions: set<int>): set<Key> {
    set k | k in d.checkpoints && k.run == run && k.version in versions
  }

  function WithoutCheckpoints(d: Db, run: RunId, versions: set<int>): Db {
    d.(checkpoints := d.checkpoints - KeysAt(d, run, versions))
  }

  predicate HasHistory(d: Db, run: RunId) {
    OrdinalsOf(d, run) != {} || Versions(d, run) != {}
  }

  /** Moves a terminal run from active to purging and drops its head; no change when it does not qualify. */
  function Enroll(d: Db, host: Time, run: RunId, before: Time): Result<Db> {
    if run !in d.registry || d.registry[run].kind != Workflow then Err(NotActiveWorkflow)
    else if d.registry[run].state != Active || run !in d.heads then Ok(d)
    else if Versions(d, run) == {} then Err(NoCheckpoint)
    else
      var head, checkpoint := d.heads[run], Latest(d, run);
      if head.version != checkpoint.version then Ok(d)
      else if head != HeadOf(checkpoint) || checkpoint.runId != run then Err(HeadMismatch)
      else if !Terminal(checkpoint.status) || before <= head.updatedAt then Ok(d)
      else Ok(d.(registry := d.registry[run := d.registry[run].(state := Purging, updatedAt := host)],
                 heads := d.heads - {run}))
  }

  function DeleteRunLogs(codec: Codec, d: Db, run: RunId, budget: Budget): (Db, HistoryPart) {
    var events := SelectedEvents(codec, d, run, budget);
    (WithoutEvents(d, run, Ids(events)), HistoryPart(|OrdinalsOf(d, run) * Ids(events)|, TotalSize(events)))
  }

  function DeleteCheckpoints(codec: Codec, d: Db, run: RunId, budget: Budget): (Db, HistoryPart) {
    var checkpoints := SelectedCheckpoints(codec, d, run, budget);
    (WithoutCheckpoints(d, run, Ids(checkpoints)), HistoryPart(|KeysAt(d, run, Ids(checkpoints))|, TotalSize(checkpoints)))
  }

  /** Marks a purging run without history as purged. */
  function CompletePurge(d: Db, host: Time, run: RunId): (Db, bool)
    requires run in d.registry
  {
    if HasHistory(d, run) then (d, false)
    else (d.(registry := d.registry[run := d.registry[run].(state := Purged, updatedAt := host)]), true)
  }

  predicate IsPurging(d: Db, run: RunId) {
    run in d.registry && d.registry[run].kind == Workflow && d.registry[run].state == Purging
  }

  /** One budgeted deletion step over a purging run; the last one marks it purged. */
  function DeletePurging(codec: Codec, d: Db, host: Time, run: RunId, budget: Budget): (Db, HistoryDeletion) {
    if !IsPurging(d, run) then (d, HistoryDeletion(0, 0, 0, false))
    else
      var (d1, events) := DeleteRunLogs(codec, d, run, budget);
      var (d2, checkpoints) := DeleteCheckpoints(codec, d1, run, Budget(budget.rows - events.rows, budget.bytes - events.bytes));
      var (d3, complete) := CompletePurge(d2, host, run);
      (d3, HistoryDeletion(events.rows, checkpoints.rows, events.bytes + checkpoints.bytes, complete))
  }

  predicate IsJournal(d: Db, run: RunId) {
    run in d.registry && d.registry[run].kind == Journal && d.registry[run].state == Active
  }

  function EligibleOrdinals(d: Db, run: RunId, ordinals: set<Ordinal>, before: Time): set<Ordinal> {
    set o | o in ordinals && o in d.retention && d.retention[o].run == run && d.retention[o].appendedAt < before
  }

  /** The second phase of a journal purge, for one run: recheck, delete, drop an emptied registry row. */
  function PurgeJournalRun(d: Db, run: RunId, ordinals: set<Ordinal>, before: Time): (Db, nat) {
    var eligible := EligibleOrdinals(d, run, ordinals, before);
    if !IsJournal(d, run) || eligible == {} then (d, 0)
    else
      var d1 := WithoutEvents(d, run, eligible);
      (if OrdinalsOf(d1, run) == {} then d1.(registry := d1.registry - {run}) else d1,
       |OrdinalsOf(d, run) * eligible|)
  }

  datatype CompactRequest = CompactRequest(run: RunId, before: Time, limit: int, byteLimit: int, allowHistoryLoss: bool)
  datatype CompactResult = CompactResult(events: int, floor: int)
  datatype ConfirmedCandidate = ConfirmedCandidate(ordinal: Ordinal, sequence: int, size: nat, appendedAt: Time)

  function OrDefault(value: int, default: int): int {
    if value == 0 then default else value
  }

  /** Events of `run` with their retention row, above `floor` and up to `confirmed`. */
  function ConfirmedOrdinals(d: Db, run: RunId, floor: int, confirmed: int): set<Ordinal> {
    set o | o in OrdinalsOf(d, run) && o in d.retention && d.retention[o].run == run
            && floor < d.events[o].sequence <= confirmed
  }

  function ConfirmedCandidates(codec: Codec, d: Db, run: RunId, floor: int, confirmed: int, limit: nat): (cs: seq<ConfirmedCandidate>)
  {
    BySequenceIsTotal(d.events);
    var rows := Limited(Sorted(ConfirmedOrdinals(d, run, floor, confirmed), BySequence(d.events)), limit);
    seq(|rows|, i requires 0 <= i < |rows| =>
      ConfirmedCandidate(rows[i], d.events[rows[i]].sequence, codec.recordSize(d.events[rows[i]]), d.retention[rows[i]].appendedAt))
  }

  /** How many leading candidates continue the sequence, are old enough and fit; a gap is an error. */
  function ContiguousCount(cs: seq<ConfirmedCandidate>, floor: int, expected: int, before: Time, limit: int): (r: Result<nat>)
    ensures r.Ok? ==> r.value <= |cs|
  {
    if cs == [] then Ok(0)
    else if cs[0].sequence != expected then Err(SequenceGap(floor))
    else if before <= cs[0].appendedAt || limit < cs[0].size then Ok(0)
    else if limit <= cs[0].size then Ok(1)
    else
      var n :- ContiguousCount(cs[1..], floor, expected + 1, before, limit - cs[0].size);
      Ok(n + 1)
  }

  /** Selects what a confirmed compaction of `run` deletes, or why it is refused. */
  function CompactSelection(codec: Codec, d: Db, request: CompactRequest): Result<seq<ConfirmedCandidate>> {
    var run := request.run;
    if !ActiveWorkflow(d, run) then Err(NotActiveWorkflow)
    else if run !in d.heads then Err(NoRunHead)
    else if Versions(d, run) == {} then Err(NoCheckpoint)
    else
      var floor, checkpoint := d.registry[run].floor, Latest(d, run);
      if d.heads[run] != HeadOf(checkpoint) || checkpoint.runId != run then Err(HeadMismatch)
      else if checkpoint.status != Running && checkpoint.status != Interrupted then Err(TerminalRun)
      else if checkpoint.pendingSequence != 0 then Err(PendingEvent)
      else if checkpoint.confirmedSequence <= floor then Ok([])
      else
        var limit := OrDefault(request.limit, DEFAULT_PURGE_ROW_LIMIT);
        var cs := ConfirmedCandidates(codec, d, run, floor, checkpoint.confirmedSequence, if limit < 0 then 0 else limit);
        if cs == [] then Err(MissingSequence(floor + 1))
        else
          var n :- ContiguousCount(cs, floor, floor + 1, request.before, OrDefault(request.byteLimit, DEFAULT_PURGE_BYTE_LIMIT));
          Ok(cs[..n])
  }

  function ConfirmedIds(cs: seq<ConfirmedCandidate>): set<Ordinal> {
    set c | c in cs :: c.ordinal
  }

  /** Deletes the selected prefix and raises the floor to its last sequence. */
  function DeleteConfirmed(d: Db, run: RunId, selected: seq<ConfirmedCandidate>): Result<(Db, CompactResult)>
    requires run in d.registry
  {
    if selected == [] then Ok((d, CompactResult(0, d.registry[run].floor)))
    else
      var ordinals, n := ConfirmedIds(selected), |selected|;
      if |set o | o in ordinals && o in d.retention && d.retention[o].run == run| != n then Err(RetentionChanged)
      else if |OrdinalsOf(d, run) * ordinals| != n then Err(EventsChanged)
      else
        var d1, floor := WithoutEvents(d, run, ordinals), selected[n - 1].sequence;
        Ok((d1.(registry := d1.registry[run := d1.registry[run].(floor := floor)]), CompactResult(n, floor)))
  }

  function CompactBody(codec: Codec, d: Db, request: CompactRequest): Result<(Db, CompactResult)> {
    var selected :- CompactSelection(codec, d, request);
    DeleteConfirmed(d, request.run, selected)
  }

  predicate ValidCompactRequest(request: CompactRequest) {
    && ValidIndexedId(request.run)
    && request.before != ZERO_TIME
    && request.allowHistoryLoss
    && 0 <= request.limit <= MAX_PURGE_ROW_LIMIT
    && 0 <= request.byteLimit <= MAX_PURGE_BYTE_LIMIT
  }

  /** `PurgeConfirmedRunLog`: one transaction. */
  function Compact(codec: Codec, d: Db, request: CompactRequest): Result<(Db, CompactResult)> {
    if !ValidCompactRequest(request) then Err(InvalidRequest) else CompactBody(codec, d, request)
  }
}
