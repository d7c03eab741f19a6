/** The cross-table invariant of every reachable database, and what it rules out. */
module Invariant {
  import opened Ordering
  import opened Tables
  import opened Transactions
  import opened Protocol

  /** Events and retention rows correspond one to one, with equal run ids. */
  ghost predicate EventsRetained(d: Db) {
    && 0 < d.nextOrdinal
    && d.events.Keys == d.retention.Keys
    && forall o | o in d.events ::
         0 < o < d.nextOrdinal && 0 < d.events[o].sequence && d.retention[o].run == d.events[o].runId
  }

  ghost predicate SequencesUnique(d: Db) {
    forall a, b | a in d.events && b in d.events
      && d.events[a].runId == d.events[b].runId && d.events[a].sequence == d.events[b].sequence :: a == b
  }

  ghost predicate RegistryConsistent(d: Db) {
    forall r | r in d.registry ::
      && 0 <= d.registry[r].floor
      && (d.registry[r].kind == Journal ==>
            d.registry[r].state == Active && d.registry[r].floor == 0 && OrdinalsOf(d, r) != {})
  }

  /** No event is unregistered, belongs to a purged run, or sits at or below its run's floor. */
  ghost predicate EventsRegistered(d: Db) {
    forall o | o in d.events ::
      && d.events[o].runId in d.registry
      && d.registry[d.events[o].runId].state != Purged
      && d.registry[d.events[o].runId].floor < d.events[o].sequence
  }

  ghost predicate CheckpointsRegistered(d: Db) {
    forall k | k in d.checkpoints ::
      && k.run in d.registry && d.registry[k.run].kind == Workflow && d.registry[k.run].state != Purged
      && d.checkpoints[k].runId == k.run && d.checkpoints[k].version == k.version
  }

  ghost predicate HeadsExact(d: Db) {
    forall r :: r in d.heads <==> ActiveWorkflow(d, r)
  }

  /** Versions 1..n with one identity; only the last may be terminal; the head copies the last. */
  ghost predicate LogWellFormed(checkpoints: map<Key, Checkpoint>, run: RunId, head: Head) {
    && 1 <= head.version
    && (forall v :: Key(run, v) in checkpoints <==> 1 <= v <= head.version)
    && HeadOf(checkpoints[Key(run, head.version)]) == head
    && forall v | 1 <= v <= head.version ::
         && SameIdentity(checkpoints[Key(run, v)], checkpoints[Key(run, head.version)])
         && (Terminal(checkpoints[Key(run, v)].status) ==> v == head.version)
  }

  ghost predicate LogsWellFormed(d: Db) {
    forall r | r in d.heads :: LogWellFormed(d.checkpoints, r, d.heads[r])
  }

  ghost predicate RowsSized(codec: Codec, d: Db) {
    && (forall k | k in d.checkpoints :: CheckpointBytes(codec, d.checkpoints[k]) <= MAX_CHECKPOINT_BYTES)
    && (forall o | o in d.events :: codec.recordSize(d.events[o]) <= MAX_RUNLOG_BYTES)
  }

  ghost predicate EventSide(d: Db) {
    EventsRetained(d) && SequencesUnique(d) && RegistryConsistent(d) && EventsRegistered(d)
  }

  ghost predicate CheckpointSide(d: Db) {
    CheckpointsRegistered(d) && HeadsExact(d) && LogsWellFormed(d)
  }

  ghost predicate Valid(codec: Codec, d: Db) {
    EventSide(d) && CheckpointSide(d) && RowsSized(codec, d)
  }

  lemma EventSideFrame(d: Db, e: Db)
    requires EventSide(d)
    requires e.events == d.events && e.retention == d.retention && e.registry == d.registry && e.nextOrdinal == d.nextOrdinal
    ensures EventSide(e)
  {
    assert forall r :: OrdinalsOf(d, r) == OrdinalsOf(e, r);
  }

  lemma RowsSizedSubset(codec: Codec, d: Db, e: Db)
    requires RowsSized(codec, d)
    requires forall k | k in e.checkpoints :: k in d.checkpoints && e.checkpoints[k] == d.checkpoints[k]
    requires forall o | o in e.events :: o in d.events && e.events[o] == d.events[o]
    ensures RowsSized(codec, e)
  {}

  /** Checkpoints and heads stay, and no registry change touches an active workflow or retires a
      run that still has checkpoints. */
  lemma CheckpointSideFrame(d: Db, e: Db)
    requires CheckpointSide(d)
    requires e.checkpoints == d.checkpoints && e.heads == d.heads
    requires forall r :: ActiveWorkflow(e, r) <==> ActiveWorkflow(d, r)
    requires forall k | k in d.checkpoints ::
      k.run in e.registry && e.registry[k.run].kind == Workflow && e.registry[k.run].state != Purged
    ensures CheckpointSide(e)
  {
    hide LogWellFormed;
    forall q ensures q in e.heads <==> ActiveWorkflow(e, q) { assert q in d.heads <==> ActiveWorkflow(d, q); }
    forall q | q in e.heads ensures LogWellFormed(e.checkpoints, q, e.heads[q]) {}
  }

  /** In a valid database the head locates the newest checkpoint. */
  lemma HeadIsLatest(codec: Codec, d: Db, run: RunId)
    requires Valid(codec, d) && run in d.heads
    ensures Versions(d, run) != {} && LatestVersion(d, run) == d.heads[run].version
    ensures HeadOf(Latest(d, run)) == d.heads[run] && Latest(d, run).runId == run
    ensures Latest(d, run).version == d.heads[run].version
  {
    var n := d.heads[run].version;
    assert LogWellFormed(d.checkpoints, run, d.heads[run]);
    assert Key(run, n) in d.checkpoints;
    assert n in Versions(d, run);
    var v := LatestVersion(d, run);
    assert Key(run, v) in d.checkpoints;
  }

  lemma LogFrame(before: map<Key, Checkpoint>, after: map<Key, Checkpoint>, run: RunId, head: Head)
    requires LogWellFormed(before, run, head)
    requires forall v :: Key(run, v) in before <==> Key(run, v) in after
    requires forall v | Key(run, v) in before :: before[Key(run, v)] == after[Key(run, v)]
    ensures LogWellFormed(after, run, head)
  {}

  lemma AdvanceLog(checkpoints: map<Key, Checkpoint>, head: Head, record: Checkpoint)
    requires LogWellFormed(checkpoints, record.runId, head)
    requires record.version == head.version + 1
    requires SameIdentity(checkpoints[Key(record.runId, head.version)], record) && !Terminal(head.status)
    ensures LogWellFormed(checkpoints[Key(record.runId, record.version) := record], record.runId, HeadOf(record))
  {}

  lemma LogUpdateKeepsCheckpointSide(d: Db, e: Db, key: Key, record: Checkpoint, head: Head)
    requires CheckpointSide(d) && key.run in d.heads && record.runId == key.run && record.version == key.version
    requires e.checkpoints == d.checkpoints[key := record] && e.heads == d.heads[key.run := head] && e.registry == d.registry
    requires LogWellFormed(e.checkpoints, key.run, head)
    ensures CheckpointSide(e)
  {
    forall q | q in d.heads && q != key.run ensures LogWellFormed(e.checkpoints, q, d.heads[q]) {
      LogFrame(d.checkpoints, e.checkpoints, q, d.heads[q]);
    }
    hide LogWellFormed;
    forall q ensures q in e.heads <==> ActiveWorkflow(e, q) { assert q in d.heads <==> ActiveWorkflow(d, q); }
    assert ActiveWorkflow(d, key.run);
  }

  lemma AdvanceKeepsValid(codec: Codec, d: Db, record: Checkpoint, current: Checkpoint)
    requires Valid(codec, d) && record.runId in d.heads
    requires Versions(d, record.runId) != {} && current == Latest(d, record.runId)
    requires record.version == current.version + 1 && SameIdentity(current, record) && !Terminal(current.status)
    ensures var r := AdvanceCheckpoint(codec, d, record, current.version);
      && (r.Err? ==> r.error == InvalidCheckpoint)
      && (r.Ok? ==> Valid(codec, r.value))
  {
    var run := record.runId;
    HeadIsLatest(codec, d, run);
    assert LogWellFormed(d.checkpoints, run, d.heads[run]);
    assert Key(run, record.version) !in d.checkpoints;
    AdvanceLog(d.checkpoints, d.heads[run], record);
    hide EventSide, CheckpointSide, LogWellFormed;
    var r := AdvanceCheckpoint(codec, d, record, current.version);
    if r.Ok? {
      LogUpdateKeepsCheckpointSide(d, r.value, Key(run, record.version), record, HeadOf(record));
      EventSideFrame(d, r.value);
    }
  }

  lemma FirstLog(checkpoints: map<Key, Checkpoint>, record: Checkpoint)
    requires record.version == 1 && forall v :: Key(record.runId, v) !in checkpoints
    ensures LogWellFormed(checkpoints[Key(record.runId, 1) := record], record.runId, HeadOf(record))
  {}

  /** A new registry row for a run without rows of its own. */
  lemma RegisterKeepsEventSide(d: Db, e: Db, run: RunId, row: Registry)
    requires EventSide(d) && run !in d.registry
    requires row.floor == 0 && row.kind == Workflow && row.state == Active
    requires e.events == d.events && e.retention == d.retention && e.nextOrdinal == d.nextOrdinal
    requires e.registry == d.registry[run := row]
    ensures EventSide(e)
  {
    assert forall r :: OrdinalsOf(d, r) == OrdinalsOf(e, r);
  }

  lemma InsertFirstKeepsCheckpointSide(d: Db, e: Db, record: Checkpoint, row: Registry)
    requires CheckpointSide(d) && record.runId !in d.registry && record.version == 1
    requires row.kind == Workflow && row.state == Active
    requires e.registry == d.registry[record.runId := row]
    requires e.checkpoints == d.checkpoints[Key(record.runId, 1) := record]
    requires e.heads == d.heads[record.runId := HeadOf(record)]
    ensures CheckpointSide(e)
  {
    var run := record.runId;
    assert forall v :: Key(run, v) !in d.checkpoints;
    FirstLog(d.checkpoints, record);
    forall q | q in d.heads ensures q != run && LogWellFormed(e.checkpoints, q, d.heads[q]) {
      assert ActiveWorkflow(d, q);
      LogFrame(d.checkpoints, e.checkpoints, q, d.heads[q]);
    }
    forall q ensures q in e.heads <==> ActiveWorkflow(e, q) { assert q in d.heads <==> ActiveWorkflow(d, q); }
  }

  /** A checkpoint is only ever created for a run id the registry has not seen. */
  lemma CreateKeepsValid(codec: Codec, d: Db, now: Time, host: Time, record: Checkpoint, duration: int)
    requires Valid(codec, d)
    ensures var r := CreateBody(codec, d, now, host, record, duration);
      && (r.Ok? ==> record.runId !in d.registry && Valid(codec, r.value))
  {
    var r := CreateBody(codec, d, now, host, record, duration);
    var run := record.runId;
    assert run in d.heads <==> ActiveWorkflow(d, run);
    if r.Ok? {
      var stored := LeasedRecord(now, record, duration).value;
      if run !in d.registry {
        var row := Registry(Workflow, Active, host, 0);
        RegisterKeepsEventSide(d, r.value, run, row);
        InsertFirstKeepsCheckpointSide(d, r.value, stored, row);
      }
    }
  }

  /** A claim never reaches the duplicate-key or head-conflict failure. */
  lemma ClaimKeepsValid(codec: Codec, d: Db, now: Time, candidate: Checkpoint, duration: int, version: int)
    requires Valid(codec, d)
    ensures var r := ClaimBody(codec, d, now, candidate, duration, version);
      && (r.Err? ==> r.error != DuplicateKey && r.error != HeadConflict)
      && (r.Ok? ==> Valid(codec, r.value))
  {
    hide EventSide, CheckpointSide, RowsSized;
    var stored := ClaimRecord(d, now, candidate, duration, version);
    if stored.Ok? {
      HeadIsLatest(codec, d, candidate.runId);
      AdvanceKeepsValid(codec, d, stored.value, Latest(d, candidate.runId));
    }
  }

  /** Nor does a save or finish. */
  lemma WriteKeepsValid(codec: Codec, d: Db, now: Time, record: Checkpoint, duration: int, version: int, terminal: bool)
    requires Valid(codec, d)
    ensures var r := WriteBody(codec, d, now, record, duration, version, terminal);
      && (r.Err? ==> r.error != DuplicateKey && r.error != HeadConflict)
      && (r.Ok? ==> Valid(codec, r.value))
  {
    hide EventSide, CheckpointSide, RowsSized;
    var stored := WriteRecord(d, now, record, duration, version, terminal);
    if stored.Ok? {
      HeadIsLatest(codec, d, record.runId);
      AdvanceKeepsValid(codec, d, stored.value, Latest(d, record.runId));
    }
  }

  lemma RenewLog(checkpoints: map<Key, Checkpoint>, run: RunId, head: Head, expiry: Time)
    requires LogWellFormed(checkpoints, run, head)
    ensures var key := Key(run, head.version);
      LogWellFormed(checkpoints[key := checkpoints[key].(leaseExpiresAt := expiry)], run, head)
  {}

  /** Renewing changes nothing but the expiry of the newest checkpoint. */
  lemma RenewKeepsValid(codec: Codec, d: Db, now: Time, lease: Lease)
    requires Valid(codec, d)
    ensures var r := Transactions.RenewLease(codec, d, now, lease);
      r.Ok? ==>
        && Valid(codec, r.value)
        && lease.runId in d.heads
        && var key := Key(lease.runId, d.heads[lease.runId].version);
        && key in d.checkpoints && key in r.value.checkpoints
        && d.checkpoints[key].leaseExpiresAt <= r.value.checkpoints[key].leaseExpiresAt
        && r.value == d.(checkpoints := d.checkpoints[key := d.checkpoints[key].(leaseExpiresAt := r.value.checkpoints[key].leaseExpiresAt)])
  {
    var r := Transactions.RenewLease(codec, d, now, lease);
    if r.Ok? {
      var e, run := r.value, lease.runId;
      HeadIsLatest(codec, d, run);
      var key := Key(run, d.heads[run].version);
      assert LogWellFormed(d.checkpoints, run, d.heads[run]);
      RenewLog(d.checkpoints, run, d.heads[run], e.checkpoints[key].leaseExpiresAt);
      assert d.checkpoints[key].runId == run && d.checkpoints[key].version == key.version;
      hide EventSide, CheckpointSide, LogWellFormed;
      if e != d {
        LogUpdateKeepsCheckpointSide(d, e, key, e.checkpoints[key], d.heads[run]);
        EventSideFrame(d, e);
      } else {
        assert d == d.(checkpoints := d.checkpoints);
      }
    }
  }

  function WithRecord(d: Db, now: Time, record: Record): Db {
    d.(events := d.events[d.nextOrdinal := record],
       retention := d.retention[d.nextOrdinal := Retention(record.runId, now)],
       nextOrdinal := d.nextOrdinal + 1)
  }

  /** An insert either finds its (run, sequence) taken, or adds one event and its retention row. */
  lemma InsertShape(d: Db, now: Time, record: Record)
    requires EventsRetained(d)
    ensures var r := InsertRecord(d, now, record);
      if OrdinalsAt(d, record.runId, record.sequence) == {} then r == Ok(WithRecord(d, now, record))
      else
        && (r.Ok? ==> r.value == d && exists o :: o in d.events && d.events[o] == record)
        && (r.Err? ==> r.error == RunLogConflict)
  {
    var found := OrdinalsAt(d, record.runId, record.sequence);
    if found == {} {
      var d1 := d.(events := d.events[d.nextOrdinal := record], nextOrdinal := d.nextOrdinal + 1);
      assert d.nextOrdinal !in d.events;
      assert forall o :: o in OrdinalsAt(d1, record.runId, record.sequence) ==> o == d.nextOrdinal by {
        forall o | o in OrdinalsAt(d1, record.runId, record.sequence) ensures o == d.nextOrdinal {
          assert o !in OrdinalsAt(d, record.runId, record.sequence);
        }
      }
      assert OrdinalsAt(d1, record.runId, record.sequence) == {d.nextOrdinal};
    } else {
      var o := Least(found, IntLe);
      assert o in d.events && o in d.retention;
    }
  }

  ghost predicate JournalsNonEmptyExcept(d: Db, run: RunId) {
    forall r | r in d.registry && d.registry[r].kind == Journal && r != run :: OrdinalsOf(d, r) != {}
  }

  ghost predicate RegistryRowsConsistent(registry: map<RunId, Registry>) {
    forall r | r in registry ::
      && 0 <= registry[r].floor
      && (registry[r].kind == Journal ==> registry[r].state == Active && registry[r].floor == 0)
  }

  /** Inserting a record, possibly right after its journal's registry row. */
  lemma InsertKeepsEventSide(d: Db, now: Time, record: Record)
    requires EventsRetained(d) && SequencesUnique(d) && EventsRegistered(d)
    requires RegistryRowsConsistent(d.registry) && JournalsNonEmptyExcept(d, record.runId)
    requires 0 < record.sequence && record.runId in d.registry
    requires d.registry[record.runId].state != Purged && d.registry[record.runId].floor < record.sequence
    requires OrdinalsAt(d, record.runId, record.sequence) == {}
    ensures EventSide(WithRecord(d, now, record))
  {
    var e := WithRecord(d, now, record);
    assert d.nextOrdinal in OrdinalsOf(e, record.runId);
    forall q ensures OrdinalsOf(d, q) <= OrdinalsOf(e, q) {}
    forall a | a in d.events ensures !(d.events[a].runId == record.runId && d.events[a].sequence == record.sequence) {
      assert a !in OrdinalsAt(d, record.runId, record.sequence);
    }
  }

  /** What a successful append changes: nothing if the record is already stored, else one event,
      its retention row, and for an unknown run a journal registry row. */
  ghost predicate Appended(d: Db, e: Db, now: Time, host: Time, record: Record) {
    if OrdinalsAt(d, record.runId, record.sequence) != {}
    then e == d && exists o :: o in d.events && d.events[o] == record
    else e == WithRecord(Joined(d, record.runId, host), now, record)
  }

  function Joined(d: Db, run: RunId, host: Time): Db {
    if run in d.registry then d else d.(registry := d.registry[run := Registry(Journal, Active, host, 0)])
  }

  lemma JoinedKeepsEventSide(d: Db, now: Time, host: Time, record: Record)
    requires EventSide(d) && 0 < record.sequence
    requires record.runId in d.registry ==> d.registry[record.runId].state != Purged && d.registry[record.runId].floor < record.sequence
    requires OrdinalsAt(d, record.runId, record.sequence) == {}
    ensures EventSide(WithRecord(Joined(d, record.runId, host), now, record))
  {
    var d1 := Joined(d, record.runId, host);
    assert forall r :: OrdinalsOf(d, r) == OrdinalsOf(d1, r);
    assert OrdinalsAt(d1, record.runId, record.sequence) == OrdinalsAt(d, record.runId, record.sequence);
    InsertKeepsEventSide(d1, now, record);
  }

  lemma WithRecordKeepsValid(codec: Codec, d: Db, now: Time, host: Time, record: Record)
    requires Valid(codec, d) && Encodable(codec, record)
    requires record.runId in d.registry ==> d.registry[record.runId].state != Purged && d.registry[record.runId].floor < record.sequence
    requires OrdinalsAt(d, record.runId, record.sequence) == {}
    ensures Valid(codec, WithRecord(Joined(d, record.runId, host), now, record))
  {
    var e := WithRecord(Joined(d, record.runId, host), now, record);
    JoinedKeepsEventSide(d, now, host, record);
    hide EventSide;
    CheckpointSideFrame(d, e);
  }

  lemma AppendKeepsValid(codec: Codec, d: Db, now: Time, host: Time, record: Record)
    requires Valid(codec, d)
    ensures var r := Transactions.Append(codec, d, now, host, record);
      r.Ok? ==> Valid(codec, r.value) && Appended(d, r.value, now, host, record)
  {
    var r := Transactions.Append(codec, d, now, host, record);
    if r.Ok? {
      var d1 := EnsureRegistry(d, record.runId, Journal, host).value;
      assert OrdinalsAt(d1, record.runId, record.sequence) == OrdinalsAt(d, record.runId, record.sequence);
      InsertShape(d1, now, record);
      if OrdinalsAt(d, record.runId, record.sequence) == {} {
        WithRecordKeepsValid(codec, d, now, host, record);
      } else {
        var o :| o in OrdinalsAt(d, record.runId, record.sequence);
        assert d1 == d;
      }
    }
  }

  lemma AppendFencedKeepsValid(codec: Codec, d: Db, now: Time, host: Time, record: Record, fence: Fence)
    requires Valid(codec, d)
    ensures var r := Transactions.AppendFenced(codec, d, now, host, record, fence);
      r.Ok? ==> Valid(codec, r.value) && Appended(d, r.value, now, host, record) && record.runId in d.heads
  {
    hide Valid, Transactions.AppendFenced, InsertRecord, Appended;
    AppendFencedInserts(codec, d, now, host, record, fence);
    if Transactions.AppendFenced(codec, d, now, host, record, fence).Ok? { InsertKeepsValid(codec, d, now, host, record); }
  }

  /** A fenced append that gets as far as the insert is one to an active workflow run above its floor. */
  lemma AppendFencedInserts(codec: Codec, d: Db, now: Time, host: Time, record: Record, fence: Fence)
    requires Valid(codec, d)
    ensures Transactions.AppendFenced(codec, d, now, host, record, fence).Ok? ==>
      && Transactions.AppendFenced(codec, d, now, host, record, fence) == InsertRecord(d, now, record)
      && Encodable(codec, record) && record.runId in d.heads
      && ActiveWorkflow(d, record.runId) && d.registry[record.runId].floor < record.sequence
  {
    assert record.runId in d.heads <==> ActiveWorkflow(d, record.runId);
    hide EventSide, CheckpointSide, RowsSized, InsertRecord, Latest, Versions, HoldsLease, Encodable;
  }

  lemma InsertKeepsValid(codec: Codec, d: Db, now: Time, host: Time, record: Record)
    requires Valid(codec, d) && Encodable(codec, record)
    requires ActiveWorkflow(d, record.runId) && d.registry[record.runId].floor < record.sequence
    ensures var r := InsertRecord(d, now, record); r.Ok? ==> Valid(codec, r.value) && Appended(d, r.value, now, host, record)
  {
    hide EventSide, CheckpointSide, RowsSized, Encodable, InsertRecord;
    Retains(codec, d);
    InsertShape(d, now, record);
    if OrdinalsAt(d, record.runId, record.sequence) == {} { WithRecordKeepsValid(codec, d, now, host, record); }
  }

  lemma Retains(codec: Codec, d: Db)
    requires Valid(codec, d)
    ensures EventsRetained(d)
  {}
}
