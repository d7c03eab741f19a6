/** The stored events of an active workflow run are exactly the records ever appended to it above its
    compaction floor, in append order; reading never silently truncates them. */
module RunLog {
  import opened Options
  import opened Ordering
  import opened Tables
  import opened Transactions
  import opened Retention
  import opened Protocol
  import opened Invariant
  import opened RetentionInvariant
  import opened Compaction
  import opened Reachability
  import opened Fencing
  import opened Tombstones

  function EventOf(op: Op): Option<Record> {
    match op
    case Append(event) => Some(event)
    case AppendFenced(event, _) => Some(event)
    case _ => None
  }

  /** The record a step adds to the history of `run`: one it appended successfully, while the run is
      a workflow, and had not appended before. */
  function Recorded(codec: Codec, d: Db, s: Step, run: RunId, log: seq<Record>): seq<Record> {
    var event := EventOf(s.op);
    if event.Some? && event.value.runId == run && ActiveWorkflow(d, run) && Execute(codec, d, s).Ok? && event.value !in log
    then [event.value] else []
  }

  /** All records appended to workflow `run` along `steps`, after those of `log`. */
  function History(codec: Codec, d: Db, steps: seq<Step>, run: RunId, log: seq<Record>): seq<Record>
    decreases |steps|
  {
    if steps == [] then log
    else History(codec, Next(codec, d, steps[0]), steps[1..], run, log + Recorded(codec, d, steps[0], run, log))
  }

  /** The events of `run` in primary-key order. */
  function Stored(d: Db, run: RunId): seq<Record> {
    RecordsAt(d.events, Rows(d, run))
  }

  function Rows(d: Db, run: RunId): (rows: seq<Ordinal>)
    ensures forall i | 0 <= i < |rows| :: rows[i] in d.events && rows[i] in OrdinalsOf(d, run)
    ensures forall o | o in OrdinalsOf(d, run) :: o in rows
  {
    var rows := Sorted(OrdinalsOf(d, run), IntLe);
    assert forall o :: o in Elements(rows) <==> o in rows;
    rows
  }

  function Above(floor: int): Record -> bool {
    (r: Record) => floor < r.sequence
  }

  ghost predicate Refines(d: Db, run: RunId, log: seq<Record>) {
    && (forall i | 0 <= i < |log| :: log[i].runId == run)
    && (forall i, j | 0 <= i < j < |log| :: log[i].sequence != log[j].sequence)
    && (ActiveWorkflow(d, run) ==> Stored(d, run) == Filter(log, Above(d.registry[run].floor)))
    && (!IsWorkflow(d, run) ==> log == [])
  }

  lemma {:induction false} RecordsAtFrame(a: map<Ordinal, Record>, b: map<Ordinal, Record>, rows: seq<Ordinal>)
    requires forall i | 0 <= i < |rows| :: rows[i] in a && rows[i] in b && a[rows[i]] == b[rows[i]]
    ensures RecordsAt(a, rows) == RecordsAt(b, rows)
  {}

  lemma SameEventsSameStored(d: Db, e: Db, run: RunId)
    requires SameEvents(d, e, run)
    ensures Stored(d, run) == Stored(e, run)
  {
    hide TotalOrder, Ascending;
    var rows := Rows(d, run);
    assert rows == Rows(e, run);
    forall i | 0 <= i < |rows| ensures rows[i] in d.events && rows[i] in e.events && d.events[rows[i]] == e.events[rows[i]] {
      assert rows[i] in OrdinalsOf(d, run) && rows[i] in OrdinalsOf(e, run);
    }
    hide Rows, RecordsAt;
    RecordsAtFrame(d.events, e.events, rows);
  }

  lemma RecordsAtSnoc(events: map<Ordinal, Record>, rows: seq<Ordinal>, o: Ordinal)
    requires o in events && forall i | 0 <= i < |rows| :: rows[i] in events
    ensures RecordsAt(events, rows + [o]) == RecordsAt(events, rows) + [events[o]]
  {}

  lemma RowsWithRecord(d: Db, now: Time, record: Record)
    requires EventsRetained(d)
    ensures Rows(WithRecord(d, now, record), record.runId) == Rows(d, record.runId) + [d.nextOrdinal]
    ensures d.nextOrdinal !in d.events
  {
    hide TotalOrder, Ascending, RecordsAt;
    IntLeIsTotal();
    var e, run := WithRecord(d, now, record), record.runId;
    assert OrdinalsOf(e, run) == OrdinalsOf(d, run) + {d.nextOrdinal};
    SortedSnoc(OrdinalsOf(d, run), d.nextOrdinal, IntLe);
  }

  /** A new event goes to the end. */
  lemma StoredWithRecord(d: Db, now: Time, record: Record)
    requires EventsRetained(d)
    ensures Stored(WithRecord(d, now, record), record.runId) == Stored(d, record.runId) + [record]
  {
    hide Rows, OrdinalsOf, EventsRetained, RecordsAt;
    var e, rows := WithRecord(d, now, record), Rows(d, record.runId);
    RowsWithRecord(d, now, record);
    RecordsAtSnoc(e.events, rows, d.nextOrdinal);
    RecordsAtFrame(d.events, e.events, rows);
  }

  function KeptAt(events: map<Ordinal, Record>, keep: Record -> bool): Ordinal -> bool {
    (o: Ordinal) => o in events && keep(events[o])
  }

  lemma {:induction false} RecordsAtFilter(events: map<Ordinal, Record>, rows: seq<Ordinal>, keep: Record -> bool)
    requires forall i | 0 <= i < |rows| :: rows[i] in events
    ensures forall i | 0 <= i < |Filter(rows, KeptAt(events, keep))| :: Filter(rows, KeptAt(events, keep))[i] in events
    ensures RecordsAt(events, Filter(rows, KeptAt(events, keep))) == Filter(RecordsAt(events, rows), keep)
  {
    forall o | o in Filter(rows, KeptAt(events, keep)) ensures o in events {}
    if rows != [] {
      RecordsAtFilter(events, rows[1..], keep);
      var rest := Filter(rows[1..], KeptAt(events, keep));
      assert ([rows[0]] + rest)[1..] == rest;
      var records := RecordsAt(events, rows[1..]);
      assert ([events[rows[0]]] + records)[1..] == records;
    }
  }

  lemma RowsSelection(d: Db, run: RunId, keep: Record -> bool, chosen: set<Ordinal>)
    requires forall o :: o in chosen <==> o in OrdinalsOf(d, run) && keep(d.events[o])
    ensures Sorted(chosen, IntLe) == Filter(Rows(d, run), KeptAt(d.events, keep))
  {
    hide TotalOrder, Ascending, Filter, Sorted;
    IntLeIsTotal();
    forall o ensures o in chosen <==> o in OrdinalsOf(d, run) && KeptAt(d.events, keep)(o) {
      if o in OrdinalsOf(d, run) { assert o in d.events; }
    }
    SortedFilter(OrdinalsOf(d, run), chosen, KeptAt(d.events, keep), IntLe);
  }

  /** Selecting rows by their records and reading them is reading all and selecting records. */
  lemma StoredSelection(d: Db, run: RunId, keep: Record -> bool, chosen: set<Ordinal>)
    requires forall o :: o in chosen <==> o in OrdinalsOf(d, run) && keep(d.events[o])
    ensures forall i | 0 <= i < |Sorted(chosen, IntLe)| :: Sorted(chosen, IntLe)[i] in d.events
    ensures RecordsAt(d.events, Sorted(chosen, IntLe)) == Filter(Stored(d, run), keep)
  {
    hide TotalOrder, Ascending, Filter, Rows, RecordsAt;
    IntLeIsTotal();
    RowsSelection(d, run, keep, chosen);
    hide Sorted, OrdinalsOf;
    RecordsAtFilter(d.events, Rows(d, run), keep);
  }

  lemma TruncatedRows(codec: Codec, d: Db, run: RunId, n: nat)
    requires Valid(codec, d) && ActiveWorkflow(d, run)
    ensures var e, through := Truncated(d, run, n), d.registry[run].floor + n;
      && (forall o :: o in OrdinalsOf(e, run) <==> o in OrdinalsOf(d, run) && through < d.events[o].sequence)
      && (forall o | o in OrdinalsOf(e, run) :: e.events[o] == d.events[o])
  {
    forall o | o in OrdinalsOf(d, run) ensures d.registry[run].floor < d.events[o].sequence {}
  }

  lemma StoredSubset(d: Db, e: Db, run: RunId, keep: Record -> bool)
    requires forall o :: o in OrdinalsOf(e, run) <==> o in OrdinalsOf(d, run) && keep(d.events[o])
    requires forall o | o in OrdinalsOf(e, run) :: e.events[o] == d.events[o]
    ensures Stored(e, run) == Filter(Stored(d, run), keep)
  {
    hide TotalOrder, Ascending, Filter, RecordsAt, Sorted;
    IntLeIsTotal();
    StoredSelection(d, run, keep, OrdinalsOf(e, run));
    SubsetFrame(d, e, run);
  }

  lemma SubsetFrame(d: Db, e: Db, run: RunId)
    requires OrdinalsOf(e, run) <= OrdinalsOf(d, run)
    requires forall o | o in OrdinalsOf(e, run) :: e.events[o] == d.events[o]
    ensures forall i | 0 <= i < |Rows(e, run)| :: Rows(e, run)[i] in d.events
    ensures RecordsAt(d.events, Rows(e, run)) == RecordsAt(e.events, Rows(e, run))
  {
    hide Rows, RecordsAt;
    var rows := Rows(e, run);
    forall i | 0 <= i < |rows| ensures rows[i] in d.events && rows[i] in e.events && d.events[rows[i]] == e.events[rows[i]] {
      var o := rows[i];
      assert o in OrdinalsOf(e, run) && o in OrdinalsOf(d, run);
      assert e.events[o] == d.events[o];
    }
    RecordsAtFrame(d.events, e.events, rows);
  }

  /** Compaction drops exactly the records it raises the floor past. */
  lemma StoredTruncated(codec: Codec, d: Db, run: RunId, n: nat)
    requires Valid(codec, d) && ActiveWorkflow(d, run)
    ensures Stored(Truncated(d, run, n), run) == Filter(Stored(d, run), Above(d.registry[run].floor + n))
  {
    hide Valid, Stored, Truncated, OrdinalsOf;
    TruncatedRows(codec, d, run, n);
    StoredSubset(d, Truncated(d, run, n), run, Above(d.registry[run].floor + n));
  }

  lemma TruncatedRefines(codec: Codec, d: Db, run: RunId, log: seq<Record>, n: nat)
    requires Valid(codec, d) && ActiveWorkflow(d, run) && Refines(d, run, log)
    ensures Refines(Truncated(d, run, n), run, log)
  {
    hide Valid, Stored, Filter, RangeOrdinals;
    StoredTruncated(codec, d, run, n);
    FloorNotNegative(codec, d, run);
    var floor := d.registry[run].floor;
    FilterFilter(log, Above(floor), Above(floor + n), Above(floor + n));
  }

  lemma FloorNotNegative(codec: Codec, d: Db, run: RunId)
    requires Valid(codec, d) && run in d.registry
    ensures 0 <= d.registry[run].floor
  {}

  lemma StoredMember(d: Db, run: RunId, o: Ordinal)
    requires o in OrdinalsOf(d, run)
    ensures d.events[o] in Stored(d, run)
  {
    var rows := Rows(d, run);
    var i :| 0 <= i < |rows| && rows[i] == o;
    assert Stored(d, run)[i] == d.events[o];
  }

  lemma StoredOrigin(d: Db, run: RunId, r: Record)
    requires r in Stored(d, run)
    ensures exists o :: o in OrdinalsOf(d, run) && d.events[o] == r
  {
    var i :| 0 <= i < |Stored(d, run)| && Stored(d, run)[i] == r;
    assert Rows(d, run)[i] in OrdinalsOf(d, run);
  }

  lemma SequenceIsNew(d: Db, run: RunId, log: seq<Record>, sequence: int)
    requires ActiveWorkflow(d, run) && Stored(d, run) == Filter(log, Above(d.registry[run].floor))
    requires d.registry[run].floor < sequence && OrdinalsAt(d, run, sequence) == {}
    ensures forall i | 0 <= i < |log| :: log[i].sequence != sequence
  {
    hide Stored, Filter;
    forall r | r in log && r.sequence == sequence ensures r in Stored(d, run) {
      assert Above(d.registry[run].floor)(r);
    }
    forall r | r in Stored(d, run) ensures r.sequence != sequence {
      StoredOrigin(d, run, r);
      var o :| o in OrdinalsOf(d, run) && d.events[o] == r;
      assert o !in OrdinalsAt(d, run, sequence);
    }
  }

  lemma NewRecordRefines(d: Db, now: Time, record: Record, log: seq<Record>)
    requires EventsRetained(d) && Refines(d, record.runId, log) && ActiveWorkflow(d, record.runId)
    requires d.registry[record.runId].floor < record.sequence && OrdinalsAt(d, record.runId, record.sequence) == {}
    ensures Refines(WithRecord(d, now, record), record.runId, log + [record]) && record !in log
  {
    hide Stored, Filter, EventsRetained, OrdinalsAt;
    StoredWithRecord(d, now, record);
    SequenceIsNew(d, record.runId, log, record.sequence);
    FilterSnoc(log, record, Above(d.registry[record.runId].floor));
  }

  lemma FilterSnoc(log: seq<Record>, record: Record, keep: Record -> bool)
    requires keep(record)
    ensures Filter(log + [record], keep) == Filter(log, keep) + [record]
  {
    FilterAppend(log, [record], keep);
    assert Filter([record], keep) == [record];
  }

  /** A record appended to a refined log either extends both sides or was already in both. */
  lemma AppendRefines(d: Db, e: Db, now: Time, host: Time, record: Record, log: seq<Record>)
    requires EventsRetained(d) && Refines(d, record.runId, log) && ActiveWorkflow(d, record.runId)
    requires Appended(d, e, now, host, record) && d.registry[record.runId].floor < record.sequence
    ensures Refines(e, record.runId, if record in log then log else log + [record])
  {
    hide Refines, WithRecord, EventsRetained, Stored, OrdinalsAt, Filter;
    if OrdinalsAt(d, record.runId, record.sequence) != {} {
      var o :| o in d.events && d.events[o] == record;
      StoredIsLogged(d, record.runId, o, log);
    } else {
      NewRecordRefines(d, now, record, log);
    }
  }

  lemma StoredIsLogged(d: Db, run: RunId, o: Ordinal, log: seq<Record>)
    requires Refines(d, run, log) && ActiveWorkflow(d, run) && o in d.events && d.events[o].runId == run
    ensures d.events[o] in log
  {
    StoredMember(d, run, o);
    hide Stored, Filter;
  }

  lemma EmptyStored(d: Db, run: RunId)
    requires OrdinalsOf(d, run) == {}
    ensures Stored(d, run) == []
  {}

  lemma SameRowsRefine(d: Db, e: Db, run: RunId, log: seq<Record>)
    requires Refines(d, run, log) && SameRegistry(d, e, run) && SameEvents(d, e, run)
    ensures Refines(e, run, log)
  {
    SameEventsSameStored(d, e, run);
  }

  lemma CreateRefines(codec: Codec, d: Db, s: Step, log: seq<Record>)
    requires Valid(codec, d) && s.op.Create? && Execute(codec, d, s).Ok? && Refines(d, s.op.record.runId, log)
    ensures Refines(Next(codec, d, s), s.op.record.runId, log)
  {
    var e, run := Next(codec, d, s), s.op.record.runId;
    CreateShape(codec, d, s);
    CreateKeepsOtherLogs(codec, d, s);
    forall o | o in d.events ensures d.events[o].runId != run { assert d.events[o].runId in d.registry; }
    assert OrdinalsOf(e, run) == {};
    EmptyStored(e, run);
    hide Valid, Execute;
  }

  lemma AppendAboveFloor(codec: Codec, d: Db, s: Step)
    requires EventOf(s.op).Some? && Execute(codec, d, s).Ok?
    ensures var record := EventOf(s.op).value; ActiveWorkflow(d, record.runId) ==> d.registry[record.runId].floor < record.sequence
  {
    hide InsertRecord, Encodable, LoadLocked;
  }

  lemma AppendedShape(codec: Codec, d: Db, s: Step)
    requires Valid(codec, d) && EventOf(s.op).Some? && Execute(codec, d, s).Ok?
    ensures Appended(d, Next(codec, d, s), s.now, s.host, EventOf(s.op).value) && EventsRetained(d)
  {
    hide Transactions.Append, Transactions.AppendFenced;
    if s.op.Append? { AppendKeepsValid(codec, d, s.now, s.host, s.op.event); }
    else { AppendFencedKeepsValid(codec, d, s.now, s.host, s.op.event, s.op.fence); }
  }

  /** What a transaction other than an append, a compaction or a creation does to its own run's events. */
  lemma QuietStep(codec: Codec, d: Db, s: Step, run: RunId)
    requires Valid(codec, d) && RunOf(s.op) == Some(run)
    requires !(EventOf(s.op).Some? || s.op.Compact? || s.op.Create?)
    ensures var e := Next(codec, d, s);
      ActiveWorkflow(d, run) ==> !ActiveWorkflow(e, run) || (SameRegistry(d, e, run) && SameEvents(d, e, run))
    ensures IsWorkflow(Next(codec, d, s), run) <==> IsWorkflow(d, run)
    ensures ActiveWorkflow(Next(codec, d, s), run) ==> ActiveWorkflow(d, run)
  {
    hide Valid, Retention.DeletePurging, Retention.PurgeJournalRun, Retention.Enroll, Transactions.Claim, Transactions.Write, Transactions.RenewLease;
    match s.op
    case Claim(candidate, duration, version) => if Execute(codec, d, s).Ok? { ClaimEvolves(codec, d, s); }
    case RenewLease(lease) => if Execute(codec, d, s).Ok? { RenewEvolves(codec, d, s); }
    case Write(record, duration, version, terminal) => if Execute(codec, d, s).Ok? { WriteEvolves(codec, d, s); }
    case Enroll(r, before) => EnrollKeepsValid(codec, d, s.host, r, before); HeadsActive(codec, d, r);
    case DeletePurging(r, budget) =>
      DeletePurgingRegistry(codec, d, s.host, r, budget);
      if !IsPurging(d, r) { DeletePurgingIdle(codec, d, s.host, r, budget); }
    case PurgeJournalRun(r, ordinals, before) =>
      PurgeJournalRegistry(d, r, ordinals, before);
      if !IsJournal(d, r) { PurgeJournalIdle(d, r, ordinals, before); }
  }

  lemma PurgeJournalIdle(d: Db, run: RunId, ordinals: set<Ordinal>, before: Time)
    requires !IsJournal(d, run)
    ensures Retention.PurgeJournalRun(d, run, ordinals, before) == (d, 0)
  {}

  lemma RefinesStep(codec: Codec, d: Db, s: Step, run: RunId, log: seq<Record>)
    requires Valid(codec, d) && Refines(d, run, log)
    ensures Refines(Next(codec, d, s), run, log + Recorded(codec, d, s, run, log))
  {
    hide Valid, Execute, Stored, SameEvents, Appended, WithRecord;
    var e := Next(codec, d, s);
    assert log + [] == log;
    if Execute(codec, d, s).Err? {
      SameRowsReflexive(d, run);
      SameRowsRefine(d, e, run, log);
    } else if RunOf(s.op) != Some(run) {
      OtherRunsUntouched(codec, d, s, run);
      SameRowsRefine(d, e, run, log);
    } else if EventOf(s.op).Some? {
      AppendedShape(codec, d, s);
      AppendAboveFloor(codec, d, s);
      if ActiveWorkflow(d, run) {
        AppendRefines(d, e, s.now, s.host, EventOf(s.op).value, log);
      } else {
        AppendedElsewhereKind(codec, d, s, run);
      }
    } else if s.op.Create? {
      CreateRefines(codec, d, s, log);
    } else if s.op.Compact? {
      CompactIsExact(codec, d, s.op.request);
      CompactedTruncates(codec, d, s);
      TruncatedRefines(codec, d, run, log, Retention.Compact(codec, d, s.op.request).value.1.events);
    } else {
      QuietStep(codec, d, s, run);
      if ActiveWorkflow(e, run) { SameRowsRefine(d, e, run, log); }
    }
  }

  lemma SameRowsReflexive(d: Db, run: RunId)
    ensures SameRegistry(d, d, run) && SameEvents(d, d, run)
  {}

  lemma CompactedTruncates(codec: Codec, d: Db, s: Step)
    requires Valid(codec, d) && s.op.Compact? && Execute(codec, d, s).Ok?
    ensures var r := Retention.Compact(codec, d, s.op.request);
      r.Ok? && r.value.1.events >= 0 && ActiveWorkflow(d, s.op.request.run)
      && Next(codec, d, s) == r.value.0 == Truncated(d, s.op.request.run, r.value.1.events)
  {
    hide Valid, Retention.Compact, Truncated, SumOver, RangeOrdinals;
    CompactIsExact(codec, d, s.op.request);
  }

  /** Appending never turns a run into a workflow or reactivates one. */
  lemma AppendedElsewhereKind(codec: Codec, d: Db, s: Step, run: RunId)
    requires Valid(codec, d) && EventOf(s.op).Some? && Execute(codec, d, s).Ok? && !ActiveWorkflow(d, run)
    ensures !ActiveWorkflow(Next(codec, d, s), run) && (IsWorkflow(Next(codec, d, s), run) <==> IsWorkflow(d, run))
  {
    hide Valid, Execute;
    AppendedShape(codec, d, s);
  }

  lemma {:induction false} RefinesForever(codec: Codec, d: Db, steps: seq<Step>, run: RunId, log: seq<Record>)
    requires Valid(codec, d) && Refines(d, run, log)
    ensures Refines(Exec(codec, d, steps), run, History(codec, d, steps, run, log))
    decreases |steps|
  {
    hide Valid, Next, Refines, Recorded;
    if steps != [] {
      RefinesStep(codec, d, steps[0], run, log);
      NextKeepsValid(codec, d, steps[0]);
      RefinesForever(codec, Next(codec, d, steps[0]), steps[1..], run, log + Recorded(codec, d, steps[0], run, log));
    }
  }

  /** In every reachable database the events of an active run are the records ever appended to it,
      each once and in append order, minus those at or below its floor. */
  lemma StoredEventsAreTheHistory(codec: Codec, steps: seq<Step>, run: RunId)
    requires ActiveWorkflow(Exec(codec, EMPTY, steps), run)
    ensures var d := Exec(codec, EMPTY, steps);
      Stored(d, run) == Filter(History(codec, EMPTY, steps, run, []), Above(d.registry[run].floor))
  {
    hide Valid, Stored, Exec, History;
    EmptyIsValid(codec);
    RefinesForever(codec, EMPTY, steps, run, []);
  }

  function Answers(query: Query): Record -> bool {
    (r: Record) => query.after < r.sequence && (query.sessionId == "" || r.sessionId == query.sessionId)
  }

  function Page(records: seq<Record>, limit: int): seq<Record> {
    if 0 < limit then Limited(records, limit) else records
  }

  lemma RecordsAtLimited(events: map<Ordinal, Record>, rows: seq<Ordinal>, n: nat)
    requires forall i | 0 <= i < |rows| :: rows[i] in events
    ensures RecordsAt(events, Limited(rows, n)) == Limited(RecordsAt(events, rows), n)
  {}

  lemma FoundIsPage(d: Db, query: Query)
    requires ActiveWorkflow(d, query.runId) && query.runId != "" && 0 <= query.limit
    ensures FindRecords(d, query) == Page(Filter(Stored(d, query.runId), Answers(query)), query.limit)
  {
    hide TotalOrder, Ascending;
    IntLeIsTotal();
    var chosen := MatchingOrdinals(d, query);
    forall o ensures o in chosen <==> o in OrdinalsOf(d, query.runId) && Answers(query)(d.events[o]) {}
    StoredSelection(d, query.runId, Answers(query), chosen);
    if 0 < query.limit { RecordsAtLimited(d.events, Sorted(chosen, IntLe), query.limit); }
  }

  predicate ValidQuery(query: Query) {
    && 0 <= query.after && 0 <= query.limit && ValidIndexedId(query.runId)
    && (query.sessionId == "" || ValidIndexedId(query.sessionId))
  }

  /** Reading an active run after any interleaving either reports that history below the floor is gone,
      or returns the first `limit` of all records ever appended after the cursor, in append order. */
  lemma ListIsNeverSilentlyTruncated(codec: Codec, steps: seq<Step>, query: Query)
    requires ValidQuery(query) && ActiveWorkflow(Exec(codec, EMPTY, steps), query.runId)
    ensures var d, history := Exec(codec, EMPTY, steps), History(codec, EMPTY, steps, query.runId, []);
      var floor := d.registry[query.runId].floor;
      List(d, query) == if query.after < floor then Err(HistoryCompacted(floor))
                        else Ok(Page(Filter(history, Answers(query)), query.limit))
  {
    var d, history := Exec(codec, EMPTY, steps), History(codec, EMPTY, steps, query.runId, []);
    var floor := d.registry[query.runId].floor;
    StoredEventsAreTheHistory(codec, steps, query.runId);
    FoundIsPage(d, query);
    hide Exec, History, Stored, FindRecords, Page;
    if floor <= query.after {
      FilterFilter(history, Above(floor), Answers(query), Answers(query));
    }
  }
}
