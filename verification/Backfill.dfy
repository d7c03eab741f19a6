/** What the schema migration's backfills leave behind, in closed form, and why one pass over a
    quiescent database suffices. */
module Backfill {
  import opened Ordering
  import opened Tables
  import opened Transactions
  import opened Protocol
  import opened Invariant
  import opened Metadata
  import opened Reachability

  const BACKFILL_BATCH_SIZE := 256
  const METADATA_RECONCILE_ATTEMPTS := 2

  /** Events after the cursor that have no retention row. */
  function Unretained(d: Db, after: Ordinal): set<Ordinal> {
    set o | o in d.events && after < o && o !in d.retention
  }

  function Retained(d: Db, ordinals: set<Ordinal>, host: Time): Db {
    d.(retention := map o | o in d.retention.Keys + (ordinals * d.events.Keys) ::
         if o in d.retention then d.retention[o] else Tables.Retention(d.events[o].runId, host))
  }

  /** The cursor starts at zero, so only positive ordinals are ever considered. */
  function RetentionBackfilled(d: Db, host: Time): Db {
    Retained(d, Unretained(d, 0), host)
  }

  function LogRuns(d: Db): set<RunId> {
    set o | o in d.events :: d.events[o].runId
  }

  /** Run ids after the cursor. */
  function Later(runs: set<RunId>, after: RunId): set<RunId> {
    set r | r in runs && StringLe(after, r) && r != after
  }

  /** Insert-or-ignore of one registry row per run. */
  function Registered(d: Db, kind: Kind, runs: set<RunId>): Db {
    d.(registry := map r | r in d.registry.Keys + runs ::
         if r in d.registry then d.registry[r] else Registry(kind, Active, 0, 0))
  }

  function RegistryBackfilled(d: Db): Db {
    var d1 := Registered(d, Workflow, Later(d.heads.Keys, ""));
    Registered(d1, Journal, Later(LogRuns(d1), ""))
  }

  /** An active journal row whose run has a head becomes a workflow row. */
  function Promoted(d: Db, host: Time): Db {
    d.(registry := map r | r in d.registry ::
         if d.registry[r].kind == Journal && d.registry[r].state == Active && r in d.heads
         then d.registry[r].(kind := Workflow, updatedAt := host) else d.registry[r])
  }

  /** One attempt of the reconciliation. */
  function Pass(d: Db, retentionHost: Time, promotionHost: Time): Db {
    Promoted(RegistryBackfilled(RetentionBackfilled(d, retentionHost)), promotionHost)
  }

  /** The registry row of `r` after one pass. */
  function RowAfterPass(d: Db, r: RunId, host: Time): Registry
    requires r in d.registry || r in d.heads || r in LogRuns(d)
  {
    var row := if r in d.registry then d.registry[r]
               else Registry(if r in d.heads then Workflow else Journal, Active, 0, 0);
    if row.kind == Journal && row.state == Active && r in d.heads then row.(kind := Workflow, updatedAt := host) else row
  }

  lemma LaterThanEmpty(runs: set<RunId>)
    ensures forall r :: r in Later(runs, "") <==> r in runs && r != ""
  {}

  lemma LogRunsMember(d: Db, o: Ordinal)
    requires o in d.events
    ensures d.events[o].runId in LogRuns(d)
  {}

  /** A pass in one formula per table. */
  ghost predicate Passed(d: Db, e: Db, h1: Time, h2: Time) {
    && e.events == d.events && e.heads == d.heads && e.checkpoints == d.checkpoints && e.nextOrdinal == d.nextOrdinal
    && (forall o :: o in e.retention <==> o in d.retention || (o in d.events && 0 < o))
    && (forall o | o in e.retention ::
          e.retention[o] == if o in d.retention then d.retention[o] else Tables.Retention(d.events[o].runId, h1))
    && (forall r :: r in e.registry <==> r in d.registry || (r != "" && (r in d.heads || r in LogRuns(d))))
    && (forall r | r in e.registry :: e.registry[r] == RowAfterPass(d, r, h2))
  }

  lemma RegistryShape(d: Db)
    ensures var e := RegistryBackfilled(d);
      && e == d.(registry := e.registry)
      && (forall r :: r in e.registry <==> r in d.registry || (r != "" && (r in d.heads || r in LogRuns(d))))
      && (forall r | r in e.registry ::
            e.registry[r] == if r in d.registry then d.registry[r] else Registry(if r in d.heads then Workflow else Journal, Active, 0, 0))
  {
    LaterThanEmpty(d.heads.Keys);
    var d1 := Registered(d, Workflow, Later(d.heads.Keys, ""));
    LaterThanEmpty(LogRuns(d1));
    assert LogRuns(d1) == LogRuns(d);
    hide LogRuns, Later;
  }

  lemma RetentionShape(d: Db, host: Time)
    ensures var e := RetentionBackfilled(d, host);
      && e == d.(retention := e.retention) && LogRuns(e) == LogRuns(d)
      && (forall o :: o in e.retention <==> o in d.retention || (o in d.events && 0 < o))
      && (forall o | o in e.retention ::
            e.retention[o] == if o in d.retention then d.retention[o] else Tables.Retention(d.events[o].runId, host))
  {
    assert LogRuns(RetentionBackfilled(d, host)) == LogRuns(d);
    hide LogRuns;
  }

  lemma PassShape(d: Db, h1: Time, h2: Time)
    ensures Passed(d, Pass(d, h1, h2), h1, h2)
  {
    hide RegistryBackfilled, RetentionBackfilled, LogRuns;
    RetentionShape(d, h1);
    RegistryShape(RetentionBackfilled(d, h1));
  }

  predicate Positive(d: Db) {
    && "" !in d.heads
    && forall o | o in d.events :: 0 < o && 0 < d.events[o].sequence && d.events[o].runId != ""
  }

  lemma PositiveCompletes(d: Db, e: Db, h1: Time, h2: Time)
    requires Passed(d, e, h1, h2) && d.registry == map[] && d.retention == map[] && Positive(d)
    ensures V2MetadataGap(e) == NoGap
  {
    forall o | o in d.events ensures d.events[o].runId in LogRuns(d) { LogRunsMember(d, o); }
    hide LogRuns;
    assert !RetentionGap(e);
    assert !WorkflowRegistryGap(e);
    assert !RunLogRegistryGap(e);
  }

  lemma CompleteIsPositive(d: Db, e: Db, h1: Time, h2: Time)
    requires Passed(d, e, h1, h2) && d.registry == map[] && d.retention == map[] && V2MetadataGap(e) == NoGap
    ensures Positive(d)
  {
    forall o | o in d.events ensures d.events[o].runId in LogRuns(d) { LogRunsMember(d, o); }
    hide LogRuns;
    assert !RetentionGap(e) && !WorkflowRegistryGap(e) && !RunLogRegistryGap(e) && !FloorGap(e);
    forall o | o in d.events ensures 0 < o && 0 < d.events[o].sequence && d.events[o].runId != "" {
      assert o in e.retention;
      assert !EventRegistryGap(e, e.events[o].runId);
    }
  }

  /** On a database that never had v2 metadata the first pass leaves no gap exactly when every stored
      ordinal and sequence is positive and no run id is empty. */
  lemma FirstPassCompletes(d: Db, h1: Time, h2: Time)
    requires d.registry == map[] && d.retention == map[]
    ensures V2MetadataGap(Pass(d, h1, h2)) == NoGap <==>
      && "" !in d.heads
      && forall o | o in d.events :: 0 < o && 0 < d.events[o].sequence && d.events[o].runId != ""
  {
    PassShape(d, h1, h2);
    hide Pass, Passed, V2MetadataGap;
    if V2MetadataGap(Pass(d, h1, h2)) == NoGap { CompleteIsPositive(d, Pass(d, h1, h2), h1, h2); }
    if Positive(d) { PositiveCompletes(d, Pass(d, h1, h2), h1, h2); }
  }

  lemma PassedTwice(d: Db, e: Db, f: Db, h1: Time, h2: Time, h3: Time, h4: Time)
    requires Passed(d, e, h1, h2) && Passed(e, f, h3, h4) && LogRuns(e) == LogRuns(d)
    ensures f == e
  {
    hide LogRuns;
    forall o ensures o in f.retention <==> o in e.retention {}
    forall r ensures r in f.registry <==> r in e.registry {}
    forall o | o in f.retention ensures f.retention[o] == e.retention[o] {}
    assert f.retention == e.retention;
    assert f.registry == e.registry;
  }

  /** Repeating a pass changes nothing, so on a quiescent database the second attempt never helps. */
  lemma PassIsIdempotent(d: Db, h1: Time, h2: Time, h3: Time, h4: Time)
    ensures Pass(Pass(d, h1, h2), h3, h4) == Pass(d, h1, h2)
  {
    hide Pass;
    var e := Pass(d, h1, h2);
    PassShape(d, h1, h2);
    PassShape(e, h3, h4);
    assert LogRuns(e) == LogRuns(d);
    hide Passed;
    PassedTwice(d, e, Pass(e, h3, h4), h1, h2, h3, h4);
  }

  lemma ValidIsRegistered(codec: Codec, d: Db)
    requires Valid(codec, d)
    ensures d.events.Keys == d.retention.Keys
    ensures forall r | r in d.heads :: r in d.registry && d.registry[r].kind == Workflow
    ensures forall r | r in LogRuns(d) :: r in d.registry
  {
    forall r | r in d.heads ensures r in d.registry && d.registry[r].kind == Workflow { assert ActiveWorkflow(d, r); }
  }

  lemma PassedRegistered(d: Db, e: Db, h1: Time, h2: Time)
    requires Passed(d, e, h1, h2) && d.events.Keys == d.retention.Keys
    requires forall r | r in d.heads :: r in d.registry && d.registry[r].kind == Workflow
    requires forall r | r in LogRuns(d) :: r in d.registry
    ensures e == d
  {
    hide LogRuns;
    forall o ensures o in e.retention <==> o in d.retention { assert o in d.events <==> o in d.retention; }
    forall r ensures r in e.registry <==> r in d.registry {}
    forall o | o in e.retention ensures e.retention[o] == d.retention[o] {}
    assert e.retention == d.retention;
    assert e.registry == d.registry;
  }

  /** Reconciling a consistent database changes nothing. */
  lemma PassKeepsValidDatabase(codec: Codec, d: Db, h1: Time, h2: Time)
    requires Valid(codec, d)
    ensures Pass(d, h1, h2) == d
  {
    hide Pass, Passed, Valid, LogRuns;
    PassShape(d, h1, h2);
    ValidIsRegistered(codec, d);
    PassedRegistered(d, Pass(d, h1, h2), h1, h2);
  }

  /** Runs whose head is missing or behind their newest checkpoint. */
  predicate Stale(d: Db, run: RunId) {
    Versions(d, run) != {} && (run !in d.heads || d.heads[run].version < LatestVersion(d, run))
  }

  function StaleRuns(d: Db): set<RunId> {
    set k | k in d.checkpoints && Stale(d, k.run) :: k.run
  }

  predicate Mismatched(d: Db, run: RunId)
    requires Versions(d, run) != {}
  {
    Latest(d, run).runId != run || Latest(d, run).version != LatestVersion(d, run)
  }

  /** Every listed run has checkpoints, and its newest one carries the run and version it is stored under. */
  predicate AllMatch(d: Db, runs: set<RunId>) {
    forall r | r in runs :: Versions(d, r) != {} && !Mismatched(d, r)
  }

  lemma StaleMember(d: Db, run: RunId)
    ensures run in StaleRuns(d) <==> Stale(d, run)
  {
    if Stale(d, run) { assert Key(run, LatestVersion(d, run)) in d.checkpoints; }
  }

  lemma StaleHasVersions(d: Db, runs: set<RunId>)
    requires runs <= StaleRuns(d)
    ensures forall r | r in runs :: Versions(d, r) != {}
  {}

  /** The heads after the newest checkpoints of `runs` have been copied. */
  function HeadsCopied(d: Db, runs: set<RunId>): Db
    requires runs <= StaleRuns(d)
  {
    StaleHasVersions(d, runs);
    d.(heads := map r | r in d.heads.Keys + runs :: if r in runs then HeadOf(Latest(d, r)) else d.heads[r])
  }

  function HeadsBackfilled(d: Db): Db {
    assert Later(StaleRuns(d), "") <= StaleRuns(d);
    HeadsCopied(d, Later(StaleRuns(d), ""))
  }

  /** After the backfill every checkpointed run has a head at or above its newest version, and a head
      that was missing or behind copies the newest checkpoint. */
  lemma HeadsCover(d: Db, run: RunId)
    requires run != "" && Versions(d, run) != {}
    ensures var e := HeadsBackfilled(d);
      && run in e.heads
      && e.heads[run] == (if Stale(d, run) then HeadOf(Latest(d, run)) else d.heads[run])
      && (!Mismatched(d, run) ==> LatestVersion(d, run) <= e.heads[run].version)
  {
    LaterThanEmpty(StaleRuns(d));
    StaleMember(d, run);
    hide StaleRuns, Versions, Later;
  }

  /** Legacy rows that the store accepts: heads, where there are any, copy the newest checkpoint; dense checkpoint
      logs, unique positive sequences, bounded rows. */
  ghost predicate LegacyRows(codec: Codec, d: Db) {
    && d.registry == map[] && d.retention == map[]
    && (forall r | r in d.heads :: Versions(d, r) != {} && d.heads[r] == HeadOf(Latest(d, r)))
    && 0 < d.nextOrdinal
    && (forall o | o in d.events :: 0 < o < d.nextOrdinal && 0 < d.events[o].sequence && d.events[o].runId != "")
    && SequencesUnique(d) && RowsSized(codec, d)
    && (forall k | k in d.checkpoints :: k.run != "" && d.checkpoints[k].runId == k.run && d.checkpoints[k].version == k.version)
    && (forall r | Versions(d, r) != {} :: LogWellFormed(d.checkpoints, r, HeadOf(Latest(d, r))))
  }

  function Migrated(d: Db, h1: Time, h2: Time): Db {
    Pass(HeadsBackfilled(d), h1, h2)
  }

  lemma LegacyHeads(codec: Codec, d: Db)
    requires LegacyRows(codec, d)
    ensures var e := HeadsBackfilled(d);
      && e == d.(heads := e.heads)
      && (forall r :: r in e.heads <==> Versions(d, r) != {})
      && (forall r | r in e.heads :: e.heads[r] == HeadOf(Latest(d, r)) && r != "")
      && ((forall r | Versions(d, r) != {} :: r in d.heads) ==> e == d)
  {
    hide StaleRuns, Versions, LegacyRows, Latest, HeadsBackfilled;
    LegacyStale(codec, d);
    BackfilledRows(d);
    if forall r | Versions(d, r) != {} :: r in d.heads { assert HeadsBackfilled(d).heads == d.heads; }
  }

  lemma BackfilledRows(d: Db)
    ensures var e := HeadsBackfilled(d);
      && e == d.(heads := e.heads)
      && (forall r :: r in e.heads <==> r in d.heads || (r in StaleRuns(d) && r != ""))
      && (forall r | r in e.heads ::
            if r in StaleRuns(d) && r != "" then Versions(d, r) != {} && e.heads[r] == HeadOf(Latest(d, r))
            else r in d.heads && e.heads[r] == d.heads[r])
  {
    LaterThanEmpty(StaleRuns(d));
    hide StaleRuns, Versions, Latest, HeadsCopied, Later;
    CopiedRows(d, Later(StaleRuns(d), ""));
  }

  lemma LegacyStale(codec: Codec, d: Db)
    requires LegacyRows(codec, d)
    ensures forall r :: r in StaleRuns(d) <==> Versions(d, r) != {} && r !in d.heads
    ensures forall r | Versions(d, r) != {} :: r != ""
    ensures forall r | r in d.heads :: Versions(d, r) != {} && d.heads[r] == HeadOf(Latest(d, r))
  {
    hide LogWellFormed, StaleRuns;
    forall r ensures r in StaleRuns(d) <==> Versions(d, r) != {} && r !in d.heads { StaleMember(d, r); }
    forall r | Versions(d, r) != {} ensures r != "" { assert Key(r, LatestVersion(d, r)) in d.checkpoints; }
  }

  lemma MigratedRetained(d: Db, e: Db, h1: Time, h2: Time)
    requires Passed(d, e, h1, h2) && d.retention == map[] && 0 < d.nextOrdinal
    requires forall o | o in d.events :: 0 < o < d.nextOrdinal && 0 < d.events[o].sequence
    ensures EventsRetained(e)
  {
    hide LogRuns;
    assert forall o :: o in e.events <==> o in e.retention;
  }

  lemma MigratedRegistered(d: Db, e: Db, h1: Time, h2: Time)
    requires Passed(d, e, h1, h2) && d.registry == map[]
    requires forall o | o in d.events :: 0 < d.events[o].sequence && d.events[o].runId != ""
    ensures EventsRegistered(e) && RegistryConsistent(e)
  {
    forall o | o in e.events ensures e.events[o].runId in e.registry && e.registry[e.events[o].runId].state == Active { LogRunsMember(d, o); }
    forall r | r in e.registry && e.registry[r].kind == Journal ensures OrdinalsOf(e, r) != {} {
      assert r in LogRuns(d);
      var o :| o in d.events && d.events[o].runId == r;
      assert o in OrdinalsOf(e, r);
    }
  }

  lemma MigratedEventSide(d: Db, e: Db, h1: Time, h2: Time)
    requires Passed(d, e, h1, h2) && d.registry == map[] && d.retention == map[] && SequencesUnique(d) && 0 < d.nextOrdinal
    requires forall o | o in d.events :: 0 < o < d.nextOrdinal && 0 < d.events[o].sequence && d.events[o].runId != ""
    ensures EventSide(e)
  {
    hide LogRuns, EventsRetained, RegistryConsistent, EventsRegistered;
    MigratedRetained(d, e, h1, h2);
    MigratedRegistered(d, e, h1, h2);
  }

  lemma MigratedCheckpointSide(d: Db, e: Db, h1: Time, h2: Time)
    requires Passed(d, e, h1, h2) && d.registry == map[]
    requires forall k | k in d.checkpoints :: k.run in d.heads && d.checkpoints[k].runId == k.run && d.checkpoints[k].version == k.version
    requires forall r | r in d.heads :: r != "" && LogWellFormed(d.checkpoints, r, d.heads[r])
    ensures CheckpointSide(e)
  {
    hide LogWellFormed, LogRuns;
    forall r ensures r in e.heads <==> ActiveWorkflow(e, r) {}
    forall r | r in e.heads ensures LogWellFormed(e.checkpoints, r, e.heads[r]) {}
  }

  lemma MigratedIsValid(codec: Codec, d: Db, d1: Db, e: Db, h1: Time, h2: Time)
    requires LegacyRows(codec, d) && d1 == d.(heads := d1.heads) && Passed(d1, e, h1, h2)
    requires forall r :: r in d1.heads <==> Versions(d, r) != {}
    requires forall r | r in d1.heads :: d1.heads[r] == HeadOf(Latest(d, r)) && r != ""
    ensures Valid(codec, e)
  {
    hide LogRuns, LogWellFormed, Latest, EventSide, CheckpointSide, Versions;
    LegacyLogs(codec, d);
    MigratedEventSide(d1, e, h1, h2);
    MigratedCheckpointSide(d1, e, h1, h2);
    hide Passed, SequencesUnique;
    SameRowsSized(codec, d, e);
  }

  lemma SameRowsSized(codec: Codec, d: Db, e: Db)
    requires RowsSized(codec, d) && e.events == d.events && e.checkpoints == d.checkpoints
    ensures RowsSized(codec, e)
  {}

  lemma LegacyLogs(codec: Codec, d: Db)
    requires LegacyRows(codec, d)
    ensures forall k | k in d.checkpoints :: Versions(d, k.run) != {} && d.checkpoints[k].runId == k.run && d.checkpoints[k].version == k.version
    ensures forall r | Versions(d, r) != {} :: LogWellFormed(d.checkpoints, r, HeadOf(Latest(d, r)))
  {
    hide LogWellFormed;
    forall k | k in d.checkpoints ensures Versions(d, k.run) != {} { assert k.version in Versions(d, k.run); }
  }

  /** Migrating an accepted legacy database yields a consistent one (and reconciling alone does, when all heads
      are there), so every theorem about reachable databases holds from there on, and no gap is reported. */
  lemma MigrationEstablishesInvariant(codec: Codec, d: Db, h1: Time, h2: Time, steps: seq<Step>)
    requires LegacyRows(codec, d)
    ensures var e := Migrated(d, h1, h2);
      && Valid(codec, e) && V2MetadataGap(e) == NoGap
      && e.events == d.events && e.checkpoints == d.checkpoints
      && ((forall r | Versions(d, r) != {} :: r in d.heads) ==> e == Pass(d, h1, h2))
      && Valid(codec, Exec(codec, e, steps)) && V2MetadataGap(Exec(codec, e, steps)) == NoGap
  {
    hide Pass, HeadsBackfilled, LegacyRows, Valid, V2MetadataGap, Exec, Versions, Latest, LogRuns, RowAfterPass;
    var d1, e := HeadsBackfilled(d), Migrated(d, h1, h2);
    LegacyHeads(codec, d);
    PassShape(d1, h1, h2);
    MigratedIsValid(codec, d, d1, e, h1, h2);
    ValidHasNoGap(codec, e);
    ExecKeepsValid(codec, e, steps);
    ValidHasNoGap(codec, Exec(codec, e, steps));
  }

  // The paging loops: what one page adds, and why the cursor misses nothing.

  function Through(d: Db, after: Ordinal): set<Ordinal> {
    set o | o in Unretained(d, 0) && o <= after
  }

  lemma RetainedNone(d: Db, host: Time)
    ensures Retained(d, Through(d, 0), host) == d
  {
    assert Through(d, 0) == {};
    assert Retained(d, {}, host).retention == d.retention;
  }

  lemma RetainedThrough(d: Db, after: Ordinal, host: Time)
    requires 0 <= after
    ensures Unretained(Retained(d, Through(d, after), host), after) == Unretained(d, after)
  {}

  lemma RetainedAll(d: Db, after: Ordinal, missing: set<Ordinal>, host: Time)
    requires 0 <= after && missing == Unretained(d, after) == {}
    ensures Retained(d, Through(d, after), host) == RetentionBackfilled(d, host)
  {
    forall o ensures o in Through(d, after) <==> o in Unretained(d, 0) { assert o !in Unretained(d, after); }
    assert Through(d, after) == Unretained(d, 0);
  }

  lemma UnretainedAreEvents(d: Db, after: Ordinal)
    ensures Unretained(d, after) <= d.events.Keys
  {}

  lemma ThroughPage(d: Db, after: Ordinal, last: Ordinal, page: set<Ordinal>)
    requires 0 <= after && page <= Unretained(d, after) && last in page
    requires forall o | o in Unretained(d, after) :: o in page <==> o <= last
    ensures Through(d, last) == Through(d, after) + page && 0 <= last
    ensures |Unretained(d, last)| < |Unretained(d, after)|
  {
    forall o ensures o in Through(d, last) <==> o in Through(d, after) + page { assert o in Unretained(d, after) <==> o in Unretained(d, 0) && after < o; }
    SmallerSet(Unretained(d, last), Unretained(d, after), last);
  }

  lemma SmallerSet<T>(a: set<T>, b: set<T>, x: T)
    requires a <= b && x in b && x !in a
    ensures |a| < |b|
  {
    assert |b - a| + |a| == |b| by { assert b == a + (b - a); }
    assert x in b - a;
  }

  lemma RetainPage(d: Db, after: Ordinal, last: Ordinal, page: set<Ordinal>, host: Time)
    requires 0 <= after && page <= Unretained(d, after) && last in page
    requires forall o | o in Unretained(d, after) :: o in page <==> o <= last
    ensures Retained(Retained(d, Through(d, after), host), page, host) == Retained(d, Through(d, last), host)
    ensures |Unretained(d, last)| < |Unretained(d, after)| && 0 <= last && Unretained(d, last) == Unretained(d, after) - page
  {
    ThroughPage(d, after, last, page);
    RetainedTwice(d, Through(d, after), page, host);
  }

  lemma RetainedTwice(d: Db, a: set<Ordinal>, b: set<Ordinal>, host: Time)
    ensures Retained(Retained(d, a, host), b, host) == Retained(d, a + b, host)
  {
    assert Retained(Retained(d, a, host), b, host).retention == Retained(d, a + b, host).retention;
  }

  /** Where the two registry backfills read run ids from. */
  function SourceRuns(d: Db, kind: Kind): set<RunId> {
    if kind == Workflow then d.heads.Keys else LogRuns(d)
  }

  function RunsThrough(runs: set<RunId>, after: RunId): set<RunId> {
    set r | r in Later(runs, "") && StringLe(r, after)
  }

  lemma RunsThroughNone(runs: set<RunId>)
    ensures RunsThrough(runs, "") == {}
  {}

  lemma RunsThroughAll(runs: set<RunId>, after: RunId)
    requires Later(runs, after) == {}
    ensures RunsThrough(runs, after) == Later(runs, "")
  {
    StringLeIsTotal();
    forall r | r in Later(runs, "") ensures StringLe(r, after) { assert r !in Later(runs, after); }
  }

  lemma RunsThroughPage(runs: set<RunId>, after: RunId, last: RunId, page: set<RunId>)
    requires page <= Later(runs, after) && last in page
    requires forall r | r in Later(runs, after) :: r in page <==> StringLe(r, last)
    ensures RunsThrough(runs, last) == RunsThrough(runs, after) + page
    ensures Later(runs, last) < Later(runs, after) && |Later(runs, last)| < |Later(runs, after)|
    ensures Later(runs, last) == Later(runs, after) - page
  {
    StringLeIsTotal();
    hide StringLe;
    LaterIsNamed(runs, after);
    forall r ensures r in RunsThrough(runs, last) <==> r in RunsThrough(runs, after) + page {
      assert r in Later(runs, after) || StringLe(r, after) || r !in runs;
    }
    forall r | r in Later(runs, last) ensures r in Later(runs, after) {}
    SmallerSet(Later(runs, last), Later(runs, after), last);
  }

  lemma LaterIsPart(runs: set<RunId>)
    ensures forall after :: Later(runs, after) <= runs
  {}

  lemma LaterIsNamed(runs: set<RunId>, after: RunId)
    ensures forall r | r in Later(runs, after) :: r in Later(runs, "")
  {}

  lemma RegisteredNone(d: Db, kind: Kind)
    ensures Registered(d, kind, RunsThrough(SourceRuns(d, kind), "")) == d
  {
    RunsThroughNone(SourceRuns(d, kind));
    assert Registered(d, kind, {}).registry == d.registry;
  }

  lemma SameSource(d: Db, kind: Kind, runs: set<RunId>)
    ensures SourceRuns(Registered(d, kind, runs), kind) == SourceRuns(d, kind)
  {
    assert LogRuns(Registered(d, kind, runs)) == LogRuns(d);
  }

  lemma RegisterPage(d: Db, kind: Kind, after: RunId, last: RunId, page: set<RunId>)
    requires page <= Later(SourceRuns(d, kind), after) && last in page
    requires forall r | r in Later(SourceRuns(d, kind), after) :: r in page <==> StringLe(r, last)
    ensures var e := Registered(d, kind, RunsThrough(SourceRuns(d, kind), after));
      && Registered(e, kind, page) == Registered(d, kind, RunsThrough(SourceRuns(d, kind), last))
      && Registered(e, kind, page) == e.(registry := Registered(e, kind, page).registry)
    ensures |Later(SourceRuns(d, kind), last)| < |Later(SourceRuns(d, kind), after)|
  {
    hide StringLe, Later, SourceRuns, RunsThrough, Registered;
    RunsThroughPage(SourceRuns(d, kind), after, last, page);
    RegisteredTwice(d, kind, RunsThrough(SourceRuns(d, kind), after), page);
  }

  lemma RegisteredTwice(d: Db, kind: Kind, a: set<RunId>, b: set<RunId>)
    ensures var e := Registered(d, kind, a);
      && Registered(e, kind, b) == Registered(d, kind, a + b)
      && Registered(e, kind, b) == e.(registry := Registered(e, kind, b).registry)
  {
    assert Registered(Registered(d, kind, a), kind, b).registry == Registered(d, kind, a + b).registry;
  }

  /** The next source runs after the cursor. */
  function RegistryBatch(d: Db, kind: Kind, after: RunId): (page: seq<RunId>)
    ensures page == [] ==> Later(SourceRuns(d, kind), after) == {}
  {
    StringLeIsTotal();
    Limited(Sorted(Later(SourceRuns(d, kind), after), StringLe), BACKFILL_BATCH_SIZE)
  }

  /** One page of a registry backfill, from its query to the next cursor. */
  lemma RegistryPage(d: Db, kind: Kind, after: RunId, page: seq<RunId>)
    requires page == RegistryBatch(Registered(d, kind, RunsThrough(SourceRuns(d, kind), after)), kind, after) && page != []
    ensures var e, last := Registered(d, kind, RunsThrough(SourceRuns(d, kind), after)), page[|page| - 1];
      && Registered(e, kind, Elements(page)) == Registered(d, kind, RunsThrough(SourceRuns(d, kind), last))
      && Registered(e, kind, Elements(page)) == e.(registry := Registered(e, kind, Elements(page)).registry)
      && |Later(SourceRuns(d, kind), last)| < |Later(SourceRuns(d, kind), after)|
      && (|page| < BACKFILL_BATCH_SIZE ==> Later(SourceRuns(d, kind), last) == {})
  {
    StringLeIsTotal();
    hide TotalOrder, Sorted, StringLe, Registered, SourceRuns, RunsThrough;
    SameSource(d, kind, RunsThrough(SourceRuns(d, kind), after));
    PageCovers(Later(SourceRuns(d, kind), after), StringLe, BACKFILL_BATCH_SIZE);
    RegisterPage(d, kind, after, page[|page| - 1], Elements(page));
    RunsThroughPage(SourceRuns(d, kind), after, page[|page| - 1], Elements(page));
  }

  lemma CopiedNone(d: Db)
    ensures RunsThrough(StaleRuns(d), "") == {} && HeadsCopied(d, {}) == d && AllMatch(d, RunsThrough(StaleRuns(d), ""))
  {
    RunsThroughNone(StaleRuns(d));
    assert HeadsCopied(d, {}).heads == d.heads;
  }

  lemma StaleFrame(d: Db, e: Db, run: RunId)
    requires e.checkpoints == d.checkpoints && (run in d.heads <==> run in e.heads) && (run in d.heads ==> d.heads[run] == e.heads[run])
    ensures run in StaleRuns(d) <==> run in StaleRuns(e)
  {
    assert Versions(d, run) == Versions(e, run);
    StaleMember(d, run);
    StaleMember(e, run);
    hide StaleRuns, Versions;
  }

  lemma StaleAfter(d: Db, after: RunId)
    requires RunsThrough(StaleRuns(d), after) <= StaleRuns(d)
    ensures var e := HeadsCopied(d, RunsThrough(StaleRuns(d), after));
      Later(StaleRuns(e), after) == Later(StaleRuns(d), after)
  {
    StringLeIsTotal();
    hide StringLe, StaleRuns;
    var e := HeadsCopied(d, RunsThrough(StaleRuns(d), after));
    forall r | StringLe(after, r) && r != after ensures r in StaleRuns(d) <==> r in StaleRuns(e) { StaleFrame(d, e, r); }
  }

  lemma StalePage(d: Db, e: Db, page: seq<RunId>)
    requires e.checkpoints == d.checkpoints
    requires forall r | r in page :: r in StaleRuns(e)
    ensures forall r | r in page :: Versions(e, r) != {} && Versions(d, r) != {} && (Mismatched(d, r) <==> Mismatched(e, r))
    ensures Elements(page) <= StaleRuns(e)
  {
    forall r | r in page ensures Versions(e, r) != {} && Versions(d, r) == Versions(e, r) { StaleMember(e, r); }
  }

  lemma CopiedTwice(d: Db, e: Db, a: set<RunId>, b: set<RunId>)
    requires a <= StaleRuns(d) && e == HeadsCopied(d, a) && b <= StaleRuns(e) && a + b <= StaleRuns(d)
    ensures HeadsCopied(e, b) == HeadsCopied(d, a + b)
  {
    hide StaleRuns, HeadsCopied, Versions, Latest;
    CopiedRows(d, a);
    CopiedRows(e, b);
    CopiedRows(d, a + b);
    SameLatest(d, e);
    assert HeadsCopied(e, b).heads == HeadsCopied(d, a + b).heads;
  }

  lemma CopiedRows(d: Db, runs: set<RunId>)
    requires runs <= StaleRuns(d)
    ensures forall r | r in runs :: Versions(d, r) != {}
    ensures var e := HeadsCopied(d, runs);
      && e == d.(heads := e.heads) && e.heads.Keys == d.heads.Keys + runs
      && forall r | r in e.heads :: e.heads[r] == if r in runs then HeadOf(Latest(d, r)) else d.heads[r]
  {
    StaleHasVersions(d, runs);
    hide StaleRuns;
  }

  lemma SameLatest(d: Db, e: Db)
    requires e.checkpoints == d.checkpoints
    ensures forall r | Versions(d, r) != {} :: Versions(e, r) != {} && Latest(e, r) == Latest(d, r)
  {
    forall r ensures Versions(e, r) == Versions(d, r) {}
  }

  lemma CopyPage(d: Db, after: RunId, last: RunId, page: seq<RunId>)
    requires RunsThrough(StaleRuns(d), after) <= StaleRuns(d)
    requires var e := HeadsCopied(d, RunsThrough(StaleRuns(d), after)); Elements(page) <= StaleRuns(e)
    requires Elements(page) <= Later(StaleRuns(d), after) && last in page
    requires forall r | r in Later(StaleRuns(d), after) :: r in page <==> StringLe(r, last)
    ensures RunsThrough(StaleRuns(d), last) <= Later(StaleRuns(d), "") && RunsThrough(StaleRuns(d), last) <= StaleRuns(d)
    ensures RunsThrough(StaleRuns(d), last) == RunsThrough(StaleRuns(d), after) + Elements(page)
    ensures var e := HeadsCopied(d, RunsThrough(StaleRuns(d), after));
      && HeadsCopied(e, Elements(page)) == HeadsCopied(d, RunsThrough(StaleRuns(d), last))
      && HeadsCopied(e, Elements(page)) == e.(heads := HeadsCopied(e, Elements(page)).heads)
    ensures |Later(StaleRuns(d), last)| < |Later(StaleRuns(d), after)|
  {
    var e := HeadsCopied(d, RunsThrough(StaleRuns(d), after));
    hide StringLe, StaleRuns;
    RunsThroughPage(StaleRuns(d), after, last, Elements(page));
    CopiedTwice(d, e, RunsThrough(StaleRuns(d), after), Elements(page));
  }

  /** The next stale runs after the cursor. */
  function HeadBatch(d: Db, after: RunId): (page: seq<RunId>)
    ensures page == [] ==> Later(StaleRuns(d), after) == {}
  {
    StringLeIsTotal();
    Limited(Sorted(Later(StaleRuns(d), after), StringLe), BACKFILL_BATCH_SIZE)
  }

  /** One page of the head backfill, from its query to the next cursor. */
  lemma HeadPage(d: Db, after: RunId, page: seq<RunId>)
    requires RunsThrough(StaleRuns(d), after) <= StaleRuns(d)
    requires page == HeadBatch(HeadsCopied(d, RunsThrough(StaleRuns(d), after)), after) && page != []
    ensures var e, last := HeadsCopied(d, RunsThrough(StaleRuns(d), after)), page[|page| - 1];
      && Elements(page) <= StaleRuns(e)
      && (forall r | r in page :: Versions(e, r) != {} && Versions(d, r) != {} && (Mismatched(d, r) <==> Mismatched(e, r)))
      && (forall r | r in page :: r in Later(StaleRuns(d), ""))
      && RunsThrough(StaleRuns(d), last) <= Later(StaleRuns(d), "") && RunsThrough(StaleRuns(d), last) <= StaleRuns(d)
      && RunsThrough(StaleRuns(d), last) == RunsThrough(StaleRuns(d), after) + Elements(page)
      && HeadsCopied(e, Elements(page)) == HeadsCopied(d, RunsThrough(StaleRuns(d), last))
      && HeadsCopied(e, Elements(page)) == e.(heads := HeadsCopied(e, Elements(page)).heads)
      && |Later(StaleRuns(d), last)| < |Later(StaleRuns(d), after)|
      && (|page| < BACKFILL_BATCH_SIZE ==> Later(StaleRuns(d), last) == {})
  {
    hide StringLe, HeadsCopied, StaleRuns, Mismatched, Versions, HeadBatch, RunsThrough, Later;
    var e, last := HeadsCopied(d, RunsThrough(StaleRuns(d), after)), page[|page| - 1];
    HeadPageListed(d, after, page);
    CopiedKeepsCheckpoints(d, RunsThrough(StaleRuns(d), after));
    StalePage(d, e, page);
    CopyPage(d, after, last, page);
    RunsThroughPage(StaleRuns(d), after, last, Elements(page));
  }

  lemma HeadPageListed(d: Db, after: RunId, page: seq<RunId>)
    requires RunsThrough(StaleRuns(d), after) <= StaleRuns(d)
    requires page == HeadBatch(HeadsCopied(d, RunsThrough(StaleRuns(d), after)), after) && page != []
    ensures var last := page[|page| - 1];
      && last in page && Elements(page) <= Later(StaleRuns(d), after)
      && (forall r | r in Later(StaleRuns(d), after) :: r in page <==> StringLe(r, last))
      && (|page| < BACKFILL_BATCH_SIZE ==> Later(StaleRuns(d), after) <= Elements(page))
      && (forall r | r in page :: r in StaleRuns(HeadsCopied(d, RunsThrough(StaleRuns(d), after))) && r in Later(StaleRuns(d), ""))
  {
    StringLeIsTotal();
    hide TotalOrder, Sorted, StringLe, HeadsCopied, StaleRuns;
    StaleAfter(d, after);
    PageCovers(Later(StaleRuns(HeadsCopied(d, RunsThrough(StaleRuns(d), after))), after), StringLe, BACKFILL_BATCH_SIZE);
    LaterIsNamed(StaleRuns(d), after);
    hide RunsThrough;
  }

  /** Whether the page holds a mismatched run decides whether the backfill goes on. */
  lemma PageDecides(d: Db, e: Db, after: RunId, page: seq<RunId>)
    requires AllMatch(d, RunsThrough(StaleRuns(d), after)) && page != []
    requires RunsThrough(StaleRuns(d), page[|page| - 1]) == RunsThrough(StaleRuns(d), after) + Elements(page)
    requires forall r | r in page ::
      r in Later(StaleRuns(d), "") && Versions(e, r) != {} && Versions(d, r) != {} && (Mismatched(d, r) <==> Mismatched(e, r))
    ensures if exists i :: 0 <= i < |page| && Mismatched(e, page[i]) then !AllMatch(d, Later(StaleRuns(d), ""))
            else AllMatch(d, RunsThrough(StaleRuns(d), page[|page| - 1]))
  {
    hide Mismatched, Versions, Later, StaleRuns, RunsThrough;
    if i :| 0 <= i < |page| && Mismatched(e, page[i]) { assert page[i] in page; }
  }

  lemma CopiedKeepsCheckpoints(d: Db, runs: set<RunId>)
    requires runs <= StaleRuns(d)
    ensures HeadsCopied(d, runs).checkpoints == d.checkpoints
  {}
}
