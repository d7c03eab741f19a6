/** The checkpoints of an active run are an append-only log that readers see whole. */
module CheckpointLog {
  import opened Options
  import opened Ordering
  import opened Tables
  import opened Transactions
  import opened Retention
  import opened Protocol
  import opened Invariant
  import opened Reachability
  import opened Fencing
  import opened Tombstones
  import opened Leases

  /** A terminal checkpoint is never superseded: it stays the newest one until the run is retired. */
  lemma {:induction false} TerminalIsAbsorbing(codec: Codec, d: Db, steps: seq<Step>, run: RunId)
    requires Valid(codec, d) && Current(d, run).Some? && Terminal(Current(d, run).value.status)
    ensures var e := Exec(codec, d, steps); Current(e, run) == Current(d, run) || Retired(e, run)
    decreases |steps|
  {
    hide Valid, Next, Retired, Current;
    if steps != [] {
      var d1 := Next(codec, d, steps[0]);
      StepOnRun(codec, d, steps[0], run);
      RetiredWhenGone(codec, d, steps[0], run);
      if Current(d1, run).Some? {
        TerminalIsAbsorbing(codec, d1, steps[1..], run);
      } else {
        RetiredForever(codec, d1, steps[1..], run);
      }
    }
  }

  /** `e` keeps every checkpoint of `run` below the newest one as `d` has it. */
  ghost predicate KeepsHistory(d: Db, e: Db, run: RunId) {
    run in d.heads ==> forall v | 1 <= v < d.heads[run].version ::
      Key(run, v) in d.checkpoints && Key(run, v) in e.checkpoints && e.checkpoints[Key(run, v)] == d.checkpoints[Key(run, v)]
  }

  lemma AdvanceShape(codec: Codec, d: Db, record: Checkpoint, prior: int)
    ensures var r := AdvanceCheckpoint(codec, d, record, prior); var key := Key(record.runId, record.version);
      r.Ok? ==> key !in d.checkpoints && r.value.checkpoints == d.checkpoints[key := record]
  {}

  lemma HistoryPresent(codec: Codec, d: Db, run: RunId)
    requires Valid(codec, d)
    ensures run in d.heads ==> forall v | 1 <= v < d.heads[run].version :: Key(run, v) in d.checkpoints
  {
    if run in d.heads { assert LogWellFormed(d.checkpoints, run, d.heads[run]); }
  }

  lemma SameLogKeepsHistory(d: Db, e: Db, run: RunId)
    requires SameLog(d, e, run)
    requires run in d.heads ==> forall v | 1 <= v < d.heads[run].version :: Key(run, v) in d.checkpoints
    ensures KeepsHistory(d, e, run)
  {}

  lemma HistoryStep(codec: Codec, d: Db, s: Step, run: RunId)
    requires Valid(codec, d)
    ensures Current(Next(codec, d, s), run).Some? ==> KeepsHistory(d, Next(codec, d, s), run)
  {
    hide Valid, SameLog, Transactions.Create, Retention.DeletePurging, Retention.PurgeJournalRun, Retention.Compact, Retention.Enroll,
      Transactions.Append, Transactions.AppendFenced;
    var e := Next(codec, d, s);
    HistoryPresent(codec, d, run);
    if RunOf(s.op) != Some(run) {
      OtherRunsUntouched(codec, d, s, run);
      SameLogKeepsHistory(d, e, run);
    } else if Execute(codec, d, s).Ok? && (s.op.Claim? || s.op.Write?) {
      hide CheckpointBytes, AdvanceCheckpoint;
      if s.op.Claim? {
        var stored := ClaimRecord(d, s.now, s.op.candidate, s.op.duration, s.op.version).value;
        AdvanceShape(codec, d, stored, s.op.version);
      } else {
        var stored := WriteRecord(d, s.now, s.op.record, s.op.duration, s.op.version, s.op.terminal).value;
        AdvanceShape(codec, d, stored, s.op.version);
      }
    } else if Execute(codec, d, s).Ok? && s.op.RenewLease? {
      RenewKeepsValid(codec, d, s.now, s.op.lease);
    } else {
      hide Execute, Current;
      NextKeepsValid(codec, d, s);
      CurrentIsLatest(codec, e, run);
      if Execute(codec, d, s).Ok? && Current(e, run).Some? && run in d.heads {
        if s.op.Create? { CreateKeepsOtherLogs(codec, d, s); } else { OtherTransactionsKeepLogs(codec, d, s); }
        SameLogKeepsHistory(d, e, run);
      }
    }
  }

  /** A superseded checkpoint is immutable: as long as its run is active it is stored unchanged, and
      later it can only be purged. */
  lemma {:induction false} HistoryIsImmutable(codec: Codec, d: Db, steps: seq<Step>, run: RunId, v: int)
    requires Valid(codec, d) && run in d.heads && 1 <= v < d.heads[run].version
    ensures var e := Exec(codec, d, steps); var key := Key(run, v);
      && key in d.checkpoints
      && (key in e.checkpoints ==> e.checkpoints[key] == d.checkpoints[key])
      && (key !in e.checkpoints ==> Retired(e, run))
    decreases |steps|
  {
    hide Valid, Next, Retired, Current, SameIdentity;
    HistoryPresent(codec, d, run);
    if steps != [] {
      var d1 := Next(codec, d, steps[0]);
      CurrentIsLatest(codec, d, run);
      NextKeepsValid(codec, d, steps[0]);
      CurrentIsLatest(codec, d1, run);
      StepOnRun(codec, d, steps[0], run);
      RetiredWhenGone(codec, d, steps[0], run);
      HistoryStep(codec, d, steps[0], run);
      if run in d1.heads {
        HistoryIsImmutable(codec, d1, steps[1..], run, v);
      } else {
        EnrolledKeepsCheckpoints(codec, d, steps[0], run);
        RetiredForever(codec, d1, steps[1..], run);
      }
    }
  }

  lemma EnrolledKeepsCheckpoints(codec: Codec, d: Db, s: Step, run: RunId)
    requires Valid(codec, d) && run in d.heads && run !in Next(codec, d, s).heads
    ensures Next(codec, d, s).checkpoints == d.checkpoints
  {
    hide Valid, Execute, SameLog;
    var e := Next(codec, d, s);
    if Execute(codec, d, s).Ok? {
      if s.op.Claim? { ClaimKeepsHeads(codec, d, s); }
      else if s.op.Write? { ClaimKeepsHeads(codec, d, s); }
      else if s.op.RenewLease? { RenewEvolves(codec, d, s); }
      else if s.op.Create? { CreateShape(codec, d, s); }
      else {
        OtherTransactionsKeepLogs(codec, d, s);
        EnrollKeepsCheckpoints(d, s);
      }
    }
  }

  lemma EnrollKeepsCheckpoints(d: Db, s: Step)
    requires s.op.Enroll?
    ensures var r := Retention.Enroll(d, s.host, s.op.run, s.op.before); r.Ok? ==> r.value.checkpoints == d.checkpoints
    ensures forall codec :: Execute(codec, d, s) == Retention.Enroll(d, s.host, s.op.run, s.op.before)
  {
    hide Latest, Versions;
  }

  lemma ClaimKeepsHeads(codec: Codec, d: Db, s: Step)
    requires s.op.Claim? || s.op.Write?
    ensures Execute(codec, d, s).Ok? ==> forall q | q in d.heads :: q in Next(codec, d, s).heads
  {
    hide ClaimRecord, WriteRecord, CheckpointBytes;
  }

  function Smaller(a: nat, b: nat): nat {
    if a < b then a else b
  }

  /** Reading an active run after any version yields the following versions without a gap, up to the limit,
      all of one identity; `Load` is version n, only it can be terminal, and the head copies it. */
  lemma ActiveLogIsComplete(codec: Codec, d: Db, run: RunId, after: nat, limit: nat)
    requires Valid(codec, d) && run in d.heads && ValidIndexedId(run)
    ensures var n, listed, newest := d.heads[run].version, ListCheckpoints(d, run, after, limit), Load(d, run);
      && newest.Ok? && newest.value.version == n && HeadOf(newest.value) == d.heads[run]
      && listed.Ok?
      && (var left := if after < n then n - after else 0; |listed.value| == if 0 < limit then Smaller(limit, left) else left)
      && forall i | 0 <= i < |listed.value| ::
           && Key(run, after + 1 + i) in d.checkpoints && listed.value[i] == d.checkpoints[Key(run, after + 1 + i)]
           && listed.value[i].runId == run && listed.value[i].version == after + 1 + i
           && SameIdentity(listed.value[i], newest.value)
           && (listed.value[i].version == n ==> listed.value[i] == newest.value)
           && (Terminal(listed.value[i].status) ==> listed.value[i].version == n)
  {
    var n := d.heads[run].version;
    NewestIsHead(codec, d, run);
    hide Valid, ListCheckpoints, Versions, Latest, SameIdentity, LogsWellFormed, HeadsExact;
    ListedVersions(d, run, after, limit, n);
  }

  lemma NewestIsHead(codec: Codec, d: Db, run: RunId)
    requires Valid(codec, d) && run in d.heads && ValidIndexedId(run)
    ensures var n := d.heads[run].version;
      && 1 <= n && ActiveWorkflow(d, run) && (forall v :: Key(run, v) in d.checkpoints <==> 1 <= v <= n)
      && Load(d, run) == Ok(d.checkpoints[Key(run, n)]) && HeadOf(d.checkpoints[Key(run, n)]) == d.heads[run]
      && forall v | 1 <= v <= n ::
           && d.checkpoints[Key(run, v)].runId == run && d.checkpoints[Key(run, v)].version == v
           && SameIdentity(d.checkpoints[Key(run, v)], d.checkpoints[Key(run, n)])
           && (Terminal(d.checkpoints[Key(run, v)].status) ==> v == n)
  {
    assert run in d.heads <==> ActiveWorkflow(d, run);
    assert LogWellFormed(d.checkpoints, run, d.heads[run]);
    HeadIsLatest(codec, d, run);
    hide EventSide, RowsSized, SameIdentity;
  }

  lemma ListedVersions(d: Db, run: RunId, after: nat, limit: nat, n: nat)
    requires ActiveWorkflow(d, run) && ValidIndexedId(run) && 1 <= n
    requires forall v :: Key(run, v) in d.checkpoints <==> 1 <= v <= n
    ensures var listed := ListCheckpoints(d, run, after, limit);
      && listed.Ok?
      && (var left := if after < n then n - after else 0; |listed.value| == if 0 < limit then Smaller(limit, left) else left)
      && forall i | 0 <= i < |listed.value| ::
           Key(run, after + 1 + i) in d.checkpoints && listed.value[i] == d.checkpoints[Key(run, after + 1 + i)]
  {
    hide Versions, TotalOrder, Ascending, Sorted, ListCheckpoints, CheckpointsAt, Limited;
    IntLeIsTotal();
    VersionsAre(d, run, n);
    var later := set v | v in Versions(d, run) && after < v;
    var left := if after < n then n - after else 0;
    CountingIsSorted(after, left, later);
    var all := Sorted(later, IntLe);
    var rows := if 0 < limit then Limited(all, limit) else all;
    RowsCount(all, rows, after, left, limit);
    assert 1 in Versions(d, run);
    ListedRows(d, run, after, limit, rows);
  }

  lemma ListedRows(d: Db, run: RunId, after: nat, limit: nat, rows: seq<int>)
    requires ActiveWorkflow(d, run) && ValidIndexedId(run) && Versions(d, run) != {} && TotalOrder(IntLe)
    requires var all := Sorted((set v | v in Versions(d, run) && after < v), IntLe); rows == if 0 < limit then Limited(all, limit) else all
    requires forall i | 0 <= i < |rows| :: Key(run, rows[i]) in d.checkpoints
    ensures ListCheckpoints(d, run, after, limit) == Ok(CheckpointsAt(d, run, rows))
  {
    hide Versions, TotalOrder, Ascending, Sorted, CheckpointsAt, Limited, ValidIndexedId;
  }

  lemma RowsCount(all: seq<int>, rows: seq<int>, after: nat, left: nat, limit: nat)
    requires all == seq(left, i => after + i + 1) && rows == if 0 < limit then Limited(all, limit) else all
    ensures |rows| == if 0 < limit then Smaller(limit, left) else left
    ensures forall i | 0 <= i < |rows| :: rows[i] == after + 1 + i
  {}

  lemma VersionsAre(d: Db, run: RunId, n: int)
    requires forall v :: Key(run, v) in d.checkpoints <==> 1 <= v <= n
    ensures forall v :: v in Versions(d, run) <==> 1 <= v <= n
  {
    forall v ensures v in Versions(d, run) <==> 1 <= v <= n {
      assert Key(run, v) in d.checkpoints ==> v in Versions(d, run);
    }
  }

  lemma CountingIsSorted(after: nat, count: nat, s: set<int>)
    requires forall v :: v in s <==> after < v <= after + count
    ensures Sorted(s, IntLe) == seq(count, i => after + i + 1)
  {
    IntLeIsTotal();
    var counting := seq(count, i => after + i + 1);
    assert Elements(counting) == s by {
      forall v ensures v in counting <==> v in s { if v in s { assert counting[v - after - 1] == v; } }
    }
    AscendingIsUnique(Sorted(s, IntLe), counting, IntLe);
  }
}
