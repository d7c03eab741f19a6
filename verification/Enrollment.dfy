/** Which runs a purge call retires: from the oldest on, up to the first whose oldest row would not fit the budget. */
module Enrollment {
  import opened Ordering
  import opened Tables
  import opened Retention
  import opened Invariant
  import opened RetentionInvariant
  import opened PurgeCall
  import opened PurgeDrain
  import opened Selections

  /** The first row a purge of `run` would delete – its event of lowest sequence, or without events its lowest
      version – is no larger than `bytes`; a run without rows always fits. */
  ghost predicate FirstRowFits(codec: Codec, d: Db, run: RunId, bytes: int) {
    && (forall o | o in d.events && d.events[o].runId == run
          && (forall p | p in d.events && d.events[p].runId == run :: d.events[o].sequence <= d.events[p].sequence) ::
          codec.recordSize(d.events[o]) <= bytes)
    && ((exists o :: o in d.events && d.events[o].runId == run)
        || forall k | k in d.checkpoints && k.run == run
             && (forall l | l in d.checkpoints && l.run == run :: k.version <= l.version) ::
             codec.metadataSize(d.checkpoints[k].(payload := [])) + |d.checkpoints[k].payload| <= bytes)
  }

  lemma FirstEventIsLowest(codec: Codec, d: Db, run: RunId)
    requires Valid(codec, d)
    ensures var cs := RunLogCandidates(codec, d, run, 1);
      && (cs == [] <==> forall o | o in d.events :: d.events[o].runId != run)
      && (cs != [] ==>
            && cs[0].id in d.events && d.events[cs[0].id].runId == run && cs[0].size == codec.recordSize(d.events[cs[0].id])
            && forall o | o in d.events && d.events[o].runId == run ::
                 && d.events[cs[0].id].sequence <= d.events[o].sequence
                 && (d.events[o].sequence <= d.events[cs[0].id].sequence ==> o == cs[0].id))
  {
    hide Sorted, Limited, TotalOrder, CheckpointSide, RowsSized, RegistryConsistent, EventsRegistered, EventsRetained;
    BySequenceIsTotal(d.events);
    EventCandidatesListed(codec, d, run, 1);
    PageIsFirst(OrdinalsOf(d, run), BySequence(d.events), 1);
    hide RunLogCandidates;
    var page := Limited(Sorted(OrdinalsOf(d, run), BySequence(d.events)), 1);
    if page == [] {
      assert OrdinalsOf(d, run) == {};
      forall o | o in d.events ensures d.events[o].runId != run { assert o !in OrdinalsOf(d, run); }
    } else {
      assert page[0] in page;
      forall o | o in d.events && d.events[o].runId == run ensures d.events[page[0]].sequence <= d.events[o].sequence {
        assert o in OrdinalsOf(d, run);
        if o in page { assert page[0] == o; }
      }
    }
  }

  lemma FirstVersionIsLowest(codec: Codec, d: Db, run: RunId)
    ensures var cs := CheckpointCandidates(codec, d, run, 1);
      && (cs == [] <==> forall k | k in d.checkpoints :: k.run != run)
      && (cs != [] ==>
            && Key(run, cs[0].id) in d.checkpoints && cs[0].size == CheckpointBytes(codec, d.checkpoints[Key(run, cs[0].id)])
            && forall k | k in d.checkpoints && k.run == run :: cs[0].id <= k.version)
  {
    hide Sorted, Limited, TotalOrder, CheckpointBytes;
    IntLeIsTotal();
    CheckpointCandidatesListed(codec, d, run, 1);
    PageIsFirst(Versions(d, run), IntLe, 1);
    hide CheckpointCandidates;
    var page := Limited(Sorted(Versions(d, run), IntLe), 1);
    if page == [] {
      assert Versions(d, run) == {};
      forall k | k in d.checkpoints ensures k.run != run { assert k.version in Versions(d, run) || k.run != run; }
    } else {
      assert page[0] in page;
      forall k | k in d.checkpoints && k.run == run ensures page[0] <= k.version {
        assert k.version in Versions(d, run);
        if k.version in page { assert page[0] == k.version; }
      }
    }
  }

  lemma FitsMeans(codec: Codec, env: Environment, w: World, run: RunId, budget: Budget)
    requires Valid(codec, w.d) && Quiescent(env) && 0 < budget.rows && 0 < budget.bytes
    ensures var (w1, fits) := FirstHistoryRowFits(codec, env, w, run, budget);
      w1.d == w.d && (fits <==> FirstRowFits(codec, w.d, run, budget.bytes))
  {
    hide Valid, Wait, Quiescent, RunLogCandidates, CheckpointCandidates;
    QuietWait(codec, env, w);
    QuietWait(codec, env, Wait(codec, env, w));
    FirstEventIsLowest(codec, w.d, run);
    FirstVersionIsLowest(codec, w.d, run);
    var events, checkpoints := RunLogCandidates(codec, w.d, run, 1), CheckpointCandidates(codec, w.d, run, 1);
    if events == [] && checkpoints != [] {
      var least := Key(run, checkpoints[0].id);
      forall k | k in w.d.checkpoints && k.run == run && (forall l | l in w.d.checkpoints && l.run == run :: k.version <= l.version)
        ensures k == least
      {
        assert least in w.d.checkpoints;
      }
    }
  }

  lemma SameRowsFit(codec: Codec, d: Db, e: Db, run: RunId, bytes: int)
    requires e.events == d.events && e.checkpoints == d.checkpoints
    ensures FirstRowFits(codec, e, run, bytes) <==> FirstRowFits(codec, d, run, bytes)
  {}

  /** `e` is `d` with the listed runs retired: purging, without head, all else as it was. */
  ghost predicate Retired(d: Db, e: Db, runs: seq<RunId>) {
    && e.events == d.events && e.checkpoints == d.checkpoints && e.retention == d.retention && e.nextOrdinal == d.nextOrdinal
    && (forall r :: r in e.heads <==> r in d.heads && r !in runs) && (forall r | r in e.heads :: e.heads[r] == d.heads[r])
    && e.registry.Keys == d.registry.Keys
    && (forall r | r in e.registry && r !in runs :: e.registry[r] == d.registry[r])
    && (forall r | r in e.registry && r in runs ::
          e.registry[r].kind == Workflow && e.registry[r].state == Purging && e.registry[r].floor == d.registry[r].floor)
  }

  ghost predicate RetiresUpTo(codec: Codec, d: Db, e: Db, runs: seq<RunId>, bytes: int, k: nat) {
    && k <= |runs| && Retired(d, e, runs[..k])
    && (forall i | 0 <= i < k :: FirstRowFits(codec, d, runs[i], bytes))
    && (k < |runs| ==> !FirstRowFits(codec, d, runs[k], bytes))
  }

  lemma EnrollsOne(codec: Codec, d: Db, host: Time, run: RunId, before: Time)
    requires Valid(codec, d) && Eligible(d, run, before)
    ensures var r := Retention.Enroll(d, host, run, before);
      && r.Ok? && Valid(codec, r.value) && Retired(d, r.value, [run])
      && forall q | q != run && Eligible(d, q, before) :: Eligible(r.value, q, before)
  {
    hide Retention.Enroll, Valid;
    EnrollKeepsValid(codec, d, host, run, before);
  }

  lemma RetiredInTurn(d: Db, e: Db, f: Db, run: RunId, rest: seq<RunId>)
    requires Retired(d, e, [run]) && Retired(e, f, rest)
    ensures Retired(d, f, [run] + rest)
  {
    assert forall q :: q in [run] + rest <==> q == run || q in rest;
  }

  lemma {:induction false} EnrollsInOrder(codec: Codec, env: Environment, w: World, runs: seq<RunId>, before: Time, budget: Budget) returns (k: nat)
    requires Valid(codec, w.d) && Quiescent(env) && 0 < budget.rows && 0 < budget.bytes
    requires forall i | 0 <= i < |runs| :: Eligible(w.d, runs[i], before)
    requires forall i, j | 0 <= i < j < |runs| :: runs[i] != runs[j]
    ensures var r := EnrollAll(codec, env, w, runs, before, budget);
      r.error.None? && RetiresUpTo(codec, w.d, r.w.d, runs, budget.bytes, k)
    decreases |runs|
  {
    hide Valid, Wait, Quiescent, FirstHistoryRowFits, FirstRowFits, Retention.Enroll, Eligible, Retired;
    k := 0;
    NoneRetired(w.d);
    if runs != [] {
      var w1 := FirstHistoryRowFits(codec, env, w, runs[0], budget).0;
      FitsMeans(codec, env, w, runs[0], budget);
      if FirstRowFits(codec, w.d, runs[0], budget.bytes) {
        QuietWait(codec, env, w1);
        var w2, host := Wait(codec, env, w1), env(w1.turn).host;
        EnrollsOne(codec, w.d, host, runs[0], before);
        var e := Retention.Enroll(w.d, host, runs[0], before).value;
        forall i | 0 <= i < |runs[1..]| ensures Eligible(e, runs[1..][i], before) { assert runs[1..][i] == runs[i + 1] && runs[i + 1] != runs[0]; }
        var n := EnrollsInOrder(codec, env, w2.(d := e), runs[1..], before, budget);
        k := n + 1;
        FollowingRetired(codec, w.d, e, EnrollAll(codec, env, w, runs, before, budget).w.d, runs, budget.bytes, n);
      } else {
        assert runs[..0] == [];
      }
    }
  }

  lemma NoneRetired(d: Db)
    ensures Retired(d, d, [])
  {}

  lemma FollowingRetired(codec: Codec, d: Db, e: Db, f: Db, runs: seq<RunId>, bytes: int, n: nat)
    requires runs != [] && FirstRowFits(codec, d, runs[0], bytes) && Retired(d, e, [runs[0]])
    requires RetiresUpTo(codec, e, f, runs[1..], bytes, n)
    ensures RetiresUpTo(codec, d, f, runs, bytes, n + 1)
  {
    hide Retired, FirstRowFits;
    RetiredInTurn(d, e, f, runs[0], runs[1..][..n]);
    assert runs[..n + 1] == [runs[0]] + runs[1..][..n];
    SameTables(d, e, [runs[0]]);
    forall i | 0 <= i < |runs| ensures FirstRowFits(codec, d, runs[i], bytes) <==> FirstRowFits(codec, e, runs[i], bytes) {
      SameRowsFit(codec, d, e, runs[i], bytes);
    }
    assert forall i | 0 < i < |runs| :: runs[i] == runs[1..][i - 1];
  }

  lemma SameTables(d: Db, e: Db, runs: seq<RunId>)
    requires Retired(d, e, runs)
    ensures e.events == d.events && e.checkpoints == d.checkpoints
  {}

  /** On a store nobody else writes to, the first phase of a call fills the free places up to the run limit – 100 unless
      given – with the eligible runs that ended first, stopping before the first whose oldest row does not fit. */
  lemma EnrollmentIsExact(codec: Codec, env: Environment, w: World, request: PurgeRequest)
    requires Valid(codec, w.d) && Quiescent(env) && ValidPurgeRequest(request)
    ensures var limit, bytes := if request.limit == 0 then 100 else request.limit, if request.byteLimit == 0 then 64 * 1024 * 1024 else request.byteLimit;
      var free := limit - |PurgingRuns(w.d)|;
      var page := if free <= 0 then [] else TerminalPage(w.d, request.before, free);
      var r := EnrollPhase(codec, env, w, request);
      r.error.None? && exists k :: RetiresUpTo(codec, w.d, r.w.d, page, bytes, k)
  {
    hide Valid, Wait, Quiescent, EnrollAll, PurgingPage, TerminalPage, Eligible, Retired, FirstRowFits;
    var w1 := Wait(codec, env, w);
    QuietWait(codec, env, w);
    QuietWait(codec, env, w1);
    var limit := RunLimit(request);
    PendingCount(w.d, limit);
    NoneRetired(w.d);
    var free := limit - |PurgingPage(w.d, limit)|;
    if 0 < free {
      var page := TerminalPage(w.d, request.before, free);
      var k := EnrollsInOrder(codec, env, Wait(codec, env, w1), page, request.before, PurgeBudget(request));
    } else {
      var none: seq<RunId> := [];
      assert none[..0] == [] && RetiresUpTo(codec, w.d, w.d, none, 0, 0);
      assert RetiresUpTo(codec, w.d, w.d, none, PurgeBudget(request).bytes, 0);
    }
  }

  lemma PendingCount(d: Db, limit: nat)
    ensures |PurgingPage(d, limit)| == if limit < |PurgingRuns(d)| then limit else |PurgingRuns(d)|
  {
    ByAgeIsTotal(RegistryAge(d));
    PageIsFirst(PurgingRuns(d), ByAge(RegistryAge(d)), limit);
  }
}
