/** A store that ordinary use reaches and on which purge calls with a small byte limit never get anywhere. */
module PurgeStuck {
  import opened Tables
  import opened Transactions
  import opened Retention
  import opened Protocol
  import opened Invariant
  import opened Reachability
  import opened PurgeCall
  import opened PurgeDrain

  /** Every event encodes to 10 bytes, every checkpoint's metadata too. */
  const TEN_BYTES := Codec(_ => 10, _ => 10)

  const FIRST := Checkpoint("c", "s", "r", "w", "t", 1, 1, Running, ReplaySafe, "", 0, 0, 0, 0, 1, 1, [0])
  const LAST := FIRST.(status := Completed)
  const EVENT := Record("s", "r", 1, "t", "u", 0, "", 0, [])

  /** A run is created, logs one event, finishes and is enrolled for purging. */
  const HISTORY := [Step(Op.Create(FIRST, 0), 0, 0), Step(Op.Append(EVENT), 0, 0),
                    Step(Op.Write(LAST, 0, 1, true), 0, 0), Step(Op.Enroll("r", 2), 0, 0)]

  const CREATED := Db(map[Key("r", 1) := FIRST], map["r" := HeadOf(FIRST)], map["r" := Registry(Workflow, Active, 0, 0)], map[], map[], 1)
  const LOGGED := CREATED.(events := map[1 := EVENT], retention := map[1 := Tables.Retention("r", 0)], nextOrdinal := 2)
  const FINISHED := LOGGED.(checkpoints := map[Key("r", 1) := FIRST, Key("r", 2) := LAST.(version := 2)],
                            heads := map["r" := HeadOf(LAST.(version := 2))])
  const ENROLLED := FINISHED.(heads := map[], registry := map["r" := Registry(Workflow, Purging, 0, 0)])

  lemma IdsAreValid()
    ensures ValidIndexedId("r") && ValidIndexedId("s")
  {
    assert "r"[0] == 'r' && "s"[0] == 's';
  }

  lemma CreateStep()
    ensures Next(TEN_BYTES, EMPTY, HISTORY[0]) == CREATED
  {
    IdsAreValid();
  }

  lemma AppendStep()
    ensures Next(TEN_BYTES, CREATED, HISTORY[1]) == LOGGED
  {
    IdsAreValid();
    assert CREATED.events == map[] && OrdinalsAt(CREATED, "r", 1) == {};
    var d := CREATED.(events := map[1 := EVENT], nextOrdinal := 2);
    assert OrdinalsAt(d, "r", 1) == {1};
    assert Transactions.InsertRecord(CREATED, 0, EVENT) == Ok(LOGGED);
  }

  lemma NewestIs(d: Db, version: int)
    requires Key("r", version) in d.checkpoints && forall k | k in d.checkpoints :: k.version <= version
    ensures Versions(d, "r") != {} && Latest(d, "r") == d.checkpoints[Key("r", version)]
  {
    assert version in Versions(d, "r");
    assert LatestVersion(d, "r") == version;
  }

  lemma FinishStep()
    ensures Next(TEN_BYTES, LOGGED, HISTORY[2]) == FINISHED
  {
    IdsAreValid();
    NewestIs(LOGGED, 1);
    hide Latest, Versions;
    assert WriteRecord(LOGGED, 0, LAST, 0, 1, true) == Ok(LAST.(version := 2));
  }

  lemma EnrollStep()
    ensures Next(TEN_BYTES, FINISHED, HISTORY[3]) == ENROLLED
  {
    NewestIs(FINISHED, 2);
    hide Latest, Versions;
    assert FINISHED.heads - {"r"} == map[];
  }

  lemma EnrolledIsReached()
    ensures Exec(TEN_BYTES, EMPTY, HISTORY) == ENROLLED
  {
    CreateStep();
    AppendStep();
    FinishStep();
    EnrollStep();
    hide Next;
    OneStep(EMPTY, HISTORY);
    assert HISTORY[1..][0] == HISTORY[1] && HISTORY[1..][1..] == HISTORY[2..];
    OneStep(CREATED, HISTORY[1..]);
    assert HISTORY[2..][0] == HISTORY[2] && HISTORY[2..][1..] == HISTORY[3..];
    OneStep(LOGGED, HISTORY[2..]);
    assert HISTORY[3..][0] == HISTORY[3] && HISTORY[3..][1..] == [];
    OneStep(FINISHED, HISTORY[3..]);
  }

  lemma OneStep(d: Db, steps: seq<Step>)
    requires steps != []
    ensures Exec(TEN_BYTES, d, steps) == Exec(TEN_BYTES, Next(TEN_BYTES, d, steps[0]), steps[1..])
    ensures Exec(TEN_BYTES, d, []) == d
  {
    hide Next;
  }

  lemma NothingFits(budget: Budget)
    requires budget.bytes < 10
    ensures !CanDelete(TEN_BYTES, ENROLLED, "r", budget) && IsPurging(ENROLLED, "r")
  {
    hide RunLogCandidates, CheckpointCandidates, OrdinalsOf, Versions;
    FirstEventSize();
    FirstCheckpointSize();
  }

  lemma FirstEventSize()
    ensures var candidates := RunLogCandidates(TEN_BYTES, ENROLLED, "r", 1); candidates != [] && candidates[0].size == 10 && OrdinalsOf(ENROLLED, "r") != {}
  {
    assert 1 in OrdinalsOf(ENROLLED, "r");
    FirstEvent(TEN_BYTES, ENROLLED, "r", 1);
    hide RunLogCandidates, OrdinalsOf;
  }

  lemma FirstCheckpointSize()
    ensures var candidates := CheckpointCandidates(TEN_BYTES, ENROLLED, "r", 1); candidates != [] && 10 <= candidates[0].size && Versions(ENROLLED, "r") != {}
  {
    assert Key("r", 1) in ENROLLED.checkpoints && 1 in Versions(ENROLLED, "r");
    FirstCheckpoint(TEN_BYTES, ENROLLED, "r", 1);
    hide CheckpointCandidates, Versions;
  }

  lemma NothingEligible(before: Time, limit: nat)
    ensures TerminalPage(ENROLLED, before, limit) == []
  {
    NoHeads(TerminalPage(ENROLLED, before, limit), before);
    hide TerminalPage;
  }

  lemma NoHeads(page: seq<RunId>, before: Time)
    requires forall i | 0 <= i < |page| :: Eligible(ENROLLED, page[i], before)
    ensures page == []
  {
    assert |page| == 0 || Eligible(ENROLLED, page[0], before);
  }

  lemma OnlyPurging()
    ensures PurgingRuns(ENROLLED) == {"r"}
  {}

  lemma EnrollPhaseIdle(env: Environment, w: World, request: PurgeRequest)
    requires Quiescent(env) && ValidPurgeRequest(request) && w.d == ENROLLED
    ensures EnrollPhase(TEN_BYTES, env, w, request).w.d == ENROLLED && EnrollPhase(TEN_BYTES, env, w, request).error.None?
  {
    hide Wait, PurgingPage, TerminalPage, Quiescent;
    QuietWait(TEN_BYTES, env, w);
    var w1 := Wait(TEN_BYTES, env, w);
    QuietWait(TEN_BYTES, env, w1);
    var capacity := RunLimit(request) - |PurgingPage(w1.d, RunLimit(request))|;
    if 0 < capacity { NothingEligible(request.before, capacity); }
  }

  /** On this reachable store every purge call with a byte limit below ten leaves everything as it is and one run
      pending, for ever: an oversized row is not deleted alone. */
  lemma OversizedRowIsStuck(env: Environment, w: World, request: PurgeRequest)
    requires Quiescent(env) && ValidPurgeRequest(request) && 0 < request.byteLimit < 10 && w.d == Exec(TEN_BYTES, EMPTY, HISTORY)
    ensures var r := PurgeTerminalRuns(TEN_BYTES, env, w, request);
      r.w.d == w.d && r.result.Ok? && r.result.value.pending == 1
  {
    EnrolledIsReached();
    ReachableIsValid(TEN_BYTES, HISTORY);
    hide Valid, Wait, EnrollPhase, DeletePhase, CanDelete, PurgingPage, PurgingRuns, Quiescent, Exec, IsPurging;
    EnrollPhaseIdle(env, w, request);
    var w1 := EnrollPhase(TEN_BYTES, env, w, request).w;
    DeletePhaseProgress(TEN_BYTES, env, w1, request);
    NothingFits(PurgeBudget(request));
    OnlyPurging();
    PurgingPageIs(RunLimit(request));
    QuietWait(TEN_BYTES, env, DeletePhase(TEN_BYTES, env, w1, request).w);
  }

  lemma PurgingPageIs(limit: nat)
    ensures forall i | 0 <= i < |PurgingPage(ENROLLED, limit)| :: PurgingPage(ENROLLED, limit)[i] == "r"
  {
    var page := PurgingPage(ENROLLED, limit);
    forall i | 0 <= i < |page| ensures page[i] == "r" {
      assert IsPurging(ENROLLED, page[i]);
    }
    hide PurgingPage;
  }
}
