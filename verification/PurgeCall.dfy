/** `PurgeTerminalRuns`: many transactions, between any two of which other clients may run. */
module PurgeCall {
  import opened Options
  import opened Ordering
  import opened Tables
  import opened Transactions
  import opened Retention
  import opened Protocol

  /** What happens before one statement or transaction of a call: the transactions other clients commit,
      and the host clock the call then reads. */
  datatype Turn = Turn(others: seq<Step>, host: Time)
  type Environment = nat -> Turn
  datatype World = World(d: Db, turn: nat)

  function Wait(codec: Codec, env: Environment, w: World): World {
    World(Exec(codec, w.d, env(w.turn).others), w.turn + 1)
  }

  datatype PurgeRequest = PurgeRequest(before: Time, limit: int, rowLimit: int, byteLimit: int)
  datatype PurgeResult = PurgeResult(runs: int, checkpoints: int, events: int, pending: int)

  function PurgingRuns(d: Db): set<RunId> {
    set r | r in d.registry && IsPurging(d, r)
  }

  /** `ORDER BY` a time column, then the run id. */
  function ByAge(age: RunId -> Time): (RunId, RunId) -> bool {
    (a: RunId, b: RunId) => age(a) < age(b) || (age(a) == age(b) && StringLe(a, b))
  }

  lemma ByAgeIsTotal(age: RunId -> Time)
    ensures TotalOrder(ByAge(age))
  {
    StringLeIsTotal();
  }

  function RegistryAge(d: Db): RunId -> Time {
    (r: RunId) => if r in d.registry then d.registry[r].updatedAt else 0
  }

  function HeadAge(d: Db): RunId -> Time {
    (r: RunId) => if r in d.heads then d.heads[r].updatedAt else 0
  }

  function PurgingPage(d: Db, limit: nat): (page: seq<RunId>)
    ensures |page| <= limit && forall i | 0 <= i < |page| :: IsPurging(d, page[i])
    ensures 0 < limit && PurgingRuns(d) != {} ==> page != []
    ensures forall i, j | 0 <= i < j < |page| :: page[i] != page[j]
  {
    ByAgeIsTotal(RegistryAge(d));
    PurgingListed(d, limit);
    Limited(Sorted(PurgingRuns(d), ByAge(RegistryAge(d))), limit)
  }

  lemma PurgingListed(d: Db, limit: nat)
    requires TotalOrder(ByAge(RegistryAge(d)))
    ensures var page := Limited(Sorted(PurgingRuns(d), ByAge(RegistryAge(d))), limit);
      && |page| <= limit && (forall i | 0 <= i < |page| :: IsPurging(d, page[i]))
      && (0 < limit && PurgingRuns(d) != {} ==> page != [])
      && forall i, j | 0 <= i < j < |page| :: page[i] != page[j]
  {
    hide TotalOrder, Sorted, Limited, IsPurging;
    PageIsFirst(PurgingRuns(d), ByAge(RegistryAge(d)), limit);
    var page := Limited(Sorted(PurgingRuns(d), ByAge(RegistryAge(d))), limit);
    assert forall i | 0 <= i < |page| :: page[i] in page && page[i] in PurgingRuns(d);
  }

  /** An active workflow whose head is terminal and older than `before`, with no newer checkpoint. */
  predicate Eligible(d: Db, run: RunId, before: Time) {
    && run in d.heads && ActiveWorkflow(d, run)
    && Terminal(d.heads[run].status) && d.heads[run].updatedAt < before
    && forall k | k in d.checkpoints && k.run == run :: k.version <= d.heads[run].version
  }

  function EligibleRuns(d: Db, before: Time): set<RunId> {
    set r | r in d.heads && Eligible(d, r, before)
  }

  function TerminalPage(d: Db, before: Time, limit: nat): (page: seq<RunId>)
    ensures |page| <= limit && forall i | 0 <= i < |page| :: Eligible(d, page[i], before)
    ensures 0 < limit && EligibleRuns(d, before) != {} ==> page != []
    ensures forall i, j | 0 <= i < j < |page| :: page[i] != page[j]
  {
    ByAgeIsTotal(HeadAge(d));
    EligibleListed(d, before, limit);
    Limited(Sorted(EligibleRuns(d, before), ByAge(HeadAge(d))), limit)
  }

  lemma EligibleListed(d: Db, before: Time, limit: nat)
    requires TotalOrder(ByAge(HeadAge(d)))
    ensures var page := Limited(Sorted(EligibleRuns(d, before), ByAge(HeadAge(d))), limit);
      && |page| <= limit && (forall i | 0 <= i < |page| :: Eligible(d, page[i], before))
      && (0 < limit && EligibleRuns(d, before) != {} ==> page != [])
      && forall i, j | 0 <= i < j < |page| :: page[i] != page[j]
  {
    hide TotalOrder, Sorted, Limited, Eligible;
    PageIsFirst(EligibleRuns(d, before), ByAge(HeadAge(d)), limit);
    var page := Limited(Sorted(EligibleRuns(d, before), ByAge(HeadAge(d))), limit);
    assert forall i | 0 <= i < |page| :: page[i] in page && page[i] in EligibleRuns(d, before);
  }

  /** Whether the first row a purge of `run` would delete fits the budget; two separate reads. */
  function FirstHistoryRowFits(codec: Codec, env: Environment, w: World, run: RunId, budget: Budget): (World, bool) {
    if budget.rows <= 0 || budget.bytes <= 0 then (w, false)
    else
      var w1 := Wait(codec, env, w);
      var events := RunLogCandidates(codec, w1.d, run, 1);
      if events != [] then (w1, events[0].size <= budget.bytes)
      else
        var w2 := Wait(codec, env, w1);
        var checkpoints := CheckpointCandidates(codec, w2.d, run, 1);
        (w2, checkpoints == [] || checkpoints[0].size <= budget.bytes)
  }

  datatype Enrollment = Enrollment(w: World, error: Option<Error>)

  /** Retires the listed runs in turn, up to the first whose history would not fit. */
  function EnrollAll(codec: Codec, env: Environment, w: World, runs: seq<RunId>, before: Time, budget: Budget): Enrollment
    decreases |runs|
  {
    if runs == [] then Enrollment(w, None)
    else
      var (w1, fits) := FirstHistoryRowFits(codec, env, w, runs[0], budget);
      if !fits then Enrollment(w1, None)
      else
        var w2 := Wait(codec, env, w1);
        var r := Retention.Enroll(w2.d, env(w1.turn).host, runs[0], before);
        if r.Err? then Enrollment(w2, Some(r.error))
        else EnrollAll(codec, env, w2.(d := r.value), runs[1..], before, budget)
  }

  /** One deletion transaction of a call: the database it found and left, and what it reported. */
  datatype Deletion = Deletion(run: RunId, before: Db, after: Db, report: HistoryDeletion)
  datatype Sweep = Sweep(w: World, deletions: seq<Deletion>)

  function Remaining(budget: Budget, report: HistoryDeletion): Budget {
    Budget(budget.rows - (report.events + report.checkpoints), budget.bytes - report.bytes)
  }

  /** Deletes history of the listed runs in turn until the budget is used up. */
  function DeleteAll(codec: Codec, env: Environment, w: World, runs: seq<RunId>, budget: Budget): Sweep
    decreases |runs|
  {
    if runs == [] then Sweep(w, [])
    else
      var w1 := Wait(codec, env, w);
      var (e, report) := Retention.DeletePurging(codec, w1.d, env(w.turn).host, runs[0], budget);
      var part, rest := Deletion(runs[0], w1.d, e, report), Remaining(budget, report);
      if rest.rows <= 0 || rest.bytes <= 0 then Sweep(w1.(d := e), [part])
      else
        var sweep := DeleteAll(codec, env, w1.(d := e), runs[1..], rest);
        Sweep(sweep.w, [part] + sweep.deletions)
  }

  function TotalEvents(deletions: seq<Deletion>): int {
    if deletions == [] then 0 else deletions[0].report.events + TotalEvents(deletions[1..])
  }

  function TotalCheckpoints(deletions: seq<Deletion>): int {
    if deletions == [] then 0 else deletions[0].report.checkpoints + TotalCheckpoints(deletions[1..])
  }

  function TotalBytes(deletions: seq<Deletion>): int {
    if deletions == [] then 0 else deletions[0].report.bytes + TotalBytes(deletions[1..])
  }

  function TotalRuns(deletions: seq<Deletion>): int {
    if deletions == [] then 0 else (if deletions[0].report.complete then 1 else 0) + TotalRuns(deletions[1..])
  }

  predicate ValidPurgeRequest(request: PurgeRequest) {
    && request.before != ZERO_TIME
    && 0 <= request.limit <= MAX_PURGE_LIMIT
    && 0 <= request.rowLimit <= MAX_PURGE_ROW_LIMIT
    && 0 <= request.byteLimit <= MAX_PURGE_BYTE_LIMIT
  }

  function RunLimit(request: PurgeRequest): (n: int)
    ensures ValidPurgeRequest(request) ==> 0 < n
  {
    OrDefault(request.limit, DEFAULT_PURGE_LIMIT)
  }

  function PurgeBudget(request: PurgeRequest): (budget: Budget)
    ensures ValidPurgeRequest(request) ==> 0 < budget.rows && 0 < budget.bytes
  {
    Budget(OrDefault(request.rowLimit, DEFAULT_PURGE_ROW_LIMIT), OrDefault(request.byteLimit, DEFAULT_PURGE_BYTE_LIMIT))
  }

  /** First phase: retire eligible runs as far as fewer than the limit are already purging. */
  function EnrollPhase(codec: Codec, env: Environment, w: World, request: PurgeRequest): Enrollment
    requires ValidPurgeRequest(request)
  {
    var w1 := Wait(codec, env, w);
    var capacity := RunLimit(request) - |PurgingPage(w1.d, RunLimit(request))|;
    if capacity <= 0 then Enrollment(w1, None)
    else
      var w2 := Wait(codec, env, w1);
      EnrollAll(codec, env, w2, TerminalPage(w2.d, request.before, capacity), request.before, PurgeBudget(request))
  }

  /** Second phase: select the oldest purging runs again and delete within the budget. */
  function DeletePhase(codec: Codec, env: Environment, w: World, request: PurgeRequest): Sweep
    requires ValidPurgeRequest(request)
  {
    var w1 := Wait(codec, env, w);
    DeleteAll(codec, env, w1, PurgingPage(w1.d, RunLimit(request)), PurgeBudget(request))
  }

  datatype PurgeOutcome = PurgeOutcome(w: World, result: Result<PurgeResult>, deletions: seq<Deletion>)

  function PurgeTerminalRuns(codec: Codec, env: Environment, w: World, request: PurgeRequest): PurgeOutcome {
    if !ValidPurgeRequest(request) then PurgeOutcome(w, Err(InvalidRequest), [])
    else
      var enrollment := EnrollPhase(codec, env, w, request);
      if enrollment.error.Some? then PurgeOutcome(enrollment.w, Err(enrollment.error.value), [])
      else
        var sweep := DeletePhase(codec, env, enrollment.w, request);
        var w1 := Wait(codec, env, sweep.w);
        var result := PurgeResult(TotalRuns(sweep.deletions), TotalCheckpoints(sweep.deletions),
                                  TotalEvents(sweep.deletions), |PurgingRuns(w1.d)|);
        PurgeOutcome(w1, Ok(result), sweep.deletions)
  }
}
