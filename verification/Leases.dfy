/** Fencing and lease theorems over whole runs. */
module Leases {
  import opened Options
  import opened Tables
  import opened Transactions
  import opened Protocol
  import opened Invariant
  import opened Reachability
  import opened Fencing
  import opened Tombstones

  /** The run and fencing token an operation must hold to succeed, and the owner it names. */
  datatype Guard = Guard(run: RunId, claim: int, owner: string)

  function GuardOf(op: Op): Option<Guard> {
    match op
    case RenewLease(lease) => Some(Guard(lease.runId, lease.claimSequence, lease.ownerId))
    case Write(record, _, _, _) => Some(Guard(record.runId, record.claimSequence, record.ownerId))
    case AppendFenced(event, fence) => Some(Guard(event.runId, fence.claimSequence, fence.ownerId))
    case _ => None
  }

  /** `run` is past every token below `k`: it is retired, or its current token is at least `k`. */
  ghost predicate Superseded(d: Db, run: RunId, k: int) {
    Retired(d, run) || (Current(d, run).Some? && k <= Current(d, run).value.claimSequence)
  }

  lemma RetiredWhenGone(codec: Codec, d: Db, s: Step, run: RunId)
    requires Valid(codec, d) && Current(d, run).Some?
    ensures var e := Next(codec, d, s); Valid(codec, e) && (Current(e, run).None? ==> Retired(e, run))
  {
    var e := Next(codec, d, s);
    NextKeepsValid(codec, d, s);
    CurrentIsLatest(codec, d, run);
    CurrentIsLatest(codec, e, run);
    RegistryStep(codec, d, s, run);
    hide Valid, Next;
  }

  lemma SupersededStep(codec: Codec, d: Db, s: Step, run: RunId, k: int)
    requires Valid(codec, d) && Superseded(d, run, k)
    ensures Superseded(Next(codec, d, s), run, k)
  {
    hide Valid, Next, Retired, Current;
    if Retired(d, run) {
      RetiredStep(codec, d, s, run);
    } else {
      StepOnRun(codec, d, s, run);
      RetiredWhenGone(codec, d, s, run);
    }
  }

  lemma {:induction false} SupersededForever(codec: Codec, d: Db, steps: seq<Step>, run: RunId, k: int)
    requires Valid(codec, d) && Superseded(d, run, k)
    ensures var e := Exec(codec, d, steps); Valid(codec, e) && Superseded(e, run, k)
    decreases |steps|
  {
    hide Valid, Superseded;
    if steps != [] {
      SupersededStep(codec, d, steps[0], run, k);
      NextKeepsValid(codec, d, steps[0]);
      SupersededForever(codec, Next(codec, d, steps[0]), steps[1..], run, k);
    }
  }

  lemma FencedAppendHoldsLease(codec: Codec, d: Db, s: Step)
    requires Valid(codec, d) && s.op.AppendFenced? && Execute(codec, d, s).Ok?
    ensures var run := s.op.event.runId;
      Current(d, run).Some? && HoldsLease(Current(d, run).value, s.now, s.op.fence.ownerId, s.op.fence.claimSequence)
  {
    hide EventSide, CheckpointSide, RowsSized, InsertRecord, Encodable;
    var run := s.op.event.runId;
    CurrentIsLatest(codec, d, run);
  }

  /** A guarded operation only succeeds with the current token; one that names an owner, or meets an
      owned run, only before the recorded expiry. */
  lemma GuardedSuccess(codec: Codec, d: Db, s: Step)
    requires Valid(codec, d) && GuardOf(s.op).Some? && Execute(codec, d, s).Ok?
    ensures var g := GuardOf(s.op).value;
      && Current(d, g.run).Some?
      && var c := Current(d, g.run).value;
      && g.claim == c.claimSequence && (g.owner == c.ownerId || g.owner == "")
      && (c.ownerId != "" ==> s.now < c.leaseExpiresAt)
  {
    hide Valid, Execute, Current;
    match s.op
    case RenewLease(lease) => RenewEvolves(codec, d, s);
    case Write(record, _, _, _) => WriteEvolves(codec, d, s);
    case AppendFenced(event, fence) => FencedAppendHoldsLease(codec, d, s);
  }

  /** An operation that a run past token `k` must refuse. */
  predicate Stale(op: Op, run: RunId, k: int) {
    || (GuardOf(op).Some? && GuardOf(op).value.run == run && GuardOf(op).value.claim < k)
    || (op.Claim? && op.candidate.runId == run && op.candidate.claimSequence <= k)
    || (op.Create? && op.record.runId == run)
  }

  lemma StaleIsRefused(codec: Codec, d: Db, s: Step, run: RunId, k: int)
    requires Valid(codec, d) && Superseded(d, run, k) && Stale(s.op, run, k)
    ensures Execute(codec, d, s).Err?
  {
    hide Valid, Execute, Current, Retired;
    if Retired(d, run) {
      RetiredRefusesWrites(codec, d, s, run);
    } else if Execute(codec, d, s).Ok? {
      if s.op.Claim? {
        ClaimEvolves(codec, d, s);
      } else if s.op.Create? {
        CreateKeepsOtherLogs(codec, d, s);
        CurrentIsRegistered(codec, d, run);
      } else {
        GuardedSuccess(codec, d, s);
      }
    }
  }

  lemma CurrentIsRegistered(codec: Codec, d: Db, run: RunId)
    requires Valid(codec, d) && Current(d, run).Some?
    ensures run in d.registry
  {
    CurrentIsLatest(codec, d, run);
  }

  lemma ClaimInstalls(codec: Codec, d: Db, s: Step)
    requires Valid(codec, d) && s.op.Claim? && Execute(codec, d, s).Ok?
    ensures Valid(codec, Next(codec, d, s)) && Superseded(Next(codec, d, s), s.op.candidate.runId, s.op.candidate.claimSequence)
  {
    hide Valid, Execute, Current, Retired, Next;
    ClaimEvolves(codec, d, s);
    NextKeepsValid(codec, d, s);
  }

  /** Once a claim has installed token `k`, no renewal, save, finish or fenced append with a smaller
      token, no claim that would reinstall `k` or less, and no new creation of the run ever succeeds
      again: not after more claims, and not after the run is purged. */
  lemma FencedForever(codec: Codec, d: Db, claim: Step, steps: seq<Step>, late: Step)
    requires Valid(codec, d) && claim.op.Claim? && Execute(codec, d, claim).Ok?
    requires Stale(late.op, claim.op.candidate.runId, claim.op.candidate.claimSequence)
    ensures Execute(codec, Exec(codec, Next(codec, d, claim), steps), late).Err?
  {
    hide Valid, Execute, Exec, Next, Superseded, Stale;
    var run, k := claim.op.candidate.runId, claim.op.candidate.claimSequence;
    ClaimInstalls(codec, d, claim);
    SupersededForever(codec, Next(codec, d, claim), steps, run, k);
    StaleIsRefused(codec, Exec(codec, Next(codec, d, claim), steps), late, run, k);
  }

  /** From `c` to a later newest checkpoint: the token never falls, and while it stays the owner is
      kept or released, and the expiry of a kept owner never moves back. */
  ghost predicate Later(c: Checkpoint, c': Checkpoint) {
    && c.claimSequence <= c'.claimSequence && c.version <= c'.version
    && (c'.claimSequence == c.claimSequence ==> c'.ownerId == c.ownerId || c'.ownerId == "")
    && (c'.claimSequence == c.claimSequence && c'.ownerId == c.ownerId ==> c.leaseExpiresAt <= c'.leaseExpiresAt)
  }

  lemma {:induction false} TokensOnlyGrow(codec: Codec, d: Db, steps: seq<Step>, run: RunId)
    requires Valid(codec, d) && Current(d, run).Some?
    ensures var e := Exec(codec, d, steps);
      && Valid(codec, e)
      && (Current(e, run).Some? ==> Later(Current(d, run).value, Current(e, run).value))
      && (Current(e, run).None? ==> Retired(e, run))
    decreases |steps|
  {
    hide Valid, Next, Retired, Current;
    if steps != [] {
      var d1 := Next(codec, d, steps[0]);
      StepOnRun(codec, d, steps[0], run);
      RetiredWhenGone(codec, d, steps[0], run);
      if Current(d1, run).Some? {
        TokensOnlyGrow(codec, d1, steps[1..], run);
      } else {
        RetiredForever(codec, d1, steps[1..], run);
        RetiredHasNoCurrent(codec, Exec(codec, d1, steps[1..]), run);
      }
    }
  }

  lemma RetiredHasNoCurrent(codec: Codec, d: Db, run: RunId)
    requires Valid(codec, d) && Retired(d, run)
    ensures Current(d, run).None?
  {
    CurrentIsLatest(codec, d, run);
  }

  /** Each token of a run names at most one owner, in every pair of states of every run. */
  lemma OneOwnerPerToken(codec: Codec, d: Db, steps: seq<Step>, run: RunId)
    requires Valid(codec, d) && Current(d, run).Some? && Current(Exec(codec, d, steps), run).Some?
    ensures var c, c' := Current(d, run).value, Current(Exec(codec, d, steps), run).value;
      c.claimSequence == c'.claimSequence && c.ownerId != "" && c'.ownerId != "" ==> c.ownerId == c'.ownerId
  {
    TokensOnlyGrow(codec, d, steps, run);
    hide Valid, Exec, Current;
  }

  ghost predicate ClockFrom(t: Time, steps: seq<Step>)
    decreases |steps|
  {
    steps != [] ==> t <= steps[0].now && ClockFrom(steps[0].now, steps[1..])
  }

  function LastNow(t: Time, steps: seq<Step>): Time
    decreases |steps|
  {
    if steps == [] then t else LastNow(steps[0].now, steps[1..])
  }

  /** Token `k` of `run` loses its owner at some point of the run. */
  ghost predicate Released(codec: Codec, d: Db, steps: seq<Step>, run: RunId, k: int)
    decreases |steps|
  {
    || (Current(d, run).Some? && Current(d, run).value.claimSequence == k && Current(d, run).value.ownerId == "")
    || (steps != [] && Released(codec, Next(codec, d, steps[0]), steps[1..], run, k))
  }

  lemma {:induction false} ClockOnlyGrows(t: Time, steps: seq<Step>)
    requires ClockFrom(t, steps)
    ensures t <= LastNow(t, steps)
    decreases |steps|
  {
    if steps != [] { ClockOnlyGrows(steps[0].now, steps[1..]); }
  }

  /** A token that was not released is only superseded at or after its recorded expiry. */
  lemma {:induction false} SupersededAfterExpiry(codec: Codec, d: Db, steps: seq<Step>, run: RunId, t: Time)
    requires Valid(codec, d) && Current(d, run).Some? && ClockFrom(t, steps)
    requires var e := Exec(codec, d, steps);
      Current(e, run).Some? && Current(d, run).value.claimSequence < Current(e, run).value.claimSequence
    requires !Released(codec, d, steps, run, Current(d, run).value.claimSequence)
    ensures Current(d, run).value.leaseExpiresAt <= LastNow(t, steps)
    decreases |steps|
  {
    hide Valid, Next, Retired, Current;
    if steps != [] {
      var s := steps[0];
      var d1 := Next(codec, d, s);
      StepOnRun(codec, d, s, run);
      RetiredWhenGone(codec, d, s, run);
      ClockOnlyGrows(s.now, steps[1..]);
      if Current(d1, run).None? {
        RetiredForever(codec, d1, steps[1..], run);
        RetiredHasNoCurrent(codec, Exec(codec, d1, steps[1..]), run);
      } else if Current(d1, run).value.claimSequence == Current(d, run).value.claimSequence {
        assert Current(d1, run).value.ownerId != "" by {
          assert !Released(codec, d1, steps[1..], run, Current(d, run).value.claimSequence);
        }
        SupersededAfterExpiry(codec, d1, steps[1..], run, s.now);
      }
    }
  }

  /** The windows in which two successive tokens' operations succeed are disjoint and ordered in
      database time: an owned operation under an unreleased token happens strictly before every
      guarded operation under a later token. */
  lemma LeaseWindowsDisjoint(codec: Codec, d: Db, first: Step, steps: seq<Step>, second: Step)
    requires Valid(codec, d) && GuardOf(first.op).Some? && Execute(codec, d, first).Ok? && GuardOf(first.op).value.owner != ""
    requires var d1 := Next(codec, d, first); var e := Exec(codec, d1, steps); var g := GuardOf(first.op).value;
      && ClockFrom(first.now, steps) && LastNow(first.now, steps) <= second.now
      && GuardOf(second.op).Some? && Execute(codec, e, second).Ok? && GuardOf(second.op).value.run == g.run
      && g.claim < GuardOf(second.op).value.claim
      && !Released(codec, d1, steps, g.run, g.claim)
    ensures first.now < second.now
  {
    hide Valid, Execute, Next, Exec, Current, Retired;
    var g := GuardOf(first.op).value;
    var d1 := Next(codec, d, first);
    var e := Exec(codec, d1, steps);
    GuardedSuccess(codec, d, first);
    StepOnRun(codec, d, first, g.run);
    RetiredWhenGone(codec, d, first, g.run);
    ExecKeepsValid(codec, d1, steps);
    GuardedSuccess(codec, e, second);
    if Current(d1, g.run).None? {
      RetiredForever(codec, d1, steps, g.run);
      RetiredHasNoCurrent(codec, e, g.run);
    } else {
      var c1 := Current(d1, g.run).value;
      NotReleasedNow(codec, d1, steps, g.run, g.claim);
      assert Renewed(Current(d, g.run).value, c1, first) || Written(Current(d, g.run).value, c1, first) || c1 == Current(d, g.run).value;
      SupersededAfterExpiry(codec, d1, steps, g.run, first.now);
    }
  }

  lemma NotReleasedNow(codec: Codec, d: Db, steps: seq<Step>, run: RunId, k: int)
    requires !Released(codec, d, steps, run, k) && Current(d, run).Some? && Current(d, run).value.claimSequence == k
    ensures Current(d, run).value.ownerId != ""
  {}
}
