/** Event rows are write-once: an ordinal names one record forever. */
module EventHistory {
  import opened Tables
  import opened Transactions
  import opened Retention
  import opened Protocol
  import opened Invariant
  import opened RetentionInvariant
  import opened Reachability
  import opened Fencing
  import opened Tombstones

  /** Every event of `e` older than `d`'s next ordinal is one of `d`'s, with the same record and
      append time. */
  ghost predicate NoReuse(d: Db, e: Db) {
    && d.nextOrdinal <= e.nextOrdinal
    && (forall o | o in e.events && o < d.nextOrdinal :: o in d.events && e.events[o] == d.events[o])
    && (forall o | o in e.retention && o < d.nextOrdinal :: o in d.retention && e.retention[o] == d.retention[o])
  }

  lemma DeletePurgingOnlyDeletes(codec: Codec, d: Db, host: Time, run: RunId, budget: Budget)
    ensures NoReuse(d, Retention.DeletePurging(codec, d, host, run, budget).0)
  {
    hide SelectedEvents, SelectedCheckpoints, Ids, TotalSize, HasHistory, OrdinalsOf;
  }

  lemma PurgeJournalOnlyDeletes(d: Db, run: RunId, ordinals: set<Ordinal>, before: Time)
    ensures NoReuse(d, Retention.PurgeJournalRun(d, run, ordinals, before).0)
  {
    hide EligibleOrdinals, OrdinalsOf;
  }

  lemma CompactOnlyDeletes(codec: Codec, d: Db, request: CompactRequest)
    ensures var r := Retention.Compact(codec, d, request); r.Ok? ==> NoReuse(d, r.value.0)
  {
    hide CompactSelection, OrdinalsOf, ConfirmedIds;
    if ValidCompactRequest(request) { CompactSelectionActive(codec, d, request); }
  }

  lemma AppendedOnlyAdds(d: Db, e: Db, now: Time, host: Time, record: Record)
    requires Appended(d, e, now, host, record)
    ensures NoReuse(d, e)
  {}

  lemma NoReuseStep(codec: Codec, d: Db, s: Step)
    requires Valid(codec, d)
    ensures NoReuse(d, Next(codec, d, s))
  {
    hide Valid, Retention.DeletePurging, Retention.PurgeJournalRun, Retention.Compact, Retention.Enroll, Appended,
      Transactions.Append, Transactions.AppendFenced, Transactions.Claim, Transactions.Write, Transactions.RenewLease, Transactions.Create;
    if Execute(codec, d, s).Ok? {
      match s.op
      case Create(record, duration) => CreateShape(codec, d, s);
      case Claim(candidate, duration, version) => ClaimEvolves(codec, d, s);
      case RenewLease(lease) => RenewEvolves(codec, d, s);
      case Write(record, duration, version, terminal) => WriteEvolves(codec, d, s);
      case Append(event) =>
        AppendKeepsValid(codec, d, s.now, s.host, event);
        AppendedOnlyAdds(d, Next(codec, d, s), s.now, s.host, event);
      case AppendFenced(event, fence) =>
        AppendFencedKeepsValid(codec, d, s.now, s.host, event, fence);
        AppendedOnlyAdds(d, Next(codec, d, s), s.now, s.host, event);
      case Enroll(run, before) => EnrollKeepsValid(codec, d, s.host, run, before);
      case DeletePurging(run, budget) => DeletePurgingOnlyDeletes(codec, d, s.host, run, budget);
      case PurgeJournalRun(run, ordinals, before) => PurgeJournalOnlyDeletes(d, run, ordinals, before);
      case Compact(request) => CompactOnlyDeletes(codec, d, request);
      case SkipOrdinals(count) =>
    }
  }

  /** Over any run an ordinal is never reassigned and a stored event never rewritten. */
  lemma {:induction false} OrdinalsAreNeverReused(codec: Codec, d: Db, steps: seq<Step>)
    requires Valid(codec, d)
    ensures NoReuse(d, Exec(codec, d, steps)) && Valid(codec, Exec(codec, d, steps))
    decreases |steps|
  {
    hide Valid, Next;
    if steps != [] {
      NoReuseStep(codec, d, steps[0]);
      NextKeepsValid(codec, d, steps[0]);
      OrdinalsAreNeverReused(codec, Next(codec, d, steps[0]), steps[1..]);
    }
  }
}
