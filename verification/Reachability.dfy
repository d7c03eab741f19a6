/** The invariant holds in every state any interleaving of transactions can reach. */
module Reachability {
  import opened Tables
  import opened Transactions
  import opened Retention
  import opened Protocol
  import opened Metadata
  import opened Invariant
  import opened RetentionInvariant
  import opened Compaction

  lemma NextKeepsValid(codec: Codec, d: Db, s: Step)
    requires Valid(codec, d)
    ensures Valid(codec, Next(codec, d, s))
  {
    hide EventSide, CheckpointSide, RowsSized;
    match s.op
    case Create(record, duration) => CreateKeepsValid(codec, d, s.now, s.host, record, duration);
    case Claim(candidate, duration, version) => ClaimKeepsValid(codec, d, s.now, candidate, duration, version);
    case RenewLease(lease) => RenewKeepsValid(codec, d, s.now, lease);
    case Write(record, duration, version, terminal) => WriteKeepsValid(codec, d, s.now, record, duration, version, terminal);
    case Append(event) => AppendKeepsValid(codec, d, s.now, s.host, event);
    case AppendFenced(event, fence) => AppendFencedKeepsValid(codec, d, s.now, s.host, event, fence);
    case Enroll(run, before) => EnrollKeepsValid(codec, d, s.host, run, before);
    case DeletePurging(run, budget) => DeletePurgingKeepsValid(codec, d, s.host, run, budget);
    case PurgeJournalRun(run, ordinals, before) => PurgeJournalKeepsValid(codec, d, run, ordinals, before);
    case Compact(request) => CompactIsExact(codec, d, request);
    case SkipOrdinals(count) => SkipKeepsValid(codec, d, count);
  }

  lemma SkipKeepsValid(codec: Codec, d: Db, count: nat)
    requires Valid(codec, d)
    ensures Valid(codec, d.(nextOrdinal := d.nextOrdinal + count))
  {
    hide LogWellFormed;
    var e := d.(nextOrdinal := d.nextOrdinal + count);
    assert forall r :: OrdinalsOf(d, r) == OrdinalsOf(e, r);
    CheckpointSideFrame(d, e);
  }

  lemma {:induction false} ExecKeepsValid(codec: Codec, d: Db, steps: seq<Step>)
    requires Valid(codec, d)
    ensures Valid(codec, Exec(codec, d, steps))
    decreases |steps|
  {
    hide Valid, Next;
    if steps != [] {
      NextKeepsValid(codec, d, steps[0]);
      ExecKeepsValid(codec, Next(codec, d, steps[0]), steps[1..]);
    }
  }

  lemma EmptyIsValid(codec: Codec)
    ensures Valid(codec, EMPTY)
  {}

  /** Every database a run can reach from the empty one is consistent. */
  lemma ReachableIsValid(codec: Codec, steps: seq<Step>)
    ensures Valid(codec, Exec(codec, EMPTY, steps))
  {
    EmptyIsValid(codec);
    ExecKeepsValid(codec, EMPTY, steps);
  }

  lemma ValidHasNoGap(codec: Codec, d: Db)
    requires Valid(codec, d)
    ensures V2MetadataGap(d) == NoGap
  {
    assert !WorkflowRegistryGap(d) by {
      forall r | r in d.heads ensures ActiveWorkflow(d, r) {}
    }
    assert !RunLogRegistryGap(d) by {
      forall o | o in d.events ensures !EventRegistryGap(d, d.events[o].runId) {
        assert d.events[o].runId in d.heads <==> ActiveWorkflow(d, d.events[o].runId);
      }
    }
  }

  /** Opening the store never finds its metadata incomplete, whatever ran before. */
  lemma ReachableHasNoGap(codec: Codec, steps: seq<Step>)
    ensures V2MetadataGap(Exec(codec, EMPTY, steps)) == NoGap
  {
    ReachableIsValid(codec, steps);
    ValidHasNoGap(codec, Exec(codec, EMPTY, steps));
  }
}
