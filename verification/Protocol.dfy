/** Every committed transaction of the store as one step, and runs as lists of steps.
    Row locks on the registry row and the run head make each step atomic. */
module Protocol {
  import opened Tables
  import opened Transactions
  import opened Retention

  datatype Op =
    | Create(record: Checkpoint, duration: int)
    | Claim(candidate: Checkpoint, duration: int, version: int)
    | RenewLease(lease: Lease)
    | Write(record: Checkpoint, duration: int, version: int, terminal: bool)
    | Append(event: Record)
    | AppendFenced(event: Record, fence: Fence)
    | Enroll(run: RunId, before: Time)
    | DeletePurging(run: RunId, budget: Budget)
    | PurgeJournalRun(run: RunId, ordinals: set<Ordinal>, before: Time)
    | Compact(request: CompactRequest)
    | SkipOrdinals(count: nat)  // an auto-increment value that a rolled-back insert consumed

  /** One transaction, the database clock it reads and the host clock it stamps registry rows with. */
  datatype Step = Step(op: Op, now: Time, host: Time)

  function Execute(codec: Codec, d: Db, s: Step): Result<Db> {
    match s.op
    case Create(record, duration) => Transactions.Create(codec, d, s.now, s.host, record, duration)
    case Claim(candidate, duration, version) => Transactions.Claim(codec, d, s.now, candidate, duration, version)
    case RenewLease(lease) => Transactions.RenewLease(codec, d, s.now, lease)
    case Write(record, duration, version, terminal) => Transactions.Write(codec, d, s.now, record, duration, version, terminal)
    case Append(event) => Transactions.Append(codec, d, s.now, s.host, event)
    case AppendFenced(event, fence) => Transactions.AppendFenced(codec, d, s.now, s.host, event, fence)
    case Enroll(run, before) => Retention.Enroll(d, s.host, run, before)
    case DeletePurging(run, budget) => Ok(Retention.DeletePurging(codec, d, s.host, run, budget).0)
    case PurgeJournalRun(run, ordinals, before) => Ok(Retention.PurgeJournalRun(d, run, ordinals, before).0)
    case Compact(request) => (var r :- Retention.Compact(codec, d, request); Ok(r.0))
    case SkipOrdinals(count) => Ok(d.(nextOrdinal := d.nextOrdinal + count))
  }

  function Next(codec: Codec, d: Db, s: Step): Db {
    var r := Execute(codec, d, s);
    if r.Ok? then r.value else d
  }

  function Exec(codec: Codec, d: Db, steps: seq<Step>): Db
    decreases |steps|
  {
    if steps == [] then d else Exec(codec, Next(codec, d, steps[0]), steps[1..])
  }

  lemma {:induction false} ExecAppend(codec: Codec, d: Db, a: seq<Step>, b: seq<Step>)
    ensures Exec(codec, d, a + b) == Exec(codec, Exec(codec, d, a), b)
    decreases |a|
  {
    if a == [] {
      assert a + b == b;
    } else {
      assert (a + b)[0] == a[0] && (a + b)[1..] == a[1..] + b;
      ExecAppend(codec, Next(codec, d, a[0]), a[1..], b);
    }
  }
}
