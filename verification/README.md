# A verified model of the durable store, the Responses codec and the ReAct loop

Three parts of the repository are modelled and proved together:

1. **`stores/dbstore`** – the checkpoint log with expiring leases and fencing tokens, the write-once RunLog with
   its compaction floor, the tombstones, the three retention operations and the metadata backfills. Five tables
   (checkpoints, run heads, run registry, events, event retention) are maps. Each database transaction is a
   function from tables to tables (`Transactions`, `Retention`), the same transaction is a method of the class
   `DbStore.Store` that updates the tables in place and rolls back on failure, and `Protocol` turns transactions
   into steps. A run of the system is any finite list of steps by any clients. The assumption behind it is the one
   the code makes: row locks on the registry row and the run head make each transaction atomic. Operations made of
   several transactions (`PurgeTerminalRuns`, `PurgeRunLog`) let arbitrary other steps run between any two of their
   statements.
2. **`models/openai/codex` and the chat encoder of `models/openai/openai.go`** – the two request encoders, the
   response-stream collector and the server-sent-events decoder.
3. **`agents/react`** – the model-tool loop for any model and any tools. Its requests are judged by the very
   predicate (`Transcript.Paired`) that both encoders are proved to decide.

Times are integers (nanoseconds since the Unix epoch) read from the database clock; payloads and JSON texts are
opaque apart from their sizes, except where JSON objects matter (`ResponseState`), where they are field maps.

## How it is organised

| files | content |
|---|---|
| `Ordering`, `Options` | sorted listings of finite sets (`ORDER BY … LIMIT`), sums, optional values |
| `Tables`, `Transactions`, `Retention`, `Metadata` | rows, errors, and what every transaction does |
| `Protocol`, `Invariant`, `RetentionInvariant`, `Compaction`, `Reachability` | steps, the cross-table invariant, its preservation |
| `Fencing`, `Leases`, `Tombstones`, `CheckpointLog`, `EventHistory`, `RunLog` | theorems about whole runs |
| `Outcomes`, `CompactionOutcome` | when each operation succeeds, what it stores and which error it gives otherwise |
| `PurgeCall`, `PurgeBudgets`, `PurgeDrain`, `PurgeStuck`, `Selections`, `Enrollment`, `JournalPurge` | the multi-transaction purges under interference; which runs and rows they take |
| `Backfill`, `DbStore` | the migration backfills; the store as a class |
| `Transcript`, `ChatEncoder`, `ResponseState`, `CodexEncoder`, `CodexStream`, `StreamText`, `CodexReplay`, `ReplayLimit`, `Sse` | transcripts, encoders, stream |
| `React`, `CodexAgent` | the agent loop; the loop on the Responses model |

`dafny verify dfyconfig.toml` checks everything.

## Where the code differs from what is said about it

- `stores/dbstore/README.md:13` promises that a single oversized row is deleted alone to guarantee progress. The code
  treats the byte limit as hard (`stores/dbstore/retention.go:29`, `422-436`): nothing is deleted when the first
  candidate does not fit. `PurgeStuck.OversizedRowIsStuck` reaches a store by four ordinary transactions on which no
  purge call below the row size ever does anything. `PurgeDrain.DeletionProgress` and `PurgeDrain.DeletePhaseProgress`
  give the exact condition for progress, and `PurgeDrain.PurgeDrains` the promise itself under the one guard that makes
  it true: a byte limit of at least the 4 MiB row bound.
- A stored response item replays only if its canonical form is at most one frame (4 MiB). The collector bounds the
  item as received, and re-encoding can lengthen it: Go's encoder writes `<` as six characters
  (`models/openai/codex/stream.go:261`, `models/openai/codex/request.go:420`, `459`). `ReplayLimit.OutgrownItemIsNotReplayed`
  gives such a stream, and `CodexReplay.ReplayRoundTrip` shows that this is the only way a replay can fail.
- ReAct checks call ids for uniqueness within one turn only (`agents/react/react.go:510-520`), and keeps a repair turn's
  message whatever its role. `React.ReusedIdUnpairs` and `React.RepairAsToolUnpairs` give a run for each;
  `React.RequestsPaired` shows that reuse of an id, or a repair that speaks as a tool, are exactly what unpairs a transcript.
- The event decoder drops leading empty lines of a payload and flushes pending data at the end of input, and ignores a bare
  `data` line; section 9.2.6 of the WHATWG HTML Living Standard does none of these. `Sse.LeadingEmptyValueDiffers` and
  `Sse.PendingDataDiffers` give inputs, `Sse.AgreesWithStandard` says for every input exactly when the two agree,
  and `Sse.RoundTrip` what comes back for any payload.

## Model

| member | source | states |
|---|---|---|
| Invariant.CreateKeepsValid | stores/dbstore/dbstore.go:955-1000 | Creating keeps the cross-table invariant, and succeeds only for a run id the registry has never seen |
| Invariant.ClaimKeepsValid | stores/dbstore/operations.go:26-85 | A claim keeps the invariant and never meets the duplicate-key or head-conflict failure; `Outcomes.ClaimOutcome` says when it succeeds |
| Invariant.WriteKeepsValid | stores/dbstore/operations.go:164-214 | So does a save or finish: `errRunHeadConflict` is unreachable |
| Invariant.RenewKeepsValid | stores/dbstore/operations.go:88-152 | Renewing changes nothing but the newest checkpoint's expiry, never backwards, and keeps the invariant |
| Invariant.AdvanceKeepsValid | stores/dbstore/operations.go:469-491 | Appending the next version of the same identity to a live log fails only when oversized, and keeps versions 1..n, head and newest checkpoint in step |
| Invariant.InsertShape | stores/dbstore/operations.go:493-519 | An event insert finds its (run, sequence) taken – and then changes nothing or conflicts – or adds exactly one event with its retention row |
| Invariant.AppendKeepsValid | stores/dbstore/operations.go:282-310 | A plain append either adds one event (and a journal registry row for an unknown run) or changes nothing, and keeps the invariant |
| Invariant.AppendFencedKeepsValid | stores/dbstore/operations.go:314-367 | A fenced append does the same, only for a run with a head |
| Outcomes.CreateOutcome | stores/dbstore/dbstore.go:955-1000 | A creation succeeds if and only if the first checkpoint is proper, storable and of a run id never seen; the row, head and registry row stored, and when the error is that the run exists |
| Outcomes.ClaimOutcome | stores/dbstore/operations.go:26-85 | Anybody may take a run over if and only if it is running or interrupted at the named version, the same run, past its recorded expiry, with the next token, a future expiry and a storable row; what is stored, and exactly when each error is given |
| Outcomes.RenewOutcome | stores/dbstore/operations.go:88-152 | The unexpired owner may renew to any future time; the later of both expiries is stored; a lost lease is reported exactly for a proper request that does not own the run |
| Outcomes.WriteOutcome | stores/dbstore/operations.go:155-240 | When `Save` and `Finish` succeed, the status each accepts, the expiry a kept or given-up lease gets, and exactly when each error is given |
| Outcomes.InsertOutcome | stores/dbstore/operations.go:493-519 | An insert succeeds if and only if nothing else is stored at its place; repeating a record changes nothing |
| Outcomes.AppendOutcome | stores/dbstore/operations.go:282-310 | A plain append succeeds if and only if the record is proper, its run not retired, its sequence above the floor and its place free or equal; what is stored and each error |
| Outcomes.AppendFencedOutcome | stores/dbstore/operations.go:314-367 | The same with the owner's unexpired lease, and without opening a run |
| Outcomes.LoadOutcome | stores/dbstore/dbstore.go:1003-1031 | Loading gives the newest checkpoint of an active run, or says which of two things is wrong |
| Outcomes.ListCheckpointsOutcome | stores/dbstore/operations.go:243-279 | Listing gives the stored versions after the cursor in order, as many as the limit, or says what is wrong |
| Outcomes.ListOutcome | stores/dbstore/operations.go:370-442 | For every query the first matching events of active runs in append order, as stored, up to the limit; or exactly the bad-query and compacted-history errors |
| RetentionInvariant.EnrollKeepsValid | stores/dbstore/retention.go:211-268 | Enrolling retires a run exactly when its head is terminal and older than the cutoff; a missing or mismatched head cannot occur |
| RetentionInvariant.DeletePurgingKeepsValid | stores/dbstore/retention.go:290-339 | A deletion step keeps the invariant, whatever its budget |
| RetentionInvariant.PurgeJournalShape | stores/dbstore/retention.go:546-587 | A journal step deletes exactly the listed rows that are still the run's and still old enough, and drops the registry row exactly when the last event goes |
| Compaction.ContiguousCountIsLongest | stores/dbstore/retention.go:773-798 | The kept prefix continues the sequence, is old enough and fits, and cannot be longer |
| Compaction.CompactIsExact | stores/dbstore/retention.go:599-736 | Success deletes sequences floor+1..floor+n for the largest n within age, row, byte and confirmed limits and raises the floor to floor+n; an error changes nothing and is never one of the row-count, head or floor mismatches |
| CompactionOutcome.CompactOutcome | stores/dbstore/retention.go:599-798 | A compaction is carried out if and only if the request is proper, the run live and without a pending event, and its confirmed range empty or begun without a gap before a limit or a younger event; exactly when each refusal is given |
| Reachability.ValidHasNoGap | stores/dbstore/dbstore.go:478-484 | A consistent database passes the gate that opening a store applies |
| Reachability.NextKeepsValid | stores/dbstore/operations.go:26-367 | Every transaction keeps the invariant |
| Reachability.ReachableIsValid | stores/dbstore/retention.go:64-736 | Every database any interleaving reaches satisfies the invariant |
| Reachability.ReachableHasNoGap | stores/dbstore/migrations.go:374-433 | In every reachable database all four consistency queries are empty |
| Fencing.StepOnRun | stores/dbstore/operations.go:26-214 | A transaction leaves a run's newest checkpoint, or renews, claims, writes or enrols it under the conditions of that operation, storing exactly the caller's record with its version and resolved expiry |
| Leases.FencedForever | stores/dbstore/operations.go:62-73 | Once a claim installs token k, no renewal, save, finish or fenced append with a smaller token, no claim of k or less and no new creation of the run succeeds in any later state, purged or not |
| Leases.TokensOnlyGrow | stores/dbstore/operations.go:62-73 | Along any run the token never falls, the owner of a token is kept or released, and a kept owner's expiry never moves back |
| Leases.OneOwnerPerToken | stores/dbstore/operations.go:216-240 | A token names at most one owner over a whole run |
| Leases.GuardedSuccess | stores/dbstore/operations.go:111-126 | A renewal, save, finish or fenced append succeeds only with the current token, and on an owned run only before the recorded expiry |
| Leases.SupersededAfterExpiry | stores/dbstore/operations.go:50-72 | With a non-decreasing clock an unreleased token is superseded only at or after its recorded expiry |
| Leases.LeaseWindowsDisjoint | stores/dbstore/operations.go:192-240 | Owned operations under an unreleased token happen strictly before all guarded operations under later tokens |
| Tombstones.OtherRunsUntouched | stores/dbstore/registry.go:15-63 | A transaction changes no row of any run but its own |
| Tombstones.RegistryStep | stores/dbstore/registry.go:30-38 | A workflow registry row is never deleted, keeps its kind, and its state and floor only advance |
| Tombstones.RetiredIsInvisible | stores/dbstore/dbstore.go:1022-1031 | `Load` and `ListCheckpoints` do not find a retired run and `List` returns none of its records |
| Tombstones.RetiredRefusesWrites | stores/dbstore/registry.go:30-38 | Every checkpoint and log operation on a retired run is refused |
| Tombstones.TombstonesArePermanent | stores/dbstore/retention.go:245-333 | After any run of transactions a retired run is still retired, refuses writes, has only lost rows, and once purged has no row left but its tombstone |
| CheckpointLog.TerminalIsAbsorbing | stores/dbstore/operations.go:189-202 | A terminal checkpoint stays the newest one until the run is retired |
| CheckpointLog.HistoryIsImmutable | stores/dbstore/operations.go:469-491 | A superseded checkpoint is stored unchanged while its run is active and afterwards can only be purged |
| CheckpointLog.ActiveLogIsComplete | stores/dbstore/operations.go:243-279 | Listing an active run after any version yields the following versions without a gap up to the limit, all of one identity; `Load` is version n, only it can be terminal, and the head copies it |
| EventHistory.OrdinalsAreNeverReused | stores/dbstore/operations.go:493-519 | Over any run an ordinal names one record and one append time forever |
| RunLog.StoredEventsAreTheHistory | stores/dbstore/operations.go:282-367 | In every reachable database an active run's events are the records ever appended to it, each once, in append order, minus those at or below its floor |
| RunLog.ListIsNeverSilentlyTruncated | stores/dbstore/operations.go:370-442 | A run-scoped `List` reports a compacted history or returns the first `Limit` of all records ever appended after the cursor, in append order |
| PurgeBudgets.FittingIsLongest | stores/dbstore/retention.go:422-436 | The byte-bounded selection is the longest candidate prefix that fits |
| PurgeBudgets.DeletionIsAccurate | stores/dbstore/retention.go:290-380 | A deletion step reports exactly the rows and bytes it removed, within its budget, touching no other run |
| PurgeBudgets.EnrollAllSucceeds | stores/dbstore/retention.go:138-152 | Under any interference, enrolling the selected runs never fails |
| PurgeBudgets.PurgeStaysWithinBudget | stores/dbstore/retention.go:64-136 | Under any interference exactly the requests within the documented bounds complete; a call deletes at most its row and byte limits over all its transactions, and reports exactly the rows it removed, the runs it ended and those left pending |
| Selections.DeletionTakesOldest | stores/dbstore/retention.go:290-436 | A deletion step takes events by sequence and checkpoints by version, lowest first, and leaves one only when the rows are used up or the next would exceed the bytes left |
| Selections.PurgingPageIsOldest | stores/dbstore/retention.go:172-180 | The pending page holds the purging runs that have waited longest, by run id among equals, and leaves one out only at the limit |
| Selections.TerminalPageIsOldest | stores/dbstore/retention.go:182-209 | The enrolment page holds the eligible runs that ended first, by run id among equals, and leaves one out only at the limit |
| Enrollment.EnrollmentIsExact | stores/dbstore/retention.go:96-170 | On a quiescent store a call retires exactly the first eligible runs, as many as places are free, up to the first whose oldest row does not fit |
| PurgeDrain.DeletionProgress | stores/dbstore/retention.go:290-380 | One deletion step makes progress if and only if a first row fits or none is left; otherwise it changes nothing |
| PurgeDrain.DeletePhaseProgress | stores/dbstore/retention.go:108-129 | The deletion loop of a call is stuck if and only if no selected run has a row that fits |
| PurgeStuck.OversizedRowIsStuck | stores/dbstore/retention.go:422-436 | On the store that create, append, finish and enrol reach, every valid purge call with a byte limit under ten leaves all rows, other clients quiet, and reports one run pending |
| PurgeDrain.PurgeDrains | stores/dbstore/retention.go:64-136 | With a byte limit of at least one maximal row, repeated calls on a quiescent store purge every terminal run old enough, leave every other run exactly as it was, and find nothing more |
| JournalPurge.JournalPurgeIsSound | stores/dbstore/retention.go:478-594 | Under any interference only selected rows of active journals go, still the rows that were selected, appended before the cutoff, within both limits; a registry row goes exactly with its run's last event |
| JournalPurge.SelectionIsOldest | stores/dbstore/retention.go:504-535 | Every eligible row left out comes after every selected one by append time and ordinal, and is left out only because the rows are used up or the next row would exceed the bytes |
| JournalPurge.JournalPurgeCompletes | stores/dbstore/retention.go:505-593 | On a quiescent store exactly the oldest eligible events that fit both limits go, with their retention rows and the registry rows of the journals they empty, and the count says so |
| JournalPurge.GroupPurgeIsSound | stores/dbstore/retention.go:546-587 | One per-run transaction deletes only what was selected for that run, rechecked |
| Backfill.FirstPassCompletes | stores/dbstore/migrations.go:278-372 | On a database without v2 metadata the first pass leaves no gap if and only if ordinals and sequences are positive and run ids non-empty |
| Backfill.PassIsIdempotent | stores/dbstore/migrations.go:328-353 | A second attempt on a quiescent database never helps |
| Backfill.PassKeepsValidDatabase | stores/dbstore/migrations.go:324-353 | Reconciling a consistent database changes nothing |
| Backfill.HeadsCover | stores/dbstore/retention.go:814-913 | After the head backfill every checkpointed run has a head at or above its newest version, copied from it when it was missing or behind |
| Backfill.MigrationEstablishesInvariant | stores/dbstore/dbstore.go:835-866 | Migrating a well-formed legacy database, its heads absent, partial or complete, establishes the invariant, so no later state reports a gap; with complete heads reconciling alone does |
| DbStore.Store.Create | stores/dbstore/dbstore.go:955-1000 | The in-place transaction commits what `Transactions.Create` says or leaves the tables as they were |
| DbStore.Store.EnsureRunRegistry | stores/dbstore/registry.go:15-40 | Inserts the registry row if absent and checks state and kind |
| DbStore.Store.Claim | stores/dbstore/operations.go:26-85 | Commits what `Transactions.Claim` says or rolls back; `Outcomes.ClaimOutcome` says when and what |
| DbStore.Store.RenewLease | stores/dbstore/operations.go:88-152 | Commits what `Transactions.RenewLease` says or rolls back |
| DbStore.Store.Write | stores/dbstore/operations.go:155-214 | `Save` and `Finish` commit what `Transactions.Write` says or roll back |
| DbStore.Store.PrepareWriteLease | stores/dbstore/operations.go:216-240 | A write is allowed if and only if its token is the newest, it names no other owner, and an owned run's lease has not expired; which expiry is then stored, and when a refusal is a bad request rather than a lost lease |
| DbStore.Store.AppendRunLog | stores/dbstore/operations.go:493-519 | Insert-or-ignore, then compare, then retention row |
| DbStore.Store.Append | stores/dbstore/operations.go:282-310 | Commits what `Transactions.Append` says or rolls back |
| DbStore.Store.AppendFenced | stores/dbstore/operations.go:314-367 | Commits what `Transactions.AppendFenced` says or rolls back |
| DbStore.Store.EnrollTerminalRun | stores/dbstore/retention.go:211-268 | Commits what `Retention.Enroll` says or rolls back |
| DbStore.Store.DeletePurgingHistory | stores/dbstore/retention.go:290-339 | Events first, then checkpoints with what is left of the budget, then the tombstone |
| DbStore.Store.FirstHistoryRowFits | stores/dbstore/retention.go:154-170 | Two reads, other clients in between |
| DbStore.Store.EnrollTerminalRuns | stores/dbstore/retention.go:138-152 | The enrolment loop stops at the first run that does not fit |
| DbStore.Store.SweepPending | stores/dbstore/retention.go:112-129 | The deletion loop with its running budget |
| DbStore.Store.PurgeTerminalRuns | stores/dbstore/retention.go:64-136 | The whole call, statement by statement, refines `PurgeCall.PurgeTerminalRuns` |
| DbStore.DeletionIdsWithinBudget | stores/dbstore/retention.go:422-436 | The loop returns exactly the longest fitting prefix and its size |
| DbStore.ContiguousConfirmed | stores/dbstore/retention.go:773-798 | The loop returns the contiguous prefix or the gap error |
| DbStore.Store.PurgeRunLog | stores/dbstore/retention.go:478-594 | Select, bound, group by run, then one transaction per run: the call that `JournalPurgeIsSound` and `JournalPurgeCompletes` speak of |
| DbStore.Store.GroupByRun | stores/dbstore/retention.go:536-543 | Runs in order of first occurrence with their selected ordinals |
| DbStore.Store.PurgeConfirmedRunLog | stores/dbstore/retention.go:599-736 | Commits what `Retention.Compact` says or changes nothing |
| DbStore.Store.BackfillRunLogRetention | stores/dbstore/migrations.go:278-312 | The paged cursor loop covers every event after ordinal zero that lacks a retention row |
| DbStore.Store.BackfillRegistryKind | stores/dbstore/migrations.go:437-461 | The paged cursor loop registers every source run with a non-empty id that is not registered |
| DbStore.Store.PromoteWorkflowRegistries | stores/dbstore/migrations.go:355-372 | Exactly the active journal rows with a head become workflow rows, with their floor kept; no other row changes and none is added |
| DbStore.Store.ReconcileV2Metadata | stores/dbstore/migrations.go:328-353 | At most two attempts; the outcome is one pass, an error exactly when a gap remains |
| DbStore.Store.BackfillRunHeads | stores/dbstore/retention.go:814-913 | The paged loop copies every stale head, and fails exactly when a newest checkpoint does not carry its own run and version |
| Transcript.AcceptsPaired | models/openai/openai.go:689-760 | The running pending/completed/seen check accepts exactly the transcripts whose call ids are distinct and whose turns are each answered once before the next non-tool message |
| Transcript.FollowMeaning | models/openai/codex/request.go:149-209 | At any point the check accepts the rest exactly when the rest answers what is pending and declares only unseen ids |
| ChatEncoder.EncodeChatMessages | models/openai/openai.go:689-707 | Accepts a transcript if and only if every message passes its local checks and the transcript is paired; each message keeps its role, its texts as one, the call it answers, and its calls' ids, names and arguments |
| ChatEncoder.ChatMessageEncoder.Encode | models/openai/openai.go:709-760 | One message is accepted exactly when sendable and consistent with the three id sets, which it updates |
| ChatEncoder.ChatMessageEncoder.EncodeToolCalls | models/openai/openai.go:762-802 | All calls valid and new, declared in order |
| ResponseState.CanonicalReplays | models/openai/codex/request.go:415-465 | A canonical item decodes to itself exactly when it fits a frame |
| ResponseState.DecodedState | models/openai/codex/request.go:415-465 | Which texts are replayable items, and that everything of one is sent but its id and status |
| CodexEncoder.EncodeMessages | models/openai/codex/request.go:149-165 | Accepts a transcript if and only if every message is encodable and the transcript is paired; the input conveys the messages one by one, with each text under its own role, each response item in its place, each call and output as given |
| CodexEncoder.EncodableMeans | models/openai/codex/request.go:188-398 | Which messages are encodable, said of their parts and calls: no two parts carry one call, each carried call is declared under the same name with equal JSON arguments |
| CodexEncoder.ItemsConvey | models/openai/codex/request.go:213-332 | A message's input: an instruction, a tool output, or its parts in order with adjacent texts merged under its role, then the calls that no part carries |
| CodexEncoder.TextsConvey | models/openai/codex/request.go:256-296 | A user, developer or assistant message of texts becomes one text item in its own role, or none, then its calls |
| CodexEncoder.MessageEncoder.AddMessage | models/openai/codex/request.go:188-271 | One message is accepted exactly when encodable and consistent with the id sets; appends its items and instructions |
| CodexEncoder.MessageEncoder.AddModelMessage | models/openai/codex/request.go:256-332 | Adjacent texts become one item of the message's role, response items stand where they are, function calls among them must be declared and agree; `ItemsConvey` says what that comes to |
| CodexEncoder.MessageEncoder.AddToolCalls | models/openai/codex/request.go:334-398 | Canonical calls get an item unless a replayed item carries them; every replayed call must be declared once and agree |
| CodexEncoder.MessageEncoder.IndexReplayedCalls | models/openai/codex/request.go:351-360 | Fails exactly on a repeated id |
| CodexStream.StreamResult.HandleEvent | models/openai/codex/stream.go:161-184 | Takes exactly the acceptable events and keeps text, items, calls, refusal and text position equal to what the stream says, which `StreamText.StreamSays` gives in closed form |
| CodexStream.StreamResult.AddOutputItem | models/openai/codex/stream.go:257-304 | Which items are taken, and what each adds |
| CodexStream.StreamResult.AddMessageItem | models/openai/codex/stream.go:322-368 | Finished text counts only when no delta came before; limits over the whole item |
| CodexStream.StreamResult.AppendText | models/openai/codex/stream.go:386-396 | Records the position of the first text among the items |
| CodexStream.StreamResult.Response | models/openai/codex/stream.go:465-526 | The message of a completed stream; a refusal with tool calls is an error; `StreamText.ResponseSays` spells it out |
| CodexStream.ConsumeStream | models/openai/codex/stream.go:116-151 | Succeeds exactly when a completion is reached with every event up to it acceptable |
| StreamText.StreamSays | models/openai/codex/stream.go:187-396 | The text is the output texts finished before the first delta and then all deltas, in order; the same for refusals; items are kept in order without id and status; calls are those of the function-call items |
| StreamText.AcceptedStreams | models/openai/codex/stream.go:187-396 | A stream is taken if and only if each event is well formed by itself, the text and the kept items stay within 16 MiB each, and no call id repeats |
| StreamText.ResponseSays | models/openai/codex/stream.go:465-526 | The message holds the kept items in order and the text between those before and after it first got content; a refusal stands in only for a message without parts |
| CodexReplay.StreamStates | models/openai/codex/stream.go:280-384 | Collected calls are the function calls among the collected items, with distinct ids, and each item decodes to itself while it fits |
| CodexReplay.MessageReplays | models/openai/codex/request.go:256-398 | The message of a stream is encodable exactly when its canonical items fit, and emits them in stream order with the text in place and no extra function call |
| CodexReplay.ReplayRoundTrip | models/openai/codex/request.go:149-165 | After any accepted transcript with other call ids, the message and one output per call are accepted exactly when the canonical items fit, and are sent back as they came |
| ReplayLimit.ObjectTextIsInjective | models/openai/codex/request.go:448-465 | The encoding behind the counterexample, with or without escaped '<', determines the object's fields |
| ReplayLimit.OutgrownItemIsNotReplayed | models/openai/codex/stream.go:370-384 | A stream whose one item comes within a frame and is taken, while its message is not encodable because the canonical item exceeds a frame |
| Sse.SseDecoder.Next | models/openai/codex/stream.go:611-670 | One call yields the next event that is delivered before any limit breaks, consuming exactly its lines; it ends or fails only when none is left, and fails exactly beyond a limit |
| Sse.DecodeAll | models/openai/codex/stream.go:605-676 | Decoding succeeds exactly within the limits and yields all events in order; a failing one has delivered the events completed before the first offending line |
| Sse.WithinMeans | models/openai/codex/stream.go:626-659 | The limits in closed form: every line is shorter than a frame, what is collected never exceeds one, and the trimmed lines with their newlines fit the stream |
| Sse.DeliveredBeforeLimit | models/openai/codex/stream.go:626-648 | Beyond the limits the events delivered are those completed by the longest run of lines within them |
| Sse.RoundTrip | models/openai/codex/stream.go:628-659 | Payloads written as data lines come back without their leading empty lines, and unchanged if and only if each first line is non-empty |
| Sse.RoundTripWithoutLastBlank | models/openai/codex/stream.go:661-670 | The last blank line is not needed |
| Sse.RoundTripWithReturns | models/openai/codex/stream.go:605-627 | The round trip holds with none, one or two carriage returns before each newline |
| Sse.ReturnsDropped | models/openai/codex/stream.go:605-627 | Up to two carriage returns at the end of a line are dropped, one by the scanner and one by the decoder, and any others stay |
| Sse.RoundTripSucceeds | models/openai/codex/stream.go:17-23 | Payloads within a frame and a stream within its limit always decode |
| Sse.AgreesWithStandard | models/openai/codex/stream.go:628-670 | For every input the decoder yields the events of the standard's algorithm if and only if every event starts with a non-empty value, has no bare `data` line and ends in a blank line, but for a last event that stays empty |
| Sse.LeadingEmptyValueDiffers | models/openai/codex/stream.go:642-648 | An input on which the decoder drops a newline that the standard keeps |
| Sse.PendingDataDiffers | models/openai/codex/stream.go:661-670 | An input on which the decoder delivers data that the standard discards |
| React.Agent.Prepare | agents/react/react.go:157-176 | Refuses a turn beyond the limit; the request is the transcript with pending observations |
| React.Agent.Model | agents/react/react.go:177-207 | Which replies continue, finish or fail, and what each leaves to dispatch |
| React.Agent.ToolBatchEnd | agents/react/react.go:404-416 | A batch is one invokable call or a maximal run of others |
| React.Agent.DispatchTools | agents/react/react.go:208-223 | Cuts one batch off the remaining calls |
| React.Agent.ObserveTools | agents/react/react.go:225-243 | Observes a batch if and only if every call has an outcome, and then adds one tool message per call in dispatch order, with the call's id and exactly what its tool returned |
| React.Run | agents/react/react.go:256-297 | For any model and tools the loop stops within the turn and call limits; every request is the previous one with the reply and the outcomes of its calls; it answers if and only if the last reply is a final one with content, and otherwise the turns are used up or that reply or its last batch cannot be continued |
| React.NextRequestShowsOutcomes | agents/react/react.go:225-243 | After a tool turn the next request adds the reply and one tool message per call with what the tool returned, or with the rejection of an unknown tool |
| React.NextRequestShowsRepair | agents/react/react.go:418-425 | After any other turn that is followed by one, it adds the reply unless empty, and the repair observation |
| React.UnregisteredToolsAreNotRun | agents/react/react.go:434-448 | What a tool that is not registered would do never matters |
| React.CallsDispatchedOnce | agents/react/react.go:208-243 | The batches of a finished turn concatenate to its declared calls |
| React.RequestsPaired | agents/react/react.go:157-207 | From a paired transcript, a request is paired if and only if no earlier reply reused a call id or was a repair speaking as a tool |
| React.ReusedIdUnpairs | agents/react/react.go:510-520 | A run of three requests whose third is not paired, as its model declares one id twice |
| React.RepairAsToolUnpairs | agents/react/react.go:195-197 | A run whose second request is not paired, as a repair speaks as a tool |
| CodexAgent.TurnSendsBack | models/openai/codex/stream.go:465-526 | The request after a turn is accepted if and only if the stream's call ids are new, its canonical items fit and its tool outcomes are plain text; its input continues the previous one |
| CodexAgent.RequestsSendable | agents/react/react.go:177-207 | An agent on the Responses model, started with a transcript the encoder accepts, builds an accepted request if and only if every turn before it meets that condition |
| CodexAgent.InputsGrow | models/openai/codex/request.go:149-165 | The input of each accepted request is that of the one before, the items of the stream in order, and one output per call |

## Left out

- Transactions are atomic steps with rollback on error; SQL dialects, isolation anomalies, driver concurrency errors,
  context cancellation, connection handling, SQLite triggers, schema verification and migration locks are not modelled.
- A rolled-back insert may consume an auto-increment value; that is a step of its own (`SkipOrdinals`), and the
  database's ordinals are otherwise assigned in commit order.
- JSON, UTF-8 and time encodings are injective functions with sizes; case-insensitive or repeated JSON keys are not modelled.
- A stored checkpoint does not keep the lease duration of the request that wrote it; it is a separate argument.
- `Save` and `Finish` are one transaction function with a flag, as in the code they share.
- Database reads of several statements outside a transaction (`ListCheckpoints` with its existence check) are one read,
  except inside the purge calls, where every statement is its own.
- The backfill loops run without other writers, as their documentation demands; registry rows are inserted without a time stamp.
- A session-scoped `List` is, as in the code, not guarded by the floor: `Outcomes.ListOutcome` says what it returns, but its
  completeness against everything ever appended is stated for run-scoped lists only.
- The Responses model under the agent is its encoder, its collector and its answer; HTTP and the event decoder between them
  are taken to deliver the server's events.
- Model event sinks, text callbacks, token redaction and error texts: sinks are assumed to succeed, errors are tags or absent results.
- Response headers, usage conversion beyond the sign check, and provider metadata of a stream.
- Byte-order marks and carriage returns as line terminators of the standard; lines end in a newline, one trailing carriage
  return is dropped by the scanner and one by the decoder.
- The workflow runtime under the agent: merge inputs arrive in dispatch order, tool outcomes become tool messages with the
  call's id, repair observations have a non-tool role, and checkpoints of an interrupted run are not modelled. It is not part of this model.
- Artifacts, metadata and tool specifications carried by the agent; a nil intent value is the same failure as no intent.
- HTTP, OAuth, retries, media and file endpoints, other adapters and the other agents.
