/** `PurgeRunLog` selects rows first and deletes them later, run by run; other clients may commit
    anything in between. */
module JournalPurge {
  import opened Ordering
  import opened Tables
  import opened Retention
  import opened Protocol
  import opened Invariant
  import opened RetentionInvariant
  import opened Compaction
  import opened Fencing
  import opened Tombstones
  import opened EventHistory
  import opened PurgeCall
  import opened PurgeBudgets
  import opened PurgeDrain
  import opened Selections

  datatype JournalRequest = JournalRequest(before: Time, limit: int, byteLimit: int, allowReplayLoss: bool)

  predicate ValidJournalRequest(request: JournalRequest) {
    && request.before != ZERO_TIME && request.allowReplayLoss
    && 0 <= request.limit <= MAX_PURGE_ROW_LIMIT
    && 0 <= request.byteLimit <= MAX_PURGE_BYTE_LIMIT
  }

  /** Events of active journals that were appended before the cutoff. */
  function JournalRows(d: Db, before: Time): set<Ordinal> {
    set o | o in d.retention && o in d.events && IsJournal(d, d.retention[o].run) && d.retention[o].appendedAt < before
  }

  function AppendTime(d: Db, o: Ordinal): Time {
    if o in d.retention then d.retention[o].appendedAt else 0
  }

  /** `ORDER BY appended_at_unix_nano, ordinal`. */
  function ByAppendTime(d: Db): (Ordinal, Ordinal) -> bool {
    (a: Ordinal, b: Ordinal) => AppendTime(d, a) < AppendTime(d, b) || (AppendTime(d, a) == AppendTime(d, b) && a <= b)
  }

  lemma ByAppendTimeIsTotal(d: Db)
    ensures TotalOrder(ByAppendTime(d))
  {}

  function JournalCandidates(codec: Codec, d: Db, before: Time, limit: nat): (cs: seq<Candidate>)
    ensures |cs| <= limit
    ensures forall i | 0 <= i < |cs| :: cs[i].id in JournalRows(d, before) && cs[i] == EventCandidate(codec, d, cs[i].id)
    ensures forall i, j | 0 <= i < j < |cs| :: cs[i].id != cs[j].id
  {
    ByAppendTimeIsTotal(d);
    JournalRowsListed(d, before, limit);
    var rows := Limited(Sorted(JournalRows(d, before), ByAppendTime(d)), limit);
    seq(|rows|, i requires 0 <= i < |rows| => EventCandidate(codec, d, rows[i]))
  }

  lemma JournalRowsListed(d: Db, before: Time, limit: nat)
    requires TotalOrder(ByAppendTime(d))
    ensures var rows := Limited(Sorted(JournalRows(d, before), ByAppendTime(d)), limit);
      && |rows| <= limit && (forall i | 0 <= i < |rows| :: rows[i] in JournalRows(d, before) && rows[i] in d.events)
      && forall i, j | 0 <= i < j < |rows| :: rows[i] != rows[j]
  {
    hide TotalOrder, Sorted, Limited;
    PageIsFirst(JournalRows(d, before), ByAppendTime(d), limit);
    var rows := Limited(Sorted(JournalRows(d, before), ByAppendTime(d)), limit);
    assert forall i | 0 <= i < |rows| :: rows[i] in rows && rows[i] in JournalRows(d, before);
  }

  function JournalBudget(request: JournalRequest): Budget {
    Budget(OrDefault(request.limit, DEFAULT_PURGE_ROW_LIMIT), OrDefault(request.byteLimit, DEFAULT_PURGE_BYTE_LIMIT))
  }

  function JournalSelection(codec: Codec, d: Db, request: JournalRequest): seq<Candidate>
    requires ValidJournalRequest(request)
  {
    Fitting(JournalCandidates(codec, d, request.before, JournalBudget(request).rows), JournalBudget(request).bytes)
  }

  function RetainedRun(d: Db, o: Ordinal): RunId {
    if o in d.retention then d.retention[o].run else ""
  }

  /** The runs of the selected rows, each once, by first occurrence. */
  function RunOrder(d: Db, selected: seq<Candidate>, order: seq<RunId>): (runs: seq<RunId>)
    requires forall i, j | 0 <= i < j < |order| :: order[i] != order[j]
    ensures forall i, j | 0 <= i < j < |runs| :: runs[i] != runs[j]
    ensures forall r :: r in runs <==> r in order || exists c | c in selected :: RetainedRun(d, c.id) == r
    decreases |selected|
  {
    if selected == [] then order
    else
      var run := RetainedRun(d, selected[0].id);
      assert forall c :: c in selected <==> c == selected[0] || c in selected[1..];
      RunOrder(d, selected[1..], if run in order then order else order + [run])
  }

  /** The selected ordinals of one run. */
  function Group(d: Db, selected: seq<Candidate>, run: RunId): set<Ordinal> {
    set o | o in Ids(selected) && RetainedRun(d, o) == run
  }

  datatype JournalDeletion = JournalDeletion(run: RunId, before: Db, after: Db, events: nat)
  datatype JournalSweep = JournalSweep(w: World, deletions: seq<JournalDeletion>)

  /** Deletes the selection `selected`, made in `d0`, one run and one transaction at a time. */
  function PurgeGroups(codec: Codec, env: Environment, w: World, d0: Db, selected: seq<Candidate>, runs: seq<RunId>, before: Time): JournalSweep
    decreases |runs|
  {
    if runs == [] then JournalSweep(w, [])
    else
      var w1 := Wait(codec, env, w);
      var (e, n) := Retention.PurgeJournalRun(w1.d, runs[0], Group(d0, selected, runs[0]), before);
      var sweep := PurgeGroups(codec, env, w1.(d := e), d0, selected, runs[1..], before);
      JournalSweep(sweep.w, [JournalDeletion(runs[0], w1.d, e, n)] + sweep.deletions)
  }

  function TotalDeleted(deletions: seq<JournalDeletion>): nat {
    if deletions == [] then 0 else deletions[0].events + TotalDeleted(deletions[1..])
  }

  datatype JournalOutcome = JournalOutcome(w: World, result: Result<nat>, deletions: seq<JournalDeletion>)

  function PurgeRunLog(codec: Codec, env: Environment, w: World, request: JournalRequest): JournalOutcome {
    if !ValidJournalRequest(request) then JournalOutcome(w, Err(InvalidRequest), [])
    else
      var w1 := Wait(codec, env, w);
      var selected := JournalSelection(codec, w1.d, request);
      var sweep := PurgeGroups(codec, env, w1, w1.d, selected, RunOrder(w1.d, selected, []), request.before);
      JournalOutcome(sweep.w, Ok(TotalDeleted(sweep.deletions)), sweep.deletions)
  }

  function Gone(part: JournalDeletion): set<Ordinal> {
    part.before.events.Keys - part.after.events.Keys
  }

  /** One deletion removed only rows selected in `d0`, still the very rows that were selected, of a run
      that is a journal and appended before the cutoff; it dropped the registry row exactly when the
      run's last event went, and touched nothing else. */
  ghost predicate Sound(d0: Db, selected: seq<Candidate>, before: Time, part: JournalDeletion) {
    var d, e, run := part.before, part.after, part.run;
    && Gone(part) <= Group(d0, selected, run) && part.events == |Gone(part)|
    && (forall o | o in Gone(part) ::
          && o in d.events && o in d0.events && d.events[o] == d0.events[o] && d.events[o].runId == run
          && o in d.retention && d.retention[o].appendedAt < before)
    && (Gone(part) != {} ==> IsJournal(d, run))
    && e.events == d.events - Gone(part) && e.retention == d.retention - Gone(part)
    && e.checkpoints == d.checkpoints && e.heads == d.heads
    && e.registry == (if Gone(part) != {} && OrdinalsOf(e, run) == {} then d.registry - {run} else d.registry)
  }

  lemma IdleIsSound(d0: Db, d: Db, selected: seq<Candidate>, before: Time, run: RunId)
    ensures Sound(d0, selected, before, JournalDeletion(run, d, d, 0))
  {
    assert d.events - {} == d.events && d.retention - {} == d.retention;
    assert Gone(JournalDeletion(run, d, d, 0)) == {};
  }

  lemma RestrictedEvents(d: Db, e: Db, gone: set<Ordinal>)
    requires gone <= d.events.Keys && e.events.Keys == d.events.Keys - gone
    requires forall o | o in e.events :: e.events[o] == d.events[o]
    ensures e.events == d.events - gone && d.events.Keys - e.events.Keys == gone
  {
    var rest := d.events - gone;
    assert rest.Keys == e.events.Keys;
    forall o | o in rest ensures rest[o] == e.events[o] { assert e.events[o] == d.events[o]; }
    assert rest == e.events;
    forall o ensures o in d.events.Keys - e.events.Keys <==> o in gone {}
  }

  lemma JournalShapeGone(codec: Codec, d: Db, run: RunId, ordinals: set<Ordinal>, before: Time)
    requires Valid(codec, d) && IsJournal(d, run)
    ensures var (e, n) := Retention.PurgeJournalRun(d, run, ordinals, before);
      var gone := EligibleOrdinals(d, run, ordinals, before);
      && gone <= OrdinalsOf(d, run) && d.events.Keys - e.events.Keys == gone && n == |gone|
      && e.events == d.events - gone && e.retention == d.retention - gone
      && e.checkpoints == d.checkpoints && e.heads == d.heads
      && e.registry == (if OrdinalsOf(e, run) == {} then d.registry - {run} else d.registry)
      && OrdinalsOf(d, run) != {} && OrdinalsOf(e, run) == OrdinalsOf(d, run) - gone
  {
    JournalNonEmpty(codec, d, run);
    hide Retention.PurgeJournalRun, EligibleOrdinals, Valid, OrdinalsOf;
    PurgeJournalShape(codec, d, run, ordinals, before);
    OrdinalsAreKeys(d, run);
    RestrictedEvents(d, Retention.PurgeJournalRun(d, run, ordinals, before).0, EligibleOrdinals(d, run, ordinals, before));
  }

  lemma JournalNonEmpty(codec: Codec, d: Db, run: RunId)
    requires Valid(codec, d) && IsJournal(d, run)
    ensures OrdinalsOf(d, run) != {}
  {
    assert EventSide(d) && RegistryConsistent(d);
    assert d.registry[run].kind == Journal;
  }

  lemma GroupPurgeIsSound(codec: Codec, d0: Db, d: Db, selected: seq<Candidate>, run: RunId, before: Time)
    requires Valid(codec, d0) && Valid(codec, d) && NoReuse(d0, d)
    requires Ids(selected) <= d0.events.Keys
    ensures var (e, n) := Retention.PurgeJournalRun(d, run, Group(d0, selected, run), before);
      Sound(d0, selected, before, JournalDeletion(run, d, e, n))
  {
    hide Valid, Retention.PurgeJournalRun, EligibleOrdinals, Sound, Group, OrdinalsOf, NoReuse, Ids;
    var ordinals := Group(d0, selected, run);
    var (e, n) := Retention.PurgeJournalRun(d, run, ordinals, before);
    if IsJournal(d, run) {
      JournalShapeGone(codec, d, run, ordinals, before);
      EligibleRows(codec, d0, d, selected, run, before);
      GoneIsSound(d0, d, e, selected, run, before, EligibleOrdinals(d, run, ordinals, before));
    } else {
      NotJournalIdle(d, run, ordinals, before);
      IdleIsSound(d0, d, selected, before, run);
    }
  }

  lemma EligibleRows(codec: Codec, d0: Db, d: Db, selected: seq<Candidate>, run: RunId, before: Time)
    requires Valid(codec, d0) && NoReuse(d0, d) && Ids(selected) <= d0.events.Keys
    requires EligibleOrdinals(d, run, Group(d0, selected, run), before) <= OrdinalsOf(d, run)
    ensures var gone := EligibleOrdinals(d, run, Group(d0, selected, run), before);
      && gone <= Group(d0, selected, run)
      && forall o | o in gone ::
           && o in d.events && o in d0.events && d.events[o] == d0.events[o] && d.events[o].runId == run
           && o in d.retention && d.retention[o].appendedAt < before
  {
    hide Valid, Ids;
    forall o | o in EligibleOrdinals(d, run, Group(d0, selected, run), before)
      ensures o in d.events && d.events[o].runId == run && o in d0.events && d.events[o] == d0.events[o]
    {
      assert o in OrdinalsOf(d, run) && o in Ids(selected);
      OrdinalsBounded(codec, d0, o);
    }
  }

  lemma GoneIsSound(d0: Db, d: Db, e: Db, selected: seq<Candidate>, run: RunId, before: Time, gone: set<Ordinal>)
    requires IsJournal(d, run) && gone <= Group(d0, selected, run) && d.events.Keys - e.events.Keys == gone
    requires forall o | o in gone ::
      && o in d.events && o in d0.events && d.events[o] == d0.events[o] && d.events[o].runId == run
      && o in d.retention && d.retention[o].appendedAt < before
    requires e.events == d.events - gone && e.retention == d.retention - gone && e.checkpoints == d.checkpoints && e.heads == d.heads
    requires e.registry == (if OrdinalsOf(e, run) == {} then d.registry - {run} else d.registry)
    requires OrdinalsOf(d, run) != {} && OrdinalsOf(e, run) == OrdinalsOf(d, run) - gone
    ensures Sound(d0, selected, before, JournalDeletion(run, d, e, |gone|))
  {
    hide Group, OrdinalsOf, IsJournal;
    assert Gone(JournalDeletion(run, d, e, |gone|)) == gone;
    hide Gone;
  }

  lemma NotJournalIdle(d: Db, run: RunId, ordinals: set<Ordinal>, before: Time)
    requires !IsJournal(d, run)
    ensures Retention.PurgeJournalRun(d, run, ordinals, before) == (d, 0)
  {}

  lemma OrdinalsBounded(codec: Codec, d: Db, o: Ordinal)
    requires Valid(codec, d) && o in d.events
    ensures o < d.nextOrdinal
  {}

  lemma {:induction false} SumMonotone(a: set<int>, b: set<int>, f: int -> nat)
    requires a <= b
    ensures SumOver(a, f) <= SumOver(b, f) && |a| <= |b|
  {
    SumDisjoint(a, b - a, f);
    assert a + (b - a) == b;
    assert |b| == |a| + |b - a|;
  }

  /** Bytes of the events one deletion removed, as they were stored. */
  function DeletedBytes(codec: Codec, deletions: seq<JournalDeletion>): nat {
    if deletions == [] then 0
    else SumOver(Gone(deletions[0]), EventSize(codec, deletions[0].before)) + DeletedBytes(codec, deletions[1..])
  }

  function GroupsOf(d0: Db, selected: seq<Candidate>, runs: seq<RunId>): set<Ordinal> {
    set o | o in Ids(selected) && RetainedRun(d0, o) in runs
  }

  ghost predicate AllSound(d0: Db, selected: seq<Candidate>, before: Time, deletions: seq<JournalDeletion>) {
    forall i | 0 <= i < |deletions| :: Sound(d0, selected, before, deletions[i])
  }

  /** Groups of distinct runs are disjoint, so the deletions together stay within the selection. */
  lemma {:induction false} DeletedWithinSelection(codec: Codec, d0: Db, selected: seq<Candidate>, before: Time, deletions: seq<JournalDeletion>, runs: seq<RunId>)
    requires AllSound(d0, selected, before, deletions) && |deletions| == |runs|
    requires forall i | 0 <= i < |runs| :: deletions[i].run == runs[i]
    requires forall i, j | 0 <= i < j < |runs| :: runs[i] != runs[j]
    ensures TotalDeleted(deletions) <= |GroupsOf(d0, selected, runs)|
    ensures DeletedBytes(codec, deletions) <= SumOver(GroupsOf(d0, selected, runs), EventSize(codec, d0))
    decreases |runs|
  {
    hide SumOver, Ids;
    if runs != [] {
      var first, rest := Group(d0, selected, runs[0]), GroupsOf(d0, selected, runs[1..]);
      var size := EventSize(codec, d0);
      GroupsSplit(d0, selected, runs);
      DeletedWithinSelection(codec, d0, selected, before, deletions[1..], runs[1..]);
      assert Sound(d0, selected, before, deletions[0]);
      hide Sound, Group, GroupsOf;
      SoundBytes(codec, d0, selected, before, deletions[0]);
      SumMonotone(Gone(deletions[0]), first, size);
      SumDisjoint(first, rest, size);
      SoundCount(d0, selected, before, deletions[0]);
      assert |first + rest| == |first| + |rest|;
    }
  }

  lemma SoundCount(d0: Db, selected: seq<Candidate>, before: Time, part: JournalDeletion)
    requires Sound(d0, selected, before, part)
    ensures Gone(part) <= Group(d0, selected, part.run) && part.events == |Gone(part)|
  {}

  lemma GroupsSplit(d0: Db, selected: seq<Candidate>, runs: seq<RunId>)
    requires runs != [] && forall i, j | 0 <= i < j < |runs| :: runs[i] != runs[j]
    ensures var first, rest := Group(d0, selected, runs[0]), GroupsOf(d0, selected, runs[1..]);
      GroupsOf(d0, selected, runs) == first + rest && first !! rest
  {
    hide Ids;
    assert forall r :: r in runs <==> r == runs[0] || r in runs[1..];
    assert runs[0] !in runs[1..];
  }

  lemma SameSizes(codec: Codec, d: Db, d0: Db, ordinals: set<Ordinal>)
    requires forall o | o in ordinals :: o in d.events && o in d0.events && d.events[o] == d0.events[o]
    ensures SumOver(ordinals, EventSize(codec, d)) == SumOver(ordinals, EventSize(codec, d0))
  {
    hide SumOver;
    SumSame(ordinals, EventSize(codec, d), EventSize(codec, d0));
  }

  lemma SoundBytes(codec: Codec, d0: Db, selected: seq<Candidate>, before: Time, part: JournalDeletion)
    requires Sound(d0, selected, before, part)
    ensures Gone(part) <= Group(d0, selected, part.run)
    ensures SumOver(Gone(part), EventSize(codec, part.before)) == SumOver(Gone(part), EventSize(codec, d0))
  {
    hide SumOver, Group, Gone, OrdinalsOf;
    SameSizes(codec, part.before, d0, Gone(part));
  }

  lemma NoReuseTransitive(d: Db, e: Db, f: Db)
    requires NoReuse(d, e) && NoReuse(e, f)
    ensures NoReuse(d, f)
  {}

  lemma WaitNoReuse(codec: Codec, env: Environment, w: World)
    requires Valid(codec, w.d)
    ensures NoReuse(w.d, Wait(codec, env, w).d) && Valid(codec, Wait(codec, env, w).d)
  {
    OrdinalsAreNeverReused(codec, w.d, env(w.turn).others);
  }

  lemma {:induction false} GroupsPurgeSoundly(codec: Codec, env: Environment, w: World, d0: Db, selected: seq<Candidate>, runs: seq<RunId>, before: Time)
    requires Valid(codec, d0) && Valid(codec, w.d) && NoReuse(d0, w.d) && Ids(selected) <= d0.events.Keys
    ensures var r := PurgeGroups(codec, env, w, d0, selected, runs, before);
      && AllSound(d0, selected, before, r.deletions) && |r.deletions| == |runs|
      && (forall i | 0 <= i < |runs| :: r.deletions[i].run == runs[i])
      && Reaches(codec, w.d, r.w.d)
    decreases |runs|
  {
    hide Valid, NoReuse, Retention.PurgeJournalRun, Sound, Group, Ids, Wait, Reaches;
    StaysReached(codec, w.d);
    if runs != [] {
      var w1 := Wait(codec, env, w);
      WaitNoReuse(codec, env, w);
      NoReuseTransitive(d0, w.d, w1.d);
      GroupPurgeIsSound(codec, d0, w1.d, selected, runs[0], before);
      var ordinals := Group(d0, selected, runs[0]);
      var e := Retention.PurgeJournalRun(w1.d, runs[0], ordinals, before).0;
      PurgeJournalOnlyDeletes(w1.d, runs[0], ordinals, before);
      NoReuseTransitive(d0, w1.d, e);
      PurgeJournalKeepsValid(codec, w1.d, runs[0], ordinals, before);
      GroupsPurgeSoundly(codec, env, w1.(d := e), d0, selected, runs[1..], before);
      WaitReaches(codec, env, w);
      StepReaches(codec, w1.d, Step(Op.PurgeJournalRun(runs[0], ordinals, before), 0, 0));
      ReachesTransitive(codec, w.d, w1.d, e);
      ReachesTransitive(codec, w.d, e, PurgeGroups(codec, env, w, d0, selected, runs, before).w.d);
    }
  }

  lemma SelectionIsBounded(codec: Codec, d: Db, request: JournalRequest)
    requires ValidJournalRequest(request)
    ensures var selected, budget := JournalSelection(codec, d, request), JournalBudget(request);
      && Ids(selected) <= JournalRows(d, request.before) && |Ids(selected)| <= budget.rows
      && SumOver(Ids(selected), EventSize(codec, d)) <= budget.bytes
  {
    hide JournalCandidates, SumOver, TotalSize;
    var cs := JournalCandidates(codec, d, request.before, JournalBudget(request).rows);
    FittingSelects(cs, JournalBudget(request));
    TotalSizeIsSum(Fitting(cs, JournalBudget(request).bytes), EventSize(codec, d));
  }

  // What is selected, said without the functions that select it.

  /** A row a journal purge may delete: an event of an active journal, appended before the cutoff. */
  ghost predicate JournalRow(d: Db, before: Time, o: Ordinal) {
    && o in d.events && o in d.retention && d.retention[o].appendedAt < before
    && d.retention[o].run in d.registry && d.registry[d.retention[o].run].kind == Journal && d.registry[d.retention[o].run].state == Active
  }

  ghost predicate AppendedFirst(d: Db, a: Ordinal, b: Ordinal)
    requires a in d.retention && b in d.retention
  {
    || d.retention[a].appendedAt < d.retention[b].appendedAt
    || (d.retention[a].appendedAt == d.retention[b].appendedAt && a <= b)
  }

  /** The oldest rows that may be deleted, by append time and ordinal: as many as the row limit admits and the bytes
      fit, so that a row left out means that the rows are used up or that the next row would exceed the bytes. */
  ghost predicate OldestFitting(codec: Codec, d: Db, request: JournalRequest, chosen: set<Ordinal>) {
    var rows := if request.limit == 0 then 1000 else request.limit;
    var bytes := if request.byteLimit == 0 then 64 * 1024 * 1024 else request.byteLimit;
    && (forall o | o in chosen :: JournalRow(d, request.before, o))
    && |chosen| <= rows && SumOver(chosen, EventSize(codec, d)) <= bytes
    && (forall a, b | a in chosen && JournalRow(d, request.before, b) && b !in chosen :: AppendedFirst(d, a, b))
    && ((exists b :: JournalRow(d, request.before, b) && b !in chosen) ==>
          || |chosen| == rows
          || exists next ::
               && JournalRow(d, request.before, next) && next !in chosen
               && (forall b | JournalRow(d, request.before, b) && b !in chosen :: AppendedFirst(d, next, b))
               && bytes < SumOver(chosen, EventSize(codec, d)) + codec.recordSize(d.events[next]))
  }

  lemma JournalCandidatesListed(codec: Codec, d: Db, before: Time, rows: nat)
    requires TotalOrder(ByAppendTime(d))
    ensures var cs, page := JournalCandidates(codec, d, before, rows), Limited(Sorted(JournalRows(d, before), ByAppendTime(d)), rows);
      |cs| == |page| && forall i | 0 <= i < |cs| :: cs[i].id == page[i] && cs[i].size == EventSize(codec, d)(cs[i].id) && 0 < cs[i].size
  {
    hide TotalOrder, Sorted, Limited, JournalRows;
    var cs, page := JournalCandidates(codec, d, before, rows), Limited(Sorted(JournalRows(d, before), ByAppendTime(d)), rows);
    JournalRowsListed(d, before, rows);
    assert |cs| == |page| && forall i | 0 <= i < |cs| :: cs[i] == EventCandidate(codec, d, page[i]);
  }

  lemma SelectionIsOldest(codec: Codec, d: Db, request: JournalRequest)
    requires ValidJournalRequest(request)
    ensures OldestFitting(codec, d, request, Ids(JournalSelection(codec, d, request)))
  {
    hide TotalOrder, Sorted, Limited, JournalRows, JournalCandidates, SumOver, FittingCount, Ids, TakesFirst;
    ByAppendTimeIsTotal(d);
    var all, budget := JournalRows(d, request.before), JournalBudget(request);
    JournalCandidatesListed(codec, d, request.before, budget.rows);
    FittingTakesFirst(all, ByAppendTime(d), EventSize(codec, d), budget.rows, budget.bytes, JournalCandidates(codec, d, request.before, budget.rows));
    JournalRowMember(d, request.before);
    hide JournalRow;
    FirstIsOldest(codec, d, request, all, Ids(JournalSelection(codec, d, request)));
  }

  lemma JournalRowMember(d: Db, before: Time)
    ensures forall o :: o in JournalRows(d, before) <==> JournalRow(d, before, o)
  {}

  lemma FirstIsOldest(codec: Codec, d: Db, request: JournalRequest, all: set<Ordinal>, chosen: set<Ordinal>)
    requires forall o :: o in all <==> JournalRow(d, request.before, o)
    requires ValidJournalRequest(request)
    requires TakesFirst(all, ByAppendTime(d), EventSize(codec, d), JournalBudget(request).rows, JournalBudget(request).bytes, chosen)
    ensures OldestFitting(codec, d, request, chosen)
  {
    hide SumOver;
    forall a, b | a in all && b in all ensures ByAppendTime(d)(a, b) <==> AppendedFirst(d, a, b) {}
    forall o | o in all ensures EventSize(codec, d)(o) == codec.recordSize(d.events[o]) {}
    var rows, bytes := JournalBudget(request).rows, JournalBudget(request).bytes;
    if chosen != all && |chosen| != rows {
      var next :| next in all - chosen && (forall b | b in all - chosen :: ByAppendTime(d)(next, b))
        && bytes < SumOver(chosen, EventSize(codec, d)) + EventSize(codec, d)(next);
      forall b | JournalRow(d, request.before, b) && b !in chosen ensures AppendedFirst(d, next, b) { assert b in all - chosen; }
    }
    forall b | JournalRow(d, request.before, b) && b !in chosen ensures chosen != all {}
  }

  lemma AllRunsGrouped(d: Db, selected: seq<Candidate>)
    ensures GroupsOf(d, selected, RunOrder(d, selected, [])) == Ids(selected)
  {}

  lemma JournalRowsAreEvents(d: Db, before: Time)
    ensures JournalRows(d, before) <= d.events.Keys
  {}

  /** Under any interference a journal purge deletes only rows it selected, never a workflow's, never a
      younger or a different record, at most `limit` rows and `byteLimit` bytes over all its
      transactions, and reports exactly how many. */
  lemma JournalPurgeIsSound(codec: Codec, env: Environment, w: World, request: JournalRequest)
    requires Valid(codec, w.d)
    ensures var r := PurgeRunLog(codec, env, w, request);
      && (r.result.Ok? <==>
            request.before != ZERO_TIME && request.allowReplayLoss
            && 0 <= request.limit <= 10000 && 0 <= request.byteLimit <= 1024 * 1024 * 1024)
      && Reaches(codec, w.d, r.w.d)
      && (r.result.Ok? ==>
            && var d0 := Wait(codec, env, w).d;
            && AllSound(d0, JournalSelection(codec, d0, request), request.before, r.deletions)
            && OldestFitting(codec, d0, request, Ids(JournalSelection(codec, d0, request)))
            && r.result.value == TotalDeleted(r.deletions) <= JournalBudget(request).rows
            && DeletedBytes(codec, r.deletions) <= JournalBudget(request).bytes)
  {
    hide Valid, Wait, Reaches, JournalSelection, RunOrder, AllSound, Ids, PurgeGroups, SumOver, JournalRows, OldestFitting;
    StaysReached(codec, w.d);
    if ValidJournalRequest(request) {
      var w1 := Wait(codec, env, w);
      var selected := JournalSelection(codec, w1.d, request);
      var runs := RunOrder(w1.d, selected, []);
      WaitNoReuse(codec, env, w);
      StaysUsed(w1.d);
      SelectionIsBounded(codec, w1.d, request);
      SelectionIsOldest(codec, w1.d, request);
      JournalRowsAreEvents(w1.d, request.before);
      GroupsPurgeSoundly(codec, env, w1, w1.d, selected, runs, request.before);
      var sweep := PurgeGroups(codec, env, w1, w1.d, selected, runs, request.before);
      DeletedWithinSelection(codec, w1.d, selected, request.before, sweep.deletions, runs);
      AllRunsGrouped(w1.d, selected);
      WaitReaches(codec, env, w);
      ReachesTransitive(codec, w.d, w1.d, sweep.w.d);
      hide GroupsOf;
    }
  }

  lemma StaysUsed(d: Db)
    ensures NoReuse(d, d)
  {}

  /** A group whose run has not been touched since the selection goes completely. */
  lemma UntouchedGroupGoes(codec: Codec, d0: Db, d: Db, selected: seq<Candidate>, run: RunId, before: Time)
    requires Valid(codec, d0) && Valid(codec, d) && NoReuse(d0, d) && SameRows(d0, d, run)
    requires Ids(selected) <= JournalRows(d0, before)
    ensures EligibleOrdinals(d, run, Group(d0, selected, run), before) == Group(d0, selected, run)
    ensures Group(d0, selected, run) != {} ==> IsJournal(d, run)
  {
    hide Ids, RowsSized, CheckpointSide, SameLog, SequencesUnique, RegistryConsistent, EventsRegistered;
    forall o | o in Group(d0, selected, run)
      ensures o in d.retention && d.retention[o].run == run && d.retention[o].appendedAt < before && IsJournal(d, run)
    {
      assert o in JournalRows(d0, before) && d0.retention[o].run == run;
      assert o in OrdinalsOf(d0, run) && o in OrdinalsOf(d, run);
      assert o < d0.nextOrdinal && d.retention[o] == d0.retention[o];
    }
  }

  /** `e` is `d` without those events and their retention rows, but for the registry. */
  ghost predicate Without(d: Db, e: Db, gone: set<Ordinal>) {
    && e.events == d.events - gone && e.retention == d.retention - gone
    && e.checkpoints == d.checkpoints && e.heads == d.heads && e.nextOrdinal == d.nextOrdinal
  }

  /** Of the listed runs exactly those with no event left have lost their registry row. */
  ghost predicate EmptiedDropped(d: Db, e: Db, runs: seq<RunId>) {
    && (forall q :: q in e.registry <==> q in d.registry && (q in runs ==> OrdinalsOf(e, q) != {}))
    && (forall q | q in e.registry :: e.registry[q] == d.registry[q])
  }

  lemma OrdinalKept(d: Db, run: RunId, ordinals: set<Ordinal>, before: Time)
    ensures Retention.PurgeJournalRun(d, run, ordinals, before).0.nextOrdinal == d.nextOrdinal
  {}

  /** The groups of other runs hold none of a run's events. */
  lemma OtherGroups(codec: Codec, d0: Db, e: Db, f: Db, selected: seq<Candidate>, runs: seq<RunId>, run: RunId)
    requires Valid(codec, d0) && NoReuse(d0, e) && Ids(selected) <= d0.events.Keys && run !in runs
    requires f.events == e.events - GroupsOf(d0, selected, runs)
    ensures OrdinalsOf(f, run) == OrdinalsOf(e, run)
  {
    hide Ids, RowsSized, CheckpointSide, SequencesUnique, RegistryConsistent, EventsRegistered;
    forall o | o in OrdinalsOf(e, run) ensures o !in GroupsOf(d0, selected, runs) {
      if o in Ids(selected) { assert o in d0.events && d0.retention[o].run == d0.events[o].runId && o < d0.nextOrdinal; }
    }
  }

  lemma DroppedInTurn(d: Db, e: Db, f: Db, run: RunId, rest: seq<RunId>)
    requires run !in rest && OrdinalsOf(f, run) == OrdinalsOf(e, run)
    requires e.registry == (if OrdinalsOf(e, run) == {} then d.registry - {run} else d.registry)
    requires EmptiedDropped(e, f, rest)
    ensures EmptiedDropped(d, f, [run] + rest)
  {
    hide OrdinalsOf;
    assert forall q :: q in [run] + rest <==> q == run || q in rest;
  }

  lemma GroupGone(codec: Codec, d0: Db, d: Db, selected: seq<Candidate>, run: RunId, before: Time)
    requires Valid(codec, d0) && Valid(codec, d) && NoReuse(d0, d) && SameRows(d0, d, run)
    requires Ids(selected) <= JournalRows(d0, before) && Group(d0, selected, run) != {}
    ensures var (e, n) := Retention.PurgeJournalRun(d, run, Group(d0, selected, run), before);
      && n == |Group(d0, selected, run)| && Without(d, e, Group(d0, selected, run))
      && e.registry == (if OrdinalsOf(e, run) == {} then d.registry - {run} else d.registry) && OrdinalsOf(d, run) != {}
      && Valid(codec, e) && NoReuse(d0, e)
      && forall r | r != run :: SameRows(d, e, r)
  {
    hide Valid, NoReuse, SameRows, JournalRows, Group, Ids, EligibleOrdinals, Retention.PurgeJournalRun;
    var ordinals := Group(d0, selected, run);
    UntouchedGroupGoes(codec, d0, d, selected, run, before);
    JournalShapeGone(codec, d, run, ordinals, before);
    OrdinalKept(d, run, ordinals, before);
    PurgeJournalKeepsValid(codec, d, run, ordinals, before);
    PurgeJournalOnlyDeletes(d, run, ordinals, before);
    NoReuseTransitive(d0, d, Retention.PurgeJournalRun(d, run, ordinals, before).0);
    forall r | r != run ensures SameRows(d, Retention.PurgeJournalRun(d, run, ordinals, before).0, r) {
      PurgeJournalElsewhere(d, run, ordinals, before, r);
    }
  }

  lemma {:induction false} AllGroupsGo(codec: Codec, env: Environment, w: World, d0: Db, selected: seq<Candidate>, runs: seq<RunId>, before: Time)
    requires Quiescent(env) && Valid(codec, d0) && Valid(codec, w.d) && NoReuse(d0, w.d)
    requires Ids(selected) <= JournalRows(d0, before)
    requires forall i, j | 0 <= i < j < |runs| :: runs[i] != runs[j]
    requires forall i | 0 <= i < |runs| :: Group(d0, selected, runs[i]) != {} && SameRows(d0, w.d, runs[i])
    ensures var r := PurgeGroups(codec, env, w, d0, selected, runs, before);
      && Without(w.d, r.w.d, GroupsOf(d0, selected, runs)) && EmptiedDropped(w.d, r.w.d, runs)
      && TotalDeleted(r.deletions) == |GroupsOf(d0, selected, runs)|
    decreases |runs|
  {
    hide Valid, NoReuse, SameRows, JournalRows, Ids, Retention.PurgeJournalRun, Wait, Quiescent, Group, OrdinalsOf, EmptiedDropped, Without;
    if runs == [] {
      NothingWithout(w.d);
      assert GroupsOf(d0, selected, runs) == {};
    } else {
      var w1 := Wait(codec, env, w);
      QuietWait(codec, env, w);
      hide GroupsOf;
      var first := Group(d0, selected, runs[0]);
      GroupGone(codec, d0, w1.d, selected, runs[0], before);
      var e := Retention.PurgeJournalRun(w1.d, runs[0], first, before).0;
      forall i | 0 <= i < |runs[1..]| ensures SameRows(d0, e, runs[1..][i]) { SameRowsTransitive(d0, w.d, e, runs[i + 1]); }
      AllGroupsGo(codec, env, w1.(d := e), d0, selected, runs[1..], before);
      GroupsInTurn(codec, d0, w.d, e, PurgeGroups(codec, env, w1.(d := e), d0, selected, runs[1..], before).w.d, selected, runs, before);
    }
  }

  lemma GroupsInTurn(codec: Codec, d0: Db, d: Db, e: Db, f: Db, selected: seq<Candidate>, runs: seq<RunId>, before: Time)
    requires runs != [] && forall i, j | 0 <= i < j < |runs| :: runs[i] != runs[j]
    requires Valid(codec, d0) && NoReuse(d0, e) && Ids(selected) <= JournalRows(d0, before)
    requires Without(d, e, Group(d0, selected, runs[0])) && Without(e, f, GroupsOf(d0, selected, runs[1..]))
    requires e.registry == (if OrdinalsOf(e, runs[0]) == {} then d.registry - {runs[0]} else d.registry) && EmptiedDropped(e, f, runs[1..])
    ensures var first, rest, all := Group(d0, selected, runs[0]), GroupsOf(d0, selected, runs[1..]), GroupsOf(d0, selected, runs);
      Without(d, f, all) && EmptiedDropped(d, f, runs) && |all| == |first| + |rest|
  {
    hide Valid, NoReuse, JournalRows, Ids, Group, GroupsOf, OrdinalsOf, EmptiedDropped, Without;
    GroupsSplit(d0, selected, runs);
    var first, rest := Group(d0, selected, runs[0]), GroupsOf(d0, selected, runs[1..]);
    TwoParts(d, e, f, first, rest);
    JournalRowsAreEvents(d0, before);
    assert runs[0] !in runs[1..] && runs == [runs[0]] + runs[1..];
    WithoutEventsOf(e, f, rest);
    OtherGroups(codec, d0, e, f, selected, runs[1..], runs[0]);
    DroppedInTurn(d, e, f, runs[0], runs[1..]);
  }

  lemma NothingWithout(d: Db)
    ensures Without(d, d, {}) && EmptiedDropped(d, d, [])
  {
    assert d.events - {} == d.events && d.retention - {} == d.retention;
  }

  lemma WithoutEventsOf(d: Db, e: Db, gone: set<Ordinal>)
    requires Without(d, e, gone)
    ensures e.events == d.events - gone
  {}

  lemma TwoParts(d: Db, e: Db, f: Db, a: set<Ordinal>, b: set<Ordinal>)
    requires a !! b && Without(d, e, a) && Without(e, f, b)
    ensures Without(d, f, a + b) && |a + b| == |a| + |b|
  {
    assert d.events - a - b == d.events - (a + b) && d.retention - a - b == d.retention - (a + b);
  }

  /** On a store nobody else writes to, a journal purge deletes the oldest rows that fit, reports how many, and drops
      exactly the registry rows of the journals it empties. */
  lemma JournalPurgeCompletes(codec: Codec, env: Environment, w: World, request: JournalRequest)
    requires Valid(codec, w.d) && Quiescent(env) && ValidJournalRequest(request)
    ensures var r := PurgeRunLog(codec, env, w, request); var chosen := w.d.events.Keys - r.w.d.events.Keys;
      && OldestFitting(codec, w.d, request, chosen) && r.result == Ok(|chosen|)
      && r.w.d.events == w.d.events - chosen && r.w.d.retention == w.d.retention - chosen
      && r.w.d.checkpoints == w.d.checkpoints && r.w.d.heads == w.d.heads && r.w.d.nextOrdinal == w.d.nextOrdinal
      && (forall q :: q in r.w.d.registry <==>
            q in w.d.registry && ((exists o :: o in chosen && o in w.d.retention && w.d.retention[o].run == q) ==> OrdinalsOf(r.w.d, q) != {}))
      && (forall q | q in r.w.d.registry :: r.w.d.registry[q] == w.d.registry[q])
  {
    hide Valid, Quiescent, Wait, JournalSelection, RunOrder, Ids, PurgeGroups, JournalRows, GroupsOf, Group, OldestFitting, OrdinalsOf, EmptiedDropped, Without;
    QuietWait(codec, env, w);
    var w1 := Wait(codec, env, w);
    var selected := JournalSelection(codec, w1.d, request);
    var runs := RunOrder(w1.d, selected, []);
    SelectionIsBounded(codec, w1.d, request);
    SelectionIsOldest(codec, w1.d, request);
    StaysUsed(w1.d);
    OrderedGroups(w1.d, selected);
    AllRunsGrouped(w1.d, selected);
    forall i | 0 <= i < |runs| ensures SameRows(w1.d, w1.d, runs[i]) {}
    AllGroupsGo(codec, env, w1, w1.d, selected, runs, request.before);
    hide SameRows;
    var r := PurgeRunLog(codec, env, w, request);
    JournalRowsAreEvents(w.d, request.before);
    WholeSelectionGone(w.d, r.w.d, Ids(selected));
    SelectedRuns(w.d, selected, request.before);
    RegistryAfter(w.d, r.w.d, Ids(selected), runs);
  }

  lemma WholeSelectionGone(d: Db, e: Db, gone: set<Ordinal>)
    requires Without(d, e, gone) && gone <= d.events.Keys
    ensures d.events.Keys - e.events.Keys == gone
    ensures e.events == d.events - gone && e.retention == d.retention - gone
    ensures e.checkpoints == d.checkpoints && e.heads == d.heads && e.nextOrdinal == d.nextOrdinal
  {}

  lemma SelectedRuns(d: Db, selected: seq<Candidate>, before: Time)
    requires Ids(selected) <= JournalRows(d, before)
    ensures forall q :: q in RunOrder(d, selected, []) <==> exists o :: o in Ids(selected) && o in d.retention && d.retention[o].run == q
  {
    hide RunOrder;
    forall q ensures q in RunOrder(d, selected, []) <==> exists o :: o in Ids(selected) && o in d.retention && d.retention[o].run == q {
      if c :| c in selected && RetainedRun(d, c.id) == q { assert c.id in Ids(selected) && c.id in JournalRows(d, before); }
      if o :| o in Ids(selected) && o in d.retention && d.retention[o].run == q { var c :| c in selected && c.id == o; }
    }
  }

  lemma RegistryAfter(d: Db, e: Db, chosen: set<Ordinal>, runs: seq<RunId>)
    requires EmptiedDropped(d, e, runs)
    requires forall q :: q in runs <==> exists o :: o in chosen && o in d.retention && d.retention[o].run == q
    ensures forall q :: q in e.registry <==>
      q in d.registry && ((exists o :: o in chosen && o in d.retention && d.retention[o].run == q) ==> OrdinalsOf(e, q) != {})
    ensures forall q | q in e.registry :: e.registry[q] == d.registry[q]
  {
    hide OrdinalsOf;
  }

  lemma OrderedGroups(d: Db, selected: seq<Candidate>)
    ensures var runs := RunOrder(d, selected, []);
      && (forall i, j | 0 <= i < j < |runs| :: runs[i] != runs[j])
      && forall i | 0 <= i < |runs| :: Group(d, selected, runs[i]) != {}
  {
    var runs := RunOrder(d, selected, []);
    forall i | 0 <= i < |runs| ensures Group(d, selected, runs[i]) != {} {
      assert runs[i] in runs;
      var c :| c in selected && RetainedRun(d, c.id) == runs[i];
      assert c.id in Group(d, selected, runs[i]);
    }
  }
}
