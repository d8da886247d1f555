/**
 Where the SQL store and the in-memory store do the same thing by different means: the lemmas
 behind the proofs of module SqliteStore.
 */
module SqlAgreement {
  import opened Types
  import opened StoreSpec
  import opened StoreInv
  import R = StoreResults
  import opened SqlTables
  import opened SqlReap

  // ---------------------------------------------------------------- what a commit writes

  function CommittedRow(row: RunRow, c: Commit): RunRow {
    if c.finish.None? then row
    else row.(status := c.finish.value.status, finishReason := Some(c.finish.value.reason), owner := None,
              lease := None, expires := None)
  }

  /** The tables after an accepted commit. */
  ghost function CommittedTables(db: Tables, s: Store, c: Commit): Tables
    requires c.run in db.runs
  {
    Tables(db.sessions, db.runs[c.run := CommittedRow(db.runs[c.run], c)],
           if c.finish.None? then db.threadLeases else DeleteThread(db.threadLeases, c.run),
           InsertEvents(db.events, c.run, c.events, |c.events|),
           WithCheckpoint(db.checkpoints, c),
           ApplyEntries(s.log, Home(c.scope, c.session), c.run, db.runs[c.run].thread, c.entries, |c.entries|).entries,
           OverwriteEffects(db.effects, c.run, c.effects, |c.effects|),
           ApplyItems(db.items, c.run, c.items, |c.items|))
  }

  /** The store after an accepted commit whose updates also overwrite effects that are done. */
  ghost function CommittedStore(s: Store, c: Commit): Store
    requires c.run in s.runs && EffectsPresent(s.effects, c.run, c.effects)
  {
    Committed(s, c).(effects := OverwriteEffects(s.effects, c.run, c.effects, |c.effects|))
  }

  lemma RowsChanged(rows: map<RunId, RunRow>, runs: map<RunId, Run>, r: RunId, run: Run)
    requires RowsMatch(rows, runs) && r in runs
    ensures RowsMatch(rows[r := RowOf(run)], runs[r := run])
  {
  }

  lemma CommittedEventsMatch(db: Tables, s: Store, c: Commit)
    requires Valid(s) && EventsMatch(db.events, s.runs) && Sound(s, c)
    ensures EventsMatch(InsertEvents(db.events, c.run, c.events, |c.events|),
                        s.runs[c.run := CommittedRun(s.runs[c.run], c)])
  {
    var run := s.runs[c.run];
    assert LogOk(run);
    hide OneRunning, LeasesOk, CheckpointsOk, KeysOk, EntriesDense, EventsMatch, RunsOk, CommitShapeOk, InsertEvents;
    LogExtends(run, c.events);
    EventsAppended(db.events, s.runs, c.run, c.events, CommittedRun(run, c));
  }

  lemma CommittedStoreValid(s: Store, c: Commit)
    requires Valid(s) && Sound(s, c)
    ensures Valid(CommittedStore(s, c))
  {
    CommittedValid(s, c);
    hide OneRunning, LeasesOk, CheckpointsOk, KeysOk, EntriesDense, RunsOk, Sound;
    hide OverwriteEffects, ApplyEffects, ApplyItems, ApplyEntries, CommittedRun;
  }

  lemma CommittedRunsMatch(db: Tables, s: Store, c: Commit)
    requires Valid(s) && Related(db, s) && Sound(s, c)
    ensures var runs := s.runs[c.run := CommittedRun(s.runs[c.run], c)];
            && c.run in db.runs && db.runs[c.run].thread == s.runs[c.run].start.thread
            && RowsMatch(db.runs[c.run := CommittedRow(db.runs[c.run], c)], runs)
            && EventsMatch(InsertEvents(db.events, c.run, c.events, |c.events|), runs)
            && SessionsMatch(db.sessions, runs)
            && DeleteThread(s.threadLeases, c.run) == s.threadLeases - {s.runs[c.run].start.thread}
  {
    CommittedEventsMatch(db, s, c);
    DeleteByRunIsByThread(s, c.run);
    CommittedRowAgrees(s.runs[c.run], c);
    hide Valid, EventsMatch, CommitShapeOk, Increases, InsertEvents, DeleteThread, RowsMatch, RowOf, CommittedRow;
    RowsChanged(db.runs, s.runs, c.run, CommittedRun(s.runs[c.run], c));
    RowFound(db.runs, s.runs, c.run);
  }

  lemma CommittedRelated(db: Tables, s: Store, c: Commit)
    requires Valid(s) && Related(db, s) && Sound(s, c)
    ensures c.run in db.runs && Related(CommittedTables(db, s, c), CommittedStore(s, c))
  {
    CommittedRunsMatch(db, s, c);
    hide Valid, EventsMatch, RowsMatch, SessionsMatch, CommitShapeOk, Increases;
    hide InsertEvents, OverwriteEffects, ApplyEffects, ApplyItems, ApplyEntries, DeleteThread, CommittedRow, CommittedRun;
  }

  lemma CommittedRowAgrees(run: Run, c: Commit)
    requires CommitShapeOk(c)
    ensures RowOf(CommittedRun(run, c)) == CommittedRow(RowOf(run), c)
  {
  }

  lemma RowFound(rows: map<RunId, RunRow>, runs: map<RunId, Run>, r: RunId)
    requires RowsMatch(rows, runs) && r in runs
    ensures r in rows && rows[r] == RowOf(runs[r]) && rows[r].thread == runs[r].start.thread
  {
  }

  /** With the updates that the library's constructors build, and no error on a done effect,
      the SQL commit is the commit of the in-memory store. */
  lemma ConstructedCommitsAgree(s: Store, c: Commit, now: int)
    requires PlanCommit(s, c, now) == Accept && DoneClean(s.effects)
    requires forall i :: 0 <= i < |c.effects| ==> c.effects[i].Constructed()
    ensures EffectsPresent(s.effects, c.run, c.effects)
    ensures CommittedStore(s, c) == Committed(s, c) && DoneClean(Committed(s, c).effects)
  {
    AcceptedSound(s, c, now);
    ConstructedRewritesNothing(s.effects, c.run, c.effects);
    OverwriteAgrees(s.effects, c.run, c.effects);
    ConstructedStaysClean(s.effects, c.run, c.effects, |c.effects|);
  }

  // ---------------------------------------------------------------- agreement of results

  /** What the SQL store answers where the in-memory store answers `plan`: the same, except that
      a commit under another scope is skipped and that a commit with several faults may name
      another one of them. */
  ghost predicate Answers(s: Store, c: Commit, plan: Plan, r: Result<CommitResult>) {
    match plan
    case Accept => r == Ok(CommitReply(c))
    case Reply(q) => r == Ok(q)
    case Reject(e) =>
      if !CommitEmpty(c) && CommitShapeOk(c) && c.run in s.runs && s.runs[c.run].start.scope != c.scope
      then r == Ok(Skipped)
      else r.Err?
  }

  /** The row can be inserted: the number is free and there is no other terminal event. */
  predicate Insertable(events: map<EventKey, Event>, e: Event) {
    && EventKey(e.run, e.num) !in events
    && (e.terminal ==> forall k :: k in events && k.run == e.run ==> !events[k].terminal)
  }

  ghost predicate NoTerminalRow(events: map<EventKey, Event>, run: RunId) {
    forall k :: k in events && k.run == run ==> !events[k].terminal
  }

  /** Running runs have no terminal event row. */
  lemma RunningHasNoTerminal(db: Tables, s: Store, r: RunId)
    requires EventsMatch(db.events, s.runs) && r in s.runs && LogOk(s.runs[r]) && s.runs[r].status == Running
    ensures NoTerminalRow(db.events, r)
  {
  }

  /** A terminal run has one terminal event row: its last event. */
  lemma TerminalRow(db: Tables, s: Store, r: RunId, k: EventKey)
    requires EventsMatch(db.events, s.runs) && r in s.runs && LogOk(s.runs[r])
    requires k in db.events && k.run == r && db.events[k].terminal
    ensures s.runs[r].terminalEvent == Some(db.events[k])
  {
  }

  lemma TerminalRowExists(db: Tables, s: Store, r: RunId)
    requires EventsMatch(db.events, s.runs) && r in s.runs && LogOk(s.runs[r]) && s.runs[r].terminalEvent.Some?
    ensures !NoTerminalRow(db.events, r)
  {
    var log := s.runs[r].events;
    assert EventKey(r, log[|log| - 1].num) in db.events;
  }

  ghost predicate AllConstructed(c: Commit) {
    forall i :: 0 <= i < |c.effects| ==> c.effects[i].Constructed()
  }

  ghost predicate CommitsTo(s: Store, c: Commit, next: Store) {
    c.run in s.runs && EffectsPresent(s.effects, c.run, c.effects) && next == CommittedStore(s, c)
  }

  /** What is known of the rows of a run that is in the tables under its own scope. */
  lemma GuardFacts(db: Tables, s: Store, r: RunId)
    requires Valid(s) && Related(db, s)
    ensures r in db.runs <==> r in s.runs
    ensures r in s.runs ==>
              && db.runs[r] == RowOf(s.runs[r])
              && (s.runs[r].status.IsTerminal() <==> s.runs[r].terminalEvent.Some?)
              && (s.runs[r].terminalEvent.Some? ==> !NoTerminalRow(db.events, r))
              && (forall k :: k in db.events && k.run == r && db.events[k].terminal ==>
                    s.runs[r].terminalEvent == Some(db.events[k]))
  {
    if r in s.runs {
      assert LogOk(s.runs[r]);
      RowFound(db.runs, s.runs, r);
      forall k | k in db.events && k.run == r && db.events[k].terminal
        ensures s.runs[r].terminalEvent == Some(db.events[k])
      {
        TerminalRow(db, s, r, k);
      }
      if s.runs[r].terminalEvent.Some? {
        TerminalRowExists(db, s, r);
      }
    }
  }

  lemma AcceptedCommit(db: Tables, s: Store, c: Commit, now: int)
    requires Valid(s) && Related(db, s) && PlanCommit(s, c, now) == Accept
    ensures c.run in s.runs && c.run in db.runs && EffectsPresent(s.effects, c.run, c.effects)
    ensures Valid(CommittedStore(s, c)) && Related(CommittedTables(db, s, c), CommittedStore(s, c))
    ensures DoneClean(s.effects) && AllConstructed(c) ==>
              CommittedStore(s, c) == CommitRun(s, c, now).0 && DoneClean(CommittedStore(s, c).effects)
  {
    hide Valid, Related, PlanCommit, Sound, CommitReply;
    AcceptedSound(s, c, now);
    assert EffectsPresent(s.effects, c.run, c.effects) && c.run in s.runs by { SoundPresent(s, c); }
    CommittedStoreValid(s, c);
    CommittedRelated(db, s, c);
    if DoneClean(s.effects) && AllConstructed(c) {
      ConstructedCommitsAgree(s, c, now);
    }
  }

  lemma SoundPresent(s: Store, c: Commit)
    requires Sound(s, c)
    ensures c.run in s.runs && EffectsPresent(s.effects, c.run, c.effects)
  {
  }

  lemma RunningRejects(s: Store, c: Commit, now: int)
    requires CommitReady(s, c) && PlanCommit(s, c, now) != Accept
    requires PlanCommit(s, c, now) == PlanRunning(s, s.runs[c.run], c, now)
    ensures PlanCommit(s, c, now).Reject?
    ensures s.runs[c.run].start.scope == c.scope
  {
  }

  lemma RunningError(s: Store, c: Commit, now: int)
    requires CommitReady(s, c) && !CommitEmpty(c) && PlanCommit(s, c, now) != Accept
    ensures SqlCommitAnswer(s, c, now) == Err(SqlCommitError(s, c, now))
  {
    hide SqlCommitError, PlanRunning, CommitShapeOk;
    PlanIsNoReply(s, c, now);
  }

  lemma PlanIsNoReply(s: Store, c: Commit, now: int)
    requires c.run in s.runs
    ensures !PlanRunning(s, s.runs[c.run], c, now).Reply?
  {
  }

  lemma AcceptedAnswer(s: Store, c: Commit, now: int)
    requires PlanCommit(s, c, now) == Accept
    ensures SqlCommitAnswer(s, c, now) == Ok(CommitReply(c))
  {
    AcceptedSound(s, c, now);
    hide PlanCommit, CommitReply, Increases, EffectsPresent;
  }

  /** Both stores refuse a commit to a running run with the same error, as long as its numbers increase
      and no update to reserved or started names an effect that is missing. */
  lemma SameCommitError(s: Store, c: Commit, now: int)
    requires Valid(s) && CommitReady(s, c) && !CommitEmpty(c) && PlanCommit(s, c, now) != Accept
    requires Increases(s.runs[c.run].events, c.events)
    requires forall i :: 0 <= i < |c.effects| && c.effects[i].status in {Reserved, Started} ==>
               RunKey(c.run, c.effects[i].key) in s.effects
    ensures CommitRun(s, c, now).1 == SqlCommitAnswer(s, c, now)
  {
    RunningError(s, c, now);
    SameEffectError(s.effects, c.run, c.effects, |c.effects|);
    if CheckLease(s.runs[c.run], c.lease, now).Pass? && c.checkpoint.Some? {
      R.ThreadCheckPasses(s, c.run, c.checkpoint.value, c.lease, now);
    }
    R.PlanOfRunning(s, c, now);
    hide Valid, CommitShapeOk, CommitEmpty, PlanCommit, CheckEffects, SqlCheckEffects, ItemsOk, EntriesOk, Increases;
    hide Busy, SqlCommitAnswer;
  }

  lemma {:induction false} SameEffectError(effects: map<RunKey, Effect>, run: RunId, updates: seq<EffectUpdate>, n: nat)
    requires n <= |updates|
    requires forall i :: 0 <= i < |updates| && updates[i].status in {Reserved, Started} ==>
               RunKey(run, updates[i].key) in effects
    ensures SqlCheckEffects(effects, run, updates, n) == CheckEffects(effects, run, updates, n)
  {
    if n > 0 {
      SameEffectError(effects, run, updates, n - 1);
      hide EffectKeyRepeats;
    }
  }

  lemma ShapeHasEvents(s: Store, c: Commit)
    requires CommitReady(s, c) && c.finish.Some?
    ensures |c.events| > 0
  {
  }

  // ---------------------------------------------------------------- single events are commits

  function RecordCommit(run: RunId, scope: Scope, event: Event): Commit {
    Commit(run, event.session, scope, None, None, [event], [], [], [], None)
  }

  function FinishCommit(f: FinishRecord): Commit {
    Commit(f.run, f.session, f.scope, None, None, [f.terminalEvent], [], [], f.entries,
           Some(RunFinish(f.run, f.session, f.status, f.reason)))
  }

  /** The event has a positive number and names a run under its own scope and session. */
  ghost predicate WellAddressed(s: Store, run: RunId, scope: Scope, event: Event) {
    && event.num > 0 && event.run == run
    && (run in s.runs ==> s.runs[run].start.scope == scope && s.runs[run].start.session == event.session)
  }

  /** Both answer with the same value, or both with an error. */
  ghost predicate SameAnswer<T>(a: Result<T>, b: Result<T>) {
    if b.Ok? then a == b else a.Err?
  }

  lemma RecordIsCommit(s: Store, run: RunId, scope: Scope, event: Event, now: int)
    requires Valid(s)
    ensures var c := RecordCommit(run, scope, event);
            var want := RecordEvent(s, run, scope, event);
            && want.0 == (if PlanCommit(s, c, now) == Accept then CommittedStore(s, c) else s)
            && (want.1 == Ok(true) <==> PlanCommit(s, c, now) == Accept)
            && (PlanCommit(s, c, now) == Accept ==> CommitReply(c) == Recorded([event]))
            && (WellAddressed(s, run, scope, event) ==>
                  match PlanCommit(s, c, now)
                  case Accept => true
                  case Reply(q) => q == Skipped && want.1 == Ok(false)
                  case Reject(e) => want.1.Err? && (run in s.runs ==> s.runs[run].start.scope == scope))
  {
    var c := RecordCommit(run, scope, event);
    EventsOnly(s, c);
    hide Valid, CheckEffects, ItemsOk, Increases, CommittedStore, CheckThread;
    assert c.events == [event] && c.events[0] == event;
  }

  /** A commit without a checkpoint, effects and items changes the run, its thread lease and the
      entries. */
  lemma EventsOnly(s: Store, c: Commit)
    requires c.checkpoint.None? && c.effects == [] && c.items == []
    ensures CheckEffects(s.effects, c.run, c.effects, |c.effects|).Pass? && ItemsOk(s.items, c.run, c.items)
    ensures EffectsPresent(s.effects, c.run, c.effects)
    ensures c.run in s.runs ==>
              CommittedStore(s, c)
              == s.(runs := s.runs[c.run := CommittedRun(s.runs[c.run], c)],
                    threadLeases := if c.finish.None? then s.threadLeases
                                    else s.threadLeases - {s.runs[c.run].start.thread},
                    log := ApplyEntries(s.log, Home(c.scope, c.session), c.run, s.runs[c.run].start.thread, c.entries,
                                        |c.entries|))
  {
    hide ApplyEntries, CommittedRun;
  }

  function WithCheckpoint(checkpoints: map<ThreadId, CheckpointRecord>, c: Commit): map<ThreadId, CheckpointRecord> {
    if c.checkpoint.None? then checkpoints
    else checkpoints[c.checkpoint.value.thread := c.checkpoint.value.record]
  }

  /** The check of one update, in the order of the SQL store. */
  function SqlCheckEffect(effects: map<RunKey, Effect>, run: RunId, updates: seq<EffectUpdate>, i: nat): Outcome
    requires i < |updates|
  {
    var u := updates[i];
    var k := RunKey(run, u.key);
    if EffectKeyRepeats(updates, i) then Fail(EffectConflict)
    else if u.status == Reserved || u.status == Started then Fail(InvalidRunEvent)
    else if k !in effects then Fail(EffectNotFound)
    else if effects[k].status == Done && (u.status != Done || effects[k].result != u.result)
    then Fail(EffectConflict)
    else Pass
  }

  function SqlCheckEffects(effects: map<RunKey, Effect>, run: RunId, updates: seq<EffectUpdate>, n: nat): Outcome
    requires n <= |updates|
  {
    if n == 0 then Pass
    else
      var before := SqlCheckEffects(effects, run, updates, n - 1);
      if before.Fail? then before else SqlCheckEffect(effects, run, updates, n - 1)
  }

  lemma {:induction false} SqlEffectsPass(effects: map<RunKey, Effect>, run: RunId, updates: seq<EffectUpdate>, n: nat)
    requires n <= |updates|
    ensures SqlCheckEffects(effects, run, updates, n).Pass? <==> CheckEffects(effects, run, updates, n).Pass?
  {
    if n > 0 {
      SqlEffectsPass(effects, run, updates, n - 1);
      hide EffectKeyRepeats;
    }
  }

  lemma {:induction false} SqlFirstFailure(effects: map<RunKey, Effect>, run: RunId, updates: seq<EffectUpdate>,
                                           i: nat, n: nat)
    requires i < n <= |updates| && SqlCheckEffects(effects, run, updates, i).Pass?
    requires SqlCheckEffect(effects, run, updates, i).Fail?
    ensures SqlCheckEffects(effects, run, updates, n) == SqlCheckEffect(effects, run, updates, i)
    decreases n
  {
    if i + 1 < n {
      SqlFirstFailure(effects, run, updates, i, n - 1);
    }
  }

  /** Which of its checks a commit fails first, in the tables. */
  function ChecksError(db: Tables, c: Commit, row: RunRow, now: int): Error {
    var effects := SqlCheckEffects(db.effects, c.run, c.effects, |c.effects|);
    if CheckRowLease(row, c.lease, now).Fail? then LeaseLost
    else if c.checkpoint.Some? && CheckRowThread(db, row, c, c.checkpoint.value, now).Fail? then
      CheckRowThread(db, row, c, c.checkpoint.value, now).error
    else if effects.Fail? then effects.error
    else ItemConflict
  }

  /** Which error the SQL store refuses a commit to a running run with. It looks at the numbers after
      the effects and items. */
  function SqlCommitError(s: Store, c: Commit, now: int): Error
    requires c.run in s.runs
  {
    var run := s.runs[c.run];
    var effects := SqlCheckEffects(s.effects, c.run, c.effects, |c.effects|);
    if CheckLease(run, c.lease, now).Fail? then LeaseLost
    else if c.checkpoint.Some? && c.checkpoint.value.thread != run.start.thread then InvalidRunEvent
    else if c.checkpoint.Some? && c.checkpoint.value.record.run != Some(c.run) then CheckpointRun
    else if effects.Fail? then effects.error
    else if !ItemsOk(s.items, c.run, c.items) then ItemConflict
    else if !Increases(run.events, c.events) then InvalidRunEvent
    else EntryConflict
  }

  /** What the SQL store answers to a commit. */
  function SqlCommitAnswer(s: Store, c: Commit, now: int): Result<CommitResult> {
    if CommitEmpty(c) || !CommitShapeOk(c) then Err(InvalidRunEvent)
    else if c.run !in s.runs || s.runs[c.run].start.scope != c.scope then Ok(Skipped)
    else if PlanCommit(s, c, now).Reply? then Ok(PlanCommit(s, c, now).result)
    else if s.runs[c.run].start.session != c.session then Err(InvalidRunEvent)
    else if PlanCommit(s, c, now) == Accept then Ok(CommitReply(c))
    else Err(SqlCommitError(s, c, now))
  }

  ghost predicate ChecksPass(db: Tables, c: Commit, row: RunRow, now: int) {
    && CheckRowLease(row, c.lease, now).Pass?
    && (c.checkpoint.Some? ==> CheckRowThread(db, row, c, c.checkpoint.value, now).Pass?)
    && CheckEffects(db.effects, c.run, c.effects, |c.effects|).Pass?
    && ItemsOk(db.items, c.run, c.items)
  }

  ghost predicate WritesReady(db: Tables, s: Store, c: Commit) {
    && c.run in s.runs
    && RowsOfLog(db.events, c.run, s.runs[c.run].events) && NoTerminalRow(db.events, c.run)
    && (forall k :: k in db.events && k.run == c.run ==> k.num <= LastNum(s.runs[c.run].events))
    && (forall i, j :: 0 <= i < j < |s.runs[c.run].events| ==>
          s.runs[c.run].events[i].num < s.runs[c.run].events[j].num)
    && (forall i :: 0 <= i < |c.events| ==> c.events[i].run == c.run)
    && (forall i :: 0 <= i < |c.events| && c.events[i].terminal ==> i == |c.events| - 1)
    && db.entries == s.log.entries && EntriesDense(s.log) && Home(c.scope, c.session) in db.sessions
  }

  lemma CheckpointKeepsReady(db: Tables, checkpoints: map<ThreadId, CheckpointRecord>, s: Store, c: Commit)
    requires WritesReady(db, s, c)
    ensures WritesReady(db.(checkpoints := checkpoints), s, c)
  {
  }

  ghost function Written(db: Tables, s: Store, c: Commit, thread: ThreadId): Tables {
    db.(events := InsertEvents(db.events, c.run, c.events, |c.events|),
        effects := OverwriteEffects(db.effects, c.run, c.effects, |c.effects|),
        items := ApplyItems(db.items, c.run, c.items, |c.items|),
        entries := ApplyEntries(s.log, Home(c.scope, c.session), c.run, thread, c.entries, |c.entries|).entries)
  }

  /** The guards of a commit have passed. */
  ghost predicate CommitReady(s: Store, c: Commit) {
    && CommitShapeOk(c) && c.run in s.runs && s.runs[c.run].status == Running
    && s.runs[c.run].start.scope == c.scope && s.runs[c.run].start.session == c.session
  }

  lemma ReadyFacts(db: Tables, s: Store, c: Commit)
    requires Valid(s) && Related(db, s) && CommitReady(s, c)
    ensures WritesReady(db, s, c)
    ensures c.run in db.runs && db.runs[c.run].thread == s.runs[c.run].start.thread
    ensures db.effects == s.effects && db.items == s.items && db.entries == s.log.entries
  {
    hide OneRunning, LeasesOk, CheckpointsOk, KeysOk, EntriesDense, RowsMatch, NoTerminalRow, CommitShapeOk;
    var log := s.runs[c.run].events;
    RunLog(db, s, c.run);
    hide RunsOk, EventsMatch;
    RowFound(db.runs, s.runs, c.run);
    assert HomeOf(s.runs[c.run].start) == Home(c.scope, c.session);
    ReadyEvents(s, c);
    if |log| > 0 {
      LogHasMaxRow(db.events, c.run, log);
    }
  }

  lemma ReadyEvents(s: Store, c: Commit)
    requires CommitReady(s, c)
    ensures forall i :: 0 <= i < |c.events| ==> c.events[i].run == c.run
    ensures forall i :: 0 <= i < |c.events| && c.events[i].terminal ==> i == |c.events| - 1
  {
  }

  /** The event rows of a running run. */
  lemma RunLog(db: Tables, s: Store, r: RunId)
    requires RunsOk(s.runs) && EventsMatch(db.events, s.runs) && r in s.runs && s.runs[r].status == Running
    ensures RowsOfLog(db.events, r, s.runs[r].events) && NoTerminalRow(db.events, r)
    ensures forall i, j :: 0 <= i < j < |s.runs[r].events| ==> s.runs[r].events[i].num < s.runs[r].events[j].num
  {
    assert LogOk(s.runs[r]);
    RunningHasNoTerminal(db, s, r);
  }

  /** The SQL checks accept exactly the commits that the in-memory checks accept. */
  lemma PlanAgrees(db: Tables, s: Store, c: Commit, now: int)
    requires Valid(s) && Related(db, s) && CommitReady(s, c) && c.run in db.runs
    ensures PlanRunning(s, s.runs[c.run], c, now) == Accept <==>
            && ChecksPass(db, c, db.runs[c.run], now)
            && Above(c.events, LastNum(s.runs[c.run].events))
            && EntriesOk(db.entries, Home(c.scope, c.session), c.entries)
  {
    var run := s.runs[c.run];
    LeaseCheckAgrees(db, s, c, now);
    assert Increases(run.events, c.events) <==> Above(c.events, LastNum(run.events)) by { AboveIncreases(s, c); }
    if c.checkpoint.Some? && CheckLease(run, c.lease, now).Pass? {
      ThreadCheckAgrees(db, s, c, now);
    }
    hide Valid, RowsMatch, EventsMatch, SessionsMatch, CommitReady, CheckThread, CheckRowThread, CheckLease;
    hide CheckRowLease, CheckEffects, ItemsOk, EntriesOk, Above, Increases;
  }

  lemma LeaseErrorIs(row: RunRow, lease: Option<LeaseId>, now: int)
    ensures CheckRowLease(row, lease, now).Fail? ==> CheckRowLease(row, lease, now) == Fail(LeaseLost)
  {
  }

  /** After the lease check only the thread and the run of a checkpoint can be wrong. */
  lemma ThreadError(db: Tables, s: Store, c: Commit, now: int)
    requires Valid(s) && Related(db, s) && CommitReady(s, c) && c.checkpoint.Some?
    requires CheckLease(s.runs[c.run], c.lease, now).Pass?
    ensures c.run in db.runs
    ensures var cp := c.checkpoint.value;
            CheckRowThread(db, db.runs[c.run], c, cp, now)
            == if cp.thread != s.runs[c.run].start.thread then Fail(InvalidRunEvent)
               else if cp.record.run != Some(c.run) then Fail(CheckpointRun) else Pass
  {
    ReadyFacts(db, s, c);
    ThreadCheckAgrees(db, s, c, now);
    R.ThreadCheckPasses(s, c.run, c.checkpoint.value, c.lease, now);
    hide Valid, Related, RowBusy, CheckThread;
  }

  /** The first fault in the tables is the one named by `SqlCommitError`. */
  lemma ErrorAgrees(db: Tables, s: Store, c: Commit, now: int)
    requires Valid(s) && Related(db, s) && CommitReady(s, c)
    ensures c.run in db.runs
    ensures if !ChecksPass(db, c, db.runs[c.run], now)
            then ChecksError(db, c, db.runs[c.run], now) == SqlCommitError(s, c, now)
            else SqlCommitError(s, c, now)
                 == if Above(c.events, LastNum(s.runs[c.run].events)) then EntryConflict else InvalidRunEvent
  {
    ReadyFacts(db, s, c);
    LeaseCheckAgrees(db, s, c, now);
    AboveIncreases(s, c);
    SqlEffectsPass(s.effects, c.run, c.effects, |c.effects|);
    if c.checkpoint.Some? && CheckLease(s.runs[c.run], c.lease, now).Pass? {
      ThreadError(db, s, c, now);
    }
    hide Valid, Related, CommitReady, CheckRowThread, CheckLease, CheckRowLease, CheckEffects, SqlCheckEffects, ItemsOk;
    hide Above, Increases, WritesReady;
  }

  lemma LeaseCheckAgrees(db: Tables, s: Store, c: Commit, now: int)
    requires Related(db, s) && c.run in s.runs
    ensures c.run in db.runs
            && CheckRowLease(db.runs[c.run], c.lease, now) == CheckLease(s.runs[c.run], c.lease, now)
  {
    assert db.runs[c.run] == RowOf(s.runs[c.run]);
  }

  lemma AboveIncreases(s: Store, c: Commit)
    requires CommitReady(s, c)
    ensures Increases(s.runs[c.run].events, c.events) <==> Above(c.events, LastNum(s.runs[c.run].events))
  {
  }

  /** The first `i` rows are in the table, and `top` is the highest number of the run. */
  ghost predicate Inserting(first: Tables, db: Tables, run: RunId, rows: seq<Event>, last: int, top: int, i: nat) {
    && i <= |rows|
    && db == first.(events := InsertEvents(first.events, run, rows, i))
    && top == (if i == 0 then last else rows[i - 1].num)
    && (forall j :: 0 < j < i ==> rows[j - 1].num < rows[j].num) && (i > 0 ==> last < rows[0].num)
    && (forall k :: k in db.events && k.run == run ==> k.num <= top)
    && (i < |rows| ==> NoTerminalRow(db.events, run))
  }

  lemma InsertStep(first: Tables, db: Tables, run: RunId, rows: seq<Event>, last: int, top: int, i: nat)
    requires i < |rows| && Inserting(first, db, run, rows, last, top, i) && rows[i].num > top
    requires rows[i].run == run && (rows[i].terminal ==> i == |rows| - 1)
    ensures Inserting(first, db.(events := db.events[EventKey(run, rows[i].num) := rows[i]]), run, rows, last,
                      rows[i].num, i + 1)
  {
  }

  /** The numbers increase and start above `last`. */
  predicate Above(rows: seq<Event>, last: int) {
    && (forall i :: 0 < i < |rows| ==> rows[i - 1].num < rows[i].num)
    && (|rows| > 0 ==> last < rows[0].num)
  }

  lemma TerminalKnown(s: Store, r: RunId)
    requires Valid(s)
    ensures r in s.runs ==> (s.runs[r].status.IsTerminal() <==> s.runs[r].terminalEvent.Some?)
  {
    if r in s.runs {
      assert LogOk(s.runs[r]);
    }
  }

  /** The finish takes place. */
  ghost predicate FinishGoes(s: Store, f: FinishRecord) {
    && EventFor(f.terminalEvent, f.run, f.session) && f.terminalEvent.terminal && f.status.IsTerminal()
    && f.run in s.runs && f.session == s.runs[f.run].start.session && f.scope == s.runs[f.run].start.scope
    && s.runs[f.run].status == Running && s.runs[f.run].lease.None?
    && EntriesOk(s.log.entries, Home(f.scope, f.session), f.entries)
    && Increases(s.runs[f.run].events, [f.terminalEvent])
  }

  lemma FinishGoesBySpec(s: Store, f: FinishRecord)
    ensures FinishRun(s, f).1 == Ok(Finished(f.terminalEvent)) <==> FinishGoes(s, f)
    ensures !FinishGoes(s, f) ==> FinishRun(s, f).0 == s
  {
    hide EntriesOk, Increases, ApplyEntries, FinishedRun;
  }

  lemma FinishGoesByPlan(s: Store, f: FinishRecord, now: int)
    ensures PlanCommit(s, FinishCommit(f), now) == Accept <==> FinishGoes(s, f)
    ensures CommitReply(FinishCommit(f)) == CommitFinished([f.terminalEvent], Finished(f.terminalEvent))
  {
    var c := FinishCommit(f);
    EventsOnly(s, c);
    assert c.events == [f.terminalEvent] && c.events[0] == f.terminalEvent;
    PositiveIfIncreases(s, f);
    hide CheckEffects, ItemsOk, CheckThread, EntriesOk, CommittedStore, Increases;
  }

  lemma PositiveIfIncreases(s: Store, f: FinishRecord)
    ensures FinishGoes(s, f) ==> f.terminalEvent.num > 0
  {
    assert [f.terminalEvent][0] == f.terminalEvent;
  }

  lemma FinishIsCommit(s: Store, f: FinishRecord, now: int)
    requires Valid(s)
    ensures var c := FinishCommit(f);
            var want := FinishRun(s, f);
            && want.0 == (if PlanCommit(s, c, now) == Accept then CommittedStore(s, c) else s)
            && (want.1 == Ok(Finished(f.terminalEvent)) <==> PlanCommit(s, c, now) == Accept)
            && CommitReply(c) == CommitFinished([f.terminalEvent], Finished(f.terminalEvent))
  {
    var c := FinishCommit(f);
    FinishGoesBySpec(s, f);
    FinishGoesByPlan(s, f, now);
    EventsOnly(s, c);
    if FinishGoes(s, f) {
      NoThreadLease(s.runs, s.threadLeases, f.run);
      assert s.threadLeases - {s.runs[f.run].start.thread} == s.threadLeases;
    }
    hide Valid, PlanCommit, CommitReply, CheckEffects, ItemsOk, Increases, CommittedStore, EntriesOk, ApplyEntries;
  }

  /** A commit that is answered without being carried out never says that it finished the run. */
  lemma PlanReplies(s: Store, c: Commit, now: int)
    ensures PlanCommit(s, c, now).Reply? ==>
              var q := PlanCommit(s, c, now).result;
              q.Skipped? || (q.CommitFinished? && q.result.AlreadyFinished?)
  {
    hide CommitShapeOk, CheckLease, CheckThread, CheckEffects, Increases, ItemsOk, EntriesOk;
  }

  /** Whatever the in-memory store answers to a well addressed finish, the commit answers too. */
  lemma FinishAnswersAlike(s: Store, f: FinishRecord, now: int)
    requires Valid(s) && WellAddressed(s, f.run, f.scope, f.terminalEvent)
    ensures var want := FinishRun(s, f).1;
            match PlanCommit(s, FinishCommit(f), now)
            case Accept => want == Ok(Finished(f.terminalEvent))
            case Reply(CommitFinished(_, result)) => want == Ok(result)
            case Reply(_) => want.Err?
            case Reject(e) => want.Err? && (f.run in s.runs ==> s.runs[f.run].start.scope == f.scope)
  {
    var c := FinishCommit(f);
    EventsOnly(s, c);
    TerminalKnown(s, f.run);
    hide Valid, CheckEffects, ItemsOk, Increases, CommittedStore, CheckThread, EntriesOk, ApplyEntries, FinishedRun;
    assert c.events == [f.terminalEvent] && c.events[0] == f.terminalEvent;
  }

  // ---------------------------------------------------------------- one run row changes

  lemma RunReplaced(db: Tables, s: Store, r: RunId, run: Run)
    requires Related(db, s) && r in s.runs && run.start == s.runs[r].start && run.events == s.runs[r].events
    ensures Related(db.(runs := db.runs[r := RowOf(run)]), s.(runs := s.runs[r := run]))
  {
    EventsUnchanged(db.events, s.runs, r, run);
    RowsChanged(db.runs, s.runs, r, run);
    hide EventsMatch, RowsMatch;
  }

  lemma SameTables(db: Tables, s: Store)
    requires Related(db, s)
    ensures db.effects == s.effects && db.items == s.items && db.threadLeases == s.threadLeases
    ensures db.entries == s.log.entries && db.checkpoints == s.checkpoints && db.runs.Keys == s.runs.Keys
  {
    hide EventsMatch, SessionsMatch;
  }

  lemma SpecOfReserve(s: Store, run: RunId, scope: Scope, lease: Option<LeaseId>, key: Key, kind: Value,
                      request: Value, now: int)
    requires CheckOpRun(s, run, scope, lease, now).Pass?
    ensures var (effects, r) := ReserveIn(s.effects, RunKey(run, key), kind, request);
            ReserveEffect(s, run, scope, lease, key, kind, request, now) == (s.(effects := effects), r)
            && (DoneClean(s.effects) ==> DoneClean(effects))
  {
    hide CheckOpRun;
  }

  lemma SpecOfStart(s: Store, run: RunId, scope: Scope, lease: Option<LeaseId>, key: Key, now: int)
    requires CheckOpRun(s, run, scope, lease, now).Pass?
    ensures var (effects, r) := StartIn(s.effects, RunKey(run, key));
            StartEffect(s, run, scope, lease, key, now) == (s.(effects := effects), r)
            && (DoneClean(s.effects) ==> DoneClean(effects))
  {
    hide CheckOpRun;
  }

  /** One run row and the thread leases change together. */
  lemma RunAndLeasesReplaced(db: Tables, s: Store, r: RunId, run: Run, leases: map<ThreadId, ThreadLease>)
    requires Related(db, s) && r in s.runs && run.start == s.runs[r].start && run.events == s.runs[r].events
    ensures Related(db.(runs := db.runs[r := RowOf(run)], threadLeases := leases),
                    s.(runs := s.runs[r := run], threadLeases := leases))
  {
    EventsUnchanged(db.events, s.runs, r, run);
    RowsChanged(db.runs, s.runs, r, run);
    hide EventsMatch, RowsMatch, RowOf;
  }

  /** INSERT OR IGNORE, then the comparison of what is there with what was asked for. */
  function ReserveIn(effects: map<RunKey, Effect>, k: RunKey, kind: Value, request: Value)
    : (map<RunKey, Effect>, Result<Effect>)
  {
    if k !in effects then
      var e := Effect(kind, request, Reserved, None, None, None);
      (effects[k := e], Ok(e))
    else (effects, if effects[k].kind != kind || effects[k].request != request then Err(EffectConflict)
                   else Ok(effects[k]))
  }

  function StartIn(effects: map<RunKey, Effect>, k: RunKey): (map<RunKey, Effect>, Result<Effect>) {
    if k !in effects then (effects, Err(EffectNotFound))
    else if effects[k].status.IsBlocking() then (effects, Err(EffectPending))
    else if effects[k].status == Done then (effects, Ok(effects[k]))
    else
      var e := effects[k].(status := Started, result := None, errorCode := None, errorMessage := None);
      (effects[k := e], Ok(e))
  }

  lemma ReserveAgrees(db: Tables, s: Store, run: RunId, scope: Scope, lease: Option<LeaseId>, key: Key, kind: Value,
                      request: Value, now: int)
    requires Valid(s) && Related(db, s) && CheckOpRow(db, run, scope, lease, now).Pass?
    ensures var (effects, r) := ReserveIn(db.effects, RunKey(run, key), kind, request);
            var next := s.(effects := effects);
            ReserveEffect(s, run, scope, lease, key, kind, request, now) == (next, r)
            && Valid(next) && Related(db.(effects := effects), next)
            && (DoneClean(s.effects) ==> DoneClean(effects))
  {
    hide Valid, Related, CheckOpRow, CheckOpRun, ReserveEffect, ReserveIn, DoneClean;
    OpRowAgrees(db, s, run, scope, lease, now);
    ReserveKeeps(s, run, scope, lease, key, kind, request, now);
    SameTables(db, s);
    SpecOfReserve(s, run, scope, lease, key, kind, request, now);
    EffectsReplaced(db, s, ReserveIn(db.effects, RunKey(run, key), kind, request).0);
  }

  lemma StartEffectAgrees(db: Tables, s: Store, run: RunId, scope: Scope, lease: Option<LeaseId>, key: Key, now: int)
    requires Valid(s) && Related(db, s) && CheckOpRow(db, run, scope, lease, now).Pass?
    ensures var (effects, r) := StartIn(db.effects, RunKey(run, key));
            var next := s.(effects := effects);
            StartEffect(s, run, scope, lease, key, now) == (next, r)
            && Valid(next) && Related(db.(effects := effects), next)
            && (DoneClean(s.effects) ==> DoneClean(effects))
  {
    hide Valid, Related, CheckOpRow, CheckOpRun, StartEffect, StartIn, DoneClean;
    OpRowAgrees(db, s, run, scope, lease, now);
    StartEffectKeeps(s, run, scope, lease, key, now);
    SameTables(db, s);
    SpecOfStart(s, run, scope, lease, key, now);
    EffectsReplaced(db, s, StartIn(db.effects, RunKey(run, key)).0);
  }

  lemma EffectsReplaced(db: Tables, s: Store, effects: map<RunKey, Effect>)
    requires Related(db, s)
    ensures Related(db.(effects := effects), s.(effects := effects))
  {
    hide EventsMatch, RowsMatch, SessionsMatch;
  }

  function CheckOpRow(db: Tables, run: RunId, scope: Scope, lease: Option<LeaseId>, now: int): Outcome {
    if run !in db.runs || db.runs[run].scope != scope || db.runs[run].status.IsTerminal()
    then Fail(RunNotFound)
    else CheckRowLease(db.runs[run], lease, now)
  }

  lemma OpRowAgrees(db: Tables, s: Store, run: RunId, scope: Scope, lease: Option<LeaseId>, now: int)
    requires Related(db, s)
    ensures CheckOpRow(db, run, scope, lease, now) == CheckOpRun(s, run, scope, lease, now)
  {
    if run in s.runs {
      RowFound(db.runs, s.runs, run);
    }
  }

  // ---------------------------------------------------------------- leases

  /** UPDATE runs SET lease_expires_at WHERE run, owner and lease match, running and not expired: is there such a row? */
  predicate RowRenews(db: Tables, ref: LeaseRef, now: int) {
    && ref.run in db.runs
    && var row := db.runs[ref.run];
    row.owner == Some(ref.owner) && row.lease == Some(ref.id) && row.status == Running
    && row.expires.Some? && row.expires.value > now
  }

  function RowRenewed(rows: map<RunId, RunRow>, r: RunId, until: int): map<RunId, RunRow> {
    if r in rows then rows[r := rows[r].(expires := Some(until))] else rows
  }

  /** The thread lease rows that the second update hits. */
  function RenewHits(leases: map<ThreadId, ThreadLease>, ref: LeaseRef, now: int): set<ThreadId> {
    set t | t in leases && LeaseRowOf(leases[t], ref) && leases[t].until > now
  }

  function ThreadsRenewed(leases: map<ThreadId, ThreadLease>, hits: set<ThreadId>, until: int)
    : map<ThreadId, ThreadLease>
  {
    map t | t in leases :: if t in hits then leases[t].(until := until) else leases[t]
  }

  /** The lease row that a run's own row names is the only one with that run. */
  lemma OneThreadRow(s: Store, ref: LeaseRef, t: ThreadId)
    requires LeasesOk(s.runs, s.threadLeases) && t in s.threadLeases && LeaseRowOf(s.threadLeases[t], ref)
    ensures Holds(s, ref) && s.runs[ref.run].start.thread == t
    ensures s.runs[ref.run].status == Running && s.threadLeases[t].until == s.runs[ref.run].lease.value.until
  {
    assert Projects(s.runs, t, s.threadLeases[t]);
  }

  lemma HeldThreadRow(s: Store, ref: LeaseRef)
    requires LeasesOk(s.runs, s.threadLeases) && Holds(s, ref)
    ensures s.runs[ref.run].status == Running
    ensures var t := s.runs[ref.run].start.thread;
            t in s.threadLeases && LeaseRowOf(s.threadLeases[t], ref)
            && s.threadLeases[t].until == s.runs[ref.run].lease.value.until
  {
    var t := s.runs[ref.run].start.thread;
    assert RunningOn(s.runs, ref.run, t);
    assert Projects(s.runs, t, s.threadLeases[t]);
  }

  /** The two updates hit one row each exactly when the in-memory store renews. */
  lemma RenewHitsOne(db: Tables, s: Store, ref: LeaseRef, now: int)
    requires Valid(s) && Related(db, s)
    ensures RowRenews(db, ref, now) && |RenewHits(db.threadLeases, ref, now)| == 1 <==> RenewOk(s, ref, now)
    ensures RenewOk(s, ref, now) ==> RenewHits(db.threadLeases, ref, now) == {s.runs[ref.run].start.thread}
  {
    if ref.run in s.runs {
      RowFound(db.runs, s.runs, ref.run);
    }
    if Holds(s, ref) {
      HeldThreadRow(s, ref);
    }
    forall u | u in RenewHits(db.threadLeases, ref, now) ensures Holds(s, ref) && u == s.runs[ref.run].start.thread {
      OneThreadRow(s, ref, u);
    }
    hide Valid, RowsMatch, EventsMatch, SessionsMatch;
    if Holds(s, ref) && s.runs[ref.run].lease.value.until > now {
      assert RenewHits(db.threadLeases, ref, now) == {s.runs[ref.run].start.thread};
    }
  }

  lemma RenewedRow(db: Tables, s: Store, ref: LeaseRef, until: int)
    requires Related(db, s) && ref.run in s.runs && s.runs[ref.run].lease.Some?
    ensures RowRenewed(db.runs, ref.run, until)
            == db.runs[ref.run := RowOf(s.runs[ref.run].(lease := Some(s.runs[ref.run].lease.value.(until := until))))]
  {
    RowFound(db.runs, s.runs, ref.run);
    hide Related;
  }

  lemma RenewedThread(leases: map<ThreadId, ThreadLease>, t: ThreadId, until: int)
    requires t in leases
    ensures ThreadsRenewed(leases, {t}, until) == leases[t := leases[t].(until := until)]
  {
  }

  lemma RenewAgrees(db: Tables, s: Store, ref: LeaseRef, ttl: nat, now: int)
    requires Valid(s) && Related(db, s) && RenewOk(s, ref, now)
    ensures Related(db.(runs := RowRenewed(db.runs, ref.run, now + ttl),
                        threadLeases := ThreadsRenewed(db.threadLeases, RenewHits(db.threadLeases, ref, now),
                                                       now + ttl)),
                    Renew(s, ref, ttl, now).0)
  {
    hide Valid, Related, RowRenewed, ThreadsRenewed, RenewHits, RowRenews, RowOf;
    var run := s.runs[ref.run];
    var t := run.start.thread;
    RenewHitsOne(db, s, ref, now);
    RenewedRow(db, s, ref, now + ttl);
    RenewedThread(s.threadLeases, t, now + ttl);
    SameTables(db, s);
    RunAndLeasesReplaced(db, s, ref.run, run.(lease := Some(run.lease.value.(until := now + ttl))),
                         s.threadLeases[t := s.threadLeases[t].(until := now + ttl)]);
  }

  lemma RenewRefines(db: Tables, s: Store, ref: LeaseRef, ttl: nat, now: int, renewed: bool, next: Tables)
    requires Valid(s) && Related(db, s)
    requires renewed <==> RowRenews(db, ref, now) && |RenewHits(db.threadLeases, ref, now)| == 1
    requires renewed ==>
               next == db.(runs := RowRenewed(db.runs, ref.run, now + ttl),
                           threadLeases := ThreadsRenewed(db.threadLeases, RenewHits(db.threadLeases, ref, now),
                                                          now + ttl))
    requires !renewed ==> next == db
    ensures Valid(Renew(s, ref, ttl, now).0) && Related(next, Renew(s, ref, ttl, now).0)
    ensures Renew(s, ref, ttl, now).1 == renewed
  {
    hide Valid, Related, RowRenews, RowRenewed, ThreadsRenewed, RenewHits, RenewOk;
    RenewHitsOne(db, s, ref, now);
    RenewKeeps(s, ref, ttl, now);
    if renewed {
      RenewAgrees(db, s, ref, ttl, now);
    }
  }

  predicate RowHolds(db: Tables, ref: LeaseRef) {
    && ref.run in db.runs
    && var row := db.runs[ref.run];
    row.owner == Some(ref.owner) && row.lease == Some(ref.id) && row.status == Running
  }

  function RowReleased(db: Tables, ref: LeaseRef): map<RunId, RunRow> {
    if RowHolds(db, ref) then db.runs[ref.run := db.runs[ref.run].(owner := None, lease := None, expires := None)]
    else db.runs
  }

  /** DELETE FROM thread_leases WHERE run, owner and lease match */
  function ThreadsLeft(leases: map<ThreadId, ThreadLease>, ref: LeaseRef): map<ThreadId, ThreadLease> {
    map t | t in leases && !LeaseRowOf(leases[t], ref) :: leases[t]
  }

  lemma ReleasedRow(db: Tables, s: Store, ref: LeaseRef)
    requires Valid(s) && Related(db, s) && Holds(s, ref)
    ensures RowReleased(db, ref) == db.runs[ref.run := RowOf(s.runs[ref.run].(lease := None))]
  {
    HeldThreadRow(s, ref);
    RowFound(db.runs, s.runs, ref.run);
    hide Valid, Related;
  }

  lemma ReleasedThread(s: Store, ref: LeaseRef)
    requires LeasesOk(s.runs, s.threadLeases) && Holds(s, ref)
    ensures ThreadsLeft(s.threadLeases, ref) == s.threadLeases - {s.runs[ref.run].start.thread}
  {
    forall u | u in s.threadLeases && LeaseRowOf(s.threadLeases[u], ref) ensures u == s.runs[ref.run].start.thread {
      OneThreadRow(s, ref, u);
    }
    HeldThreadRow(s, ref);
    hide LeasesOk;
  }

  lemma ReleaseHeld(db: Tables, s: Store, ref: LeaseRef)
    requires Valid(s) && Related(db, s) && Holds(s, ref)
    ensures Related(db.(runs := RowReleased(db, ref), threadLeases := ThreadsLeft(db.threadLeases, ref)),
                    Release(s, ref))
  {
    assert LeasesOk(s.runs, s.threadLeases);
    hide Valid, Related, RowReleased, ThreadsLeft, RowOf, LeasesOk;
    ReleasedRow(db, s, ref);
    ReleasedThread(s, ref);
    SameTables(db, s);
    RunAndLeasesReplaced(db, s, ref.run, s.runs[ref.run].(lease := None),
                         s.threadLeases - {s.runs[ref.run].start.thread});
  }

  lemma ReleaseNothing(db: Tables, s: Store, ref: LeaseRef)
    requires Valid(s) && Related(db, s) && !Holds(s, ref)
    ensures RowReleased(db, ref) == db.runs && ThreadsLeft(db.threadLeases, ref) == db.threadLeases
  {
    hide OneRunning, CheckpointsOk, KeysOk, EntriesDense, RunsOk, LeasesOk, EventsMatch, SessionsMatch;
    if ref.run in s.runs {
      RowFound(db.runs, s.runs, ref.run);
    }
    forall t | t in s.threadLeases ensures !LeaseRowOf(s.threadLeases[t], ref) {
      if LeaseRowOf(s.threadLeases[t], ref) {
        OneThreadRow(s, ref, t);
      }
    }
    assert db.threadLeases == s.threadLeases && db.runs.Keys == s.runs.Keys;
    hide Valid, Related;
  }

  lemma ReleaseAgrees(db: Tables, s: Store, ref: LeaseRef)
    requires Valid(s) && Related(db, s)
    ensures Related(db.(runs := RowReleased(db, ref), threadLeases := ThreadsLeft(db.threadLeases, ref)),
                    Release(s, ref))
  {
    hide Valid, Related;
    if Holds(s, ref) {
      ReleaseHeld(db, s, ref);
    } else {
      ReleaseNothing(db, s, ref);
      assert db.(runs := db.runs, threadLeases := db.threadLeases) == db;
    }
  }

  // ---------------------------------------------------------------- starting a run

  predicate SameKey(row: RunRow, home: Home, key: Key) {
    row.scope == home.scope && row.session == home.session && row.clientKey == Some(key)
  }

  function RowLookup(r: RunId, row: RunRow): RunLookup {
    RunLookup(r, row.session, row.thread, row.status, row.finishReason, row.cancelRequested, row.owner)
  }

  /** The primary key and the two unique indexes let the row in. */
  predicate RowInsertable(db: Tables, run: RunStart) {
    && run.run !in db.runs
    && (forall q :: q in db.runs ==> !RowRuns(db, q, run.thread))
    && (run.clientKey.Some? ==> forall q :: q in db.runs ==> !SameKey(db.runs[q], HomeOf(run), run.clientKey.value))
  }

  /** What the SQL store answers to a start. It looks at the thread before the entries, and does not
      see a run of another scope until the primary key refuses the row. */
  function SqlStartAnswer(s: Store, run: RunStart, now: int): Result<StartResult> {
    if run.run in s.runs && s.runs[run.run].start.scope == run.scope then Answer(s, s.runs[run.run], run).1
    else if run.clientKey.Some? && Idempotent(s, HomeOf(run), run.clientKey.value).Some? then
      Answer(s, Idempotent(s, HomeOf(run), run.clientKey.value).value, run).1
    else if Busy(s.runs, run.thread, run.run) then Err(ThreadBusy)
    else if run.run in s.runs then Err(StoreDb)
    else if run.lease.Some? && ThreadHeld(s, run.thread, now) then Err(ThreadBusy)
    else if !EntriesOk(s.log.entries, HomeOf(run), run.entries) then Err(EntryConflict)
    else Ok(Created)
  }

  /** The start finds an earlier run that answers it. */
  predicate AnsweredEarlier(s: Store, run: RunStart) {
    run.run in s.runs || (run.clientKey.Some? && Idempotent(s, HomeOf(run), run.clientKey.value).Some?)
  }

  /** The stores answer a start alike, unless its run id is stored under another scope, or both the
      thread and the entries are in its way. */
  lemma StartsAnswerAlike(s: Store, run: RunStart, now: int)
    requires Valid(s)
    ensures SqlStartAnswer(s, run, now) == StartRun(s, run, now).1
            <==> !(run.run in s.runs && s.runs[run.run].start.scope != run.scope)
                 && !(!AnsweredEarlier(s, run) && Busy(s.runs, run.thread, run.run)
                      && !EntriesOk(s.log.entries, HomeOf(run), run.entries))
  {
    if run.run !in s.runs && !Busy(s.runs, run.thread, run.run) {
      ClaimNeverBusy(s, run, now);
    }
    hide Valid, Busy, EntriesOk, WithRun, Lookup;
  }

  lemma IdempotentRow(db: Tables, s: Store, home: Home, key: Key, q: RunId)
    requires Valid(s) && RowsMatch(db.runs, s.runs) && q in db.runs && SameKey(db.runs[q], home, key)
    ensures Idempotent(s, home, key) == Some(s.runs[q])
    ensures RowLookup(q, db.runs[q]) == Lookup(s.runs[q]) && db.runs[q].sig == s.runs[q].start.Sig()
  {
    assert s.runs[q].start.run == q && db.runs[q] == RowOf(s.runs[q]);
    assert HomeOf(s.runs[q].start) == home;
  }

  lemma NoIdempotentRow(db: Tables, s: Store, home: Home, key: Key)
    requires Valid(s) && RowsMatch(db.runs, s.runs)
    requires forall q :: q in db.runs ==> !SameKey(db.runs[q], home, key)
    ensures Idempotent(s, home, key).None?
  {
    var k := HomeKey(home, key);
    if k in s.idempotency {
      var q := s.idempotency[k];
      assert db.runs[q] == RowOf(s.runs[q]) && HomeOf(s.runs[q].start) == home;
      assert SameKey(db.runs[q], home, key);
    }
  }

  /** After the checks neither an index nor the claim of the thread can refuse the new run. */
  lemma StartUnobstructed(db: Tables, s: Store, run: RunStart)
    requires Valid(s) && Related(db, s) && run.run !in s.runs && !Busy(s.runs, run.thread, run.run)
    requires run.clientKey.Some? ==> forall q :: q in db.runs ==> !SameKey(db.runs[q], HomeOf(run), run.clientKey.value)
    ensures RowInsertable(db, run) && run.thread !in db.threadLeases
  {
    IdleThread(s, run.thread, run.run);
    forall q | q in db.runs ensures !RowRuns(db, q, run.thread) {
      assert db.runs[q] == RowOf(s.runs[q]) && !RunningOn(s.runs, q, run.thread);
    }
  }

  function StartedRow(run: RunStart, now: int): RunRow {
    RunRow(run.session, run.thread, run.scope, run.Sig(), run.clientKey, Running, false, None,
           if run.lease.Some? then Some(run.lease.value.owner) else None,
           if run.lease.Some? then Some(run.lease.value.id) else None,
           if run.lease.Some? then Some(now + run.lease.value.ttl) else None)
  }

  ghost function StartedTables(db: Tables, s: Store, run: RunStart, now: int): Tables {
    db.(sessions := db.sessions + {HomeOf(run)},
        runs := db.runs[run.run := StartedRow(run, now)],
        threadLeases := if run.lease.None? then db.threadLeases
                        else db.threadLeases[run.thread := ThreadLease(run.run, run.lease.value.owner,
                                                                       run.lease.value.id,
                                                                       now + run.lease.value.ttl)],
        entries := ApplyEntries(s.log, HomeOf(run), run.run, run.thread, run.entries, |run.entries|).entries)
  }

  lemma StartedRelated(db: Tables, s: Store, run: RunStart, now: int)
    requires Related(db, s) && run.run !in s.runs
    ensures Related(StartedTables(db, s, run, now), WithRun(s, run, now))
  {
    var runs := s.runs[run.run := NewRun(run, now)];
    assert EventsMatch(db.events, runs);
    assert RowsMatch(db.runs[run.run := StartedRow(run, now)], runs);
    assert SessionsMatch(db.sessions + {HomeOf(run)}, runs);
    hide EventsMatch, RowsMatch, SessionsMatch, ApplyEntries;
  }

  lemma KnownRun(s: Store, run: RunStart, now: int)
    requires run.run in s.runs && s.runs[run.run].start.scope == run.scope
    ensures StartRun(s, run, now).0 == WithSession(s, run)
    ensures SqlStartAnswer(s, run, now) == Answer(s, s.runs[run.run], run).1
  {
  }

  lemma KnownKey(s: Store, run: RunStart, now: int)
    requires run.run in s.runs ==> s.runs[run.run].start.scope != run.scope
    requires run.clientKey.Some? && Idempotent(s, HomeOf(run), run.clientKey.value).Some?
    ensures StartRun(s, run, now).0 == WithSession(s, run)
    ensures SqlStartAnswer(s, run, now) == Answer(s, Idempotent(s, HomeOf(run), run.clientKey.value).value, run).1
  {
  }

  lemma BusyThread(s: Store, run: RunStart, now: int)
    requires run.run in s.runs ==> s.runs[run.run].start.scope != run.scope
    requires run.clientKey.Some? ==> Idempotent(s, HomeOf(run), run.clientKey.value).None?
    requires Busy(s.runs, run.thread, run.run)
    ensures StartRun(s, run, now).0 == WithSession(s, run) && SqlStartAnswer(s, run, now) == Err(ThreadBusy)
  {
    hide EntriesOk, WithRun;
  }

  /** No earlier run answers the start, and the thread is free. */
  ghost predicate StartFree(db: Tables, s: Store, run: RunStart) {
    && !Busy(s.runs, run.thread, run.run)
    && (run.run in s.runs ==> s.runs[run.run].start.scope != run.scope)
    && (run.clientKey.Some? ==>
          Idempotent(s, HomeOf(run), run.clientKey.value).None?
          && forall q :: q in db.runs ==> !SameKey(db.runs[q], HomeOf(run), run.clientKey.value))
  }

  /** Such a start goes through exactly when the in-memory store creates the run. */
  lemma FreeStart(db: Tables, s: Store, run: RunStart, now: int)
    requires Valid(s) && Related(db, s) && StartFree(db, s, run)
    ensures db.entries == s.log.entries && EntriesDense(s.log)
    ensures if RowsGoIn(db.(sessions := db.sessions + {HomeOf(run)}), s, run, now)
            then StartRun(s, run, now).0 == WithRun(WithSession(s, run), run, now)
                 && SqlStartAnswer(s, run, now) == Ok(Created) && run.run !in s.runs
            else StartRun(s, run, now).0 == WithSession(s, run)
                 && SqlStartAnswer(s, run, now)
                    == Err(RowError(db.(sessions := db.sessions + {HomeOf(run)}), run, now))
  {
    FreeInsertable(db, s, run);
    hide Valid, Related, RowInsertable;
    SpecOfFreeStart(db, s, run, now);
  }

  lemma FreeInsertable(db: Tables, s: Store, run: RunStart)
    requires Valid(s) && Related(db, s) && StartFree(db, s, run)
    ensures RowInsertable(db.(sessions := db.sessions + {HomeOf(run)}), run) <==> run.run !in s.runs
    ensures db.threadLeases == s.threadLeases && db.entries == s.log.entries && EntriesDense(s.log)
  {
    var home := db.(sessions := db.sessions + {HomeOf(run)});
    GuardFacts(db, s, run.run);
    if run.run !in s.runs {
      StartUnobstructed(db, s, run);
      InsertableAnyway(db, home.sessions, run);
    } else {
      assert run.run in home.runs;
    }
  }

  /** A start that finds nothing in its way is created unless its claim or its entries fail. */
  lemma SpecOfFreeStart(db: Tables, s: Store, run: RunStart, now: int)
    requires StartFree(db, s, run)
    ensures if run.run !in s.runs && !(run.lease.Some? && ThreadHeld(s, run.thread, now))
               && EntriesOk(s.log.entries, HomeOf(run), run.entries)
            then StartRun(s, run, now).0 == WithRun(WithSession(s, run), run, now)
                 && SqlStartAnswer(s, run, now) == Ok(Created)
            else StartRun(s, run, now).0 == WithSession(s, run)
                 && SqlStartAnswer(s, run, now)
                    == Err(if run.run in s.runs then StoreDb
                           else if run.lease.Some? && ThreadHeld(s, run.thread, now) then ThreadBusy
                           else EntryConflict)
  {
    hide Busy, EntriesOk, SameKey, WithRun;
  }

  /** Which row is refused: that of the run, of the thread, or of an entry. */
  function RowError(db: Tables, run: RunStart, now: int): Error {
    if !RowInsertable(db, run) then StoreDb
    else if run.lease.Some? && run.thread in db.threadLeases && db.threadLeases[run.thread].until > now then ThreadBusy
    else EntryConflict
  }

  ghost predicate RowsGoIn(db: Tables, s: Store, run: RunStart, now: int) {
    && RowInsertable(db, run)
    && !(run.lease.Some? && run.thread in db.threadLeases && db.threadLeases[run.thread].until > now)
    && EntriesOk(s.log.entries, HomeOf(run), run.entries)
  }

  lemma InsertableAnyway(db: Tables, sessions: set<Home>, run: RunStart)
    requires RowInsertable(db, run)
    ensures RowInsertable(db.(sessions := sessions), run)
  {
    var next := db.(sessions := sessions);
    assert forall q :: RowRuns(next, q, run.thread) ==> RowRuns(db, q, run.thread);
  }

  lemma SessionValid(s: Store, run: RunStart)
    requires Valid(s)
    ensures Valid(WithSession(s, run))
  {
    hide RunsOk, OneRunning, LeasesOk, CheckpointsOk, KeysOk, EntriesDense, OwnedBy;
  }

  lemma SessionRelated(db: Tables, s: Store, run: RunStart)
    requires Related(db, s)
    ensures Related(db, WithSession(s, run))
    ensures Related(db.(sessions := db.sessions + {HomeOf(run)}), WithSession(s, run))
  {
    MoreSessions(db.sessions, s.runs, HomeOf(run));
    hide EventsMatch, RowsMatch, SessionsMatch;
  }

  lemma MoreSessions(sessions: set<Home>, runs: map<RunId, Run>, home: Home)
    requires SessionsMatch(sessions, runs)
    ensures SessionsMatch(sessions + {home}, runs)
  {
  }

  // ---------------------------------------------------------------- reaping

  predicate RowStale(row: RunRow, now: int) {
    row.status == Running && row.expires.Some? && row.expires.value <= now
  }

  lemma StaleRows(db: Tables, s: Store, limit: nat, now: int)
    requires Valid(s) && Related(db, s)
    ensures Selecting(s, [], (set r | r in db.runs && RowStale(db.runs[r], now)), limit, now)
  {
    hide LogOk, OneRunning, LeasesOk, CheckpointsOk, KeysOk, EntriesDense, EventsMatch;
    var all := set r | r in db.runs && RowStale(db.runs[r], now);
    forall r | r in s.runs ensures r in all <==> Stale(s.runs[r], now) {
      RunRowStale(db, s, r, now);
    }
    assert forall r :: r in all ==> r in s.runs;
  }

  lemma RunRowStale(db: Tables, s: Store, r: RunId, now: int)
    requires Related(db, s)
    ensures r in db.runs <==> r in s.runs
    ensures r in s.runs ==> (RowStale(db.runs[r], now) <==> Stale(s.runs[r], now))
  {
    if r in s.runs {
      RowFound(db.runs, s.runs, r);
    }
  }

  lemma StaleLog(db: Tables, s: Store, r: RunId)
    requires Valid(s) && Related(db, s) && r in db.runs
    ensures r in s.runs && RowsOfLog(db.events, r, s.runs[r].events)
    ensures forall i, j :: 0 <= i < j < |s.runs[r].events| ==> s.runs[r].events[i].num < s.runs[r].events[j].num
  {
    assert LogOk(s.runs[r]);
  }

  lemma OldestPicked(db: Tables, s: Store, rest: set<RunId>, r: RunId, now: int)
    requires Valid(s) && Related(db, s) && Oldest(db.runs, rest, r, now)
    requires forall q :: q in rest ==> q in db.runs && RowStale(db.runs[q], now)
    ensures r in s.runs && RowPicked(s, (RowLookup(r, db.runs[r]), LastNum(s.runs[r].events) + 1), now)
    ensures forall q :: q in rest ==> Expiry(s, r) <= Expiry(s, q)
  {
    assert s.runs[r].start.run == r;
    hide LogOk, OneRunning, LeasesOk, CheckpointsOk, KeysOk, EntriesDense, EventsMatch;
    RowFound(db.runs, s.runs, r);
    forall q | q in rest ensures Expiry(s, r) <= Expiry(s, q) {
      RowFound(db.runs, s.runs, q);
    }
  }

  /** The event of the next pick addresses its run. */
  lemma PickTargets(s: Store, before: Store, picks: seq<Pick>, now: int, i: nat)
    requires Valid(before) && Targeted(s, picks) && i < |picks| && ReapPicks(s, picks, now, i) == Ok(before)
    requires picks[i].lookup.run in before.runs
    requires picks[i].event.num == LastNum(before.runs[picks[i].lookup.run].events) + 1
    ensures ReapEventOk(before.runs[picks[i].lookup.run], picks[i].event)
  {
    ReapKeepsStarts(s, picks, now, i);
    assert before.runs[picks[i].lookup.run].start.run == picks[i].lookup.run;
  }

  /** A pick that is stale under another number, or whose row the indexes refuse, fails the rest. */
  lemma UnfitFails(db: Tables, before: Store, s: Store, picks: seq<Pick>, now: int, i: nat)
    requires Valid(before) && Related(db, before) && Targeted(s, picks) && i < |picks|
    requires ReapPicks(s, picks, now, i) == Ok(before)
    requires picks[i].lookup.run in before.runs && Stale(before.runs[picks[i].lookup.run], now)
    requires picks[i].event.num != LastNum(before.runs[picks[i].lookup.run].events) + 1
             || !Insertable(db.events, picks[i].event)
    ensures ReapPicks(s, picks, now, |picks|).Err?
  {
    hide Valid, Related, Targeted, ReapPicks, Insertable, Stale, ReapEventOk;
    var r := picks[i].lookup.run;
    if picks[i].event.num == LastNum(before.runs[r].events) + 1 {
      PickTargets(s, before, picks, now, i);
      ReapRelated(db, before, r, picks[i].event, now);
      assert false;
    } else {
      ReapUnfold(s, picks, now, i);
      ReapFails(s, picks, now, i + 1, |picks|);
    }
  }

  function ReapedRow(row: RunRow): RunRow {
    row.(status := Errored, finishReason := Some(LeaseExpired), owner := None, lease := None, expires := None)
  }

  function ReapedTables(db: Tables, r: RunId, event: Event): Tables
    requires r in db.runs
  {
    db.(events := db.events[EventKey(r, event.num) := event], runs := db.runs[r := ReapedRow(db.runs[r])],
        threadLeases := DeleteThread(db.threadLeases, r))
  }

  lemma ReapedEventsMatch(db: Tables, s: Store, r: RunId, event: Event)
    requires EventsMatch(db.events, s.runs) && r in s.runs && s.runs[r].status == Running
    requires LogOk(s.runs[r]) && s.runs[r].start.run == r && ReapEventOk(s.runs[r], event)
    ensures Insertable(db.events, event)
    ensures EventsMatch(db.events[EventKey(r, event.num) := event], s.runs[r := ReapedRun(s.runs[r], event)])
  {
    var run := s.runs[r];
    RunningHasNoTerminal(db, s, r);
    ReapedLog(run, event);
    assert InsertEvents(db.events, r, [event], 0) == db.events;
    assert InsertEvents(db.events, r, [event], 1) == db.events[EventKey(r, event.num) := event];
    assert RowsOfLog(db.events, r, run.events);
    EventsAppended(db.events, s.runs, r, [event], ReapedRun(run, event));
    hide EventsMatch;
    if |run.events| > 0 {
      LogHasMaxRow(db.events, r, run.events);
    }
  }

  lemma ReapedRunsMatch(db: Tables, s: Store, r: RunId, event: Event)
    requires Valid(s) && Related(db, s) && r in s.runs && s.runs[r].status == Running
    requires ReapEventOk(s.runs[r], event)
    ensures var runs := s.runs[r := ReapedRun(s.runs[r], event)];
            && r in db.runs && Insertable(db.events, event)
            && EventsMatch(db.events[EventKey(r, event.num) := event], runs)
            && RowsMatch(db.runs[r := ReapedRow(db.runs[r])], runs)
            && SessionsMatch(db.sessions, runs)
            && DeleteThread(s.threadLeases, r) == s.threadLeases - {s.runs[r].start.thread}
  {
    assert LogOk(s.runs[r]) && s.runs[r].start.run == r;
    RowFound(db.runs, s.runs, r);
    DeleteByRunIsByThread(s, r);
    hide Valid, DeleteThread, LogOk, EventsMatch, ReapEventOk, Insertable;
    ReapedEventsMatch(db, s, r, event);
    RowsChanged(db.runs, s.runs, r, ReapedRun(s.runs[r], event));
    hide RowsMatch;
  }

  lemma ReapRelated(db: Tables, s: Store, r: RunId, event: Event, now: int)
    requires Valid(s) && Related(db, s) && r in s.runs && Stale(s.runs[r], now) && ReapEventOk(s.runs[r], event)
    ensures r in db.runs && Insertable(db.events, event)
    ensures Related(ReapedTables(db, r, event), Reap(s, r, event, now)) && Valid(Reap(s, r, event, now))
  {
    ReapKeeps(s, r, event, now);
    ReapedRunsMatch(db, s, r, event);
    hide Valid, EventsMatch, RowsMatch, SessionsMatch, ReapEventOk, Insertable, DeleteThread, ReapedRow;
  }

  /** The runs of the set in which none has an older lease. */
  predicate Oldest(rows: map<RunId, RunRow>, rest: set<RunId>, r: RunId, now: int) {
    && r in rest && r in rows && RowStale(rows[r], now)
    && forall q :: q in rest && q in rows && RowStale(rows[q], now) ==> rows[r].expires.value <= rows[q].expires.value
  }

  lemma {:induction false} OldestExists(rows: map<RunId, RunRow>, rest: set<RunId>, now: int)
    requires rest != {} && forall r :: r in rest ==> r in rows && RowStale(rows[r], now)
    ensures exists r :: r in rest && Oldest(rows, rest, r, now)
    decreases |rest|
  {
    var r :| r in rest;
    if rest == {r} {
      assert Oldest(rows, rest, r, now);
    } else {
      OldestExists(rows, rest - {r}, now);
      var q :| q in rest - {r} && Oldest(rows, rest - {r}, q, now);
      assert Oldest(rows, rest, if rows[r].expires.value < rows[q].expires.value then r else q, now);
    }
  }
}
