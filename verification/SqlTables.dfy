/**
 The tables of the SQL store as values, the statements that read and write them, and the
 relation between the tables and the store of StoreSpec.

 There is no counter and no per-run event list in the tables: the last event number and the
 next entry number are computed with MAX each time.
 */
module SqlTables {
  import opened Types
  import opened StoreSpec
  import opened StoreInv

  datatype RunRow = RunRow(session: SessionId, thread: ThreadId, scope: Scope, sig: StartSig,
                           clientKey: Option<Key>, status: RunStatus, cancelRequested: bool,
                           finishReason: Option<Reason>, owner: Option<WorkerId>, lease: Option<LeaseId>,
                           expires: Option<int>)

  datatype EventKey = EventKey(run: RunId, num: int)

  datatype Tables = Tables(sessions: set<Home>, runs: map<RunId, RunRow>,
                           threadLeases: map<ThreadId, ThreadLease>, events: map<EventKey, Event>,
                           checkpoints: map<ThreadId, CheckpointRecord>, entries: map<HomeKey, Entry>,
                           effects: map<RunKey, Effect>, items: map<RunKey, Item>)

  // ---------------------------------------------------------------- statements

  predicate RowExpired(row: RunRow, now: int) {
    row.expires.Some? && row.expires.value <= now
  }

  predicate RowRuns(db: Tables, r: RunId, thread: ThreadId) {
    r in db.runs && db.runs[r].thread == thread && db.runs[r].status == Running
  }

  /** SELECT ... WHERE thread_id = thread AND status = 'running' AND run_id <> except */
  predicate RowBusy(db: Tables, thread: ThreadId, except: RunId) {
    exists r :: r in db.runs && RowRuns(db, r, thread) && r != except
  }

  function CheckRowLease(row: RunRow, lease: Option<LeaseId>, now: int): Outcome {
    if row.lease.Some? && (lease != row.lease || RowExpired(row, now)) then Fail(LeaseLost) else Pass
  }

  /** The checkpoint check; unlike the in-memory one it does not compare owners. */
  function CheckRowThread(db: Tables, row: RunRow, c: Commit, checkpoint: CheckpointWrite, now: int): Outcome {
    if checkpoint.thread != row.thread then Fail(InvalidRunEvent)
    else if checkpoint.record.run != Some(c.run) then Fail(CheckpointRun)
    else if RowBusy(db, checkpoint.thread, c.run) then Fail(ThreadBusy)
    else if row.lease.None? then
      if checkpoint.thread in db.threadLeases && db.threadLeases[checkpoint.thread].until > now
      then Fail(ThreadBusy) else Pass
    else if c.lease != row.lease then Fail(LeaseLost)
    else if checkpoint.thread in db.threadLeases
            && var t := db.threadLeases[checkpoint.thread];
               t.run == c.run && Some(t.id) == c.lease && t.until > now
    then Pass else Fail(LeaseLost)
  }

  /** DELETE FROM thread_leases WHERE run_id = run */
  function DeleteThread(leases: map<ThreadId, ThreadLease>, run: RunId): map<ThreadId, ThreadLease> {
    map t | t in leases && leases[t].run != run :: leases[t]
  }

  predicate LeaseRowOf(l: ThreadLease, ref: LeaseRef) {
    l.run == ref.run && l.owner == ref.owner && l.id == ref.id
  }

  /** UPDATE effects SET status, result and errors: also over an effect that is done. */
  function OverwriteEffect(e: Effect, u: EffectUpdate): Effect {
    e.(status := u.status, result := u.result, errorCode := u.errorCode, errorMessage := u.errorMessage)
  }

  function OverwriteEffects(effects: map<RunKey, Effect>, run: RunId, updates: seq<EffectUpdate>, n: nat)
    : map<RunKey, Effect>
    requires n <= |updates|
    ensures OverwriteEffects(effects, run, updates, n).Keys == effects.Keys
  {
    if n == 0 then effects
    else
      var before := OverwriteEffects(effects, run, updates, n - 1);
      var k := RunKey(run, updates[n - 1].key);
      if k in before then before[k := OverwriteEffect(before[k], updates[n - 1])] else before
  }

  function InsertEvents(events: map<EventKey, Event>, run: RunId, rows: seq<Event>, n: nat): map<EventKey, Event>
    requires n <= |rows|
  {
    if n == 0 then events
    else InsertEvents(events, run, rows, n - 1)[EventKey(run, rows[n - 1].num) := rows[n - 1]]
  }

  // ---------------------------------------------------------------- tables and store

  function RowOf(run: Run): RunRow {
    RunRow(run.start.session, run.start.thread, run.start.scope, run.start.Sig(), run.start.clientKey,
           run.status, run.cancelRequested, run.finishReason,
           if run.lease.Some? then Some(run.lease.value.owner) else None,
           if run.lease.Some? then Some(run.lease.value.id) else None,
           if run.lease.Some? then Some(run.lease.value.until) else None)
  }

  ghost predicate RowsMatch(rows: map<RunId, RunRow>, runs: map<RunId, Run>) {
    rows.Keys == runs.Keys && forall r :: r in runs ==> rows[r] == RowOf(runs[r])
  }

  /** The event rows are the events of the runs' logs, each under its own number. */
  ghost predicate EventsMatch(events: map<EventKey, Event>, runs: map<RunId, Run>) {
    && (forall k :: k in events ==> k.run in runs && events[k] in runs[k.run].events && events[k].num == k.num)
    && (forall r, i :: r in runs && 0 <= i < |runs[r].events| ==>
          EventKey(r, runs[r].events[i].num) in events
          && events[EventKey(r, runs[r].events[i].num)] == runs[r].events[i])
  }

  ghost predicate SessionsMatch(sessions: set<Home>, runs: map<RunId, Run>) {
    forall r :: r in runs ==> HomeOf(runs[r].start) in sessions
  }

  ghost predicate Related(db: Tables, s: Store) {
    && RowsMatch(db.runs, s.runs)
    && EventsMatch(db.events, s.runs)
    && SessionsMatch(db.sessions, s.runs)
    && db.threadLeases == s.threadLeases && db.checkpoints == s.checkpoints
    && db.entries == s.log.entries && db.effects == s.effects && db.items == s.items
  }

  lemma RowBusyAgrees(db: Tables, s: Store, thread: ThreadId, except: RunId)
    requires RowsMatch(db.runs, s.runs) && RunsOk(s.runs)
    ensures RowBusy(db, thread, except) <==> Busy(s.runs, thread, except)
  {
    hide LogOk;
    if RowBusy(db, thread, except) {
      var r :| r in db.runs && RowRuns(db, r, thread) && r != except;
      assert r in s.runs && db.runs[r] == RowOf(s.runs[r]);
    }
    if Busy(s.runs, thread, except) {
      var r :| r in s.runs && s.runs[r].status == Running && s.runs[r].start.thread == thread
               && s.runs[r].start.run != except;
      assert db.runs[r] == RowOf(s.runs[r]) && RowRuns(db, r, thread);
    }
  }

  /** Both checkpoint checks accept the same commits: an owner check could not fail. */
  lemma ThreadCheckAgrees(db: Tables, s: Store, c: Commit, now: int)
    requires Related(db, s) && Valid(s) && c.run in s.runs && c.checkpoint.Some?
    requires CheckLease(s.runs[c.run], c.lease, now).Pass?
    ensures var cp := c.checkpoint.value;
            CheckRowThread(db, db.runs[c.run], c, cp, now).Pass?
            <==> CheckThread(s, s.runs[c.run], cp, c.lease, now).Pass? && cp.record.run == Some(c.run)
  {
    var run := s.runs[c.run];
    assert run.start.run == c.run && db.runs[c.run] == RowOf(run);
    RowBusyAgrees(db, s, run.start.thread, c.run);
    hide RunsOk, OneRunning, CheckpointsOk, KeysOk, EntriesDense, RowsMatch, EventsMatch, SessionsMatch;
    hide RowBusy, Busy;
    if run.start.thread in s.threadLeases {
      assert Projects(s.runs, run.start.thread, s.threadLeases[run.start.thread]);
    }
  }

  /** Deleting the thread lease by run removes the same row as removing it by thread. */
  lemma DeleteByRunIsByThread(s: Store, r: RunId)
    requires LeasesOk(s.runs, s.threadLeases) && OneRunning(s.runs) && r in s.runs && s.runs[r].status == Running
    ensures DeleteThread(s.threadLeases, r) == s.threadLeases - {s.runs[r].start.thread}
  {
    var t := s.runs[r].start.thread;
    forall u | u in s.threadLeases ensures s.threadLeases[u].run == r <==> u == t {
      assert Projects(s.runs, u, s.threadLeases[u]);
      assert RunningOn(s.runs, r, t);
    }
  }

  lemma {:induction false} InsertedEvents(events: map<EventKey, Event>, run: RunId, rows: seq<Event>, n: nat)
    requires n <= |rows|
    requires forall i, j :: 0 <= i < j < |rows| ==> rows[i].num < rows[j].num
    ensures var after := InsertEvents(events, run, rows, n);
            && (forall k :: k in after <==> k in events || (k.run == run && exists i :: 0 <= i < n && rows[i].num == k.num))
            && (forall i :: 0 <= i < n ==> after[EventKey(run, rows[i].num)] == rows[i])
            && (forall k :: k in events && (k.run != run || forall i :: 0 <= i < n ==> rows[i].num != k.num) ==>
                  after[k] == events[k])
  {
    if n > 0 {
      InsertedEvents(events, run, rows, n - 1);
    }
  }

  /** Every event row is the row of one event, and nothing else is in the table. */
  ghost predicate RowsOfLog(events: map<EventKey, Event>, r: RunId, log: seq<Event>) {
    && (forall k :: k in events && k.run == r ==> events[k] in log && events[k].num == k.num)
    && (forall i :: 0 <= i < |log| ==>
          EventKey(r, log[i].num) in events && events[EventKey(r, log[i].num)] == log[i])
  }

  ghost predicate SameElsewhere(a: map<EventKey, Event>, b: map<EventKey, Event>, r: RunId) {
    && (forall k :: k in a && k.run != r ==> k in b && b[k] == a[k])
    && (forall k :: k in b && k.run != r ==> k in a)
  }

  /** The row with the highest number of its run. */
  predicate MaxRow(events: map<EventKey, Event>, run: RunId, k: EventKey) {
    k in events && k.run == run && forall q :: q in events && q.run == run ==> q.num <= k.num
  }

  /** MAX(seq) is the number of the last event of the log. */
  lemma MaxRowIsLast(events: map<EventKey, Event>, r: RunId, log: seq<Event>, k: EventKey)
    requires RowsOfLog(events, r, log) && MaxRow(events, r, k)
    requires forall i, j :: 0 <= i < j < |log| ==> log[i].num < log[j].num
    ensures k.num == LastNum(log)
  {
    var i :| 0 <= i < |log| && log[i] == events[k];
    LastIsHighest(log, i);
    var last := EventKey(r, log[|log| - 1].num);
    assert last in events && last.run == r;
  }

  lemma LastIsHighest(log: seq<Event>, i: nat)
    requires i < |log| && forall i, j :: 0 <= i < j < |log| ==> log[i].num < log[j].num
    ensures log[i].num <= LastNum(log)
  {
  }

  lemma LogHasMaxRow(events: map<EventKey, Event>, r: RunId, log: seq<Event>)
    requires RowsOfLog(events, r, log) && log != []
    requires forall i, j :: 0 <= i < j < |log| ==> log[i].num < log[j].num
    ensures MaxRow(events, r, EventKey(r, log[|log| - 1].num))
  {
    var k := EventKey(r, log[|log| - 1].num);
    forall q | q in events && q.run == r ensures q.num <= k.num {
      var i :| 0 <= i < |log| && log[i] == events[q];
      LastIsHighest(log, i);
    }
  }

  lemma RowsOfLogGrow(events: map<EventKey, Event>, r: RunId, log: seq<Event>, rows: seq<Event>)
    requires RowsOfLog(events, r, log)
    requires forall i, j :: 0 <= i < j < |log + rows| ==> (log + rows)[i].num < (log + rows)[j].num
    ensures RowsOfLog(InsertEvents(events, r, rows, |rows|), r, log + rows)
    ensures SameElsewhere(events, InsertEvents(events, r, rows, |rows|), r)
  {
    var all := log + rows;
    var after := InsertEvents(events, r, rows, |rows|);
    assert forall i :: 0 <= i < |rows| ==> rows[i] == all[|log| + i];
    assert forall i :: 0 <= i < |log| ==> log[i] == all[i];
    InsertedEvents(events, r, rows, |rows|);
    forall k | k in after && k.run == r ensures after[k] in all && after[k].num == k.num {
      if i :| 0 <= i < |rows| && rows[i].num == k.num {
        assert EventKey(r, rows[i].num) == k;
        assert after[k] == all[|log| + i];
      } else {
        assert k in events && after[k] == events[k];
      }
    }
    forall i | 0 <= i < |all|
      ensures EventKey(r, all[i].num) in after && after[EventKey(r, all[i].num)] == all[i]
    {
      if i < |log| {
        assert EventKey(r, log[i].num) in events;
        assert forall j :: 0 <= j < |rows| ==> all[i].num < rows[j].num;
      } else {
        assert all[i] == rows[i - |log|];
      }
    }
  }

  /** Inserting the rows of new events goes with appending the events to the run's log. */
  lemma EventsAppended(events: map<EventKey, Event>, runs: map<RunId, Run>, r: RunId, rows: seq<Event>, run: Run)
    requires EventsMatch(events, runs) && r in runs && run.events == runs[r].events + rows
    requires forall i, j :: 0 <= i < j < |run.events| ==> run.events[i].num < run.events[j].num
    ensures EventsMatch(InsertEvents(events, r, rows, |rows|), runs[r := run])
  {
    assert RowsOfLog(events, r, runs[r].events);
    RowsOfLogGrow(events, r, runs[r].events, rows);
    var after := InsertEvents(events, r, rows, |rows|);
    EventsReplaced(events, after, runs, r, run);
  }

  lemma EventsReplaced(events: map<EventKey, Event>, after: map<EventKey, Event>, runs: map<RunId, Run>, r: RunId,
                       run: Run)
    requires EventsMatch(events, runs) && SameElsewhere(events, after, r) && RowsOfLog(after, r, run.events)
    requires r in runs
    ensures EventsMatch(after, runs[r := run])
  {
    var next := runs[r := run];
    forall k | k in after ensures k.run in next && after[k] in next[k.run].events && after[k].num == k.num {
      if k.run != r {
        assert k in events && next[k.run] == runs[k.run];
      }
    }
    forall q, i | q in next && 0 <= i < |next[q].events|
      ensures EventKey(q, next[q].events[i].num) in after
              && after[EventKey(q, next[q].events[i].num)] == next[q].events[i]
    {
      if q != r {
        assert next[q] == runs[q];
      }
    }
  }

  lemma EventsUnchanged(events: map<EventKey, Event>, runs: map<RunId, Run>, r: RunId, run: Run)
    requires EventsMatch(events, runs) && r in runs && run.events == runs[r].events
    ensures EventsMatch(events, runs[r := run])
  {
  }

  // ---------------------------------------------------------------- entries

  /** The row with the highest number of its session. */
  predicate MaxEntry(entries: map<HomeKey, Entry>, home: Home, k: HomeKey) {
    k in entries && k.home == home
    && forall q :: q in entries && q.home == home ==> entries[q].num <= entries[k].num
  }

  /** MAX(seq) is the entry counter. */
  lemma MaxEntryIsCount(log: EntryLog, home: Home, k: HomeKey)
    requires EntriesDense(log) && MaxEntry(log.entries, home, k)
    ensures log.entries[k].num == Count(log, home)
  {
    assert Used(log, home, Count(log, home));
  }

  lemma CountHasMaxEntry(log: EntryLog, home: Home)
    requires EntriesDense(log) && Count(log, home) > 0
    ensures exists k :: k in log.entries && MaxEntry(log.entries, home, k)
  {
    assert Used(log, home, Count(log, home));
    var k :| HasNumber(log, k, home, Count(log, home));
    assert MaxEntry(log.entries, home, k);
  }

  /** A key found while inserting was there before, with the same content. */
  lemma SentAgain(log: EntryLog, home: Home, run: RunId, thread: ThreadId, writes: seq<EntryWrite>, i: nat)
    requires i < |writes| && EntriesOk(log.entries, home, writes)
    requires HomeKey(home, writes[i].key) in ApplyEntries(log, home, run, thread, writes, i).entries
    ensures SameEntry(ApplyEntries(log, home, run, thread, writes, i).entries[HomeKey(home, writes[i].key)], writes[i])
  {
    OnlyWrittenKeys(log, home, run, thread, writes, i);
  }

  lemma {:induction false} OnlyWrittenKeys(log: EntryLog, home: Home, run: RunId, thread: ThreadId,
                                           writes: seq<EntryWrite>, n: nat)
    requires n <= |writes|
    ensures var after := ApplyEntries(log, home, run, thread, writes, n).entries;
            && (forall k :: k in log.entries ==> k in after && after[k] == log.entries[k])
            && (forall k :: k in after && k !in log.entries ==>
                  exists i :: 0 <= i < n && k == HomeKey(home, writes[i].key))
  {
    if n > 0 {
      OnlyWrittenKeys(log, home, run, thread, writes, n - 1);
    }
  }

  // ---------------------------------------------------------------- effects

  lemma {:induction false} OverwriteElsewhere(effects: map<RunKey, Effect>, run: RunId, updates: seq<EffectUpdate>,
                                              n: nat, k: RunKey)
    requires n <= |updates| && k in effects
    requires forall i :: 0 <= i < n ==> k != RunKey(run, updates[i].key)
    ensures OverwriteEffects(effects, run, updates, n)[k] == effects[k]
  {
    if n > 0 {
      OverwriteElsewhere(effects, run, updates, n - 1, k);
    }
  }

  /** No update of a done effect says anything else about errors than what is stored. */
  ghost predicate NothingRewritten(effects: map<RunKey, Effect>, run: RunId, updates: seq<EffectUpdate>) {
    forall i :: 0 <= i < |updates| && RunKey(run, updates[i].key) in effects
                && effects[RunKey(run, updates[i].key)].status == Done ==>
      effects[RunKey(run, updates[i].key)].errorCode == updates[i].errorCode
      && effects[RunKey(run, updates[i].key)].errorMessage == updates[i].errorMessage
  }

  lemma {:induction false} EffectAt(effects: map<RunKey, Effect>, run: RunId, updates: seq<EffectUpdate>,
                                    i: nat, n: nat)
    requires i < n <= |updates| && EffectsPresent(effects, run, updates)
    requires forall a, b :: 0 <= a < b < |updates| ==> updates[a].key != updates[b].key
    ensures var k := RunKey(run, updates[i].key);
            && ApplyEffects(effects, run, updates, n)[k] == UpdateEffect(effects[k], updates[i])
            && OverwriteEffects(effects, run, updates, n)[k] == OverwriteEffect(effects[k], updates[i])
    decreases n
  {
    var k := RunKey(run, updates[i].key);
    if i == n - 1 {
      OverwriteElsewhere(effects, run, updates, n - 1, k);
      EffectsElsewhere(effects, run, updates, n - 1, k);
    } else {
      EffectAt(effects, run, updates, i, n - 1);
      assert RunKey(run, updates[n - 1].key) != k;
    }
  }

  lemma {:induction false} CheckedKeysDistinct(effects: map<RunKey, Effect>, run: RunId,
                                               updates: seq<EffectUpdate>, n: nat)
    requires n <= |updates| && CheckEffects(effects, run, updates, n).Pass?
    ensures forall a, b :: 0 <= a < b < n ==> updates[a].key != updates[b].key
  {
    if n > 0 {
      CheckedKeysDistinct(effects, run, updates, n - 1);
      assert !EffectKeyRepeats(updates, n - 1);
    }
  }

  /** Overwriting and skipping done effects come to the same thing exactly when no update
      rewrites the stored errors of a done effect. */
  lemma OverwriteAgrees(effects: map<RunKey, Effect>, run: RunId, updates: seq<EffectUpdate>)
    requires CheckEffects(effects, run, updates, |updates|).Pass? && EffectsPresent(effects, run, updates)
    ensures OverwriteEffects(effects, run, updates, |updates|) == ApplyEffects(effects, run, updates, |updates|)
            <==> NothingRewritten(effects, run, updates)
  {
    var n := |updates|;
    var a, b := OverwriteEffects(effects, run, updates, n), ApplyEffects(effects, run, updates, n);
    CheckedKeysDistinct(effects, run, updates, n);
    CheckedEffectsPresent(effects, run, updates, n);
    if NothingRewritten(effects, run, updates) {
      forall k | k in effects ensures a[k] == b[k] {
        if i :| 0 <= i < n && RunKey(run, updates[i].key) == k {
          EffectAt(effects, run, updates, i, n);
          assert CheckEffect(effects, run, updates, i).Pass?;
        } else {
          OverwriteElsewhere(effects, run, updates, n, k);
          EffectsElsewhere(effects, run, updates, n, k);
        }
      }
      assert a == b;
    }
    if a == b {
      forall i | 0 <= i < n && RunKey(run, updates[i].key) in effects
                 && effects[RunKey(run, updates[i].key)].status == Done
        ensures effects[RunKey(run, updates[i].key)].errorCode == updates[i].errorCode
                && effects[RunKey(run, updates[i].key)].errorMessage == updates[i].errorMessage
      {
        EffectAt(effects, run, updates, i, n);
        assert CheckEffect(effects, run, updates, i).Pass?;
      }
    }
  }

  /** An update that a caller builds by hand can rewrite a done effect: sent again with an error
      code, it passes every check, and only the SQL store takes the code over. */
  lemma OverwriteDiffers(run: RunId, key: Key, e: Effect, code: Value)
    requires e.status == Done && e.errorCode.None?
    ensures var effects := map[RunKey(run, key) := e];
            var updates := [EffectUpdate(key, Done, e.result, Some(code), None)];
            && CheckEffects(effects, run, updates, 1).Pass? && EffectsPresent(effects, run, updates)
            && OverwriteEffects(effects, run, updates, 1) != ApplyEffects(effects, run, updates, 1)
  {
    var effects := map[RunKey(run, key) := e];
    var updates := [EffectUpdate(key, Done, e.result, Some(code), None)];
    var k := RunKey(run, key);
    assert CheckEffects(effects, run, updates, 0).Pass?;
    assert ApplyEffects(effects, run, updates, 0) == effects == OverwriteEffects(effects, run, updates, 0);
    assert ApplyEffects(effects, run, updates, 1)[k].errorCode.None?;
    assert OverwriteEffects(effects, run, updates, 1)[k].errorCode == Some(code);
  }

  /** A done effect carries no error. The constructors of updates keep it so, and then nothing
      is ever rewritten. */
  ghost predicate DoneClean(effects: map<RunKey, Effect>) {
    forall k :: k in effects && effects[k].status == Done ==>
      effects[k].errorCode == None && effects[k].errorMessage == None
  }

  lemma {:induction false} ConstructedStaysClean(effects: map<RunKey, Effect>, run: RunId,
                                                 updates: seq<EffectUpdate>, n: nat)
    requires n <= |updates| && DoneClean(effects) && forall i :: 0 <= i < |updates| ==> updates[i].Constructed()
    ensures DoneClean(OverwriteEffects(effects, run, updates, n))
  {
    if n > 0 {
      ConstructedStaysClean(effects, run, updates, n - 1);
    }
  }

  lemma ConstructedRewritesNothing(effects: map<RunKey, Effect>, run: RunId, updates: seq<EffectUpdate>)
    requires DoneClean(effects) && CheckEffects(effects, run, updates, |updates|).Pass?
    requires forall i :: 0 <= i < |updates| ==> updates[i].Constructed()
    ensures NothingRewritten(effects, run, updates)
  {
    CheckedEffectsPresent(effects, run, updates, |updates|);
  }
}
