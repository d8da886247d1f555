/**
 The SQL run store: every operation is one transaction over the tables.

 A transaction checks and writes in turns, so it may have written rows when a check fails;
 it then rolls the tables back to what they were when it began. Every operation is proved
 against the function of StoreSpec that the in-memory store also implements: from related
 states both accept the same operations and end in related states.
 */
module SqliteStore {
  import opened Types
  import opened StoreSpec
  import opened StoreInv
  import opened SqlTables
  import opened SqlAgreement
  import opened SqlHistory
  import StoreHistory
  import opened SqlReap

  class SqliteStore {
    var db: Tables
    ghost var model: Store

    ghost predicate Valid()
      reads this
    {
      StoreInv.Valid(model) && Related(db, model)
    }

    constructor ()
      ensures Valid() && model == Empty()
    {
      db := Tables({}, map[], map[], map[], map[], map[], map[], map[]);
      model := Empty();
    }

    // -------------------------------------------------------------- statements

    /** SELECT COALESCE(MAX(seq), 0) over the run's events: it is the number of the last event. */
    method LastSeq(run: RunId, ghost log: seq<Event>) returns (n: int)
      requires RowsOfLog(db.events, run, log)
      requires forall i, j :: 0 <= i < j < |log| ==> log[i].num < log[j].num
      ensures n == LastNum(log)
    {
      hide MaxRow, RowsOfLog;
      n := 0;
      if k :| k in db.events && MaxRow(db.events, run, k) {
        MaxRowIsLast(db.events, run, log, k);
        n := k.num;
      } else if |log| > 0 {
        LogHasMaxRow(db.events, run, log);
      }
    }

    /** Inserts the event rows one by one, each with a number above the last one. */
    method InsertEventRows(run: RunId, rows: seq<Event>, last: int) returns (r: Outcome)
      requires forall i :: 0 <= i < |rows| ==> rows[i].run == run
      requires forall k :: k in db.events && k.run == run ==> k.num <= last
      requires NoTerminalRow(db.events, run)
      requires forall i :: 0 <= i < |rows| && rows[i].terminal ==> i == |rows| - 1
      modifies this`db
      ensures r.Pass? <==> Above(rows, last)
      ensures r.Fail? ==> r.error == InvalidRunEvent
      ensures r.Pass? ==> db == old(db).(events := InsertEvents(old(db).events, run, rows, |rows|))
    {
      var top := last;
      for i := 0 to |rows|
        invariant Inserting(old(db), db, run, rows, last, top, i)
      {
        if rows[i].num <= top {
          return Fail(InvalidRunEvent);
        }
        if !Insertable(db.events, rows[i]) {
          return Fail(StoreDb);
        }
        InsertStep(old(db), db, run, rows, last, top, i);
        db := db.(events := db.events[EventKey(run, rows[i].num) := rows[i]]);
        top := rows[i].num;
      }
      return Pass;
    }

    method CheckEffectRows(run: RunId, updates: seq<EffectUpdate>) returns (r: Outcome)
      ensures r == SqlCheckEffects(db.effects, run, updates, |updates|)
      ensures r.Pass? <==> CheckEffects(db.effects, run, updates, |updates|).Pass?
    {
      SqlEffectsPass(db.effects, run, updates, |updates|);
      for i := 0 to |updates|
        invariant SqlCheckEffects(db.effects, run, updates, i).Pass?
      {
        var u := updates[i];
        var k := RunKey(run, u.key);
        var check := Pass;
        if exists j :: 0 <= j < i && updates[j].key == u.key {
          check := Fail(EffectConflict);
        } else if u.status == Reserved || u.status == Started {
          check := Fail(InvalidRunEvent);
        } else if k !in db.effects {
          check := Fail(EffectNotFound);
        } else if db.effects[k].status == Done && (u.status != Done || db.effects[k].result != u.result) {
          check := Fail(EffectConflict);
        }
        assert check == SqlCheckEffect(db.effects, run, updates, i);
        if check.Fail? {
          SqlFirstFailure(db.effects, run, updates, i, |updates|);
          return check;
        }
      }
      return Pass;
    }

    method CheckItemRows(run: RunId, writes: seq<ItemWrite>) returns (r: Outcome)
      ensures r.Pass? <==> ItemsOk(db.items, run, writes)
      ensures r.Fail? ==> r.error == ItemConflict
    {
      for i := 0 to |writes|
        invariant ItemsOk(db.items, run, writes[..i])
      {
        var k := RunKey(run, writes[i].key);
        if exists j :: 0 <= j < i && writes[j].key == writes[i].key {
          return Fail(ItemConflict);
        }
        if k in db.items && (db.items[k].kind != writes[i].kind || db.items[k].body != writes[i].body) {
          return Fail(ItemConflict);
        }
      }
      assert writes[..|writes|] == writes;
      return Pass;
    }

    method CheckEntryRows(home: Home, writes: seq<EntryWrite>) returns (r: Outcome)
      ensures r.Pass? <==> EntriesOk(db.entries, home, writes)
      ensures r.Fail? ==> r.error == EntryConflict
    {
      for i := 0 to |writes|
        invariant EntriesOk(db.entries, home, writes[..i])
      {
        var k := HomeKey(home, writes[i].key);
        if exists j :: 0 <= j < i && writes[j].key == writes[i].key {
          return Fail(EntryConflict);
        }
        if k in db.entries && !SameEntry(db.entries[k], writes[i]) {
          return Fail(EntryConflict);
        }
      }
      assert writes[..|writes|] == writes;
      return Pass;
    }

    /** UPDATE effects ... WHERE run_id = run AND key = u.key, for each update. */
    method OverwriteEffectRows(run: RunId, updates: seq<EffectUpdate>)
      modifies this`db
      ensures db == old(db).(effects := OverwriteEffects(old(db).effects, run, updates, |updates|))
    {
      for i := 0 to |updates|
        invariant db == old(db).(effects := OverwriteEffects(old(db).effects, run, updates, i))
      {
        var k := RunKey(run, updates[i].key);
        if k in db.effects {
          db := db.(effects := db.effects[k := OverwriteEffect(db.effects[k], updates[i])]);
        }
      }
    }

    /** INSERT OR IGNORE INTO items, for each write. */
    method InsertItemRows(run: RunId, writes: seq<ItemWrite>)
      modifies this`db
      ensures db == old(db).(items := ApplyItems(old(db).items, run, writes, |writes|))
    {
      for i := 0 to |writes|
        invariant db == old(db).(items := ApplyItems(old(db).items, run, writes, i))
      {
        var k := RunKey(run, writes[i].key);
        if k !in db.items {
          db := db.(items := db.items[k := Item(writes[i].kind, writes[i].body)]);
        }
      }
    }

    /** SELECT COALESCE(MAX(seq), 0) over the session's entries: it is the entry counter. */
    method LastEntrySeq(home: Home, ghost log: EntryLog) returns (n: int)
      requires db.entries == log.entries && EntriesDense(log)
      ensures n == Count(log, home)
    {
      n := 0;
      if k :| k in db.entries && MaxEntry(db.entries, home, k) {
        n := db.entries[k].num;
        MaxEntryIsCount(log, home, k);
      } else if Count(log, home) > 0 {
        CountHasMaxEntry(log, home);
      }
    }

    /** Checks the entries, then inserts the new ones, each under the next number of the session. */
    method InsertEntryRows(home: Home, run: RunId, thread: ThreadId, writes: seq<EntryWrite>, ghost log: EntryLog)
      returns (r: Outcome)
      requires db.entries == log.entries && EntriesDense(log) && home in db.sessions
      modifies this`db
      ensures r.Pass? <==> EntriesOk(log.entries, home, writes)
      ensures r.Fail? ==> r.error == EntryConflict
      ensures r.Pass? ==>
                db == old(db).(entries := ApplyEntries(log, home, run, thread, writes, |writes|).entries)
    {
      if |writes| == 0 {
        return Pass;
      }
      if home !in db.sessions {
        return Fail(StoreDb);
      }
      r := CheckEntryRows(home, writes);
      if r.Fail? {
        return;
      }
      for i := 0 to |writes|
        invariant db == old(db).(entries := ApplyEntries(log, home, run, thread, writes, i).entries)
      {
        hide EntriesDense, EntriesOk;
        ghost var before := ApplyEntries(log, home, run, thread, writes, i);
        EntriesAdded(log, home, run, thread, writes, i);
        var k := HomeKey(home, writes[i].key);
        if k in db.entries {
          SentAgain(log, home, run, thread, writes, i);
          if !SameEntry(db.entries[k], writes[i]) {
            assert false;
            return Fail(EntryConflict);
          }
          continue;
        }
        var last := LastEntrySeq(home, before);
        db := db.(entries := db.entries[k := Entry(run, thread, last + 1, writes[i].kind, writes[i].vis,
                                                   writes[i].body)]);
      }
    }

    // -------------------------------------------------------------- reaping

    /** The first transaction: the stale runs with the oldest leases, each with its next number. */
    method SelectStale(limit: nat, now: int) returns (rows: seq<(RunLookup, int)>)
      requires Valid()
      ensures Selected(model, rows, limit, now)
    {
      hide StoreInv.Valid, Related, Oldest, Stale;
      rows := [];
      var rest := set r | r in db.runs && RowStale(db.runs[r], now);
      StaleRows(db, model, limit, now);
      while rest != {} && |rows| < limit
        invariant rest <= set r | r in db.runs && RowStale(db.runs[r], now)
        invariant Selecting(model, rows, rest, limit, now)
        decreases |rest|
      {
        hide Selecting, RowPicked, RowStale, Expiry;
        OldestExists(db.runs, rest, now);
        var r :| r in rest && Oldest(db.runs, rest, r, now);
        StaleLog(db, model, r);
        var last := LastSeq(r, model.runs[r].events);
        OldestPicked(db, model, rest, r, now);
        SelectStep(model, rows, rest, limit, now, (RowLookup(r, db.runs[r]), last + 1));
        rows := rows + [(RowLookup(r, db.runs[r]), last + 1)];
        rest := rest - {r};
      }
    }

    /** The second transaction: every pick is looked at again, and finished if it is still stale. */
    method ReapSelected(picks: seq<Pick>, now: int) returns (r: Result<seq<RunLookup>>)
      requires Valid() && Targeted(model, picks)
      modifies this
      ensures Valid()
      ensures match ReapPicks(old(model), picks, now, |picks|)
              case Ok(next) => model == next && r == Ok(ReapReports(old(model), picks, now, |picks|))
              case Err(_) => r.Err? && model == old(model) && db == old(db)
    {
      var saved := db;
      ghost var s := model;
      var reaped: seq<RunLookup> := [];
      hide StoreInv.Valid, Related, Targeted, ReapReports;
      ReapNone(s, picks, now);
      for i := 0 to |picks|
        invariant ReapPicks(s, picks, now, i) == Ok(model)
        invariant reaped == ReapReports(s, picks, now, i)
        invariant StoreInv.Valid(model) && Related(db, model)
      {
        hide ReapPicks, ReapedTables, Insertable;
        ghost var before := model;
        var run := picks[i].lookup.run;
        var event := picks[i].event;
        ReapUnfold(s, picks, now, i);
        RunRowStale(db, before, run, now);
        if run in db.runs && RowStale(db.runs[run], now) {
          StaleLog(db, before, run);
          var last := LastSeq(run, before.runs[run].events);
          if event.num != last + 1 || !Insertable(db.events, event) {
            UnfitFails(db, before, s, picks, now, i);
            db := saved;
            model := s;
            return Err(InvalidRunEvent);
          }
          PickTargets(s, before, picks, now, i);
          ReapRelated(db, before, run, event, now);
          db := ReapedTables(db, run, event);
          model := Reap(before, run, event, now);
          reaped := reaped + [picks[i].lookup.(status := Errored, finishReason := Some(LeaseExpired), owner := None)];
        }
      }
      return Ok(reaped);
    }

    /** Both transactions. Between them other workers carry out the operations `others`, which leave
        the tables `after`. The second transaction cannot fail: of the runs that were selected, it
        finishes exactly those that still have an expired lease, each with the event built for it,
        and changes no other run. The one error is an event that was built for the wrong run, under
        the wrong number, or not terminal; then nothing was written. */
    method ReapStale(limit: nat, build: (RunLookup, int) -> Event, ghost others: seq<StoreHistory.Step>, after: Tables,
                     first: int, second: int)
      returns (r: Result<seq<RunLookup>>, ghost rows: seq<(RunLookup, int)>, ghost picks: seq<Pick>)
      requires Valid() && Related(after, SqlExec(model, others, |others|))
      requires first <= second && forall k :: 0 <= k < |others| ==> first <= others[k].now <= second
      modifies this
      ensures Valid()
      ensures limit == 0 || r.Err? ==> model == old(model) && db == old(db)
      ensures limit == 0 ==> r == Ok([])
      ensures limit > 0 ==> Selected(old(model), rows, limit, first)
      ensures r.Err? ==> exists i :: 0 <= i < |rows| && !Fits(rows[i], build(rows[i].0, rows[i].1))
      ensures limit > 0 && r.Ok? ==>
                var s := SqlExec(old(model), others, |others|);
                && Built(rows, build, Ok(picks))
                && ReapedBy(s, model, picks, second, |picks|)
                && ReapPicks(s, picks, second, |picks|) == Ok(model)
                && r.value == ReapReports(s, picks, second, |picks|)
    {
      rows, picks := [], [];
      if limit == 0 {
        return Ok([]), rows, picks;
      }
      ghost var s := model;
      var selected := SelectStale(limit, first);
      rows := selected;
      var built := BuildPicks(selected, build);
      if built.Err? {
        return Err(built.error), rows, picks;
      }
      picks := built.value;
      hide StoreInv.Valid, Related, SqlExec, ReapPicks, Selected, Built, Targeted, Picked, Stale;
      SelectedValid(s, rows, limit, first, build, picks);
      SqlExecValid(s, others, |others|);
      SqlReapIsSafe(s, others, picks, first, second);
      db := after;
      model := SqlExec(s, others, |others|);
      r := ReapSelected(built.value, second);
    }

    // -------------------------------------------------------------- commit

    /** The lease, the checkpoint, which is written at once, the effects and the items. */
    method CommitChecks(c: Commit, row: RunRow, now: int) returns (r: Outcome)
      modifies this`db
      ensures r.Pass? <==> ChecksPass(old(db), c, row, now)
      ensures r.Fail? ==> r.error == ChecksError(old(db), c, row, now)
      ensures r.Pass? ==> db == old(db).(checkpoints := WithCheckpoint(old(db).checkpoints, c))
    {
      LeaseErrorIs(row, c.lease, now);
      hide CheckRowLease, CheckRowThread, CheckEffects, SqlCheckEffects, ItemsOk;
      r := CheckRowLease(row, c.lease, now);
      if r.Fail? {
        return;
      }
      if c.checkpoint.Some? {
        r := CheckRowThread(db, row, c, c.checkpoint.value, now);
        if r.Fail? {
          return;
        }
        db := db.(checkpoints := db.checkpoints[c.checkpoint.value.thread := c.checkpoint.value.record]);
      }
      r := CheckEffectRows(c.run, c.effects);
      if r.Fail? {
        return;
      }
      r := CheckItemRows(c.run, c.items);
    }

    /** The events, each checked before it is inserted, then the updates, the items and the entries. */
    method CommitWrites(c: Commit, thread: ThreadId, ghost s: Store) returns (r: Outcome)
      requires WritesReady(db, s, c)
      modifies this`db
      ensures r.Pass? <==> Above(c.events, LastNum(s.runs[c.run].events))
                           && EntriesOk(s.log.entries, Home(c.scope, c.session), c.entries)
      ensures r.Fail? ==> r.error == if Above(c.events, LastNum(s.runs[c.run].events)) then EntryConflict
                                     else InvalidRunEvent
      ensures r.Pass? ==> db == Written(old(db), s, c, thread)
    {
      ghost var log := s.runs[c.run].events;
      hide EntriesDense, EntriesOk, Above, RowsOfLog, NoTerminalRow, InsertEvents, OverwriteEffects, ApplyItems;
      hide ApplyEntries;
      var last := LastSeq(c.run, log);
      r := InsertEventRows(c.run, c.events, last);
      if r.Pass? {
        OverwriteEffectRows(c.run, c.effects);
        InsertItemRows(c.run, c.items);
        r := InsertEntryRows(Home(c.scope, c.session), c.run, thread, c.entries, s.log);
      }
    }

    /** The part of a commit that follows the guards: checks and writes in turns. */
    method CommitRows(c: Commit, now: int) returns (r: Outcome)
      requires Valid() && CommitReady(model, c) && c.run in db.runs
      modifies this`db
      ensures r.Pass? <==> PlanRunning(model, model.runs[c.run], c, now) == Accept
      ensures r.Fail? ==> r.error == SqlCommitError(model, c, now)
      ensures r.Pass? ==> db == CommittedTables(old(db), model, c)
    {
      hide StoreInv.Valid, Related, CommitReady, PlanRunning, WithCheckpoint, CommittedRow;
      hide CheckRowLease, CheckRowThread, CheckEffects, ItemsOk, EntriesOk, Above, WritesReady;
      hide InsertEvents, OverwriteEffects, ApplyItems, ApplyEntries, DeleteThread, ChecksPass;
      var row := db.runs[c.run];
      ReadyFacts(db, model, c);
      PlanAgrees(db, model, c, now);
      ErrorAgrees(db, model, c, now);
      r := CommitChecks(c, row, now);
      if r.Pass? {
        CheckpointKeepsReady(old(db), WithCheckpoint(old(db).checkpoints, c), model, c);
        r := CommitWrites(c, row.thread, model);
        if r.Pass? {
          FinishRow(c);
        }
      }
    }

    /** The answer to a commit that does not get as far as the tables of its run, if there is one. */
    method CommitGuards(c: Commit, ghost now: int) returns (early: Option<Result<CommitResult>>)
      requires Valid()
      ensures early.None? ==> CommitReady(model, c) && c.run in db.runs && !CommitEmpty(c)
                              && PlanCommit(model, c, now) == PlanRunning(model, model.runs[c.run], c, now)
      ensures early.Some? ==> PlanCommit(model, c, now) != Accept
                              && Answers(model, c, PlanCommit(model, c, now), early.value)
                              && early.value == SqlCommitAnswer(model, c, now)
    {
      hide StoreInv.Valid, Related, PlanRunning, CommitShapeOk;
      GuardFacts(db, model, c.run);
      if CommitEmpty(c) || !CommitShapeOk(c) {
        return Some(Err(InvalidRunEvent));
      }
      if c.run !in db.runs || db.runs[c.run].scope != c.scope {
        return Some(Ok(Skipped));
      }
      if db.runs[c.run].session != c.session {
        return Some(Err(InvalidRunEvent));
      }
      if db.runs[c.run].status.IsTerminal() {
        if c.finish.Some? {
          if k :| k in db.events && k.run == c.run && db.events[k].terminal {
            return Some(Ok(CommitFinished([db.events[k]], AlreadyFinished(db.events[k]))));
          }
        }
        return Some(Ok(Skipped));
      }
      return None;
    }

    method CommitRun(c: Commit, now: int) returns (r: Result<CommitResult>)
      requires Valid()
      modifies this
      ensures Valid()
      ensures Answers(old(model), c, PlanCommit(old(model), c, now), r)
      ensures r == SqlCommitAnswer(old(model), c, now)
      ensures PlanCommit(old(model), c, now) == Accept ==> CommitsTo(old(model), c, model)
      ensures PlanCommit(old(model), c, now) != Accept ==> db == old(db) && model == old(model)
      ensures DoneClean(old(model).effects) && AllConstructed(c) ==>
                model == StoreSpec.CommitRun(old(model), c, now).0 && DoneClean(model.effects)
    {
      ghost var s := model;
      var saved := db;
      hide StoreInv.Valid, Related, PlanCommit, PlanRunning, CommitReady, DoneClean, AllConstructed, CommittedTables;
      hide CommitShapeOk;
      if PlanCommit(s, c, now) == Accept {
        AcceptedCommit(saved, s, c, now);
      }
      var early := CommitGuards(c, now);
      if early.Some? {
        return early.value;
      }
      var check := CommitRows(c, now);
      if check.Fail? {
        db := saved;
        RunningRejects(s, c, now);
        RunningError(s, c, now);
        return Err(check.error);
      }
      model := CommittedStore(s, c);
      AcceptedAnswer(s, c, now);
      if c.finish.Some? {
        ShapeHasEvents(s, c);
        return Ok(CommitFinished(c.events, Finished(c.events[|c.events| - 1])));
      }
      return Ok(Recorded(c.events));
    }

    // -------------------------------------------------------------- start

    /** The answer to a start that finds an earlier run or a busy thread, and whether its
        transaction is rolled back. */
    method StartGuards(run: RunStart, ghost now: int) returns (early: Option<(bool, Result<StartResult>)>)
      requires Valid()
      ensures early.Some? ==> early.value.1 == SqlStartAnswer(model, run, now)
                              && StoreSpec.StartRun(model, run, now).0 == WithSession(model, run)
      ensures early.None? ==> StartFree(db, model, run)
    {
      GuardFacts(db, model, run.run);
      RowBusyAgrees(db, model, run.thread, run.run);
      hide Busy, RowBusy, StoreSpec.StartRun, SqlStartAnswer, Related;
      if run.run in db.runs && db.runs[run.run].scope == run.scope {
        KnownRun(model, run, now);
        return Some(if db.runs[run.run].sig != run.Sig() then (true, Err(StartConflict))
                    else (false, Ok(Existing(RowLookup(run.run, db.runs[run.run])))));
      }
      if run.clientKey.Some? {
        var found := FindIdempotent(HomeOf(run), run.clientKey.value);
        if found.Some? {
          KnownKey(model, run, now);
          var q := found.value;
          return Some(if db.runs[q].sig != run.Sig() then (true, Err(StartConflict))
                      else (false, Ok(Existing(RowLookup(q, db.runs[q])))));
        }
      }
      if RowBusy(db, run.thread, run.run) {
        BusyThread(model, run, now);
        return Some((false, Err(ThreadBusy)));
      }
      return None;
    }

    /** The run that an earlier start with the same scope, session and client key created. */
    method FindIdempotent(home: Home, key: Key) returns (found: Option<RunId>)
      requires Valid()
      ensures found.None? ==> Idempotent(model, home, key).None?
                              && forall q :: q in db.runs ==> !SameKey(db.runs[q], home, key)
      ensures found.Some? ==>
                && found.value in db.runs && Idempotent(model, home, key).Some?
                && RowLookup(found.value, db.runs[found.value]) == Lookup(Idempotent(model, home, key).value)
                && db.runs[found.value].sig == Idempotent(model, home, key).value.start.Sig()
    {
      if q :| q in db.runs && SameKey(db.runs[q], home, key) {
        IdempotentRow(db, model, home, key, q);
        return Some(q);
      }
      NoIdempotentRow(db, model, home, key);
      return None;
    }

    /** Inserts the run, claims its thread and inserts its entries. */
    method InsertRunRows(run: RunStart, now: int, ghost s: Store) returns (r: Outcome)
      requires db.entries == s.log.entries && EntriesDense(s.log) && HomeOf(run) in db.sessions
      modifies this`db
      ensures r.Pass? <==> RowsGoIn(old(db), s, run, now)
      ensures r.Fail? ==> r.error == RowError(old(db), run, now)
      ensures r.Pass? ==> db == StartedTables(old(db), s, run, now)
    {
      hide RowInsertable, EntriesDense, EntriesOk, ApplyEntries, StartedRow;
      assert db.sessions + {HomeOf(run)} == db.sessions;
      if !RowInsertable(db, run) {
        return Fail(StoreDb);
      }
      db := db.(runs := db.runs[run.run := StartedRow(run, now)]);
      if run.lease.Some? {
        if run.thread in db.threadLeases && db.threadLeases[run.thread].until > now {
          return Fail(ThreadBusy);
        }
        var claim := run.lease.value;
        db := db.(threadLeases := db.threadLeases[run.thread := ThreadLease(run.run, claim.owner, claim.id,
                                                                            now + claim.ttl)]);
      }
      r := InsertEntryRows(HomeOf(run), run.run, run.thread, run.entries, s.log);
    }

    method StartRun(run: RunStart, now: int) returns (r: Result<StartResult>)
      requires Valid()
      modifies this
      ensures Valid()
      ensures model == StoreSpec.StartRun(old(model), run, now).0
      ensures r == SqlStartAnswer(old(model), run, now)
    {
      var saved := db;
      ghost var s := WithSession(model, run);
      SessionRelated(db, model, run);
      SessionValid(model, run);
      StartKeeps(model, run, now);
      var early := StartGuards(run, now);
      if early.None? {
        FreeStart(db, model, run, now);
        if run.run !in model.runs {
          StartedRelated(db.(sessions := db.sessions + {HomeOf(run)}), s, run, now);
        }
      }
      hide StoreInv.Valid, Related, SqlStartAnswer, EntriesOk, StartedTables, RowInsertable, StoreSpec.StartRun, StartFree;
      hide RowsGoIn;
      db := db.(sessions := db.sessions + {HomeOf(run)});
      model := StoreSpec.StartRun(model, run, now).0;
      if early.Some? {
        if early.value.0 {
          db := saved;
        }
        return early.value.1;
      }
      var check := InsertRunRows(run, now, s);
      if check.Fail? {
        db := saved;
        return Err(check.error);
      }
      return Ok(Created);
    }

    // -------------------------------------------------------------- single events

    method RecordEvent(run: RunId, scope: Scope, event: Event, now: int) returns (r: Result<bool>)
      requires Valid()
      modifies this
      ensures Valid()
      ensures model == StoreSpec.RecordEvent(old(model), run, scope, event).0
      ensures r == Ok(true) <==> StoreSpec.RecordEvent(old(model), run, scope, event).1 == Ok(true)
      ensures WellAddressed(old(model), run, scope, event) ==>
                SameAnswer(r, StoreSpec.RecordEvent(old(model), run, scope, event).1)
    {
      var c := RecordCommit(run, scope, event);
      hide StoreInv.Valid, Related, StoreSpec.RecordEvent, PlanCommit, StoreSpec.CommitRun, WellAddressed;
      hide CommitReply, CommittedStore, DoneClean, AllConstructed, CommitShapeOk;
      RecordIsCommit(model, run, scope, event, now);
      PlanReplies(model, c, now);
      var reply := CommitRun(c, now);
      r := match reply
           case Ok(Recorded(_)) => Ok(true)
           case Ok(Skipped) => Ok(false)
           case Ok(CommitFinished(_, _)) => Err(InvalidRunEvent)
           case Err(e) => Err(e);
    }

    method FinishRun(f: FinishRecord, now: int) returns (r: Result<FinishResult>)
      requires Valid()
      modifies this
      ensures Valid()
      ensures model == StoreSpec.FinishRun(old(model), f).0
      ensures r == Ok(Finished(f.terminalEvent))
              <==> StoreSpec.FinishRun(old(model), f).1 == Ok(Finished(f.terminalEvent))
      ensures WellAddressed(old(model), f.run, f.scope, f.terminalEvent) ==>
                SameAnswer(r, StoreSpec.FinishRun(old(model), f).1)
    {
      var c := FinishCommit(f);
      hide StoreInv.Valid, Related, StoreSpec.FinishRun, PlanCommit, StoreSpec.CommitRun, WellAddressed;
      hide CommitReply, CommittedStore, DoneClean, AllConstructed, CommitShapeOk;
      FinishIsCommit(model, f, now);
      if WellAddressed(model, f.run, f.scope, f.terminalEvent) {
        FinishAnswersAlike(model, f, now);
      }
      PlanReplies(model, c, now);
      var reply := CommitRun(c, now);
      r := match reply
           case Ok(CommitFinished(_, result)) => Ok(result)
           case Ok(Skipped) => Err(RunNotFound)
           case Ok(Recorded(_)) => Err(InvalidRunEvent)
           case Err(e) => Err(e);
    }

    method MarkCancelled(run: RunId, scope: Scope) returns (r: Result<()>)
      requires Valid()
      modifies this
      ensures Valid()
      ensures (model, r) == StoreSpec.MarkCancelled(old(model), run, scope)
    {
      GuardFacts(db, model, run);
      CancelKeeps(model, run, scope);
      hide StoreInv.Valid, Related;
      if run !in db.runs || db.runs[run].scope != scope {
        return Err(RunNotFound);
      }
      RunReplaced(db, model, run, model.runs[run].(cancelRequested := true));
      db := db.(runs := db.runs[run := db.runs[run].(cancelRequested := true)]);
      model := model.(runs := model.runs[run := model.runs[run].(cancelRequested := true)]);
      return Ok(());
    }

    // -------------------------------------------------------------- effects

    /** Inserts the effect unless it is there; a conflict undoes that. */
    method ReserveRow(k: RunKey, kind: Value, request: Value) returns (r: Result<Effect>)
      modifies this`db
      ensures db == old(db).(effects := ReserveIn(old(db).effects, k, kind, request).0)
      ensures r == ReserveIn(old(db).effects, k, kind, request).1
    {
      var saved := db;
      if k !in db.effects {
        db := db.(effects := db.effects[k := Effect(kind, request, Reserved, None, None, None)]);
      }
      if db.effects[k].kind != kind || db.effects[k].request != request {
        db := saved;
        return Err(EffectConflict);
      }
      return Ok(db.effects[k]);
    }

    method ReserveEffect(run: RunId, scope: Scope, lease: Option<LeaseId>, key: Key, kind: Value, request: Value,
                         now: int) returns (r: Result<Effect>)
      requires Valid()
      modifies this
      ensures Valid()
      ensures (model, r) == StoreSpec.ReserveEffect(old(model), run, scope, lease, key, kind, request, now)
      ensures DoneClean(old(model).effects) ==> DoneClean(model.effects)
    {
      hide StoreInv.Valid, Related, CheckOpRow, CheckOpRun, ReserveIn, DoneClean;
      OpRowAgrees(db, model, run, scope, lease, now);
      var guard := CheckOpRow(db, run, scope, lease, now);
      if guard.Fail? {
        r := Err(guard.error);
      } else {
        ReserveAgrees(db, model, run, scope, lease, key, kind, request, now);
        r := ReserveRow(RunKey(run, key), kind, request);
        model := model.(effects := db.effects);
      }
    }

    method StartRow(k: RunKey) returns (r: Result<Effect>)
      modifies this`db
      ensures db == old(db).(effects := StartIn(old(db).effects, k).0) && r == StartIn(old(db).effects, k).1
    {
      if k !in db.effects {
        return Err(EffectNotFound);
      }
      if db.effects[k].status.IsBlocking() {
        return Err(EffectPending);
      }
      if db.effects[k].status == Done {
        return Ok(db.effects[k]);
      }
      db := db.(effects := db.effects[k := db.effects[k].(status := Started, result := None, errorCode := None,
                                                          errorMessage := None)]);
      return Ok(db.effects[k]);
    }

    method StartEffect(run: RunId, scope: Scope, lease: Option<LeaseId>, key: Key, now: int)
      returns (r: Result<Effect>)
      requires Valid()
      modifies this
      ensures Valid()
      ensures (model, r) == StoreSpec.StartEffect(old(model), run, scope, lease, key, now)
      ensures DoneClean(old(model).effects) ==> DoneClean(model.effects)
    {
      hide StoreInv.Valid, Related, CheckOpRow, CheckOpRun, StartIn, DoneClean;
      OpRowAgrees(db, model, run, scope, lease, now);
      var guard := CheckOpRow(db, run, scope, lease, now);
      if guard.Fail? {
        r := Err(guard.error);
      } else {
        StartEffectAgrees(db, model, run, scope, lease, key, now);
        r := StartRow(RunKey(run, key));
        model := model.(effects := db.effects);
      }
    }

    // -------------------------------------------------------------- leases

    /** Two updates; if the second one does not hit exactly one row the first one is undone. */
    method RenewRows(lease: LeaseRef, until: int, now: int) returns (renewed: bool)
      modifies this`db
      ensures renewed <==> RowRenews(old(db), lease, now) && |RenewHits(old(db).threadLeases, lease, now)| == 1
      ensures renewed ==>
                db == old(db).(runs := RowRenewed(old(db).runs, lease.run, until),
                               threadLeases := ThreadsRenewed(old(db).threadLeases,
                                                              RenewHits(old(db).threadLeases, lease, now), until))
      ensures !renewed ==> db == old(db)
    {
      var saved := db;
      if !RowRenews(db, lease, now) {
        return false;
      }
      db := db.(runs := RowRenewed(db.runs, lease.run, until));
      var hits := RenewHits(db.threadLeases, lease, now);
      if |hits| != 1 {
        db := saved;
        return false;
      }
      db := db.(threadLeases := ThreadsRenewed(db.threadLeases, hits, until));
      return true;
    }

    method Renew(lease: LeaseRef, ttl: nat, now: int) returns (renewed: bool)
      requires Valid()
      modifies this
      ensures Valid()
      ensures (model, renewed) == StoreSpec.Renew(old(model), lease, ttl, now)
    {
      hide StoreInv.Valid, Related, StoreSpec.Renew;
      ghost var before := db;
      renewed := RenewRows(lease, now + ttl, now);
      RenewRefines(before, model, lease, ttl, now, renewed, db);
      model := StoreSpec.Renew(model, lease, ttl, now).0;
    }

    method Release(lease: LeaseRef)
      requires Valid()
      modifies this
      ensures Valid()
      ensures model == StoreSpec.Release(old(model), lease)
    {
      ReleaseAgrees(db, model, lease);
      ReleaseKeeps(model, lease);
      hide StoreInv.Valid, Related, Holds;
      db := db.(runs := RowReleased(db, lease));
      db := db.(threadLeases := ThreadsLeft(db.threadLeases, lease));
      model := StoreSpec.Release(model, lease);
    }

    /** Marks the run finished and gives up its lease, if the commit finishes it. */
    method FinishRow(c: Commit)
      requires c.run in db.runs
      modifies this`db
      ensures db == old(db).(runs := old(db).runs[c.run := CommittedRow(old(db).runs[c.run], c)],
                             threadLeases := if c.finish.None? then old(db).threadLeases
                                             else DeleteThread(old(db).threadLeases, c.run))
    {
      var row := db.runs[c.run];
      if c.finish.Some? {
        db := db.(runs := db.runs[c.run := row.(status := c.finish.value.status,
                                                finishReason := Some(c.finish.value.reason),
                                                owner := None, lease := None, expires := None)],
                  threadLeases := DeleteThread(db.threadLeases, c.run));
      } else {
        assert db.runs == db.runs[c.run := row];
      }
    }
  }
}
