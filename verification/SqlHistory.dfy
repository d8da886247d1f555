/**
 Whole histories of the SQL store. They are those of the in-memory store, but for the errors that
 are stored with effects that are done: so what module StoreHistory proves about runs, leases,
 checkpoints, entries and items holds of the SQL store as well, and so does safe reaping.
 */
module SqlHistory {
  import opened Types
  import opened StoreSpec
  import opened StoreInv
  import opened StoreHistory
  import opened StoreResults
  import opened SqlTables
  import opened SqlReap
  import opened SqlAgreement

  /** One operation of the SQL store: a commit also overwrites effects that are done. */
  ghost function SqlNext(s: Store, step: Step): Store {
    if step.op.CommitOp? then SqlCommit(s, step.op.commit, step.now) else StoreHistory.Next(s, step)
  }

  ghost function SqlCommit(s: Store, c: Commit, now: int): Store {
    if PlanCommit(s, c, now) == Accept then
      CheckedEffectsPresent(s.effects, c.run, c.effects, |c.effects|);
      CommittedStore(s, c)
    else s
  }

  ghost function SqlExec(s: Store, steps: seq<Step>, n: nat): Store
    requires n <= |steps|
  {
    if n == 0 then s else SqlNext(SqlExec(s, steps, n - 1), steps[n - 1])
  }

  // ---------------------------------------------------------------- what an accepted commit stores

  /** An accepted commit leaves all of itself in the SQL store; every effect that it updates has taken
      the update over, also one that was done, and every other effect is as before. */
  lemma SqlCommitStores(s: Store, c: Commit, now: int)
    requires StoreInv.Valid(s)
    ensures var next := SqlCommit(s, c, now);
            if Acceptable(s, c, now) then
              && CommitStored(s, c, next) && next.effects.Keys == s.effects.Keys
              && (forall i :: 0 <= i < |c.effects| ==>
                    var k := RunKey(c.run, c.effects[i].key);
                    k in s.effects && TookOver(s.effects[k], c.effects[i], next.effects[k]))
              && (forall k :: k in s.effects && !UpdateKeyIn(c.run, c.effects, k) ==> next.effects[k] == s.effects[k])
            else next == s
  {
    AcceptedExactly(s, c, now);
    if Acceptable(s, c, now) {
      AcceptedIsStored(s, c, now);
      AcceptedPasses(s, c, now);
      EffectsStay(s, c, Committed(s, c), SqlCommit(s, c, now));
      OverwrittenAll(s.effects, c.run, c.effects);
    }
    hide StoreInv.Valid, PlanCommit, Acceptable, CommitStored, Committed, OverwriteEffects, UpdateKeyIn;
  }

  lemma EffectsStay(s: Store, c: Commit, a: Store, b: Store)
    requires CommitStored(s, c, a) && b == a.(effects := b.effects)
    ensures CommitStored(s, c, b)
  {
    hide RunCommitted, CheckpointStored, ItemsStored, EntriesStored;
  }

  lemma OverwrittenAll(effects: map<RunKey, Effect>, run: RunId, updates: seq<EffectUpdate>)
    requires CheckEffects(effects, run, updates, |updates|).Pass? && EffectsPresent(effects, run, updates)
    ensures var after := OverwriteEffects(effects, run, updates, |updates|);
            && after.Keys == effects.Keys
            && (forall i :: 0 <= i < |updates| ==>
                  var k := RunKey(run, updates[i].key);
                  k in effects && TookOver(effects[k], updates[i], after[k]))
            && (forall k :: k in effects && !UpdateKeyIn(run, updates, k) ==> after[k] == effects[k])
  {
    var after := OverwriteEffects(effects, run, updates, |updates|);
    CheckedKeysDistinct(effects, run, updates, |updates|);
    forall i | 0 <= i < |updates|
      ensures var k := RunKey(run, updates[i].key); TookOver(effects[k], updates[i], after[k])
    {
      EffectAt(effects, run, updates, i, |updates|);
    }
    forall k | k in effects && !UpdateKeyIn(run, updates, k) ensures after[k] == effects[k] {
      OverwriteElsewhere(effects, run, updates, |updates|, k);
    }
    hide CheckEffects;
  }

  // ---------------------------------------------------------------- the difference

  /** The effects are equal, or done with the same result. */
  predicate AlikeEffect(a: Effect, b: Effect) {
    a == b || (a.status == Done && b == a.(errorCode := b.errorCode, errorMessage := b.errorMessage))
  }

  ghost predicate AlikeEffects(a: map<RunKey, Effect>, b: map<RunKey, Effect>) {
    a.Keys == b.Keys && forall k :: k in a ==> AlikeEffect(a[k], b[k])
  }

  /** The stores are equal but for the errors of effects that are done. */
  ghost predicate Alike(a: Store, b: Store) {
    b == a.(effects := b.effects) && AlikeEffects(a.effects, b.effects)
  }

  // ---------------------------------------------------------------- every operation keeps it

  lemma {:induction false} AlikeChecks(a: map<RunKey, Effect>, b: map<RunKey, Effect>, run: RunId,
                                       updates: seq<EffectUpdate>, n: nat)
    requires AlikeEffects(a, b) && n <= |updates|
    ensures CheckEffects(a, run, updates, n) == CheckEffects(b, run, updates, n)
  {
    if n > 0 {
      AlikeChecks(a, b, run, updates, n - 1);
      hide EffectKeyRepeats;
    }
  }

  lemma AlikePlans(a: Store, b: Store, c: Commit, now: int)
    requires Alike(a, b)
    ensures PlanCommit(a, c, now) == PlanCommit(b, c, now)
  {
    AlikeChecks(a.effects, b.effects, c.run, c.effects, |c.effects|);
    hide CheckEffects, ItemsOk, EntriesOk, Increases, CommitShapeOk, CheckLease, Busy;
  }

  lemma AlikeUpdates(a: map<RunKey, Effect>, b: map<RunKey, Effect>, run: RunId, updates: seq<EffectUpdate>)
    requires AlikeEffects(a, b)
    requires CheckEffects(b, run, updates, |updates|).Pass? && CheckEffects(a, run, updates, |updates|).Pass?
    requires EffectsPresent(a, run, updates) && EffectsPresent(b, run, updates)
    ensures AlikeEffects(OverwriteEffects(a, run, updates, |updates|), ApplyEffects(b, run, updates, |updates|))
  {
    var n := |updates|;
    var x, y := OverwriteEffects(a, run, updates, n), ApplyEffects(b, run, updates, n);
    CheckedKeysDistinct(a, run, updates, n);
    CheckedEffectsPresent(a, run, updates, n);
    forall k | k in a ensures k in x && AlikeEffect(x[k], y[k]) {
      if i :| 0 <= i < n && RunKey(run, updates[i].key) == k {
        EffectAt(a, run, updates, i, n);
        EffectAt(b, run, updates, i, n);
        assert CheckEffect(a, run, updates, i).Pass?;
      } else {
        OverwriteElsewhere(a, run, updates, n, k);
        EffectsElsewhere(b, run, updates, n, k);
      }
    }
  }

  lemma AlikeCommit(a: Store, b: Store, c: Commit, now: int)
    requires Alike(a, b)
    ensures Alike(SqlCommit(a, c, now), CommitRun(b, c, now).0)
  {
    AlikePlans(a, b, c, now);
    if PlanCommit(a, c, now) == Accept {
      AcceptedPasses(a, c, now);
      AcceptedPasses(b, c, now);
      hide PlanCommit, ApplyEffects, OverwriteEffects, ApplyItems, ApplyEntries, CommittedRun, AlikeEffects;
      hide CheckEffects;
      AlikeUpdates(a.effects, b.effects, c.run, c.effects);
    }
  }

  lemma AcceptedPasses(s: Store, c: Commit, now: int)
    requires PlanCommit(s, c, now) == Accept
    ensures CheckEffects(s.effects, c.run, c.effects, |c.effects|).Pass?
    ensures c.run in s.runs && EffectsPresent(s.effects, c.run, c.effects)
  {
    CheckedEffectsPresent(s.effects, c.run, c.effects, |c.effects|);
    hide CheckEffects, ItemsOk, EntriesOk, Increases, CommitShapeOk, CheckLease, CheckThread;
  }

  lemma SameCreates(s: Store, e: map<RunKey, Effect>, run: RunStart, now: int)
    ensures Creates(s.(effects := e), run, now) == Creates(s, run, now)
    ensures WithRun(s.(effects := e), run, now) == WithRun(s, run, now).(effects := e)
  {
    hide Busy, EntriesOk, WithRun, Idempotent, ThreadHeld;
    SameGuards(s, e, run, now);
    if run.clientKey.Some? {
      SameKeyFound(s, e, HomeOf(run), run.clientKey.value);
    }
  }

  lemma SameSession(s: Store, e: map<RunKey, Effect>, run: RunStart)
    ensures WithSession(s.(effects := e), run) == WithSession(s, run).(effects := e)
  {
  }

  /** Starting a run looks at no effect and changes none. */
  lemma StartCommutes(s: Store, e: map<RunKey, Effect>, run: RunStart, now: int)
    ensures StartRun(s.(effects := e), run, now).0 == StartRun(s, run, now).0.(effects := e)
  {
    hide StartRun, Creates, WithRun, WithSession;
    StartShape(s, run, now);
    StartShape(s.(effects := e), run, now);
    SameSession(s, e, run);
    SameCreates(WithSession(s, run), e, run, now);
  }

  lemma SameGuards(s: Store, e: map<RunKey, Effect>, run: RunStart, now: int)
    ensures ThreadHeld(s.(effects := e), run.thread, now) == ThreadHeld(s, run.thread, now)
    ensures WithRun(s.(effects := e), run, now) == WithRun(s, run, now).(effects := e)
  {
    hide ApplyEntries, NewRun;
  }

  lemma SameKeyFound(s: Store, e: map<RunKey, Effect>, home: Home, key: Key)
    ensures Idempotent(s.(effects := e), home, key) == Idempotent(s, home, key)
  {
  }

  lemma AlikeStart(a: Store, b: Store, run: RunStart, now: int)
    requires Alike(a, b)
    ensures Alike(StartRun(a, run, now).0, StartRun(b, run, now).0)
  {
    StartCommutes(a, b.effects, run, now);
    StartCommutes(a, a.effects, run, now);
    assert a == a.(effects := a.effects) && b == a.(effects := b.effects);
    hide StartRun, AlikeEffects;
  }

  lemma AlikeReserve(a: Store, b: Store, run: RunId, scope: Scope, lease: Option<LeaseId>, key: Key, kind: Value,
                     request: Value, now: int)
    requires Alike(a, b)
    ensures Alike(ReserveEffect(a, run, scope, lease, key, kind, request, now).0,
                  ReserveEffect(b, run, scope, lease, key, kind, request, now).0)
  {
    hide CheckLease;
  }

  lemma AlikeStartEffect(a: Store, b: Store, run: RunId, scope: Scope, lease: Option<LeaseId>, key: Key, now: int)
    requires Alike(a, b)
    ensures Alike(StartEffect(a, run, scope, lease, key, now).0, StartEffect(b, run, scope, lease, key, now).0)
  {
    hide CheckOpRun, AlikeEffects;
    var k := RunKey(run, key);
    AlikeGuard(a, b, run, scope, lease, now);
    AlikeAt(a.effects, b.effects, k);
    if k in a.effects {
      AlikePut(a.effects, b.effects, k, Effect(a.effects[k].kind, a.effects[k].request, Started, None, None, None));
    }
  }

  lemma AlikeAt(a: map<RunKey, Effect>, b: map<RunKey, Effect>, k: RunKey)
    requires AlikeEffects(a, b)
    ensures (k in a <==> k in b) && (k in a ==> AlikeEffect(a[k], b[k]))
  {
  }

  lemma AlikePut(a: map<RunKey, Effect>, b: map<RunKey, Effect>, k: RunKey, e: Effect)
    requires AlikeEffects(a, b)
    ensures AlikeEffects(a[k := e], b[k := e])
  {
  }

  lemma AlikeGuard(a: Store, b: Store, run: RunId, scope: Scope, lease: Option<LeaseId>, now: int)
    requires Alike(a, b)
    ensures CheckOpRun(a, run, scope, lease, now) == CheckOpRun(b, run, scope, lease, now)
  {
    hide CheckLease, AlikeEffects;
  }

  lemma AlikeLease(a: Store, b: Store, ref: LeaseRef, ttl: nat, now: int)
    requires Alike(a, b)
    ensures Alike(Renew(a, ref, ttl, now).0, Renew(b, ref, ttl, now).0) && Alike(Release(a, ref), Release(b, ref))
  {
    assert RenewOk(a, ref, now) == RenewOk(b, ref, now);
    hide AlikeEffects, RenewOk;
  }

  lemma AlikeReaped(a: Store, b: Store, run: RunId, event: Event, now: int)
    requires Alike(a, b)
    ensures Alike(Reap(a, run, event, now), Reap(b, run, event, now))
  {
    hide AlikeEffects, ReapEventOk, Stale, ReapedRun;
  }

  lemma AlikeSingle(a: Store, b: Store, run: RunId, scope: Scope, event: Event)
    requires Alike(a, b)
    ensures Alike(RecordEvent(a, run, scope, event).0, RecordEvent(b, run, scope, event).0)
  {
    hide AlikeEffects, Increases;
  }

  lemma AlikeCancelled(a: Store, b: Store, run: RunId, scope: Scope)
    requires Alike(a, b)
    ensures Alike(MarkCancelled(a, run, scope).0, MarkCancelled(b, run, scope).0)
  {
    hide AlikeEffects;
  }

  predicate Finishes(s: Store, f: FinishRecord) {
    FinishRun(s, f).1.Ok? && FinishRun(s, f).1.value.Finished?
  }

  lemma FinishShape(s: Store, f: FinishRecord)
    ensures Finishes(s, f) ==> f.run in s.runs
    ensures FinishRun(s, f).0
            == if !Finishes(s, f) then s
               else s.(runs := s.runs[f.run := FinishedRun(s.runs[f.run], f)],
                       log := ApplyEntries(s.log, Home(f.scope, f.session), f.run, s.runs[f.run].start.thread, f.entries,
                                           |f.entries|))
  {
    hide EntriesOk, ApplyEntries, Increases, FinishedRun;
  }

  lemma SameFinishes(s: Store, e: map<RunKey, Effect>, f: FinishRecord)
    ensures Finishes(s.(effects := e), f) == Finishes(s, f)
  {
    hide EntriesOk, ApplyEntries, Increases, FinishedRun;
  }

  /** Finishing a run looks at no effect and changes none. */
  lemma FinishCommutes(s: Store, e: map<RunKey, Effect>, f: FinishRecord)
    ensures FinishRun(s.(effects := e), f).0 == FinishRun(s, f).0.(effects := e)
  {
    hide FinishRun, Finishes, ApplyEntries, FinishedRun;
    FinishShape(s, f);
    FinishShape(s.(effects := e), f);
    SameFinishes(s, e, f);
  }

  lemma AlikeFinish(a: Store, b: Store, f: FinishRecord)
    requires Alike(a, b)
    ensures Alike(FinishRun(a, f).0, FinishRun(b, f).0)
  {
    FinishCommutes(a, b.effects, f);
    FinishCommutes(a, a.effects, f);
    assert a == a.(effects := a.effects) && b == a.(effects := b.effects);
    hide FinishRun, AlikeEffects;
  }

  lemma AlikeNext(a: Store, b: Store, step: Step)
    requires Alike(a, b)
    ensures Alike(SqlNext(a, step), StoreHistory.Next(b, step))
  {
    hide StartRun, CommitRun, SqlCommit, FinishRun, RecordEvent, MarkCancelled, ReserveEffect, StartEffect, Alike;
    hide Renew, Release, Reap;
    match step.op
    case StartOp(run) => AlikeStart(a, b, run, step.now);
    case CommitOp(c) => AlikeCommit(a, b, c, step.now);
    case FinishOp(f) => AlikeFinish(a, b, f);
    case ReserveOp(run, scope, lease, key, kind, request) =>
      AlikeReserve(a, b, run, scope, lease, key, kind, request, step.now);
    case StartEffectOp(run, scope, lease, key) => AlikeStartEffect(a, b, run, scope, lease, key, step.now);
    case RecordOp(run, scope, event) => AlikeSingle(a, b, run, scope, event);
    case CancelOp(run, scope) => AlikeCancelled(a, b, run, scope);
    case RenewOp(ref, ttl) => AlikeLease(a, b, ref, ttl, step.now);
    case ReleaseOp(ref) => AlikeLease(a, b, ref, 0, step.now);
    case ReapOp(run, event) => AlikeReaped(a, b, run, event, step.now);
  }

  lemma AlikeItself(s: Store)
    ensures Alike(s, s)
  {
  }

  /** Over every history, of any operations and any effect updates, the SQL store holds what the
      in-memory store holds, but for the errors stored with effects that are done. */
  lemma {:induction false} HistoriesAgree(s: Store, steps: seq<Step>, n: nat)
    requires n <= |steps|
    ensures Alike(SqlExec(s, steps, n), Exec(s, steps, n))
  {
    hide SqlNext, StoreHistory.Next, Alike;
    if n > 0 {
      HistoriesAgree(s, steps, n - 1);
      AlikeNext(SqlExec(s, steps, n - 1), Exec(s, steps, n - 1), steps[n - 1]);
    } else {
      AlikeItself(s);
    }
  }

  lemma AlikeValid(a: Store, b: Store)
    requires Alike(a, b) && StoreInv.Valid(b)
    ensures StoreInv.Valid(a)
  {
    hide RunsOk, OneRunning, LeasesOk, CheckpointsOk, KeysOk, EntriesDense;
  }

  lemma SqlExecValid(s: Store, steps: seq<Step>, n: nat)
    requires StoreInv.Valid(s) && n <= |steps|
    ensures StoreInv.Valid(SqlExec(s, steps, n))
  {
    hide StoreInv.Valid, SqlExec, Exec;
    HistoriesAgree(s, steps, n);
    ExecValid(s, steps, n);
    AlikeValid(SqlExec(s, steps, n), Exec(s, steps, n));
  }

  // ---------------------------------------------------------------- reaping

  /** With a monotone clock, over any operations of the SQL store, a run with an expired lease is
      ended, gives its lease back, or gets no event. */
  lemma SqlStaleStaysPut(s: Store, steps: seq<Step>, i: nat, j: nat, r: RunId, now: int)
    requires StoreInv.Valid(s) && i <= j <= |steps|
    requires r in SqlExec(s, steps, i).runs && Stale(SqlExec(s, steps, i).runs[r], now)
    requires forall k :: i <= k < j ==> now <= steps[k].now
    ensures r in SqlExec(s, steps, j).runs
    ensures StillStale(SqlExec(s, steps, i).runs[r], SqlExec(s, steps, j).runs[r])
  {
    hide StoreInv.Valid, SqlExec, Exec, Stale, StillStale, AlikeEffects;
    HistoriesAgree(s, steps, i);
    HistoriesAgree(s, steps, j);
    StaleStaysPut(s, steps, i, j, r, now);
  }

  lemma {:induction false} AlikeReap(a: Store, b: Store, picks: seq<Pick>, now: int, n: nat)
    requires Alike(a, b) && n <= |picks|
    ensures ReapPicks(a, picks, now, n).Ok? <==> ReapPicks(b, picks, now, n).Ok?
    ensures ReapPicks(a, picks, now, n).Ok? ==> Alike(ReapPicks(a, picks, now, n).value, ReapPicks(b, picks, now, n).value)
  {
    hide Stale, ReapEventOk, ReapedRun, AlikeEffects;
    if n > 0 {
      AlikeReap(a, b, picks, now, n - 1);
    }
  }

  /** Reaping in two transactions is safe for the SQL store under every interleaving of its own
      operations, whatever effect updates its commits carry: the second transaction does not fail,
      finishes exactly the picked runs that still have an expired lease, each with its next event,
      changes no other run, and the invariants hold afterwards. */
  lemma SqlTwoPhaseReap(s: Store, steps: seq<Step>, i: nat, j: nat, picks: seq<Pick>, first: int, second: int)
    requires StoreInv.Valid(s) && i <= j <= |steps| && first <= second
    requires forall k :: i <= k < j ==> first <= steps[k].now <= second
    requires Picked(SqlExec(s, steps, i), picks, first)
    ensures ReapPicks(SqlExec(s, steps, j), picks, second, |picks|).Ok?
    ensures StoreInv.Valid(ReapPicks(SqlExec(s, steps, j), picks, second, |picks|).value)
    ensures ReapedBy(SqlExec(s, steps, j), ReapPicks(SqlExec(s, steps, j), picks, second, |picks|).value, picks, second,
                     |picks|)
  {
    hide StoreInv.Valid, SqlExec, Exec, ReapPicks, Stale, ReapEventOk, ReapedRun, Lookup, AlikeEffects;
    HistoriesAgree(s, steps, i);
    HistoriesAgree(s, steps, j);
    TwoPhaseReap(s, steps, i, j, picks, first, second);
    AlikeReap(SqlExec(s, steps, j), Exec(s, steps, j), picks, second, |picks|);
    AlikeValid(ReapPicks(SqlExec(s, steps, j), picks, second, |picks|).value,
               ReapPicks(Exec(s, steps, j), picks, second, |picks|).value);
  }

  lemma SelectedValid(s: Store, rows: seq<(RunLookup, int)>, limit: nat, now: int,
                      build: (RunLookup, int) -> Event, picks: seq<Pick>)
    requires StoreInv.Valid(s) && Selected(s, rows, limit, now) && Built(rows, build, Ok(picks))
    ensures Picked(s, picks, now)
  {
    hide Selected, Built, LogOk, OneRunning, LeasesOk, KeysOk, EntriesDense, CheckpointsOk;
    SelectedPicked(s, rows, limit, now, build, picks);
  }

  /** The picks of the first transaction, in the store that the second one finds. */
  lemma SqlReapIsSafe(s: Store, others: seq<Step>, picks: seq<Pick>, first: int, second: int)
    requires StoreInv.Valid(s) && Picked(s, picks, first) && first <= second
    requires forall k :: 0 <= k < |others| ==> first <= others[k].now <= second
    ensures var found := SqlExec(s, others, |others|);
            && Targeted(found, picks)
            && ReapPicks(found, picks, second, |picks|).Ok?
            && ReapedBy(found, ReapPicks(found, picks, second, |picks|).value, picks, second, |picks|)
  {
    hide StoreInv.Valid, Stale, ReapPicks, ReapedRun, Lookup;
    assert SqlExec(s, others, 0) == s;
    SqlTwoPhaseReap(s, others, 0, |others|, picks, first, second);
    HistoriesAgree(s, others, |others|);
    forall i | 0 <= i < |picks| && picks[i].lookup.run in SqlExec(s, others, |others|).runs
      ensures picks[i].event.terminal
      ensures EventFor(picks[i].event, picks[i].lookup.run,
                       SqlExec(s, others, |others|).runs[picks[i].lookup.run].start.session)
    {
      var r := picks[i].lookup.run;
      assert PickOk(s, picks[i], first);
      PickStart(s, others, r);
    }
  }

  lemma PickStart(s: Store, others: seq<Step>, r: RunId)
    requires StoreInv.Valid(s) && r in s.runs && Alike(SqlExec(s, others, |others|), Exec(s, others, |others|))
    ensures r in SqlExec(s, others, |others|).runs
    ensures SqlExec(s, others, |others|).runs[r].start == s.runs[r].start && s.runs[r].start.run == r
  {
    assert s.runs[r].start.run == r;
    hide StoreInv.Valid, SqlExec;
    ExecEvolves(s, others, 0, |others|, r);
  }

  // ---------------------------------------------------------------- when the histories are equal

  ghost predicate OnlyConstructed(steps: seq<Step>) {
    forall i :: 0 <= i < |steps| && steps[i].op.CommitOp? ==> AllConstructed(steps[i].op.commit)
  }

  lemma CleanStep(s: Store, step: Step)
    requires DoneClean(s.effects) && (step.op.CommitOp? ==> AllConstructed(step.op.commit))
    ensures SqlNext(s, step) == StoreHistory.Next(s, step) && DoneClean(StoreHistory.Next(s, step).effects)
  {
    hide StartRun, CommitRun, SqlCommit, FinishRun, RecordEvent, MarkCancelled, DoneClean, AllConstructed;
    hide Renew, Release, Reap, ReserveEffect, StartEffect;
    match step.op
    case StartOp(run) => StartKeepsEffects(s, run, step.now);
    case CommitOp(c) => CleanCommit(s, c, step.now);
    case FinishOp(f) => FinishKeepsEffects(s, f);
    case ReserveOp(run, scope, lease, key, kind, request) =>
      CleanReserve(s, run, scope, lease, key, kind, request, step.now);
    case StartEffectOp(run, scope, lease, key) => CleanStartEffect(s, run, scope, lease, key, step.now);
    case _ => OthersKeepEffects(s, step);
  }

  lemma CleanCommit(s: Store, c: Commit, now: int)
    requires DoneClean(s.effects) && AllConstructed(c)
    ensures SqlCommit(s, c, now) == CommitRun(s, c, now).0 && DoneClean(CommitRun(s, c, now).0.effects)
  {
    if PlanCommit(s, c, now) == Accept {
      AcceptedPasses(s, c, now);
      ConstructedRewritesNothing(s.effects, c.run, c.effects);
      OverwriteAgrees(s.effects, c.run, c.effects);
      ConstructedStaysClean(s.effects, c.run, c.effects, |c.effects|);
    }
    hide PlanCommit, DoneClean, ApplyEffects, OverwriteEffects, ApplyItems, ApplyEntries, CommittedRun, CheckEffects;
  }

  lemma StartKeepsEffects(s: Store, run: RunStart, now: int)
    ensures StartRun(s, run, now).0.effects == s.effects
  {
    StartShape(s, run, now);
    hide StartRun, ApplyEntries, NewRun, Creates;
  }

  lemma FinishKeepsEffects(s: Store, f: FinishRecord)
    ensures FinishRun(s, f).0.effects == s.effects
  {
    FinishShape(s, f);
    hide FinishRun, ApplyEntries, FinishedRun, Finishes;
  }

  lemma OthersKeepEffects(s: Store, step: Step)
    requires step.op.RecordOp? || step.op.CancelOp? || step.op.RenewOp? || step.op.ReleaseOp? || step.op.ReapOp?
    ensures StoreHistory.Next(s, step).effects == s.effects
  {
    hide StartRun, CommitRun, FinishRun, ReserveEffect, StartEffect, Increases, RenewOk, ReapEventOk, Stale;
  }

  lemma CleanReserve(s: Store, run: RunId, scope: Scope, lease: Option<LeaseId>, key: Key, kind: Value,
                     request: Value, now: int)
    requires DoneClean(s.effects)
    ensures DoneClean(ReserveEffect(s, run, scope, lease, key, kind, request, now).0.effects)
  {
    hide CheckLease;
  }

  lemma CleanStartEffect(s: Store, run: RunId, scope: Scope, lease: Option<LeaseId>, key: Key, now: int)
    requires DoneClean(s.effects)
    ensures DoneClean(StartEffect(s, run, scope, lease, key, now).0.effects)
  {
    hide CheckLease;
  }

  /** With updates from the library's constructors the two stores have the same histories. */
  lemma {:induction false} ConstructedHistoriesEqual(s: Store, steps: seq<Step>, n: nat)
    requires n <= |steps| && DoneClean(s.effects) && OnlyConstructed(steps)
    ensures SqlExec(s, steps, n) == Exec(s, steps, n) && DoneClean(Exec(s, steps, n).effects)
  {
    hide SqlNext, StoreHistory.Next, DoneClean;
    if n > 0 {
      ConstructedHistoriesEqual(s, steps, n - 1);
      CleanStep(Exec(s, steps, n - 1), steps[n - 1]);
    }
  }

  // ---------------------------------------------------------------- when they differ

  /** A run that reserved an effect and reported it done. */
  function DoneSteps(start: RunStart, key: Key, kind: Value, result: Value, code: Value, e: Event, f: Event): seq<Step> {
    [Step(StartOp(start), 0), Step(ReserveOp(start.run, start.scope, None, key, kind, kind), 0),
     Step(CommitOp(Reports(start, e, EffectUpdate(key, Done, Some(result), None, None))), 0),
     Step(CommitOp(Reports(start, f, EffectUpdate(key, Done, Some(result), Some(code), None))), 0)]
  }

  function Reports(start: RunStart, e: Event, u: EffectUpdate): Commit {
    Commit(start.run, start.session, start.scope, None, None, [e], [u], [], [], None)
  }

  /** The effect of the run is what the update says, or as it was reserved; its log ends before `n`. */
  ghost predicate Holding(s: Store, start: RunStart, k: RunKey, e: Effect, n: int) {
    && start.run in s.runs && s.runs[start.run].start == start && s.runs[start.run].status == Running
    && s.runs[start.run].lease.None? && LastNum(s.runs[start.run].events) < n
    && k in s.effects && s.effects[k] == e
  }

  /** Such a commit is accepted, and then the effect is what each store makes of the update. */
  lemma ReportAccepted(s: Store, start: RunStart, e: Event, u: EffectUpdate, was: Effect)
    requires Holding(s, start, RunKey(start.run, u.key), was, e.num) && e.num > 0
    requires EventFor(e, start.run, start.session) && !e.terminal && u.status == Done
    requires was.status == Done ==> was.result == u.result
    ensures var c, k := Reports(start, e, u), RunKey(start.run, u.key);
            && PlanCommit(s, c, 0) == Accept
            && Holding(CommitRun(s, c, 0).0, start, k, UpdateEffect(was, u), e.num + 1)
            && Holding(SqlCommit(s, c, 0), start, k, OverwriteEffect(was, u), e.num + 1)
  {
    var c, k := Reports(start, e, u), RunKey(start.run, u.key);
    ReportPlanned(s, start, e, u, was);
    hide PlanCommit;
    assert c.effects[0] == u;
    OneUpdate(s.effects, start.run, u);
    hide ApplyEffects, OverwriteEffects, UpdateEffect, OverwriteEffect, ApplyEntries, ApplyItems;
  }

  lemma ReportPlanned(s: Store, start: RunStart, e: Event, u: EffectUpdate, was: Effect)
    requires Holding(s, start, RunKey(start.run, u.key), was, e.num) && e.num > 0
    requires EventFor(e, start.run, start.session) && !e.terminal && u.status == Done
    requires was.status == Done ==> was.result == u.result
    ensures PlanCommit(s, Reports(start, e, u), 0) == Accept
  {
    var c := Reports(start, e, u);
    assert c.effects[0] == u && !EffectKeyRepeats(c.effects, 0);
    assert CheckEffects(s.effects, c.run, c.effects, 0).Pass?;
    assert CheckEffect(s.effects, c.run, c.effects, 0).Pass?;
    assert CheckEffects(s.effects, c.run, c.effects, 1).Pass?;
    hide CheckEffects, CheckThread;
  }

  lemma OneUpdate(effects: map<RunKey, Effect>, run: RunId, u: EffectUpdate)
    requires RunKey(run, u.key) in effects
    ensures var k := RunKey(run, u.key);
            && EffectsPresent(effects, run, [u])
            && ApplyEffects(effects, run, [u], 1) == effects[k := UpdateEffect(effects[k], u)]
            && OverwriteEffects(effects, run, [u], 1) == effects[k := OverwriteEffect(effects[k], u)]
  {
    assert ApplyEffects(effects, run, [u], 0) == effects == OverwriteEffects(effects, run, [u], 0);
  }

  lemma ReservedOnNew(start: RunStart, key: Key, kind: Value)
    requires start.clientKey.None? && start.entries == [] && start.lease.None?
    ensures var s := ReserveEffect(StartRun(Empty(), start, 0).0, start.run, start.scope, None, key, kind, kind, 0).0;
            Holding(s, start, RunKey(start.run, key), Effect(kind, kind, Reserved, None, None, None), 1)
  {
    assert StartRun(Empty(), start, 0).0.runs == map[start.run := NewRun(start, 0)];
    assert StartRun(Empty(), start, 0).0.effects == map[];
    hide StartRun;
  }

  /** Two reachable stores that differ: from the same accepted operations, the last of which reports a
      done effect again with an error code, only the SQL store takes the code over. */
  lemma HistoriesDiffer(start: RunStart, key: Key, kind: Value, result: Value, code: Value, e: Event, f: Event)
    requires start.clientKey.None? && start.entries == [] && start.lease.None?
    requires EventFor(e, start.run, start.session) && !e.terminal && e.num == 1
    requires EventFor(f, start.run, start.session) && !f.terminal && f.num == 2
    ensures var steps := DoneSteps(start, key, kind, result, code, e, f);
            var k := RunKey(start.run, key);
            var a, b := SqlExec(Empty(), steps, 4), Exec(Empty(), steps, 4);
            && PlanCommit(SqlExec(Empty(), steps, 3), steps[3].op.commit, 0) == Accept
            && PlanCommit(Exec(Empty(), steps, 3), steps[3].op.commit, 0) == Accept
            && k in a.effects && a.effects[k].errorCode == Some(code)
            && k in b.effects && b.effects[k].errorCode == None
  {
    var steps := DoneSteps(start, key, kind, result, code, e, f);
    var u, v := EffectUpdate(key, Done, Some(result), None, None), EffectUpdate(key, Done, Some(result), Some(code), None);
    var reserved := Effect(kind, kind, Reserved, None, None, None);
    hide StartRun, ReserveEffect, CommitRun, SqlCommit, PlanCommit, Holding;
    ReservedOnNew(start, key, kind);
    Steps4(Empty(), steps);
    var s := Exec(Empty(), steps, 2);
    ReportAccepted(s, start, e, u, reserved);
    var done := UpdateEffect(reserved, u);
    ReportAccepted(CommitRun(s, Reports(start, e, u), 0).0, start, f, v, done);
    ReportAccepted(SqlCommit(s, Reports(start, e, u), 0), start, f, v, done);
    HoldingEffect(Exec(Empty(), steps, 4), start, RunKey(start.run, key), done, 3);
    HoldingEffect(SqlExec(Empty(), steps, 4), start, RunKey(start.run, key), OverwriteEffect(done, v), 3);
  }

  lemma HoldingEffect(s: Store, start: RunStart, k: RunKey, e: Effect, n: int)
    requires Holding(s, start, k, e, n)
    ensures k in s.effects && s.effects[k] == e
  {
  }

  lemma Steps4(s: Store, steps: seq<Step>)
    requires |steps| == 4 && steps[0].op.StartOp? && steps[1].op.ReserveOp?
    requires steps[2].op.CommitOp? && steps[3].op.CommitOp?
    ensures var op := steps[1].op;
            var first := ReserveEffect(StartRun(s, steps[0].op.start, steps[0].now).0, op.run, op.scope, op.lease, op.key,
                                       op.kind, op.request, steps[1].now).0;
            var c, d := steps[2].op.commit, steps[3].op.commit;
            && Exec(s, steps, 2) == first == SqlExec(s, steps, 2)
            && Exec(s, steps, 3) == CommitRun(first, c, steps[2].now).0
            && SqlExec(s, steps, 3) == SqlCommit(first, c, steps[2].now)
            && Exec(s, steps, 4) == CommitRun(Exec(s, steps, 3), d, steps[3].now).0
            && SqlExec(s, steps, 4) == SqlCommit(SqlExec(s, steps, 3), d, steps[3].now)
  {
    hide StartRun, ReserveEffect, CommitRun, SqlCommit, FinishRun, RecordEvent, StartEffect, Renew, Release, Reap;
    assert Exec(s, steps, 1) == StartRun(s, steps[0].op.start, steps[0].now).0 == SqlExec(s, steps, 1);
    assert Exec(s, steps, 2) == SqlExec(s, steps, 2);
  }
}
