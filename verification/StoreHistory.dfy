/**
 Properties of whole histories of the store: any number of operations, in any order, by any
 number of workers.
 */
module StoreHistory {
  import opened Types
  import opened StoreSpec
  import opened StoreInv

  datatype Op =
    | StartOp(start: RunStart)
    | CommitOp(commit: Commit)
    | FinishOp(finish: FinishRecord)
    | RecordOp(run: RunId, scope: Scope, event: Event)
    | CancelOp(run: RunId, scope: Scope)
    | ReserveOp(run: RunId, scope: Scope, lease: Option<LeaseId>, key: Key, kind: Value, request: Value)
    | StartEffectOp(run: RunId, scope: Scope, lease: Option<LeaseId>, key: Key)
    | RenewOp(ref: LeaseRef, ttl: nat)
    | ReleaseOp(ref: LeaseRef)
    | ReapOp(run: RunId, event: Event)

  /** An operation and the time at which the store carried it out. */
  datatype Step = Step(op: Op, now: int)

  function Next(s: Store, step: Step): Store {
    match step.op
    case StartOp(run) => StartRun(s, run, step.now).0
    case CommitOp(c) => CommitRun(s, c, step.now).0
    case FinishOp(f) => FinishRun(s, f).0
    case RecordOp(run, scope, event) => RecordEvent(s, run, scope, event).0
    case CancelOp(run, scope) => MarkCancelled(s, run, scope).0
    case ReserveOp(run, scope, lease, key, kind, request) =>
      ReserveEffect(s, run, scope, lease, key, kind, request, step.now).0
    case StartEffectOp(run, scope, lease, key) => StartEffect(s, run, scope, lease, key, step.now).0
    case RenewOp(ref, ttl) => Renew(s, ref, ttl, step.now).0
    case ReleaseOp(ref) => Release(s, ref)
    case ReapOp(run, event) => Reap(s, run, event, step.now)
  }

  /** The store after the first `n` steps. */
  function Exec(s: Store, steps: seq<Step>, n: nat): Store
    requires n <= |steps|
  {
    if n == 0 then s else Next(Exec(s, steps, n - 1), steps[n - 1])
  }

  lemma NextValid(s: Store, step: Step)
    requires Valid(s)
    ensures Valid(Next(s, step))
  {
    hide Valid;
    match step.op
    case StartOp(run) => StartKeeps(s, run, step.now);
    case CommitOp(c) => CommitKeeps(s, c, step.now);
    case FinishOp(f) => FinishKeeps(s, f);
    case RecordOp(run, scope, event) => RecordKeeps(s, run, scope, event);
    case CancelOp(run, scope) => CancelKeeps(s, run, scope);
    case ReserveOp(run, scope, lease, key, kind, request) =>
      ReserveKeeps(s, run, scope, lease, key, kind, request, step.now);
    case StartEffectOp(run, scope, lease, key) => StartEffectKeeps(s, run, scope, lease, key, step.now);
    case RenewOp(ref, ttl) => RenewKeeps(s, ref, ttl, step.now);
    case ReleaseOp(ref) => ReleaseKeeps(s, ref);
    case ReapOp(run, event) => ReapKeeps(s, run, event, step.now);
  }

  /** Every reachable store satisfies the invariants. */
  lemma {:induction false} ExecValid(s: Store, steps: seq<Step>, n: nat)
    requires Valid(s) && n <= |steps|
    ensures Valid(Exec(s, steps, n))
  {
    if n > 0 {
      ExecValid(s, steps, n - 1);
      NextValid(Exec(s, steps, n - 1), steps[n - 1]);
    }
  }

  /** In every reachable store a thread lease is there exactly when its run holds it. */
  lemma LeaseTableIsProjection(s: Store, steps: seq<Step>, n: nat, t: ThreadId, l: ThreadLease)
    requires Valid(s) && n <= |steps|
    ensures var now := Exec(s, steps, n);
            t in now.threadLeases && now.threadLeases[t] == l
            <==> l.run in now.runs && now.runs[l.run].status == Running && now.runs[l.run].start.thread == t
                 && now.runs[l.run].lease == Some(Lease(l.owner, l.id, l.until))
    ensures forall r, q :: RunningOn(Exec(s, steps, n).runs, r, t) && RunningOn(Exec(s, steps, n).runs, q, t)
                           ==> r == q
  {
    ExecValid(s, steps, n);
    var now := Exec(s, steps, n);
    hide Exec, LogOk, CheckpointsOk, KeysOk, EntriesDense;
    if t in now.threadLeases {
      assert Projects(now.runs, t, now.threadLeases[t]);
    }
  }

  // ---------------------------------------------------------------- what one step can do

  /** How a run may change: its log grows, a terminal run is frozen but for the cancel flag,
      and a lease is never replaced by another one. */
  ghost predicate Evolves(a: Run, b: Run) {
    && b.start == a.start
    && a.events <= b.events
    && (a.cancelRequested ==> b.cancelRequested)
    && (a.status.IsTerminal() ==> b == a.(cancelRequested := b.cancelRequested))
    && (b.lease.Some? ==> a.lease.Some? && b.lease.value.owner == a.lease.value.owner
                          && b.lease.value.id == a.lease.value.id)
  }

  /** The step gives back the lease that the run holds. */
  ghost predicate GivesBack(step: Step, r: RunId, lease: Lease) {
    step.op == ReleaseOp(LeaseRef(r, lease.owner, lease.id))
  }

  ghost predicate RunsAdvance(a: map<RunId, Run>, b: map<RunId, Run>, step: Step) {
    forall r :: r in a ==>
      && r in b && Evolves(a[r], b[r])
      && (a[r].lease.Some? && b[r].lease.None? && b[r].status == Running ==> GivesBack(step, r, a[r].lease.value))
  }

  /** An accepted commit that reports the effect as failed. */
  ghost predicate Fails(s: Store, step: Step, k: RunKey) {
    && step.op.CommitOp? && step.op.commit.run == k.run
    && PlanCommit(s, step.op.commit, step.now) == Accept
    && exists u :: u in step.op.commit.effects && u.key == k.key && u.status == Failed
  }

  /** Kind and request are fixed, a done effect is final, nothing goes back to reserved, and an
      effect is started only from reserved or failed. */
  ghost predicate EffectEvolves(a: Effect, b: Effect) {
    && b.kind == a.kind && b.request == a.request
    && (a.status == Done ==> b == a)
    && (b.status == Reserved ==> b == a)
    && (b.status == Started ==> b == a || a.status == Reserved || a.status == Failed)
  }

  ghost predicate EffectsAdvance(s: Store, b: map<RunKey, Effect>, step: Step) {
    && (forall k :: k in s.effects ==>
          && k in b && EffectEvolves(s.effects[k], b[k])
          && (b[k].status == Failed ==> s.effects[k].status == Failed || Fails(s, step, k)))
    && (forall k :: k in b && k !in s.effects ==> b[k].status == Reserved)
  }

  ghost predicate SameRow<T(!new)>(a: map<RunKey, T>, b: map<RunKey, T>, k: RunKey) {
    (k in a <==> k in b) && (k in a ==> b[k] == a[k])
  }

  /** The effects and items of a terminal run do not change. */
  ghost predicate RowsFrozen(s: Store, next: Store) {
    forall k: RunKey :: k.run in s.runs && s.runs[k.run].status.IsTerminal() ==>
      SameRow(s.effects, next.effects, k) && SameRow(s.items, next.items, k)
  }

  /** An accepted commit that writes the checkpoint of the thread. */
  ghost predicate Writes(s: Store, step: Step, t: ThreadId, r: RunId) {
    && step.op.CommitOp? && step.op.commit.run == r
    && PlanCommit(s, step.op.commit, step.now) == Accept
    && step.op.commit.checkpoint.Some? && step.op.commit.checkpoint.value.thread == t
  }

  ghost predicate CheckpointsAdvance(s: Store, b: map<ThreadId, CheckpointRecord>, step: Step) {
    && s.checkpoints.Keys <= b.Keys
    && forall t :: t in b && (t !in s.checkpoints || b[t] != s.checkpoints[t]) ==>
         b[t].run.Some? && Writes(s, step, t, b[t].run.value)
  }

  ghost predicate LogGrows(a: EntryLog, b: EntryLog) {
    && (forall k :: k in a.entries ==> k in b.entries && b.entries[k] == a.entries[k])
    && (forall home :: Count(a, home) <= Count(b, home))
  }

  ghost predicate Advances(s: Store, next: Store, step: Step) {
    && RunsAdvance(s.runs, next.runs, step)
    && EffectsAdvance(s, next.effects, step)
    && RowsFrozen(s, next)
    && CheckpointsAdvance(s, next.checkpoints, step)
    && LogGrows(s.log, next.log)
  }

  /** A step that changes nothing but one run and the entries. */
  lemma OneRunAdvances(s: Store, next: Store, step: Step, r: RunId)
    requires r in s.runs && r in next.runs && next.runs == s.runs[r := next.runs[r]]
    requires Evolves(s.runs[r], next.runs[r])
    requires s.runs[r].lease.Some? && next.runs[r].lease.None? && next.runs[r].status == Running ==>
               GivesBack(step, r, s.runs[r].lease.value)
    requires next.effects == s.effects && next.items == s.items && next.checkpoints == s.checkpoints
    requires LogGrows(s.log, next.log)
    ensures Advances(s, next, step)
  {
    assert forall q :: q in s.runs && q != r ==> next.runs[q] == s.runs[q];
  }

  lemma NothingAdvances(s: Store, next: Store, step: Step)
    requires next == s.(sessions := next.sessions)
    ensures Advances(s, next, step)
  {
  }

  lemma {:induction false} EntriesGrow(log: EntryLog, home: Home, run: RunId, thread: ThreadId,
                                       writes: seq<EntryWrite>, n: nat)
    requires n <= |writes|
    ensures LogGrows(log, ApplyEntries(log, home, run, thread, writes, n))
  {
    if n > 0 {
      EntriesGrow(log, home, run, thread, writes, n - 1);
    }
  }

  lemma {:induction false} ItemsElsewhere(items: map<RunKey, Item>, run: RunId, writes: seq<ItemWrite>, n: nat,
                                          k: RunKey)
    requires n <= |writes| && k.run != run
    ensures SameRow(items, ApplyItems(items, run, writes, n), k)
  {
    if n > 0 {
      ItemsElsewhere(items, run, writes, n - 1, k);
    }
  }

  /** After updates with distinct keys an effect is as before or as its one update says. */
  lemma {:induction false} EffectsApplied(effects: map<RunKey, Effect>, run: RunId, updates: seq<EffectUpdate>,
                                          n: nat, k: RunKey)
    requires n <= |updates| && EffectsPresent(effects, run, updates) && k in effects
    requires CheckEffects(effects, run, updates, n).Pass?
    ensures var after := ApplyEffects(effects, run, updates, n);
            || after[k] == effects[k]
            || exists i :: 0 <= i < n && RunKey(run, updates[i].key) == k
                           && after[k] == UpdateEffect(effects[k], updates[i])
                           && CheckEffect(effects, run, updates, i).Pass?
  {
    if n > 0 {
      var u := updates[n - 1];
      if RunKey(run, u.key) == k {
        assert CheckEffect(effects, run, updates, n - 1).Pass?;
        assert forall j :: 0 <= j < n - 1 ==> updates[j].key != u.key;
        EffectsElsewhere(effects, run, updates, n - 1, k);
        assert ApplyEffects(effects, run, updates, n)[k] == UpdateEffect(effects[k], updates[n - 1]);
      } else {
        EffectsApplied(effects, run, updates, n - 1, k);
      }
    }
  }

  // ---------------------------------------------------------------- every step advances

  lemma WithRunAdvances(s: Store, run: RunStart, now: int, step: Step)
    requires run.run !in s.runs
    ensures Advances(s, WithRun(s, run, now), step)
  {
    EntriesGrow(s.log, HomeOf(run), run.run, run.thread, run.entries, |run.entries|);
    hide ApplyEntries;
  }

  lemma StartAdvances(s: Store, run: RunStart, now: int)
    ensures Advances(s, StartRun(s, run, now).0, Step(StartOp(run), now))
  {
    hide Advances, Busy, EntriesOk, WithRun, Idempotent, Lookup;
    var step := Step(StartOp(run), now);
    NothingAdvances(s, WithSession(s, run), step);
    if StartRun(s, run, now).1 == Ok(Created) {
      WithRunAdvances(WithSession(s, run), run, now, step);
      SessionAdvances(s, run, WithRun(WithSession(s, run), run, now), step);
    }
  }

  /** The session table plays no part in what a step may change. */
  lemma SessionAdvances(s: Store, run: RunStart, next: Store, step: Step)
    requires Advances(WithSession(s, run), next, step) && !step.op.CommitOp?
    ensures Advances(s, next, step)
  {
  }

  lemma CommitEffectsAdvance(s: Store, c: Commit, now: int)
    requires PlanCommit(s, c, now) == Accept && EffectsPresent(s.effects, c.run, c.effects)
    ensures EffectsAdvance(s, Committed(s, c).effects, Step(CommitOp(c), now))
  {
    assert CheckEffects(s.effects, c.run, c.effects, |c.effects|).Pass?;
    var after := ApplyEffects(s.effects, c.run, c.effects, |c.effects|);
    var step := Step(CommitOp(c), now);
    hide PlanCommit;
    forall k | k in s.effects
      ensures EffectEvolves(s.effects[k], after[k])
      ensures after[k].status == Failed ==> s.effects[k].status == Failed || Fails(s, step, k)
    {
      EffectsApplied(s.effects, c.run, c.effects, |c.effects|, k);
      if after[k] != s.effects[k] {
        var i :| 0 <= i < |c.effects| && RunKey(c.run, c.effects[i].key) == k
                 && after[k] == UpdateEffect(s.effects[k], c.effects[i])
                 && CheckEffect(s.effects, c.run, c.effects, i).Pass?;
        assert c.effects[i] in c.effects;
      }
    }
  }

  /** A commit leaves the effects and items of other runs alone. */
  lemma CommitFreezes(s: Store, c: Commit)
    requires Sound(s, c)
    ensures RowsFrozen(s, Committed(s, c))
  {
    hide CommitShapeOk, CommitEmpty, Increases, ApplyEntries, CommittedRun;
    var next := Committed(s, c);
    forall k: RunKey | k.run in s.runs && s.runs[k.run].status.IsTerminal()
      ensures SameRow(s.effects, next.effects, k) && SameRow(s.items, next.items, k)
    {
      ItemsElsewhere(s.items, c.run, c.items, |c.items|, k);
      if k in s.effects {
        EffectsElsewhere(s.effects, c.run, c.effects, |c.effects|, k);
      }
    }
  }

  lemma CommitRunsAdvance(s: Store, c: Commit, step: Step)
    requires Sound(s, c)
    ensures RunsAdvance(s.runs, Committed(s, c).runs, step)
  {
    hide CommitEmpty, Increases, ApplyEntries, ApplyEffects, ApplyItems;
  }

  lemma CommitAdvances(s: Store, c: Commit, now: int)
    ensures Advances(s, CommitRun(s, c, now).0, Step(CommitOp(c), now))
  {
    hide PlanCommit, EffectsAdvance, Increases, ApplyEntries, ApplyEffects, ApplyItems, CommittedRun, RunsAdvance;
    hide CommitReply, CommitShapeOk, RowsFrozen;
    var step := Step(CommitOp(c), now);
    if PlanCommit(s, c, now) == Accept {
      AcceptedSound(s, c, now);
      CommitEffectsAdvance(s, c, now);
      CommitRunsAdvance(s, c, step);
      CommitFreezes(s, c);
      EntriesGrow(s.log, Home(c.scope, c.session), c.run, s.runs[c.run].start.thread, c.entries, |c.entries|);
    } else {
      NothingAdvances(s, CommitRun(s, c, now).0, step);
    }
  }

  lemma FinishAdvances(s: Store, f: FinishRecord, now: int)
    ensures Advances(s, FinishRun(s, f).0, Step(FinishOp(f), now))
  {
    var next := FinishRun(s, f).0;
    hide EntriesOk, Increases;
    if FinishRun(s, f).1.Ok? && FinishRun(s, f).1.value.Finished? {
      EntriesGrow(s.log, Home(f.scope, f.session), f.run, s.runs[f.run].start.thread, f.entries, |f.entries|);
      OneRunAdvances(s, next, Step(FinishOp(f), now), f.run);
    } else {
      NothingAdvances(s, next, Step(FinishOp(f), now));
    }
  }

  lemma RecordAdvances(s: Store, run: RunId, scope: Scope, event: Event, now: int)
    ensures Advances(s, RecordEvent(s, run, scope, event).0, Step(RecordOp(run, scope, event), now))
  {
    var next := RecordEvent(s, run, scope, event).0;
    hide Increases;
    if RecordEvent(s, run, scope, event).1 == Ok(true) {
      OneRunAdvances(s, next, Step(RecordOp(run, scope, event), now), run);
    } else {
      NothingAdvances(s, next, Step(RecordOp(run, scope, event), now));
    }
  }

  lemma CancelAdvances(s: Store, run: RunId, scope: Scope, now: int)
    ensures Advances(s, MarkCancelled(s, run, scope).0, Step(CancelOp(run, scope), now))
  {
    hide Advances;
    if MarkCancelled(s, run, scope).1.Ok? {
      OneRunAdvances(s, MarkCancelled(s, run, scope).0, Step(CancelOp(run, scope), now), run);
    } else {
      NothingAdvances(s, s, Step(CancelOp(run, scope), now));
    }
  }

  lemma RenewAdvances(s: Store, ref: LeaseRef, ttl: nat, now: int)
    ensures Advances(s, Renew(s, ref, ttl, now).0, Step(RenewOp(ref, ttl), now))
  {
    hide Advances;
    if RenewOk(s, ref, now) {
      OneRunAdvances(s, Renew(s, ref, ttl, now).0, Step(RenewOp(ref, ttl), now), ref.run);
    } else {
      NothingAdvances(s, s, Step(RenewOp(ref, ttl), now));
    }
  }

  lemma ReleaseAdvances(s: Store, ref: LeaseRef, now: int)
    requires RunsOk(s.runs)
    ensures Advances(s, Release(s, ref), Step(ReleaseOp(ref), now))
  {
    hide Advances;
    if Holds(s, ref) {
      assert LogOk(s.runs[ref.run]);
      OneRunAdvances(s, Release(s, ref), Step(ReleaseOp(ref), now), ref.run);
    } else {
      NothingAdvances(s, s, Step(ReleaseOp(ref), now));
    }
  }

  lemma ReapAdvances(s: Store, run: RunId, event: Event, now: int)
    ensures Advances(s, Reap(s, run, event, now), Step(ReapOp(run, event), now))
  {
    hide Advances;
    if run in s.runs && Stale(s.runs[run], now) && ReapEventOk(s.runs[run], event) {
      OneRunAdvances(s, Reap(s, run, event, now), Step(ReapOp(run, event), now), run);
    } else {
      NothingAdvances(s, s, Step(ReapOp(run, event), now));
    }
  }

  /** A step that changes one effect, of a run that is not terminal. */
  lemma OneEffectAdvances(s: Store, k: RunKey, e: Effect, step: Step)
    requires k.run in s.runs && !s.runs[k.run].status.IsTerminal()
    requires if k in s.effects then EffectEvolves(s.effects[k], e) && e.status != Failed else e.status == Reserved
    ensures Advances(s, s.(effects := s.effects[k := e]), step)
  {
  }

  lemma ReserveAdvances(s: Store, run: RunId, scope: Scope, lease: Option<LeaseId>, key: Key, kind: Value,
                        request: Value, now: int)
    ensures Advances(s, ReserveEffect(s, run, scope, lease, key, kind, request, now).0,
                     Step(ReserveOp(run, scope, lease, key, kind, request), now))
  {
    hide Advances;
    var step := Step(ReserveOp(run, scope, lease, key, kind, request), now);
    if ReserveEffect(s, run, scope, lease, key, kind, request, now).0 == s {
      NothingAdvances(s, s, step);
    } else {
      OneEffectAdvances(s, RunKey(run, key), Effect(kind, request, Reserved, None, None, None), step);
    }
  }

  lemma StartEffectAdvances(s: Store, run: RunId, scope: Scope, lease: Option<LeaseId>, key: Key, now: int)
    ensures Advances(s, StartEffect(s, run, scope, lease, key, now).0,
                     Step(StartEffectOp(run, scope, lease, key), now))
  {
    hide Advances;
    var step := Step(StartEffectOp(run, scope, lease, key), now);
    var k := RunKey(run, key);
    if StartEffect(s, run, scope, lease, key, now).0 == s {
      NothingAdvances(s, s, step);
    } else {
      OneEffectAdvances(s, k, StartEffect(s, run, scope, lease, key, now).0.effects[k], step);
    }
  }

  lemma NextAdvances(s: Store, step: Step)
    requires Valid(s)
    ensures Advances(s, Next(s, step), step)
  {
    hide Advances, RunsOk, StartRun, CommitRun, FinishRun, RecordEvent, MarkCancelled, ReserveEffect;
    hide StartEffect, Renew, Release, Reap, OneRunning, LeasesOk, CheckpointsOk, KeysOk, EntriesDense;
    match step.op
    case StartOp(run) => StartAdvances(s, run, step.now);
    case CommitOp(c) => CommitAdvances(s, c, step.now);
    case FinishOp(f) => FinishAdvances(s, f, step.now);
    case RecordOp(run, scope, event) => RecordAdvances(s, run, scope, event, step.now);
    case CancelOp(run, scope) => CancelAdvances(s, run, scope, step.now);
    case ReserveOp(run, scope, lease, key, kind, request) =>
      ReserveAdvances(s, run, scope, lease, key, kind, request, step.now);
    case StartEffectOp(run, scope, lease, key) => StartEffectAdvances(s, run, scope, lease, key, step.now);
    case RenewOp(ref, ttl) => RenewAdvances(s, ref, ttl, step.now);
    case ReleaseOp(ref) => ReleaseAdvances(s, ref, step.now);
    case ReapOp(run, event) => ReapAdvances(s, run, event, step.now);
  }

  // ---------------------------------------------------------------- runs only grow, then freeze

  lemma {:induction false} ExecEvolves(s: Store, steps: seq<Step>, i: nat, j: nat, r: RunId)
    requires Valid(s) && i <= j <= |steps| && r in Exec(s, steps, i).runs
    ensures r in Exec(s, steps, j).runs
    ensures Evolves(Exec(s, steps, i).runs[r], Exec(s, steps, j).runs[r])
    decreases j
  {
    hide Valid, Next;
    if i < j {
      ExecEvolves(s, steps, i, j - 1, r);
      ExecValid(s, steps, j - 1);
      NextAdvances(Exec(s, steps, j - 1), steps[j - 1]);
    }
  }

  /** A terminal run is frozen for the rest of every history: status, reason, events, terminal
      event, lease, effects and items. Only the cancel flag may still be raised. */
  lemma {:induction false} TerminalFrozen(s: Store, steps: seq<Step>, i: nat, j: nat, r: RunId, k: RunKey)
    requires Valid(s) && i <= j <= |steps| && k.run == r
    requires r in Exec(s, steps, i).runs && Exec(s, steps, i).runs[r].status.IsTerminal()
    ensures r in Exec(s, steps, j).runs
    ensures Exec(s, steps, j).runs[r]
            == Exec(s, steps, i).runs[r].(cancelRequested := Exec(s, steps, j).runs[r].cancelRequested)
    ensures SameRow(Exec(s, steps, i).effects, Exec(s, steps, j).effects, k)
    ensures SameRow(Exec(s, steps, i).items, Exec(s, steps, j).items, k)
    decreases j
  {
    hide Valid, Next;
    ExecEvolves(s, steps, i, j, r);
    if i < j {
      TerminalFrozen(s, steps, i, j - 1, r, k);
      ExecValid(s, steps, j - 1);
      NextAdvances(Exec(s, steps, j - 1), steps[j - 1]);
    }
  }

  // ---------------------------------------------------------------- fencing

  /** Step `i` is an accepted commit of run `r`. */
  ghost predicate CommitsAt(s: Store, steps: seq<Step>, i: nat, r: RunId) {
    && i < |steps| && steps[i].op.CommitOp? && steps[i].op.commit.run == r
    && PlanCommit(Exec(s, steps, i), steps[i].op.commit, steps[i].now) == Accept
  }

  /** Step `i` writes the checkpoint of thread `t` for run `r`. */
  ghost predicate WritesAt(s: Store, steps: seq<Step>, i: nat, t: ThreadId, r: RunId) {
    i < |steps| && Writes(Exec(s, steps, i), steps[i], t, r)
  }

  lemma WriterRuns(s: Store, c: Commit, now: int)
    requires Valid(s) && PlanCommit(s, c, now) == Accept && c.checkpoint.Some?
    ensures c.run in s.runs && RunningOn(s.runs, c.run, c.checkpoint.value.thread)
    ensures forall r :: r in s.runs && s.runs[r].start.thread == c.checkpoint.value.thread && r != c.run
                        ==> s.runs[r].status.IsTerminal()
  {
    AcceptedSound(s, c, now);
    forall r | r in s.runs && s.runs[r].start.thread == c.checkpoint.value.thread && r != c.run
      ensures s.runs[r].status.IsTerminal()
    {
      assert s.runs[r].start.run == r && s.runs[c.run].start.run == c.run;
      assert !Busy(s.runs, c.checkpoint.value.thread, c.run);
    }
  }

  /** The writers of one thread's checkpoint form contiguous blocks: once another run has
      written it, a run never writes it again. */
  lemma WritersFormBlocks(s: Store, steps: seq<Step>, t: ThreadId, i: nat, j: nat, k: nat, a: RunId, b: RunId)
    requires Valid(s) && i < j < k && a != b
    requires WritesAt(s, steps, i, t, a) && WritesAt(s, steps, j, t, b)
    ensures !WritesAt(s, steps, k, t, a)
  {
    ExecValid(s, steps, i);
    ExecValid(s, steps, j);
    hide Valid, Next, PlanCommit;
    WriterRuns(Exec(s, steps, i), steps[i].op.commit, steps[i].now);
    ExecEvolves(s, steps, i, j, a);
    WriterRuns(Exec(s, steps, j), steps[j].op.commit, steps[j].now);
    if WritesAt(s, steps, k, t, a) {
      ExecEvolves(s, steps, j, k, a);
      AcceptedSound(Exec(s, steps, k), steps[k].op.commit, steps[k].now);
    }
  }

  /** A checkpoint changes only by an accepted commit of the run it then names. */
  lemma CheckpointWriter(s: Store, steps: seq<Step>, i: nat, t: ThreadId)
    requires Valid(s) && i < |steps|
    requires t in Exec(s, steps, i + 1).checkpoints
    requires t !in Exec(s, steps, i).checkpoints
             || Exec(s, steps, i).checkpoints[t] != Exec(s, steps, i + 1).checkpoints[t]
    ensures Exec(s, steps, i + 1).checkpoints[t].run.Some?
    ensures WritesAt(s, steps, i, t, Exec(s, steps, i + 1).checkpoints[t].run.value)
  {
    hide Valid, Next;
    ExecValid(s, steps, i);
    NextAdvances(Exec(s, steps, i), steps[i]);
  }

  /** Step `k` gives back the lease. */
  ghost predicate GivesBackAt(steps: seq<Step>, k: nat, r: RunId, lease: Lease) {
    k < |steps| && GivesBack(steps[k], r, lease)
  }

  /** A run started under a lease: as long as nobody gave that lease back, every accepted
      commit of the run carries its id, before it expires. */
  lemma CommitsCarryTheLease(s: Store, steps: seq<Step>, i: nat, j: nat, r: RunId)
    requires Valid(s) && i <= j && CommitsAt(s, steps, j, r)
    requires r in Exec(s, steps, i).runs && Exec(s, steps, i).runs[r].lease.Some?
    ensures var lease := Exec(s, steps, i).runs[r].lease.value;
            || (exists k :: i <= k < j && GivesBackAt(steps, k, r, lease))
            || (steps[j].op.commit.lease == Some(lease.id)
                && r in Exec(s, steps, j).runs && Exec(s, steps, j).runs[r].lease.Some?
                && Exec(s, steps, j).runs[r].lease.value.until > steps[j].now)
  {
    hide Valid, Next;
    ExecEvolves(s, steps, i, j, r);
    AcceptedSound(Exec(s, steps, j), steps[j].op.commit, steps[j].now);
    if Exec(s, steps, j).runs[r].lease.None? {
      LeaseGone(s, steps, i, j, r);
    }
  }

  /** A running run loses its lease only when its holder gives it back. */
  lemma {:induction false} LeaseGone(s: Store, steps: seq<Step>, i: nat, j: nat, r: RunId)
    requires Valid(s) && i <= j <= |steps|
    requires r in Exec(s, steps, i).runs && Exec(s, steps, i).runs[r].lease.Some?
    requires r in Exec(s, steps, j).runs
    requires Exec(s, steps, j).runs[r].lease.None? && Exec(s, steps, j).runs[r].status == Running
    ensures exists k :: i <= k < j && GivesBackAt(steps, k, r, Exec(s, steps, i).runs[r].lease.value)
    decreases j
  {
    hide Valid, Next;
    var last := Exec(s, steps, j - 1);
    ExecEvolves(s, steps, i, j - 1, r);
    ExecValid(s, steps, j - 1);
    NextAdvances(last, steps[j - 1]);
    if last.runs[r].lease.None? {
      LeaseGone(s, steps, i, j - 1, r);
    } else {
      assert GivesBackAt(steps, j - 1, r, Exec(s, steps, i).runs[r].lease.value);
    }
  }

  // ---------------------------------------------------------------- effects

  ghost predicate StatusIs(s: Store, k: RunKey, status: EffectStatus) {
    k in s.effects && s.effects[k].status == status
  }

  /** Step `i` brings the effect into `Started`. */
  ghost predicate StartsAt(s: Store, steps: seq<Step>, i: nat, k: RunKey) {
    i < |steps| && !StatusIs(Exec(s, steps, i), k, Started) && StatusIs(Exec(s, steps, i + 1), k, Started)
  }

  /** Step `i` is an accepted commit that reports the effect as failed. */
  ghost predicate FailsAt(s: Store, steps: seq<Step>, i: nat, k: RunKey) {
    i < |steps| && Fails(Exec(s, steps, i), steps[i], k)
  }

  /** Between two starts of an effect a failure of it has been committed. */
  lemma StartedAtMostOnce(s: Store, steps: seq<Step>, i: nat, j: nat, k: RunKey)
    requires Valid(s) && i < j && StartsAt(s, steps, i, k) && StartsAt(s, steps, j, k)
    ensures exists m :: i < m < j && FailsAt(s, steps, m, k)
  {
    hide Valid, Next, Fails;
    SinceStarted(s, steps, i, j, k);
    ExecValid(s, steps, j);
    NextAdvances(Exec(s, steps, j), steps[j]);
  }

  lemma {:induction false} SinceStarted(s: Store, steps: seq<Step>, i: nat, j: nat, k: RunKey)
    requires Valid(s) && i < j <= |steps| && StartsAt(s, steps, i, k)
    ensures k in Exec(s, steps, j).effects
    ensures Exec(s, steps, j).effects[k].status in {Started, Done, Unknown}
            || exists m :: i < m < j && FailsAt(s, steps, m, k)
    decreases j
  {
    hide Valid, Next, Fails;
    if i + 1 < j {
      SinceStarted(s, steps, i, j - 1, k);
      ExecValid(s, steps, j - 1);
      NextAdvances(Exec(s, steps, j - 1), steps[j - 1]);
      assert Fails(Exec(s, steps, j - 1), steps[j - 1], k) ==> FailsAt(s, steps, j - 1, k);
    }
  }

  /** What was reserved never changes, and a result once committed stays. */
  lemma {:induction false} EffectHistory(s: Store, steps: seq<Step>, i: nat, j: nat, k: RunKey)
    requires Valid(s) && i <= j <= |steps| && k in Exec(s, steps, i).effects
    ensures k in Exec(s, steps, j).effects
    ensures var (a, b) := (Exec(s, steps, i).effects[k], Exec(s, steps, j).effects[k]);
            b.kind == a.kind && b.request == a.request && (a.status == Done ==> b == a)
    decreases j
  {
    hide Valid, Next, Fails;
    if i < j {
      EffectHistory(s, steps, i, j - 1, k);
      ExecValid(s, steps, j - 1);
      NextAdvances(Exec(s, steps, j - 1), steps[j - 1]);
    }
  }

  // ---------------------------------------------------------------- entries

  /** A written entry keeps its number and content in every later store. */
  lemma {:induction false} EntriesImmutable(s: Store, steps: seq<Step>, i: nat, j: nat)
    requires Valid(s) && i <= j <= |steps|
    ensures LogGrows(Exec(s, steps, i).log, Exec(s, steps, j).log)
    decreases j
  {
    hide Valid, Next;
    if i < j {
      EntriesImmutable(s, steps, i, j - 1);
      ExecValid(s, steps, j - 1);
      NextAdvances(Exec(s, steps, j - 1), steps[j - 1]);
    }
  }

  /** How many of the first `n` writes bring a key the session does not know. */
  function Fresh(log: EntryLog, home: Home, writes: seq<EntryWrite>, n: nat): nat
    requires n <= |writes|
  {
    if n == 0 then 0
    else Fresh(log, home, writes, n - 1) + if HomeKey(home, writes[n - 1].key) in log.entries then 0 else 1
  }

  /** A batch of writes consumes one number for each new key, and none for a key sent again;
      other sessions are not touched. */
  lemma {:induction false} NumbersConsumed(log: EntryLog, home: Home, run: RunId, thread: ThreadId,
                                           writes: seq<EntryWrite>, n: nat, other: Home)
    requires n <= |writes| && EntriesOk(log.entries, home, writes)
    ensures var after := ApplyEntries(log, home, run, thread, writes, n);
            && Count(after, home) == Count(log, home) + Fresh(log, home, writes, n)
            && (other != home ==> Count(after, other) == Count(log, other))
            && (forall k :: k in after.entries && k !in log.entries ==>
                  exists i :: 0 <= i < n && k == HomeKey(home, writes[i].key))
  {
    if n > 0 {
      NumbersConsumed(log, home, run, thread, writes, n - 1, other);
      EntriesGrow(log, home, run, thread, writes, n - 1);
      var k := HomeKey(home, writes[n - 1].key);
      assert k in ApplyEntries(log, home, run, thread, writes, n - 1).entries ==> k in log.entries;
    }
  }
}
