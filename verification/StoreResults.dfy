/**
 What the operations of the run store come to for their callers: exactly when each one takes
 place, what is in the store afterwards, what is answered, and that nothing else has changed.

 Nothing here is said in terms of the functions that compute the new maps.
 */
module StoreResults {
  import opened Types
  import opened StoreSpec
  import opened StoreInv
  import opened StoreHistory

  // ---------------------------------------------------------------- what a batch writes

  ghost predicate ItemKeyIn(run: RunId, writes: seq<ItemWrite>, k: RunKey) {
    exists i :: 0 <= i < |writes| && k == RunKey(run, writes[i].key)
  }

  ghost predicate EntryKeyIn(home: Home, writes: seq<EntryWrite>, k: HomeKey) {
    exists i :: 0 <= i < |writes| && k == HomeKey(home, writes[i].key)
  }

  ghost predicate UpdateKeyIn(run: RunId, updates: seq<EffectUpdate>, k: RunKey) {
    exists i :: 0 <= i < |updates| && k == RunKey(run, updates[i].key)
  }

  /** Every item of the batch is stored with its content, and every other item is as before. */
  ghost predicate ItemsStored(a: map<RunKey, Item>, b: map<RunKey, Item>, run: RunId, writes: seq<ItemWrite>) {
    && (forall i :: 0 <= i < |writes| ==>
          RunKey(run, writes[i].key) in b && b[RunKey(run, writes[i].key)] == Item(writes[i].kind, writes[i].body))
    && (forall k :: !ItemKeyIn(run, writes, k) ==> SameRow(a, b, k))
  }

  /** Every entry of the batch is stored with its content; the new ones name the run and its thread,
      the others are as before. */
  ghost predicate EntriesStored(a: map<HomeKey, Entry>, b: map<HomeKey, Entry>, home: Home, run: RunId,
                                thread: ThreadId, writes: seq<EntryWrite>)
  {
    && (forall i :: 0 <= i < |writes| ==>
          HomeKey(home, writes[i].key) in b && SameEntry(b[HomeKey(home, writes[i].key)], writes[i]))
    && (forall k :: k in a ==> k in b && b[k] == a[k])
    && (forall k :: k in b && k !in a ==> EntryKeyIn(home, writes, k) && b[k].run == run && b[k].thread == thread)
  }

  /** The effect has taken the update over. */
  predicate TookOver(before: Effect, u: EffectUpdate, after: Effect) {
    && after.kind == before.kind && after.request == before.request
    && after.status == u.status && after.result == u.result
    && after.errorCode == u.errorCode && after.errorMessage == u.errorMessage
  }

  /** Every updated effect that was not done has taken its update over, a done one and every other
      effect is as before. */
  ghost predicate EffectsUpdated(a: map<RunKey, Effect>, b: map<RunKey, Effect>, run: RunId,
                                 updates: seq<EffectUpdate>)
  {
    && b.Keys == a.Keys
    && (forall i :: 0 <= i < |updates| ==>
          var k := RunKey(run, updates[i].key);
          k in a && if a[k].status == Done then b[k] == a[k] else TookOver(a[k], updates[i], b[k]))
    && (forall k :: k in a && !UpdateKeyIn(run, updates, k) ==> b[k] == a[k])
  }

  lemma ItemKeyStays(run: RunId, writes: seq<ItemWrite>, n: nat, k: RunKey)
    requires 0 < n <= |writes|
    ensures ItemKeyIn(run, writes[..n], k) <==> ItemKeyIn(run, writes[..n - 1], k) || k == RunKey(run, writes[n - 1].key)
  {
    var front, all := writes[..n - 1], writes[..n];
    assert all == front + [writes[n - 1]];
    if ItemKeyIn(run, front, k) {
      var i :| 0 <= i < |front| && k == RunKey(run, front[i].key);
      assert all[i] == front[i];
    }
    assert all[n - 1] == writes[n - 1];
  }

  lemma UpdateKeyStays(run: RunId, updates: seq<EffectUpdate>, n: nat, k: RunKey)
    requires 0 < n <= |updates|
    ensures UpdateKeyIn(run, updates[..n], k)
            <==> UpdateKeyIn(run, updates[..n - 1], k) || k == RunKey(run, updates[n - 1].key)
  {
    var front, all := updates[..n - 1], updates[..n];
    assert all == front + [updates[n - 1]];
    if UpdateKeyIn(run, front, k) {
      var i :| 0 <= i < |front| && k == RunKey(run, front[i].key);
      assert all[i] == front[i];
    }
    assert all[n - 1] == updates[n - 1];
  }

  lemma {:induction false} ItemsApplied(items: map<RunKey, Item>, run: RunId, writes: seq<ItemWrite>, n: nat)
    requires n <= |writes| && ItemsOk(items, run, writes)
    ensures ItemsStored(items, ApplyItems(items, run, writes, n), run, writes[..n])
  {
    if n == 0 {
      assert writes[..0] == [];
    } else {
      ItemsApplied(items, run, writes, n - 1);
      var before, after := ApplyItems(items, run, writes, n - 1), ApplyItems(items, run, writes, n);
      var key := RunKey(run, writes[n - 1].key);
      assert writes[..n][n - 1] == writes[n - 1];
      assert ItemKeyIn(run, writes[..n], key);
      assert !ItemKeyIn(run, writes[..n - 1], key);
      assert SameRow(items, before, key);
      forall k | !ItemKeyIn(run, writes[..n], k) ensures SameRow(items, after, k) {
        ItemKeyStays(run, writes, n, k);
      }
      forall i | 0 <= i < n
        ensures RunKey(run, writes[i].key) in after
                && after[RunKey(run, writes[i].key)] == Item(writes[i].kind, writes[i].body)
      {
        assert i < n - 1 ==> writes[..n - 1][i] == writes[i];
      }
    }
  }

  lemma EntryKeyStays(home: Home, writes: seq<EntryWrite>, n: nat, k: HomeKey)
    requires 0 < n <= |writes|
    ensures EntryKeyIn(home, writes[..n], k) <==> EntryKeyIn(home, writes[..n - 1], k) || k == HomeKey(home, writes[n - 1].key)
  {
    var front, all := writes[..n - 1], writes[..n];
    assert all == front + [writes[n - 1]];
    if EntryKeyIn(home, front, k) {
      var i :| 0 <= i < |front| && k == HomeKey(home, front[i].key);
      assert all[i] == front[i];
    }
    assert all[n - 1] == writes[n - 1];
  }

  lemma EntryApplied(a: map<HomeKey, Entry>, before: EntryLog, home: Home, run: RunId, thread: ThreadId,
                     writes: seq<EntryWrite>, n: nat)
    requires 0 < n <= |writes| && EntriesOk(a, home, writes)
    requires EntriesStored(a, before.entries, home, run, thread, writes[..n - 1])
    ensures EntriesStored(a, ApplyEntry(before, home, run, thread, writes[n - 1]).entries, home, run, thread, writes[..n])
  {
    var after := ApplyEntry(before, home, run, thread, writes[n - 1]).entries;
    var key := HomeKey(home, writes[n - 1].key);
    assert !EntryKeyIn(home, writes[..n - 1], key);
    assert key in before.entries ==> key in a && SameEntry(a[key], writes[n - 1]);
    hide EntriesOk, SameEntry, Count;
    forall k | k in after && k !in a ensures EntryKeyIn(home, writes[..n], k) && after[k].run == run && after[k].thread == thread {
      EntryKeyStays(home, writes, n, k);
    }
    assert forall i :: 0 <= i < n - 1 ==> writes[..n - 1][i] == writes[i] == writes[..n][i];
    hide EntryKeyIn;
    forall i | 0 <= i < n
      ensures var k := HomeKey(home, writes[..n][i].key); k in after && SameEntry(after[k], writes[..n][i])
    {
      if i < n - 1 {
        assert HomeKey(home, writes[..n - 1][i].key) in before.entries;
      } else {
        NewEntrySame(before, home, run, thread, writes[n - 1]);
      }
    }
  }

  lemma NewEntrySame(log: EntryLog, home: Home, run: RunId, thread: ThreadId, w: EntryWrite)
    ensures var k, after := HomeKey(home, w.key), ApplyEntry(log, home, run, thread, w).entries;
            k in after && (k !in log.entries ==> SameEntry(after[k], w))
  {
  }

  lemma {:induction false} EntriesApplied(log: EntryLog, home: Home, run: RunId, thread: ThreadId,
                                          writes: seq<EntryWrite>, n: nat)
    requires n <= |writes| && EntriesOk(log.entries, home, writes)
    ensures EntriesStored(log.entries, ApplyEntries(log, home, run, thread, writes, n).entries, home, run, thread,
                          writes[..n])
  {
    if n == 0 {
      assert writes[..0] == [];
    } else {
      hide EntriesOk, EntriesStored, ApplyEntry;
      EntriesApplied(log, home, run, thread, writes, n - 1);
      EntryApplied(log.entries, ApplyEntries(log, home, run, thread, writes, n - 1), home, run, thread, writes, n);
    }
  }

  lemma {:induction false} EffectsTaken(effects: map<RunKey, Effect>, run: RunId, updates: seq<EffectUpdate>, n: nat)
    requires n <= |updates| && EffectsPresent(effects, run, updates)
    requires CheckEffects(effects, run, updates, |updates|).Pass?
    ensures EffectsUpdated(effects, ApplyEffects(effects, run, updates, n), run, updates[..n])
  {
    if n == 0 {
      assert updates[..0] == [];
    } else {
      EffectsTaken(effects, run, updates, n - 1);
      CheckedEffectsPresent(effects, run, updates, |updates|);
      var before, after := ApplyEffects(effects, run, updates, n - 1), ApplyEffects(effects, run, updates, n);
      var u, key := updates[n - 1], RunKey(run, updates[n - 1].key);
      assert CheckEffect(effects, run, updates, n - 1).Pass?;
      assert !EffectKeyRepeats(updates, n - 1);
      assert !UpdateKeyIn(run, updates[..n - 1], key);
      assert before[key] == effects[key];
      forall k | k in effects && !UpdateKeyIn(run, updates[..n], k) ensures after[k] == effects[k] {
        UpdateKeyStays(run, updates, n, k);
      }
      forall i | 0 <= i < n
        ensures var k := RunKey(run, updates[i].key);
                k in effects && if effects[k].status == Done then after[k] == effects[k]
                                else TookOver(effects[k], updates[i], after[k])
      {
        if i < n - 1 {
          assert updates[..n - 1][i] == updates[i];
          assert UpdateKeyIn(run, updates[..n - 1], RunKey(run, updates[i].key));
        }
      }
    }
  }

  // ---------------------------------------------------------------- commits

  /** The run with a lease takes a writer that presents its id before it expires; a run without one
      takes any. */
  predicate LeaseAdmits(run: Run, lease: Option<LeaseId>, now: int) {
    run.lease.Some? ==> lease == Some(run.lease.value.id) && now < run.lease.value.until
  }

  /** The updates name distinct effects that exist, report an end, and agree with those already done. */
  ghost predicate Reportable(effects: map<RunKey, Effect>, run: RunId, updates: seq<EffectUpdate>) {
    && (forall i, j :: 0 <= i < j < |updates| ==> updates[i].key != updates[j].key)
    && forall i :: 0 <= i < |updates| ==>
         var k := RunKey(run, updates[i].key);
         && k in effects && updates[i].status in {Done, Failed, Unknown}
         && (effects[k].status == Done ==> updates[i].status == Done && updates[i].result == effects[k].result)
  }

  ghost predicate Acceptable(s: Store, c: Commit, now: int) {
    && !CommitEmpty(c) && CommitShapeOk(c) && c.run in s.runs
    && var run := s.runs[c.run];
    && run.start.scope == c.scope && run.start.session == c.session && run.status == Running
    && LeaseAdmits(run, c.lease, now)
    && (c.checkpoint.Some? ==>
          c.checkpoint.value.thread == run.start.thread && c.checkpoint.value.record.run == Some(c.run))
    && Increases(run.events, c.events) && Reportable(s.effects, c.run, c.effects)
    && ItemsOk(s.items, c.run, c.items) && EntriesOk(s.log.entries, Home(c.scope, c.session), c.entries)
  }

  lemma {:induction false} ReportableExactly(effects: map<RunKey, Effect>, run: RunId, updates: seq<EffectUpdate>,
                                             n: nat)
    requires n <= |updates|
    ensures CheckEffects(effects, run, updates, n).Pass? <==> Reportable(effects, run, updates[..n])
  {
    if n > 0 {
      ReportableExactly(effects, run, updates, n - 1);
      var front, all := updates[..n - 1], updates[..n];
      assert all == front + [updates[n - 1]];
      if EffectKeyRepeats(updates, n - 1) {
        var j :| 0 <= j < n - 1 && updates[j].key == updates[n - 1].key;
        assert all[j].key == all[n - 1].key;
      }
      assert Reportable(effects, run, all) ==> Reportable(effects, run, front);
      assert forall i :: 0 <= i < n - 1 ==> front[i] == all[i] == updates[i];
    }
  }

  /** With the invariants the check of the checkpoint's thread comes to the lease and the thread. */
  lemma ThreadCheckPasses(s: Store, r: RunId, checkpoint: CheckpointWrite, lease: Option<LeaseId>, now: int)
    requires Valid(s) && r in s.runs && s.runs[r].status == Running && LeaseAdmits(s.runs[r], lease, now)
    ensures CheckThread(s, s.runs[r], checkpoint, lease, now).Pass? <==> checkpoint.thread == s.runs[r].start.thread
  {
    var run := s.runs[r];
    var t := run.start.thread;
    assert run.start.run == r && RunningOn(s.runs, r, t);
    assert forall q :: q in s.runs && s.runs[q].status == Running && s.runs[q].start.thread == t ==>
             RunningOn(s.runs, q, t);
    if t in s.threadLeases {
      assert Projects(s.runs, t, s.threadLeases[t]);
    }
    hide CheckpointsOk, KeysOk, EntriesDense, LogOk;
  }

  /** A commit is accepted exactly when it is acceptable. */
  lemma AcceptedExactly(s: Store, c: Commit, now: int)
    requires Valid(s)
    ensures PlanCommit(s, c, now) == Accept <==> Acceptable(s, c, now)
  {
    ReportableExactly(s.effects, c.run, c.effects, |c.effects|);
    assert c.effects[..|c.effects|] == c.effects;
    if c.run in s.runs && s.runs[c.run].status == Running && c.checkpoint.Some?
       && LeaseAdmits(s.runs[c.run], c.lease, now) {
      ThreadCheckPasses(s, c.run, c.checkpoint.value, c.lease, now);
    }
    hide Valid, CheckThread, CheckEffects, Reportable, ItemsOk, EntriesOk, Increases, CommitShapeOk;
  }

  /** The run after an accepted commit: the events are appended, and a finish leaves its status and
      reason, its event as the terminal one, and no lease. */
  ghost predicate RunCommitted(before: Run, c: Commit, after: Run) {
    && after.start == before.start && after.cancelRequested == before.cancelRequested
    && after.events == before.events + c.events
    && if c.finish.None? then
         after.status == before.status && after.finishReason == before.finishReason
         && after.terminalEvent == before.terminalEvent && after.lease == before.lease
       else
         after.status == c.finish.value.status && after.finishReason == Some(c.finish.value.reason)
         && |c.events| > 0 && after.terminalEvent == Some(c.events[|c.events| - 1]) && after.lease == None
  }

  /** Only the run of the commit changes, and a finish gives its thread lease up. */
  ghost predicate RunsStored(s: Store, c: Commit, next: Store) {
    && c.run in s.runs && next.runs.Keys == s.runs.Keys
    && RunCommitted(s.runs[c.run], c, next.runs[c.run])
    && (forall r :: r in s.runs && r != c.run ==> next.runs[r] == s.runs[r])
    && (forall t :: t in next.threadLeases <==>
          t in s.threadLeases && (c.finish.None? || t != s.runs[c.run].start.thread))
    && (forall t :: t in next.threadLeases ==> next.threadLeases[t] == s.threadLeases[t])
  }

  ghost predicate CheckpointStored(a: map<ThreadId, CheckpointRecord>, b: map<ThreadId, CheckpointRecord>,
                                   checkpoint: Option<CheckpointWrite>)
  {
    && (checkpoint.None? ==> b == a)
    && (checkpoint.Some? ==>
          && checkpoint.value.thread in b && b[checkpoint.value.thread] == checkpoint.value.record
          && forall t :: t != checkpoint.value.thread ==> (t in b <==> t in a) && (t in a ==> b[t] == a[t]))
  }

  /** Everything that an accepted commit leaves in the store but for its effects. */
  ghost predicate CommitStored(s: Store, c: Commit, next: Store) {
    && RunsStored(s, c, next)
    && CheckpointStored(s.checkpoints, next.checkpoints, c.checkpoint)
    && next.sessions == s.sessions && next.idempotency == s.idempotency
    && ItemsStored(s.items, next.items, c.run, c.items)
    && EntriesStored(s.log.entries, next.log.entries, Home(c.scope, c.session), c.run, s.runs[c.run].start.thread,
                     c.entries)
  }

  lemma CommittedRunsStored(s: Store, c: Commit)
    requires Sound(s, c)
    ensures RunsStored(s, c, Committed(s, c)) && CheckpointStored(s.checkpoints, Committed(s, c).checkpoints, c.checkpoint)
  {
    hide ApplyItems, ApplyEntries, ApplyEffects, Increases;
  }

  lemma CommittedIsStored(s: Store, c: Commit)
    requires Sound(s, c) && ItemsOk(s.items, c.run, c.items)
    requires EntriesOk(s.log.entries, Home(c.scope, c.session), c.entries)
    ensures CommitStored(s, c, Committed(s, c))
  {
    CommittedRunsStored(s, c);
    ItemsApplied(s.items, c.run, c.items, |c.items|);
    assert c.items[..|c.items|] == c.items;
    EntriesApplied(s.log, Home(c.scope, c.session), c.run, s.runs[c.run].start.thread, c.entries, |c.entries|);
    assert c.entries[..|c.entries|] == c.entries;
    hide ItemsStored, EntriesStored, RunsStored, CheckpointStored, ApplyItems, ApplyEntries, ApplyEffects, ItemsOk;
    hide EntriesOk, Increases, CommittedRun, CommitShapeOk;
  }

  /** An accepted commit is answered with its events and leaves all of itself in the store; any other
      one leaves the store as it was. */
  lemma CommitStores(s: Store, c: Commit, now: int)
    requires Valid(s)
    ensures var (next, reply) := CommitRun(s, c, now);
            if Acceptable(s, c, now) then
              && CommitStored(s, c, next) && EffectsUpdated(s.effects, next.effects, c.run, c.effects)
              && reply == Ok(if c.finish.None? then Recorded(c.events)
                             else CommitFinished(c.events, Finished(c.events[|c.events| - 1])))
            else next == s
  {
    AcceptedExactly(s, c, now);
    if Acceptable(s, c, now) {
      AcceptedIsStored(s, c, now);
      hide Valid, PlanCommit, Acceptable, CommitStored, EffectsUpdated, Committed;
    } else {
      hide Valid, PlanCommit, Acceptable, CommitStored, EffectsUpdated;
    }
  }

  lemma AcceptedIsStored(s: Store, c: Commit, now: int)
    requires PlanCommit(s, c, now) == Accept
    ensures Sound(s, c) && CommitStored(s, c, Committed(s, c))
    ensures EffectsUpdated(s.effects, Committed(s, c).effects, c.run, c.effects)
    ensures CommitReply(c) == if c.finish.None? then Recorded(c.events)
                              else CommitFinished(c.events, Finished(c.events[|c.events| - 1]))
  {
    AcceptedSound(s, c, now);
    CommittedIsStored(s, c);
    assert CheckEffects(s.effects, c.run, c.effects, |c.effects|).Pass?;
    hide PlanCommit, CommitStored, Increases, ApplyItems, ApplyEntries, ApplyEffects, CommittedRun, CheckEffects;
    hide EffectsUpdated, EffectsPresent;
    EffectsTaken(s.effects, c.run, c.effects, |c.effects|);
    assert c.effects[..|c.effects|] == c.effects;
  }

  /** What a commit that reaches no running run is answered. */
  lemma CommitPassesOver(s: Store, c: Commit, now: int)
    requires Valid(s) && !CommitEmpty(c) && CommitShapeOk(c)
    ensures c.run !in s.runs ==> CommitRun(s, c, now).1 == Ok(Skipped)
    ensures c.run in s.runs && s.runs[c.run].start.scope == c.scope && s.runs[c.run].start.session == c.session
            && s.runs[c.run].status != Running ==>
              var last := s.runs[c.run].terminalEvent;
              && last.Some?
              && CommitRun(s, c, now).1
                 == Ok(if c.finish.Some? then CommitFinished([last.value], AlreadyFinished(last.value)) else Skipped)
  {
    assert c.run in s.runs ==> LogOk(s.runs[c.run]);
    hide Valid, PlanRunning, CommitShapeOk;
  }

  /** The fault of the first update that cannot be reported. */
  function UpdateFault(effects: map<RunKey, Effect>, run: RunId, updates: seq<EffectUpdate>, i: nat): Error
    requires i < |updates|
  {
    if (exists j :: 0 <= j < i && updates[j].key == updates[i].key) then EffectConflict
    else if RunKey(run, updates[i].key) !in effects then EffectNotFound
    else if updates[i].status in {Reserved, Started} then InvalidRunEvent
    else EffectConflict
  }

  ghost predicate FirstFault(effects: map<RunKey, Effect>, run: RunId, updates: seq<EffectUpdate>, i: nat) {
    i < |updates| && Reportable(effects, run, updates[..i]) && !Reportable(effects, run, updates[..i + 1])
  }

  lemma {:induction false} FaultFound(effects: map<RunKey, Effect>, run: RunId, updates: seq<EffectUpdate>, n: nat)
    returns (i: nat)
    requires n <= |updates| && CheckEffects(effects, run, updates, n).Fail?
    ensures FirstFault(effects, run, updates, i)
            && CheckEffects(effects, run, updates, n) == Fail(UpdateFault(effects, run, updates, i))
  {
    if CheckEffects(effects, run, updates, n - 1).Fail? {
      i := FaultFound(effects, run, updates, n - 1);
    } else {
      i := n - 1;
      ReportableExactly(effects, run, updates, n - 1);
      ReportableExactly(effects, run, updates, n);
      hide Reportable;
    }
  }

  /** Which error a commit to a running run is refused with, its faults being looked for in this order:
      lease, thread and run of the checkpoint, numbers, effects, items, entries. */
  lemma CommitFaults(s: Store, c: Commit, now: int)
    requires Valid(s) && !CommitEmpty(c) && CommitShapeOk(c) && c.run in s.runs && s.runs[c.run].status == Running
    requires s.runs[c.run].start.scope == c.scope && s.runs[c.run].start.session == c.session
    ensures var reply, run := CommitRun(s, c, now).1, s.runs[c.run];
            if !LeaseAdmits(run, c.lease, now) then reply == Err(LeaseLost)
            else if c.checkpoint.Some? && c.checkpoint.value.thread != run.start.thread then reply == Err(InvalidRunEvent)
            else if c.checkpoint.Some? && c.checkpoint.value.record.run != Some(c.run) then reply == Err(CheckpointRun)
            else if !Increases(run.events, c.events) then reply == Err(InvalidRunEvent)
            else if !Reportable(s.effects, c.run, c.effects) then
              exists i :: FirstFault(s.effects, c.run, c.effects, i)
                          && reply == Err(UpdateFault(s.effects, c.run, c.effects, i))
            else if !ItemsOk(s.items, c.run, c.items) then reply == Err(ItemConflict)
            else if !EntriesOk(s.log.entries, Home(c.scope, c.session), c.entries) then reply == Err(EntryConflict)
            else reply.Ok?
  {
    var run := s.runs[c.run];
    var checked := CheckEffects(s.effects, c.run, c.effects, |c.effects|);
    ReportableExactly(s.effects, c.run, c.effects, |c.effects|);
    assert c.effects[..|c.effects|] == c.effects;
    if checked.Fail? {
      var i := FaultFound(s.effects, c.run, c.effects, |c.effects|);
    }
    if LeaseAdmits(run, c.lease, now) && c.checkpoint.Some? {
      ThreadCheckPasses(s, c.run, c.checkpoint.value, c.lease, now);
      assert c.checkpoint.value.thread != run.start.thread ==>
               CheckThread(s, run, c.checkpoint.value, c.lease, now) == Fail(InvalidRunEvent);
    }
    PlanOfRunning(s, c, now);
    hide Valid, CheckThread, CheckEffects, Reportable, ItemsOk, EntriesOk, Increases, CommitShapeOk, FirstFault, PlanCommit;
  }

  lemma PlanOfRunning(s: Store, c: Commit, now: int)
    requires !CommitEmpty(c) && CommitShapeOk(c) && c.run in s.runs && s.runs[c.run].status == Running
    requires s.runs[c.run].start.scope == c.scope && s.runs[c.run].start.session == c.session
    ensures PlanCommit(s, c, now) == PlanRunning(s, s.runs[c.run], c, now)
  {
    hide PlanRunning;
  }

  /** And which error a commit is refused with that is not addressed to its run. */
  lemma CommitMisaddressed(s: Store, c: Commit, now: int)
    ensures CommitEmpty(c) || !CommitShapeOk(c) ==> CommitRun(s, c, now).1 == Err(InvalidRunEvent)
    ensures !CommitEmpty(c) && CommitShapeOk(c) && c.run in s.runs ==>
              && (s.runs[c.run].start.scope != c.scope ==> CommitRun(s, c, now).1 == Err(RunNotFound))
              && (s.runs[c.run].start.scope == c.scope && s.runs[c.run].start.session != c.session ==>
                    CommitRun(s, c, now).1 == Err(InvalidRunEvent))
  {
    hide PlanRunning, CommitShapeOk;
  }

  // ---------------------------------------------------------------- starting a run

  /** An earlier run that answers the start: the one of this id, or else the one that was started with
      the same client key. */
  predicate Earlier(s: Store, run: RunStart, r: RunId) {
    && r in s.runs
    && if run.run in s.runs then r == run.run && s.runs[r].start.scope == run.scope
       else run.clientKey.Some? && s.runs[r].start.clientKey == run.clientKey && HomeOf(s.runs[r].start) == HomeOf(run)
  }

  /** The lookup tells what is stored about the run. */
  predicate Describes(l: RunLookup, run: Run) {
    && l.run == run.start.run && l.session == run.start.session && l.thread == run.start.thread
    && l.status == run.status && l.finishReason == run.finishReason && l.cancelRequested == run.cancelRequested
    && (l.owner.Some? <==> run.lease.Some?) && (l.owner.Some? ==> l.owner.value == run.lease.value.owner)
  }

  predicate SameStart(a: RunStart, b: RunStart) {
    a.session == b.session && a.thread == b.thread && a.clientKey == b.clientKey && a.body == b.body
    && a.entries == b.entries
  }

  /** A run just started: running, with nothing recorded, leased for the time that was claimed. */
  ghost predicate RunStarted(run: RunStart, now: int, r: Run) {
    && r.start == run && r.status == Running && r.finishReason.None? && !r.cancelRequested && r.terminalEvent.None?
    && r.events == []
    && (r.lease.Some? <==> run.lease.Some?)
    && (run.lease.Some? ==> r.lease.value.owner == run.lease.value.owner && r.lease.value.id == run.lease.value.id
                            && r.lease.value.until == now + run.lease.value.ttl)
  }

  /** Everything that a created run leaves in the store. */
  ghost predicate StartStored(s: Store, run: RunStart, now: int, next: Store) {
    && next.runs.Keys == s.runs.Keys + {run.run} && RunStarted(run, now, next.runs[run.run])
    && (forall r :: r in s.runs && r != run.run ==> next.runs[r] == s.runs[r])
    && (forall t :: t != run.thread || run.lease.None? ==>
          (t in next.threadLeases <==> t in s.threadLeases)
          && (t in s.threadLeases ==> next.threadLeases[t] == s.threadLeases[t]))
    && (run.lease.Some? ==>
          && run.thread in next.threadLeases
          && next.threadLeases[run.thread] == ThreadLease(run.run, run.lease.value.owner, run.lease.value.id,
                                                          now + run.lease.value.ttl))
    && (run.clientKey.Some? ==>
          next.idempotency == s.idempotency[HomeKey(HomeOf(run), run.clientKey.value) := run.run])
    && (run.clientKey.None? ==> next.idempotency == s.idempotency)
    && EntriesStored(s.log.entries, next.log.entries, HomeOf(run), run.run, run.thread, run.entries)
    && next.checkpoints == s.checkpoints && next.effects == s.effects && next.items == s.items
  }

  lemma WithRunStored(s: Store, run: RunStart, now: int)
    requires run.run !in s.runs && EntriesOk(s.log.entries, HomeOf(run), run.entries)
    ensures StartStored(s, run, now, WithRun(s, run, now))
  {
    hide EntriesStored, ApplyEntries, EntriesOk, HomeOf;
    EntriesApplied(s.log, HomeOf(run), run.run, run.thread, run.entries, |run.entries|);
    assert run.entries[..|run.entries|] == run.entries;
  }

  /** The index of client keys finds exactly the earlier run. */
  lemma EarlierByKey(s: Store, run: RunStart)
    requires Valid(s) && run.run !in s.runs && run.clientKey.Some?
    ensures var found := Idempotent(s, HomeOf(run), run.clientKey.value);
            && (found.Some? ==> Earlier(s, run, found.value.start.run) && s.runs[found.value.start.run] == found.value)
            && (forall r :: Earlier(s, run, r) ==> found == Some(s.runs[r]))
  {
    var k := HomeKey(HomeOf(run), run.clientKey.value);
    hide LogOk, OneRunning, LeasesOk, CheckpointsOk, EntriesDense;
    forall r | Earlier(s, run, r) ensures Idempotent(s, HomeOf(run), run.clientKey.value) == Some(s.runs[r]) {
      assert k in s.idempotency && s.idempotency[k] == r;
    }
  }

  /** Nothing stands in the way of a start, in the store that has its session. */
  predicate Creates(s: Store, run: RunStart, now: int) {
    && run.run !in s.runs && !(run.clientKey.Some? && Idempotent(s, HomeOf(run), run.clientKey.value).Some?)
    && EntriesOk(s.log.entries, HomeOf(run), run.entries) && !Busy(s.runs, run.thread, run.run)
    && !(run.lease.Some? && ThreadHeld(s, run.thread, now))
  }

  lemma StartShape(s: Store, run: RunStart, now: int)
    ensures var with := WithSession(s, run);
            && StartRun(s, run, now).0 == (if Creates(with, run, now) then WithRun(with, run, now) else with)
            && (StartRun(s, run, now).1 == Ok(Created) <==> Creates(with, run, now))
  {
    hide Busy, EntriesOk, WithRun, Idempotent, ThreadHeld, Lookup, WithSession;
  }

  lemma CreatesExactly(s: Store, run: RunStart, now: int)
    requires Valid(s)
    ensures Creates(WithSession(s, run), run, now)
            <==> run.run !in s.runs && (forall r :: !Earlier(s, run, r))
                 && EntriesOk(s.log.entries, HomeOf(run), run.entries) && !Busy(s.runs, run.thread, run.run)
  {
    var with := WithSession(s, run);
    if run.run !in s.runs {
      if run.clientKey.Some? {
        EarlierByKey(s, run);
        assert Idempotent(with, HomeOf(run), run.clientKey.value) == Idempotent(s, HomeOf(run), run.clientKey.value);
      }
      if !Busy(s.runs, run.thread, run.run) {
        ClaimNeverBusy(s, run, now);
      }
    }
    hide Valid, EntriesOk, Busy, Idempotent;
  }

  /** When a start creates its run and what it then leaves in the store. */
  lemma StartCreates(s: Store, run: RunStart, now: int)
    requires Valid(s)
    ensures var (next, reply) := StartRun(s, run, now);
            && (reply == Ok(Created)
                <==> run.run !in s.runs && (forall r :: !Earlier(s, run, r))
                     && EntriesOk(s.log.entries, HomeOf(run), run.entries) && !Busy(s.runs, run.thread, run.run))
            && (reply == Ok(Created) ==> StartStored(s, run, now, next))
            && (reply != Ok(Created) ==> next == s.(sessions := next.sessions))
            && next.sessions == if run.session in s.sessions then s.sessions else s.sessions[run.session := run.scope]
  {
    hide Valid, EntriesOk, Busy, WithRun, Creates, StartRun, StartStored, Earlier;
    StartShape(s, run, now);
    CreatesExactly(s, run, now);
    var with := WithSession(s, run);
    if StartRun(s, run, now).1 == Ok(Created) {
      WithRunStored(with, run, now);
      SessionStored(s, with, run, now, WithRun(with, run, now));
    }
    WithRunSessions(with, run, now);
  }

  lemma WithRunSessions(s: Store, run: RunStart, now: int)
    ensures WithRun(s, run, now).sessions == s.sessions
  {
  }

  lemma SessionStored(s: Store, with: Store, run: RunStart, now: int, next: Store)
    requires with == s.(sessions := with.sessions) && StartStored(with, run, now, next)
    ensures StartStored(s, run, now, next)
  {
    hide EntriesStored, RunStarted;
  }

  /** When an earlier run answers a start, and with what. */
  lemma StartAnswered(s: Store, run: RunStart, now: int, r: RunId)
    requires Valid(s) && Earlier(s, run, r)
    ensures var reply := StartRun(s, run, now).1;
            if SameStart(s.runs[r].start, run)
            then reply.Ok? && reply.value.Existing? && Describes(reply.value.lookup, s.runs[r])
            else reply == Err(StartConflict)
  {
    if run.run !in s.runs {
      EarlierByKey(s, run);
      assert Idempotent(WithSession(s, run), HomeOf(run), run.clientKey.value)
             == Idempotent(s, HomeOf(run), run.clientKey.value);
    }
    hide Valid, EntriesOk, Busy, WithRun, Idempotent;
  }

  // ---------------------------------------------------------------- single operations

  /** Nothing is wrong with the finish, and the run is running without a lease. */
  ghost predicate Finishable(s: Store, f: FinishRecord) {
    && EventFor(f.terminalEvent, f.run, f.session) && f.terminalEvent.terminal && f.status != Running
    && f.run in s.runs
    && var run := s.runs[f.run];
    && run.start.scope == f.scope && run.start.session == f.session && run.status == Running && run.lease.None?
    && EntriesOk(s.log.entries, Home(f.scope, f.session), f.entries) && Increases(run.events, [f.terminalEvent])
  }

  lemma FinishTakesPlace(s: Store, f: FinishRecord)
    ensures FinishRun(s, f).1.Ok? && FinishRun(s, f).1.value.Finished? <==> Finishable(s, f)
    ensures Finishable(s, f) ==>
              FinishRun(s, f)
              == (s.(runs := s.runs[f.run := FinishedRun(s.runs[f.run], f)],
                     log := ApplyEntries(s.log, Home(f.scope, f.session), f.run, s.runs[f.run].start.thread, f.entries,
                                         |f.entries|)),
                  Ok(Finished(f.terminalEvent)))
    ensures !Finishable(s, f) ==> FinishRun(s, f).0 == s
  {
    hide ApplyEntries, EntriesOk, Increases, FinishedRun;
  }

  /** Everything that a finish leaves in the store. */
  ghost predicate FinishStored(s: Store, f: FinishRecord, next: Store) {
    && f.run in s.runs && next.runs.Keys == s.runs.Keys
    && next.runs[f.run] == Run(s.runs[f.run].start, f.status, Some(f.reason), s.runs[f.run].cancelRequested,
                               Some(f.terminalEvent), s.runs[f.run].events + [f.terminalEvent], None)
    && (forall r :: r in s.runs && r != f.run ==> next.runs[r] == s.runs[r])
    && EntriesStored(s.log.entries, next.log.entries, Home(f.scope, f.session), f.run, s.runs[f.run].start.thread,
                     f.entries)
    && next == s.(runs := next.runs, log := next.log)
  }

  /** When a finish takes place, and what it then leaves in the store. */
  lemma FinishStores(s: Store, f: FinishRecord)
    requires Valid(s)
    ensures var (next, reply) := FinishRun(s, f);
            && (reply == Ok(Finished(f.terminalEvent)) <==> Finishable(s, f))
            && (if Finishable(s, f) then FinishStored(s, f, next) else next == s)
            && (reply.Ok? && reply.value.AlreadyFinished? ==>
                  f.run in s.runs && s.runs[f.run].status != Running
                  && s.runs[f.run].terminalEvent == Some(reply.value.event))
  {
    FinishTakesPlace(s, f);
    FinishAnswer(s, f);
    if Finishable(s, f) {
      var home := Home(f.scope, f.session);
      EntriesApplied(s.log, home, f.run, s.runs[f.run].start.thread, f.entries, |f.entries|);
      assert f.entries[..|f.entries|] == f.entries;
      hide Finishable, EntriesStored, ApplyEntries, FinishRun;
      assert FinishStored(s, f, FinishRun(s, f).0);
    }
    hide Valid, EntriesStored, ApplyEntries, Finishable, FinishRun, FinishStored;
  }

  lemma FinishAnswer(s: Store, f: FinishRecord)
    ensures var reply := FinishRun(s, f).1;
            && (reply.Ok? && reply.value.Finished? ==> reply.value.event == f.terminalEvent)
            && (reply.Ok? && reply.value.AlreadyFinished? ==>
                  f.run in s.runs && s.runs[f.run].status != Running
                  && s.runs[f.run].terminalEvent == Some(reply.value.event))
  {
    hide ApplyEntries, EntriesOk, Increases, FinishedRun;
  }

  /** A recorded event is appended to its run and changes nothing else; a request to cancel raises the
      flag of its run and changes nothing else. */
  lemma RecordStores(s: Store, run: RunId, scope: Scope, event: Event)
    ensures var (next, reply) := RecordEvent(s, run, scope, event);
            && (reply == Ok(true) ==>
                  run in s.runs
                  && next == s.(runs := s.runs[run := s.runs[run].(events := s.runs[run].events + [event])]))
            && (reply != Ok(true) ==> next == s)
            && (reply == Ok(false)
                <==> !event.terminal && event.run == run
                     && (run !in s.runs || (s.runs[run].start.scope == scope && s.runs[run].status != Running)))
            && (reply == Ok(true)
                <==> !event.terminal && event.run == run && run in s.runs && s.runs[run].start.scope == scope
                     && s.runs[run].status == Running && s.runs[run].lease.None?
                     && event.session == s.runs[run].start.session && Increases(s.runs[run].events, [event]))
  {
    hide Increases;
  }

  lemma CancelMarks(s: Store, run: RunId, scope: Scope)
    ensures var (next, reply) := MarkCancelled(s, run, scope);
            && (reply.Ok? <==> run in s.runs && s.runs[run].start.scope == scope)
            && (reply.Ok? ==> run in next.runs && next.runs[run].cancelRequested
                              && next == s.(runs := s.runs[run := s.runs[run].(cancelRequested := true)]))
            && (reply.Err? ==> next == s)
  {
  }

  // ---------------------------------------------------------------- effects

  /** The run takes operations on its effects from this caller. */
  predicate OpAdmitted(s: Store, run: RunId, scope: Scope, lease: Option<LeaseId>, now: int) {
    run in s.runs && s.runs[run].start.scope == scope && s.runs[run].status == Running
    && LeaseAdmits(s.runs[run], lease, now)
  }

  /** Reserving a new effect stores it; reserving it again gives back what is stored, or is a conflict. */
  lemma ReserveStores(s: Store, run: RunId, scope: Scope, lease: Option<LeaseId>, key: Key, kind: Value,
                      request: Value, now: int)
    ensures var (next, reply) := ReserveEffect(s, run, scope, lease, key, kind, request, now);
            var k := RunKey(run, key);
            if !OpAdmitted(s, run, scope, lease, now) then reply.Err? && next == s
            else if k !in s.effects then
              && reply.Ok? && reply.value == Effect(kind, request, Reserved, None, None, None)
              && next == s.(effects := s.effects[k := reply.value])
            else
              && next == s
              && reply == (if s.effects[k].kind == kind && s.effects[k].request == request then Ok(s.effects[k])
                           else Err(EffectConflict))
  {
  }

  /** An effect is granted exactly when it was reserved or had failed: then it is started, in the store
      and in the answer. One that is under way, or whose end is unknown, is refused as pending, one that
      is done is given back, and the store is unchanged. */
  lemma StartGrants(s: Store, run: RunId, scope: Scope, lease: Option<LeaseId>, key: Key, now: int)
    ensures var (next, reply) := StartEffect(s, run, scope, lease, key, now);
            var k := RunKey(run, key);
            && (Granted(reply)
                <==> OpAdmitted(s, run, scope, lease, now) && k in s.effects && s.effects[k].status in {Reserved, Failed})
            && (Granted(reply) ==>
                  && reply.value == Effect(s.effects[k].kind, s.effects[k].request, Started, None, None, None)
                  && next == s.(effects := s.effects[k := reply.value]))
            && (!Granted(reply) ==> next == s)
            && (OpAdmitted(s, run, scope, lease, now) && k in s.effects && s.effects[k].status in {Started, Unknown} ==>
                  reply == Err(EffectPending))
            && (OpAdmitted(s, run, scope, lease, now) && k in s.effects && s.effects[k].status == Done ==>
                  reply == Ok(s.effects[k]))
            && (OpAdmitted(s, run, scope, lease, now) && k !in s.effects ==> reply == Err(EffectNotFound))
  {
  }

  /** The caller is told to carry the effect out. */
  predicate Granted(reply: Result<Effect>) {
    reply.Ok? && reply.value.status == Started
  }

  /** Step `i` grants the effect. */
  ghost predicate GrantsAt(s: Store, steps: seq<Step>, i: nat, k: RunKey) {
    && i < |steps| && steps[i].op.StartEffectOp? && k == RunKey(steps[i].op.run, steps[i].op.key)
    && Granted(StartEffect(Exec(s, steps, i), steps[i].op.run, steps[i].op.scope, steps[i].op.lease, steps[i].op.key,
                           steps[i].now).1)
  }

  lemma GrantStarts(s: Store, steps: seq<Step>, i: nat, k: RunKey)
    requires GrantsAt(s, steps, i, k)
    ensures StartsAt(s, steps, i, k)
  {
    var op := steps[i].op;
    StartGrants(Exec(s, steps, i), op.run, op.scope, op.lease, op.key, steps[i].now);
    assert Exec(s, steps, i + 1) == StoreHistory.Next(Exec(s, steps, i), steps[i]);
    hide Exec, StartEffect;
  }

  /** At most once: over every history, between two callers that are told to carry an effect out, a
      commit that reports its failure was accepted. */
  lemma GrantedAtMostOnce(s: Store, steps: seq<Step>, i: nat, j: nat, k: RunKey)
    requires Valid(s) && i < j && GrantsAt(s, steps, i, k) && GrantsAt(s, steps, j, k)
    ensures exists m :: i < m < j && FailsAt(s, steps, m, k)
  {
    GrantStarts(s, steps, i, k);
    GrantStarts(s, steps, j, k);
    hide Valid, GrantsAt, StartsAt, FailsAt;
    StartedAtMostOnce(s, steps, i, j, k);
  }

  // ---------------------------------------------------------------- leases

  /** A leased running run either admits its holder or is stale, never both and never neither. */
  lemma HeldOrStale(run: Run, now: int)
    requires run.status == Running && run.lease.Some?
    ensures LeaseAdmits(run, Some(run.lease.value.id), now) <==> !Stale(run, now)
  {
  }

  /** A renewal succeeds exactly for the holder of the unexpired lease of a running run, and moves the
      expiry of the run and of its thread, and nothing else. */
  lemma RenewMoves(s: Store, ref: LeaseRef, ttl: nat, now: int)
    requires Valid(s)
    ensures var (next, renewed) := Renew(s, ref, ttl, now);
            && (renewed <==>
                  ref.run in s.runs && s.runs[ref.run].lease.Some?
                  && s.runs[ref.run].lease.value.owner == ref.owner && s.runs[ref.run].lease.value.id == ref.id
                  && now < s.runs[ref.run].lease.value.until)
            && (renewed ==>
                  var t := s.runs[ref.run].start.thread;
                  && t in s.threadLeases
                  && next == s.(runs := s.runs[ref.run := s.runs[ref.run].(lease := Some(Lease(ref.owner, ref.id, now + ttl)))],
                                threadLeases := s.threadLeases[t := ThreadLease(ref.run, ref.owner, ref.id, now + ttl)]))
            && (!renewed ==> next == s)
  {
    if ref.run in s.runs && s.runs[ref.run].lease.Some? {
      var t := s.runs[ref.run].start.thread;
      assert RunningOn(s.runs, ref.run, t) && Projects(s.runs, t, s.threadLeases[t]);
    }
    hide LogOk, OneRunning, CheckpointsOk, KeysOk, EntriesDense;
  }

  /** A release by the holder takes the lease from the run and from its thread, any other release takes
      nothing. */
  lemma ReleaseTakes(s: Store, ref: LeaseRef)
    ensures var next := Release(s, ref);
            if ref.run in s.runs && s.runs[ref.run].lease.Some? && s.runs[ref.run].lease.value.owner == ref.owner
               && s.runs[ref.run].lease.value.id == ref.id
            then
              && next.runs.Keys == s.runs.Keys && next.runs[ref.run] == s.runs[ref.run].(lease := None)
              && (forall r :: r in s.runs && r != ref.run ==> next.runs[r] == s.runs[r])
              && next.threadLeases == s.threadLeases - {s.runs[ref.run].start.thread}
              && next == s.(runs := next.runs, threadLeases := next.threadLeases)
            else next == s
  {
  }

  /** A stale run is reaped as an error with its next event; any other run is left alone. */
  lemma ReapEnds(s: Store, r: RunId, event: Event, now: int)
    ensures var next := Reap(s, r, event, now);
            if r in s.runs && s.runs[r].status == Running && s.runs[r].lease.Some? && s.runs[r].lease.value.until <= now
               && ReapEventOk(s.runs[r], event)
            then
              && next.runs.Keys == s.runs.Keys
              && next.runs[r] == Run(s.runs[r].start, Errored, Some(LeaseExpired), s.runs[r].cancelRequested, Some(event),
                                     s.runs[r].events + [event], None)
              && (forall q :: q in s.runs && q != r ==> next.runs[q] == s.runs[q])
              && next.threadLeases == s.threadLeases - {s.runs[r].start.thread}
              && next == s.(runs := next.runs, threadLeases := next.threadLeases)
            else next == s
  {
  }

  // ---------------------------------------------------------------- what the checks come to

  /** Every item is there with its kind and body. */
  predicate HoldsItems(items: map<RunKey, Item>, run: RunId, writes: seq<ItemWrite>) {
    forall i :: 0 <= i < |writes| ==>
      var k := RunKey(run, writes[i].key);
      k in items && items[k].kind == writes[i].kind && items[k].body == writes[i].body
  }

  predicate HoldsEntries(entries: map<HomeKey, Entry>, home: Home, writes: seq<EntryWrite>) {
    forall i :: 0 <= i < |writes| ==>
      var k := HomeKey(home, writes[i].key);
      && k in entries && entries[k].kind == writes[i].kind && entries[k].vis == writes[i].vis
      && entries[k].body == writes[i].body
  }

  ghost predicate Extends<K, V>(a: map<K, V>, b: map<K, V>) {
    forall k :: k in a ==> k in b && b[k] == a[k]
  }

  /** Items are accepted exactly when their keys differ and they can be there beside all that is stored. */
  lemma ItemsFitExactly(items: map<RunKey, Item>, run: RunId, writes: seq<ItemWrite>)
    ensures ItemsOk(items, run, writes)
            <==> (forall i, j :: 0 <= i < j < |writes| ==> writes[i].key != writes[j].key)
                 && exists all: map<RunKey, Item> :: Extends(items, all) && HoldsItems(all, run, writes)
  {
    if ItemsOk(items, run, writes) {
      ItemsApplied(items, run, writes, |writes|);
      assert writes[..|writes|] == writes;
      var all := ApplyItems(items, run, writes, |writes|);
      hide ApplyItems;
      assert Extends(items, all) && HoldsItems(all, run, writes) by { StoredExtends(items, all, run, writes); }
    }
  }

  lemma StoredExtends(items: map<RunKey, Item>, all: map<RunKey, Item>, run: RunId, writes: seq<ItemWrite>)
    requires ItemsOk(items, run, writes) && ItemsStored(items, all, run, writes)
    ensures Extends(items, all) && HoldsItems(all, run, writes)
  {
    forall k | k in items ensures k in all && all[k] == items[k] {
      if ItemKeyIn(run, writes, k) {
        var i :| 0 <= i < |writes| && k == RunKey(run, writes[i].key);
        assert all[k] == Item(writes[i].kind, writes[i].body);
      }
    }
  }

  /** And so are entries. */
  lemma EntriesFitExactly(log: EntryLog, home: Home, run: RunId, thread: ThreadId, writes: seq<EntryWrite>)
    ensures EntriesOk(log.entries, home, writes)
            <==> (forall i, j :: 0 <= i < j < |writes| ==> writes[i].key != writes[j].key)
                 && exists all: map<HomeKey, Entry> :: Extends(log.entries, all) && HoldsEntries(all, home, writes)
  {
    if EntriesOk(log.entries, home, writes) {
      EntriesApplied(log, home, run, thread, writes, |writes|);
      assert writes[..|writes|] == writes;
      var all := ApplyEntries(log, home, run, thread, writes, |writes|).entries;
      hide ApplyEntries;
      assert Extends(log.entries, all) && HoldsEntries(all, home, writes) by {
        EntriesExtend(log.entries, all, home, run, thread, writes);
      }
    }
  }

  lemma EntriesExtend(entries: map<HomeKey, Entry>, all: map<HomeKey, Entry>, home: Home, run: RunId, thread: ThreadId,
                      writes: seq<EntryWrite>)
    requires EntriesOk(entries, home, writes) && EntriesStored(entries, all, home, run, thread, writes)
    ensures Extends(entries, all) && HoldsEntries(all, home, writes)
  {
  }

  /** Numbers are accepted exactly when they are positive and the whole log increases with them. */
  lemma IncreasesExactly(log: seq<Event>, events: seq<Event>)
    requires forall i, j :: 0 <= i < j < |log| ==> log[i].num < log[j].num
    ensures var all := log + events;
            Increases(log, events)
            <==> (forall i :: |log| <= i < |all| ==> all[i].num > 0)
                 && (forall i, j :: 0 <= i < j < |all| ==> all[i].num < all[j].num)
  {
    var all := log + events;
    if Increases(log, events) {
      Ascending(log, events);
    }
    if (forall i :: |log| <= i < |all| ==> all[i].num > 0)
       && (forall i, j :: 0 <= i < j < |all| ==> all[i].num < all[j].num) {
      AscendsOn(log, events);
    }
  }

  lemma AscendsOn(log: seq<Event>, events: seq<Event>)
    requires var all := log + events;
             && (forall i :: |log| <= i < |all| ==> all[i].num > 0)
             && (forall i, j :: 0 <= i < j < |all| ==> all[i].num < all[j].num)
    ensures Increases(log, events)
  {
    var all, n := log + events, |log|;
    forall i | 0 <= i < |events|
      ensures events[i].num > 0 && (i > 0 ==> events[i - 1].num < events[i].num)
    {
      assert events[i] == all[n + i] && (i > 0 ==> events[i - 1] == all[n + i - 1]);
    }
    assert n > 0 && |events| > 0 ==> all[n - 1] == log[n - 1] && all[n] == events[0];
  }

  lemma {:induction false} Ascending(log: seq<Event>, events: seq<Event>)
    requires forall i, j :: 0 <= i < j < |log| ==> log[i].num < log[j].num
    requires Increases(log, events)
    ensures var all := log + events; forall i, j :: 0 <= i < j < |all| ==> all[i].num < all[j].num
    decreases |events|
  {
    var all := log + events;
    if |events| > 0 {
      var front := events[..|events| - 1];
      Ascending(log, front);
      assert all == log + front + [events[|events| - 1]];
      assert all[|all| - 1] == events[|events| - 1];
      assert |log + front| > 0 ==> (log + front)[|log + front| - 1].num < events[|events| - 1].num;
    }
  }

  /** A commit is well shaped exactly when its events address its run and have positive numbers, the one
      terminal event is the last one of a finish, and a finish ends this run. */
  lemma ShapeExactly(c: Commit)
    ensures CommitShapeOk(c)
            <==> && (forall i :: 0 <= i < |c.events| ==>
                       && c.events[i].run == c.run && c.events[i].session == c.session && c.events[i].num > 0
                       && (c.events[i].terminal <==> c.finish.Some? && i == |c.events| - 1))
                 && (c.finish.Some? ==>
                       && |c.events| > 0 && c.finish.value.run == c.run && c.finish.value.session == c.session
                       && c.finish.value.status != Running)
  {
  }

  /** The thread is busy exactly when a running run other than this one is on it. */
  lemma BusyExactly(s: Store, thread: ThreadId, r: RunId)
    requires Valid(s)
    ensures Busy(s.runs, thread, r) <==> exists q :: q != r && RunningOn(s.runs, q, thread)
  {
    hide LogOk, OneRunning, LeasesOk, CheckpointsOk, KeysOk, EntriesDense;
    if Busy(s.runs, thread, r) {
      var q :| q in s.runs && s.runs[q].status == Running && s.runs[q].start.thread == thread
               && s.runs[q].start.run != r;
      assert RunningOn(s.runs, q, thread) && q != r;
    }
    if q :| q != r && RunningOn(s.runs, q, thread) {
      assert s.runs[q].start.run == q;
    }
  }
}
