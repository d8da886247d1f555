/**
 The invariants that tie the maps of the store together, and the proof that every
 operation keeps them.
 */
module StoreInv {
  import opened Types
  import opened StoreSpec

  /** Numbers are positive and increase, and a run is terminal exactly when its last event is. */
  ghost predicate LogOk(run: Run) {
    && (forall i :: 0 <= i < |run.events| ==>
          EventFor(run.events[i], run.start.run, run.start.session) && run.events[i].num > 0)
    && (forall i, j :: 0 <= i < j < |run.events| ==> run.events[i].num < run.events[j].num)
    && (run.status.IsTerminal() <==> run.terminalEvent.Some?)
    && (run.terminalEvent.Some? ==>
          run.events != [] && run.terminalEvent.value == run.events[|run.events| - 1]
          && run.terminalEvent.value.terminal && run.lease.None?)
    && (forall i :: 0 <= i < |run.events| && run.events[i].terminal ==>
          run.status.IsTerminal() && i == |run.events| - 1)
  }

  ghost predicate RunsOk(runs: map<RunId, Run>) {
    forall r :: r in runs ==> runs[r].start.run == r && LogOk(runs[r])
  }

  ghost predicate RunningOn(runs: map<RunId, Run>, r: RunId, t: ThreadId) {
    r in runs && runs[r].status == Running && runs[r].start.thread == t
  }

  /** A thread has at most one running run. */
  ghost predicate OneRunning(runs: map<RunId, Run>) {
    forall r, q, t :: RunningOn(runs, r, t) && RunningOn(runs, q, t) ==> r == q
  }

  /** The thread lease is the one its run holds, and that run is running on the thread. */
  ghost predicate Projects(runs: map<RunId, Run>, t: ThreadId, l: ThreadLease) {
    RunningOn(runs, l.run, t) && runs[l.run].lease == Some(Lease(l.owner, l.id, l.until))
  }

  /** The thread leases are exactly the leases of the running runs. */
  ghost predicate LeasesOk(runs: map<RunId, Run>, leases: map<ThreadId, ThreadLease>) {
    && (forall t :: t in leases ==> Projects(runs, t, leases[t]))
    && (forall r :: r in runs && runs[r].lease.Some? ==>
          RunningOn(runs, r, runs[r].start.thread)
          && runs[r].start.thread in leases && leases[runs[r].start.thread].run == r)
  }

  ghost predicate CheckpointsOk(runs: map<RunId, Run>, checkpoints: map<ThreadId, CheckpointRecord>) {
    forall t :: t in checkpoints ==>
      checkpoints[t].run.Some? && checkpoints[t].run.value in runs
      && runs[checkpoints[t].run.value].start.thread == t
  }

  ghost predicate KeysOk(runs: map<RunId, Run>, idempotency: map<HomeKey, RunId>) {
    && (forall k :: k in idempotency ==>
          idempotency[k] in runs && HomeOf(runs[idempotency[k]].start) == k.home
          && runs[idempotency[k]].start.clientKey == Some(k.key))
    && (forall r :: r in runs && runs[r].start.clientKey.Some? ==>
          HomeKey(HomeOf(runs[r].start), runs[r].start.clientKey.value) in idempotency
          && idempotency[HomeKey(HomeOf(runs[r].start), runs[r].start.clientKey.value)] == r)
  }

  ghost predicate HasNumber(log: EntryLog, k: HomeKey, home: Home, n: int) {
    k in log.entries && k.home == home && log.entries[k].num == n
  }

  ghost predicate Used(log: EntryLog, home: Home, n: int) {
    exists k :: HasNumber(log, k, home, n)
  }

  /** In each session the entry numbers are exactly 1..count, each used once. */
  ghost predicate EntriesDense(log: EntryLog) {
    && (forall k :: k in log.entries ==> 1 <= log.entries[k].num <= Count(log, k.home))
    && (forall k, q, home, n :: HasNumber(log, k, home, n) && HasNumber(log, q, home, n) ==> k == q)
    && (forall home, n :: 1 <= n <= Count(log, home) ==> Used(log, home, n))
  }

  ghost predicate OwnedBy<T>(runs: map<RunId, Run>, rows: map<RunKey, T>) {
    forall k :: k in rows ==> k.run in runs
  }

  ghost predicate Valid(s: Store) {
    && RunsOk(s.runs)
    && OneRunning(s.runs)
    && LeasesOk(s.runs, s.threadLeases)
    && CheckpointsOk(s.runs, s.checkpoints)
    && KeysOk(s.runs, s.idempotency)
    && EntriesDense(s.log)
    && OwnedBy(s.runs, s.effects)
    && OwnedBy(s.runs, s.items)
  }

  function Empty(): Store {
    Store(map[], map[], map[], map[], map[], EntryLog(map[], map[]), map[], map[])
  }

  lemma EmptyValid()
    ensures Valid(Empty())
  {
  }

  // ---------------------------------------------------------------- one run changes

  /** `after` may replace `before`: same start, and a terminal run does not come back to life. */
  ghost predicate Succeeds(before: Run, after: Run) {
    after.start == before.start && LogOk(after) && (after.status == Running ==> before.status == Running)
  }

  lemma OneRunningKept(runs: map<RunId, Run>, id: RunId, run: Run)
    requires OneRunning(runs) && id in runs && run.start == runs[id].start
    requires run.status == Running ==> runs[id].status == Running
    ensures OneRunning(runs[id := run])
  {
    var next := runs[id := run];
    forall r, q, t | RunningOn(next, r, t) && RunningOn(next, q, t) ensures r == q {
      assert RunningOn(runs, r, t) && RunningOn(runs, q, t);
    }
  }

  lemma KeysKept(runs: map<RunId, Run>, idempotency: map<HomeKey, RunId>, id: RunId, run: Run)
    requires KeysOk(runs, idempotency) && id in runs && run.start == runs[id].start
    ensures KeysOk(runs[id := run], idempotency)
  {
    var next := runs[id := run];
    assert forall r :: r in next ==> r in runs && next[r].start == runs[r].start;
  }

  lemma CheckpointsKept(runs: map<RunId, Run>, checkpoints: map<ThreadId, CheckpointRecord>, id: RunId, run: Run)
    requires CheckpointsOk(runs, checkpoints) && id in runs && run.start == runs[id].start
    ensures CheckpointsOk(runs[id := run], checkpoints)
  {
  }

  /** Replacing a run by a successor keeps every invariant but the one about leases. */
  lemma RunChanged(s: Store, id: RunId, run: Run)
    requires Valid(s) && id in s.runs && Succeeds(s.runs[id], run)
    ensures var runs := s.runs[id := run];
            RunsOk(runs) && OneRunning(runs) && CheckpointsOk(runs, s.checkpoints)
            && KeysOk(runs, s.idempotency) && OwnedBy(runs, s.effects) && OwnedBy(runs, s.items)
  {
    assert s.runs[id].start.run == id;
    hide LogOk, OneRunning, LeasesOk, CheckpointsOk, KeysOk, EntriesDense;
    OneRunningKept(s.runs, id, run);
    KeysKept(s.runs, s.idempotency, id, run);
    CheckpointsKept(s.runs, s.checkpoints, id, run);
  }

  /** A running run keeps its lease: the thread leases stay right. */
  lemma LeaseKept(runs: map<RunId, Run>, leases: map<ThreadId, ThreadLease>, id: RunId, run: Run)
    requires LeasesOk(runs, leases) && id in runs
    requires run.start == runs[id].start && run.lease == runs[id].lease && run.status == runs[id].status
    ensures LeasesOk(runs[id := run], leases)
  {
    forall t | t in leases ensures Projects(runs[id := run], t, leases[t]) {
      assert Projects(runs, t, leases[t]);
    }
  }

  /** A running run gives up its lease, if it had one, and its thread lease goes with it. */
  lemma LeaseDropped(runs: map<RunId, Run>, leases: map<ThreadId, ThreadLease>, id: RunId, run: Run)
    requires LeasesOk(runs, leases) && OneRunning(runs) && id in runs && runs[id].status == Running
    requires run.start == runs[id].start && run.lease.None?
    ensures LeasesOk(runs[id := run], leases - {runs[id].start.thread})
  {
    var next, left := runs[id := run], leases - {runs[id].start.thread};
    forall t | t in left ensures Projects(next, t, left[t]) {
      assert Projects(runs, t, leases[t]);
    }
    assert RunningOn(runs, id, run.start.thread);
    forall r | r in next && next[r].lease.Some?
      ensures RunningOn(next, r, next[r].start.thread)
              && next[r].start.thread in left && left[next[r].start.thread].run == r
    {
      assert RunningOn(runs, r, runs[r].start.thread);
    }
  }

  /** An unleased running run has no thread lease to give up. */
  lemma NoThreadLease(runs: map<RunId, Run>, leases: map<ThreadId, ThreadLease>, id: RunId)
    requires LeasesOk(runs, leases) && OneRunning(runs)
    requires id in runs && runs[id].status == Running && runs[id].lease.None?
    ensures runs[id].start.thread !in leases
  {
    var t := runs[id].start.thread;
    assert RunningOn(runs, id, t);
    assert t in leases ==> RunningOn(runs, leases[t].run, t);
  }

  // ---------------------------------------------------------------- growing the event log

  lemma {:induction false} Ascends(log: seq<Event>, events: seq<Event>, i: nat, j: nat)
    requires Increases(log, events) && i < j < |events|
    ensures events[i].num < events[j].num
  {
    if i + 1 < j {
      Ascends(log, events, i, j - 1);
    }
    assert events[j - 1].num < events[j].num;
  }

  lemma LogExtends(run: Run, events: seq<Event>)
    requires LogOk(run) && Increases(run.events, events)
    ensures var log := run.events + events;
            forall i, j :: 0 <= i < j < |log| ==> log[i].num < log[j].num
  {
    var log := run.events + events;
    var n := |run.events|;
    forall i, j | 0 <= i < j < |log| ensures log[i].num < log[j].num {
      if n <= i {
        Ascends(run.events, events, i - n, j - n);
      } else if n <= j {
        assert log[j] == events[j - n];
        if n < j {
          Ascends(run.events, events, 0, j - n);
        }
        assert events[0].num > LastNum(run.events);
        assert i == n - 1 || run.events[i].num < run.events[n - 1].num;
      }
    }
  }

  // ---------------------------------------------------------------- entries

  lemma EntryAdded(log: EntryLog, home: Home, run: RunId, thread: ThreadId, w: EntryWrite)
    requires EntriesDense(log)
    ensures EntriesDense(ApplyEntry(log, home, run, thread, w))
  {
    var next := ApplyEntry(log, home, run, thread, w);
    var key := HomeKey(home, w.key);
    if key !in log.entries {
      var last := Count(next, home);
      forall h, n | 1 <= n <= Count(next, h) ensures Used(next, h, n) {
        if h == home && n == last {
          assert HasNumber(next, key, h, n);
        } else {
          assert Used(log, h, n);
          var k :| HasNumber(log, k, h, n);
          assert HasNumber(next, k, h, n);
        }
      }
      forall k, q, h, n | HasNumber(next, k, h, n) && HasNumber(next, q, h, n) ensures k == q {
        assert k == key || HasNumber(log, k, h, n);
        assert q == key || HasNumber(log, q, h, n);
      }
    }
  }

  lemma {:induction false} EntriesAdded(log: EntryLog, home: Home, run: RunId, thread: ThreadId,
                                        writes: seq<EntryWrite>, n: nat)
    requires EntriesDense(log) && n <= |writes|
    ensures EntriesDense(ApplyEntries(log, home, run, thread, writes, n))
  {
    if n > 0 {
      EntriesAdded(log, home, run, thread, writes, n - 1);
      EntryAdded(ApplyEntries(log, home, run, thread, writes, n - 1), home, run, thread, writes[n - 1]);
    }
  }

  lemma {:induction false} ItemsOwned(items: map<RunKey, Item>, run: RunId, writes: seq<ItemWrite>, n: nat)
    requires n <= |writes|
    ensures forall k :: k in ApplyItems(items, run, writes, n) ==> k in items || k.run == run
  {
    if n > 0 {
      ItemsOwned(items, run, writes, n - 1);
    }
  }

  lemma {:induction false} EffectsElsewhere(effects: map<RunKey, Effect>, run: RunId, updates: seq<EffectUpdate>,
                                            n: nat, k: RunKey)
    requires n <= |updates| && EffectsPresent(effects, run, updates) && k in effects
    requires forall i :: 0 <= i < n ==> k != RunKey(run, updates[i].key)
    ensures ApplyEffects(effects, run, updates, n)[k] == effects[k]
  {
    if n > 0 {
      EffectsElsewhere(effects, run, updates, n - 1, k);
    }
  }

  // ---------------------------------------------------------------- starting a run

  lemma IdleThread(s: Store, thread: ThreadId, except: RunId)
    requires RunsOk(s.runs) && LeasesOk(s.runs, s.threadLeases)
    requires !Busy(s.runs, thread, except) && except !in s.runs
    ensures thread !in s.threadLeases
    ensures forall r :: !RunningOn(s.runs, r, thread)
  {
    hide LogOk, CheckpointsOk, KeysOk, EntriesDense;
    assert forall r :: RunningOn(s.runs, r, thread) ==> Busy(s.runs, thread, except);
    assert thread in s.threadLeases ==> RunningOn(s.runs, s.threadLeases[thread].run, thread);
  }

  /** Once no other run is running on the thread, claiming the thread cannot find it held. */
  lemma ClaimNeverBusy(s: Store, run: RunStart, now: int)
    requires Valid(s) && run.run !in s.runs && !Busy(s.runs, run.thread, run.run)
    ensures !ThreadHeld(s, run.thread, now)
  {
    IdleThread(s, run.thread, run.run);
  }

  lemma StartKeepsLeases(s: Store, run: RunStart, now: int)
    requires LeasesOk(s.runs, s.threadLeases) && OneRunning(s.runs)
    requires run.run !in s.runs && run.thread !in s.threadLeases
    requires forall r :: !RunningOn(s.runs, r, run.thread)
    ensures LeasesOk(WithRun(s, run, now).runs, WithRun(s, run, now).threadLeases)
    ensures OneRunning(WithRun(s, run, now).runs)
  {
    var next := WithRun(s, run, now);
    forall t | t in next.threadLeases ensures Projects(next.runs, t, next.threadLeases[t]) {
      assert t == run.thread || Projects(s.runs, t, s.threadLeases[t]);
    }
    forall r | r in next.runs && next.runs[r].lease.Some?
      ensures var t := next.runs[r].start.thread;
              RunningOn(next.runs, r, t) && t in next.threadLeases && next.threadLeases[t].run == r
    {
      assert r == run.run || RunningOn(s.runs, r, s.runs[r].start.thread);
    }
    forall r, q, t | RunningOn(next.runs, r, t) && RunningOn(next.runs, q, t) ensures r == q {
      assert r == run.run || RunningOn(s.runs, r, t);
      assert q == run.run || RunningOn(s.runs, q, t);
    }
  }

  lemma StartKeepsKeys(s: Store, run: RunStart, now: int)
    requires KeysOk(s.runs, s.idempotency) && run.run !in s.runs
    requires run.clientKey.None? || Idempotent(s, HomeOf(run), run.clientKey.value).None?
    ensures KeysOk(WithRun(s, run, now).runs, WithRun(s, run, now).idempotency)
  {
    var next := WithRun(s, run, now);
    forall r | r in next.runs && next.runs[r].start.clientKey.Some?
      ensures var k := HomeKey(HomeOf(next.runs[r].start), next.runs[r].start.clientKey.value);
              k in next.idempotency && next.idempotency[k] == r
    {
      if r != run.run {
        var k := HomeKey(HomeOf(s.runs[r].start), s.runs[r].start.clientKey.value);
        assert k in s.idempotency && s.idempotency[k] == r;
      }
    }
  }

  lemma NewRunLog(run: RunStart, now: int)
    ensures LogOk(NewRun(run, now)) && NewRun(run, now).start == run
  {
  }

  lemma WithRunValid(s: Store, run: RunStart, now: int)
    requires Valid(s) && run.run !in s.runs && run.thread !in s.threadLeases
    requires forall r :: !RunningOn(s.runs, r, run.thread)
    requires run.clientKey.None? || Idempotent(s, HomeOf(run), run.clientKey.value).None?
    ensures Valid(WithRun(s, run, now))
  {
    hide LogOk, OneRunning, LeasesOk, KeysOk, EntriesDense, RunningOn, ApplyEntries, NewRun;
    NewRunLog(run, now);
    StartKeepsLeases(s, run, now);
    StartKeepsKeys(s, run, now);
    EntriesAdded(s.log, HomeOf(run), run.run, run.thread, run.entries, |run.entries|);
  }

  lemma StartKeeps(s0: Store, run: RunStart, now: int)
    requires Valid(s0)
    ensures Valid(StartRun(s0, run, now).0)
  {
    hide RunsOk, OneRunning, LeasesOk, CheckpointsOk, KeysOk, EntriesDense, EntriesOk, Busy;
    var s := WithSession(s0, run);
    if StartRun(s0, run, now).1 == Ok(Created) {
      IdleThread(s, run.thread, run.run);
      WithRunValid(s, run, now);
    }
  }

  // ---------------------------------------------------------------- the other operations

  lemma CommittedLog(run: Run, c: Commit)
    requires LogOk(run) && run.status == Running && Increases(run.events, c.events) && CommitShapeOk(c)
    requires run.start.run == c.run && run.start.session == c.session
    ensures LogOk(CommittedRun(run, c))
  {
    LogExtends(run, c.events);
    var log := run.events + c.events;
    assert forall i :: |run.events| <= i < |log| ==> log[i] == c.events[i - |run.events|];
  }

  /** What the checks of an accepted commit establish. */
  ghost predicate Sound(s: Store, c: Commit) {
    && CommitShapeOk(c) && !CommitEmpty(c)
    && c.run in s.runs && s.runs[c.run].status == Running
    && s.runs[c.run].start.scope == c.scope && s.runs[c.run].start.session == c.session
    && Increases(s.runs[c.run].events, c.events)
    && EffectsPresent(s.effects, c.run, c.effects)
    && (c.checkpoint.Some? ==>
          c.checkpoint.value.thread == s.runs[c.run].start.thread
          && c.checkpoint.value.record.run == Some(c.run))
  }

  lemma AcceptedSound(s: Store, c: Commit, now: int)
    requires PlanCommit(s, c, now) == Accept
    ensures Sound(s, c)
  {
    CheckedEffectsPresent(s.effects, c.run, c.effects, |c.effects|);
  }

  lemma CommittedLeases(s: Store, c: Commit)
    requires LeasesOk(s.runs, s.threadLeases) && OneRunning(s.runs) && Sound(s, c)
    ensures LeasesOk(Committed(s, c).runs, Committed(s, c).threadLeases)
  {
    var run' := CommittedRun(s.runs[c.run], c);
    if c.finish.None? {
      LeaseKept(s.runs, s.threadLeases, c.run, run');
    } else {
      LeaseDropped(s.runs, s.threadLeases, c.run, run');
    }
  }

  lemma CommittedSucceeds(s: Store, c: Commit)
    requires RunsOk(s.runs) && Sound(s, c)
    ensures Succeeds(s.runs[c.run], CommittedRun(s.runs[c.run], c))
  {
    CommittedLog(s.runs[c.run], c);
  }

  lemma CommittedValid(s: Store, c: Commit)
    requires Valid(s) && Sound(s, c)
    ensures Valid(Committed(s, c))
  {
    hide LogOk, RunsOk, OneRunning, LeasesOk, KeysOk, EntriesDense, CommitShapeOk, Increases;
    hide ApplyEntries, ApplyItems, ApplyEffects, Succeeds, CommittedRun;
    CommittedSucceeds(s, c);
    CommittedLeases(s, c);
    ItemsOwned(s.items, c.run, c.items, |c.items|);
    RunChanged(s, c.run, CommittedRun(s.runs[c.run], c));
    EntriesAdded(s.log, Home(c.scope, c.session), c.run, s.runs[c.run].start.thread, c.entries, |c.entries|);
  }

  lemma CommitKeeps(s: Store, c: Commit, now: int)
    requires Valid(s)
    ensures Valid(CommitRun(s, c, now).0)
  {
    hide Valid, Sound;
    if PlanCommit(s, c, now) == Accept {
      AcceptedSound(s, c, now);
      CommittedValid(s, c);
    }
  }

  lemma FinishKeeps(s: Store, f: FinishRecord)
    requires Valid(s)
    ensures Valid(FinishRun(s, f).0)
  {
    if FinishRun(s, f).1.Ok? && FinishRun(s, f).1.value.Finished? {
      var run := s.runs[f.run];
      var run' := FinishedRun(run, f);
      LogExtends(run, [f.terminalEvent]);
      assert LogOk(run');
      RunChanged(s, f.run, run');
      NoThreadLease(s.runs, s.threadLeases, f.run);
      LeaseDropped(s.runs, s.threadLeases, f.run, run');
      assert s.threadLeases - {run.start.thread} == s.threadLeases;
      EntriesAdded(s.log, Home(f.scope, f.session), f.run, run.start.thread, f.entries, |f.entries|);
      hide LogOk, OneRunning, LeasesOk, KeysOk, EntriesDense, RunsOk;
    }
  }

  lemma RecordKeeps(s: Store, run: RunId, scope: Scope, event: Event)
    requires Valid(s)
    ensures Valid(RecordEvent(s, run, scope, event).0)
  {
    if RecordEvent(s, run, scope, event).1 == Ok(true) {
      var r := s.runs[run];
      var r' := r.(events := r.events + [event]);
      LogExtends(r, [event]);
      assert LogOk(r');
      RunChanged(s, run, r');
      LeaseKept(s.runs, s.threadLeases, run, r');
      hide LogOk, OneRunning, LeasesOk, KeysOk, EntriesDense, RunsOk;
    }
  }

  lemma CancelKeeps(s: Store, run: RunId, scope: Scope)
    requires Valid(s)
    ensures Valid(MarkCancelled(s, run, scope).0)
  {
    if MarkCancelled(s, run, scope).1.Ok? {
      var r := s.runs[run].(cancelRequested := true);
      assert LogOk(s.runs[run]);
      assert LogOk(r);
      RunChanged(s, run, r);
      LeaseKept(s.runs, s.threadLeases, run, r);
      hide LogOk, OneRunning, LeasesOk, KeysOk, EntriesDense, RunsOk;
    }
  }

  lemma ReserveKeeps(s: Store, run: RunId, scope: Scope, lease: Option<LeaseId>, key: Key, kind: Value,
                     request: Value, now: int)
    requires Valid(s)
    ensures Valid(ReserveEffect(s, run, scope, lease, key, kind, request, now).0)
  {
    hide RunsOk, OneRunning, LeasesOk, KeysOk, EntriesDense, CheckpointsOk;
  }

  lemma StartEffectKeeps(s: Store, run: RunId, scope: Scope, lease: Option<LeaseId>, key: Key, now: int)
    requires Valid(s)
    ensures Valid(StartEffect(s, run, scope, lease, key, now).0)
  {
    hide RunsOk, OneRunning, LeasesOk, KeysOk, EntriesDense, CheckpointsOk;
  }

  lemma LeaseRenewed(runs: map<RunId, Run>, leases: map<ThreadId, ThreadLease>, id: RunId, until: int)
    requires LeasesOk(runs, leases) && OneRunning(runs) && id in runs && runs[id].lease.Some?
    ensures runs[id].start.thread in leases
    ensures var t := runs[id].start.thread;
            LeasesOk(runs[id := runs[id].(lease := Some(runs[id].lease.value.(until := until)))],
                     leases[t := leases[t].(until := until)])
  {
    var t := runs[id].start.thread;
    var next := runs[id := runs[id].(lease := Some(runs[id].lease.value.(until := until)))];
    var renewed := leases[t := leases[t].(until := until)];
    assert RunningOn(runs, id, t) && Projects(runs, t, leases[t]);
    forall u | u in renewed ensures Projects(next, u, renewed[u]) {
      assert Projects(runs, u, leases[u]);
    }
    forall r | r in next && next[r].lease.Some?
      ensures RunningOn(next, r, next[r].start.thread)
              && next[r].start.thread in renewed && renewed[next[r].start.thread].run == r
    {
      assert RunningOn(runs, r, runs[r].start.thread);
    }
  }

  lemma RenewKeeps(s: Store, lease: LeaseRef, ttl: nat, now: int)
    requires Valid(s)
    ensures Valid(Renew(s, lease, ttl, now).0)
  {
    hide OneRunning, LeasesOk, KeysOk, EntriesDense, CheckpointsOk;
    if RenewOk(s, lease, now) {
      var run := s.runs[lease.run];
      var run' := run.(lease := Some(run.lease.value.(until := now + ttl)));
      assert LogOk(run);
      assert LogOk(run');
      hide LogOk;
      RunChanged(s, lease.run, run');
      LeaseRenewed(s.runs, s.threadLeases, lease.run, now + ttl);
      hide RunsOk;
    }
  }

  lemma ReleaseKeeps(s: Store, lease: LeaseRef)
    requires Valid(s)
    ensures Valid(Release(s, lease))
  {
    if Holds(s, lease) {
      var run := s.runs[lease.run].(lease := None);
      assert LogOk(s.runs[lease.run]) && RunningOn(s.runs, lease.run, run.start.thread);
      assert LogOk(run);
      RunChanged(s, lease.run, run);
      LeaseDropped(s.runs, s.threadLeases, lease.run, run);
      hide LogOk, OneRunning, LeasesOk, KeysOk, EntriesDense, RunsOk;
    }
  }

  lemma ReapedLog(run: Run, event: Event)
    requires LogOk(run) && run.status == Running && ReapEventOk(run, event)
    ensures LogOk(ReapedRun(run, event))
  {
    LogExtends(run, [event]);
  }

  lemma ReapKeeps(s: Store, run: RunId, event: Event, now: int)
    requires Valid(s)
    ensures Valid(Reap(s, run, event, now))
  {
    if run in s.runs && Stale(s.runs[run], now) && ReapEventOk(s.runs[run], event) {
      var run' := ReapedRun(s.runs[run], event);
      ReapedLog(s.runs[run], event);
      RunChanged(s, run, run');
      LeaseDropped(s.runs, s.threadLeases, run, run');
      hide LogOk, OneRunning, LeasesOk, KeysOk, EntriesDense, RunsOk;
    }
  }
}
