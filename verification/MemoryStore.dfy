/**
 The in-memory run store: maps that each operation updates in place, under one lock.

 Every method is proved to do exactly what the function of the same name in StoreSpec says.
 In particular a rejected commit leaves every map as it was, although the code applies its
 writes one by one: the error exits of the apply phase cannot be taken once the checks passed.
 */
module MemoryStore {
  import opened Types
  import opened StoreSpec
  import opened StoreInv

  /** The events after `after`, in log order. */
  function After(events: seq<Event>, after: int): (r: seq<Event>)
    ensures forall e :: e in r <==> e in events && e.num > after
  {
    if |events| == 0 then []
    else
      var rest := After(events[..|events| - 1], after);
      var last := events[|events| - 1];
      if last.num > after then rest + [last] else rest
  }

  datatype Page = Page(items: seq<Event>, next: Option<int>)

  /** The store after the runs in `order` have been reaped, one after the other. */
  function ReapRuns(s: Store, order: seq<RunId>, build: (RunLookup, int) -> Event, now: int, n: nat): Store
    requires n <= |order|
  {
    if n == 0 then s
    else
      var before := ReapRuns(s, order, build, now, n - 1);
      var r := order[n - 1];
      if r !in before.runs then before
      else Reap(before, r, build(Lookup(before.runs[r]), LastNum(before.runs[r].events) + 1), now)
  }

  function Built(build: (RunLookup, int) -> Event, run: Run): Event {
    build(Lookup(run), LastNum(run.events) + 1)
  }

  ghost predicate Keyed(runs: map<RunId, Run>) {
    forall r :: r in runs ==> runs[r].start.run == r
  }

  /** Exactly the runs in `order` went from stale to errored; no other run changed. */
  ghost predicate ReapedExactly(before: map<RunId, Run>, after: map<RunId, Run>, order: seq<RunId>, now: int) {
    && after.Keys == before.Keys
    && (forall i, j :: 0 <= i < j < |order| ==> order[i] != order[j])
    && (forall q :: q in order ==> q in before && Stale(before[q], now) && after[q].status == Errored)
    && (forall q :: q in before && q !in order ==> after[q] == before[q])
  }

  /** Outside `rest` no run is stale. */
  ghost predicate NoneStale(runs: map<RunId, Run>, rest: set<RunId>, now: int) {
    forall q :: q in runs && q !in rest ==> !Stale(runs[q], now)
  }

  /** Some stale run's built event is not its next terminal event. */
  ghost predicate SomeMisfit(runs: map<RunId, Run>, build: (RunLookup, int) -> Event, now: int) {
    exists q :: q in runs && Stale(runs[q], now) && !ReapEventOk(runs[q], Built(build, runs[q]))
  }

  datatype ReapAttempt = Fresh | Misfit | Reaped(lookup: RunLookup)

  ghost predicate Reports(lookups: seq<RunLookup>, order: seq<RunId>) {
    && |lookups| == |order|
    && forall i :: 0 <= i < |order| ==>
         lookups[i].run == order[i] && lookups[i].owner == None && lookups[i].status == Errored
         && lookups[i].finishReason == Some(LeaseExpired)
  }

  class MemoryRunStore {
    var sessions: map<SessionId, Scope>
    var runs: map<RunId, Run>
    var threadLeases: map<ThreadId, ThreadLease>
    var checkpoints: map<ThreadId, CheckpointRecord>
    var idempotency: map<HomeKey, RunId>
    var entryNums: map<Home, nat>
    var entries: map<HomeKey, Entry>
    var effects: map<RunKey, Effect>
    var items: map<RunKey, Item>

    function View(): Store
      reads this
    {
      Store(sessions, runs, threadLeases, checkpoints, idempotency, EntryLog(entryNums, entries), effects, items)
    }

    constructor ()
      ensures View() == Empty()
    {
      sessions, runs, threadLeases, checkpoints, idempotency := map[], map[], map[], map[], map[];
      entryNums, entries, effects, items := map[], map[], map[], map[];
    }

    // -------------------------------------------------------------- checks

    /** Some running run on the thread other than `except`, with the owner of its lease. */
    method RunningThread(thread: ThreadId, except: RunId) returns (r: Option<(Option<WorkerId>, RunId)>)
      ensures r.Some? <==> Busy(runs, thread, except)
      ensures r.Some? ==> exists q :: q in runs && runs[q].status == Running && runs[q].start.thread == thread
                                      && runs[q].start.run == r.value.1 != except
    {
      if q :| q in runs && runs[q].status == Running && runs[q].start.thread == thread
              && runs[q].start.run != except
      {
        var owner := if runs[q].lease.Some? then Some(runs[q].lease.value.owner) else None;
        return Some((owner, runs[q].start.run));
      }
      return None;
    }

    method ValidateCommitEvents(c: Commit) returns (ok: bool)
      ensures ok <==> CommitShapeOk(c)
    {
      for i := 0 to |c.events|
        invariant forall j :: 0 <= j < i ==> EventFor(c.events[j], c.run, c.session) && c.events[j].num > 0
      {
        if !EventFor(c.events[i], c.run, c.session) || c.events[i].num <= 0 {
          return false;
        }
      }
      var last := |c.events|;
      if c.finish.Some? {
        var f := c.finish.value;
        if f.run != c.run || f.session != c.session || !f.status.IsTerminal()
           || |c.events| == 0 || !c.events[|c.events| - 1].terminal
        {
          return false;
        }
        last := |c.events| - 1;
      }
      ok := !exists i :: 0 <= i < last && c.events[i].terminal;
    }

    method ValidateEventSequence(run: Run, events: seq<Event>) returns (ok: bool)
      ensures ok <==> Increases(run.events, events)
    {
      var last := if |run.events| == 0 then None else Some(run.events[|run.events| - 1].num);
      for i := 0 to |events|
        invariant Increases(run.events, events[..i])
        invariant last == if i > 0 then Some(events[i - 1].num)
                          else if |run.events| == 0 then None else Some(LastNum(run.events))
      {
        if events[i].num <= 0 || (last.Some? && events[i].num <= last.value) {
          return false;
        }
        last := Some(events[i].num);
        assert forall j :: 0 <= j < i ==> events[..i + 1][j] == events[..i][j];
      }
      assert events[..|events|] == events;
      return true;
    }

    method ValidateEffectUpdates(run: RunId, updates: seq<EffectUpdate>) returns (r: Outcome)
      ensures r == CheckEffects(effects, run, updates, |updates|)
    {
      for i := 0 to |updates|
        invariant CheckEffects(effects, run, updates, i).Pass?
      {
        var u := updates[i];
        var k := RunKey(run, u.key);
        var check := Pass;
        if exists j :: 0 <= j < i && updates[j].key == u.key {
          check := Fail(EffectConflict);
        } else if k !in effects {
          check := Fail(EffectNotFound);
        } else if u.status == Reserved || u.status == Started {
          check := Fail(InvalidRunEvent);
        } else if effects[k].status == Done && (u.status != Done || effects[k].result != u.result) {
          check := Fail(EffectConflict);
        }
        assert check == CheckEffect(effects, run, updates, i);
        if check.Fail? {
          FirstFailure(effects, run, updates, i, |updates|);
          return check;
        }
      }
      return Pass;
    }

    method ValidateItems(run: RunId, writes: seq<ItemWrite>) returns (ok: bool)
      ensures ok <==> ItemsOk(items, run, writes)
    {
      for i := 0 to |writes|
        invariant ItemsOk(items, run, writes[..i])
      {
        var k := RunKey(run, writes[i].key);
        if exists j :: 0 <= j < i && writes[j].key == writes[i].key {
          return false;
        }
        if k in items && (items[k].kind != writes[i].kind || items[k].body != writes[i].body) {
          return false;
        }
      }
      assert writes[..|writes|] == writes;
      return true;
    }

    method ValidateEntries(home: Home, writes: seq<EntryWrite>) returns (ok: bool)
      ensures ok <==> EntriesOk(entries, home, writes)
    {
      for i := 0 to |writes|
        invariant EntriesOk(entries, home, writes[..i])
      {
        var k := HomeKey(home, writes[i].key);
        if exists j :: 0 <= j < i && writes[j].key == writes[i].key {
          return false;
        }
        if k in entries && !SameEntry(entries[k], writes[i]) {
          return false;
        }
      }
      assert writes[..|writes|] == writes;
      return true;
    }

    // -------------------------------------------------------------- writes

    /** Applies the updates in order and stops at the first one whose effect is missing. */
    method ApplyEffectUpdates(run: RunId, updates: seq<EffectUpdate>) returns (r: Outcome)
      modifies this`effects
      ensures r.Pass? <==> EffectsPresent(old(effects), run, updates)
      ensures r.Pass? ==> effects == ApplyEffects(old(effects), run, updates, |updates|)
      ensures r.Fail? ==> r.error == EffectNotFound
    {
      for i := 0 to |updates|
        invariant effects.Keys == old(effects).Keys
        invariant forall j :: 0 <= j < i ==> RunKey(run, updates[j].key) in old(effects)
        invariant EffectsPresent(old(effects), run, updates) ==>
                    effects == ApplyEffects(old(effects), run, updates, i)
      {
        var u := updates[i];
        var k := RunKey(run, u.key);
        if k !in effects {
          return Fail(EffectNotFound);
        }
        if effects[k].status == Done && u.status == Done {
          assert effects[k := effects[k]] == effects;
          continue;
        }
        effects := effects[k := effects[k].(status := u.status, result := u.result, errorCode := u.errorCode,
                                            errorMessage := u.errorMessage)];
      }
      return Pass;
    }

    method ApplyItemWrites(run: RunId, writes: seq<ItemWrite>)
      modifies this`items
      ensures items == ApplyItems(old(items), run, writes, |writes|)
    {
      for i := 0 to |writes|
        invariant items == ApplyItems(old(items), run, writes, i)
      {
        var k := RunKey(run, writes[i].key);
        if k in items {
          continue;
        }
        items := items[k := Item(writes[i].kind, writes[i].body)];
      }
    }

    method ApplyEntryWrites(home: Home, run: RunId, thread: ThreadId, writes: seq<EntryWrite>)
      modifies this`entries, this`entryNums
      ensures EntryLog(entryNums, entries)
              == ApplyEntries(EntryLog(old(entryNums), old(entries)), home, run, thread, writes, |writes|)
    {
      for i := 0 to |writes|
        invariant EntryLog(entryNums, entries)
                  == ApplyEntries(EntryLog(old(entryNums), old(entries)), home, run, thread, writes, i)
      {
        var k := HomeKey(home, writes[i].key);
        if k in entries {
          continue;
        }
        var n := (if home in entryNums then entryNums[home] else 0) + 1;
        entryNums := entryNums[home := n];
        entries := entries[k := Entry(run, thread, n, writes[i].kind, writes[i].vis, writes[i].body)];
      }
    }

    method PushEvents(id: RunId, events: seq<Event>)
      requires id in runs
      modifies this`runs
      ensures runs == old(runs)[id := old(runs)[id].(events := old(runs)[id].events + events)]
    {
      ghost var run := runs[id];
      assert run.events + events[..0] == run.events;
      for i := 0 to |events|
        invariant id in runs && runs == old(runs)[id := runs[id]]
        invariant runs[id] == run.(events := run.events + events[..i])
      {
        assert run.events + events[..i + 1] == run.events + events[..i] + [events[i]];
        runs := runs[id := runs[id].(events := runs[id].events + [events[i]])];
      }
      assert events[..|events|] == events;
    }

    // -------------------------------------------------------------- operations

    method StartRun(run: RunStart, now: int) returns (r: Result<StartResult>)
      modifies this
      ensures (View(), r) == StoreSpec.StartRun(old(View()), run, now)
    {
      if run.session !in sessions {
        sessions := sessions[run.session := run.scope];
      }
      if run.run in runs {
        if runs[run.run].start.scope != run.scope {
          return Err(RunNotFound);
        }
        if runs[run.run].start.Sig() != run.Sig() {
          return Err(StartConflict);
        }
        return Ok(Existing(Lookup(runs[run.run])));
      }
      if run.clientKey.Some? {
        var key := HomeKey(HomeOf(run), run.clientKey.value);
        if key in idempotency && idempotency[key] in runs {
          var existing := runs[idempotency[key]];
          if existing.start.Sig() != run.Sig() {
            return Err(StartConflict);
          }
          return Ok(Existing(Lookup(existing)));
        }
      }
      var ok := ValidateEntries(HomeOf(run), run.entries);
      if !ok {
        return Err(EntryConflict);
      }
      var busy := RunningThread(run.thread, run.run);
      if busy.Some? {
        return Err(ThreadBusy);
      }
      if run.lease.Some? && run.thread in threadLeases && threadLeases[run.thread].until > now {
        return Err(ThreadBusy);
      }
      InsertRun(run, now);
      return Ok(Created);
    }

    /** Claims the thread, then records the key, the run and its entries. */
    method InsertRun(run: RunStart, now: int)
      modifies this
      ensures View() == WithRun(old(View()), run, now)
    {
      if run.lease.Some? {
        var claim := run.lease.value;
        threadLeases := threadLeases[run.thread := ThreadLease(run.run, claim.owner, claim.id, now + claim.ttl)];
      }
      if run.clientKey.Some? {
        idempotency := idempotency[HomeKey(HomeOf(run), run.clientKey.value) := run.run];
      }
      var lease := if run.lease.Some?
                   then Some(Lease(run.lease.value.owner, run.lease.value.id, now + run.lease.value.ttl)) else None;
      runs := runs[run.run := Run(run, Running, None, false, None, [], lease)];
      ApplyEntryWrites(HomeOf(run), run.run, run.thread, run.entries);
    }

    method CommitRun(c: Commit, now: int) returns (r: Result<CommitResult>)
      modifies this
      ensures (View(), r) == StoreSpec.CommitRun(old(View()), c, now)
      ensures r.Err? || r.value.Skipped? || (r.value.CommitFinished? && r.value.result.AlreadyFinished?) ==>
                View() == old(View())
    {
      if CommitEmpty(c) {
        return Err(InvalidRunEvent);
      }
      var shape := ValidateCommitEvents(c);
      if !shape {
        return Err(InvalidRunEvent);
      }
      if c.run !in runs {
        return Ok(Skipped);
      }
      var run := runs[c.run];
      if run.start.scope != c.scope {
        return Err(RunNotFound);
      }
      if run.start.session != c.session {
        return Err(InvalidRunEvent);
      }
      if run.status.IsTerminal() {
        if c.finish.Some? && run.terminalEvent.Some? {
          return Ok(CommitFinished([run.terminalEvent.value], AlreadyFinished(run.terminalEvent.value)));
        }
        return Ok(Skipped);
      }
      var check := CheckLease(run, c.lease, now);
      if check.Fail? {
        return Err(check.error);
      }
      if c.checkpoint.Some? {
        check := CheckThread(View(), run, c.checkpoint.value, c.lease, now);
        if check.Fail? {
          return Err(check.error);
        }
        if c.checkpoint.value.record.run != Some(c.run) {
          return Err(CheckpointRun);
        }
      }
      var ok := ValidateEventSequence(run, c.events);
      if !ok {
        return Err(InvalidRunEvent);
      }
      check := ValidateEffectUpdates(c.run, c.effects);
      if check.Fail? {
        return Err(check.error);
      }
      ok := ValidateItems(c.run, c.items);
      if !ok {
        return Err(ItemConflict);
      }
      ok := ValidateEntries(Home(c.scope, c.session), c.entries);
      if !ok {
        return Err(EntryConflict);
      }
      assert PlanCommit(View(), c, now) == Accept;
      AcceptedSound(View(), c, now);
      r := ApplyCommit(c);
    }

    /** The apply phase: it runs to the end once the checks passed. */
    method ApplyCommit(c: Commit) returns (r: Result<CommitResult>)
      requires Sound(View(), c)
      modifies this
      ensures View() == Committed(old(View()), c) && r == Ok(CommitReply(c))
    {
      ApplyRows(c);
      r := ApplyEvents(c);
    }

    /** The writes outside the run itself; the missing-effect exit is not reachable. */
    method ApplyRows(c: Commit)
      requires Sound(View(), c)
      modifies this`checkpoints, this`effects, this`items, this`entries, this`entryNums
      ensures View() == Committed(old(View()), c).(runs := runs, threadLeases := threadLeases)
    {
      hide ApplyEffects, ApplyItems, ApplyEntries, CommitShapeOk, Increases;
      var thread := runs[c.run].start.thread;
      if c.checkpoint.Some? {
        checkpoints := checkpoints[c.checkpoint.value.thread := c.checkpoint.value.record];
      }
      var applied := ApplyEffectUpdates(c.run, c.effects);
      assert applied.Pass?;
      ApplyItemWrites(c.run, c.items);
      ApplyEntryWrites(Home(c.scope, c.session), c.run, thread, c.entries);
    }

    /** The events, and with a finish the end of the run and of its lease. */
    method ApplyEvents(c: Commit) returns (r: Result<CommitResult>)
      requires c.run in runs && (c.finish.Some? ==> |c.events| > 0)
      modifies this`runs, this`threadLeases
      ensures runs == old(runs)[c.run := CommittedRun(old(runs)[c.run], c)]
      ensures threadLeases == if c.finish.None? then old(threadLeases)
                              else old(threadLeases) - {old(runs)[c.run].start.thread}
      ensures r == Ok(CommitReply(c))
    {
      PushEvents(c.run, c.events);
      if c.finish.None? {
        return Ok(Recorded(c.events));
      }
      var terminal := c.events[|c.events| - 1];
      var run := runs[c.run];
      runs := runs[c.run := run.(status := c.finish.value.status, finishReason := Some(c.finish.value.reason),
                                 terminalEvent := Some(terminal), lease := None)];
      threadLeases := threadLeases - {run.start.thread};
      return Ok(CommitFinished(c.events, Finished(terminal)));
    }

    method FinishRun(f: FinishRecord) returns (r: Result<FinishResult>)
      modifies this
      ensures (View(), r) == StoreSpec.FinishRun(old(View()), f)
    {
      if !EventFor(f.terminalEvent, f.run, f.session) || !f.terminalEvent.terminal || !f.status.IsTerminal() {
        return Err(InvalidRunEvent);
      }
      if f.run !in runs {
        return Err(RunNotFound);
      }
      var run := runs[f.run];
      if f.session != run.start.session {
        return Err(InvalidRunEvent);
      }
      if f.scope != run.start.scope {
        return Err(RunNotFound);
      }
      if run.status.IsTerminal() {
        return if run.terminalEvent.None? then Err(RunNotFound) else Ok(AlreadyFinished(run.terminalEvent.value));
      }
      if run.lease.Some? {
        return Err(LeaseLost);
      }
      var ok := ValidateEntries(Home(f.scope, f.session), f.entries);
      if !ok {
        return Err(EntryConflict);
      }
      ok := ValidateEventSequence(run, [f.terminalEvent]);
      if !ok {
        return Err(InvalidRunEvent);
      }
      ApplyEntryWrites(Home(f.scope, f.session), f.run, run.start.thread, f.entries);
      run := runs[f.run];
      runs := runs[f.run := run.(status := f.status, finishReason := Some(f.reason),
                                 terminalEvent := Some(f.terminalEvent), events := run.events + [f.terminalEvent],
                                 lease := None)];
      return Ok(Finished(f.terminalEvent));
    }

    method RecordEvent(run: RunId, scope: Scope, event: Event) returns (r: Result<bool>)
      modifies this`runs
      ensures (View(), r) == StoreSpec.RecordEvent(old(View()), run, scope, event)
    {
      if event.terminal || event.run != run {
        return Err(InvalidRunEvent);
      }
      if run !in runs {
        return Ok(false);
      }
      var target := runs[run];
      if target.start.scope != scope {
        return Err(RunNotFound);
      }
      if target.status.IsTerminal() {
        return Ok(false);
      }
      if target.lease.Some? {
        return Err(LeaseLost);
      }
      if event.session != target.start.session {
        return Err(InvalidRunEvent);
      }
      var ok := ValidateEventSequence(target, [event]);
      if !ok {
        return Err(InvalidRunEvent);
      }
      runs := runs[run := target.(events := target.events + [event])];
      return Ok(true);
    }

    method MarkCancelled(run: RunId, scope: Scope) returns (r: Result<()>)
      modifies this`runs
      ensures (View(), r) == StoreSpec.MarkCancelled(old(View()), run, scope)
    {
      if run !in runs || runs[run].start.scope != scope {
        return Err(RunNotFound);
      }
      runs := runs[run := runs[run].(cancelRequested := true)];
      return Ok(());
    }

    method ReserveEffect(run: RunId, scope: Scope, lease: Option<LeaseId>, key: Key, kind: Value, request: Value,
                         now: int) returns (r: Result<Effect>)
      modifies this`effects
      ensures (View(), r) == StoreSpec.ReserveEffect(old(View()), run, scope, lease, key, kind, request, now)
    {
      if run !in runs || runs[run].start.scope != scope || runs[run].status.IsTerminal() {
        return Err(RunNotFound);
      }
      var check := CheckLease(runs[run], lease, now);
      if check.Fail? {
        return Err(check.error);
      }
      var k := RunKey(run, key);
      if k in effects {
        if effects[k].kind != kind || effects[k].request != request {
          return Err(EffectConflict);
        }
        return Ok(effects[k]);
      }
      var e := Effect(kind, request, Reserved, None, None, None);
      effects := effects[k := e];
      return Ok(e);
    }

    method StartEffect(run: RunId, scope: Scope, lease: Option<LeaseId>, key: Key, now: int)
      returns (r: Result<Effect>)
      modifies this`effects
      ensures (View(), r) == StoreSpec.StartEffect(old(View()), run, scope, lease, key, now)
    {
      if run !in runs || runs[run].start.scope != scope || runs[run].status.IsTerminal() {
        return Err(RunNotFound);
      }
      var check := CheckLease(runs[run], lease, now);
      if check.Fail? {
        return Err(check.error);
      }
      var k := RunKey(run, key);
      if k !in effects {
        return Err(EffectNotFound);
      }
      if effects[k].status.IsBlocking() {
        return Err(EffectPending);
      }
      if effects[k].status == Done {
        return Ok(effects[k]);
      }
      effects := effects[k := effects[k].(status := Started, result := None, errorCode := None,
                                          errorMessage := None)];
      return Ok(effects[k]);
    }

    // -------------------------------------------------------------- leases

    method Renew(lease: LeaseRef, ttl: nat, now: int) returns (renewed: bool)
      modifies this`runs, this`threadLeases
      ensures (View(), renewed) == StoreSpec.Renew(old(View()), lease, ttl, now)
    {
      if lease.run !in runs || runs[lease.run].lease.None? {
        return false;
      }
      var run := runs[lease.run];
      var active := run.lease.value;
      if run.status != Running || active.owner != lease.owner || active.id != lease.id || active.until <= now {
        return false;
      }
      var t := run.start.thread;
      if t !in threadLeases {
        return false;
      }
      var thread := threadLeases[t];
      if thread.run != lease.run || thread.owner != lease.owner || thread.id != lease.id || thread.until <= now {
        return false;
      }
      threadLeases := threadLeases[t := thread.(until := now + ttl)];
      runs := runs[lease.run := run.(lease := Some(active.(until := now + ttl)))];
      return true;
    }

    method Release(lease: LeaseRef)
      modifies this`runs, this`threadLeases
      ensures View() == StoreSpec.Release(old(View()), lease)
    {
      if lease.run in runs && runs[lease.run].lease.Some? {
        var active := runs[lease.run].lease.value;
        if active.owner == lease.owner && active.id == lease.id {
          var thread := runs[lease.run].start.thread;
          runs := runs[lease.run := runs[lease.run].(lease := None)];
          threadLeases := threadLeases - {thread};
        }
      }
    }

    /** Finishes the run with the event built for it, if its lease expired and the event fits. */
    method TryReap(id: RunId, build: (RunLookup, int) -> Event, now: int) returns (r: ReapAttempt)
      requires id in runs
      modifies this`runs, this`threadLeases
      ensures r.Fresh? ==> View() == old(View()) && !Stale(runs[id], now)
      ensures r.Misfit? ==> View() == old(View()) && Stale(runs[id], now)
                            && !ReapEventOk(runs[id], Built(build, runs[id]))
      ensures r.Reaped? ==> Stale(old(runs[id]), now) && ReapEventOk(old(runs[id]), Built(build, old(runs[id])))
                            && View() == Reap(old(View()), id, Built(build, old(runs[id])), now)
                            && r.lookup == Lookup(old(runs[id])).(status := Errored, owner := None,
                                                                  finishReason := Some(LeaseExpired))
    {
      var run := runs[id];
      if run.status != Running || run.lease.None? || run.lease.value.until > now {
        return Fresh;
      }
      var lookup := Lookup(run);
      var event := build(lookup, LastNum(run.events) + 1);
      if !EventFor(event, run.start.run, run.start.session) {
        return Misfit;
      }
      if event.num != LastNum(run.events) + 1 || !event.terminal {
        return Misfit;
      }
      runs := runs[id := run.(status := Errored, finishReason := Some(LeaseExpired), terminalEvent := Some(event),
                              events := run.events + [event], lease := None)];
      threadLeases := threadLeases - {run.start.thread};
      return Reaped(lookup.(status := Errored, finishReason := Some(LeaseExpired), owner := None));
    }

    /** Reaps up to `limit` stale runs, in the order in which the map happens to yield them.
        A built event that does not fit stops the reap; the runs reaped before stay reaped. */
    method ReapStale(limit: nat, build: (RunLookup, int) -> Event, now: int)
      returns (r: Result<seq<RunLookup>>, ghost order: seq<RunId>)
      requires Keyed(runs)
      modifies this`runs, this`threadLeases
      ensures View() == ReapRuns(old(View()), order, build, now, |order|)
      ensures |order| <= limit && ReapedExactly(old(runs), runs, order, now)
      ensures r.Ok? ==> Reports(r.value, order)
      ensures r.Ok? && |order| < limit ==> NoneStale(runs, {}, now)
      ensures r.Err? ==> SomeMisfit(runs, build, now)
    {
      order := [];
      var reaped: seq<RunLookup> := [];
      var rest := runs.Keys;
      var misfit := false;
      ghost var first := View();
      while rest != {} && |reaped| < limit && !misfit
        decreases |rest|
        invariant Reaping(first, View(), order, reaped, rest, limit, build, now)
        invariant misfit ==> SomeMisfit(runs, build, now)
      {
        var id :| id in rest;
        ghost var s := View();
        hide SomeMisfit, Keyed, Stale, ReapEventOk, Reap, ReapRuns, ReapedExactly, Reports, NoneStale;
        var attempt := TryReap(id, build, now);
        rest := rest - {id};
        match attempt {
          case Fresh =>
            FreshStep(first, s, order, reaped, rest + {id}, limit, build, now, id);
          case Misfit =>
            MisfitFound(runs, id, build, now);
            misfit := true;
            rest := rest + {id};
            break;
          case Reaped(lookup) =>
            ReapedStep(first, s, order, reaped, rest + {id}, limit, build, now, id, lookup);
            order := order + [id];
            reaped := reaped + [lookup];
        }
      }
      r := if misfit then Err(InvalidRunEvent) else Ok(reaped);
    }

    // -------------------------------------------------------------- reading events

    /** One page of the log after a cursor; the cursor of the next page when there is more. The
        page is not sorted here: by AfterAscends it is in order already. */
    method ListEvents(run: RunId, scope: Scope, after: int, limit: nat) returns (r: Result<Page>)
      ensures limit == 0 ==> r == Err(InvalidPageLimit)
      ensures limit > 0 ==>
                var all := if run in runs && runs[run].start.scope == scope then After(runs[run].events, after) else [];
                && r.Ok? && r.value.items == all[..if |all| > limit then limit else |all|]
                && r.value.next == if |all| > limit then Some(r.value.items[limit - 1].num) else None
    {
      if limit == 0 {
        return Err(InvalidPageLimit);
      }
      var found: seq<Event> := [];
      if run in runs && runs[run].start.scope == scope {
        var events := runs[run].events;
        for i := 0 to |events|
          invariant found == After(events[..i], after)
        {
          assert events[..i + 1][..i] == events[..i];
          if events[i].num > after {
            found := found + [events[i]];
          }
        }
        assert events[..|events|] == events;
      }
      if |found| > limit {
        r := Ok(Page(found[..limit], Some(found[limit - 1].num)));
      } else {
        r := Ok(Page(found, None));
      }
    }
  }

  ghost predicate Ascending(events: seq<Event>) {
    forall i, j :: 0 <= i < j < |events| ==> events[i].num < events[j].num
  }

  /** The events after a cursor come in the order of their numbers, as in the log. */
  lemma {:induction false} AfterAscends(events: seq<Event>, after: int)
    requires Ascending(events)
    ensures Ascending(After(events, after))
  {
    if |events| > 0 {
      var front, last := events[..|events| - 1], events[|events| - 1];
      AfterAscends(front, after);
      var rest, found := After(front, after), After(events, after);
      forall i, j | 0 <= i < j < |found| ensures found[i].num < found[j].num {
        assert found[i] == rest[i];
        if j < |rest| {
          assert found[j] == rest[j];
        } else {
          assert rest[i] in rest;
          var k :| 0 <= k < |front| && front[k] == rest[i];
          assert events[k].num < last.num;
        }
      }
    }
  }

  lemma {:induction false} ReapPrefix(s: Store, a: seq<RunId>, b: seq<RunId>, build: (RunLookup, int) -> Event,
                                      now: int, n: nat)
    requires n <= |a| && a <= b
    ensures ReapRuns(s, b, build, now, n) == ReapRuns(s, a, build, now, n)
  {
    if n > 0 {
      ReapPrefix(s, a, b, build, now, n - 1);
    }
  }

  lemma ReapNext(s: Store, order: seq<RunId>, id: RunId, build: (RunLookup, int) -> Event, now: int)
    ensures var before := ReapRuns(s, order, build, now, |order|);
            ReapRuns(s, order + [id], build, now, |order| + 1)
            == if id !in before.runs then before else Reap(before, id, Built(build, before.runs[id]), now)
  {
    ReapPrefix(s, order, order + [id], build, now, |order|);
  }

  /** The state of a reap: what was done to which runs, and which runs are still to be looked at. */
  ghost predicate Reaping(first: Store, s: Store, order: seq<RunId>, reaped: seq<RunLookup>, rest: set<RunId>,
                          limit: nat, build: (RunLookup, int) -> Event, now: int)
  {
    && s == ReapRuns(first, order, build, now, |order|)
    && |order| <= limit && ReapedExactly(first.runs, s.runs, order, now) && Reports(reaped, order)
    && rest <= s.runs.Keys && (forall q :: q in rest ==> q !in order)
    && Keyed(s.runs) && NoneStale(s.runs, rest, now)
  }

  lemma FreshStep(first: Store, s: Store, order: seq<RunId>, reaped: seq<RunLookup>, rest: set<RunId>,
                  limit: nat, build: (RunLookup, int) -> Event, now: int, id: RunId)
    requires Reaping(first, s, order, reaped, rest, limit, build, now)
    requires id in rest && !Stale(s.runs[id], now)
    ensures Reaping(first, s, order, reaped, rest - {id}, limit, build, now)
  {
  }

  lemma MisfitFound(runs: map<RunId, Run>, id: RunId, build: (RunLookup, int) -> Event, now: int)
    requires id in runs && Stale(runs[id], now) && !ReapEventOk(runs[id], Built(build, runs[id]))
    ensures SomeMisfit(runs, build, now)
  {
  }

  lemma ReapedStep(first: Store, s: Store, order: seq<RunId>, reaped: seq<RunLookup>, rest: set<RunId>,
                   limit: nat, build: (RunLookup, int) -> Event, now: int, id: RunId, lookup: RunLookup)
    requires Reaping(first, s, order, reaped, rest, limit, build, now) && |order| < limit
    requires id in rest && Stale(s.runs[id], now) && ReapEventOk(s.runs[id], Built(build, s.runs[id]))
    requires lookup == Lookup(s.runs[id]).(status := Errored, owner := None, finishReason := Some(LeaseExpired))
    ensures Reaping(first, Reap(s, id, Built(build, s.runs[id]), now), order + [id], reaped + [lookup],
                    rest - {id}, limit, build, now)
  {
    hide ReapedExactly, NoneStale, ReapRuns, Stale, ReapEventOk, Reap;
    ReapNext(first, order, id, build, now);
    ReapedOne(first.runs, s, order, rest, id, build, now);
  }

  lemma ReapedOne(first: map<RunId, Run>, s: Store, order: seq<RunId>, rest: set<RunId>, id: RunId,
                  build: (RunLookup, int) -> Event, now: int)
    requires ReapedExactly(first, s.runs, order, now) && NoneStale(s.runs, rest, now) && Keyed(s.runs)
    requires id in s.runs && id !in order && Stale(s.runs[id], now)
    requires ReapEventOk(s.runs[id], Built(build, s.runs[id]))
    ensures var after := Reap(s, id, Built(build, s.runs[id]), now).runs;
            ReapedExactly(first, after, order + [id], now) && NoneStale(after, rest - {id}, now) && Keyed(after)
            && after.Keys == s.runs.Keys
  {
  }
}
