/**
 The run store as a value: its maps, and what each operation does to them.

 Every operation is a function from a store and one point in time to a new store and a
 result. The in-memory store (module MemoryStore) and the SQL store (module SqliteStore)
 are both proved against these functions.
 */
module StoreSpec {
  import opened Types

  datatype Lease = Lease(owner: WorkerId, id: LeaseId, until: int)

  datatype ThreadLease = ThreadLease(run: RunId, owner: WorkerId, id: LeaseId, until: int)

  datatype Run = Run(start: RunStart, status: RunStatus, finishReason: Option<Reason>,
                     cancelRequested: bool, terminalEvent: Option<Event>, events: seq<Event>,
                     lease: Option<Lease>)

  datatype Effect = Effect(kind: Value, request: Value, status: EffectStatus, result: Option<Value>,
                           errorCode: Option<Value>, errorMessage: Option<Value>)

  datatype Item = Item(kind: Value, body: Value)

  datatype Entry = Entry(run: RunId, thread: ThreadId, num: int, kind: Value, vis: Vis, body: Value)

  datatype RunKey = RunKey(run: RunId, key: Key)

  datatype Home = Home(scope: Scope, session: SessionId)

  datatype HomeKey = HomeKey(home: Home, key: Key)

  /** Session entries together with the last number handed out in each session. */
  datatype EntryLog = EntryLog(nums: map<Home, nat>, entries: map<HomeKey, Entry>)

  datatype Store = Store(sessions: map<SessionId, Scope>, runs: map<RunId, Run>,
                         threadLeases: map<ThreadId, ThreadLease>,
                         checkpoints: map<ThreadId, CheckpointRecord>,
                         idempotency: map<HomeKey, RunId>, log: EntryLog,
                         effects: map<RunKey, Effect>, items: map<RunKey, Item>)

  // ---------------------------------------------------------------- shared checks

  function Lookup(run: Run): RunLookup {
    RunLookup(run.start.run, run.start.session, run.start.thread, run.status, run.finishReason,
              run.cancelRequested, if run.lease.Some? then Some(run.lease.value.owner) else None)
  }

  /** Some other run is running on the thread. */
  predicate Busy(runs: map<RunId, Run>, thread: ThreadId, except: RunId) {
    exists r :: r in runs && runs[r].status == Running && runs[r].start.thread == thread
                && runs[r].start.run != except
  }

  function CheckLease(run: Run, lease: Option<LeaseId>, now: int): Outcome {
    if run.lease.Some? && (lease != Some(run.lease.value.id) || run.lease.value.until <= now)
    then Fail(LeaseLost) else Pass
  }

  function CheckThread(s: Store, run: Run, checkpoint: CheckpointWrite, lease: Option<LeaseId>,
                       now: int): Outcome
  {
    var t := run.start.thread;
    if checkpoint.thread != t then Fail(InvalidRunEvent)
    else if Busy(s.runs, t, run.start.run) then Fail(ThreadBusy)
    else if run.lease.None? then
      if t in s.threadLeases && s.threadLeases[t].until > now then Fail(ThreadBusy) else Pass
    else if t !in s.threadLeases then Fail(LeaseLost)
    else
      var thread := s.threadLeases[t];
      if thread.run != run.start.run || thread.owner != run.lease.value.owner
         || thread.id != run.lease.value.id || lease != Some(thread.id) || thread.until <= now
      then Fail(LeaseLost) else Pass
  }

  function LastNum(events: seq<Event>): int {
    if |events| == 0 then 0 else events[|events| - 1].num
  }

  /** The new events carry positive numbers that increase and go on from the log. */
  predicate Increases(log: seq<Event>, events: seq<Event>) {
    && (forall i :: 0 <= i < |events| ==> events[i].num > 0)
    && (forall i :: 0 < i < |events| ==> events[i - 1].num < events[i].num)
    && (|log| > 0 && |events| > 0 ==> events[0].num > LastNum(log))
  }

  // ---------------------------------------------------------------- effects

  predicate EffectKeyRepeats(updates: seq<EffectUpdate>, i: nat)
    requires i < |updates|
  {
    exists j :: 0 <= j < i && updates[j].key == updates[i].key
  }

  function CheckEffect(effects: map<RunKey, Effect>, run: RunId, updates: seq<EffectUpdate>, i: nat): Outcome
    requires i < |updates|
  {
    var u := updates[i];
    var k := RunKey(run, u.key);
    if EffectKeyRepeats(updates, i) then Fail(EffectConflict)
    else if k !in effects then Fail(EffectNotFound)
    else if u.status == Reserved || u.status == Started then Fail(InvalidRunEvent)
    else if effects[k].status == Done && (u.status != Done || effects[k].result != u.result)
    then Fail(EffectConflict)
    else Pass
  }

  /** The first failing check among the first `n` updates. */
  function CheckEffects(effects: map<RunKey, Effect>, run: RunId, updates: seq<EffectUpdate>, n: nat): Outcome
    requires n <= |updates|
  {
    if n == 0 then Pass
    else
      var before := CheckEffects(effects, run, updates, n - 1);
      if before.Fail? then before else CheckEffect(effects, run, updates, n - 1)
  }

  /** An update of an effect that is already done changes nothing. */
  function UpdateEffect(effect: Effect, u: EffectUpdate): Effect {
    if effect.status == Done && u.status == Done then effect
    else effect.(status := u.status, result := u.result, errorCode := u.errorCode, errorMessage := u.errorMessage)
  }

  function ApplyEffects(effects: map<RunKey, Effect>, run: RunId, updates: seq<EffectUpdate>, n: nat)
    : map<RunKey, Effect>
    requires n <= |updates|
    requires forall i :: 0 <= i < |updates| ==> RunKey(run, updates[i].key) in effects
    ensures ApplyEffects(effects, run, updates, n).Keys == effects.Keys
  {
    if n == 0 then effects
    else
      var before := ApplyEffects(effects, run, updates, n - 1);
      var k := RunKey(run, updates[n - 1].key);
      before[k := UpdateEffect(before[k], updates[n - 1])]
  }

  // ---------------------------------------------------------------- items

  predicate ItemsOk(items: map<RunKey, Item>, run: RunId, writes: seq<ItemWrite>) {
    && (forall i, j :: 0 <= i < j < |writes| ==> writes[i].key != writes[j].key)
    && forall i :: 0 <= i < |writes| ==>
         var k := RunKey(run, writes[i].key);
         k in items ==> items[k] == Item(writes[i].kind, writes[i].body)
  }

  function ApplyItems(items: map<RunKey, Item>, run: RunId, writes: seq<ItemWrite>, n: nat): map<RunKey, Item>
    requires n <= |writes|
  {
    if n == 0 then items
    else
      var before := ApplyItems(items, run, writes, n - 1);
      var k := RunKey(run, writes[n - 1].key);
      if k in before then before else before[k := Item(writes[n - 1].kind, writes[n - 1].body)]
  }

  // ---------------------------------------------------------------- entries

  predicate SameEntry(e: Entry, w: EntryWrite) {
    e.kind == w.kind && e.vis == w.vis && e.body == w.body
  }

  predicate EntriesOk(entries: map<HomeKey, Entry>, home: Home, writes: seq<EntryWrite>) {
    && (forall i, j :: 0 <= i < j < |writes| ==> writes[i].key != writes[j].key)
    && forall i :: 0 <= i < |writes| ==>
         var k := HomeKey(home, writes[i].key);
         k in entries ==> SameEntry(entries[k], writes[i])
  }

  function Count(log: EntryLog, home: Home): nat {
    if home in log.nums then log.nums[home] else 0
  }

  function ApplyEntry(log: EntryLog, home: Home, run: RunId, thread: ThreadId, w: EntryWrite): EntryLog {
    var k := HomeKey(home, w.key);
    if k in log.entries then log
    else
      var n := Count(log, home) + 1;
      EntryLog(log.nums[home := n], log.entries[k := Entry(run, thread, n, w.kind, w.vis, w.body)])
  }

  function ApplyEntries(log: EntryLog, home: Home, run: RunId, thread: ThreadId, writes: seq<EntryWrite>, n: nat)
    : EntryLog
    requires n <= |writes|
  {
    if n == 0 then log
    else ApplyEntry(ApplyEntries(log, home, run, thread, writes, n - 1), home, run, thread, writes[n - 1])
  }

  // ---------------------------------------------------------------- start

  function WithSession(s: Store, run: RunStart): Store {
    if run.session in s.sessions then s else s.(sessions := s.sessions[run.session := run.scope])
  }

  function HomeOf(run: RunStart): Home { Home(run.scope, run.session) }

  /** The run an earlier start with the same client key created. */
  function Idempotent(s: Store, home: Home, key: Key): Option<Run> {
    var k := HomeKey(home, key);
    if k in s.idempotency && s.idempotency[k] in s.runs then Some(s.runs[s.idempotency[k]]) else None
  }

  function Answer(s: Store, existing: Run, run: RunStart): (Store, Result<StartResult>) {
    (s, if existing.start.Sig() != run.Sig() then Err(StartConflict) else Ok(Existing(Lookup(existing))))
  }

  predicate ThreadHeld(s: Store, thread: ThreadId, now: int) {
    thread in s.threadLeases && s.threadLeases[thread].until > now
  }

  function NewRun(run: RunStart, now: int): Run {
    Run(run, Running, None, false, None, [],
        if run.lease.Some? then Some(Lease(run.lease.value.owner, run.lease.value.id, now + run.lease.value.ttl))
        else None)
  }

  function WithRun(s: Store, run: RunStart, now: int): Store {
    Store(s.sessions, s.runs[run.run := NewRun(run, now)],
          if run.lease.None? then s.threadLeases
          else s.threadLeases[run.thread := ThreadLease(run.run, run.lease.value.owner, run.lease.value.id,
                                                        now + run.lease.value.ttl)],
          s.checkpoints,
          if run.clientKey.None? then s.idempotency
          else s.idempotency[HomeKey(HomeOf(run), run.clientKey.value) := run.run],
          ApplyEntries(s.log, HomeOf(run), run.run, run.thread, run.entries, |run.entries|),
          s.effects, s.items)
  }

  function StartRun(s0: Store, run: RunStart, now: int): (Store, Result<StartResult>) {
    var s := WithSession(s0, run);
    if run.run in s.runs then
      if s.runs[run.run].start.scope != run.scope then (s, Err(RunNotFound))
      else Answer(s, s.runs[run.run], run)
    else if run.clientKey.Some? && Idempotent(s, HomeOf(run), run.clientKey.value).Some? then
      Answer(s, Idempotent(s, HomeOf(run), run.clientKey.value).value, run)
    else if !EntriesOk(s.log.entries, HomeOf(run), run.entries) then (s, Err(EntryConflict))
    else if Busy(s.runs, run.thread, run.run) then (s, Err(ThreadBusy))
    else if run.lease.Some? && ThreadHeld(s, run.thread, now) then (s, Err(ThreadBusy))
    else (WithRun(s, run, now), Ok(Created))
  }

  // ---------------------------------------------------------------- commit

  predicate EventFor(event: Event, run: RunId, session: SessionId) {
    event.run == run && event.session == session
  }

  predicate CommitEmpty(c: Commit) {
    c.events == [] && c.effects == [] && c.items == [] && c.entries == []
  }

  /** Events address the run, and only a finish ends in the one terminal event. */
  predicate CommitShapeOk(c: Commit) {
    && (forall i :: 0 <= i < |c.events| ==> EventFor(c.events[i], c.run, c.session) && c.events[i].num > 0)
    && (c.finish.Some? ==>
          && c.finish.value.run == c.run && c.finish.value.session == c.session
          && c.finish.value.status.IsTerminal()
          && c.events != [] && c.events[|c.events| - 1].terminal)
    && (forall i :: 0 <= i < |c.events| && c.events[i].terminal ==> c.finish.Some? && i == |c.events| - 1)
  }

  /** What a commit comes to before anything is written. */
  datatype Plan = Reject(error: Error) | Reply(result: CommitResult) | Accept

  function PlanCommit(s: Store, c: Commit, now: int): Plan {
    if CommitEmpty(c) || !CommitShapeOk(c) then Reject(InvalidRunEvent)
    else if c.run !in s.runs then Reply(Skipped)
    else
      var run := s.runs[c.run];
      if run.start.scope != c.scope then Reject(RunNotFound)
      else if run.start.session != c.session then Reject(InvalidRunEvent)
      else if run.status.IsTerminal() then
        if c.finish.Some? && run.terminalEvent.Some? then
          Reply(CommitFinished([run.terminalEvent.value], AlreadyFinished(run.terminalEvent.value)))
        else Reply(Skipped)
      else PlanRunning(s, run, c, now)
  }

  /** The checks on a commit to a run that is running. */
  function PlanRunning(s: Store, run: Run, c: Commit, now: int): Plan {
    var lease := CheckLease(run, c.lease, now);
    var thread := if c.checkpoint.Some? then CheckThread(s, run, c.checkpoint.value, c.lease, now) else Pass;
    var effects := CheckEffects(s.effects, c.run, c.effects, |c.effects|);
    if lease.Fail? then Reject(lease.error)
    else if thread.Fail? then Reject(thread.error)
    else if c.checkpoint.Some? && c.checkpoint.value.record.run != Some(c.run) then Reject(CheckpointRun)
    else if !Increases(run.events, c.events) then Reject(InvalidRunEvent)
    else if effects.Fail? then Reject(effects.error)
    else if !ItemsOk(s.items, c.run, c.items) then Reject(ItemConflict)
    else if !EntriesOk(s.log.entries, Home(c.scope, c.session), c.entries) then Reject(EntryConflict)
    else Accept
  }

  predicate EffectsPresent(effects: map<RunKey, Effect>, run: RunId, updates: seq<EffectUpdate>) {
    forall i :: 0 <= i < |updates| ==> RunKey(run, updates[i].key) in effects
  }

  function CommittedRun(run: Run, c: Commit): Run {
    var r := run.(events := run.events + c.events);
    if c.finish.None? || c.events == [] then r
    else r.(status := c.finish.value.status, finishReason := Some(c.finish.value.reason),
            terminalEvent := Some(c.events[|c.events| - 1]), lease := None)
  }

  function Committed(s: Store, c: Commit): Store
    requires c.run in s.runs && EffectsPresent(s.effects, c.run, c.effects)
  {
    var run := s.runs[c.run];
    Store(s.sessions, s.runs[c.run := CommittedRun(run, c)],
          if c.finish.None? then s.threadLeases else s.threadLeases - {run.start.thread},
          if c.checkpoint.None? then s.checkpoints
          else s.checkpoints[c.checkpoint.value.thread := c.checkpoint.value.record],
          s.idempotency,
          ApplyEntries(s.log, Home(c.scope, c.session), c.run, run.start.thread, c.entries, |c.entries|),
          ApplyEffects(s.effects, c.run, c.effects, |c.effects|),
          ApplyItems(s.items, c.run, c.items, |c.items|))
  }

  function CommitReply(c: Commit): CommitResult {
    if c.finish.Some? && c.events != [] then CommitFinished(c.events, Finished(c.events[|c.events| - 1]))
    else Recorded(c.events)
  }

  /** The checks of an accepted commit leave no way for the writes to fail. */
  lemma {:induction false} CheckedEffectsPresent(effects: map<RunKey, Effect>, run: RunId,
                                                 updates: seq<EffectUpdate>, n: nat)
    requires n <= |updates| && CheckEffects(effects, run, updates, n).Pass?
    ensures forall i :: 0 <= i < n ==> RunKey(run, updates[i].key) in effects && CheckEffect(effects, run, updates, i).Pass?
  {
    if n > 0 {
      CheckedEffectsPresent(effects, run, updates, n - 1);
    }
  }

  lemma {:induction false} FirstFailure(effects: map<RunKey, Effect>, run: RunId, updates: seq<EffectUpdate>,
                                        i: nat, n: nat)
    requires i < n <= |updates| && CheckEffects(effects, run, updates, i).Pass?
    requires CheckEffect(effects, run, updates, i).Fail?
    ensures CheckEffects(effects, run, updates, n) == CheckEffect(effects, run, updates, i)
    decreases n
  {
    if i + 1 < n {
      FirstFailure(effects, run, updates, i, n - 1);
    }
  }

  function CommitRun(s: Store, c: Commit, now: int): (Store, Result<CommitResult>) {
    match PlanCommit(s, c, now)
    case Reject(e) => (s, Err(e))
    case Reply(r) => (s, Ok(r))
    case Accept =>
      CheckedEffectsPresent(s.effects, c.run, c.effects, |c.effects|);
      (Committed(s, c), Ok(CommitReply(c)))
  }

  // ---------------------------------------------------------------- single events

  function FinishedRun(run: Run, f: FinishRecord): Run {
    run.(status := f.status, finishReason := Some(f.reason), terminalEvent := Some(f.terminalEvent),
         events := run.events + [f.terminalEvent], lease := None)
  }

  function FinishRun(s: Store, f: FinishRecord): (Store, Result<FinishResult>) {
    var home := Home(f.scope, f.session);
    if !EventFor(f.terminalEvent, f.run, f.session) || !f.terminalEvent.terminal || !f.status.IsTerminal()
    then (s, Err(InvalidRunEvent))
    else if f.run !in s.runs then (s, Err(RunNotFound))
    else
      var run := s.runs[f.run];
      if f.session != run.start.session then (s, Err(InvalidRunEvent))
      else if f.scope != run.start.scope then (s, Err(RunNotFound))
      else if run.status.IsTerminal() then
        (s, if run.terminalEvent.None? then Err(RunNotFound) else Ok(AlreadyFinished(run.terminalEvent.value)))
      else if run.lease.Some? then (s, Err(LeaseLost))
      else if !EntriesOk(s.log.entries, home, f.entries) then (s, Err(EntryConflict))
      else if !Increases(run.events, [f.terminalEvent]) then (s, Err(InvalidRunEvent))
      else
        (s.(runs := s.runs[f.run := FinishedRun(run, f)],
            log := ApplyEntries(s.log, home, f.run, run.start.thread, f.entries, |f.entries|)),
         Ok(Finished(f.terminalEvent)))
  }

  function RecordEvent(s: Store, run: RunId, scope: Scope, event: Event): (Store, Result<bool>) {
    if event.terminal || event.run != run then (s, Err(InvalidRunEvent))
    else if run !in s.runs then (s, Ok(false))
    else
      var r := s.runs[run];
      if r.start.scope != scope then (s, Err(RunNotFound))
      else if r.status.IsTerminal() then (s, Ok(false))
      else if r.lease.Some? then (s, Err(LeaseLost))
      else if event.session != r.start.session || !Increases(r.events, [event]) then (s, Err(InvalidRunEvent))
      else (s.(runs := s.runs[run := r.(events := r.events + [event])]), Ok(true))
  }

  function MarkCancelled(s: Store, run: RunId, scope: Scope): (Store, Result<()>) {
    if run !in s.runs || s.runs[run].start.scope != scope then (s, Err(RunNotFound))
    else (s.(runs := s.runs[run := s.runs[run].(cancelRequested := true)]), Ok(()))
  }

  // ---------------------------------------------------------------- effect reservation

  /** The guard shared by reserving and starting an effect. */
  function CheckOpRun(s: Store, run: RunId, scope: Scope, lease: Option<LeaseId>, now: int): Outcome {
    if run !in s.runs || s.runs[run].start.scope != scope || s.runs[run].status.IsTerminal()
    then Fail(RunNotFound)
    else CheckLease(s.runs[run], lease, now)
  }

  function ReserveEffect(s: Store, run: RunId, scope: Scope, lease: Option<LeaseId>, key: Key, kind: Value,
                         request: Value, now: int): (Store, Result<Effect>)
  {
    var k := RunKey(run, key);
    var guard := CheckOpRun(s, run, scope, lease, now);
    if guard.Fail? then (s, Err(guard.error))
    else if k in s.effects then
      (s, if s.effects[k].kind != kind || s.effects[k].request != request then Err(EffectConflict)
          else Ok(s.effects[k]))
    else
      var e := Effect(kind, request, Reserved, None, None, None);
      (s.(effects := s.effects[k := e]), Ok(e))
  }

  function StartEffect(s: Store, run: RunId, scope: Scope, lease: Option<LeaseId>, key: Key, now: int)
    : (Store, Result<Effect>)
  {
    var k := RunKey(run, key);
    var guard := CheckOpRun(s, run, scope, lease, now);
    if guard.Fail? then (s, Err(guard.error))
    else if k !in s.effects then (s, Err(EffectNotFound))
    else if s.effects[k].status.IsBlocking() then (s, Err(EffectPending))
    else if s.effects[k].status == Done then (s, Ok(s.effects[k]))
    else
      var e := Effect(s.effects[k].kind, s.effects[k].request, Started, None, None, None);
      (s.(effects := s.effects[k := e]), Ok(e))
  }

  // ---------------------------------------------------------------- leases

  predicate RenewOk(s: Store, lease: LeaseRef, now: int) {
    && lease.run in s.runs
    && var run := s.runs[lease.run];
    && run.lease.Some? && run.status == Running
    && run.lease.value.owner == lease.owner && run.lease.value.id == lease.id && run.lease.value.until > now
    && run.start.thread in s.threadLeases
    && var t := s.threadLeases[run.start.thread];
    t.run == lease.run && t.owner == lease.owner && t.id == lease.id && t.until > now
  }

  function Renew(s: Store, lease: LeaseRef, ttl: nat, now: int): (Store, bool) {
    if !RenewOk(s, lease, now) then (s, false)
    else
      var run := s.runs[lease.run];
      var t := run.start.thread;
      (s.(runs := s.runs[lease.run := run.(lease := Some(run.lease.value.(until := now + ttl)))],
          threadLeases := s.threadLeases[t := s.threadLeases[t].(until := now + ttl)]), true)
  }

  predicate Holds(s: Store, lease: LeaseRef) {
    && lease.run in s.runs && s.runs[lease.run].lease.Some?
    && s.runs[lease.run].lease.value.owner == lease.owner && s.runs[lease.run].lease.value.id == lease.id
  }

  function Release(s: Store, lease: LeaseRef): Store {
    if !Holds(s, lease) then s
    else s.(runs := s.runs[lease.run := s.runs[lease.run].(lease := None)],
            threadLeases := s.threadLeases - {s.runs[lease.run].start.thread})
  }

  // ---------------------------------------------------------------- reaping

  predicate Stale(run: Run, now: int) {
    run.status == Running && run.lease.Some? && run.lease.value.until <= now
  }

  predicate ReapEventOk(run: Run, event: Event) {
    EventFor(event, run.start.run, run.start.session) && event.num == LastNum(run.events) + 1 && event.terminal
  }

  function ReapedRun(run: Run, event: Event): Run {
    run.(status := Errored, finishReason := Some(LeaseExpired), terminalEvent := Some(event),
         events := run.events + [event], lease := None)
  }

  /** One run of a reap: it is finished if its lease expired, and left alone otherwise. */
  function Reap(s: Store, run: RunId, event: Event, now: int): Store {
    if run !in s.runs || !Stale(s.runs[run], now) || !ReapEventOk(s.runs[run], event) then s
    else s.(runs := s.runs[run := ReapedRun(s.runs[run], event)],
            threadLeases := s.threadLeases - {s.runs[run].start.thread})
  }
}
