/**
 The lifecycle of runs: it hands out event numbers from the registry, writes the events to the
 store and then publishes them.

 A method here is what one task does while it holds the event lock of its run (module LockMap
 shows that only one task holds it). Whenever the task waits for the store, other workers may
 have carried out operations; those arrive as the parameter `others`. They can do anything to
 the store but append to a run that is registered here, which they may only end. Module
 LifecycleTasks lets the tasks of one process interleave as well.
 */
module Lifecycle {
  import opened Types
  import opened StoreSpec
  import opened StoreInv
  import opened StoreHistory
  import opened Registry

  datatype CommitPlan = CommitPlan(lease: Option<LeaseId>, checkpoint: Option<CheckpointWrite>, eventCount: nat,
                                   effects: seq<EffectUpdate>, items: seq<ItemWrite>, entries: seq<EntryWrite>,
                                   finish: Option<RunFinish>)

  // ---------------------------------------------------------------- numbering

  ghost predicate Numbered(events: seq<Event>) {
    forall i :: 0 <= i < |events| ==> events[i].num == i + 1
  }

  /** The counter is the number of the last stored event and the count of stored events, as long
      as the stored run is running; before the run is stored it is 0. */
  ghost predicate Gapless(reg: map<RunId, ActiveRun>, s: Store, r: RunId) {
    r in reg ==>
      if r !in s.runs then reg[r].currentSeq == 0
      else s.runs[r].status == Running ==>
             reg[r].currentSeq == |s.runs[r].events| && Numbered(s.runs[r].events)
  }

  /** The counter is not behind the last stored event. */
  ghost predicate Ahead(reg: map<RunId, ActiveRun>, s: Store, r: RunId) {
    r in reg ==>
      if r !in s.runs then reg[r].currentSeq >= 0
      else s.runs[r].status == Running ==> reg[r].currentSeq >= LastNum(s.runs[r].events) && reg[r].currentSeq >= 0
  }

  /** The operation may append events to the run that do not end it. */
  predicate Appends(op: Op, r: RunId) {
    match op
    case CommitOp(c) => c.run == r && c.finish.None?
    case RecordOp(run, _, _) => run == r
    case _ => false
  }

  ghost predicate Foreign(steps: seq<Step>, r: RunId) {
    forall i :: 0 <= i < |steps| ==> !Appends(steps[i].op, r)
  }

  /** The run keeps its events for as long as it runs. */
  ghost predicate Untouched(a: Store, b: Store, r: RunId) {
    && (r in a.runs ==> r in b.runs
                        && (b.runs[r].status == Running ==>
                              a.runs[r].status == Running && b.runs[r].events == a.runs[r].events))
    && (r !in a.runs && r in b.runs && b.runs[r].status == Running ==> b.runs[r].events == [])
  }

  lemma ForeignStart(s: Store, run: RunStart, now: int, r: RunId)
    ensures Untouched(s, StartRun(s, run, now).0, r)
  {
    hide Busy, EntriesOk, ApplyEntries, Idempotent, Lookup, ThreadHeld;
  }

  lemma ForeignCommit(s: Store, c: Commit, now: int, r: RunId)
    requires c.run != r || c.finish.Some?
    ensures Untouched(s, CommitRun(s, c, now).0, r)
  {
    if c.run == r && PlanCommit(s, c, now) == Accept {
      AcceptedSound(s, c, now);
      assert s.runs[r].status == Running && CommittedRun(s.runs[r], c).status == c.finish.value.status;
    }
    hide CommitShapeOk, PlanRunning, CommittedRun, ApplyEntries, ApplyEffects, ApplyItems, CommitReply;
  }

  lemma ForeignFinish(s: Store, f: FinishRecord, r: RunId)
    ensures Untouched(s, FinishRun(s, f).0, r)
  {
    hide EntriesOk, Increases, ApplyEntries;
  }

  lemma ForeignRecord(s: Store, run: RunId, scope: Scope, event: Event, r: RunId)
    requires run != r
    ensures Untouched(s, RecordEvent(s, run, scope, event).0, r)
  {
    hide Increases;
  }

  lemma ForeignLease(s: Store, step: Step, r: RunId)
    requires step.op.RenewOp? || step.op.ReleaseOp?
    ensures Untouched(s, Next(s, step), r)
  {
    hide StartRun, CommitRun, FinishRun, RecordEvent, MarkCancelled, ReserveEffect, StartEffect, Reap;
  }

  lemma ForeignRest(s: Store, step: Step, r: RunId)
    requires step.op.CancelOp? || step.op.ReserveOp? || step.op.StartEffectOp? || step.op.ReapOp?
    ensures Untouched(s, Next(s, step), r)
  {
    hide StartRun, CommitRun, FinishRun, RecordEvent, Renew, Release, CheckOpRun, ReapEventOk;
  }

  lemma ForeignStep(s: Store, step: Step, r: RunId)
    requires !Appends(step.op, r)
    ensures Untouched(s, Next(s, step), r)
  {
    hide StartRun, CommitRun, FinishRun, RecordEvent, Untouched;
    match step.op
    case StartOp(run) => ForeignStart(s, run, step.now, r);
    case CommitOp(c) => ForeignCommit(s, c, step.now, r);
    case FinishOp(f) => ForeignFinish(s, f, r);
    case RecordOp(run, scope, event) => ForeignRecord(s, run, scope, event, r);
    case RenewOp(_, _) => ForeignLease(s, step, r);
    case ReleaseOp(_) => ForeignLease(s, step, r);
    case _ => ForeignRest(s, step, r);
  }

  lemma {:induction false} ForeignSteps(s: Store, steps: seq<Step>, r: RunId, n: nat)
    requires n <= |steps| && Foreign(steps, r)
    ensures Untouched(s, Exec(s, steps, n), r)
  {
    hide Next;
    if n > 0 {
      ForeignSteps(s, steps, r, n - 1);
      ForeignStep(Exec(s, steps, n - 1), steps[n - 1], r);
    }
  }

  /** What others do meanwhile does not disturb the numbering. */
  lemma ForeignKeeps(reg: map<RunId, ActiveRun>, s: Store, steps: seq<Step>, r: RunId)
    requires r in reg ==> Foreign(steps, r)
    ensures Gapless(reg, s, r) ==> Gapless(reg, Exec(s, steps, |steps|), r)
    ensures Ahead(reg, s, r) ==> Ahead(reg, Exec(s, steps, |steps|), r)
  {
    if r in reg {
      ForeignSteps(s, steps, r, |steps|);
    }
  }

  // ---------------------------------------------------------------- committing

  /** The events carry the numbers after `last`. */
  ghost predicate From(events: seq<Event>, last: int) {
    forall i :: 0 <= i < |events| ==> events[i].num == last + 1 + i
  }

  lemma CommitNumbered(reg: map<RunId, ActiveRun>, s: Store, c: Commit, now: int)
    requires c.run in reg && From(c.events, reg[c.run].currentSeq)
    requires CommitRun(s, c, now).1.Ok? && CommitRun(s, c, now).1.value.Recorded?
    ensures Gapless(reg, s, c.run) ==>
              Gapless(Advanced(reg, c.run, |c.events|), CommitRun(s, c, now).0, c.run)
    ensures Ahead(reg, s, c.run) ==>
              Ahead(Advanced(reg, c.run, |c.events|), CommitRun(s, c, now).0, c.run)
    ensures c.run in s.runs && c.run in CommitRun(s, c, now).0.runs
            && CommitRun(s, c, now).0.runs[c.run].events == s.runs[c.run].events + c.events
  {
    assert PlanCommit(s, c, now) == Accept;
    AcceptedSound(s, c, now);
    assert s.runs[c.run].status == Running && c.run in s.runs;
    hide PlanCommit, Sound, ApplyEntries, ApplyEffects, ApplyItems, CommitShapeOk;
  }

  /** A number handed out while the counter is not behind is always accepted as the next one. */
  lemma AheadIncreases(reg: map<RunId, ActiveRun>, s: Store, r: RunId, events: seq<Event>)
    requires Ahead(reg, s, r) && r in reg && r in s.runs && s.runs[r].status == Running
    requires From(events, reg[r].currentSeq)
    ensures Increases(s.runs[r].events, events)
  {
  }

  // ---------------------------------------------------------------- when a number is lost

  /** The store refuses to record the event: its run is running and leased, or has another session,
      or the number does not go on from the log. */
  predicate RefusesEvent(s: Store, event: Event) {
    && event.run in s.runs
    && var run := s.runs[event.run];
    && run.status == Running
    && (run.lease.Some? || event.session != run.start.session || !Increases(run.events, [event]))
  }

  /** The store refuses to finish the run: it has another session, or it is running and leased, or
      its entries or its number do not fit. */
  predicate RefusesFinish(s: Store, f: FinishRecord) {
    && f.run in s.runs
    && var run := s.runs[f.run];
    || f.session != run.start.session
    || (run.status == Running
        && (run.lease.Some? || !EntriesOk(s.log.entries, Home(f.scope, f.session), f.entries)
            || !Increases(run.events, [f.terminalEvent])))
  }

  lemma RecordRefusedExactly(s: Store, scope: Scope, event: Event)
    requires event.run in s.runs && s.runs[event.run].start.scope == scope && !event.terminal
    ensures RecordEvent(s, event.run, scope, event).1.Err? <==> RefusesEvent(s, event)
  {
    hide Increases;
  }

  lemma FinishRefusedExactly(s: Store, f: FinishRecord)
    requires StoreInv.Valid(s) && f.run in s.runs && s.runs[f.run].start.scope == f.scope
    requires EventFor(f.terminalEvent, f.run, f.session) && f.terminalEvent.terminal && f.status.IsTerminal()
    ensures FinishRun(s, f).1.Err? <==> RefusesFinish(s, f)
  {
    assert LogOk(s.runs[f.run]);
    hide StoreInv.Valid, Increases, EntriesOk, ApplyEntries;
  }

  /** While the counter is not behind, the store refuses the next number of a running run for its
      lease or its session only. */
  lemma RefusedForLeaseOrSession(reg: map<RunId, ActiveRun>, s: Store, event: Event)
    requires Ahead(reg, s, event.run) && event.run in reg && event.num == reg[event.run].currentSeq + 1
    requires event.run in s.runs
    ensures var run := s.runs[event.run];
            RefusesEvent(s, event)
            <==> run.status == Running && (run.lease.Some? || event.session != run.start.session)
  {
    if s.runs[event.run].status == Running {
      AheadIncreases(reg, s, event.run, [event]);
    }
  }

  /** And a finish for its session, its lease or its entries only. */
  lemma FinishRefusedForNoNumber(reg: map<RunId, ActiveRun>, s: Store, f: FinishRecord)
    requires Ahead(reg, s, f.run) && f.run in reg && f.terminalEvent.num == reg[f.run].currentSeq + 1
    requires f.run in s.runs
    ensures var run := s.runs[f.run];
            RefusesFinish(s, f)
            <==> f.session != run.start.session
                 || (run.status == Running
                     && (run.lease.Some? || !EntriesOk(s.log.entries, Home(f.scope, f.session), f.entries)))
  {
    hide EntriesOk;
    if s.runs[f.run].status == Running {
      AheadIncreases(reg, s, f.run, [f.terminalEvent]);
    }
  }

  /** Appending this event loses a number: the run is known and registered, the event fits, and the
      store that it reaches refuses it. */
  ghost predicate AppendLoses(reg: map<RunId, ActiveRun>, s0: Store, s: Store, run: RunId, scope: Scope, event: Event)
    requires run in reg
  {
    && run in s0.runs && s0.runs[run].start.scope == scope
    && event.run == run && event.num == reg[run].currentSeq + 1 && !event.terminal
    && RefusesEvent(s, event)
  }

  ghost predicate FinishLoses(reg: map<RunId, ActiveRun>, s0: Store, s: Store, finish: RunFinish, scope: Scope,
                              entries: seq<EntryWrite>, event: Event)
    requires finish.run in reg
  {
    && finish.status.IsTerminal() && finish.run in s0.runs && s0.runs[finish.run].start.scope == scope
    && FinishFits(finish, event, reg[finish.run].currentSeq + 1)
    && RefusesFinish(s, FinishRecord(finish.run, finish.session, scope, finish.status, finish.reason, event, entries))
  }

  /** Others leave the run's start alone. */
  lemma StartStays(s: Store, steps: seq<Step>, r: RunId)
    requires StoreInv.Valid(s) && r in s.runs
    ensures r in Exec(s, steps, |steps|).runs && Exec(s, steps, |steps|).runs[r].start == s.runs[r].start
  {
    hide StoreInv.Valid;
    ExecEvolves(s, steps, 0, |steps|, r);
  }

  datatype StartAttempt = Answered(check: Result<RunLookup>) | Registered | Refused(error: Error)

  /** An earlier run answers the start if it was started in the same way. */
  function StartCheck(existing: Run, run: RunStart): Result<RunLookup> {
    if existing.start.Sig() != run.Sig() then Err(StartConflict) else Ok(Lookup(existing))
  }

  predicate FinishFits(finish: RunFinish, event: Event, n: int) {
    event.run == finish.run && event.session == finish.session && event.num == n && event.terminal
  }

  /** Each event addresses the run and carries its number; only a finish ends in the
      one terminal event. */
  predicate EventsFit(run: RunId, session: SessionId, finish: Option<RunFinish>, events: seq<Event>, seqs: seq<int>)
    requires |events| == |seqs|
  {
    && (forall i :: 0 <= i < |events| ==> EventFor(events[i], run, session) && events[i].num == seqs[i])
    && (finish.Some? ==> |events| > 0 && events[|events| - 1].terminal)
    && (forall i :: 0 <= i < |events| && events[i].terminal ==> finish.Some? && i == |events| - 1)
  }

  ghost predicate SameCounters(a: map<RunId, ActiveRun>, b: map<RunId, ActiveRun>) {
    a.Keys == b.Keys && forall r :: r in a ==> a[r].currentSeq == b[r].currentSeq
  }

  /** Every subscriber that is still there got the events, in order, and nobody else did. */
  ghost predicate Published(before: seq<Channel>, after: seq<Channel>, senders: seq<nat>, events: seq<Event>) {
    && |after| == |before|
    && forall c :: 0 <= c < |before| ==>
         after[c].open == before[c].open
         && after[c].queue == if c in senders && before[c].open then before[c].queue + events else before[c].queue
  }

  // ---------------------------------------------------------------- how far a call gets

  /** What a call comes to before the store takes part: an answer, or something to write. */
  datatype Reach<A, W> = Replies(answer: A) | Writes(write: W)

  /** Consecutive numbers after `last`. */
  function Numbers(last: int, count: nat): (r: seq<int>)
    ensures |r| == count && forall i :: 0 <= i < count ==> r[i] == last + 1 + i
  {
    seq(count, i => last + 1 + i)
  }

  function BuiltEvents(build: (nat, int) -> Event, last: int, count: nat): (r: seq<Event>)
    ensures |r| == count && forall i :: 0 <= i < count ==> r[i] == build(i, last + 1 + i)
  {
    seq(count, i requires 0 <= i < count => build(i, last + 1 + i))
  }

  function CounterOf(reg: map<RunId, ActiveRun>, run: RunId): int {
    if run in reg then reg[run].currentSeq else 0
  }

  function KnownRun(s: Store, run: RunId, scope: Scope): bool {
    run in s.runs && s.runs[run].start.scope == scope
  }

  /** The answer for a run that is not registered: its terminal event, if it is over. */
  function OverAlready(s: Store, run: RunId): Result<FinishResult>
    requires run in s.runs
  {
    if s.runs[run].terminalEvent.Some? then Ok(AlreadyFinished(s.runs[run].terminalEvent.value)) else Err(RunNotFound)
  }

  predicate PlanOk(run: RunId, session: SessionId, plan: CommitPlan) {
    && !(plan.eventCount == 0 && plan.effects == [] && plan.items == [] && plan.entries == [])
    && (plan.finish.Some? ==> plan.finish.value.status.IsTerminal() && plan.finish.value.run == run
                              && plan.finish.value.session == session)
  }

  /** The commit that the plan comes to, with events built for the numbers after the counter. */
  function BuiltCommit(run: RunId, session: SessionId, scope: Scope, plan: CommitPlan, build: (nat, int) -> Event,
                       last: int): Commit
  {
    Commit(run, session, scope, plan.lease, plan.checkpoint, BuiltEvents(build, last, plan.eventCount), plan.effects,
           plan.items, plan.entries, plan.finish)
  }

  function CommitReach(reg: map<RunId, ActiveRun>, s: Store, run: RunId, session: SessionId, scope: Scope,
                       plan: CommitPlan, build: (nat, int) -> Event): Reach<Result<CommitResult>, Commit>
  {
    if !KnownRun(s, run, scope) then Replies(Err(RunNotFound))
    else if plan.eventCount > 0 && run !in reg then
      var over := OverAlready(s, run);
      Replies(if plan.finish.Some? && over.Ok? then Ok(CommitFinished([over.value.event], over.value))
              else Err(RunNotFound))
    else
      var c := BuiltCommit(run, session, scope, plan, build, CounterOf(reg, run));
      if EventsFit(run, session, plan.finish, c.events, Numbers(CounterOf(reg, run), plan.eventCount))
      then Writes(c) else Replies(Err(InvalidRunEvent))
  }

  function AppendReach(reg: map<RunId, ActiveRun>, s: Store, run: RunId, scope: Scope, build: int -> Event)
    : Reach<Result<Option<Event>>, Event>
  {
    if !KnownRun(s, run, scope) || run !in reg then Replies(Err(RunNotFound))
    else
      var event := build(reg[run].currentSeq + 1);
      if event.run == run && event.num == reg[run].currentSeq + 1 && !event.terminal
      then Writes(event) else Replies(Err(InvalidRunEvent))
  }

  function FinishReach(reg: map<RunId, ActiveRun>, s: Store, finish: RunFinish, scope: Scope,
                       entries: seq<EntryWrite>, build: int -> Event): Reach<Result<FinishResult>, FinishRecord>
  {
    if !finish.status.IsTerminal() then Replies(Err(InvalidRunEvent))
    else if !KnownRun(s, finish.run, scope) then Replies(Err(RunNotFound))
    else if finish.run !in reg then Replies(OverAlready(s, finish.run))
    else
      var n := reg[finish.run].currentSeq + 1;
      if !FinishFits(finish, build(n), n) then Replies(Err(InvalidRunEvent))
      else Writes(FinishRecord(finish.run, finish.session, scope, finish.status, finish.reason, build(n), entries))
  }

  /** A detached finish is for a run that nobody here executes. */
  function DetachedReach(reg: map<RunId, ActiveRun>, s: Store, finish: RunFinish, scope: Scope,
                         entries: seq<EntryWrite>, build: int -> Event): Reach<Result<FinishResult>, FinishRecord>
  {
    if !finish.status.IsTerminal() then Replies(Err(InvalidRunEvent))
    else if !KnownRun(s, finish.run, scope) then Replies(Err(RunNotFound))
    else if finish.run in reg then Replies(Err(RunAlreadyActive))
    else if OverAlready(s, finish.run).Ok? then Replies(OverAlready(s, finish.run))
    else
      var n := LastNum(s.runs[finish.run].events) + 1;
      if !FinishFits(finish, build(n), n) then Replies(Err(InvalidRunEvent))
      else Writes(FinishRecord(finish.run, finish.session, scope, finish.status, finish.reason, build(n), entries))
  }

  /** What the store makes of an event to append, and what the caller is told. */
  function Appended(s: Store, run: RunId, scope: Scope, event: Event): (Store, Result<Option<Event>>) {
    var (next, reply) := RecordEvent(s, run, scope, event);
    (next, match reply
           case Ok(recorded) => Ok(if recorded then Some(event) else None)
           case Err(e) => Err(e))
  }

  predicate OnlyLastTerminal(events: seq<Event>) {
    forall i :: 0 <= i < |events| && events[i].terminal ==> i == |events| - 1
  }

  /** The events that an answered commit makes known. */
  function Announced(r: CommitResult): seq<Event> {
    if r.Skipped? then [] else r.events
  }

  predicate Listening(reg: map<RunId, ActiveRun>, run: RunId) {
    run in reg && !reg[run].terminalPublished
  }

  /** The subscribers of the run got the events, if its terminal event was not out, and nobody else
      got anything. */
  ghost predicate Heard(reg: map<RunId, ActiveRun>, before: seq<Channel>, after: seq<Channel>, run: RunId,
                        events: seq<Event>)
  {
    if Listening(reg, run) then Published(before, after, reg[run].senders, events) else after == before
  }

  /** The registrations of all other runs are as before. */
  ghost predicate OthersSame(reg: map<RunId, ActiveRun>, reg': map<RunId, ActiveRun>, run: RunId) {
    forall q :: q != run ==> (q in reg' <==> q in reg) && (q in reg ==> reg'[q] == reg[q])
  }

  /** What a process holds of its runs: the registry, the channels and the store behind it. */
  datatype Process = Process(reg: map<RunId, ActiveRun>, channels: seq<Channel>, store: Store)

  /** A commit reached the store, where others had been before: what the store made of it is the
      answer, its events went out, and a rejected one left the process as it was. */
  ghost predicate CommitWritten(p: Process, others: seq<Step>, c: Commit, now: int, p': Process,
                                r: Result<CommitResult>)
  {
    var s := Exec(p.store, others, |others|);
    && (p'.store, r) == CommitRun(s, c, now)
    && Keeps(p.reg, p.store, others, p'.reg, p'.store) && OthersSame(p.reg, p'.reg, c.run)
    && Heard(p.reg, p.channels, p'.channels, c.run, if r.Ok? then Announced(r.value) else [])
    && (r.Err? ==> p' == p.(store := s))
    && (r.Ok? && !r.value.Recorded? ==> c.run !in p'.reg)
    && (r.Ok? && r.value.Recorded? ==>
          && r.value.events == c.events && Records(p.reg, s, p'.reg, p'.store, c.run, |c.events|, c.events)
          && SameCounters(Advanced(p.reg, c.run, |c.events|), p'.reg))
  }

  /** What a commit comes to under the event lock: an answer without any change, or the write of the
      built commit. */
  ghost predicate CommitOutcome(p: Process, others: seq<Step>, run: RunId, session: SessionId, scope: Scope,
                                plan: CommitPlan, build: (nat, int) -> Event, now: int, p': Process,
                                r: Result<CommitResult>)
  {
    && Keeps(p.reg, p.store, others, p'.reg, p'.store) && OthersSame(p.reg, p'.reg, run)
    && (r.Err? ==> p' == p || p' == p.(store := Exec(p.store, others, |others|)))
    && (r.Ok? && !r.value.Recorded? ==> run !in p'.reg)
    && match CommitReach(p.reg, p.store, run, session, scope, plan, build)
       case Replies(answer) => r == answer && p' == p && (r.Ok? ==> r.value.CommitFinished?)
       case Writes(c) => c.run == run && |c.events| == plan.eventCount && CommitWritten(p, others, c, now, p', r)
  }

  /** An event to append reached the store: one that is recorded went out, a run that is over is
      removed, and a refused event leaves the counter one ahead. */
  ghost predicate AppendWritten(p: Process, others: seq<Step>, scope: Scope, event: Event, p': Process,
                                r: Result<Option<Event>>)
  {
    var s := Exec(p.store, others, |others|);
    && (p'.store, r) == Appended(s, event.run, scope, event)
    && OthersSame(p.reg, p'.reg, event.run) && KeepsAhead(p.reg, p.store, others, p'.reg, p'.store)
    && Heard(p.reg, p.channels, p'.channels, event.run, if r.Ok? && r.value.Some? then [event] else [])
    && (r.Err? <==> RefusesEvent(s, event))
    && (r.Err? ==> p'.reg == Advanced(p.reg, event.run, 1) && p'.store == s)
    && (r.Ok? ==> Keeps(p.reg, p.store, others, p'.reg, p'.store))
    && (r.Ok? && r.value.None? ==> event.run !in p'.reg)
    && (r.Ok? && r.value.Some? ==>
          r.value.value == event && Records(p.reg, s, p'.reg, p'.store, event.run, 1, [event]))
  }

  /** What appending an event comes to. A number is lost if and only if the store that the event
      reaches refuses it; otherwise the numbering is kept. */
  ghost predicate AppendOutcome(p: Process, others: seq<Step>, run: RunId, scope: Scope, build: int -> Event,
                                p': Process, r: Result<Option<Event>>)
  {
    && KeepsAhead(p.reg, p.store, others, p'.reg, p'.store) && OthersSame(p.reg, p'.reg, run)
    && (r.Ok? || !NumberLost(p.reg, p'.reg, run) ==> Keeps(p.reg, p.store, others, p'.reg, p'.store))
    && (r.Err? && !NumberLost(p.reg, p'.reg, run) ==> p' == p)
    && (run in p.reg ==>
          (r.Err? && NumberLost(p.reg, p'.reg, run)
           <==> AppendLoses(p.reg, p.store, Exec(p.store, others, |others|), run, scope,
                            build(p.reg[run].currentSeq + 1))))
    && match AppendReach(p.reg, p.store, run, scope, build)
       case Replies(answer) => r == answer && p' == p && r.Err?
       case Writes(event) => event.run == run && AppendWritten(p, others, scope, event, p', r)
  }

  /** A finish reached the store: a run that answers is unregistered after its terminal event went
      out, and a refused finish leaves the counter one ahead. */
  ghost predicate FinishWritten(p: Process, others: seq<Step>, f: FinishRecord, p': Process, r: Result<FinishResult>) {
    var s := Exec(p.store, others, |others|);
    && (p'.store, r) == FinishRun(s, f)
    && OthersSame(p.reg, p'.reg, f.run) && KeepsAhead(p.reg, p.store, others, p'.reg, p'.store)
    && Heard(p.reg, p.channels, p'.channels, f.run, if r.Ok? then [r.value.event] else [])
    && (r.Err? <==> RefusesFinish(s, f))
    && (r.Err? ==> p'.reg == Advanced(p.reg, f.run, 1))
    && (r.Ok? ==> Keeps(p.reg, p.store, others, p'.reg, p'.store) && f.run !in p'.reg)
    && (r.Ok? && r.value.Finished? ==>
          r.value.event == f.terminalEvent && f.run in p'.store.runs
          && p'.store.runs[f.run].terminalEvent == Some(f.terminalEvent))
  }

  /** What finishing a run comes to, and when it loses a number. */
  ghost predicate FinishOutcome(p: Process, others: seq<Step>, finish: RunFinish, scope: Scope,
                                entries: seq<EntryWrite>, build: int -> Event, p': Process, r: Result<FinishResult>)
  {
    && KeepsAhead(p.reg, p.store, others, p'.reg, p'.store) && OthersSame(p.reg, p'.reg, finish.run)
    && (r.Ok? || !NumberLost(p.reg, p'.reg, finish.run) ==> Keeps(p.reg, p.store, others, p'.reg, p'.store))
    && (r.Err? && !NumberLost(p.reg, p'.reg, finish.run) ==> p' == p)
    && (r.Ok? ==> finish.run !in p'.reg)
    && (finish.run in p.reg ==>
          (r.Err? && NumberLost(p.reg, p'.reg, finish.run)
           <==> FinishLoses(p.reg, p.store, Exec(p.store, others, |others|), finish, scope, entries,
                            build(p.reg[finish.run].currentSeq + 1))))
    && match FinishReach(p.reg, p.store, finish, scope, entries, build)
       case Replies(answer) => r == answer && p' == p && (r.Ok? ==> r.value.AlreadyFinished?)
       case Writes(f) =>
         && f.run == finish.run && f.terminalEvent.num == p.reg[f.run].currentSeq + 1
         && FinishWritten(p, others, f, p', r)
  }

  /** What finishing a run that nobody here executes comes to. */
  ghost predicate DetachedOutcome(p: Process, others: seq<Step>, finish: RunFinish, scope: Scope,
                                  entries: seq<EntryWrite>, build: int -> Event, p': Process, r: Result<FinishResult>)
  {
    && p'.reg == p.reg && p'.channels == p.channels && Keeps(p.reg, p.store, others, p.reg, p'.store)
    && (r.Ok? && r.value.Finished? ==>
          && finish.run in p.store.runs && finish.run in p'.store.runs
          && r.value.event.num == LastNum(p.store.runs[finish.run].events) + 1
          && (Foreign(others, finish.run) ==>
                p'.store.runs[finish.run].events == p.store.runs[finish.run].events + [r.value.event]))
    && match DetachedReach(p.reg, p.store, finish, scope, entries, build)
       case Replies(answer) => r == answer && p' == p
       case Writes(f) => f.run !in p.reg && (p'.store, r) == FinishRun(Exec(p.store, others, |others|), f)
  }

  class RunLifecycle {
    const registry: RunRegistry
    const maxInFlight: nat
    var store: Store

    ghost predicate Valid()
      reads this, registry
    {
      registry.Valid() && StoreInv.Valid(store)
    }

    ghost function State(): Process
      reads this, registry
    {
      Process(registry.runs, registry.channels, store)
    }

    constructor (store: Store, maxInFlight: nat)
      requires StoreInv.Valid(store)
      ensures Valid() && fresh(registry) && registry.runs == map[] && this.store == store
      ensures this.maxInFlight == maxInFlight
    {
      this.registry := new RunRegistry();
      this.store := store;
      this.maxInFlight := maxInFlight;
    }

    /** The run of this id and scope. */
    predicate Known(run: RunId, scope: Scope)
      reads this
    {
      run in store.runs && store.runs[run].start.scope == scope
    }

    method Allocate(run: RunId, count: nat) returns (seqs: seq<int>, complete: bool)
      requires registry.Valid()
      modifies registry`runs
      ensures registry.Valid()
      ensures complete <==> run in old(registry.runs) || count == 0
      ensures complete ==> |seqs| == count && registry.runs == Advanced(old(registry.runs), run, count)
      ensures complete ==> forall i :: 0 <= i < |seqs| ==> seqs[i] == old(registry.runs)[run].currentSeq + 1 + i
      ensures !complete ==> registry.runs == old(registry.runs)
    {
      seqs := [];
      assert Advanced(registry.runs, run, 0) == registry.runs;
      for n := 0 to count
        invariant registry.Valid() && |seqs| == n
        invariant registry.runs == Advanced(old(registry.runs), run, n)
        invariant n > 0 ==> run in old(registry.runs)
        invariant forall i :: 0 <= i < n ==> seqs[i] == old(registry.runs)[run].currentSeq + 1 + i
      {
        var number := registry.NextSeq(run);
        if number.None? {
          return seqs, false;
        }
        seqs := seqs + [number.value];
      }
      return seqs, true;
    }

    /** Gives the numbers back, the last one first. */
    method RewindSeqs(run: RunId, seqs: seq<int>)
      requires registry.Valid()
      requires run in registry.runs ==>
                 forall i :: 0 <= i < |seqs| ==> seqs[i] == registry.runs[run].currentSeq - |seqs| + 1 + i
      modifies registry`runs
      ensures registry.Valid() && registry.runs == Advanced(old(registry.runs), run, -|seqs|)
    {
      assert Advanced(registry.runs, run, 0) == registry.runs;
      var i := |seqs|;
      while i > 0
        invariant 0 <= i <= |seqs| && registry.Valid()
        invariant registry.runs == Advanced(old(registry.runs), run, i - |seqs|)
      {
        i := i - 1;
        var done := registry.RewindSeq(run, seqs[i]);
      }
    }

    method PublishAll(run: RunId, events: seq<Event>)
      requires registry.Valid() && OnlyLastTerminal(events)
      modifies registry
      ensures registry.Valid() && SameCounters(old(registry.runs), registry.runs)
      ensures OthersSame(old(registry.runs), registry.runs, run)
      ensures Heard(old(registry.runs), old(registry.channels), registry.channels, run, events)
    {
      ghost var runs, channels := registry.runs, registry.channels;
      assert events[..0] == [];
      for i := 0 to |events|
        invariant Publishing(runs, channels, registry.runs, registry.channels, run, events, i)
      {
        hide Publishing, Deliver, StillOpen, SendersOk;
        ghost var before, sent := registry.runs, registry.channels;
        PublishingValid(runs, channels, before, sent, run, events, i);
        if events[i].terminal {
          var published := registry.PublishTerminal(run, events[i]);
        } else {
          registry.Publish(run, events[i]);
        }
        PublishStep(runs, channels, before, sent, registry.runs, registry.channels, run, events, i);
      }
      assert events[..|events|] == events;
    }

    /** The part of a commit under the event lock, after the plan itself was checked. */
    method CommitLocked(run: RunId, session: SessionId, scope: Scope, plan: CommitPlan,
                        build: (nat, int) -> Event, others: seq<Step>, now: int)
      returns (r: Result<CommitResult>)
      requires Valid()
      modifies this`store, registry
      ensures Valid()
      ensures CommitOutcome(old(State()), others, run, session, scope, plan, build, now, State(), r)
    {
      ghost var before := State();
      hide StoreInv.Valid, SendersOk, CommitOutcome, CommitWritten;
      if !Known(run, scope) {
        CommitStops(before, others, run, session, scope, plan, build, now, Err(RunNotFound));
        return Err(RunNotFound);
      }
      var seqs, complete := Allocate(run, plan.eventCount);
      if !complete {
        if plan.finish.Some? && store.runs[run].terminalEvent.Some? {
          var event := store.runs[run].terminalEvent.value;
          r := Ok(CommitFinished([event], AlreadyFinished(event)));
        } else {
          r := Err(RunNotFound);
        }
        CommitStops(before, others, run, session, scope, plan, build, now, r);
        return;
      }
      var events := seq(|seqs|, i requires 0 <= i < |seqs| => build(i, seqs[i]));
      assert seqs == Numbers(CounterOf(before.reg, run), plan.eventCount);
      assert events == BuiltEvents(build, CounterOf(before.reg, run), plan.eventCount);
      hide EventsFit;
      if !EventsFit(run, session, plan.finish, events, seqs) {
        RewindSeqs(run, seqs);
        Rewound(before.reg, run, |seqs|);
        CommitStops(before, others, run, session, scope, plan, build, now, Err(InvalidRunEvent));
        return Err(InvalidRunEvent);
      }
      var c := Commit(run, session, scope, plan.lease, plan.checkpoint, events, plan.effects, plan.items,
                      plan.entries, plan.finish);
      FittingNumbers(run, session, plan.finish, events, seqs);
      r := CommitStore(c, seqs, others, now, before.reg);
      CommitReaches(before, others, run, session, scope, plan, build, now, c, State(), r);
    }

    /** Writes the commit; a rejected one gives its numbers back, an accepted one is published. */
    method CommitStore(c: Commit, seqs: seq<int>, others: seq<Step>, now: int, ghost reg: map<RunId, ActiveRun>)
      returns (r: Result<CommitResult>)
      requires Valid() && registry.runs == Advanced(reg, c.run, |seqs|) && |seqs| == |c.events|
      requires if c.run in reg
               then (forall i :: 0 <= i < |seqs| ==> c.events[i].num == seqs[i] == reg[c.run].currentSeq + 1 + i)
               else |seqs| == 0
      requires OnlyLastTerminal(c.events)
      modifies this`store, registry
      ensures Valid()
      ensures CommitWritten(old(State()).(reg := reg), others, c, now, State(), r)
    {
      ghost var before := State().(reg := reg);
      ghost var counted := registry.runs;
      assert NumberedAfter(reg, c);
      assert c.run in counted ==>
               forall i :: 0 <= i < |seqs| ==> seqs[i] == counted[c.run].currentSeq - |seqs| + 1 + i;
      hide StoreInv.Valid, SendersOk, CommitWritten, Exec, StoreSpec.CommitRun, Heard, OthersSame, SameCounters;
      hide NumberedAfter, Advanced, Announced;
      store := Exec(store, others, |others|);
      ghost var s1 := store;
      var (next, reply) := StoreSpec.CommitRun(store, c, now);
      store := next;
      ExecValid(before.store, others, |others|);
      CommitKeeps(s1, c, now);
      if reply.Err? {
        RewindSeqs(c.run, seqs);
        Rewound(reg, c.run, |seqs|);
        CommitRejected(before, others, c, now);
      } else {
        ReplyShape(s1, c, now);
        Announce(c.run, reply.value);
        CommitAnnounced(before, others, c, now, registry.runs, registry.channels);
      }
      return reply;
    }

    /** Publishes what an answered commit makes known, and unregisters a run that is over. */
    method Announce(run: RunId, reply: CommitResult)
      requires registry.Valid()
      requires OnlyLastTerminal(Announced(reply))
      modifies registry
      ensures registry.Valid() && OthersSame(old(registry.runs), registry.runs, run)
      ensures Heard(old(registry.runs), old(registry.channels), registry.channels, run, Announced(reply))
      ensures reply.Recorded? ==> SameCounters(old(registry.runs), registry.runs)
      ensures !reply.Recorded? ==> run !in registry.runs
    {
      ghost var reg := registry.runs;
      NobodyHears(reg, registry.channels, run);
      SameOthers(reg, run);
      hide SendersOk, Heard, OthersSame, SameCounters;
      match reply
      case Recorded(events) => PublishAll(run, events);
      case CommitFinished(events, _) =>
        PublishAll(run, events);
        RemovedOthers(reg, registry.runs, run);
        registry.Remove(run);
      case Skipped =>
        RemovedOthers(reg, registry.runs, run);
        registry.Remove(run);
    }

    /** Commits a batch of new events together with effects, items, entries and a checkpoint.
        Whatever happens, the numbering is as gapless afterwards as it was before: a failure
        gives the whole batch of numbers back, and a run that turns out to be over is removed. */
    method CommitWith(run: RunId, session: SessionId, scope: Scope, plan: CommitPlan,
                      build: (nat, int) -> Event, others: seq<Step>, now: int)
      returns (r: Result<CommitResult>)
      requires Valid()
      modifies this`store, registry
      ensures Valid()
      ensures if PlanOk(run, session, plan)
              then CommitOutcome(old(State()), others, run, session, scope, plan, build, now, State(), r)
              else r == Err(InvalidRunEvent) && State() == old(State())
    {
      if (plan.eventCount == 0 && plan.effects == [] && plan.items == [] && plan.entries == [])
         || (plan.finish.Some? && (!plan.finish.value.status.IsTerminal() || plan.finish.value.run != run
                                   || plan.finish.value.session != session))
      {
        return Err(InvalidRunEvent);
      }
      hide StoreInv.Valid, SendersOk, CommitOutcome;
      r := CommitLocked(run, session, scope, plan, build, others, now);
    }

    /** Appends one event. Unlike a commit it does not give its number back when the store
        refuses the event: then, and only then, a gap opens in front of the next event. */
    method AppendWith(run: RunId, scope: Scope, build: int -> Event, others: seq<Step>)
      returns (r: Result<Option<Event>>)
      requires Valid()
      modifies this`store, registry
      ensures Valid()
      ensures AppendOutcome(old(State()), others, run, scope, build, State(), r)
    {
      ghost var before := State();
      hide StoreInv.Valid, SendersOk, AppendOutcome, AppendWritten;
      if !Known(run, scope) {
        AppendStops(before, others, run, scope, build, Err(RunNotFound));
        return Err(RunNotFound);
      }
      var n := registry.NextSeq(run);
      if n.None? {
        AppendStops(before, others, run, scope, build, Err(RunNotFound));
        return Err(RunNotFound);
      }
      var event := build(n.value);
      if event.run != run || event.num != n.value || event.terminal {
        var done := registry.RewindSeq(run, n.value);
        Rewound(before.reg, run, 1);
        AppendStops(before, others, run, scope, build, Err(InvalidRunEvent));
        return Err(InvalidRunEvent);
      }
      r := AppendStore(event, scope, others, before.reg);
      AppendReaches(before, others, run, scope, build, event, State(), r);
    }

    method AppendStore(event: Event, scope: Scope, others: seq<Step>, ghost reg: map<RunId, ActiveRun>)
      returns (r: Result<Option<Event>>)
      requires Valid() && event.run in reg && registry.runs == Advanced(reg, event.run, 1)
      requires event.num == reg[event.run].currentSeq + 1 && KnownRun(store, event.run, scope) && !event.terminal
      modifies this`store, registry
      ensures Valid()
      ensures AppendWritten(old(State()).(reg := reg), others, scope, event, State(), r)
    {
      ghost var before := State().(reg := reg);
      hide StoreInv.Valid, SendersOk, AppendWritten, Exec, StoreSpec.RecordEvent, Deliver, StillOpen, KnownRun;
      store := Exec(store, others, |others|);
      ghost var s1 := store;
      ExecValid(before.store, others, |others|);
      RecordKeeps(s1, event.run, scope, event);
      var (next, reply) := StoreSpec.RecordEvent(store, event.run, scope, event);
      store := next;
      if reply == Ok(true) {
        ghost var counted := registry.runs;
        registry.Publish(event.run, event);
        AppendPublished(before, others, scope, event, registry.runs, registry.channels);
        r := Ok(Some(event));
      } else if reply.Ok? {
        registry.Remove(event.run);
        AppendOver(before, others, scope, event);
        r := Ok(None);
      } else {
        AppendFailed(before, others, scope, event);
        r := Err(reply.error);
      }
    }

    // -------------------------------------------------------------- finishing

    /** Finishes a run that is registered here, with the next number. */
    method FinishWith(finish: RunFinish, scope: Scope, entries: seq<EntryWrite>, build: int -> Event,
                      others: seq<Step>) returns (r: Result<FinishResult>)
      requires Valid()
      modifies this`store, registry
      ensures Valid()
      ensures FinishOutcome(old(State()), others, finish, scope, entries, build, State(), r)
    {
      ghost var before := State();
      hide StoreInv.Valid, SendersOk, FinishOutcome, FinishWritten;
      if !finish.status.IsTerminal() {
        FinishStops(before, others, finish, scope, entries, build, Err(InvalidRunEvent));
        return Err(InvalidRunEvent);
      }
      if !Known(finish.run, scope) {
        FinishStops(before, others, finish, scope, entries, build, Err(RunNotFound));
        return Err(RunNotFound);
      }
      var n := registry.NextSeq(finish.run);
      if n.None? {
        var event := store.runs[finish.run].terminalEvent;
        r := if event.Some? then Ok(AlreadyFinished(event.value)) else Err(RunNotFound);
        FinishStops(before, others, finish, scope, entries, build, r);
        return;
      }
      var event := build(n.value);
      if !FinishFits(finish, event, n.value) {
        var done := registry.RewindSeq(finish.run, n.value);
        Rewound(before.reg, finish.run, 1);
        FinishStops(before, others, finish, scope, entries, build, Err(InvalidRunEvent));
        return Err(InvalidRunEvent);
      }
      var f := FinishRecord(finish.run, finish.session, scope, finish.status, finish.reason, event, entries);
      r := FinishStore(f, others, before.reg);
      FinishReaches(before, others, finish, scope, entries, build, f, State(), r);
    }

    method FinishStore(f: FinishRecord, others: seq<Step>, ghost reg: map<RunId, ActiveRun>)
      returns (r: Result<FinishResult>)
      requires Valid() && f.run in reg && registry.runs == Advanced(reg, f.run, 1) && KnownRun(store, f.run, f.scope)
      requires EventFor(f.terminalEvent, f.run, f.session) && f.terminalEvent.terminal && f.status.IsTerminal()
      modifies this`store, registry
      ensures Valid()
      ensures FinishWritten(old(State()).(reg := reg), others, f, State(), r)
    {
      ghost var before := State().(reg := reg);
      hide StoreInv.Valid, SendersOk, FinishWritten, Exec, StoreSpec.FinishRun, Heard, OthersSame, SameCounters;
      hide KnownRun;
      store := Exec(store, others, |others|);
      ghost var s1 := store;
      ExecValid(before.store, others, |others|);
      FinishKeeps(s1, f);
      var (next, reply) := StoreSpec.FinishRun(store, f);
      store := next;
      if reply.Ok? {
        PublishAll(f.run, [reply.value.event]);
        ghost var published := registry.runs;
        registry.Remove(f.run);
        FinishAnnounced(before, others, f, published, registry.channels);
      } else {
        FinishFailed(before, others, f);
      }
      return reply;
    }

    /** Finishes a run that nobody executes, with the number after its last event. */
    method FinishDetachedWith(finish: RunFinish, scope: Scope, entries: seq<EntryWrite>, build: int -> Event,
                              others: seq<Step>) returns (r: Result<FinishResult>)
      requires Valid()
      modifies this`store
      ensures Valid()
      ensures DetachedOutcome(old(State()), others, finish, scope, entries, build, State(), r)
    {
      ghost var before := State();
      hide StoreInv.Valid, SendersOk, DetachedOutcome, Exec, StoreSpec.FinishRun;
      if !finish.status.IsTerminal() {
        DetachedStops(before, others, finish, scope, entries, build, Err(InvalidRunEvent));
        return Err(InvalidRunEvent);
      }
      if !Known(finish.run, scope) {
        DetachedStops(before, others, finish, scope, entries, build, Err(RunNotFound));
        return Err(RunNotFound);
      }
      if finish.run in registry.runs {
        DetachedStops(before, others, finish, scope, entries, build, Err(RunAlreadyActive));
        return Err(RunAlreadyActive);
      }
      var last := store.runs[finish.run].terminalEvent;
      if last.Some? {
        DetachedStops(before, others, finish, scope, entries, build, Ok(AlreadyFinished(last.value)));
        return Ok(AlreadyFinished(last.value));
      }
      var n := LastNum(store.runs[finish.run].events) + 1;
      var event := build(n);
      if !FinishFits(finish, event, n) {
        DetachedStops(before, others, finish, scope, entries, build, Err(InvalidRunEvent));
        return Err(InvalidRunEvent);
      }
      var f := FinishRecord(finish.run, finish.session, scope, finish.status, finish.reason, event, entries);
      assert DetachedReach(before.reg, before.store, finish, scope, entries, build) == Writes(f);
      hide DetachedReach;
      DetachedFinishes(before, others, finish, scope, entries, build, f);
      store := Exec(store, others, |others|);
      ExecValid(before.store, others, |others|);
      FinishKeeps(store, f);
      var (next, reply) := StoreSpec.FinishRun(store, f);
      store := next;
      return reply;
    }

    // -------------------------------------------------------------- starting

    /** Looks for an earlier run, and registers the new one. */
    method BeginStart(run: RunStart, token: Value, listen: bool) returns (r: StartAttempt)
      requires Valid()
      modifies registry
      ensures Valid()
      ensures !r.Registered? ==> registry.runs == old(registry.runs) && registry.channels == old(registry.channels)
      ensures OthersSame(old(registry.runs), registry.runs, run.run)
      ensures r == if KnownRun(store, run.run, run.scope) then Answered(StartCheck(store.runs[run.run], run))
                   else if run.clientKey.Some? && Idempotent(store, HomeOf(run), run.clientKey.value).Some?
                   then Answered(StartCheck(Idempotent(store, HomeOf(run), run.clientKey.value).value, run))
                   else if run.run in old(registry.runs) then Refused(RunAlreadyActive)
                   else if |old(registry.runs)| >= maxInFlight then Refused(CapacityExceeded)
                   else Registered
      ensures r.Registered? ==>
                && run.run !in old(registry.runs) && |registry.runs| <= maxInFlight
                && registry.channels == old(registry.channels) + (if listen then [Channel(true, [])] else [])
                && registry.runs == old(registry.runs)[run.run := ActiveRun(token, false, 0, false,
                                                                            if listen then [|old(registry.channels)|]
                                                                            else [])]
      ensures forall q :: q != run.run || run.run !in store.runs ==>
                (Gapless(old(registry.runs), store, q) ==> Gapless(registry.runs, store, q))
                && (Ahead(old(registry.runs), store, q) ==> Ahead(registry.runs, store, q))
    {
      hide StoreInv.Valid;
      if Known(run.run, run.scope) {
        return Answered(StartCheck(store.runs[run.run], run));
      }
      if run.clientKey.Some? {
        var existing := Idempotent(store, HomeOf(run), run.clientKey.value);
        if existing.Some? {
          return Answered(StartCheck(existing.value, run));
        }
      }
      var inserted := registry.TryInsert(run.run, token, listen, maxInFlight);
      match inserted
      case Pass => return Registered;
      case Fail(e) => return Refused(e);
    }

    /** Stores the registered run; one that is not created is no longer registered. From here on
        the numbering of a created run is gapless. */
    method EndStart(run: RunStart, others: seq<Step>, now: int) returns (r: Result<StartResult>)
      requires Valid()
      modifies this`store, registry
      ensures Valid()
      ensures Keeps(old(registry.runs), old(store), others, registry.runs, store)
      ensures (store, r) == StoreSpec.StartRun(Exec(old(store), others, |others|), run, now)
      ensures r == Ok(Created) ==> run.run in store.runs && registry.runs == old(registry.runs)
      ensures r == Ok(Created) && run.run in registry.runs && registry.runs[run.run].currentSeq == 0 ==>
                Gapless(registry.runs, store, run.run)
      ensures r != Ok(Created) ==> registry.runs == old(registry.runs) - {run.run}
      ensures registry.channels == old(registry.channels)
    {
      ghost var reg, s0 := registry.runs, store;
      hide StoreInv.Valid, SendersOk, Keeps, Exec, StoreSpec.StartRun;
      store := Exec(store, others, |others|);
      ghost var s1 := store;
      ExecValid(s0, others, |others|);
      StartKeeps(store, run, now);
      var (next, reply) := StoreSpec.StartRun(store, run, now);
      store := next;
      if reply != Ok(Created) {
        registry.Remove(run.run);
      } else {
        CreatedEmpty(s1, run, now);
      }
      StartKeepsNumbers(reg, s0, others, s1, run, now, registry.runs);
      return reply;
    }
  }

  // ---------------------------------------------------------------- what a critical section keeps

  /** The numbering of every run survives: nothing is lost, and no number is skipped or repeated. */
  ghost predicate Keeps(reg: map<RunId, ActiveRun>, s: Store, others: seq<Step>, reg': map<RunId, ActiveRun>,
                        s': Store)
  {
    forall q :: (q in reg ==> Foreign(others, q)) ==>
      (Gapless(reg, s, q) ==> Gapless(reg', s', q)) && (Ahead(reg, s, q) ==> Ahead(reg', s', q))
  }

  /** The run's `count` new events are stored after the ones of `s`, under the numbers after the
      counter, which moves on to the last of them. */
  ghost predicate Records(reg: map<RunId, ActiveRun>, s: Store, reg': map<RunId, ActiveRun>, s': Store, run: RunId,
                          count: nat, events: seq<Event>)
  {
    && |events| == count
    && (run in reg ==> From(events, reg[run].currentSeq) && SameCounters(Advanced(reg, run, count), reg'))
    && (run !in reg ==> count == 0)
    && run in s.runs && run in s'.runs && s'.runs[run].events == s.runs[run].events + events
  }

  lemma OthersKeep(reg: map<RunId, ActiveRun>, s: Store, others: seq<Step>)
    ensures Keeps(reg, s, others, reg, Exec(s, others, |others|))
  {
    hide Exec, Gapless, Ahead;
    forall q | q in reg ==> Foreign(others, q)
      ensures Gapless(reg, s, q) ==> Gapless(reg, Exec(s, others, |others|), q)
      ensures Ahead(reg, s, q) ==> Ahead(reg, Exec(s, others, |others|), q)
    {
      ForeignKeeps(reg, s, others, q);
    }
  }

  lemma Rewound(reg: map<RunId, ActiveRun>, run: RunId, n: nat)
    ensures Advanced(Advanced(reg, run, n), run, 0 - n) == reg
  {
  }

  lemma FittingNumbers(run: RunId, session: SessionId, finish: Option<RunFinish>, events: seq<Event>, seqs: seq<int>)
    requires |events| == |seqs| && EventsFit(run, session, finish, events, seqs)
    ensures forall i :: 0 <= i < |seqs| ==> events[i].num == seqs[i]
    ensures forall i :: 0 <= i < |events| && events[i].terminal ==> i == |events| - 1
  {
  }

  /** One event that is not terminal, published to the subscribers of its run. */
  lemma PublishedOne(runs: map<RunId, ActiveRun>, channels: seq<Channel>, runs': map<RunId, ActiveRun>,
                     channels': seq<Channel>, run: RunId, event: Event)
    requires SendersOk(runs, channels)
    requires if Listening(runs, run)
             then channels' == Deliver(channels, runs[run].senders, event, |runs[run].senders|)
                  && runs' == runs[run := runs[run].(senders := StillOpen(channels, runs[run]))]
             else channels' == channels && runs' == runs
    ensures Heard(runs, channels, channels', run, [event]) && OthersSame(runs, runs', run) && SameCounters(runs, runs')
  {
    if Listening(runs, run) {
      var senders := runs[run].senders;
      assert senders[..|senders|] == senders;
      forall c | 0 <= c < |channels|
        ensures channels'[c].open == channels[c].open
                && channels'[c].queue == if c in senders && channels[c].open then channels[c].queue + [event]
                                         else channels[c].queue
      {
        DeliveredOnce(channels, senders, event, |senders|, c);
      }
    }
  }

  lemma NobodyHears(reg: map<RunId, ActiveRun>, channels: seq<Channel>, run: RunId)
    ensures Heard(reg, channels, channels, run, [])
  {
    assert forall c :: 0 <= c < |channels| ==> channels[c].queue + [] == channels[c].queue;
  }

  lemma SameOthers(reg: map<RunId, ActiveRun>, run: RunId)
    ensures OthersSame(reg, reg, run)
  {
  }

  /** Handing out numbers leaves the subscribers and the other runs alone. */
  lemma HeardSince(reg: map<RunId, ActiveRun>, run: RunId, n: nat, before: seq<Channel>, after: seq<Channel>,
                   now: map<RunId, ActiveRun>, events: seq<Event>)
    requires Heard(Advanced(reg, run, n), before, after, run, events) && OthersSame(Advanced(reg, run, n), now, run)
    ensures Heard(reg, before, after, run, events) && OthersSame(reg, now, run)
  {
    assert Listening(Advanced(reg, run, n), run) <==> Listening(reg, run);
    assert run in reg ==> Advanced(reg, run, n)[run].senders == reg[run].senders;
    hide Published;
  }

  lemma OthersAdvanced(reg: map<RunId, ActiveRun>, run: RunId, n: nat)
    ensures OthersSame(reg, Advanced(reg, run, n), run) && OthersSame(reg, Advanced(reg, run, n) - {run}, run)
  {
  }

  lemma RemovedOthers(reg: map<RunId, ActiveRun>, now: map<RunId, ActiveRun>, run: RunId)
    ensures OthersSame(reg, now, run) ==> OthersSame(reg, now - {run}, run)
  {
  }

  lemma OtherCounters(reg: map<RunId, ActiveRun>, now: map<RunId, ActiveRun>, run: RunId)
    requires OthersSame(reg, now, run) && run !in now
    ensures forall q :: q in now ==> q in reg && now[q].currentSeq == reg[q].currentSeq
  {
  }

  lemma StillKnown(s: Store, others: seq<Step>, run: RunId, scope: Scope)
    requires StoreInv.Valid(s) && KnownRun(s, run, scope)
    ensures KnownRun(Exec(s, others, |others|), run, scope)
    ensures run in Exec(s, others, |others|).runs && Exec(s, others, |others|).runs[run].start.scope == scope
  {
    StartStays(s, others, run);
    hide Exec, StoreInv.Valid;
  }

  // ---------------------------------------------------------------- the outcomes of calls

  /** A call that does not reach the store changes and loses nothing. */
  lemma NothingDone(p: Process, others: seq<Step>, run: RunId)
    ensures Keeps(p.reg, p.store, others, p.reg, p.store) && KeepsAhead(p.reg, p.store, others, p.reg, p.store)
    ensures OthersSame(p.reg, p.reg, run) && !NumberLost(p.reg, p.reg, run)
    ensures Heard(p.reg, p.channels, p.channels, run, [])
  {
    NothingLost(p.reg, run);
    NobodyHears(p.reg, p.channels, run);
  }

  lemma CommitStops(p: Process, others: seq<Step>, run: RunId, session: SessionId, scope: Scope, plan: CommitPlan,
                    build: (nat, int) -> Event, now: int, r: Result<CommitResult>)
    requires CommitReach(p.reg, p.store, run, session, scope, plan, build) == Replies(r)
    ensures CommitOutcome(p, others, run, session, scope, plan, build, now, p, r)
  {
    NothingDone(p, others, run);
    hide Keeps, OthersSame, Exec, CommitWritten, EventsFit;
  }

  lemma CommitReaches(p: Process, others: seq<Step>, run: RunId, session: SessionId, scope: Scope, plan: CommitPlan,
                      build: (nat, int) -> Event, now: int, c: Commit, p': Process, r: Result<CommitResult>)
    requires CommitReach(p.reg, p.store, run, session, scope, plan, build) == Writes(c)
    requires CommitWritten(p, others, c, now, p', r)
    ensures CommitOutcome(p, others, run, session, scope, plan, build, now, p', r)
  {
    assert c.run == run && |c.events| == plan.eventCount;
    hide Keeps, OthersSame, Exec, Heard, Records, CommitRun, CommitReach;
  }

  /** The commit's events have the numbers after the counter. */
  ghost predicate NumberedAfter(reg: map<RunId, ActiveRun>, c: Commit) {
    if c.run in reg then From(c.events, reg[c.run].currentSeq) else c.events == []
  }

  lemma CommitRejected(p: Process, others: seq<Step>, c: Commit, now: int)
    requires CommitRun(Exec(p.store, others, |others|), c, now).1.Err?
    ensures var (next, r) := CommitRun(Exec(p.store, others, |others|), c, now);
            next == Exec(p.store, others, |others|) && CommitWritten(p, others, c, now, p.(store := next), r)
  {
    NothingDone(p, others, c.run);
    OthersKeep(p.reg, p.store, others);
    RejectedUnchanged(Exec(p.store, others, |others|), c, now);
    hide Keeps, KeepsAhead, OthersSame, Exec, Heard, Records, CommitRun;
  }

  lemma CommitAnnounced(p: Process, others: seq<Step>, c: Commit, now: int, reg': map<RunId, ActiveRun>,
                        channels': seq<Channel>)
    requires NumberedAfter(p.reg, c)
    requires StoreInv.Valid(Exec(p.store, others, |others|))
    requires CommitRun(Exec(p.store, others, |others|), c, now).1.Ok?
    requires var reply := CommitRun(Exec(p.store, others, |others|), c, now).1.value;
             && OthersSame(Advanced(p.reg, c.run, |c.events|), reg', c.run)
             && Heard(Advanced(p.reg, c.run, |c.events|), p.channels, channels', c.run, Announced(reply))
             && (reply.Recorded? ==> SameCounters(Advanced(p.reg, c.run, |c.events|), reg'))
             && (!reply.Recorded? ==> c.run !in reg')
    ensures var (next, r) := CommitRun(Exec(p.store, others, |others|), c, now);
            CommitWritten(p, others, c, now, Process(reg', channels', next), r)
  {
    var s := Exec(p.store, others, |others|);
    var reply := CommitRun(s, c, now).1.value;
    HeardSince(p.reg, c.run, |c.events|, p.channels, channels', reg', Announced(reply));
    hide Keeps, OthersSame, Exec, Heard, Records, CommitRun, SameCounters, StoreInv.Valid;
    if reply.Recorded? {
      ReplyShape(s, c, now);
      CommitRecords(p.reg, p.store, others, s, c, now, reg');
    } else {
      OtherCounters(p.reg, reg', c.run);
      CommitRemoves(p.reg, p.store, others, s, c, now, reg');
    }
  }

  lemma AppendStops(p: Process, others: seq<Step>, run: RunId, scope: Scope, build: int -> Event,
                    r: Result<Option<Event>>)
    requires AppendReach(p.reg, p.store, run, scope, build) == Replies(r)
    ensures AppendOutcome(p, others, run, scope, build, p, r)
  {
    NothingDone(p, others, run);
    hide Keeps, KeepsAhead, OthersSame, Exec, AppendWritten, RefusesEvent, NumberLost;
  }

  lemma AppendReaches(p: Process, others: seq<Step>, run: RunId, scope: Scope, build: int -> Event, event: Event,
                      p': Process, r: Result<Option<Event>>)
    requires AppendReach(p.reg, p.store, run, scope, build) == Writes(event)
    requires AppendWritten(p, others, scope, event, p', r)
    ensures AppendOutcome(p, others, run, scope, build, p', r)
  {
    hide Keeps, KeepsAhead, OthersSame, Exec, RefusesEvent, Heard, Records, Appended;
  }

  lemma AppendPublished(p: Process, others: seq<Step>, scope: Scope, event: Event, reg': map<RunId, ActiveRun>,
                        channels': seq<Channel>)
    requires StoreInv.Valid(p.store) && KnownRun(p.store, event.run, scope) && !event.terminal
    requires event.run in p.reg && event.num == p.reg[event.run].currentSeq + 1
    requires SendersOk(Advanced(p.reg, event.run, 1), p.channels)
    requires RecordEvent(Exec(p.store, others, |others|), event.run, scope, event).1 == Ok(true)
    requires var reg := Advanced(p.reg, event.run, 1);
             if event.run in reg && !reg[event.run].terminalPublished
             then channels' == Deliver(p.channels, reg[event.run].senders, event, |reg[event.run].senders|)
                  && reg' == reg[event.run := reg[event.run].(senders := StillOpen(p.channels, reg[event.run]))]
             else channels' == p.channels && reg' == reg
    ensures var next := RecordEvent(Exec(p.store, others, |others|), event.run, scope, event).0;
            AppendWritten(p, others, scope, event, Process(reg', channels', next), Ok(Some(event)))
  {
    hide Keeps, KeepsAhead, OthersSame, Exec, RefusesEvent, Heard, Records, RecordEvent, StoreInv.Valid, SendersOk;
    var s := Exec(p.store, others, |others|);
    StillKnown(p.store, others, event.run, scope);
    RecordRefusedExactly(s, scope, event);
    PublishedOne(Advanced(p.reg, event.run, 1), p.channels, reg', channels', event.run, event);
    HeardSince(p.reg, event.run, 1, p.channels, channels', reg', [event]);
    AppendRecords(p.reg, p.store, others, s, scope, event, reg');
  }

  lemma AppendOver(p: Process, others: seq<Step>, scope: Scope, event: Event)
    requires StoreInv.Valid(p.store) && KnownRun(p.store, event.run, scope) && !event.terminal
    requires var reply := RecordEvent(Exec(p.store, others, |others|), event.run, scope, event).1;
             reply.Ok? && !reply.value
    ensures var next := RecordEvent(Exec(p.store, others, |others|), event.run, scope, event).0;
            AppendWritten(p, others, scope, event,
                          Process(Advanced(p.reg, event.run, 1) - {event.run}, p.channels, next), Ok(None))
  {
    hide Keeps, KeepsAhead, OthersSame, Exec, RefusesEvent, Heard, Records, RecordEvent, StoreInv.Valid;
    var s := Exec(p.store, others, |others|);
    StillKnown(p.store, others, event.run, scope);
    RecordRefusedExactly(s, scope, event);
    NothingDone(p, others, event.run);
    OthersAdvanced(p.reg, event.run, 1);
    AppendRemoves(p.reg, p.store, others, s, event.run, scope, event, Advanced(p.reg, event.run, 1) - {event.run});
  }

  lemma AppendFailed(p: Process, others: seq<Step>, scope: Scope, event: Event)
    requires StoreInv.Valid(p.store) && KnownRun(p.store, event.run, scope) && !event.terminal
    requires RecordEvent(Exec(p.store, others, |others|), event.run, scope, event).1.Err?
    ensures var (next, reply) := RecordEvent(Exec(p.store, others, |others|), event.run, scope, event);
            AppendWritten(p, others, scope, event, Process(Advanced(p.reg, event.run, 1), p.channels, next),
                          Err(reply.error))
  {
    hide Keeps, KeepsAhead, OthersSame, Exec, RefusesEvent, Heard, Records, RecordEvent, StoreInv.Valid;
    var s := Exec(p.store, others, |others|);
    StillKnown(p.store, others, event.run, scope);
    RecordRefusedExactly(s, scope, event);
    NothingDone(p, others, event.run);
    OthersAdvanced(p.reg, event.run, 1);
    OthersKeep(p.reg, p.store, others);
    LostKeepsAhead(p.reg, p.store, others, event.run);
    AppendRefused(s, event.run, scope, event);
  }

  lemma FinishStops(p: Process, others: seq<Step>, finish: RunFinish, scope: Scope, entries: seq<EntryWrite>,
                    build: int -> Event, r: Result<FinishResult>)
    requires FinishReach(p.reg, p.store, finish, scope, entries, build) == Replies(r)
    ensures FinishOutcome(p, others, finish, scope, entries, build, p, r)
  {
    NothingDone(p, others, finish.run);
    hide Keeps, KeepsAhead, OthersSame, Exec, FinishWritten, RefusesFinish, NumberLost;
  }

  lemma FinishReaches(p: Process, others: seq<Step>, finish: RunFinish, scope: Scope, entries: seq<EntryWrite>,
                      build: int -> Event, f: FinishRecord, p': Process, r: Result<FinishResult>)
    requires FinishReach(p.reg, p.store, finish, scope, entries, build) == Writes(f)
    requires FinishWritten(p, others, f, p', r)
    ensures FinishOutcome(p, others, finish, scope, entries, build, p', r)
  {
    hide Keeps, KeepsAhead, OthersSame, Exec, RefusesFinish, Heard, FinishRun;
  }

  lemma DetachedStops(p: Process, others: seq<Step>, finish: RunFinish, scope: Scope, entries: seq<EntryWrite>,
                      build: int -> Event, r: Result<FinishResult>)
    requires DetachedReach(p.reg, p.store, finish, scope, entries, build) == Replies(r)
    ensures DetachedOutcome(p, others, finish, scope, entries, build, p, r)
  {
    NothingDone(p, others, finish.run);
    hide Keeps, KeepsAhead, Exec;
  }

  lemma DetachedFinishes(p: Process, others: seq<Step>, finish: RunFinish, scope: Scope, entries: seq<EntryWrite>,
                         build: int -> Event, f: FinishRecord)
    requires DetachedReach(p.reg, p.store, finish, scope, entries, build) == Writes(f)
    ensures var (next, r) := FinishRun(Exec(p.store, others, |others|), f);
            DetachedOutcome(p, others, finish, scope, entries, build, p.(store := next), r)
  {
    hide Keeps, KeepsAhead, Exec, FinishRun, Foreign;
    var s := Exec(p.store, others, |others|);
    FinishReply(s, f);
    FinishRemoves(p.reg, p.store, others, s, f, p.reg);
    DetachedLog(p.store, others, s, f);
  }

  lemma FinishUnchanged(s: Store, f: FinishRecord)
    requires FinishRun(s, f).1.Err?
    ensures FinishRun(s, f).0 == s
  {
    hide EntriesOk, Increases, ApplyEntries;
  }

  lemma FinishAnnounced(p: Process, others: seq<Step>, f: FinishRecord, published: map<RunId, ActiveRun>,
                        channels': seq<Channel>)
    requires StoreInv.Valid(p.store) && KnownRun(p.store, f.run, f.scope)
    requires EventFor(f.terminalEvent, f.run, f.session) && f.terminalEvent.terminal && f.status.IsTerminal()
    requires FinishRun(Exec(p.store, others, |others|), f).1.Ok?
    requires OthersSame(Advanced(p.reg, f.run, 1), published, f.run)
    requires Heard(Advanced(p.reg, f.run, 1), p.channels, channels', f.run,
                   [FinishRun(Exec(p.store, others, |others|), f).1.value.event])
    ensures var (next, r) := FinishRun(Exec(p.store, others, |others|), f);
            FinishWritten(p, others, f, Process(published - {f.run}, channels', next), r)
  {
    hide Keeps, KeepsAhead, OthersSame, Exec, RefusesFinish, Heard, FinishRun, StoreInv.Valid;
    var s := Exec(p.store, others, |others|);
    StillKnown(p.store, others, f.run, f.scope);
    ExecValid(p.store, others, |others|);
    FinishRefusedExactly(s, f);
    FinishReply(s, f);
    HeardSince(p.reg, f.run, 1, p.channels, channels', published, [FinishRun(s, f).1.value.event]);
    RemovedOthers(p.reg, published, f.run);
    OtherCounters(p.reg, published - {f.run}, f.run);
    FinishRemoves(p.reg, p.store, others, s, f, published - {f.run});
  }

  lemma FinishFailed(p: Process, others: seq<Step>, f: FinishRecord)
    requires StoreInv.Valid(p.store) && KnownRun(p.store, f.run, f.scope)
    requires EventFor(f.terminalEvent, f.run, f.session) && f.terminalEvent.terminal && f.status.IsTerminal()
    requires FinishRun(Exec(p.store, others, |others|), f).1.Err?
    ensures var (next, r) := FinishRun(Exec(p.store, others, |others|), f);
            FinishWritten(p, others, f, Process(Advanced(p.reg, f.run, 1), p.channels, next), r)
  {
    hide Keeps, KeepsAhead, OthersSame, Exec, RefusesFinish, Heard, FinishRun, StoreInv.Valid;
    var s := Exec(p.store, others, |others|);
    StillKnown(p.store, others, f.run, f.scope);
    ExecValid(p.store, others, |others|);
    FinishRefusedExactly(s, f);
    FinishUnchanged(s, f);
    NothingDone(p, others, f.run);
    OthersAdvanced(p.reg, f.run, 1);
    OthersKeep(p.reg, p.store, others);
    LostKeepsAhead(p.reg, p.store, others, f.run);
  }

  lemma RejectedUnchanged(s: Store, c: Commit, now: int)
    requires CommitRun(s, c, now).1.Err?
    ensures CommitRun(s, c, now).0 == s
  {
  }

  lemma ReplyShape(s: Store, c: Commit, now: int)
    requires CommitRun(s, c, now).1.Ok? && StoreInv.Valid(s)
    ensures var reply := CommitRun(s, c, now).1.value;
            && (reply.Recorded? ==> reply.events == c.events && c.finish.None?)
            && (reply.CommitFinished? ==>
                  forall i :: 0 <= i < |reply.events| && reply.events[i].terminal ==> i == |reply.events| - 1)
    ensures (forall i :: 0 <= i < |c.events| && c.events[i].terminal ==> i == |c.events| - 1) ==>
              OnlyLastTerminal(Announced(CommitRun(s, c, now).1.value))
  {
    hide StoreInv.Valid, CheckLease, CheckThread, CheckEffects, ItemsOk, EntriesOk, Increases;
  }

  lemma OtherRunsKept(reg: map<RunId, ActiveRun>, s: Store, c: Commit, now: int, reg': map<RunId, ActiveRun>, q: RunId)
    requires q != c.run && (q in reg' ==> q in reg && reg'[q].currentSeq == reg[q].currentSeq)
    ensures Gapless(reg, s, q) ==> Gapless(reg', CommitRun(s, c, now).0, q)
    ensures Ahead(reg, s, q) ==> Ahead(reg', CommitRun(s, c, now).0, q)
  {
    ForeignCommit(s, c, now, q);
    hide CommitRun;
  }

  lemma CommitRecords(reg: map<RunId, ActiveRun>, s0: Store, others: seq<Step>, s: Store, c: Commit, now: int,
                      reg': map<RunId, ActiveRun>)
    requires s == Exec(s0, others, |others|) && SameCounters(Advanced(reg, c.run, |c.events|), reg')
    requires CommitRun(s, c, now).1.Ok? && CommitRun(s, c, now).1.value.Recorded?
    requires if c.run in reg then From(c.events, reg[c.run].currentSeq) else c.events == []
    ensures Keeps(reg, s0, others, reg', CommitRun(s, c, now).0)
    ensures Records(reg, s, reg', CommitRun(s, c, now).0, c.run, |c.events|, c.events)
  {
    hide Exec, CommitRun, Gapless, Ahead;
    forall q | q in reg ==> Foreign(others, q)
      ensures Gapless(reg, s0, q) ==> Gapless(reg', CommitRun(s, c, now).0, q)
      ensures Ahead(reg, s0, q) ==> Ahead(reg', CommitRun(s, c, now).0, q)
    {
      ForeignKeeps(reg, s0, others, q);
      if q != c.run {
        OtherRunsKept(reg, s, c, now, reg', q);
      } else if q in reg {
        CommitNumbered(reg, s, c, now);
        SameCounter(Advanced(reg, q, |c.events|), reg', CommitRun(s, c, now).0, q);
      } else {
        NotRegistered(reg', CommitRun(s, c, now).0, q);
      }
    }
    RecordedLog(s, c, now);
  }

  ghost predicate KeepsAhead(reg: map<RunId, ActiveRun>, s: Store, others: seq<Step>, reg': map<RunId, ActiveRun>,
                             s': Store)
  {
    forall q :: (q in reg ==> Foreign(others, q)) && Ahead(reg, s, q) ==> Ahead(reg', s', q)
  }

  /** One number was handed out for good. */
  ghost predicate NumberLost(reg: map<RunId, ActiveRun>, reg': map<RunId, ActiveRun>, run: RunId) {
    run in reg && reg' == Advanced(reg, run, 1)
  }

  /** A lost number breaks the gapless numbering of a running run; the counter stays ahead. */
  lemma LostNumberIsAGap(reg: map<RunId, ActiveRun>, s: Store, run: RunId)
    requires run in reg && run in s.runs && s.runs[run].status == Running && Gapless(reg, s, run)
    ensures !Gapless(Advanced(reg, run, 1), s, run) && Ahead(Advanced(reg, run, 1), s, run)
  {
  }

  lemma NothingLost(reg: map<RunId, ActiveRun>, run: RunId)
    ensures !NumberLost(reg, reg, run) && !NumberLost(reg, reg - {run}, run)
  {
    if run in reg {
      assert Advanced(reg, run, 1)[run].currentSeq != reg[run].currentSeq;
    }
  }

  lemma LostKeepsAhead(reg: map<RunId, ActiveRun>, s: Store, others: seq<Step>, run: RunId)
    requires Keeps(reg, s, others, reg, Exec(s, others, |others|))
    ensures KeepsAhead(reg, s, others, Advanced(reg, run, 1), Exec(s, others, |others|))
  {
    hide Exec;
  }

  lemma AppendRefused(s: Store, run: RunId, scope: Scope, event: Event)
    requires RecordEvent(s, run, scope, event).1 != Ok(true)
    ensures RecordEvent(s, run, scope, event).0 == s
  {
    hide Increases;
  }

  lemma AppendRecords(reg: map<RunId, ActiveRun>, s0: Store, others: seq<Step>, s: Store, scope: Scope, event: Event,
                      reg': map<RunId, ActiveRun>)
    requires s == Exec(s0, others, |others|) && RecordEvent(s, event.run, scope, event).1 == Ok(true)
    requires event.run in reg && event.num == reg[event.run].currentSeq + 1
    requires SameCounters(Advanced(reg, event.run, 1), reg')
    ensures Keeps(reg, s0, others, reg', RecordEvent(s, event.run, scope, event).0)
    ensures KeepsAhead(reg, s0, others, reg', RecordEvent(s, event.run, scope, event).0)
    ensures Records(reg, s, reg', RecordEvent(s, event.run, scope, event).0, event.run, 1, [event])
  {
    var run := event.run;
    var next := RecordEvent(s, run, scope, event).0;
    assert next.runs == s.runs[run := s.runs[run].(events := s.runs[run].events + [event])]
           && s.runs[run].status == Running;
    hide Exec, RecordEvent;
    forall q | q in reg ==> Foreign(others, q)
      ensures Gapless(reg, s0, q) ==> Gapless(reg', next, q)
      ensures Ahead(reg, s0, q) ==> Ahead(reg', next, q)
    {
      ForeignKeeps(reg, s0, others, q);
    }
  }

  lemma AppendRemoves(reg: map<RunId, ActiveRun>, s0: Store, others: seq<Step>, s: Store, run: RunId, scope: Scope,
                      event: Event, reg': map<RunId, ActiveRun>)
    requires s == Exec(s0, others, |others|) && RecordEvent(s, run, scope, event).1 != Ok(true)
    requires reg' == Advanced(reg, run, 1) - {run}
    ensures Keeps(reg, s0, others, reg', RecordEvent(s, run, scope, event).0)
    ensures KeepsAhead(reg, s0, others, reg', RecordEvent(s, run, scope, event).0)
  {
    AppendRefused(s, run, scope, event);
    hide Exec, RecordEvent;
    forall q | q in reg ==> Foreign(others, q)
      ensures Gapless(reg, s0, q) ==> Gapless(reg', s, q)
      ensures Ahead(reg, s0, q) ==> Ahead(reg', s, q)
    {
      ForeignKeeps(reg, s0, others, q);
    }
  }

  /** A run that answers a finish is terminal, and a finish that takes place is its last event. */
  lemma FinishReply(s: Store, f: FinishRecord)
    ensures var (next, reply) := FinishRun(s, f);
            && (reply.Ok? ==> f.run in s.runs && f.run in next.runs && next.runs[f.run].status.IsTerminal())
            && (reply.Err? ==> next == s)
            && (reply.Ok? && reply.value.Finished? ==>
                  && reply.value.event == f.terminalEvent && next.runs[f.run].terminalEvent == Some(f.terminalEvent)
                  && s.runs[f.run].status == Running
                  && next.runs[f.run].events == s.runs[f.run].events + [f.terminalEvent])
  {
    hide EntriesOk, Increases, ApplyEntries;
  }

  lemma FinishRemoves(reg: map<RunId, ActiveRun>, s0: Store, others: seq<Step>, s: Store, f: FinishRecord,
                      reg': map<RunId, ActiveRun>)
    requires s == Exec(s0, others, |others|) && f.run !in reg'
    requires forall q :: q in reg' ==> q in reg && reg'[q].currentSeq == reg[q].currentSeq
    ensures Keeps(reg, s0, others, reg', FinishRun(s, f).0)
    ensures KeepsAhead(reg, s0, others, reg', FinishRun(s, f).0)
  {
    hide Exec, FinishRun;
    forall q | q in reg ==> Foreign(others, q)
      ensures Gapless(reg, s0, q) ==> Gapless(reg', FinishRun(s, f).0, q)
      ensures Ahead(reg, s0, q) ==> Ahead(reg', FinishRun(s, f).0, q)
    {
      ForeignKeeps(reg, s0, others, q);
      if q != f.run {
        ForeignFinish(s, f, q);
      }
    }
  }

  lemma DetachedLog(s0: Store, others: seq<Step>, s: Store, f: FinishRecord)
    requires s == Exec(s0, others, |others|) && f.run in s0.runs
    ensures Foreign(others, f.run) && FinishRun(s, f).1.Ok? && FinishRun(s, f).1.value.Finished? ==>
              f.run in FinishRun(s, f).0.runs
              && FinishRun(s, f).0.runs[f.run].events == s0.runs[f.run].events + [f.terminalEvent]
  {
    FinishReply(s, f);
    hide FinishRun, Exec;
    if Foreign(others, f.run) {
      ForeignSteps(s0, others, f.run, |others|);
    }
  }

  lemma CreatedEmpty(s: Store, run: RunStart, now: int)
    requires StartRun(s, run, now).1 == Ok(Created)
    ensures run.run in StartRun(s, run, now).0.runs && StartRun(s, run, now).0.runs[run.run].events == []
  {
    hide Busy, EntriesOk, ApplyEntries, Idempotent;
  }

  lemma StartKeepsNumbers(reg: map<RunId, ActiveRun>, s0: Store, others: seq<Step>, s: Store, run: RunStart,
                          now: int, reg': map<RunId, ActiveRun>)
    requires s == Exec(s0, others, |others|)
    requires forall q :: q in reg' ==> q in reg && reg'[q].currentSeq == reg[q].currentSeq
    ensures Keeps(reg, s0, others, reg', StartRun(s, run, now).0)
  {
    hide Exec, StartRun;
    forall q | q in reg ==> Foreign(others, q)
      ensures Gapless(reg, s0, q) ==> Gapless(reg', StartRun(s, run, now).0, q)
      ensures Ahead(reg, s0, q) ==> Ahead(reg', StartRun(s, run, now).0, q)
    {
      ForeignKeeps(reg, s0, others, q);
      ForeignStart(s, run, now, q);
    }
  }

  /** While the counter is not behind, what the store answers to an appended event: the run is over,
      or leased, or of another session, or the event is recorded. */
  lemma AppendAnswer(reg: map<RunId, ActiveRun>, s: Store, event: Event)
    requires Ahead(reg, s, event.run) && event.run in reg && event.num == reg[event.run].currentSeq + 1
    requires event.run in s.runs && !event.terminal
    ensures var run := s.runs[event.run];
            RecordEvent(s, event.run, run.start.scope, event).1
            == if run.status.IsTerminal() then Ok(false) else if run.lease.Some? then Err(LeaseLost)
               else if event.session != run.start.session then Err(InvalidRunEvent) else Ok(true)
  {
    if s.runs[event.run].status == Running {
      AheadIncreases(reg, s, event.run, [event]);
    }
  }

  lemma NotRegistered(reg: map<RunId, ActiveRun>, s: Store, q: RunId)
    requires q !in reg
    ensures Gapless(reg, s, q) && Ahead(reg, s, q)
  {
  }

  lemma SameCounter(a: map<RunId, ActiveRun>, b: map<RunId, ActiveRun>, s: Store, q: RunId)
    requires q in a && q in b && a[q].currentSeq == b[q].currentSeq
    ensures Gapless(a, s, q) ==> Gapless(b, s, q)
    ensures Ahead(a, s, q) ==> Ahead(b, s, q)
  {
  }

  lemma RecordedLog(s: Store, c: Commit, now: int)
    requires CommitRun(s, c, now).1.Ok? && CommitRun(s, c, now).1.value.Recorded?
    ensures c.run in s.runs && c.run in CommitRun(s, c, now).0.runs
            && CommitRun(s, c, now).0.runs[c.run].events == s.runs[c.run].events + c.events
  {
    assert PlanCommit(s, c, now) == Accept;
    AcceptedSound(s, c, now);
    hide PlanCommit, ApplyEntries, ApplyEffects, ApplyItems, CommitShapeOk, Increases;
  }

  lemma CommitRemoves(reg: map<RunId, ActiveRun>, s0: Store, others: seq<Step>, s: Store, c: Commit, now: int,
                      reg': map<RunId, ActiveRun>)
    requires s == Exec(s0, others, |others|) && c.run !in reg'
    requires forall q :: q in reg' ==> q in reg && reg'[q].currentSeq == reg[q].currentSeq
    ensures Keeps(reg, s0, others, reg', CommitRun(s, c, now).0)
  {
    hide Exec, CommitRun, Gapless, Ahead;
    forall q | q in reg ==> Foreign(others, q)
      ensures Gapless(reg, s0, q) ==> Gapless(reg', CommitRun(s, c, now).0, q)
      ensures Ahead(reg, s0, q) ==> Ahead(reg', CommitRun(s, c, now).0, q)
    {
      ForeignKeeps(reg, s0, others, q);
      if q != c.run {
        OtherRunsKept(reg, s, c, now, reg', q);
      } else {
        NotRegistered(reg', CommitRun(s, c, now).0, q);
      }
    }
  }

  /** The first `i` events went out. */
  ghost predicate Publishing(runs0: map<RunId, ActiveRun>, channels0: seq<Channel>, runs: map<RunId, ActiveRun>,
                             channels: seq<Channel>, run: RunId, events: seq<Event>, i: nat)
  {
    && i <= |events| && SendersOk(runs, channels) && SameCounters(runs0, runs) && OthersSame(runs0, runs, run)
    && (!Listening(runs0, run) ==> channels == channels0 && !Listening(runs, run))
    && (run in runs0 && !runs0[run].terminalPublished ==>
          && Published(channels0, channels, runs0[run].senders, events[..i])
          && (forall c :: 0 <= c < |channels| && channels[c].open ==>
                (c in runs[run].senders <==> c in runs0[run].senders))
          && (i < |events| ==> !runs[run].terminalPublished))
  }

  lemma PublishingValid(runs0: map<RunId, ActiveRun>, channels0: seq<Channel>, runs: map<RunId, ActiveRun>,
                        channels: seq<Channel>, run: RunId, events: seq<Event>, i: nat)
    requires Publishing(runs0, channels0, runs, channels, run, events, i)
    ensures SendersOk(runs, channels) && (run in runs <==> run in runs0)
    ensures run in runs0 && !runs0[run].terminalPublished && i < |events| ==> !runs[run].terminalPublished
  {
  }

  lemma PublishStep(runs0: map<RunId, ActiveRun>, channels0: seq<Channel>, runs: map<RunId, ActiveRun>,
                    channels: seq<Channel>, runs': map<RunId, ActiveRun>, channels': seq<Channel>, run: RunId,
                    events: seq<Event>, i: nat)
    requires i < |events| && Publishing(runs0, channels0, runs, channels, run, events, i)
    requires events[i].terminal ==> i == |events| - 1
    requires SendersOk(runs', channels')
    requires if run in runs && !runs[run].terminalPublished
             then channels' == Deliver(channels, runs[run].senders, events[i], |runs[run].senders|)
                  && runs' == runs[run := runs[run].(senders := StillOpen(channels, runs[run]),
                                                     terminalPublished := events[i].terminal)]
             else channels' == channels && runs' == runs
    ensures Publishing(runs0, channels0, runs', channels', run, events, i + 1)
  {
    if run in runs0 && !runs0[run].terminalPublished {
      var senders := runs[run].senders;
      assert events[..i + 1] == events[..i] + [events[i]];
      assert senders[..|senders|] == senders;
      forall c | 0 <= c < |channels|
        ensures channels'[c].queue == if c in senders && channels[c].open then channels[c].queue + [events[i]]
                                      else channels[c].queue
      {
        DeliveredOnce(channels, senders, events[i], |senders|, c);
      }
      PublishedOneMore(channels0, channels, channels', runs0[run].senders, senders, events, i);
    }
  }

  lemma PublishedOneMore(channels0: seq<Channel>, channels: seq<Channel>, channels': seq<Channel>,
                         senders0: seq<nat>, senders: seq<nat>, events: seq<Event>, i: nat)
    requires i < |events| && Published(channels0, channels, senders0, events[..i])
    requires forall c :: 0 <= c < |channels| && channels[c].open ==> (c in senders <==> c in senders0)
    requires |channels'| == |channels|
    requires forall c :: 0 <= c < |channels| ==>
               channels'[c].open == channels[c].open
               && channels'[c].queue == if c in senders && channels[c].open then channels[c].queue + [events[i]]
                                        else channels[c].queue
    ensures Published(channels0, channels', senders0, events[..i + 1])
  {
    assert events[..i + 1] == events[..i] + [events[i]];
    forall c | 0 <= c < |channels0|
      ensures channels'[c].queue == if c in senders0 && channels0[c].open then channels0[c].queue + events[..i + 1]
                                    else channels0[c].queue
    {
      assert channels0[c].queue + events[..i] + [events[i]] == channels0[c].queue + (events[..i] + [events[i]]);
    }
  }
}
