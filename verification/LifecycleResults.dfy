/**
 What a caller of the lifecycle gets: when the store takes a call's events, they are stored, the
 subscribers of the run hear them, and the counter stands at the last of them.
 */
module LifecycleResults {
  import opened Types
  import opened StoreSpec
  import opened StoreHistory
  import opened Registry
  import opened Lifecycle
  import StoreInv
  import R = StoreResults

  /** The events are what the caller builds for the numbers after the counter; they address the run,
      carry these numbers, and the last one is terminal exactly for a finish. */
  ghost predicate FittingEvents(p: Process, run: RunId, session: SessionId, plan: CommitPlan,
                                build: (nat, int) -> Event, events: seq<Event>)
    requires run in p.reg
  {
    && |events| == plan.eventCount && (plan.finish.Some? ==> |events| > 0)
    && forall i :: 0 <= i < |events| ==>
         && events[i] == build(i, p.reg[run].currentSeq + 1 + i)
         && events[i].run == run && events[i].session == session && events[i].num == p.reg[run].currentSeq + 1 + i
         && (events[i].terminal <==> plan.finish.Some? && i == |events| - 1)
  }

  function CommitOf(run: RunId, session: SessionId, scope: Scope, plan: CommitPlan, events: seq<Event>): Commit {
    Commit(run, session, scope, plan.lease, plan.checkpoint, events, plan.effects, plan.items, plan.entries, plan.finish)
  }

  lemma FittingReaches(p: Process, run: RunId, session: SessionId, scope: Scope, plan: CommitPlan,
                       build: (nat, int) -> Event, events: seq<Event>)
    requires run in p.reg && KnownRun(p.store, run, scope) && FittingEvents(p, run, session, plan, build, events)
    ensures CommitReach(p.reg, p.store, run, session, scope, plan, build)
            == Writes(CommitOf(run, session, scope, plan, events))
  {
    assert events == BuiltEvents(build, p.reg[run].currentSeq, plan.eventCount);
  }

  /** The subscribers of a registered run, whose terminal event was not out, got just these events. */
  ghost predicate Told(p: Process, p': Process, run: RunId, events: seq<Event>)
    requires run in p.reg
  {
    !p.reg[run].terminalPublished ==> Published(p.channels, p'.channels, p.reg[run].senders, events)
  }

  /** What the write of a commit says about the run's subscribers and its counter. */
  lemma WrittenTells(p: Process, others: seq<Step>, c: Commit, now: int, p': Process, r: Result<CommitResult>)
    requires CommitWritten(p, others, c, now, p', r) && c.run in p.reg
    ensures (p'.store, r) == CommitRun(Exec(p.store, others, |others|), c, now)
    ensures r.Ok? && r.value.Recorded? ==>
              && Told(p, p', c.run, r.value.events) && r.value.events == c.events
              && c.run in p'.reg && p'.reg[c.run].currentSeq == p.reg[c.run].currentSeq + |c.events|
    ensures r.Ok? && r.value.CommitFinished? ==> Told(p, p', c.run, r.value.events) && c.run !in p'.reg
    ensures r.Ok? && r.value.Skipped? ==> Told(p, p', c.run, []) && c.run !in p'.reg
  {
    hide Exec, CommitRun, Keeps, OthersSame, Published;
  }

  lemma ReachedIsWritten(p: Process, others: seq<Step>, run: RunId, session: SessionId, scope: Scope, plan: CommitPlan,
                         build: (nat, int) -> Event, now: int, c: Commit, p': Process, r: Result<CommitResult>)
    requires CommitOutcome(p, others, run, session, scope, plan, build, now, p', r)
    requires CommitReach(p.reg, p.store, run, session, scope, plan, build) == Writes(c)
    ensures CommitWritten(p, others, c, now, p', r)
  {
    hide Exec, CommitReach, CommitWritten, Keeps, OthersSame;
  }

  /** An acceptable commit is stored and its events reach the subscribers, a finishing one with its
      terminal event; the run then has its counter at the last number, or is no longer registered. */
  lemma CommitLands(p: Process, others: seq<Step>, run: RunId, session: SessionId, scope: Scope, plan: CommitPlan,
                    build: (nat, int) -> Event, events: seq<Event>, now: int, p': Process, r: Result<CommitResult>)
    requires StoreInv.Valid(p.store) && run in p.reg && KnownRun(p.store, run, scope)
    requires FittingEvents(p, run, session, plan, build, events)
    requires CommitOutcome(p, others, run, session, scope, plan, build, now, p', r)
    ensures var s, c := Exec(p.store, others, |others|), CommitOf(run, session, scope, plan, events);
            R.Acceptable(s, c, now) ==>
              && r == Ok(if plan.finish.None? then Recorded(events)
                         else CommitFinished(events, Finished(events[|events| - 1])))
              && R.CommitStored(s, c, p'.store) && Told(p, p', run, events)
              && if plan.finish.None?
                 then run in p'.reg && p'.reg[run].currentSeq == p.reg[run].currentSeq + |events|
                 else run !in p'.reg
  {
    var s, c := Exec(p.store, others, |others|), CommitOf(run, session, scope, plan, events);
    assert |events| == plan.eventCount;
    hide StoreInv.Valid, Exec, CommitRun, R.Acceptable, R.CommitStored, R.EffectsUpdated, CommitOutcome, CommitWritten;
    hide CommitReach, KnownRun, FittingEvents, Told;
    FittingReaches(p, run, session, scope, plan, build, events);
    ReachedIsWritten(p, others, run, session, scope, plan, build, now, c, p', r);
    WrittenTells(p, others, c, now, p', r);
    ExecValid(p.store, others, |others|);
    R.CommitStores(s, c, now);
  }

  /** A commit that finds its run over changes no run; one that should have ended it makes the terminal
      event known that the run has, and either way the run is no longer registered. */
  lemma CommitFindsOver(p: Process, others: seq<Step>, run: RunId, session: SessionId, scope: Scope, plan: CommitPlan,
                        build: (nat, int) -> Event, events: seq<Event>, now: int, p': Process,
                        r: Result<CommitResult>)
    requires StoreInv.Valid(p.store) && run in p.reg && KnownRun(p.store, run, scope)
    requires FittingEvents(p, run, session, plan, build, events) && PlanOk(run, session, plan)
    requires 0 <= p.reg[run].currentSeq
    requires CommitOutcome(p, others, run, session, scope, plan, build, now, p', r)
    requires var s := Exec(p.store, others, |others|);
             run in s.runs && s.runs[run].status != Running && s.runs[run].start.session == session
    ensures var s := Exec(p.store, others, |others|);
            var last := s.runs[run].terminalEvent;
            && p'.store == s && run !in p'.reg && last.Some?
            && (plan.finish.Some? ==>
                  r == Ok(CommitFinished([last.value], AlreadyFinished(last.value))) && Told(p, p', run, [last.value]))
            && (plan.finish.None? ==> r == Ok(Skipped) && Told(p, p', run, []))
  {
    var s, c := Exec(p.store, others, |others|), CommitOf(run, session, scope, plan, events);
    hide StoreInv.Valid, Exec, CommitRun, R.CommitStored, R.EffectsUpdated, CommitOutcome, CommitWritten;
    hide CommitReach, KnownRun, FittingEvents, Told, CommitShapeOk, CommitEmpty, R.Reportable, PlanOk;
    FittingShape(p, run, session, scope, plan, build, events);
    FittingReaches(p, run, session, scope, plan, build, events);
    ReachedIsWritten(p, others, run, session, scope, plan, build, now, c, p', r);
    WrittenTells(p, others, c, now, p', r);
    ExecValid(p.store, others, |others|);
    StillKnown(p.store, others, run, scope);
    assert !R.Acceptable(s, c, now);
    hide R.Acceptable;
    R.CommitPassesOver(s, c, now);
    R.CommitStores(s, c, now);
  }

  lemma FittingShape(p: Process, run: RunId, session: SessionId, scope: Scope, plan: CommitPlan,
                     build: (nat, int) -> Event, events: seq<Event>)
    requires run in p.reg && FittingEvents(p, run, session, plan, build, events) && PlanOk(run, session, plan)
    requires 0 <= p.reg[run].currentSeq
    ensures var c := CommitOf(run, session, scope, plan, events);
            !CommitEmpty(c) && CommitShapeOk(c)
  {
  }

  /** A commit is answered without the store when its run is not known, or not registered although it
      has events. */
  lemma CommitAnswers(p: Process, others: seq<Step>, run: RunId, session: SessionId, scope: Scope, plan: CommitPlan,
                      build: (nat, int) -> Event, now: int, p': Process, r: Result<CommitResult>)
    requires CommitOutcome(p, others, run, session, scope, plan, build, now, p', r)
    ensures !KnownRun(p.store, run, scope) ==> p' == p && r == Err(RunNotFound)
    ensures KnownRun(p.store, run, scope) && run !in p.reg && plan.eventCount > 0 ==>
              var last := p.store.runs[run].terminalEvent;
              && p' == p
              && r == if plan.finish.Some? && last.Some?
                      then Ok(CommitFinished([last.value], AlreadyFinished(last.value))) else Err(RunNotFound)
  {
    hide Keeps, OthersSame, CommitWritten, Exec;
  }

  /** The `i`-th event that the caller builds addresses another run or session, or has not the number it
      was built for, or is terminal out of place. */
  predicate Misbuilt(p: Process, run: RunId, session: SessionId, plan: CommitPlan, build: (nat, int) -> Event, i: nat)
    requires run in p.reg
  {
    var n := p.reg[run].currentSeq + 1 + i;
    var e := build(i, n);
    || e.run != run || e.session != session || e.num != n
    || (e.terminal && (plan.finish.None? || i < plan.eventCount - 1))
    || (!e.terminal && plan.finish.Some? && i == plan.eventCount - 1)
  }

  lemma MisbuiltStops(p: Process, run: RunId, session: SessionId, scope: Scope, plan: CommitPlan,
                      build: (nat, int) -> Event, i: nat)
    requires KnownRun(p.store, run, scope) && run in p.reg
    requires i < plan.eventCount && Misbuilt(p, run, session, plan, build, i)
    ensures CommitReach(p.reg, p.store, run, session, scope, plan, build) == Replies(Err(InvalidRunEvent))
  {
    var events := BuiltEvents(build, p.reg[run].currentSeq, plan.eventCount);
    assert events[i] == build(i, p.reg[run].currentSeq + 1 + i);
  }

  lemma CommitMisbuilt(p: Process, others: seq<Step>, run: RunId, session: SessionId, scope: Scope, plan: CommitPlan,
                       build: (nat, int) -> Event, now: int, i: nat, p': Process, r: Result<CommitResult>)
    requires CommitOutcome(p, others, run, session, scope, plan, build, now, p', r)
    requires KnownRun(p.store, run, scope) && run in p.reg
    requires i < plan.eventCount && Misbuilt(p, run, session, plan, build, i)
    ensures p' == p && r == Err(InvalidRunEvent)
  {
    hide Keeps, OthersSame, CommitWritten, Exec, CommitReach, Misbuilt;
    MisbuiltStops(p, run, session, scope, plan, build, i);
  }

  // ---------------------------------------------------------------- single events

  /** An event that the store takes is stored and heard, and the counter stands at its number; a run
      that is over takes nothing and is no longer registered; a refusal takes the number with it. */
  lemma AppendLands(p: Process, others: seq<Step>, run: RunId, scope: Scope, build: int -> Event, p': Process,
                    r: Result<Option<Event>>)
    requires StoreInv.Valid(p.store) && run in p.reg && KnownRun(p.store, run, scope)
    requires var e := build(p.reg[run].currentSeq + 1);
             e.run == run && e.num == p.reg[run].currentSeq + 1 && !e.terminal
    requires AppendOutcome(p, others, run, scope, build, p', r)
    ensures var s := Exec(p.store, others, |others|);
            var e := build(p.reg[run].currentSeq + 1);
            && run in s.runs
            && var was := s.runs[run];
            if was.status != Running then
              r == Ok(None) && p'.store == s && run !in p'.reg && Told(p, p', run, [])
            else if was.lease.None? && e.session == was.start.session && Increases(was.events, [e]) then
              && r == Ok(Some(e)) && p'.store == s.(runs := s.runs[run := was.(events := was.events + [e])])
              && run in p'.reg && p'.reg[run].currentSeq == e.num && Told(p, p', run, [e])
            else
              && r == Err(if was.lease.Some? then LeaseLost else InvalidRunEvent) && p'.store == s
              && run in p'.reg && p'.reg[run].currentSeq == e.num && Told(p, p', run, [])
  {
    hide StoreInv.Valid, Exec, Keeps, KeepsAhead, OthersSame, Increases, AppendOutcome, AppendWritten, Told;
    hide NumberLost;
    var s, e := Exec(p.store, others, |others|), build(p.reg[run].currentSeq + 1);
    StillKnown(p.store, others, run, scope);
    AppendedTells(p, others, run, scope, build, p', r);
  }

  lemma AppendedTells(p: Process, others: seq<Step>, run: RunId, scope: Scope, build: int -> Event, p': Process,
                      r: Result<Option<Event>>)
    requires run in p.reg && KnownRun(p.store, run, scope)
    requires var e := build(p.reg[run].currentSeq + 1);
             e.run == run && e.num == p.reg[run].currentSeq + 1 && !e.terminal
    requires AppendOutcome(p, others, run, scope, build, p', r)
    ensures var s, e := Exec(p.store, others, |others|), build(p.reg[run].currentSeq + 1);
            && (p'.store, r) == Appended(s, run, scope, e)
            && (r.Ok? && r.value.Some? ==> Told(p, p', run, [e]) && SameCounters(Advanced(p.reg, run, 1), p'.reg))
            && (r.Ok? && r.value.None? ==> Told(p, p', run, []) && run !in p'.reg)
            && (r.Err? ==> Told(p, p', run, []) && p'.reg == Advanced(p.reg, run, 1))
  {
    hide Exec, Keeps, KeepsAhead, OthersSame, Published, Appended, AppendLoses, RefusesEvent, NumberLost;
  }

  lemma AppendAnswers(p: Process, others: seq<Step>, run: RunId, scope: Scope, build: int -> Event, p': Process,
                      r: Result<Option<Event>>)
    requires AppendOutcome(p, others, run, scope, build, p', r)
    ensures !KnownRun(p.store, run, scope) || run !in p.reg ==> p' == p && r == Err(RunNotFound)
    ensures KnownRun(p.store, run, scope) && run in p.reg
            && (var e := build(p.reg[run].currentSeq + 1);
                e.run != run || e.num != p.reg[run].currentSeq + 1 || e.terminal) ==>
              p' == p && r == Err(InvalidRunEvent)
  {
    hide Keeps, KeepsAhead, OthersSame, AppendWritten, Exec, AppendLoses, NumberLost;
  }

  function FinishOf(finish: RunFinish, scope: Scope, entries: seq<EntryWrite>, event: Event): FinishRecord {
    FinishRecord(finish.run, finish.session, scope, finish.status, finish.reason, event, entries)
  }

  /** A finish that can take place does, with the next number, and its event is heard; one that finds
      the run over makes the event known that ended it. The run is then no longer registered. */
  lemma FinishLands(p: Process, others: seq<Step>, finish: RunFinish, scope: Scope, entries: seq<EntryWrite>,
                    build: int -> Event, p': Process, r: Result<FinishResult>)
    requires StoreInv.Valid(p.store) && finish.run in p.reg && KnownRun(p.store, finish.run, scope)
    requires finish.status != Running
    requires var e := build(p.reg[finish.run].currentSeq + 1);
             && e.run == finish.run && e.session == finish.session && e.num == p.reg[finish.run].currentSeq + 1
             && e.terminal
    requires FinishOutcome(p, others, finish, scope, entries, build, p', r)
    ensures var s := Exec(p.store, others, |others|);
            var f := FinishOf(finish, scope, entries, build(p.reg[finish.run].currentSeq + 1));
            && finish.run in s.runs
            && var was := s.runs[finish.run];
            && (R.Finishable(s, f) ==>
                  r == Ok(Finished(f.terminalEvent)) && R.FinishStored(s, f, p'.store)
                  && Told(p, p', f.run, [f.terminalEvent]))
            && (was.status != Running && was.start.session == finish.session ==>
                  && was.terminalEvent.Some? && r == Ok(AlreadyFinished(was.terminalEvent.value)) && p'.store == s
                  && Told(p, p', f.run, [was.terminalEvent.value]))
            && (r.Ok? ==> f.run !in p'.reg)
            && (r.Err? ==> Told(p, p', f.run, []) && p'.store == s)
  {
    hide StoreInv.Valid, Exec, FinishOutcome, FinishRun, R.Finishable, R.FinishStored, Told;
    var s := Exec(p.store, others, |others|);
    var f := FinishOf(finish, scope, entries, build(p.reg[finish.run].currentSeq + 1));
    StillKnown(p.store, others, finish.run, scope);
    ExecValid(p.store, others, |others|);
    FinishedTells(p, others, finish, scope, entries, build, p', r);
    R.FinishStores(s, f);
    OverIsAnswered(s, f);
  }

  lemma FinishedTells(p: Process, others: seq<Step>, finish: RunFinish, scope: Scope, entries: seq<EntryWrite>,
                      build: int -> Event, p': Process, r: Result<FinishResult>)
    requires finish.run in p.reg && KnownRun(p.store, finish.run, scope) && finish.status != Running
    requires var e := build(p.reg[finish.run].currentSeq + 1);
             && e.run == finish.run && e.session == finish.session && e.num == p.reg[finish.run].currentSeq + 1
             && e.terminal
    requires FinishOutcome(p, others, finish, scope, entries, build, p', r)
    ensures var s := Exec(p.store, others, |others|);
            var f := FinishOf(finish, scope, entries, build(p.reg[finish.run].currentSeq + 1));
            && (p'.store, r) == FinishRun(s, f)
            && (r.Ok? ==> Told(p, p', f.run, [r.value.event]) && f.run !in p'.reg)
            && (r.Err? ==> Told(p, p', f.run, []) && p'.store == s)
  {
    hide Exec, Keeps, KeepsAhead, OthersSame, Published, FinishRun, FinishLoses, RefusesFinish, NumberLost;
    var s := Exec(p.store, others, |others|);
    var f := FinishOf(finish, scope, entries, build(p.reg[finish.run].currentSeq + 1));
    if FinishRun(s, f).1.Err? {
      FinishUnchanged(s, f);
    }
  }

  lemma OverIsAnswered(s: Store, f: FinishRecord)
    requires StoreInv.Valid(s) && f.run in s.runs && EventFor(f.terminalEvent, f.run, f.session)
    requires f.terminalEvent.terminal && f.status != Running && s.runs[f.run].start.scope == f.scope
    ensures s.runs[f.run].status != Running && s.runs[f.run].start.session == f.session ==>
              && s.runs[f.run].terminalEvent.Some?
              && FinishRun(s, f) == (s, Ok(AlreadyFinished(s.runs[f.run].terminalEvent.value)))
  {
    assert StoreInv.LogOk(s.runs[f.run]);
    hide StoreInv.Valid, EntriesOk, Increases, ApplyEntries;
  }

  /** A detached finish that can take place does, with the number after the last event. It never
      touches a run that is registered here, and a run that is over answers with its terminal event. */
  lemma DetachedLands(p: Process, others: seq<Step>, finish: RunFinish, scope: Scope, entries: seq<EntryWrite>,
                      build: int -> Event, p': Process, r: Result<FinishResult>)
    requires StoreInv.Valid(p.store) && finish.status != Running
    requires DetachedOutcome(p, others, finish, scope, entries, build, p', r)
    ensures !KnownRun(p.store, finish.run, scope) ==> r == Err(RunNotFound) && p' == p
    ensures KnownRun(p.store, finish.run, scope) ==>
              var was := p.store.runs[finish.run];
              if finish.run in p.reg then r == Err(RunAlreadyActive) && p' == p
              else if was.status != Running then
                was.terminalEvent.Some? && r == Ok(AlreadyFinished(was.terminalEvent.value)) && p' == p
              else
                var f := FinishOf(finish, scope, entries, build(LastNum(was.events) + 1));
                var s := Exec(p.store, others, |others|);
                f.terminalEvent.num == LastNum(was.events) + 1 && R.Finishable(s, f) ==>
                  r == Ok(Finished(f.terminalEvent)) && R.FinishStored(s, f, p'.store)
  {
    hide StoreInv.Valid, Exec, FinishRun, R.FinishStored, Keeps, Foreign, EntriesOk, Increases, LastNum;
    if KnownRun(p.store, finish.run, scope) && finish.run !in p.reg {
      OverExactly(p.store, finish.run);
      var n := LastNum(p.store.runs[finish.run].events) + 1;
      ExecValid(p.store, others, |others|);
      R.FinishStores(Exec(p.store, others, |others|), FinishOf(finish, scope, entries, build(n)));
    }
  }

  lemma OverExactly(s: Store, run: RunId)
    requires StoreInv.Valid(s) && run in s.runs
    ensures s.runs[run].status != Running <==> s.runs[run].terminalEvent.Some?
  {
    assert StoreInv.LogOk(s.runs[run]);
  }

  // ---------------------------------------------------------------- starts

  /** The check in front of a start finds the earlier run that the store would find, and answers a start
      made in the same way with what is stored about it. */
  lemma BeginFinds(s: Store, run: RunStart, r: RunId)
    requires StoreInv.Valid(s) && R.Earlier(s, run, r)
    ensures if KnownRun(s, run.run, run.scope) then r == run.run
            else run.clientKey.Some? && Idempotent(s, HomeOf(run), run.clientKey.value) == Some(s.runs[r])
    ensures var check := StartCheck(s.runs[r], run);
            if R.SameStart(s.runs[r].start, run) then check.Ok? && R.Describes(check.value, s.runs[r])
            else check == Err(StartConflict)
  {
    if run.run !in s.runs {
      R.EarlierByKey(s, run);
    }
    hide StoreInv.Valid, Idempotent;
  }
}
