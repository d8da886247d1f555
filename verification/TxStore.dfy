/**
 The commits of module TxBridge are commits of the run store: whatever the store answers, one of
 the two verdicts gives the same answer and the same log. And whatever else happens in the store is
 there one of the two steps by which others interfere.
 */
module TxStore {
  import opened Types
  import opened StoreSpec
  import opened StoreInv
  import opened StoreHistory
  import B = TxBridge

  /** What the bridge sees in the events of a run, whatever they carry. */
  function Recs(events: seq<Event>, rec: Event -> B.Rec): seq<B.Rec> {
    seq(|events|, i requires 0 <= i < |events| => rec(events[i]))
  }

  ghost predicate Abstracts(log: B.Log, s: Store, r: RunId, rec: Event -> B.Rec) {
    && r in s.runs && log.recs == Recs(s.runs[r].events, rec)
    && (log.running <==> s.runs[r].status == Running)
    && log.checkpoint == if s.runs[r].start.thread in s.checkpoints
                         then Some(s.checkpoints[s.runs[r].start.thread]) else None
  }

  function ReplyOf(r: Result<CommitResult>): B.Reply {
    if r.Err? then B.Failure else if r.value.Skipped? then B.PassedOver else B.Accepted
  }

  /** The commit addresses its run, as those of the bridge do. */
  ghost predicate Addressed(s: Store, c: Commit) {
    && c.run in s.runs && s.runs[c.run].start.scope == c.scope && s.runs[c.run].start.session == c.session
    && c.events != [] && CommitShapeOk(c)
  }

  lemma CommitIsBatch(s: Store, c: Commit, now: int, rec: Event -> B.Rec, log: B.Log)
    requires StoreInv.Valid(s) && Addressed(s, c) && Abstracts(log, s, c.run, rec)
    ensures var (next, reply) := CommitRun(s, c, now);
            var checkpoint := if c.checkpoint.Some? then Some(c.checkpoint.value.record) else None;
            exists v :: var (log', answer) := B.CommitBatch(log, Recs(c.events, rec), checkpoint, c.finish.Some?, v);
                        answer == ReplyOf(reply) && Abstracts(log', next, c.run, rec)
  {
    var (next, reply) := CommitRun(s, c, now);
    var v := if reply.Err? then B.Refuse else B.Apply;
    var checkpoint := if c.checkpoint.Some? then Some(c.checkpoint.value.record) else None;
    var (log', answer) := B.CommitBatch(log, Recs(c.events, rec), checkpoint, c.finish.Some?, v);
    assert LogOk(s.runs[c.run]);
    hide StoreInv.Valid, CommitShapeOk, PlanRunning;
    if PlanCommit(s, c, now) == Accept {
      AcceptedBatch(s, c, now, rec, log);
    } else {
      assert answer == ReplyOf(reply) && Abstracts(log', next, c.run, rec);
    }
  }

  lemma AcceptedBatch(s: Store, c: Commit, now: int, rec: Event -> B.Rec, log: B.Log)
    requires StoreInv.Valid(s) && Addressed(s, c) && Abstracts(log, s, c.run, rec)
    requires PlanCommit(s, c, now) == Accept
    ensures var (next, reply) := CommitRun(s, c, now);
            var checkpoint := if c.checkpoint.Some? then Some(c.checkpoint.value.record) else None;
            var (log', answer) := B.CommitBatch(log, Recs(c.events, rec), checkpoint, c.finish.Some?, B.Apply);
            answer == ReplyOf(reply) && Abstracts(log', next, c.run, rec)
  {
    AcceptedSound(s, c, now);
    assert s.runs[c.run].status == Running;
    hide StoreInv.Valid, PlanCommit, ApplyEntries, ApplyEffects, ApplyItems, Increases;
    assert Recs(s.runs[c.run].events + c.events, rec) == Recs(s.runs[c.run].events, rec) + Recs(c.events, rec);
  }

  // ---------------------------------------------------------------- what others do to the store

  /** The operation writes events of the run. */
  predicate WritesEvents(op: Op, r: RunId) {
    match op
    case CommitOp(c) => c.run == r
    case FinishOp(f) => f.run == r
    case RecordOp(run, _, _) => run == r
    case ReapOp(run, _) => run == r
    case _ => false
  }

  ghost predicate SameLog(a: Store, b: Store, r: RunId) {
    r in a.runs && r in b.runs && b.runs[r].start == a.runs[r].start && b.runs[r].status == a.runs[r].status
    && b.runs[r].events == a.runs[r].events
  }

  lemma CommitElsewhere(s: Store, c: Commit, now: int, r: RunId)
    requires r in s.runs && c.run != r
    ensures SameLog(s, CommitRun(s, c, now).0, r)
  {
    hide PlanCommit, CommittedRun, ApplyEntries, ApplyEffects, ApplyItems, CommitReply;
  }

  lemma StartElsewhere(s: Store, run: RunStart, now: int, r: RunId)
    requires r in s.runs
    ensures SameLog(s, StartRun(s, run, now).0, r)
  {
    hide Busy, EntriesOk, ApplyEntries, Idempotent, Lookup, NewRun, ThreadHeld;
  }

  lemma FinishElsewhere(s: Store, f: FinishRecord, r: RunId)
    requires r in s.runs && f.run != r
    ensures SameLog(s, FinishRun(s, f).0, r)
  {
    FinishTouches(s, f);
    hide FinishRun, FinishedRun;
  }

  lemma FinishTouches(s: Store, f: FinishRecord)
    ensures var next := FinishRun(s, f).0;
            next == s || (f.run in s.runs && next.runs == s.runs[f.run := FinishedRun(s.runs[f.run], f)])
  {
    hide EntriesOk, ApplyEntries, Increases, FinishedRun, EventFor;
  }

  lemma EventElsewhere(s: Store, run: RunId, scope: Scope, event: Event, now: int, r: RunId)
    requires r in s.runs && run != r
    ensures SameLog(s, RecordEvent(s, run, scope, event).0, r) && SameLog(s, Reap(s, run, event, now), r)
  {
    hide Increases, ReapEventOk, ReapedRun;
  }

  lemma LeaseElsewhere(s: Store, step: Step, r: RunId)
    requires r in s.runs
    requires step.op.CancelOp? || step.op.RenewOp? || step.op.ReleaseOp? || step.op.ReserveOp? || step.op.StartEffectOp?
    ensures SameLog(s, StoreHistory.Next(s, step), r)
  {
    hide StartRun, CommitRun, FinishRun, RecordEvent, Reap, CheckOpRun;
  }

  lemma LogStays(s: Store, step: Step, r: RunId)
    requires r in s.runs && !WritesEvents(step.op, r)
    ensures SameLog(s, StoreHistory.Next(s, step), r)
  {
    hide StartRun, CommitRun, FinishRun, RecordEvent, MarkCancelled, ReserveEffect, StartEffect, Renew, Release, Reap,
      SameLog;
    match step.op
    case StartOp(run) => StartElsewhere(s, run, step.now, r);
    case CommitOp(c) => CommitElsewhere(s, c, step.now, r);
    case FinishOp(f) => FinishElsewhere(s, f, r);
    case RecordOp(run, scope, event) => EventElsewhere(s, run, scope, event, step.now, r);
    case ReapOp(run, event) => EventElsewhere(s, run, s.runs[r].start.scope, event, step.now, r);
    case _ => LeaseElsewhere(s, step, r);
  }

  /** Reaping the run is the step Reap of the bridge model, when it is stale and the event fits. */
  lemma ReapIsReap(s: Store, r: RunId, event: Event, now: int, rec: Event -> B.Rec, log: B.Log)
    requires StoreInv.Valid(s) && Abstracts(log, s, r, rec) && (event.terminal ==> rec(event) == B.End)
    ensures var next := Reap(s, r, event, now);
            if Stale(s.runs[r], now) && ReapEventOk(s.runs[r], event)
            then log.running && Abstracts(log.(recs := log.recs + [B.End], running := false), next, r, rec)
            else Abstracts(log, next, r, rec)
  {
    hide StoreInv.Valid;
    if Stale(s.runs[r], now) && ReapEventOk(s.runs[r], event) {
      assert Recs(s.runs[r].events + [event], rec) == Recs(s.runs[r].events, rec) + [B.End];
    }
  }

  /** Any operation that does not write events of the run leaves its log, or it is the step Overwrite
      of the bridge model: another run writes the checkpoint, and then this run is over. */
  lemma OthersOverwrite(s: Store, step: Step, r: RunId, rec: Event -> B.Rec, log: B.Log)
    requires StoreInv.Valid(s) && Abstracts(log, s, r, rec) && !WritesEvents(step.op, r)
    ensures var next := StoreHistory.Next(s, step);
            Abstracts(log, next, r, rec)
            || exists record: CheckpointRecord :: !log.running && record.run != Some(r)
                 && Abstracts(log.(checkpoint := Some(record)), next, r, rec)
  {
    var next := StoreHistory.Next(s, step);
    var t := s.runs[r].start.thread;
    LogStays(s, step, r);
    NextAdvances(s, step);
    hide StoreInv.Valid, StoreHistory.Next, RunsAdvance, EffectsAdvance, RowsFrozen, LogGrows, PlanCommit;
    if t in next.checkpoints && (t !in s.checkpoints || next.checkpoints[t] != s.checkpoints[t]) {
      var record := next.checkpoints[t];
      assert Writes(s, step, t, record.run.value);
      WriterRuns(s, step.op.commit, step.now);
      assert Abstracts(log.(checkpoint := Some(record)), next, r, rec);
    }
  }
}
