/**
 The bridge between a running machine and the store, as a state machine.

 The runner saves a checkpoint into a queue and then sends the event of its step; the bridge
 takes both up again and commits them together. It holds the event of the last step back until
 the terminal event arrives. Meanwhile the reaper may end the run, a commit may fail, and once
 the run is over another run may write the thread's checkpoint.

 One runner and one bridge are modelled, on a thread whose queue starts empty.
 */
module TxBridge {
  import opened Types

  datatype StepResult = Next | Interrupt | Complete

  /** An event on its way to the bridge; `step` counts the runner's steps from 0 and is there to
      state the pairing. `Garbled` is an event that cannot be encoded. */
  datatype RawEvent = Step(step: nat, result: StepResult) | Plain | Finish | Garbled

  /** What a stored event says: a step is done, the run is over, or anything else. */
  datatype Rec = StepDone(step: nat, result: StepResult) | Note | End

  datatype Pending = Pending(checkpoint: CheckpointRecord, event: Rec)

  /** Where the runner is: before a step, after saving the checkpoint of one, after sending its
      last step, or gone. */
  datatype Phase = Stepping | SavedStep(step: nat, result: StepResult) | LastSent | Stopped

  /** The stored part of the run, with the thread's checkpoint; `written` is the history of the
      checkpoints that this run wrote. */
  datatype Log = Log(recs: seq<Rec>, running: bool, checkpoint: Option<CheckpointRecord>,
                     written: seq<CheckpointRecord>)

  datatype State = State(run: RunId, saved: seq<CheckpointRecord>, phase: Phase,
                         queue: seq<CheckpointRecord>, channel: seq<RawEvent>,
                         pending: Option<Pending>, done: bool, log: Log)

  // ---------------------------------------------------------------- commits

  datatype Verdict = Apply | Refuse

  datatype Reply = Accepted | PassedOver | Failure

  /** One commit, all or nothing. A run that is over answers a finish and passes the rest over. */
  function CommitBatch(log: Log, recs: seq<Rec>, checkpoint: Option<CheckpointRecord>, finish: bool, v: Verdict)
    : (Log, Reply)
  {
    if v.Refuse? then (log, Failure)
    else if !log.running then (log, if finish then Accepted else PassedOver)
    else
      (Log(log.recs + recs, !finish, if checkpoint.Some? then checkpoint else log.checkpoint,
           if checkpoint.Some? then log.written + [checkpoint.value] else log.written), Accepted)
  }

  /** The commit that ends the run: the step held back, if there is one, and the terminal event. */
  function CommitEnd(log: Log, pending: Option<Pending>, v: Verdict): (Log, Reply) {
    if pending.None? then CommitBatch(log, [End], None, true, v)
    else CommitBatch(log, [pending.value.event, End], Some(pending.value.checkpoint), true, v)
  }

  // ---------------------------------------------------------------- the bridge

  /** Gives up on an error: the run ends as failed if the store takes it. */
  function FinishError(s: State, pending: Option<Pending>, v: Verdict): State {
    s.(log := CommitEnd(s.log, pending, v).0, pending := None, done := true)
  }

  /** Gives up because nobody listens or the runner is gone; the queue is cleared. */
  function CancelAndFinish(s: State, v: Verdict): State {
    s.(log := CommitEnd(s.log, s.pending, v).0, pending := None, done := true, queue := [])
  }

  /** A step's event: its checkpoint comes from the queue. `heard` tells whether the listener is
      still there; `v` and `w` are the store's verdicts on the first and second commit. */
  function ForwardStep(s: State, event: RawEvent, v: Verdict, w: Verdict, heard: bool): State
    requires event.Step?
  {
    if |s.queue| == 0 then FinishError(s, s.pending, v)
    else
      var checkpoint := s.queue[0];
      var taken := s.(queue := s.queue[1..]);
      var rec := StepDone(event.step, event.result);
      if event.result != Next then taken.(pending := Some(Pending(checkpoint, rec)))
      else
        var (log, reply) := CommitBatch(s.log, [rec], Some(checkpoint), false, v);
        var committed := taken.(log := log);
        if reply != Accepted then FinishError(committed, s.pending, w)
        else if !heard then CancelAndFinish(committed.(pending := None), w)
        else committed.(pending := None)
  }

  function Forward(s: State, event: RawEvent, v: Verdict, w: Verdict, heard: bool): State {
    match event
    case Garbled => FinishError(s, s.pending, v)
    case Step(_, _) => ForwardStep(s, event, v, w, heard)
    case Plain =>
      if s.pending.Some? then FinishError(s, s.pending, v)
      else
        var (log, reply) := CommitBatch(s.log, [Note], None, false, v);
        var committed := s.(log := log);
        if reply != Accepted then FinishError(committed, None, w)
        else if !heard then CancelAndFinish(committed, w)
        else committed
    case Finish =>
      var (log, reply) := CommitEnd(s.log, s.pending, v);
      var committed := s.(log := log);
      if reply == Accepted then committed.(pending := None, done := true)
      else FinishError(committed, s.pending, w)
  }

  // ---------------------------------------------------------------- steps

  datatype Action =
    | Save(record: CheckpointRecord, result: StepResult)    // runner: a step came out, save its state
    | Send(garbled: bool)                                   // runner: send the event of that step
    | Emit(garbled: bool)                                   // runner or machine: any other event
    | Stop(say: bool)                                       // runner: terminal event, or just gone
    | Deliver(v: Verdict, w: Verdict, heard: bool)          // bridge: handle the next event
    | GiveUp(v: Verdict)                                    // bridge: nobody listens, or stream closed
    | Reap                                                  // another worker ends the run
    | Overwrite(record: CheckpointRecord)                   // another run writes the checkpoint

  function Advance(s: State, action: Action): State {
    match action
    case Save(record, result) =>
      if s.phase.Stepping? && record.run == Some(s.run)
      then s.(saved := s.saved + [record], queue := s.queue + [record], phase := SavedStep(|s.saved|, result)) else s
    case Send(garbled) =>
      if !s.phase.SavedStep? then s
      else s.(channel := s.channel + [if garbled then Garbled else Step(s.phase.step, s.phase.result)],
              phase := if s.phase.result == Next then Stepping else LastSent)
    case Emit(garbled) => s.(channel := s.channel + [if garbled then Garbled else Plain])
    case Stop(say) =>
      if say && (s.phase.Stepping? || s.phase.LastSent?) then s.(channel := s.channel + [Finish], phase := Stopped)
      else s.(phase := Stopped)
    case Deliver(v, w, heard) =>
      if s.done || |s.channel| == 0 then s
      else Forward(s.(channel := s.channel[1..]), s.channel[0], v, w, heard)
    case GiveUp(v) => if s.done then s else CancelAndFinish(s, v)
    case Reap =>
      if s.log.running then s.(log := s.log.(recs := s.log.recs + [End], running := false)) else s
    case Overwrite(record) =>
      if !s.log.running && record.run != Some(s.run) then s.(log := s.log.(checkpoint := Some(record))) else s
  }

  /** The run begins on a thread whose checkpoint, if any, another run wrote. */
  ghost predicate Initial(s: State) {
    && s.saved == [] && s.phase.Stepping? && s.queue == [] && s.channel == [] && s.pending.None? && !s.done
    && s.log.recs == [] && s.log.running && s.log.written == []
    && (s.log.checkpoint.Some? ==> s.log.checkpoint.value.run != Some(s.run))
  }

  function Exec(s: State, actions: seq<Action>, n: nat): State
    requires n <= |actions|
  {
    if n == 0 then s else Advance(Exec(s, actions, n - 1), actions[n - 1])
  }

  // ---------------------------------------------------------------- invariant

  /** Reading the channel from step `t` on: steps come in order, none after a last one. */
  datatype Walk = Blocked | Bad | At(t: nat, ended: bool)

  function WalkOver(channel: seq<RawEvent>, t: nat, ended: bool): Walk {
    if |channel| == 0 then At(t, ended)
    else
      match channel[0]
      case Step(k, r) => if k != t || ended then Bad else WalkOver(channel[1..], t + 1, r != Next)
      case Garbled => Blocked
      case _ => WalkOver(channel[1..], t, ended)
  }

  function WalkOne(w: Walk, e: RawEvent): Walk {
    if !w.At? then w
    else
      match e
      case Step(k, r) => if k != w.t || w.ended then Bad else At(w.t + 1, r != Next)
      case Garbled => Blocked
      case _ => w
  }

  lemma {:induction false} WalkAppend(channel: seq<RawEvent>, e: RawEvent, t: nat, ended: bool)
    ensures WalkOver(channel + [e], t, ended) == WalkOne(WalkOver(channel, t, ended), e)
  {
    var all := channel + [e];
    if |channel| == 0 {
      assert all[1..] == [];
      assert WalkOver(all[1..], t, ended) == At(t, ended);
    } else {
      assert all[1..] == channel[1..] + [e];
      match channel[0]
      case Step(k, r) =>
        if k == t && !ended {
          WalkAppend(channel[1..], e, t + 1, r != Next);
        }
      case Garbled =>
      case _ => WalkAppend(channel[1..], e, t, ended);
    }
  }

  /** How many of the log's records say that a step is done. */
  function Steps(recs: seq<Rec>): nat {
    if |recs| == 0 then 0
    else Steps(recs[..|recs| - 1]) + if recs[|recs| - 1].StepDone? then 1 else 0
  }

  /** The stored steps are in order, and each wrote a checkpoint. */
  ghost predicate StepsInv(log: Log) {
    && Steps(log.recs) == |log.written|
    && forall i :: 0 <= i < |log.recs| && log.recs[i].StepDone? ==> log.recs[i].step == Steps(log.recs[..i])
  }

  /** A last step is followed at once by the end of the run, and nothing follows that. */
  ghost predicate EndsInv(log: Log) {
    && (forall i :: 0 <= i < |log.recs| && log.recs[i].StepDone? && log.recs[i].result != Next ==>
          i + 1 < |log.recs| && log.recs[i + 1].End?)
    && (forall i :: 0 <= i < |log.recs| && log.recs[i].End? ==> i == |log.recs| - 1 && !log.running)
    && (!log.running ==> |log.recs| > 0 && log.recs[|log.recs| - 1].End?)
  }

  ghost predicate LogInv(log: Log) {
    StepsInv(log) && EndsInv(log)
  }

  ghost predicate CheckpointInv(run: RunId, saved: seq<CheckpointRecord>, log: Log) {
    && log.written <= saved
    && (forall i :: 0 <= i < |saved| ==> saved[i].run == Some(run))
    && (log.checkpoint.Some? && log.checkpoint.value.run == Some(run) ==>
          |log.written| > 0 && log.checkpoint.value == log.written[|log.written| - 1])
    && (log.running && |log.written| > 0 ==> log.checkpoint == Some(log.written[|log.written| - 1]))
  }

  function Taken(s: State): nat {
    |s.log.written| + if s.pending.Some? then 1 else 0
  }

  /** Queue, channel and runner in step, for as long as the bridge works. */
  ghost predicate PairInv(s: State) {
    !s.done ==>
      && Taken(s) <= |s.saved| && s.queue == s.saved[Taken(s)..]
      && (s.pending.Some? ==>
            && s.pending.value.checkpoint == s.saved[|s.log.written|]
            && s.pending.value.event.StepDone? && s.pending.value.event.step == |s.log.written|
            && s.pending.value.event.result != Next)
      && (s.phase.SavedStep? ==> s.phase.step == |s.saved| - 1)
      && (forall i :: 0 <= i < |s.channel| && s.channel[i].Step? ==> s.channel[i].step < |s.saved|)
      && var w := WalkOver(s.channel, Taken(s), s.pending.Some?);
         && w != Bad
         && (w.At? && !s.phase.Stopped? ==>
               && w.t == |s.saved| - (if s.phase.SavedStep? then 1 else 0)
               && (w.ended ==> s.phase.LastSent?))
  }

  ghost predicate Inv(s: State) {
    LogInv(s.log) && CheckpointInv(s.run, s.saved, s.log) && PairInv(s)
  }

  // ---------------------------------------------------------------- the log

  /** The batches that the bridge commits, after `n` steps are stored. */
  ghost predicate Batch(recs: seq<Rec>, n: nat, checkpoint: Option<CheckpointRecord>, finish: bool) {
    || (recs == [Note] && checkpoint.None? && !finish)
    || (recs == [End] && checkpoint.None? && finish)
    || (recs == [StepDone(n, Next)] && checkpoint.Some? && !finish)
    || (|recs| == 2 && recs[0].StepDone? && recs[0].step == n && recs[0].result != Next && recs[1] == End
        && checkpoint.Some? && finish)
  }

  lemma {:induction false} StepsPrefix(a: seq<Rec>, b: seq<Rec>)
    ensures forall i :: 0 <= i <= |a| ==> (a + b)[..i] == a[..i]
    ensures |b| == 1 ==> Steps(a + b) == Steps(a) + if b[0].StepDone? then 1 else 0
    ensures |b| == 2 ==> Steps(a + b) == Steps(a) + (if b[0].StepDone? then 1 else 0) + if b[1].StepDone? then 1 else 0
  {
    assert forall i :: 0 <= i <= |a| ==> (a + b)[..i] == a[..i];
    if |b| == 1 {
      assert (a + b)[..|a + b| - 1] == a;
    } else if |b| == 2 {
      assert (a + b)[..|a + b| - 1] == a + [b[0]];
      assert (a + [b[0]])[..|a|] == a;
    }
  }

  lemma AcceptedSteps(log: Log, recs: seq<Rec>, checkpoint: Option<CheckpointRecord>, finish: bool)
    requires StepsInv(log) && log.running && Batch(recs, |log.written|, checkpoint, finish)
    ensures StepsInv(CommitBatch(log, recs, checkpoint, finish, Apply).0)
  {
    var all := log.recs + recs;
    StepsPrefix(log.recs, recs);
    assert log.recs[..|log.recs|] == log.recs;
    forall i | 0 <= i < |all| && all[i].StepDone? ensures all[i].step == Steps(all[..i]) {
      assert i <= |log.recs|;
      assert all[..i] == log.recs[..i];
    }
    hide Steps;
  }

  lemma AcceptedEnds(log: Log, recs: seq<Rec>, checkpoint: Option<CheckpointRecord>, finish: bool)
    requires EndsInv(log) && log.running && Batch(recs, |log.written|, checkpoint, finish)
    ensures EndsInv(CommitBatch(log, recs, checkpoint, finish, Apply).0)
  {
    var all := log.recs + recs;
    assert forall i :: 0 <= i < |log.recs| ==> all[i] == log.recs[i];
    assert forall i :: |log.recs| <= i < |all| ==> all[i] == recs[i - |log.recs|];
  }

  lemma AcceptedLog(log: Log, recs: seq<Rec>, checkpoint: Option<CheckpointRecord>, finish: bool)
    requires LogInv(log) && log.running && Batch(recs, |log.written|, checkpoint, finish)
    ensures LogInv(CommitBatch(log, recs, checkpoint, finish, Apply).0)
  {
    hide StepsInv, EndsInv, Batch, CommitBatch;
    AcceptedSteps(log, recs, checkpoint, finish);
    AcceptedEnds(log, recs, checkpoint, finish);
  }

  lemma CommitKeepsLog(log: Log, recs: seq<Rec>, checkpoint: Option<CheckpointRecord>, finish: bool, v: Verdict)
    requires LogInv(log) && Batch(recs, |log.written|, checkpoint, finish)
    ensures LogInv(CommitBatch(log, recs, checkpoint, finish, v).0)
  {
    hide LogInv, Batch;
    if v.Apply? && log.running {
      AcceptedLog(log, recs, checkpoint, finish);
    }
  }

  lemma CommitKeepsCheckpoint(run: RunId, saved: seq<CheckpointRecord>, log: Log, recs: seq<Rec>,
                              checkpoint: Option<CheckpointRecord>, finish: bool, v: Verdict)
    requires CheckpointInv(run, saved, log)
    requires checkpoint.Some? ==> |log.written| < |saved| && checkpoint.value == saved[|log.written|]
    ensures CheckpointInv(run, saved, CommitBatch(log, recs, checkpoint, finish, v).0)
  {
  }

  /** Ending the run keeps the invariants of what is stored, also when it is tried twice. */
  lemma EndKeeps(s: State, v: Verdict)
    requires Inv(s) && !s.done
    ensures var log := CommitEnd(s.log, s.pending, v).0;
            LogInv(log) && CheckpointInv(s.run, s.saved, log)
            && (CommitEnd(s.log, s.pending, v).1 != Accepted ==> log == s.log)
  {
    hide LogInv, CheckpointInv, WalkOver;
    if s.pending.None? {
      CommitKeepsLog(s.log, [End], None, true, v);
      CommitKeepsCheckpoint(s.run, s.saved, s.log, [End], None, true, v);
    } else {
      var recs := [s.pending.value.event, End];
      CommitKeepsLog(s.log, recs, Some(s.pending.value.checkpoint), true, v);
      CommitKeepsCheckpoint(s.run, s.saved, s.log, recs, Some(s.pending.value.checkpoint), true, v);
    }
  }

  // ---------------------------------------------------------------- the bridge keeps the invariant

  /** The bridge has taken the first event off the channel. */
  function Popped(s: State): State
    requires |s.channel| > 0
  {
    s.(channel := s.channel[1..])
  }

  lemma GiveUpKeeps(s: State, v: Verdict)
    requires Inv(s) && !s.done
    ensures Inv(CancelAndFinish(s, v))
  {
    EndKeeps(s, v);
    hide LogInv, CheckpointInv, WalkOver;
  }

  lemma ErrorKeeps(s: State, v: Verdict)
    requires LogInv(CommitEnd(s.log, s.pending, v).0)
    requires CheckpointInv(s.run, s.saved, CommitEnd(s.log, s.pending, v).0)
    ensures Inv(FinishError(s, s.pending, v))
  {
    hide LogInv, CheckpointInv, WalkOver;
  }

  lemma FinishKeeps(s: State, v: Verdict, w: Verdict, heard: bool)
    requires Inv(s) && !s.done && |s.channel| > 0
    ensures Inv(Forward(Popped(s), Finish, v, w, heard)) && Inv(FinishError(Popped(s), s.pending, v))
  {
    EndKeeps(s, v);
    EndKeeps(s, w);
    hide LogInv, CheckpointInv, WalkOver;
  }

  /** What holds after a commit that is not the last one, told the listener or not. */
  lemma CommittedKeeps(s: State, w: Verdict)
    requires Inv(s) && !s.done
    ensures Inv(FinishError(s, s.pending, w)) && Inv(CancelAndFinish(s, w))
  {
    EndKeeps(s, w);
    GiveUpKeeps(s, w);
    ErrorKeeps(s, w);
    hide Inv;
  }

  lemma NotedKeeps(s: State, v: Verdict)
    requires Inv(s) && !s.done && |s.channel| > 0 && s.channel[0].Plain? && s.pending.None?
    ensures Inv(Popped(s).(log := CommitBatch(s.log, [Note], None, false, v).0))
  {
    CommitKeepsLog(s.log, [Note], None, false, v);
    CommitKeepsCheckpoint(s.run, s.saved, s.log, [Note], None, false, v);
    assert WalkOver(s.channel, Taken(s), false) == WalkOver(s.channel[1..], Taken(s), false);
    hide LogInv, CheckpointInv, WalkOver;
  }

  lemma PlainKeeps(s: State, v: Verdict, w: Verdict, heard: bool)
    requires Inv(s) && !s.done && |s.channel| > 0 && s.channel[0].Plain?
    ensures Inv(Forward(Popped(s), Plain, v, w, heard))
  {
    FinishKeeps(s, v, w, heard);
    if s.pending.None? {
      NotedKeeps(s, v);
      hide Inv;
      CommittedKeeps(Popped(s).(log := CommitBatch(s.log, [Note], None, false, v).0), w);
    }
    hide Inv, CommitEnd;
  }

  /** The checkpoint of the step at the head of the channel is at the head of the queue. */
  lemma StepPaired(s: State)
    requires Inv(s) && !s.done && |s.channel| > 0 && s.channel[0].Step?
    ensures s.pending.None? && s.channel[0].step == |s.log.written| < |s.saved|
    ensures |s.queue| > 0 && s.queue[0] == s.saved[|s.log.written|]
    ensures s.queue[1..] == s.saved[|s.log.written| + 1..]
    ensures WalkOver(s.channel, Taken(s), false)
            == WalkOver(s.channel[1..], |s.log.written| + 1, s.channel[0].result != Next)
  {
    hide LogInv, CheckpointInv;
  }

  /** A last step is held back. */
  lemma HeldKeeps(s: State)
    requires Inv(s) && !s.done && |s.channel| > 0 && s.channel[0].Step? && s.channel[0].result != Next
    ensures var event := s.channel[0];
            Inv(Popped(s).(queue := s.queue[1..],
                           pending := Some(Pending(s.queue[0], StepDone(event.step, event.result)))))
  {
    StepPaired(s);
    hide LogInv, CheckpointInv, WalkOver;
  }

  /** Any other step is committed with its checkpoint. */
  lemma SteppedKeeps(s: State)
    requires Inv(s) && !s.done && |s.channel| > 0 && s.channel[0].Step? && s.channel[0].result == Next
    requires s.log.running
    ensures var log := CommitBatch(s.log, [StepDone(s.channel[0].step, Next)], Some(s.queue[0]), false, Apply).0;
            Inv(Popped(s).(queue := s.queue[1..], log := log))
  {
    StepPaired(s);
    var recs := [StepDone(s.channel[0].step, Next)];
    CommitKeepsLog(s.log, recs, Some(s.queue[0]), false, Apply);
    CommitKeepsCheckpoint(s.run, s.saved, s.log, recs, Some(s.queue[0]), false, Apply);
    hide LogInv, CheckpointInv, WalkOver;
  }

  lemma StepKeeps(s: State, v: Verdict, w: Verdict, heard: bool)
    requires Inv(s) && !s.done && |s.channel| > 0 && s.channel[0].Step?
    ensures Inv(Forward(Popped(s), s.channel[0], v, w, heard))
  {
    StepPaired(s);
    var event := s.channel[0];
    if event.result != Next {
      HeldKeeps(s);
      hide Inv;
    } else if v.Apply? && s.log.running {
      SteppedKeeps(s);
      hide Inv;
      var log := CommitBatch(s.log, [StepDone(event.step, Next)], Some(s.queue[0]), false, Apply).0;
      CommittedKeeps(Popped(s).(queue := s.queue[1..], log := log), w);
    } else {
      EndKeeps(s, w);
      hide LogInv, CheckpointInv, WalkOver;
    }
  }

  lemma DeliverKeeps(s: State, v: Verdict, w: Verdict, heard: bool)
    requires Inv(s) && !s.done && |s.channel| > 0
    ensures Inv(Forward(Popped(s), s.channel[0], v, w, heard))
  {
    match s.channel[0] {
      case Step(_, _) => StepKeeps(s, v, w, heard);
      case Plain => PlainKeeps(s, v, w, heard);
      case _ => FinishKeeps(s, v, w, heard);
    }
    hide Inv, CommitEnd;
  }

  // ---------------------------------------------------------------- the runner keeps the invariant

  lemma SaveKeeps(s: State, record: CheckpointRecord, result: StepResult)
    requires Inv(s)
    ensures Inv(Advance(s, Save(record, result)))
  {
    hide LogInv, WalkOver;
    if s.phase.Stepping? && record.run == Some(s.run) && !s.done {
      var t := Taken(s);
      assert (s.saved + [record])[t..] == s.saved[t..] + [record];
    }
  }

  lemma SendKeeps(s: State, garbled: bool)
    requires Inv(s) && s.phase.SavedStep?
    ensures Inv(Advance(s, Send(garbled)))
  {
    hide LogInv, CheckpointInv, WalkOver;
    WalkAppend(s.channel, if garbled then Garbled else Step(s.phase.step, s.phase.result), Taken(s), s.pending.Some?);
  }

  lemma EmitKeeps(s: State, e: RawEvent)
    requires Inv(s) && !e.Step?
    ensures Inv(s.(channel := s.channel + [e]))
  {
    hide LogInv, CheckpointInv, WalkOver;
    WalkAppend(s.channel, e, Taken(s), s.pending.Some?);
  }

  lemma StopKeeps(s: State)
    requires Inv(s)
    ensures Inv(s.(phase := Stopped))
  {
    hide LogInv, CheckpointInv, WalkOver;
  }

  lemma ReapKeeps(s: State)
    requires Inv(s) && s.log.running
    ensures Inv(Advance(s, Reap))
  {
    CommitKeepsLog(s.log, [End], None, true, Apply);
    CommitKeepsCheckpoint(s.run, s.saved, s.log, [End], None, true, Apply);
    hide LogInv, CheckpointInv, WalkOver;
  }

  lemma OverwriteKeeps(s: State, record: CheckpointRecord)
    requires Inv(s)
    ensures Inv(Advance(s, Overwrite(record)))
  {
    hide WalkOver, Steps;
  }

  lemma NextKeeps(s: State, action: Action)
    requires Inv(s)
    ensures Inv(Advance(s, action))
  {
    hide Inv, WalkOver, Forward, CancelAndFinish;
    match action
    case Save(record, result) => SaveKeeps(s, record, result);
    case Send(garbled) =>
      if s.phase.SavedStep? {
        SendKeeps(s, garbled);
      }
    case Emit(garbled) => EmitKeeps(s, if garbled then Garbled else Plain);
    case Stop(say) =>
      EmitKeeps(s, Finish);
      StopKeeps(s);
      StopKeeps(s.(channel := s.channel + [Finish]));
    case Deliver(v, w, heard) =>
      if !s.done && |s.channel| > 0 {
        DeliverKeeps(s, v, w, heard);
      }
    case GiveUp(v) =>
      if !s.done {
        GiveUpKeeps(s, v);
      }
    case Reap =>
      if s.log.running {
        ReapKeeps(s);
      }
    case Overwrite(record) => OverwriteKeeps(s, record);
  }

  lemma {:induction false} ExecKeeps(s: State, actions: seq<Action>, n: nat)
    requires Initial(s) && n <= |actions|
    ensures Inv(Exec(s, actions, n)) && Exec(s, actions, n).run == s.run
  {
    if n == 0 {
      InitialKeeps(s);
    } else {
      hide Inv, Initial;
      ExecKeeps(s, actions, n - 1);
      NextKeeps(Exec(s, actions, n - 1), actions[n - 1]);
      RunKept(Exec(s, actions, n - 1), actions[n - 1]);
      hide Advance;
    }
  }

  lemma InitialKeeps(s: State)
    requires Initial(s)
    ensures Inv(s)
  {
    hide Steps, WalkOver;
    NothingYet();
    assert s.saved[0..] == [];
  }

  lemma NothingYet()
    ensures Steps([]) == 0 && WalkOver([], 0, false) == At(0, false)
  {
  }

  lemma RunKept(s: State, action: Action)
    ensures Advance(s, action).run == s.run
  {
    hide CommitEnd, CommitBatch;
  }

  // ---------------------------------------------------------------- results

  /** In every interleaving the stored steps are the first ones the runner took, in order, and
      each was committed with the checkpoint the runner saved for it. */
  lemma StepsArePaired(s: State, actions: seq<Action>, n: nat, i: nat)
    requires Initial(s) && n <= |actions|
    requires i < |Exec(s, actions, n).log.recs| && Exec(s, actions, n).log.recs[i].StepDone?
    ensures var t := Exec(s, actions, n);
            var k := Steps(t.log.recs[..i]);
            && t.log.recs[i].step == k < |t.log.written| && |t.log.written| == Steps(t.log.recs)
            && k < |t.saved| && t.log.written[k] == t.saved[k]
  {
    hide PairInv, Exec, Initial, EndsInv;
    ExecKeeps(s, actions, n);
    var t := Exec(s, actions, n);
    StepsGrow(t.log.recs, i, |t.log.recs|);
    assert t.log.recs[..|t.log.recs|] == t.log.recs;
  }

  lemma {:induction false} StepsGrow(recs: seq<Rec>, i: nat, j: nat)
    requires i < j <= |recs| && recs[i].StepDone?
    ensures Steps(recs[..i]) < Steps(recs[..j])
    decreases j
  {
    assert recs[..j][..j - 1] == recs[..j - 1];
    if i + 1 < j {
      StepsGrow(recs, i, j - 1);
    }
  }

  /** A stored step that interrupts or completes the run is immediately followed by the event that
      ends it, and that is the last event of the log. */
  lemma LastStepEndsTheRun(s: State, actions: seq<Action>, n: nat, i: nat)
    requires Initial(s) && n <= |actions|
    requires i < |Exec(s, actions, n).log.recs|
    requires Exec(s, actions, n).log.recs[i].StepDone? && Exec(s, actions, n).log.recs[i].result != Next
    ensures var recs := Exec(s, actions, n).log.recs;
            |recs| == i + 2 && recs[i + 1].End? && !Exec(s, actions, n).log.running
  {
    hide Exec, PairInv, CheckpointInv, StepsInv, Initial;
    ExecKeeps(s, actions, n);
    var recs := Exec(s, actions, n).log.recs;
    assert recs[i + 1].End?;
  }

  /** A stored checkpoint that names the run is the one saved for its last stored step; and while
      the run is running, that one is there once a step is stored. */
  lemma CheckpointIsOfLastStep(s: State, actions: seq<Action>, n: nat)
    requires Initial(s) && n <= |actions|
    ensures var t := Exec(s, actions, n);
            var m := Steps(t.log.recs);
            && (t.log.checkpoint.Some? && t.log.checkpoint.value.run == Some(s.run) ==>
                  0 < m <= |t.saved| && t.log.checkpoint.value == t.saved[m - 1])
            && (t.log.running && m > 0 ==> t.log.checkpoint.Some? && t.log.checkpoint.value.run == Some(s.run))
  {
    hide Exec, PairInv, EndsInv, Initial;
    ExecKeeps(s, actions, n);
  }

  /** The bridge never misses a checkpoint: whenever it takes a step's event off the channel, the
      checkpoint of just that step is at the head of the queue. */
  lemma CheckpointIsThere(s: State, actions: seq<Action>, n: nat)
    requires Initial(s) && n <= |actions| && !Exec(s, actions, n).done
    requires |Exec(s, actions, n).channel| > 0 && Exec(s, actions, n).channel[0].Step?
    ensures var t := Exec(s, actions, n);
            && |t.queue| > 0 && t.channel[0].step < |t.saved| && t.queue[0] == t.saved[t.channel[0].step]
            && t.pending.None?
  {
    hide Exec, Initial, Inv;
    ExecKeeps(s, actions, n);
    StepPaired(Exec(s, actions, n));
  }
}
