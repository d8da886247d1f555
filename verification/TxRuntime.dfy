/**
 The parts of the transactional runtime that work in place: the queue of saved checkpoints, the
 buffer of pending operations, and the loop body of the bridge.
 */
module TxRuntime {
  import opened Types
  import opened TxBridge

  /** Queues of saved checkpoints by thread; a thread without one has nothing queued. */
  function Queue(pending: map<ThreadId, seq<CheckpointRecord>>, thread: ThreadId): seq<CheckpointRecord> {
    if thread in pending then pending[thread] else []
  }

  class TxSaver {
    var pending: map<ThreadId, seq<CheckpointRecord>>

    ghost predicate Valid()
      reads this
    {
      forall t :: t in pending ==> pending[t] != []
    }

    constructor ()
      ensures Valid() && pending == map[]
    {
      pending := map[];
    }

    method Save(thread: ThreadId, record: CheckpointRecord)
      requires Valid()
      modifies this
      ensures Valid() && Queue(pending, thread) == Queue(old(pending), thread) + [record]
      ensures forall t :: t != thread ==> Queue(pending, t) == Queue(old(pending), t)
    {
      var queue := if thread in pending then pending[thread] else [];
      pending := pending[thread := queue + [record]];
    }

    /** The checkpoint that was saved first; a queue that has become empty is removed. */
    method Take(thread: ThreadId) returns (write: Option<CheckpointWrite>)
      requires Valid()
      modifies this
      ensures Valid()
      ensures write.None? <==> Queue(old(pending), thread) == []
      ensures write.Some? ==>
                && write.value.thread == thread
                && Queue(old(pending), thread) == [write.value.record] + Queue(pending, thread)
      ensures write.None? ==> pending == old(pending)
      ensures forall t :: t != thread ==> Queue(pending, t) == Queue(old(pending), t)
    {
      if thread !in pending {
        return None;
      }
      var queue := pending[thread];
      if |queue| == 0 {
        return None;
      }
      var record := queue[0];
      pending := pending[thread := queue[1..]];
      if |pending[thread]| == 0 {
        pending := pending - {thread};
      }
      return Some(CheckpointWrite(thread, record));
    }

    method Clear(thread: ThreadId)
      requires Valid()
      modifies this
      ensures Valid() && Queue(pending, thread) == []
      ensures forall t :: t != thread ==> Queue(pending, t) == Queue(old(pending), t)
    {
      pending := pending - {thread};
    }
  }

  // ---------------------------------------------------------------- pending operations

  datatype PendingOps = PendingOps(effects: seq<EffectUpdate>, items: seq<ItemWrite>, entries: seq<EntryWrite>)
  {
    /** No key is pending twice, so a commit of these operations never has a repeated key. */
    ghost predicate Distinct() {
      && (forall i, j :: 0 <= i < j < |effects| ==> effects[i].key != effects[j].key)
      && (forall i, j :: 0 <= i < j < |items| ==> items[i].key != items[j].key)
      && (forall i, j :: 0 <= i < j < |entries| ==> entries[i].key != entries[j].key)
    }
  }

  const NO_OPS := PendingOps([], [], [])

  class TxRunOps {
    const run: RunId
    var pending: PendingOps

    constructor (run: RunId)
      ensures this.run == run && pending == NO_OPS && pending.Distinct()
    {
      this.run := run;
      pending := NO_OPS;
    }

    /** Hands the pending operations to a commit and starts over. */
    method Take() returns (ops: PendingOps)
      modifies this
      ensures ops == old(pending) && pending == NO_OPS && pending.Distinct()
    {
      ops := pending;
      pending := NO_OPS;
    }

    /** The same operation again is ignored, another one under the same key refused. */
    method PushEffect(run: RunId, update: EffectUpdate) returns (r: Outcome)
      requires pending.Distinct()
      modifies this
      ensures pending.Distinct()
      ensures r.Pass? <==> run == this.run && forall u :: u in old(pending).effects && u.key == update.key ==> u == update
      ensures r.Fail? ==> pending == old(pending)
      ensures r.Pass? ==>
                pending == if update in old(pending).effects then old(pending)
                           else old(pending).(effects := old(pending).effects + [update])
    {
      if run != this.run {
        return Fail(InvalidRunEvent);
      }
      var same := false;
      for i := 0 to |pending.effects|
        invariant pending == old(pending)
        invariant !same ==> forall j :: 0 <= j < i ==> pending.effects[j].key != update.key
        invariant same ==> update in pending.effects
      {
        if pending.effects[i].key == update.key {
          if pending.effects[i] != update {
            return Fail(EffectConflict);
          }
          same := true;
        }
      }
      if !same {
        pending := pending.(effects := pending.effects + [update]);
      }
      return Pass;
    }

    method PushItem(run: RunId, item: ItemWrite) returns (r: Outcome)
      requires pending.Distinct()
      modifies this
      ensures pending.Distinct()
      ensures r.Pass? <==> run == this.run && forall u :: u in old(pending).items && u.key == item.key ==> u == item
      ensures r.Fail? ==> pending == old(pending)
      ensures r.Pass? ==>
                pending == if item in old(pending).items then old(pending)
                           else old(pending).(items := old(pending).items + [item])
    {
      if run != this.run {
        return Fail(InvalidRunEvent);
      }
      var same := false;
      for i := 0 to |pending.items|
        invariant pending == old(pending)
        invariant !same ==> forall j :: 0 <= j < i ==> pending.items[j].key != item.key
        invariant same ==> item in pending.items
      {
        if pending.items[i].key == item.key {
          if pending.items[i] != item {
            return Fail(ItemConflict);
          }
          same := true;
        }
      }
      if !same {
        pending := pending.(items := pending.items + [item]);
      }
      return Pass;
    }

    method PushEntry(run: RunId, entry: EntryWrite) returns (r: Outcome)
      requires pending.Distinct()
      modifies this
      ensures pending.Distinct()
      ensures r.Pass? <==> run == this.run && forall u :: u in old(pending).entries && u.key == entry.key ==> u == entry
      ensures r.Fail? ==> pending == old(pending)
      ensures r.Pass? ==>
                pending == if entry in old(pending).entries then old(pending)
                           else old(pending).(entries := old(pending).entries + [entry])
    {
      if run != this.run {
        return Fail(InvalidRunEvent);
      }
      var same := false;
      for i := 0 to |pending.entries|
        invariant pending == old(pending)
        invariant !same ==> forall j :: 0 <= j < i ==> pending.entries[j].key != entry.key
        invariant same ==> entry in pending.entries
      {
        if pending.entries[i].key == entry.key {
          if pending.entries[i] != entry {
            return Fail(EntryConflict);
          }
          same := true;
        }
      }
      if !same {
        pending := pending.(entries := pending.entries + [entry]);
      }
      return Pass;
    }
  }

  // ---------------------------------------------------------------- the bridge

  /** The bridge of one run. The parameters `v` and `w` are the store's verdicts on the first and
      the second commit of a call, `heard` says whether the listener is still there. */
  class Bridge {
    const saver: TxSaver
    const thread: ThreadId
    var pendingStep: Option<Pending>
    var log: Log
    var done: bool

    ghost predicate Valid()
      reads this, saver
    {
      saver.Valid()
    }

    /** What TxBridge calls the state, for a runner and a channel given from outside. */
    ghost function View(s: State): State
      reads this, saver
    {
      s.(queue := Queue(saver.pending, thread), pending := pendingStep, done := done, log := log)
    }

    constructor (saver: TxSaver, thread: ThreadId, log: Log)
      requires saver.Valid()
      ensures Valid() && this.saver == saver && this.thread == thread && this.log == log
      ensures pendingStep.None? && !done
    {
      this.saver, this.thread, this.log := saver, thread, log;
      pendingStep, done := None, false;
    }

    method CommitRecs(recs: seq<Rec>, checkpoint: Option<CheckpointRecord>, finish: bool, v: Verdict)
      returns (reply: Reply)
      modifies this`log
      ensures (log, reply) == CommitBatch(old(log), recs, checkpoint, finish, v)
    {
      var (next, answer) := CommitBatch(log, recs, checkpoint, finish, v);
      log := next;
      return answer;
    }

    /** Commits the terminal event, after the step that was held back for it. */
    method CommitTerminal(pending: Option<Pending>, v: Verdict) returns (reply: Reply)
      modifies this`log
      ensures (log, reply) == CommitEnd(old(log), pending, v)
    {
      var recs: seq<Rec> := [];
      var checkpoint := None;
      if pending.Some? {
        recs := [pending.value.event];
        checkpoint := Some(pending.value.checkpoint);
      }
      recs := recs + [End];
      assert recs == if pending.None? then [End] else [pending.value.event, End];
      reply := CommitRecs(recs, checkpoint, true, v);
    }

    method FinishFailed(pending: Option<Pending>, v: Verdict)
      modifies this
      ensures forall s :: View(s) == FinishError(old(View(s)), pending, v)
      ensures log == CommitEnd(old(log), pending, v).0 && pendingStep.None? && done
    {
      var reply := CommitTerminal(pending, v);
      pendingStep := None;
      done := true;
    }

    method GiveUp(v: Verdict)
      requires Valid()
      modifies this, saver
      ensures Valid()
      ensures forall s :: View(s) == CancelAndFinish(old(View(s)), v)
    {
      var reply := CommitTerminal(pendingStep, v);
      pendingStep := None;
      done := true;
      saver.Clear(thread);
    }

    /** The event of a step; its checkpoint comes from the queue. */
    method ForwardDone(event: RawEvent, v: Verdict, w: Verdict, heard: bool)
      requires Valid() && event.Step?
      modifies this, saver
      ensures Valid()
      ensures forall s :: View(s) == ForwardStep(old(View(s)), event, v, w, heard)
    {
      var taken := saver.Take(thread);
      if taken.None? {
        FinishFailed(pendingStep, v);
        return;
      }
      var rec := StepDone(event.step, event.result);
      if event.result != Next {
        pendingStep := Some(Pending(taken.value.record, rec));
        return;
      }
      var reply := CommitRecs([rec], Some(taken.value.record), false, v);
      var pending := pendingStep;
      pendingStep := None;
      if reply != Accepted {
        FinishFailed(pending, w);
      } else if !heard {
        GiveUp(w);
      }
    }

    /** One event of the stream: it is committed, or held back until the next one. */
    method ForwardEvent(event: RawEvent, v: Verdict, w: Verdict, heard: bool)
      requires Valid() && !done
      modifies this, saver
      ensures Valid()
      ensures forall s :: View(s) == Forward(old(View(s)), event, v, w, heard)
    {
      match event
      case Garbled => FinishFailed(pendingStep, v);
      case Step(_, _) => ForwardDone(event, v, w, heard);
      case Plain =>
        if pendingStep.Some? {
          FinishFailed(pendingStep, v);
          return;
        }
        var reply := CommitRecs([Note], None, false, v);
        if reply != Accepted {
          FinishFailed(None, w);
        } else if !heard {
          GiveUp(w);
        }
      case Finish =>
        var pending := pendingStep;
        pendingStep := None;
        var reply := CommitTerminal(pending, v);
        if reply == Accepted {
          done := true;
        } else {
          FinishFailed(pending, w);
        }
    }
  }
}
