/**
 What the bridge stores of the events it takes. While the store accepts its commits and somebody
 listens, nothing that the runner sends is lost: the log is what was sent, in order.
 */
module TxDelivery {
  import opened Types
  import opened TxBridge

  // ---------------------------------------------------------------- one event

  /** The record of the step that is held back. */
  function Held(s: State): seq<Rec> {
    if s.pending.Some? then [s.pending.value.event] else []
  }

  /** The run has ended with the step held back, under its checkpoint, and the event that ends it. */
  predicate Ended(s: State, t: State) {
    && t.done && t.pending.None?
    && t.log == Log(s.log.recs + Held(s) + [End], false,
                    if s.pending.Some? then Some(s.pending.value.checkpoint) else s.log.checkpoint,
                    if s.pending.Some? then s.log.written + [s.pending.value.checkpoint] else s.log.written)
  }

  /** A terminal event ends the running run in the store, if one of two tries is accepted; an event that
      cannot be read, and giving up, end it at the first try or not at all. */
  lemma EndIsStored(s: State, v: Verdict, w: Verdict, heard: bool)
    requires !s.done && s.log.running
    ensures |s.channel| > 0 && s.channel[0].Finish? ==>
              var t := Advance(s, Deliver(v, w, heard));
              if v.Apply? || w.Apply? then Ended(s, t) else t.done && t.log == s.log
    ensures |s.channel| > 0 && s.channel[0].Garbled? ==>
              var t := Advance(s, Deliver(v, w, heard));
              if v.Apply? then Ended(s, t) else t.done && t.log == s.log
    ensures var t := Advance(s, GiveUp(v));
            t.queue == [] && if v.Apply? then Ended(s, t) else t.done && t.log == s.log
  {
    assert s.log.recs + Held(s) + [End] == s.log.recs + (Held(s) + [End]);
  }

  /** A step that goes on is stored with the checkpoint saved for it, a last one is held back with it;
      where the commit fails the step is not stored, and the run ends as failed. */
  lemma StepIsStored(s: State, v: Verdict, w: Verdict, heard: bool)
    requires Inv(s) && !s.done && s.log.running && |s.channel| > 0 && s.channel[0].Step?
    ensures var t, e := Advance(s, Deliver(v, w, heard)), s.channel[0];
            && e.step < |s.saved|
            && var checkpoint := s.saved[e.step];
               var stored := Log(s.log.recs + [StepDone(e.step, Next)], true, Some(checkpoint), s.log.written + [checkpoint]);
               if e.result != Next then
                 t.log == s.log && !t.done && t.pending == Some(Pending(checkpoint, StepDone(e.step, e.result)))
               else if v.Apply? && heard then t.log == stored && !t.done && t.pending.None?
               else if v.Apply? then
                 t.done && t.log == if w.Apply? then stored.(recs := stored.recs + [End], running := false) else stored
               else
                 t.done && t.log == if w.Apply? then s.log.(recs := s.log.recs + [End], running := false) else s.log
  {
    StepPaired(s);
    hide Inv;
  }

  /** Any other event is stored as it comes; after a last step there must be none. */
  lemma PlainIsStored(s: State, v: Verdict, w: Verdict, heard: bool)
    requires !s.done && s.log.running && |s.channel| > 0 && s.channel[0].Plain?
    ensures var t := Advance(s, Deliver(v, w, heard));
            var stored := s.log.(recs := s.log.recs + [Note]);
            if s.pending.Some? then if v.Apply? then Ended(s, t) else t.done && t.log == s.log
            else if v.Apply? && heard then t == s.(channel := s.channel[1..], log := stored)
            else if v.Apply? then
              t.done && t.log == if w.Apply? then stored.(recs := stored.recs + [End], running := false) else stored
            else
              t.done && t.log == if w.Apply? then s.log.(recs := s.log.recs + [End], running := false) else s.log
  {
    assert s.log.recs + Held(s) + [End] == s.log.recs + (Held(s) + [End]);
  }

  /** In a run that is over the bridge stores nothing. */
  lemma OverIsLeft(s: State, v: Verdict, w: Verdict, heard: bool)
    requires !s.log.running
    ensures Advance(s, Deliver(v, w, heard)).log == s.log && Advance(s, GiveUp(v)).log == s.log
  {
  }

  // ---------------------------------------------------------------- whole runs

  function RecOf(e: RawEvent): Rec {
    match e
    case Step(step, result) => StepDone(step, result)
    case Finish => End
    case _ => Note
  }

  function Recs(channel: seq<RawEvent>): (r: seq<Rec>)
    ensures |r| == |channel| && forall i :: 0 <= i < |channel| ==> r[i] == RecOf(channel[i])
  {
    seq(|channel|, i requires 0 <= i < |channel| => RecOf(channel[i]))
  }

  /** What was sent into the channel between the two states. */
  function SentBetween(a: State, b: State): seq<Rec> {
    if |b.channel| > |a.channel| then [RecOf(b.channel[|b.channel| - 1])] else []
  }

  function Sent(s: State, actions: seq<Action>, n: nat): seq<Rec>
    requires n <= |actions|
  {
    if n == 0 then [] else Sent(s, actions, n - 1) + SentBetween(Exec(s, actions, n - 1), Exec(s, actions, n))
  }

  /** The store takes the commits, somebody listens, every event can be read, and the runner stops with a
      terminal event and sends nothing between its last step and that one. */
  predicate Undisturbed(s: State, action: Action) {
    match action
    case Save(_, _) => true
    case Send(garbled) => !garbled
    case Emit(garbled) => !garbled && (s.phase.Stepping? || s.phase.SavedStep?)
    case Stop(say) => say && !s.phase.SavedStep?
    case Deliver(v, _, heard) => v.Apply? && heard
    case _ => false
  }

  /** The channel holds steps and other events, none of them after a last step, and the terminal event at
      its end at most; `ended` tells that a last step came before. */
  predicate Orderly(channel: seq<RawEvent>, ended: bool) {
    if |channel| == 0 then true
    else
      match channel[0]
      case Garbled => false
      case Finish => |channel| == 1
      case Plain => !ended && Orderly(channel[1..], ended)
      case Step(_, result) => Orderly(channel[1..], result != Next)
  }

  predicate EndsIn(channel: seq<RawEvent>, ended: bool) {
    if |channel| == 0 then ended
    else EndsIn(channel[1..], if channel[0].Step? then channel[0].result != Next else ended)
  }

  predicate HasFinish(channel: seq<RawEvent>) {
    |channel| > 0 && channel[|channel| - 1].Finish?
  }

  lemma {:induction false} OrderlyAppend(channel: seq<RawEvent>, e: RawEvent, ended: bool)
    requires Orderly(channel, ended) && !HasFinish(channel) && !e.Garbled?
    requires e.Plain? ==> !EndsIn(channel, ended)
    ensures Orderly(channel + [e], ended)
    ensures EndsIn(channel + [e], ended) == if e.Step? then e.result != Next else EndsIn(channel, ended)
  {
    var all := channel + [e];
    if |channel| == 0 {
      assert all[1..] == [];
    } else {
      assert all[1..] == channel[1..] + [e] && all[0] == channel[0];
      OrderlyAppend(channel[1..], e, if channel[0].Step? then channel[0].result != Next else ended);
    }
  }

  /** What was sent is stored, held back, or still in the channel, in this order. */
  ghost predicate Flow(s: State, sent: seq<Rec>) {
    && s.log.running == !s.done
    && Steps(sent) == |s.saved| - (if s.phase.SavedStep? then 1 else 0)
    && (|s.log.written| > 0 ==> s.log.checkpoint == Some(s.log.written[|s.log.written| - 1]))
    && if s.done then s.phase.Stopped? && s.channel == [] && s.pending.None? && s.log.recs == sent
       else
         && sent == s.log.recs + Held(s) + Recs(s.channel)
         && Orderly(s.channel, s.pending.Some?) && (HasFinish(s.channel) <==> s.phase.Stopped?)
         && (EndsIn(s.channel, s.pending.Some?) ==> s.phase.LastSent? || s.phase.Stopped?)
  }

  lemma StepsMore(recs: seq<Rec>, r: Rec)
    ensures Steps(recs + [r]) == Steps(recs) + if r.StepDone? then 1 else 0
  {
    assert (recs + [r])[..|recs|] == recs;
  }

  lemma Regrouped(a: seq<Rec>, b: seq<Rec>, c: seq<Rec>)
    ensures a + (b + c) == a + b + c
  {
  }

  lemma HeldSame(s: State, t: State)
    requires t.pending == s.pending
    ensures Held(t) == Held(s)
  {
  }

  /** The runner puts an event into the channel. */
  lemma FlowSends(s: State, t: State, e: RawEvent, sent: seq<Rec>)
    requires Flow(s, sent) && !s.phase.Stopped? && t == s.(channel := s.channel + [e], phase := t.phase)
    requires !e.Garbled? && (e.Plain? ==> !EndsIn(s.channel, s.pending.Some?))
    requires t.phase.Stopped? <==> e.Finish?
    requires e.Step? && e.result != Next ==> t.phase.LastSent?
    requires EndsIn(s.channel, s.pending.Some?) && !e.Step? ==> t.phase.LastSent? || t.phase.Stopped?
    requires e.Step? <==> s.phase.SavedStep? && !t.phase.SavedStep?
    requires t.phase.SavedStep? ==> s.phase.SavedStep?
    ensures Flow(t, sent + SentBetween(s, t))
  {
    hide Orderly, EndsIn, Steps, Held;
    OrderlyAppend(s.channel, e, s.pending.Some?);
    StepsMore(sent, RecOf(e));
    assert RecOf(e).StepDone? <==> e.Step?;
    assert Recs(t.channel) == Recs(s.channel) + [RecOf(e)];
    assert Held(t) == Held(s) by { HeldSame(s, t); }
    hide Recs, RecOf;
    Regrouped(s.log.recs + Held(s), Recs(s.channel), [RecOf(e)]);
    assert SentBetween(s, t) == [RecOf(e)];
  }

  /** The record of the event that the bridge takes is stored or held back. */
  lemma FlowMoves(s: State, t: State, sent: seq<Rec>)
    requires Flow(s, sent) && !s.done && |s.channel| > 0 && !s.channel[0].Finish?
    requires t == s.(channel := s.channel[1..], queue := t.queue, log := t.log, pending := t.pending) && t.log.running
    requires t.log.recs + Held(t) == s.log.recs + Held(s) + [RecOf(s.channel[0])]
    requires |t.log.written| > 0 ==> t.log.checkpoint == Some(t.log.written[|t.log.written| - 1])
    requires Orderly(t.channel, t.pending.Some?)
    requires EndsIn(t.channel, t.pending.Some?) == EndsIn(s.channel, s.pending.Some?)
    ensures Flow(t, sent)
  {
    hide Orderly, EndsIn, Steps, Held, RecOf;
    var e := RecOf(s.channel[0]);
    assert Recs(s.channel) == [e] + Recs(t.channel);
    hide Recs;
    Regrouped(s.log.recs + Held(s), [e], Recs(t.channel));
  }

  lemma StepFlows(s: State, w: Verdict, sent: seq<Rec>)
    requires Inv(s) && Flow(s, sent) && !s.done && |s.channel| > 0 && s.channel[0].Step?
    ensures Flow(Advance(s, Deliver(Apply, w, true)), sent)
  {
    hide Inv, Steps, Recs;
    var t, e := Advance(s, Deliver(Apply, w, true)), s.channel[0];
    StepPaired(s);
    StepIsStored(s, Apply, w, true);
    assert Held(s) == [] && s.log.recs + Held(s) == s.log.recs;
    assert t.log.recs + Held(t) == s.log.recs + [RecOf(e)];
    assert Orderly(t.channel, t.pending.Some?) && EndsIn(t.channel, t.pending.Some?) == EndsIn(s.channel, s.pending.Some?);
    hide Orderly, EndsIn, Flow, Held, RecOf;
    assert t == s.(channel := s.channel[1..], queue := t.queue, log := t.log, pending := t.pending);
    FlowMoves(s, t, sent) by { assert Flow(s, sent); }
  }

  lemma PlainFlows(s: State, w: Verdict, sent: seq<Rec>)
    requires Flow(s, sent) && !s.done && |s.channel| > 0 && s.channel[0].Plain?
    ensures Flow(Advance(s, Deliver(Apply, w, true)), sent)
  {
    hide Steps, Recs;
    var t, e := Advance(s, Deliver(Apply, w, true)), s.channel[0];
    PlainIsStored(s, Apply, w, true);
    assert Held(s) == [] && Held(t) == [] && s.log.recs + Held(s) == s.log.recs;
    assert t.log.recs + Held(t) == s.log.recs + [RecOf(e)];
    FlowMoves(s, t, sent);
  }

  lemma EndFlows(s: State, w: Verdict, sent: seq<Rec>)
    requires Flow(s, sent) && !s.done && |s.channel| > 0 && s.channel[0].Finish?
    ensures Flow(Advance(s, Deliver(Apply, w, true)), sent)
  {
    hide Steps;
    EndIsStored(s, Apply, w, true);
    assert Recs(s.channel) == [End];
    hide Recs;
  }

  /** The bridge takes an event out of it. */
  lemma FlowDelivers(s: State, w: Verdict, sent: seq<Rec>)
    requires Inv(s) && Flow(s, sent) && !s.done && |s.channel| > 0
    ensures Flow(Advance(s, Deliver(Apply, w, true)), sent)
  {
    assert !s.channel[0].Garbled?;
    hide Inv, Flow, Advance;
    match s.channel[0]
    case Step(_, _) => StepFlows(s, w, sent);
    case Plain => PlainFlows(s, w, sent);
    case _ => EndFlows(s, w, sent);
  }

  lemma FlowStep(s: State, action: Action, sent: seq<Rec>)
    requires Inv(s) && Flow(s, sent) && Undisturbed(s, action)
    ensures Flow(Advance(s, action), sent + SentBetween(s, Advance(s, action)))
  {
    hide Orderly, EndsIn, Steps, Recs, Inv, Forward, CancelAndFinish, Held;
    var t := Advance(s, action);
    assert sent + [] == sent;
    match action
    case Save(record, result) => FlowSaves(s, record, result, sent);
    case Send(_) =>
      if s.phase.SavedStep? {
        FlowSends(s, t, Step(s.phase.step, s.phase.result), sent);
      }
    case Emit(_) => FlowSends(s, t, Plain, sent);
    case Stop(_) =>
      if s.phase.Stopped? {
        assert t == s;
      } else {
        FlowSends(s, t, Finish, sent);
      }
    case Deliver(_, w, _) =>
      if !s.done && |s.channel| > 0 {
        FlowDelivers(s, w, sent);
        ChannelShrinks(s, w);
      }
  }

  lemma FlowSaves(s: State, record: CheckpointRecord, result: StepResult, sent: seq<Rec>)
    requires Flow(s, sent)
    ensures Flow(Advance(s, Save(record, result)), sent)
    ensures Advance(s, Save(record, result)).channel == s.channel
  {
    hide Orderly, EndsIn, Steps, Recs;
  }

  lemma ChannelShrinks(s: State, w: Verdict)
    requires !s.done && |s.channel| > 0
    ensures |Advance(s, Deliver(Apply, w, true)).channel| < |s.channel|
  {
    hide CommitEnd, CommitBatch;
  }

  lemma FlowBegins(s: State)
    requires Initial(s)
    ensures Flow(s, [])
  {
    assert Steps([]) == 0;
  }

  lemma {:induction false} FlowKept(s: State, actions: seq<Action>, n: nat)
    requires Initial(s) && n <= |actions|
    requires forall i :: 0 <= i < n ==> Undisturbed(Exec(s, actions, i), actions[i])
    ensures Flow(Exec(s, actions, n), Sent(s, actions, n))
  {
    hide Initial, Inv, Flow, Advance, Undisturbed, SentBetween;
    if n == 0 {
      FlowBegins(s);
    } else {
      FlowKept(s, actions, n - 1);
      ExecKeeps(s, actions, n - 1);
      FlowStep(Exec(s, actions, n - 1), actions[n - 1], Sent(s, actions, n - 1));
    }
  }

  /** In an undisturbed run nothing is lost: what was sent is stored, held back or on its way, in order.
      Once the runner has stopped and the channel is empty, the log is what was sent, every step of the
      runner is in it, and the thread's checkpoint is the last one that the runner saved. */
  lemma NothingIsLost(s: State, actions: seq<Action>, n: nat)
    requires Initial(s) && n <= |actions|
    requires forall i :: 0 <= i < n ==> Undisturbed(Exec(s, actions, i), actions[i])
    ensures var t := Exec(s, actions, n);
            && (!t.done ==> t.log.recs + Held(t) + Recs(t.channel) == Sent(s, actions, n))
            && (t.phase.Stopped? && t.channel == [] ==>
                  && t.done && t.log.recs == Sent(s, actions, n) && t.log.written == t.saved
                  && Steps(t.log.recs) == |t.saved|
                  && (|t.saved| > 0 ==> t.log.checkpoint == Some(t.saved[|t.saved| - 1])))
  {
    hide Initial, Undisturbed, Sent, Exec, Steps, Recs;
    FlowKept(s, actions, n);
    ExecKeeps(s, actions, n);
    hide PairInv, EndsInv;
  }
}
