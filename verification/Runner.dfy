/**
 The runner of a machine: where a run starts or resumes, and the two loops that execute it.

 The machine is any deterministic one. Cancellation, timeouts and a listener that goes away end
 a loop early and are not modelled; encoding a state, step or interrupt is taken to be injective.
 */
module Runner {
  import opened Types

  type MachineState(==, !new)
  type Step(==, !new)
  type Interruption(==, !new)
  type Output(==, !new)
  type Input(==, !new)
  type Fault(==, !new)

  datatype Transition = Next(step: Step) | Interrupt(interrupt: Interruption) | Complete(output: Output)

  datatype ResumeAction = ReenterInterruptedStep | JumpTo(step: Step)

  datatype RunError =
    | NoPendingInterrupt
    | NoInterruptedStep
    | MaxStepsExceeded
    | MachineFault(fault: Fault)

  datatype Attempt<+T> = Success(value: T) | Failure(error: RunError)

  /** A transition changes the state even when it fails. */
  datatype Machine = Machine(
    newState: (Input, Option<MachineState>, Option<Value>) -> Attempt<MachineState>,
    startStep: Step,
    transition: (Step, MachineState) -> (MachineState, Attempt<Transition>),
    applyResumeInput: (MachineState, Input) -> Attempt<MachineState>,
    resumeAction: Interruption -> ResumeAction)

  datatype Record = Record(state: MachineState, nextStep: Option<Step>, interruptedStep: Option<Step>,
                           interrupt: Option<Interruption>, run: Option<RunId>)

  function RunningRecord(state: MachineState, next: Option<Step>, run: RunId): Record {
    Record(state, next, None, None, Some(run))
  }

  function InterruptedRecord(state: MachineState, step: Step, interrupt: Interruption, run: RunId): Record {
    Record(state, None, Some(step), Some(interrupt), Some(run))
  }

  datatype Command = Execute | Resume

  datatype Request = Request(run: RunId, command: Command, input: Input, snapshot: Option<Value>, maxSteps: nat)

  // ---------------------------------------------------------------- where a run begins

  datatype Position = Position(state: MachineState, step: Step)

  function At(state: Attempt<MachineState>, step: Step): Attempt<Position> {
    if state.Failure? then Failure(state.error) else Success(Position(state.value, step))
  }

  function RestoreOrStart(m: Machine, req: Request, checkpoint: Option<Record>): Attempt<Position> {
    if checkpoint.None? then
      if req.command == Resume then Failure(NoPendingInterrupt)
      else At(m.newState(req.input, None, req.snapshot), m.startStep)
    else
      var record := checkpoint.value;
      if record.interrupt.Some? then
        if req.command != Resume then At(m.newState(req.input, Some(record.state), req.snapshot), m.startStep)
        else
          var state := m.applyResumeInput(record.state, req.input);
          if state.Failure? then Failure(state.error)
          else
            match m.resumeAction(record.interrupt.value)
            case ReenterInterruptedStep =>
              if record.interruptedStep.None? then Failure(NoInterruptedStep)
              else Success(Position(state.value, record.interruptedStep.value))
            case JumpTo(step) => Success(Position(state.value, step))
      else if req.command == Resume then Failure(NoPendingInterrupt)
      else
        var state := m.newState(req.input, Some(record.state), req.snapshot);
        At(state, if record.run == Some(req.run) && record.nextStep.Some? then record.nextStep.value
                  else m.startStep)
  }

  // ---------------------------------------------------------------- what a run does

  datatype Kind = WasNext | WasInterrupt | WasComplete

  datatype TraceEntry = TraceEntry(step: Step, kind: Kind)

  datatype RunOutput =
    | RunInterrupted(interrupt: Interruption, snapshot: MachineState)
    | RunCompleted(trace: seq<TraceEntry>, output: Output, snapshot: MachineState)

  datatype StreamEvent = StepStarted(step: Step, count: nat) | StepFinished(step: Step, kind: Kind)

  /** Everything that one execution leaves behind. */
  datatype Execution = Execution(saves: seq<Record>, trace: seq<TraceEntry>, events: seq<StreamEvent>,
                                 outcome: Attempt<RunOutput>)

  /** Something saved, traced and sent before the rest of an execution. */
  function Before(save: Record, entry: TraceEntry, events: seq<StreamEvent>, rest: Execution): Execution {
    Execution([save] + rest.saves, [entry] + rest.trace, events + rest.events, rest.outcome)
  }

  /** The interpreter that both loops implement; `count` steps are behind it, `trace` is what they
      left in the trace. */
  function Interp(m: Machine, run: RunId, at: Position, count: nat, max: nat, trace: seq<TraceEntry>): Execution
    decreases max - count
  {
    if count + 1 > max then Execution([], [], [], Failure(MaxStepsExceeded))
    else
      var started := StepStarted(at.step, count + 1);
      var (state, result) := m.transition(at.step, at.state);
      if result.Failure? then Execution([], [], [started], Failure(result.error))
      else
        match result.value
        case Next(next) =>
          var entry := TraceEntry(at.step, WasNext);
          Before(RunningRecord(state, Some(next), run), entry, [started, StepFinished(at.step, WasNext)],
                 Interp(m, run, Position(state, next), count + 1, max, trace + [entry]))
        case Interrupt(interrupt) =>
          Execution([InterruptedRecord(state, at.step, interrupt, run)], [TraceEntry(at.step, WasInterrupt)],
                    [started, StepFinished(at.step, WasInterrupt)], Success(RunInterrupted(interrupt, state)))
        case Complete(output) =>
          var entry := TraceEntry(at.step, WasComplete);
          Execution([RunningRecord(state, None, run)], [entry], [started, StepFinished(at.step, WasComplete)],
                    Success(RunCompleted(trace + [entry], output, state)))
  }

  /** What is left behind in the end, given what was saved, traced and sent so far. */
  ghost predicate Continues(whole: Execution, saves: seq<Record>, trace: seq<TraceEntry>, events: seq<StreamEvent>,
                            rest: Execution)
  {
    && whole.saves == saves + rest.saves && whole.trace == trace + rest.trace
    && whole.events == events + rest.events && whole.outcome == rest.outcome
  }

  lemma Continued(whole: Execution, saves: seq<Record>, trace: seq<TraceEntry>, events: seq<StreamEvent>,
                  save: Record, entry: TraceEntry, sent: seq<StreamEvent>, rest: Execution)
    requires Continues(whole, saves, trace, events, Before(save, entry, sent, rest))
    ensures Continues(whole, saves + [save], trace + [entry], events + sent, rest)
  {
    assert saves + ([save] + rest.saves) == saves + [save] + rest.saves;
    assert trace + ([entry] + rest.trace) == trace + [entry] + rest.trace;
    assert events + (sent + rest.events) == events + sent + rest.events;
  }

  // ---------------------------------------------------------------- the two loops

  /** The loop behind `invoke`. */
  method InvokeLoop(m: Machine, req: Request, start: Position)
    returns (saves: seq<Record>, trace: seq<TraceEntry>, r: Attempt<RunOutput>)
    ensures var whole := Interp(m, req.run, start, 0, req.maxSteps, []);
            saves == whole.saves && trace == whole.trace && r == whole.outcome
  {
    saves, trace := [], [];
    var state, current := start.state, start.step;
    var count := 0;
    ghost var whole := Interp(m, req.run, start, 0, req.maxSteps, []);
    ghost var events: seq<StreamEvent> := [];
    while true
      invariant count <= req.maxSteps
      invariant Continues(whole, saves, trace, events,
                          Interp(m, req.run, Position(state, current), count, req.maxSteps, trace))
      decreases req.maxSteps - count
    {
      ghost var rest := Interp(m, req.run, Position(state, current), count, req.maxSteps, trace);
      count := count + 1;
      if count > req.maxSteps {
        return saves, trace, Failure(MaxStepsExceeded);
      }
      ghost var started := StepStarted(current, count);
      var (moved, result) := m.transition(current, state);
      state := moved;
      if result.Failure? {
        return saves, trace, Failure(result.error);
      }
      match result.value
      case Next(next) =>
        ghost var sent := [started, StepFinished(current, WasNext)];
        Continued(whole, saves, trace, events, RunningRecord(state, Some(next), req.run),
                  TraceEntry(current, WasNext), sent,
                  Interp(m, req.run, Position(state, next), count, req.maxSteps, trace + [TraceEntry(current, WasNext)]));
        saves := saves + [RunningRecord(state, Some(next), req.run)];
        trace := trace + [TraceEntry(current, WasNext)];
        events := events + sent;
        current := next;
      case Interrupt(interrupt) =>
        saves := saves + [InterruptedRecord(state, current, interrupt, req.run)];
        trace := trace + [TraceEntry(current, WasInterrupt)];
        return saves, trace, Success(RunInterrupted(interrupt, state));
      case Complete(output) =>
        saves := saves + [RunningRecord(state, None, req.run)];
        trace := trace + [TraceEntry(current, WasComplete)];
        return saves, trace, Success(RunCompleted(trace, output, state));
    }
  }

  /** The loop behind `stream`: it also sends an event before and after each step, the latter once
      the checkpoint of the step is saved. */
  method StreamLoop(m: Machine, req: Request, start: Position)
    returns (saves: seq<Record>, trace: seq<TraceEntry>, events: seq<StreamEvent>, r: Attempt<RunOutput>)
    ensures Execution(saves, trace, events, r) == Interp(m, req.run, start, 0, req.maxSteps, [])
  {
    saves, trace, events := [], [], [];
    var state, current := start.state, start.step;
    var count := 0;
    ghost var whole := Interp(m, req.run, start, 0, req.maxSteps, []);
    while true
      invariant count <= req.maxSteps
      invariant Continues(whole, saves, trace, events,
                          Interp(m, req.run, Position(state, current), count, req.maxSteps, trace))
      decreases req.maxSteps - count
    {
      count := count + 1;
      if count > req.maxSteps {
        return saves, trace, events, Failure(MaxStepsExceeded);
      }
      ghost var before := events;
      events := events + [StepStarted(current, count)];
      var (moved, result) := m.transition(current, state);
      state := moved;
      if result.Failure? {
        return saves, trace, events, Failure(result.error);
      }
      match result.value
      case Next(next) =>
        ghost var sent := [StepStarted(current, count), StepFinished(current, WasNext)];
        Continued(whole, saves, trace, before, RunningRecord(state, Some(next), req.run),
                  TraceEntry(current, WasNext), sent,
                  Interp(m, req.run, Position(state, next), count, req.maxSteps, trace + [TraceEntry(current, WasNext)]));
        saves := saves + [RunningRecord(state, Some(next), req.run)];
        trace := trace + [TraceEntry(current, WasNext)];
        events := events + [StepFinished(current, WasNext)];
        assert events == before + sent;
        current := next;
      case Interrupt(interrupt) =>
        saves := saves + [InterruptedRecord(state, current, interrupt, req.run)];
        trace := trace + [TraceEntry(current, WasInterrupt)];
        events := events + [StepFinished(current, WasInterrupt)];
        assert events == before + [StepStarted(current, count), StepFinished(current, WasInterrupt)];
        return saves, trace, events, Success(RunInterrupted(interrupt, state));
      case Complete(output) =>
        saves := saves + [RunningRecord(state, None, req.run)];
        trace := trace + [TraceEntry(current, WasComplete)];
        events := events + [StepFinished(current, WasComplete)];
        assert events == before + [StepStarted(current, count), StepFinished(current, WasComplete)];
        return saves, trace, events, Success(RunCompleted(trace, output, state));
    }
  }

  // ---------------------------------------------------------------- what the interpreter promises

  /** The steps that the stream reports as finished. */
  function FinishedOf(events: seq<StreamEvent>): seq<TraceEntry> {
    if |events| == 0 then []
    else
      var rest := FinishedOf(events[1..]);
      if events[0].StepFinished? then [TraceEntry(events[0].step, events[0].kind)] + rest else rest
  }

  /** The stream reports exactly the steps of the trace, and there is one checkpoint for each. */
  lemma {:induction false} OneCheckpointPerStep(m: Machine, run: RunId, at: Position, count: nat, max: nat,
                                                trace: seq<TraceEntry>)
    ensures var e := Interp(m, run, at, count, max, trace);
            FinishedOf(e.events) == e.trace && |e.saves| == |e.trace|
            && (count <= max ==> |e.saves| <= max - count)
    decreases max - count
  {
    var e := Interp(m, run, at, count, max, trace);
    if count + 1 <= max {
      var (state, result) := m.transition(at.step, at.state);
      assert FinishedOf(e.events[1..]) == FinishedOf(e.events);
      if result.Success? {
        assert e.events[1].StepFinished?;
        if result.value.Next? {
          var entry := TraceEntry(at.step, WasNext);
          OneCheckpointPerStep(m, run, Position(state, result.value.step), count + 1, max, trace + [entry]);
          var rest := Interp(m, run, Position(state, result.value.step), count + 1, max, trace + [entry]);
          assert e.events[1..][1..] == rest.events;
        } else {
          assert e.events[1..][1..] == [];
        }
      } else {
        assert e.events[1..] == [];
      }
    }
  }

  /** How the checkpoint of step `k` reflects the step: it names the step that follows, or the
      interrupt, or neither. */
  ghost predicate Reflects(e: Execution, k: nat, run: RunId)
    requires |e.saves| == |e.trace| && k < |e.saves|
  {
    var save := e.saves[k];
    && save.run == Some(run)
    && match e.trace[k].kind
       case WasNext => save.nextStep.Some? && save.interrupt.None? && save.interruptedStep.None?
                       && (k + 1 < |e.trace| ==> save.nextStep == Some(e.trace[k + 1].step))
       case WasInterrupt => k == |e.saves| - 1 && save.nextStep.None? && save.interruptedStep == Some(e.trace[k].step)
                            && save.interrupt.Some?
                            && e.outcome == Success(RunInterrupted(save.interrupt.value, save.state))
       case WasComplete => k == |e.saves| - 1 && save == RunningRecord(save.state, None, run)
                           && e.outcome.Success? && e.outcome.value.RunCompleted?
                           && e.outcome.value.snapshot == save.state
  }

  /** Every checkpoint reflects its step; an interrupted or completed run ends with one that says
      so, and the trace it returns is the trace of all its steps. */
  lemma {:induction false} CheckpointsReflectSteps(m: Machine, run: RunId, at: Position, count: nat, max: nat,
                                                   trace: seq<TraceEntry>)
    ensures var e := Interp(m, run, at, count, max, trace);
            && |e.saves| == |e.trace|
            && (forall k :: 0 <= k < |e.saves| ==> Reflects(e, k, run))
            && (|e.trace| > 0 ==> e.trace[0].step == at.step)
            && (e.outcome.Success? ==> |e.saves| > 0 && !e.trace[|e.trace| - 1].kind.WasNext?)
            && (e.outcome.Success? && e.outcome.value.RunCompleted? ==> e.outcome.value.trace == trace + e.trace)
    decreases max - count
  {
    var e := Interp(m, run, at, count, max, trace);
    if count + 1 <= max {
      var (state, result) := m.transition(at.step, at.state);
      if result.Success? && result.value.Next? {
        var entry := TraceEntry(at.step, WasNext);
        var rest := Interp(m, run, Position(state, result.value.step), count + 1, max, trace + [entry]);
        CheckpointsReflectSteps(m, run, Position(state, result.value.step), count + 1, max, trace + [entry]);
        forall k | 0 <= k < |e.saves| ensures Reflects(e, k, run) {
          if k > 0 {
            assert e.saves[k] == rest.saves[k - 1] && e.trace[k] == rest.trace[k - 1];
            assert Reflects(rest, k - 1, run);
          }
        }
        assert trace + [entry] + rest.trace == trace + ([entry] + rest.trace);
      }
    }
  }

  /** The state that step `k` begins with: the one it starts in, or the one saved after the step before. */
  function StateBefore(e: Execution, at: Position, k: nat): MachineState
    requires k <= |e.saves|
  {
    if k == 0 then at.state else e.saves[k - 1].state
  }

  /** Step `k` is what the machine makes of its step and the state before it: what is saved is the state
      after the transition, and what the transition returns is what the checkpoint and, at the end, the
      outcome say. */
  ghost predicate Transitions(m: Machine, e: Execution, at: Position, run: RunId, before: seq<TraceEntry>, k: nat)
    requires |e.saves| == |e.trace| && k < |e.saves|
  {
    var (state, result) := m.transition(e.trace[k].step, StateBefore(e, at, k));
    && result.Success?
    && match result.value
       case Next(next) =>
         && e.trace[k].kind == WasNext && e.saves[k] == Record(state, Some(next), None, None, Some(run))
         && (k + 1 < |e.trace| ==> e.trace[k + 1].step == next)
       case Interrupt(interrupt) =>
         && e.trace[k].kind == WasInterrupt && k + 1 == |e.trace|
         && e.saves[k] == Record(state, None, Some(e.trace[k].step), Some(interrupt), Some(run))
         && e.outcome == Success(RunInterrupted(interrupt, state))
       case Complete(output) =>
         && e.trace[k].kind == WasComplete && k + 1 == |e.trace|
         && e.saves[k] == Record(state, None, None, None, Some(run))
         && e.outcome == Success(RunCompleted(before + e.trace, output, state))
  }

  /** The step limit is used up, or the step after the saved ones fails. */
  ghost predicate Breaks(m: Machine, e: Execution, at: Position, left: int)
    requires |e.saves| == |e.trace| && e.outcome.Failure?
  {
    var k := |e.saves|;
    if left <= k then e.outcome.error == MaxStepsExceeded
    else
      && (k > 0 ==> e.saves[k - 1].nextStep.Some?)
      && var step := if k == 0 then at.step else e.saves[k - 1].nextStep.value;
         m.transition(step, StateBefore(e, at, k)).1 == Failure(e.outcome.error)
  }

  lemma TransitionLater(m: Machine, e: Execution, at: Position, save: Record, entry: TraceEntry, rest: Execution,
                        next: Position, run: RunId, before: seq<TraceEntry>, k: nat)
    requires e.saves == [save] + rest.saves && e.trace == [entry] + rest.trace && e.outcome == rest.outcome
    requires |rest.saves| == |rest.trace| && save.state == next.state
    requires 0 < k < |e.saves| && Transitions(m, rest, next, run, before + [entry], k - 1)
    ensures Transitions(m, e, at, run, before, k)
  {
    assert StateBefore(e, at, k) == StateBefore(rest, next, k - 1);
    assert before + [entry] + rest.trace == before + ([entry] + rest.trace);
  }

  /** An execution is a run of the machine: every saved step is a transition from the state saved before
      it, and one that ends in an error ends at the step limit or with the error of the next transition. */
  lemma {:induction false} StepsAreTransitions(m: Machine, run: RunId, at: Position, count: nat, max: nat,
                                               trace: seq<TraceEntry>)
    ensures var e := Interp(m, run, at, count, max, trace);
            && |e.saves| == |e.trace|
            && (|e.trace| > 0 ==> e.trace[0].step == at.step)
            && (forall k :: 0 <= k < |e.saves| ==> Transitions(m, e, at, run, trace, k))
            && (e.outcome.Failure? ==> Breaks(m, e, at, max - count))
            && (e.outcome.Success? ==> |e.saves| > 0 && e.trace[|e.trace| - 1].kind != WasNext)
    decreases max - count
  {
    var e := Interp(m, run, at, count, max, trace);
    if count + 1 <= max {
      var (state, result) := m.transition(at.step, at.state);
      if result.Success? && result.value.Next? {
        var entry := TraceEntry(at.step, WasNext);
        var next := Position(state, result.value.step);
        var rest := Interp(m, run, next, count + 1, max, trace + [entry]);
        StepsAreTransitions(m, run, next, count + 1, max, trace + [entry]);
        var save := RunningRecord(state, Some(result.value.step), run);
        assert e == Before(save, entry, [StepStarted(at.step, count + 1), StepFinished(at.step, WasNext)], rest);
        assert Transitions(m, e, at, run, trace, 0);
        forall k | 0 < k < |e.saves| ensures Transitions(m, e, at, run, trace, k) {
          TransitionLater(m, e, at, save, entry, rest, next, run, trace, k);
        }
        if rest.outcome.Failure? {
          assert StateBefore(e, at, |e.saves|) == StateBefore(rest, next, |rest.saves|);
        }
      }
    }
  }

  /** The events of a stream: each step is announced with its number and reported with its kind; a step
      that fails is only announced. */
  lemma {:induction false} EventsReportSteps(m: Machine, run: RunId, at: Position, count: nat, max: nat,
                                             trace: seq<TraceEntry>)
    ensures var e := Interp(m, run, at, count, max, trace);
            && 2 * |e.trace| <= |e.events| <= 2 * |e.trace| + 1
            && (|e.events| > 2 * |e.trace| <==> e.outcome.Failure? && |e.trace| < max - count)
            && (forall k :: 0 <= k < |e.trace| ==>
                  && e.events[2 * k] == StepStarted(e.trace[k].step, count + k + 1)
                  && e.events[2 * k + 1] == StepFinished(e.trace[k].step, e.trace[k].kind))
    decreases max - count
  {
    var e := Interp(m, run, at, count, max, trace);
    if count + 1 <= max {
      var (state, result) := m.transition(at.step, at.state);
      if result.Success? && result.value.Next? {
        var entry := TraceEntry(at.step, WasNext);
        var next := Position(state, result.value.step);
        var rest := Interp(m, run, next, count + 1, max, trace + [entry]);
        EventsReportSteps(m, run, next, count + 1, max, trace + [entry]);
        forall k | 0 <= k < |e.trace|
          ensures e.events[2 * k] == StepStarted(e.trace[k].step, count + k + 1)
                  && e.events[2 * k + 1] == StepFinished(e.trace[k].step, e.trace[k].kind)
        {
          if k > 0 {
            assert e.trace[k] == rest.trace[k - 1];
            assert e.events[2 * k] == rest.events[2 * (k - 1)] && e.events[2 * k + 1] == rest.events[2 * (k - 1) + 1];
          }
        }
      }
    }
  }

  /** A run that is executed anew, after the checkpoint of another run or after one that completed or
      interrupted, hands the saved state to `newState` and begins at the machine's first step. */
  lemma NewRunStartsOver(m: Machine, run: RunId, start: Position, max: nat, k: nat, req: Request)
    requires req.command == Execute
    requires var e := Interp(m, run, start, 0, max, []);
             k < |e.saves| && k < |e.trace| && (req.run != run || e.trace[k].kind != WasNext)
    ensures var e := Interp(m, run, start, 0, max, []);
            RestoreOrStart(m, req, Some(e.saves[k]))
            == At(m.newState(req.input, Some(e.saves[k].state), req.snapshot), m.startStep)
    ensures RestoreOrStart(m, req, None) == At(m.newState(req.input, None, req.snapshot), m.startStep)
  {
    CheckpointsReflectSteps(m, run, start, 0, max, []);
    hide Interp;
    assert Reflects(Interp(m, run, start, 0, max, []), k, run);
  }

  /** Saving an interrupt and resuming it goes on from the saved state at the interrupted step, or
      where the machine jumps, with nothing but `applyResumeInput` in between. */
  lemma ResumeContinues(m: Machine, run: RunId, start: Position, max: nat, req: Request)
    requires var e := Interp(m, run, start, 0, max, []); e.outcome.Success? && e.outcome.value.RunInterrupted?
    requires req.command == Resume
    ensures var e := Interp(m, run, start, 0, max, []);
            && |e.saves| > 0 && |e.trace| > 0
            && var checkpoint := e.saves[|e.saves| - 1];
               var state := m.applyResumeInput(e.outcome.value.snapshot, req.input);
               RestoreOrStart(m, req, Some(checkpoint))
               == At(state, match m.resumeAction(e.outcome.value.interrupt)
                            case ReenterInterruptedStep => e.trace[|e.trace| - 1].step
                            case JumpTo(step) => step)
  {
    CheckpointsReflectSteps(m, run, start, 0, max, []);
    var e := Interp(m, run, start, 0, max, []);
    assert Reflects(e, |e.saves| - 1, run);
  }

  /** Nothing but an interrupted checkpoint can be resumed: not the checkpoint of a completed run,
      not one in the middle of a run. */
  lemma OnlyInterruptsResume(m: Machine, run: RunId, start: Position, max: nat, k: nat, req: Request)
    requires k < |Interp(m, run, start, 0, max, []).saves| && req.command == Resume
    ensures var e := Interp(m, run, start, 0, max, []);
            RestoreOrStart(m, req, Some(e.saves[k])) == Failure(NoPendingInterrupt)
            || (k == |e.saves| - 1 && e.outcome.Success? && e.outcome.value.RunInterrupted?)
    ensures RestoreOrStart(m, req, None) == Failure(NoPendingInterrupt)
  {
    CheckpointsReflectSteps(m, run, start, 0, max, []);
    assert Reflects(Interp(m, run, start, 0, max, []), k, run);
  }

  /** Only the number of steps that are left matters, not how many were taken. */
  lemma {:induction false} BudgetIsRelative(m: Machine, run: RunId, at: Position, count: nat, max: nat,
                                            trace: seq<TraceEntry>, shift: nat)
    ensures var a := Interp(m, run, at, count, max, trace);
            var b := Interp(m, run, at, count + shift, max + shift, trace);
            a.saves == b.saves && a.trace == b.trace && a.outcome == b.outcome
    decreases max - count
  {
    if count + 1 <= max {
      var (state, result) := m.transition(at.step, at.state);
      if result.Success? && result.value.Next? {
        BudgetIsRelative(m, run, Position(state, result.value.step), count + 1, max,
                         trace + [TraceEntry(at.step, WasNext)], shift);
      }
    }
  }

  /** The checkpoint of step `k` and the steps that were left determine the rest of the run. */
  lemma {:induction false} RestOfRun(m: Machine, run: RunId, start: Position, count: nat, max: nat,
                                     trace: seq<TraceEntry>, k: nat)
    requires var e := Interp(m, run, start, count, max, trace);
             k < |e.saves| && k < |e.trace| && e.trace[k].kind == WasNext
    ensures var e := Interp(m, run, start, count, max, trace);
            && e.saves[k].nextStep.Some?
            && var at := Position(e.saves[k].state, e.saves[k].nextStep.value);
               var rest := Interp(m, run, at, count + k + 1, max, trace + e.trace[..k + 1]);
               rest.saves == e.saves[k + 1..] && rest.trace == e.trace[k + 1..] && rest.outcome == e.outcome
    decreases k
  {
    hide Interp;
    var e := Interp(m, run, start, count, max, trace);
    Unrolled(m, run, start, count, max, trace);
    var (state, result) := m.transition(start.step, start.state);
    if result.Success? && result.value.Next? {
      var entry := TraceEntry(start.step, WasNext);
      var next := Position(state, result.value.step);
      var rest := Interp(m, run, next, count + 1, max, trace + [entry]);
      if k == 0 {
        assert e.trace[..1] == [entry];
      } else {
        RestOfRun(m, run, next, count + 1, max, trace + [entry], k - 1);
        assert trace + [entry] + rest.trace[..k] == trace + e.trace[..k + 1];
        assert e.saves[k + 1..] == rest.saves[k..] && e.trace[k + 1..] == rest.trace[k..];
      }
    }
  }

  /** An execution that saves anything begins with its first step. */
  lemma Unrolled(m: Machine, run: RunId, start: Position, count: nat, max: nat, trace: seq<TraceEntry>)
    ensures var e := Interp(m, run, start, count, max, trace);
            var (state, result) := m.transition(start.step, start.state);
            && (|e.saves| > 0 ==>
                  && result.Success?
                  && if result.value.Next? then
                       var entry := TraceEntry(start.step, WasNext);
                       var rest := Interp(m, run, Position(state, result.value.step), count + 1, max, trace + [entry]);
                       && e.saves == [RunningRecord(state, Some(result.value.step), run)] + rest.saves
                       && e.trace == [entry] + rest.trace && e.outcome == rest.outcome
                     else |e.trace| == 1 && e.trace[0].kind != WasNext)
  {
    var e := Interp(m, run, start, count, max, trace);
    if |e.saves| > 0 {
      assert count + 1 <= max;
      assert m.transition(start.step, start.state).1.Success?;
    }
  }

  /** The same outcome, but for what the trace of a completed run begins with. */
  ghost predicate SameEnd(a: Attempt<RunOutput>, b: Attempt<RunOutput>, before: seq<TraceEntry>,
                          after: seq<TraceEntry>)
  {
    if a.Success? && a.value.RunCompleted? then
      && b.Success? && b.value.RunCompleted? && b.value.output == a.value.output && b.value.snapshot == a.value.snapshot
      && exists rest: seq<TraceEntry> :: a.value.trace == before + rest && b.value.trace == after + rest
    else b == a
  }

  /** With at least as many steps left an execution goes at least as far, and as far as it goes it does
      the same; the same in full, unless the step limit ended the shorter one. */
  lemma {:induction false} MoreStepsGoFurther(m: Machine, run: RunId, at: Position, count: nat, max: nat,
                                              trace: seq<TraceEntry>, count': nat, max': nat, trace': seq<TraceEntry>)
    requires max - count <= max' - count'
    ensures var a, b := Interp(m, run, at, count, max, trace), Interp(m, run, at, count', max', trace');
            && a.saves <= b.saves && a.trace <= b.trace
            && (a.outcome != Failure(MaxStepsExceeded) ==>
                  a.saves == b.saves && a.trace == b.trace && SameEnd(a.outcome, b.outcome, trace, trace'))
    decreases max - count
  {
    if count + 1 <= max {
      var (state, result) := m.transition(at.step, at.state);
      if result.Success? && result.value.Next? {
        var entry := TraceEntry(at.step, WasNext);
        var next := Position(state, result.value.step);
        MoreStepsGoFurther(m, run, next, count + 1, max, trace + [entry], count' + 1, max', trace' + [entry]);
        var rest := Interp(m, run, next, count + 1, max, trace + [entry]);
        if rest.outcome.Success? && rest.outcome.value.RunCompleted? {
          var more: seq<TraceEntry> :| rest.outcome.value.trace == trace + [entry] + more
            && Interp(m, run, next, count' + 1, max', trace' + [entry]).outcome.value.trace == trace' + [entry] + more;
          assert trace + [entry] + more == trace + ([entry] + more);
          assert trace' + [entry] + more == trace' + ([entry] + more);
        }
      } else if result.Success? && result.value.Complete? {
        var last := TraceEntry(at.step, WasComplete);
        assert trace + [last] == trace + [last] && trace' + [last] == trace' + [last];
      }
    }
  }

  /** A run that broke off after the checkpoint of step `k` and is executed again under its own id does
      what was left to do, and, having its whole step limit again, goes on if the first run only came
      to that limit; provided the machine takes the old state over unchanged. */
  lemma SameRunContinues(m: Machine, req: Request, start: Position, k: nat)
    requires req.command == Execute
    requires var e := Interp(m, req.run, start, 0, req.maxSteps, []);
             k < |e.saves| && k < |e.trace| && e.trace[k].kind == WasNext
             && m.newState(req.input, Some(e.saves[k].state), req.snapshot) == Success(e.saves[k].state)
    ensures var e := Interp(m, req.run, start, 0, req.maxSteps, []);
            var at := RestoreOrStart(m, req, Some(e.saves[k]));
            && at.Success?
            && var again := Interp(m, req.run, at.value, 0, req.maxSteps, []);
               && e.saves[k + 1..] <= again.saves && e.trace[k + 1..] <= again.trace
               && (e.outcome != Failure(MaxStepsExceeded) ==>
                     && again.saves == e.saves[k + 1..] && again.trace == e.trace[k + 1..]
                     && SameEnd(e.outcome, again.outcome, e.trace[..k + 1], []))
  {
    hide Interp, SameEnd;
    RestOfRun(m, req.run, start, 0, req.maxSteps, [], k);
    CheckpointsReflectSteps(m, req.run, start, 0, req.maxSteps, []);
    var e := Interp(m, req.run, start, 0, req.maxSteps, []);
    assert Reflects(e, k, req.run);
    assert [] + e.trace[..k + 1] == e.trace[..k + 1];
    var at := RestoreOrStart(m, req, Some(e.saves[k])).value;
    MoreStepsGoFurther(m, req.run, at, k + 1, req.maxSteps, e.trace[..k + 1], 0, req.maxSteps, []);
  }
}
