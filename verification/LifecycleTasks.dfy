/**
 The lifecycle of runs as a state machine over the steps of any number of tasks of one process,
 and of the other workers that share its store.

 A task starts a run, or takes the event lock of a run (module LockMap) and appends to it: it
 looks the run up, takes numbers one by one, writes to the store and gives the numbers back or
 publishes. Starting a run takes no lock. All of these steps interleave freely.
 */
module LifecycleTasks {
  import opened Types
  import opened StoreSpec
  import opened StoreInv
  import opened StoreHistory
  import opened Registry
  import opened Lifecycle
  import L = LockMap

  type TaskId = L.TaskId

  /** What a task wants under the lock of a run: a commit, one event, or the end of the run. */
  datatype Call =
    | CommitCall(run: RunId, session: SessionId, scope: Scope, plan: CommitPlan)
    | AppendCall(run: RunId, scope: Scope)
    | FinishCall(finish: RunFinish, scope: Scope, entries: seq<EntryWrite>)

  /** Where a task is. `Starting`: it registered the run and is about to store it. `Allocating`: it
      found the run and takes numbers. `Storing`: its events are built. `GivingBack`: the events do
      not fit or were refused. `Publishing`: they are stored, or the run is over. `Leaving`: it is
      done but for its lock. */
  datatype Phase =
    | Outside
    | Starting(start: RunStart)
    | Allocating(call: Call, seqs: seq<int>)
    | Storing(call: Call, seqs: seq<int>, events: seq<Event>)
    | GivingBack(call: Call, seqs: seq<int>)
    | Publishing(call: Call, over: bool)
    | Leaving

  /** `counters` are the sequence counters of the registered runs; `lost` counts the numbers of a
      registered run that were neither stored nor given back. */
  datatype State = State(tasks: map<TaskId, Phase>, locks: L.State, counters: map<RunId, int>, store: Store,
                         lost: map<RunId, nat>)

  datatype Action =
    | Lock(lockAction: L.Action)
    | Register(start: RunStart, maxInFlight: nat)
    | Create(now: int)
    | Look(call: Call)
    | Allocate
    | Build(events: seq<Event>)
    | Answer(now: int)
    | GiveBack
    | Publish
    | Elsewhere(step: StoreHistory.Step)  // another worker, or an operation without a number

  datatype Act = Act(task: TaskId, action: Action)

  function RunOf(call: Call): RunId {
    if call.FinishCall? then call.finish.run else call.run
  }

  function ScopeOf(call: Call): Scope {
    call.scope
  }

  function CountOf(call: Call): nat {
    if call.CommitCall? then call.plan.eventCount else 1
  }

  /** The built events are what the call may write under these numbers. */
  predicate Fits(call: Call, events: seq<Event>, seqs: seq<int>) {
    && |events| == |seqs| == CountOf(call)
    && match call
       case CommitCall(run, session, _, plan) => EventsFit(run, session, plan.finish, events, seqs)
       case AppendCall(run, _) => events[0].run == run && events[0].num == seqs[0] && !events[0].terminal
       case FinishCall(finish, _, _) => FinishFits(finish, events[0], seqs[0])
  }

  /** What becomes of the numbers: stored, not needed because the run is over, or refused; a refused
      commit gives them back, a refused event or finish does not. */
  datatype Verdict = Kept | Over | Rejected(back: bool)

  function StoreAnswer(s: Store, call: Call, events: seq<Event>, now: int): (Store, Verdict)
    requires |events| == CountOf(call)
  {
    match call
    case CommitCall(run, session, scope, plan) =>
      var c := Commit(run, session, scope, plan.lease, plan.checkpoint, events, plan.effects, plan.items,
                      plan.entries, plan.finish);
      var (next, reply) := CommitRun(s, c, now);
      (next, if reply.Err? then Rejected(true) else if reply.value.Recorded? then Kept else Over)
    case AppendCall(run, scope) =>
      var (next, reply) := RecordEvent(s, run, scope, events[0]);
      (next, if reply == Ok(true) then Kept else if reply.Ok? then Over else Rejected(false))
    case FinishCall(finish, scope, entries) =>
      var f := FinishRecord(finish.run, finish.session, scope, finish.status, finish.reason, events[0], entries);
      var (next, reply) := FinishRun(s, f);
      (next, if reply.Ok? then Over else Rejected(false))
  }

  function PhaseAt(st: State, t: TaskId): Phase {
    if t in st.tasks then st.tasks[t] else Outside
  }

  function Moved(st: State, t: TaskId, phase: Phase): State {
    st.(tasks := st.tasks[t := phase])
  }

  function Lost(st: State, r: RunId): nat {
    if r in st.lost then st.lost[r] else 0
  }

  /** What a call is checked for before it takes the lock. */
  predicate Planned(call: Call) {
    match call
    case CommitCall(run, session, _, plan) =>
      && !(plan.eventCount == 0 && plan.effects == [] && plan.items == [] && plan.entries == [])
      && (plan.finish.Some? ==> plan.finish.value.status.IsTerminal() && plan.finish.value.run == run
                                && plan.finish.value.session == session)
    case AppendCall(_, _) => true
    case FinishCall(finish, _, _) => finish.status.IsTerminal()
  }

  /** The run of this id and scope is stored. */
  predicate Known(s: Store, call: Call) {
    RunOf(call) in s.runs && s.runs[RunOf(call)].start.scope == ScopeOf(call)
  }

  ghost predicate StartsStay(a: Store, b: Store) {
    forall r :: r in a.runs ==> r in b.runs && b.runs[r].start == a.runs[r].start
  }

  predicate HoldsLock(st: State, t: TaskId, r: RunId) {
    L.TaskAt(st.locks, t).Holding? && L.TaskAt(st.locks, t).lock.run == r
  }

  // ---------------------------------------------------------------- steps

  function EndStore(st: State, t: TaskId, now: int): State
    requires PhaseAt(st, t).Starting?
  {
    var start := PhaseAt(st, t).start;
    var (next, reply) := StartRun(st.store, start, now);
    Moved(st, t, Outside).(store := next,
                           counters := if reply == Ok(Created) then st.counters else st.counters - {start.run})
  }

  /** The next number of the run; a run that is not registered has none. */
  function TakeNumber(st: State, t: TaskId): State
    requires PhaseAt(st, t).Allocating?
  {
    var call := PhaseAt(st, t).call;
    var r := RunOf(call);
    if r !in st.counters then Moved(st, t, Leaving)
    else Moved(st, t, Allocating(call, PhaseAt(st, t).seqs + [st.counters[r] + 1]))
         .(counters := st.counters[r := st.counters[r] + 1])
  }

  function Written(st: State, t: TaskId, now: int): State
    requires PhaseAt(st, t).Storing? && |PhaseAt(st, t).events| == CountOf(PhaseAt(st, t).call)
  {
    var p := PhaseAt(st, t);
    var (next, verdict) := StoreAnswer(st.store, p.call, p.events, now);
    match verdict
    case Kept => Moved(st, t, Publishing(p.call, false)).(store := next)
    case Over => Moved(st, t, Publishing(p.call, true)).(store := next)
    case Rejected(back) =>
      if back then Moved(st, t, GivingBack(p.call, p.seqs)).(store := next)
      else Moved(st, t, Leaving).(store := next,
                                  lost := st.lost[RunOf(p.call) := Lost(st, RunOf(p.call)) + |p.seqs|])
  }

  /** The last number goes back, if it is the last one that was handed out. */
  function Rewind(st: State, t: TaskId): State
    requires PhaseAt(st, t).GivingBack?
  {
    var p := PhaseAt(st, t);
    if |p.seqs| == 0 then Moved(st, t, Leaving)
    else
      var r, last := RunOf(p.call), p.seqs[|p.seqs| - 1];
      Moved(st, t, GivingBack(p.call, p.seqs[..|p.seqs| - 1]))
      .(counters := if r in st.counters && st.counters[r] == last then st.counters[r := last - 1] else st.counters)
  }

  /** One step of one task; a step that is not enabled changes nothing. Other workers do anything to
      the store but append to a run that is registered here, which they may only end. */
  function Next(st: State, act: Act): State {
    var t := act.task;
    var p := PhaseAt(st, t);
    match act.action
    case Lock(a) =>
      if !p.Outside? && !p.Leaving? then st
      else
        var locks := L.Next(st.locks, L.Step(t, a));
        if a.Leave? then Moved(st, t, Outside).(locks := locks) else st.(locks := locks)
    case Register(start, maxInFlight) =>
      if !p.Outside? || start.run in st.counters || |st.counters| >= maxInFlight then st
      else Moved(st, t, Starting(start)).(counters := st.counters[start.run := 0], lost := st.lost - {start.run})
    case Create(now) => if p.Starting? then EndStore(st, t, now) else st
    case Look(call) =>
      if !p.Outside? || !HoldsLock(st, t, RunOf(call)) || !Planned(call) then st
      else if !Known(st.store, call) then Moved(st, t, Leaving)
      else Moved(st, t, Allocating(call, []))
    case Allocate => if p.Allocating? && |p.seqs| < CountOf(p.call) then TakeNumber(st, t) else st
    case Build(events) =>
      if !p.Allocating? || |p.seqs| != CountOf(p.call) then st
      else if Fits(p.call, events, p.seqs) then Moved(st, t, Storing(p.call, p.seqs, events))
      else Moved(st, t, GivingBack(p.call, p.seqs))
    case Answer(now) => if p.Storing? && |p.events| == CountOf(p.call) then Written(st, t, now) else st
    case GiveBack => if p.GivingBack? then Rewind(st, t) else st
    case Publish =>
      if !p.Publishing? then st
      else Moved(st, t, Leaving).(counters := if p.over then st.counters - {RunOf(p.call)} else st.counters)
    case Elsewhere(step) =>
      if exists r :: r in st.counters && Appends(step.op, r) then st
      else st.(store := StoreHistory.Next(st.store, step))
  }

  function CountersOf(reg: map<RunId, ActiveRun>): map<RunId, int> {
    map r | r in reg :: reg[r].currentSeq
  }

  /** The steps do to the counters what the methods of the registry do to its runs: registering,
      taking a number, giving it back, publishing and removing. */
  lemma RegistrySteps(reg: map<RunId, ActiveRun>, r: RunId, run: ActiveRun, published: map<RunId, ActiveRun>)
    requires run.currentSeq == 0 && SameCounters(reg, published)
    ensures var counters := CountersOf(reg);
            && CountersOf(reg[r := run]) == counters[r := 0]
            && CountersOf(Advanced(reg, r, 1)) == (if r in counters then counters[r := counters[r] + 1] else counters)
            && CountersOf(Advanced(reg, r, -1)) == (if r in counters then counters[r := counters[r] - 1] else counters)
            && CountersOf(published) == counters
            && CountersOf(reg - {r}) == counters - {r}
  {
  }

  function Initial(s: Store): State {
    State(map[], L.Start(), map[], s, map[])
  }

  /** The process starts on any store, with nothing registered. */
  function Exec(s: Store, acts: seq<Act>, n: nat): State
    requires n <= |acts|
  {
    if n == 0 then Initial(s) else Next(Exec(s, acts, n - 1), acts[n - 1])
  }

  // ---------------------------------------------------------------- invariant

  /** The task has numbers of the run, or is about to take them. */
  predicate Pending(p: Phase, r: RunId) {
    (p.Allocating? || p.Storing? || p.GivingBack?) && RunOf(p.call) == r
  }

  predicate InSection(p: Phase, r: RunId) {
    Pending(p, r) || (p.Publishing? && RunOf(p.call) == r)
  }

  ghost predicate Unborn(st: State, r: RunId) {
    exists t :: t in st.tasks && st.tasks[t].Starting? && st.tasks[t].start.run == r
  }

  /** The counter is the count of the stored events and the lost numbers, and of `k` numbers that
      are under way. */
  ghost predicate Level(counter: int, events: seq<Event>, lost: nat, k: nat) {
    && counter == |events| + lost + k && LastNum(events) + k <= counter
    && (lost == 0 ==> Numbered(events))
  }

  ghost predicate Free(st: State, r: RunId) {
    forall t :: t in st.tasks ==> !Pending(st.tasks[t], r)
  }

  /** The numbers under way are the last ones that were handed out. */
  ghost predicate Latest(seqs: seq<int>, counter: int) {
    forall i :: 0 <= i < |seqs| ==> seqs[i] == counter - |seqs| + 1 + i
  }

  ghost predicate RunLevel(st: State, r: RunId)
    requires r in st.counters && r in st.store.runs
  {
    var events := st.store.runs[r].events;
    && (Free(st, r) ==> Level(st.counters[r], events, Lost(st, r), 0))
    && (forall t :: t in st.tasks && Pending(st.tasks[t], r) ==>
          Level(st.counters[r], events, Lost(st, r), |st.tasks[t].seqs|)
          && Latest(st.tasks[t].seqs, st.counters[r]))
  }

  /** Nothing counts for a run that is being started here and was stored by somebody else: it will
      be unregistered again. */
  ghost predicate RunCounted(st: State, r: RunId) {
    r in st.counters ==>
      if r !in st.store.runs then st.counters[r] == 0 && Lost(st, r) == 0
      else st.store.runs[r].status == Running && !Unborn(st, r) ==> RunLevel(st, r)
  }

  ghost predicate Counted(st: State) {
    forall r :: RunCounted(st, r)
  }

  /** A task in a section holds the run's lock, and the run is stored under the task's scope. */
  ghost predicate Sections(st: State) {
    && (forall t, r :: t in st.tasks && InSection(st.tasks[t], r) ==>
          HoldsLock(st, t, r) && Known(st.store, st.tasks[t].call) && Planned(st.tasks[t].call))
    && (forall t :: t in st.tasks && st.tasks[t].Storing? ==>
          Fits(st.tasks[t].call, st.tasks[t].events, st.tasks[t].seqs))
  }

  ghost predicate Inv(st: State) {
    L.Inv(st.locks) && StoreInv.Valid(st.store) && Sections(st) && Counted(st)
  }

  lemma Exclusive(st: State, t: TaskId, u: TaskId, r: RunId)
    requires L.Inv(st.locks) && Sections(st) && t in st.tasks && u in st.tasks
    requires InSection(st.tasks[t], r) && InSection(st.tasks[u], r)
    ensures t == u
  {
    assert HoldsLock(st, t, r) && HoldsLock(st, u, r);
    assert L.Mapped(st.locks, st.locks.tasks[t].lock) && L.Mapped(st.locks, st.locks.tasks[u].lock);
  }

  // ---------------------------------------------------------------- steps that concern another run

  /** The step of task `t` gives out or takes back no number of the run, and only lets its log be. */
  ghost predicate Aside(st: State, next: State, t: TaskId, q: RunId) {
    && !Pending(PhaseAt(st, t), q) && !Pending(PhaseAt(next, t), q)
    && (forall u :: u != t ==> PhaseAt(next, u) == PhaseAt(st, u))
    && (q in next.counters ==> q in st.counters && next.counters[q] == st.counters[q] && Lost(next, q) == Lost(st, q))
    && (Unborn(st, q) ==> Unborn(next, q))
    && Untouched(st.store, next.store, q)
  }

  lemma AsideKeeps(st: State, next: State, t: TaskId, q: RunId)
    requires Sections(st) && RunCounted(st, q) && Aside(st, next, t, q)
    ensures RunCounted(next, q)
  {
    if q in next.counters && q in next.store.runs && next.store.runs[q].status == Running && !Unborn(next, q) {
      forall u | u in next.tasks && Pending(next.tasks[u], q)
        ensures u in st.tasks && st.tasks[u] == next.tasks[u] && q in st.store.runs
      {
        assert PhaseAt(next, u) == PhaseAt(st, u);
        assert InSection(st.tasks[u], q);
      }
      forall u | u in st.tasks && Pending(st.tasks[u], q) ensures u in next.tasks && st.tasks[u] == next.tasks[u] {
        assert PhaseAt(next, u) == PhaseAt(st, u);
      }
      assert Free(st, q) <==> Free(next, q);
    }
  }

  /** Sections stay where they are: only task `t` moved, it entered no section, runs and locks of the
      others stayed. */
  lemma SectionsKept(st: State, next: State, t: TaskId)
    requires Sections(st) && StartsStay(st.store, next.store)
    requires forall u :: u != t ==> PhaseAt(next, u) == PhaseAt(st, u)
    requires forall u :: u != t ==> L.TaskAt(next.locks, u) == L.TaskAt(st.locks, u)
    requires forall r :: InSection(PhaseAt(next, t), r) ==>
               HoldsLock(next, t, r) && Known(next.store, PhaseAt(next, t).call) && Planned(PhaseAt(next, t).call)
    requires PhaseAt(next, t).Storing? ==>
               Fits(PhaseAt(next, t).call, PhaseAt(next, t).events, PhaseAt(next, t).seqs)
    ensures Sections(next)
  {
    hide Fits;
    forall u, r | u in next.tasks && InSection(next.tasks[u], r)
      ensures HoldsLock(next, u, r) && Known(next.store, next.tasks[u].call) && Planned(next.tasks[u].call)
    {
      assert PhaseAt(next, u) == next.tasks[u];
      if u != t {
        assert u in st.tasks && InSection(st.tasks[u], r) && HoldsLock(st, u, r);
      }
    }
    forall u | u in next.tasks && next.tasks[u].Storing?
      ensures Fits(next.tasks[u].call, next.tasks[u].events, next.tasks[u].seqs)
    {
      assert PhaseAt(next, u) == next.tasks[u];
      if u != t {
        assert u in st.tasks && st.tasks[u] == next.tasks[u];
      }
    }
  }

  lemma LockFrame(st: State, t: TaskId, a: L.Action)
    requires L.Inv(st.locks)
    ensures var locks := L.Next(st.locks, L.Step(t, a));
            L.Inv(locks) && forall u :: u != t ==> L.TaskAt(locks, u) == L.TaskAt(st.locks, u)
  {
    L.NextKeeps(st.locks, L.Step(t, a));
    hide L.Inv, L.Locked, L.StrongCount;
  }

  /** A task that is not starting the run leaves it to those that are. */
  lemma UnbornStays(st: State, next: State, t: TaskId, q: RunId)
    requires forall u :: u != t ==> PhaseAt(next, u) == PhaseAt(st, u)
    requires PhaseAt(st, t).Starting? && PhaseAt(st, t).start.run == q ==> PhaseAt(next, t) == PhaseAt(st, t)
    ensures Unborn(st, q) ==> Unborn(next, q)
  {
    if Unborn(st, q) {
      var u :| u in st.tasks && st.tasks[u].Starting? && st.tasks[u].start.run == q;
      assert PhaseAt(next, u) == PhaseAt(st, u) == st.tasks[u];
    }
  }

  /** A step of a task that has no numbers before or after it. */
  lemma AsideStep(st: State, next: State, t: TaskId)
    requires Sections(st) && Counted(st)
    requires forall u :: u != t ==> PhaseAt(next, u) == PhaseAt(st, u)
    requires !PhaseAt(st, t).Starting? && forall q :: !Pending(PhaseAt(st, t), q) && !Pending(PhaseAt(next, t), q)
    requires next.store == st.store && next.lost == st.lost && next.counters.Keys <= st.counters.Keys
    requires forall q :: q in next.counters ==> next.counters[q] == st.counters[q]
    ensures Counted(next)
  {
    hide Sections, RunCounted, Pending, Unborn;
    forall q ensures RunCounted(next, q) {
      UnbornStays(st, next, t, q);
      AsideKeeps(st, next, t, q);
    }
  }

  lemma LockKeeps(st: State, t: TaskId, a: L.Action)
    requires Inv(st) && (PhaseAt(st, t).Outside? || PhaseAt(st, t).Leaving?)
    ensures Inv(Next(st, Act(t, Lock(a))))
  {
    var next := Next(st, Act(t, Lock(a)));
    LockFrame(st, t, a);
    hide L.Inv, L.Next, StoreInv.Valid, Sections, RunCounted;
    SectionsKept(st, next, t);
    AsideStep(st, next, t);
  }

  // ---------------------------------------------------------------- starting a run

  /** A task begins or ends starting run `r`: that is no concern of other runs. */
  lemma StartStep(st: State, next: State, t: TaskId, r: RunId)
    requires Sections(st) && Counted(st) && next.locks == st.locks && StartsStay(st.store, next.store)
    requires forall u :: u != t ==> PhaseAt(next, u) == PhaseAt(st, u)
    requires PhaseAt(st, t).Outside? || (PhaseAt(st, t).Starting? && PhaseAt(st, t).start.run == r)
    requires PhaseAt(next, t).Outside? || PhaseAt(next, t).Starting?
    requires forall q :: q != r && q in next.counters ==>
               q in st.counters && next.counters[q] == st.counters[q] && Lost(next, q) == Lost(st, q)
    requires forall q :: q != r ==> Untouched(st.store, next.store, q)
    requires RunCounted(next, r)
    ensures Sections(next) && Counted(next)
  {
    hide Sections, RunCounted, Untouched, Unborn, StartsStay, Known, Planned, Fits;
    SectionsKept(st, next, t);
    forall q ensures RunCounted(next, q) {
      if q != r {
        UnbornStays(st, next, t, q);
        AsideKeeps(st, next, t, q);
      }
    }
  }

  lemma NotCounted(st: State, q: RunId)
    requires q in st.counters ==> st.counters[q] == 0 && Lost(st, q) == 0 && Unborn(st, q)
    ensures RunCounted(st, q)
  {
  }

  lemma RegisterKeeps(st: State, t: TaskId, start: RunStart)
    requires Inv(st) && PhaseAt(st, t).Outside? && start.run !in st.counters
    ensures var next := Moved(st, t, Starting(start)).(counters := st.counters[start.run := 0],
                                                       lost := st.lost - {start.run});
            Inv(next)
  {
    var next := Moved(st, t, Starting(start)).(counters := st.counters[start.run := 0],
                                               lost := st.lost - {start.run});
    hide L.Inv, StoreInv.Valid, Sections, RunCounted;
    assert next.tasks[t] == Starting(start);
    NotCounted(next, start.run);
    StartStep(st, next, t, start.run);
  }

  lemma CreatedFresh(s: Store, run: RunStart, now: int)
    ensures StartsStay(s, StartRun(s, run, now).0)
    ensures StartRun(s, run, now).1 == Ok(Created) ==>
              run.run !in s.runs && run.run in StartRun(s, run, now).0.runs
              && StartRun(s, run, now).0.runs[run.run].events == []
  {
    hide Busy, EntriesOk, ApplyEntries, Idempotent;
  }

  /** A run that was created begins with its counter at 0, and any other one is unregistered. */
  lemma EndStoreKeeps(st: State, t: TaskId, now: int)
    requires Inv(st) && PhaseAt(st, t).Starting?
    ensures Inv(EndStore(st, t, now))
  {
    var next := EndStore(st, t, now);
    var start := PhaseAt(st, t).start;
    hide L.Inv, StoreInv.Valid, Sections, StartRun, RunCounted, Untouched, StartsStay;
    StartKeeps(st.store, start, now);
    CreatedFresh(st.store, start, now);
    forall q ensures Untouched(st.store, next.store, q) {
      ForeignStart(st.store, start, now, q);
    }
    if start.run in next.counters {
      BornLevel(st, next, t, start.run);
    } else {
      NotCounted(next, start.run);
    }
    StartStep(st, next, t, start.run);
  }

  lemma PendingStored(st: State, t: TaskId, r: RunId)
    requires Sections(st) && t in st.tasks && Pending(st.tasks[t], r)
    ensures r in st.store.runs
  {
    assert InSection(st.tasks[t], r);
  }

  lemma BornLevel(st: State, next: State, t: TaskId, r: RunId)
    requires Sections(st) && RunCounted(st, r) && r in st.counters && r !in st.store.runs && r in next.store.runs
    requires next.store.runs[r].events == [] && next.counters == st.counters && next.lost == st.lost
    requires next.tasks == st.tasks[t := Outside]
    ensures RunCounted(next, r)
  {
    hide Sections;
    forall u | u in next.tasks ensures !Pending(next.tasks[u], r) {
      if u != t && Pending(st.tasks[u], r) {
        PendingStored(st, u, r);
      }
    }
  }

  // ---------------------------------------------------------------- in the section of a run

  function Under(p: Phase, r: RunId): nat {
    if Pending(p, r) then |p.seqs| else 0
  }

  /** The counter stands where the task in the section says. */
  ghost predicate Good(st: State, t: TaskId, r: RunId) {
    r in st.counters && r in st.store.runs
    && Level(st.counters[r], st.store.runs[r].events, Lost(st, r), Under(PhaseAt(st, t), r))
    && (Pending(PhaseAt(st, t), r) ==> Latest(PhaseAt(st, t).seqs, st.counters[r]))
  }

  lemma AloneWithLock(st: State, t: TaskId, u: TaskId, r: RunId)
    requires L.Inv(st.locks) && Sections(st) && HoldsLock(st, t, r)
    requires u in st.tasks && Pending(st.tasks[u], r)
    ensures u == t
  {
    assert InSection(st.tasks[u], r);
    assert HoldsLock(st, u, r);
    assert L.Mapped(st.locks, st.locks.tasks[t].lock) && L.Mapped(st.locks, st.locks.tasks[u].lock);
  }

  lemma OwnGood(st: State, t: TaskId, r: RunId)
    requires L.Inv(st.locks) && Sections(st) && RunCounted(st, r) && HoldsLock(st, t, r)
    requires r in st.counters && r in st.store.runs && st.store.runs[r].status == Running && !Unborn(st, r)
    ensures Good(st, t, r)
  {
    hide L.Inv, Sections, Level, Latest;
    if !Pending(PhaseAt(st, t), r) {
      forall u | u in st.tasks ensures !Pending(st.tasks[u], r) {
        if Pending(st.tasks[u], r) {
          AloneWithLock(st, t, u, r);
        }
      }
    }
  }

  /** Where the task that holds the lock keeps the counter right, it is right. */
  lemma OwnKeeps(st: State, next: State, t: TaskId, r: RunId)
    requires L.Inv(st.locks) && Sections(st) && RunCounted(st, r) && HoldsLock(st, t, r) && r in st.store.runs
    requires forall u :: u != t ==> PhaseAt(next, u) == PhaseAt(st, u)
    requires r in next.counters ==> r in st.counters
    requires Unborn(st, r) ==> Unborn(next, r)
    requires r in next.store.runs && (next.store.runs[r].status == Running ==> st.store.runs[r].status == Running)
    requires r in next.counters && next.store.runs[r].status == Running && Good(st, t, r) ==> Good(next, t, r)
    ensures RunCounted(next, r)
  {
    if r in next.counters && next.store.runs[r].status == Running && !Unborn(next, r) {
      OwnGood(st, t, r);
      hide L.Inv, Sections, Level, Latest;
      forall u | u in next.tasks && u != t ensures !Pending(next.tasks[u], r) {
        assert PhaseAt(next, u) == PhaseAt(st, u);
        if Pending(next.tasks[u], r) {
          AloneWithLock(st, t, u, r);
        }
      }
      assert t in next.tasks ==> PhaseAt(next, t) == next.tasks[t];
    }
  }

  /** A step of the task that holds the lock of run `r`: it is right for every run if it keeps the
      counter of this run right. */
  lemma SectionStep(st: State, next: State, t: TaskId, r: RunId)
    requires L.Inv(st.locks) && Sections(st) && Counted(st) && HoldsLock(st, t, r) && r in st.store.runs
    requires next.locks == st.locks && StartsStay(st.store, next.store)
    requires InSection(PhaseAt(next, t), r) ==>
               Known(st.store, PhaseAt(next, t).call) && Planned(PhaseAt(next, t).call)
    requires forall u :: u != t ==> PhaseAt(next, u) == PhaseAt(st, u)
    requires !PhaseAt(st, t).Starting?
    requires forall q :: InSection(PhaseAt(st, t), q) || InSection(PhaseAt(next, t), q) ==> q == r
    requires PhaseAt(next, t).Storing? ==>
               Fits(PhaseAt(next, t).call, PhaseAt(next, t).events, PhaseAt(next, t).seqs)
    requires next.counters.Keys == st.counters.Keys
    requires forall q :: q != r ==> (q in st.counters ==> next.counters[q] == st.counters[q])
                                    && Lost(next, q) == Lost(st, q) && Untouched(st.store, next.store, q)
    requires next.store.runs[r].status == Running ==> st.store.runs[r].status == Running
    requires next.store.runs[r].status == Running && Good(st, t, r) ==> Good(next, t, r)
    ensures Sections(next) && Counted(next)
  {
    hide L.Inv, Sections, RunCounted, Fits, Good, Untouched, Unborn;
    SectionsKept(st, next, t);
    forall q ensures RunCounted(next, q) {
      UnbornStays(st, next, t, q);
      if q == r {
        OwnKeeps(st, next, t, q);
      } else {
        assert !InSection(PhaseAt(st, t), q) && !InSection(PhaseAt(next, t), q);
        AsideKeeps(st, next, t, q);
      }
    }
  }

  lemma LookKeeps(st: State, t: TaskId, call: Call)
    requires Inv(st) && PhaseAt(st, t).Outside? && HoldsLock(st, t, RunOf(call)) && Planned(call)
    ensures Inv(Next(st, Act(t, Look(call))))
  {
    var next := Next(st, Act(t, Look(call)));
    hide L.Inv, StoreInv.Valid, Sections, RunCounted, Level;
    if Known(st.store, call) {
      SectionStep(st, next, t, RunOf(call));
    } else {
      SectionsKept(st, next, t);
      AsideStep(st, next, t);
    }
  }

  lemma SectionOf(st: State, t: TaskId)
    requires Sections(st) && (PhaseAt(st, t).Allocating? || PhaseAt(st, t).Storing? || PhaseAt(st, t).GivingBack?)
    ensures HoldsLock(st, t, RunOf(PhaseAt(st, t).call))
    ensures Known(st.store, PhaseAt(st, t).call) && Planned(PhaseAt(st, t).call)
    ensures PhaseAt(st, t).Storing? ==>
              Fits(PhaseAt(st, t).call, PhaseAt(st, t).events, PhaseAt(st, t).seqs)
  {
    hide Fits;
    assert InSection(st.tasks[t], RunOf(st.tasks[t].call));
  }

  lemma TakeFrame(st: State, t: TaskId)
    requires PhaseAt(st, t).Allocating?
    ensures var p, next := PhaseAt(st, t), TakeNumber(st, t);
            && next.store == st.store && next.lost == st.lost && next.locks == st.locks
            && next.counters.Keys == st.counters.Keys
            && (forall q :: q != RunOf(p.call) && q in st.counters ==> next.counters[q] == st.counters[q])
            && (forall u :: u != t ==> PhaseAt(next, u) == PhaseAt(st, u))
            && !PhaseAt(next, t).Storing? && !PhaseAt(next, t).Starting?
            && (forall q :: InSection(PhaseAt(next, t), q) ==> q == RunOf(p.call) && PhaseAt(next, t).call == p.call)
  {
  }

  lemma TakeGood(st: State, t: TaskId, r: RunId)
    requires PhaseAt(st, t).Allocating? && RunOf(PhaseAt(st, t).call) == r && Good(st, t, r)
    ensures Good(TakeNumber(st, t), t, r)
  {
  }

  lemma AllocateKeeps(st: State, t: TaskId)
    requires Inv(st) && PhaseAt(st, t).Allocating?
    ensures Inv(TakeNumber(st, t))
  {
    SectionOf(st, t);
    hide L.Inv, StoreInv.Valid, Sections, RunCounted, Good, TakeNumber;
    var next, r := TakeNumber(st, t), RunOf(PhaseAt(st, t).call);
    TakeFrame(st, t);
    if Good(st, t, r) {
      TakeGood(st, t, r);
    }
    SectionStep(st, next, t, r);
  }

  /** The task goes on with the same numbers. */
  lemma SameNumbersKeep(st: State, t: TaskId, p: Phase)
    requires Inv(st) && PhaseAt(st, t).Allocating? && (p.Storing? || p.GivingBack?)
    requires p.call == PhaseAt(st, t).call && p.seqs == PhaseAt(st, t).seqs
    requires p.Storing? ==> Fits(p.call, p.events, p.seqs)
    ensures Inv(Moved(st, t, p))
  {
    SectionOf(st, t);
    hide L.Inv, StoreInv.Valid, Sections, RunCounted, Fits, Level;
    SectionStep(st, Moved(st, t, p), t, RunOf(p.call));
  }

  lemma RewindGood(st: State, t: TaskId, r: RunId)
    requires PhaseAt(st, t).GivingBack? && RunOf(PhaseAt(st, t).call) == r && Good(st, t, r)
    ensures Good(Rewind(st, t), t, r)
  {
  }

  lemma RewindFrame(st: State, t: TaskId)
    requires PhaseAt(st, t).GivingBack?
    ensures var p, next := PhaseAt(st, t), Rewind(st, t);
            && next.store == st.store && next.lost == st.lost && next.locks == st.locks
            && next.counters.Keys == st.counters.Keys
            && (forall q :: q != RunOf(p.call) && q in st.counters ==> next.counters[q] == st.counters[q])
            && (forall u :: u != t ==> PhaseAt(next, u) == PhaseAt(st, u))
            && !PhaseAt(next, t).Storing? && !PhaseAt(next, t).Starting?
            && (forall q :: InSection(PhaseAt(next, t), q) ==> q == RunOf(p.call) && PhaseAt(next, t).call == p.call)
  {
  }

  lemma RewindKeeps(st: State, t: TaskId)
    requires Inv(st) && PhaseAt(st, t).GivingBack?
    ensures Inv(Rewind(st, t))
  {
    SectionOf(st, t);
    hide L.Inv, StoreInv.Valid, Sections, RunCounted, Good, Rewind;
    var next, r := Rewind(st, t), RunOf(PhaseAt(st, t).call);
    RewindFrame(st, t);
    if Good(st, t, r) {
      RewindGood(st, t, r);
    }
    SectionStep(st, next, t, r);
  }

  lemma PublishKeeps(st: State, t: TaskId)
    requires Inv(st) && PhaseAt(st, t).Publishing?
    ensures Inv(Next(st, Act(t, Publish)))
  {
    var next := Next(st, Act(t, Publish));
    hide L.Inv, StoreInv.Valid, Sections, RunCounted;
    SectionsKept(st, next, t);
    AsideStep(st, next, t);
  }

  lemma ElsewhereSections(st: State, next: State)
    requires Sections(st) && next == st.(store := next.store) && StartsStay(st.store, next.store)
    ensures Sections(next)
  {
    hide Fits;
    forall t, r | t in next.tasks && InSection(next.tasks[t], r)
      ensures HoldsLock(next, t, r) && Known(next.store, next.tasks[t].call) && Planned(next.tasks[t].call)
    {
      assert HoldsLock(st, t, r);
    }
  }

  lemma ElsewhereKeeps(st: State, step: StoreHistory.Step)
    requires Inv(st) && forall r :: r in st.counters ==> !Appends(step.op, r)
    ensures Inv(st.(store := StoreHistory.Next(st.store, step)))
  {
    var next := st.(store := StoreHistory.Next(st.store, step));
    hide L.Inv, StoreInv.Valid, Sections, StoreHistory.Next, RunCounted, Appends;
    NextValid(st.store, step);
    RunsStay(st.store, step.op, step.now);
    ElsewhereSections(st, next);
    forall q ensures RunCounted(next, q) {
      if q in st.counters {
        ForeignStep(st.store, step, q);
        ElsewhereLevel(st, next, q);
      } else {
        NotCounted(next, q);
      }
    }
  }

  lemma ElsewhereLevel(st: State, next: State, q: RunId)
    requires Sections(st) && RunCounted(st, q) && q in st.counters
    requires next == st.(store := next.store) && Untouched(st.store, next.store, q)
    ensures RunCounted(next, q)
  {
    hide Sections;
    forall u | u in st.tasks && Pending(st.tasks[u], q) ensures q in st.store.runs {
      PendingStored(st, u, q);
    }
    assert Unborn(st, q) <==> Unborn(next, q);
    assert Free(st, q) <==> Free(next, q);
  }

  // ---------------------------------------------------------------- writing to the store

  /** What the answer of the store means for the run of the call. */
  ghost predicate Answered(s: Store, r: RunId, events: seq<Event>, next: Store, verdict: Verdict) {
    && r in s.runs && r in next.runs
    && match verdict
       case Kept => s.runs[r].status == Running && next.runs[r].events == s.runs[r].events + events
       case Over => next.runs[r].status.IsTerminal()
       case Rejected(_) => next == s
  }

  lemma CommitAnswered(s: Store, c: Commit, now: int)
    requires StoreInv.Valid(s) && c.run in s.runs
    ensures var (next, reply) := CommitRun(s, c, now);
            Answered(s, c.run, c.events, next,
                     if reply.Err? then Rejected(true) else if reply.value.Recorded? then Kept else Over)
  {
    if PlanCommit(s, c, now) == Accept {
      AcceptedSound(s, c, now);
      assert s.runs[c.run].status == Running;
      CommittedShape(s, c);
    } else {
      assert LogOk(s.runs[c.run]);
      hide StoreInv.Valid, CommitShapeOk, PlanRunning;
    }
  }

  lemma CommittedShape(s: Store, c: Commit)
    requires Sound(s, c)
    ensures c.run in Committed(s, c).runs
    ensures if CommitReply(c).Recorded? then Committed(s, c).runs[c.run].events == s.runs[c.run].events + c.events
            else Committed(s, c).runs[c.run].status.IsTerminal()
    ensures !CommitReply(c).Skipped?
  {
    hide ApplyEntries, ApplyEffects, ApplyItems, Increases;
  }

  lemma AppendAnswered(s: Store, run: RunId, scope: Scope, event: Event)
    requires StoreInv.Valid(s) && run in s.runs && event.run == run
    ensures var (next, reply) := RecordEvent(s, run, scope, event);
            Answered(s, run, [event], next,
                     if reply == Ok(true) then Kept else if reply.Ok? then Over else Rejected(false))
  {
    assert LogOk(s.runs[run]);
    hide StoreInv.Valid, Increases;
  }

  lemma FinishAnswered(s: Store, f: FinishRecord)
    requires f.run in s.runs
    ensures Answered(s, f.run, [f.terminalEvent], FinishRun(s, f).0,
                     if FinishRun(s, f).1.Ok? then Over else Rejected(false))
  {
    FinishReply(s, f);
    hide FinishRun;
  }

  lemma AnswerShape(s: Store, call: Call, events: seq<Event>, seqs: seq<int>, now: int)
    requires StoreInv.Valid(s) && Fits(call, events, seqs) && RunOf(call) in s.runs
    ensures var (next, verdict) := StoreAnswer(s, call, events, now);
            && StoreInv.Valid(next) && StartsStay(s, next)
            && Answered(s, RunOf(call), events, next, verdict)
            && forall q :: q != RunOf(call) ==> Untouched(s, next, q)
  {
    hide StoreInv.Valid, CommitRun, RecordEvent, FinishRun, Answered, Untouched, EventsFit, FinishFits;
    match call
    case CommitCall(run, session, scope, plan) =>
      var c := Commit(run, session, scope, plan.lease, plan.checkpoint, events, plan.effects, plan.items,
                      plan.entries, plan.finish);
      CommitKeeps(s, c, now);
      CommitAnswered(s, c, now);
      RunsStay(s, CommitOp(c), now);
      forall q | q != run ensures Untouched(s, CommitRun(s, c, now).0, q) {
        ForeignCommit(s, c, now, q);
      }
    case AppendCall(run, scope) =>
      RecordKeeps(s, run, scope, events[0]);
      AppendAnswered(s, run, scope, events[0]);
      RunsStay(s, RecordOp(run, scope, events[0]), now);
      assert events == [events[0]];
      forall q | q != run ensures Untouched(s, RecordEvent(s, run, scope, events[0]).0, q) {
        ForeignRecord(s, run, scope, events[0], q);
      }
    case FinishCall(finish, scope, entries) =>
      var f := FinishRecord(finish.run, finish.session, scope, finish.status, finish.reason, events[0], entries);
      FinishKeeps(s, f);
      FinishAnswered(s, f);
      RunsStay(s, FinishOp(f), now);
      assert events == [events[0]];
      forall q ensures Untouched(s, FinishRun(s, f).0, q) {
        ForeignFinish(s, f, q);
      }
  }

  lemma RunsStay(s: Store, op: Op, now: int)
    requires StoreInv.Valid(s)
    ensures StartsStay(s, StoreHistory.Next(s, StoreHistory.Step(op, now)))
  {
    NextAdvances(s, StoreHistory.Step(op, now));
    hide StoreHistory.Next, StoreInv.Valid;
  }

  /** Storing the numbers under way makes them part of the log. */
  lemma KeptLevel(counter: int, log: seq<Event>, lost: nat, seqs: seq<int>, events: seq<Event>)
    requires Level(counter, log, lost, |seqs|) && Latest(seqs, counter) && |events| == |seqs|
    requires forall i :: 0 <= i < |events| ==> events[i].num == seqs[i]
    ensures Level(counter, log + events, lost, 0)
  {
  }

  lemma FitsNumbers(call: Call, events: seq<Event>, seqs: seq<int>)
    requires Fits(call, events, seqs)
    ensures |events| == |seqs| && forall i :: 0 <= i < |events| ==> events[i].num == seqs[i]
  {
  }

  /** The store's answer keeps the count: what it takes is stored, what it refuses goes back or is
      counted as lost. */
  lemma WrittenGood(st: State, t: TaskId, now: int)
    requires PhaseAt(st, t).Storing? && Fits(PhaseAt(st, t).call, PhaseAt(st, t).events, PhaseAt(st, t).seqs)
    requires var p := PhaseAt(st, t);
             var (next, verdict) := StoreAnswer(st.store, p.call, p.events, now);
             Answered(st.store, RunOf(p.call), p.events, next, verdict)
    ensures var r, next := RunOf(PhaseAt(st, t).call), Written(st, t, now);
            r in next.store.runs && (next.store.runs[r].status == Running && Good(st, t, r) ==> Good(next, t, r))
  {
    var p, next := PhaseAt(st, t), Written(st, t, now);
    var r := RunOf(p.call);
    FitsNumbers(p.call, p.events, p.seqs);
    hide StoreAnswer, Fits;
    if Good(st, t, r) {
      KeptLevel(st.counters[r], st.store.runs[r].events, Lost(st, r), p.seqs, p.events);
    }
  }

  lemma WrittenFrame(st: State, t: TaskId, now: int)
    requires PhaseAt(st, t).Storing? && |PhaseAt(st, t).events| == CountOf(PhaseAt(st, t).call)
    ensures var p, next := PhaseAt(st, t), Written(st, t, now);
            && next.store == StoreAnswer(st.store, p.call, p.events, now).0
            && next.counters == st.counters && next.locks == st.locks
            && (forall u :: u != t ==> PhaseAt(next, u) == PhaseAt(st, u))
            && (forall q :: q != RunOf(p.call) ==> Lost(next, q) == Lost(st, q))
            && !PhaseAt(next, t).Storing? && !PhaseAt(next, t).Starting?
            && (forall q :: InSection(PhaseAt(next, t), q) ==> q == RunOf(p.call) && PhaseAt(next, t).call == p.call)
  {
    hide StoreAnswer;
  }

  lemma WrittenKeeps(st: State, t: TaskId, now: int)
    requires Inv(st) && PhaseAt(st, t).Storing? && |PhaseAt(st, t).events| == CountOf(PhaseAt(st, t).call)
    ensures Inv(Written(st, t, now))
  {
    var p, next := PhaseAt(st, t), Written(st, t, now);
    SectionOf(st, t);
    hide Sections, L.Inv, StoreInv.Valid, RunCounted, Fits, StoreAnswer, Good, Written, Untouched;
    AnswerShape(st.store, p.call, p.events, p.seqs, now);
    WrittenGood(st, t, now);
    WrittenFrame(st, t, now);
    SectionStep(st, next, t, RunOf(p.call));
  }

  lemma NextKeeps(st: State, act: Act)
    requires Inv(st)
    ensures Inv(Next(st, act))
  {
    var t := act.task;
    var p := PhaseAt(st, t);
    hide Inv, EndStore, TakeNumber, Written, Rewind, Fits, L.Next, StoreHistory.Next;
    match act.action
    case Lock(a) => if p.Outside? || p.Leaving? { LockKeeps(st, t, a); }
    case Register(start, max) =>
      if p.Outside? && start.run !in st.counters && |st.counters| < max { RegisterKeeps(st, t, start); }
    case Create(now) => if p.Starting? { EndStoreKeeps(st, t, now); }
    case Look(call) =>
      if p.Outside? && HoldsLock(st, t, RunOf(call)) && Planned(call) { LookKeeps(st, t, call); }
    case Allocate => if p.Allocating? { AllocateKeeps(st, t); }
    case Build(events) =>
      if p.Allocating? && |p.seqs| == CountOf(p.call) {
        if Fits(p.call, events, p.seqs) {
          SameNumbersKeep(st, t, Storing(p.call, p.seqs, events));
        } else {
          SameNumbersKeep(st, t, GivingBack(p.call, p.seqs));
        }
      }
    case Answer(now) => if p.Storing? && |p.events| == CountOf(p.call) { WrittenKeeps(st, t, now); }
    case GiveBack => if p.GivingBack? { RewindKeeps(st, t); }
    case Publish => if p.Publishing? { PublishKeeps(st, t); }
    case Elsewhere(step) =>
      if forall r :: r in st.counters ==> !Appends(step.op, r) {
        ElsewhereKeeps(st, step);
      }
  }

  lemma {:induction false} ExecKeeps(s: Store, acts: seq<Act>, n: nat)
    requires StoreInv.Valid(s) && n <= |acts|
    ensures Inv(Exec(s, acts, n))
  {
    hide StoreInv.Valid, Next;
    if n > 0 {
      ExecKeeps(s, acts, n - 1);
      NextKeeps(Exec(s, acts, n - 1), acts[n - 1]);
    } else {
      assert L.Inv(L.Start());
    }
  }

  // ---------------------------------------------------------------- results

  /** In every interleaving at most one task is in the section of a run. */
  lemma OneSection(s: Store, acts: seq<Act>, n: nat, t: TaskId, u: TaskId, r: RunId)
    requires StoreInv.Valid(s) && n <= |acts|
    requires InSection(PhaseAt(Exec(s, acts, n), t), r) && InSection(PhaseAt(Exec(s, acts, n), u), r)
    ensures t == u
  {
    hide Exec, L.Inv, StoreInv.Valid, Counted, Sections;
    ExecKeeps(s, acts, n);
    Exclusive(Exec(s, acts, n), t, u, r);
  }

  /** The run is registered, stored and running, no task has numbers of it, and none is starting it. */
  ghost predicate Settled(st: State, r: RunId) {
    r in st.counters && r in st.store.runs && st.store.runs[r].status == Running && Free(st, r) && !Unborn(st, r)
  }

  /** In every reachable state the counter of a settled run is the count of its stored events and of
      the lost numbers. The stored events have exactly the numbers from 1 to the counter if and only
      if no number was lost. */
  lemma NumbersAreExact(s: Store, acts: seq<Act>, n: nat, r: RunId)
    requires StoreInv.Valid(s) && n <= |acts| && Settled(Exec(s, acts, n), r)
    ensures var st := Exec(s, acts, n);
            var events := st.store.runs[r].events;
            && st.counters[r] == |events| + Lost(st, r) && LastNum(events) <= st.counters[r]
            && (st.counters[r] == |events| && Numbered(events) <==> Lost(st, r) == 0)
  {
    hide Exec, L.Inv, StoreInv.Valid, Sections, Unborn, Free, Numbered;
    ExecKeeps(s, acts, n);
    assert RunCounted(Exec(s, acts, n), r);
  }

  /** Only commits are made under the lock of the run. */
  ghost predicate CommitsOnly(acts: seq<Act>, r: RunId) {
    forall i :: 0 <= i < |acts| && acts[i].action.Look? && RunOf(acts[i].action.call) == r ==>
      acts[i].action.call.CommitCall?
  }

  ghost predicate Committing(st: State, r: RunId) {
    Lost(st, r) == 0 && forall t :: t in st.tasks && Pending(st.tasks[t], r) ==> st.tasks[t].call.CommitCall?
  }

  /** Only one task moved, and with numbers of the run it is committing. */
  lemma CommittingMoved(st: State, next: State, t: TaskId, r: RunId)
    requires Committing(st, r) && Lost(next, r) == 0 && forall u :: u != t ==> PhaseAt(next, u) == PhaseAt(st, u)
    requires Pending(PhaseAt(next, t), r) ==> PhaseAt(next, t).call.CommitCall?
    ensures Committing(next, r)
  {
    forall u | u in next.tasks && Pending(next.tasks[u], r) ensures next.tasks[u].call.CommitCall? {
      assert PhaseAt(next, u) == next.tasks[u];
    }
  }

  lemma CommittingWritten(st: State, t: TaskId, now: int, r: RunId)
    requires Committing(st, r) && PhaseAt(st, t).Storing? && |PhaseAt(st, t).events| == CountOf(PhaseAt(st, t).call)
    ensures Committing(Written(st, t, now), r)
  {
    hide CommitRun, RecordEvent, FinishRun;
    CommittingMoved(st, Written(st, t, now), t, r);
  }

  lemma CommittingNumbers(st: State, act: Act, r: RunId)
    requires Committing(st, r) && (act.action.Allocate? || act.action.Build? || act.action.GiveBack?)
    ensures Committing(Next(st, act), r)
  {
    hide L.Next, StoreHistory.Next, Fits, EndStore, Written, Appends, Known, Planned;
    var next, t := Next(st, act), act.task;
    if next != st {
      assert t in st.tasks;
      assert Pending(st.tasks[t], r) ==> st.tasks[t].call.CommitCall?;
      CommittingMoved(st, next, t, r);
    }
  }

  lemma CommittingOther(st: State, act: Act, r: RunId)
    requires Committing(st, r)
    requires act.action.Look? && RunOf(act.action.call) == r ==> act.action.call.CommitCall?
    requires act.action.Lock? || act.action.Look? || act.action.Publish? || act.action.Elsewhere?
    ensures Committing(Next(st, act), r)
  {
    hide L.Next, StoreHistory.Next, TakeNumber, Written, Rewind, EndStore, Appends, Known, Planned, Committing;
    var next, t := Next(st, act), act.task;
    SameTasks(st, st, r);
    StillCommitting(st, t, r);
    if act.action.Elsewhere? {
      SameTasks(st, next, r);
    } else {
      CommittingMoved(st, next, t, r);
    }
  }

  lemma CommittingStart(st: State, act: Act, r: RunId)
    requires Committing(st, r) && (act.action.Register? || act.action.Create?)
    ensures Committing(Next(st, act), r)
  {
    hide L.Next, StoreHistory.Next, StartRun, TakeNumber, Written, Rewind, Appends, Known, Planned, Committing;
    SameTasks(st, st, r);
    StillCommitting(st, act.task, r);
    CommittingMoved(st, Next(st, act), act.task, r);
  }

  lemma SameTasks(st: State, next: State, r: RunId)
    requires Committing(st, r) && next.tasks == st.tasks && next.lost == st.lost
    ensures Committing(next, r) && Lost(st, r) == 0
  {
  }

  lemma StillCommitting(st: State, t: TaskId, r: RunId)
    requires Committing(st, r)
    ensures Pending(PhaseAt(st, t), r) ==> PhaseAt(st, t).call.CommitCall?
  {
  }

  lemma CommittingStep(st: State, act: Act, r: RunId)
    requires Committing(st, r)
    requires act.action.Look? && RunOf(act.action.call) == r ==> act.action.call.CommitCall?
    ensures Committing(Next(st, act), r)
  {
    var t := act.task;
    hide L.Next, StoreHistory.Next, Fits, EndStore, TakeNumber, Written, Rewind, Committing, Appends, Known, Planned;
    if act.action.Answer? {
      if PhaseAt(st, t).Storing? && |PhaseAt(st, t).events| == CountOf(PhaseAt(st, t).call) {
        CommittingWritten(st, t, act.action.now, r);
      }
    } else if act.action.Allocate? || act.action.Build? || act.action.GiveBack? {
      CommittingNumbers(st, act, r);
      hide Committing, Next;
    } else if act.action.Register? || act.action.Create? {
      CommittingStart(st, act, r);
      hide Committing, Next;
    } else {
      CommittingOther(st, act, r);
      hide Committing, Next;
    }
  }

  lemma CommittingAtFirst(s: Store, r: RunId)
    ensures Committing(Initial(s), r)
  {
  }

  lemma {:induction false} CommitsLoseNothing(s: Store, acts: seq<Act>, n: nat, r: RunId)
    requires n <= |acts| && CommitsOnly(acts, r)
    ensures Committing(Exec(s, acts, n), r)
  {
    hide Next, Committing;
    if n > 0 {
      CommitsLoseNothing(s, acts, n - 1, r);
      CommittingStep(Exec(s, acts, n - 1), acts[n - 1], r);
    } else {
      CommittingAtFirst(s, r);
    }
  }

  /** Gapless numbering: a run whose events all go through commits has, in every reachable state and
      under every interleaving of any number of tasks and other workers, stored events with exactly
      the numbers from 1 to its counter, whenever it is settled. */
  lemma GaplessNumbering(s: Store, acts: seq<Act>, n: nat, r: RunId)
    requires StoreInv.Valid(s) && n <= |acts| && CommitsOnly(acts, r) && Settled(Exec(s, acts, n), r)
    ensures var st := Exec(s, acts, n);
            st.counters[r] == |st.store.runs[r].events| && Numbered(st.store.runs[r].events)
  {
    hide Exec, StoreInv.Valid, Settled;
    NumbersAreExact(s, acts, n, r);
    CommitsLoseNothing(s, acts, n, r);
  }

  /** The store never refuses events for their numbers: while a task waits for its answer, on a run
      that is registered and running, its events go on from the log. */
  lemma NeverOutOfOrder(s: Store, acts: seq<Act>, n: nat, t: TaskId, r: RunId)
    requires StoreInv.Valid(s) && n <= |acts|
    requires PhaseAt(Exec(s, acts, n), t).Storing? && RunOf(PhaseAt(Exec(s, acts, n), t).call) == r
    requires var st := Exec(s, acts, n);
             r in st.counters && r in st.store.runs && st.store.runs[r].status == Running && !Unborn(st, r)
    ensures var st := Exec(s, acts, n); Increases(st.store.runs[r].events, PhaseAt(st, t).events)
  {
    hide Exec, L.Inv, StoreInv.Valid, Unborn;
    ExecKeeps(s, acts, n);
    var st := Exec(s, acts, n);
    assert RunCounted(st, r) && InSection(st.tasks[t], r) && Pending(st.tasks[t], r);
    FitsNumbers(st.tasks[t].call, st.tasks[t].events, st.tasks[t].seqs);
    hide Fits, Sections;
  }

  // ---------------------------------------------------------------- when a number is lost

  /** The store refuses what the call wants to write, and the call does not give its number back. */
  predicate Loses(s: Store, call: Call, events: seq<Event>)
    requires |events| == CountOf(call)
  {
    match call
    case CommitCall(_, _, _, _) => false
    case AppendCall(_, _) => RefusesEvent(s, events[0])
    case FinishCall(finish, scope, entries) =>
      RefusesFinish(s, FinishRecord(finish.run, finish.session, scope, finish.status, finish.reason, events[0],
                                    entries))
  }

  lemma LosesExactly(s: Store, call: Call, events: seq<Event>, seqs: seq<int>, now: int)
    requires StoreInv.Valid(s) && Fits(call, events, seqs) && Known(s, call) && Planned(call)
    ensures StoreAnswer(s, call, events, now).1 == Rejected(false) <==> Loses(s, call, events)
  {
    hide StoreInv.Valid, CommitRun, RecordEvent, FinishRun, RefusesEvent, RefusesFinish, EventsFit;
    match call
    case CommitCall(_, _, _, _) =>
    case AppendCall(run, scope) => RecordRefusedExactly(s, scope, events[0]);
    case FinishCall(finish, scope, entries) =>
      FinishRefusedExactly(s, FinishRecord(finish.run, finish.session, scope, finish.status, finish.reason, events[0],
                                           entries));
  }

  /** A task gets its answer from the store, and a number of the run is lost by it. */
  predicate LosingAct(st: State, act: Act, r: RunId) {
    var p := PhaseAt(st, act.task);
    && act.action.Answer? && p.Storing? && |p.events| == CountOf(p.call) && RunOf(p.call) == r
    && Loses(st.store, p.call, p.events)
  }

  lemma LossOfAnswer(st: State, t: TaskId, now: int, r: RunId)
    requires PhaseAt(st, t).Storing? && |PhaseAt(st, t).events| == CountOf(PhaseAt(st, t).call)
    requires Fits(PhaseAt(st, t).call, PhaseAt(st, t).events, PhaseAt(st, t).seqs)
    ensures var p := PhaseAt(st, t);
            Lost(Written(st, t, now), r)
            == Lost(st, r) + if RunOf(p.call) == r && StoreAnswer(st.store, p.call, p.events, now).1 == Rejected(false)
                             then 1 else 0
  {
    assert StoreAnswer(st.store, PhaseAt(st, t).call, PhaseAt(st, t).events, now).1 == Rejected(false) ==>
             !PhaseAt(st, t).call.CommitCall?;
    hide CommitRun, RecordEvent, FinishRun, EventsFit, FinishFits;
  }

  lemma OtherStepsLoseNothing(st: State, act: Act, r: RunId)
    requires r in st.counters && !act.action.Answer?
    ensures Lost(Next(st, act), r) == Lost(st, r)
  {
    hide L.Next, StoreHistory.Next, Fits, StartRun, Appends, Known, Planned, Written;
  }

  /** Where numbers are lost: in every reachable state, one number of a registered run is lost by a
      step if and only if the step is the refusal of an event or of a finish. */
  lemma LostExactly(s: Store, acts: seq<Act>, n: nat, r: RunId)
    requires StoreInv.Valid(s) && n < |acts| && r in Exec(s, acts, n).counters
    ensures Lost(Exec(s, acts, n + 1), r)
            == Lost(Exec(s, acts, n), r) + if LosingAct(Exec(s, acts, n), acts[n], r) then 1 else 0
  {
    ExecKeeps(s, acts, n);
    var st, act := Exec(s, acts, n), acts[n];
    var t := act.task;
    assert Exec(s, acts, n + 1) == Next(st, act);
    if act.action.Answer? {
      if PhaseAt(st, t).Storing? {
        SectionOf(st, t);
        hide Exec, Inv, Written, Fits, Loses, StoreAnswer, Known, Planned;
        LosesExactly(st.store, PhaseAt(st, t).call, PhaseAt(st, t).events, PhaseAt(st, t).seqs, act.action.now);
        LossOfAnswer(st, t, act.action.now, r);
      }
    } else {
      hide Exec, Inv, Next;
      OtherStepsLoseNothing(st, act, r);
    }
  }

  /** Whether the event that a task waits to append will be lost can be told from the run: it is
      running, and leased or of another session. The number is never the reason. */
  lemma AppendLosesExactly(s: Store, acts: seq<Act>, n: nat, t: TaskId, r: RunId)
    requires StoreInv.Valid(s) && n <= |acts|
    requires var p := PhaseAt(Exec(s, acts, n), t); p.Storing? && p.call.AppendCall? && RunOf(p.call) == r
    requires r in Exec(s, acts, n).counters && !Unborn(Exec(s, acts, n), r)
    ensures var st := Exec(s, acts, n);
            var p := PhaseAt(st, t);
            && |p.events| == 1 && r in st.store.runs
            && var run := st.store.runs[r];
            (Loses(st.store, p.call, p.events)
             <==> run.status == Running && (run.lease.Some? || p.events[0].session != run.start.session))
  {
    ExecKeeps(s, acts, n);
    var st := Exec(s, acts, n);
    var p := PhaseAt(st, t);
    SectionOf(st, t);
    if st.store.runs[r].status == Running {
      NeverOutOfOrder(s, acts, n, t, r);
      assert p.events == [p.events[0]];
    }
    hide Exec, Inv, Unborn, Increases;
  }

  /** And so can whether a finish will be lost. */
  lemma FinishLosesExactly(s: Store, acts: seq<Act>, n: nat, t: TaskId, r: RunId)
    requires StoreInv.Valid(s) && n <= |acts|
    requires var p := PhaseAt(Exec(s, acts, n), t); p.Storing? && p.call.FinishCall? && RunOf(p.call) == r
    requires r in Exec(s, acts, n).counters && !Unborn(Exec(s, acts, n), r)
    ensures var st := Exec(s, acts, n);
            var p := PhaseAt(st, t);
            && |p.events| == 1 && r in st.store.runs
            && var run := st.store.runs[r];
            var home := Home(p.call.scope, p.call.finish.session);
            (Loses(st.store, p.call, p.events)
             <==> p.call.finish.session != run.start.session
                  || (run.status == Running
                      && (run.lease.Some? || !EntriesOk(st.store.log.entries, home, p.call.entries))))
  {
    ExecKeeps(s, acts, n);
    var st := Exec(s, acts, n);
    var p := PhaseAt(st, t);
    SectionOf(st, t);
    if st.store.runs[r].status == Running {
      NeverOutOfOrder(s, acts, n, t, r);
      assert p.events == [p.events[0]];
    }
    hide Exec, Inv, Unborn, Increases, EntriesOk;
  }

  // ---------------------------------------------------------------- examples

  lemma Unfold(s: Store, acts: seq<Act>, n: nat)
    requires n < |acts|
    ensures Exec(s, acts, 0) == Initial(s)
    ensures Exec(s, acts, n + 1) == Next(Exec(s, acts, n), acts[n])
    ensures n + 2 <= |acts| ==> Exec(s, acts, n + 2) == Next(Next(Exec(s, acts, n), acts[n]), acts[n + 1])
  {
    hide Next;
  }

  /** The run is new, and nothing was done under its lock. */
  ghost predicate JustStarted(st: State, start: RunStart) {
    && PhaseAt(st, 0).Outside? && st.locks == L.Start() && st.lost == map[]
    && st.counters == map[start.run := 0]
    && start.run in st.store.runs && st.store.runs[start.run] == NewRun(start, 0)
  }

  predicate Plain(start: RunStart) {
    start.clientKey.None? && start.entries == []
  }

  lemma PlainStart(start: RunStart)
    requires Plain(start)
    ensures StartRun(Empty(), start, 0).1 == Ok(Created)
    ensures start.run in StartRun(Empty(), start, 0).0.runs
            && StartRun(Empty(), start, 0).0.runs[start.run] == NewRun(start, 0)
  {
  }

  lemma Starts(start: RunStart)
    requires Plain(start)
    ensures JustStarted(Next(Next(Initial(Empty()), Act(0, Register(start, 1))), Act(0, Create(0))), start)
  {
    PlainStart(start);
    hide StartRun, NewRun, L.Next, StoreHistory.Next;
    var first := Next(Initial(Empty()), Act(0, Register(start, 1)));
    assert first.tasks == map[0 := Starting(start)] && first.store == Empty() && first.counters == map[start.run := 0];
  }

  lemma Locks(st: State, r: RunId)
    requires PhaseAt(st, 0).Outside? && st.locks == L.Start()
    ensures var next := Next(Next(st, Act(0, Lock(L.Take(r)))), Act(0, Lock(L.Enter)));
            HoldsLock(next, 0, r) && next == st.(locks := next.locks)
  {
    var taken := L.Next(st.locks, L.Step(0, L.Take(r)));
    assert taken.tasks == map[0 := L.Has(L.Lock(r, 0))];
  }

  /** From the lock to the question to the store, for a call with one event. */
  lemma Asks(st: State, start: RunStart, call: Call, event: Event)
    requires PhaseAt(st, 0).Outside? && HoldsLock(st, 0, start.run) && RunOf(call) == start.run
    requires start.run in st.store.runs && st.store.runs[start.run] == NewRun(start, 0)
    requires st.counters == map[start.run := 0] && st.lost == map[]
    requires Planned(call) && ScopeOf(call) == start.scope && CountOf(call) == 1 && Fits(call, [event], [1])
    ensures var looked := Next(st, Act(0, Look(call)));
            var asked := Next(Next(looked, Act(0, Allocate)), Act(0, Build([event])));
            && PhaseAt(asked, 0) == Storing(call, [1], [event]) && asked.store == st.store && asked.lost == map[]
            && asked.counters == map[start.run := 1] && asked.tasks == st.tasks[0 := PhaseAt(asked, 0)]
  {
    hide Fits, Planned, L.Next, StoreHistory.Next;
    var looked := Next(st, Act(0, Look(call)));
    assert looked == Moved(st, 0, Allocating(call, []));
    var taken := Next(looked, Act(0, Allocate));
    assert PhaseAt(taken, 0) == Allocating(call, [1]) && taken.counters == map[start.run := 1];
  }

  function LossActs(start: RunStart, call: Call, event: Event): seq<Act> {
    [Act(0, Register(start, 1)), Act(0, Create(0)), Act(0, Lock(L.Take(start.run))), Act(0, Lock(L.Enter)),
     Act(0, Look(call)), Act(0, Allocate), Act(0, Build([event])), Act(0, Answer(0))]
  }

  lemma CallReachesStore(start: RunStart, call: Call, event: Event)
    requires Plain(start) && RunOf(call) == start.run && ScopeOf(call) == start.scope && CountOf(call) == 1
    requires Planned(call) && Fits(call, [event], [1])
    ensures var st := Exec(Empty(), LossActs(start, call, event), 7);
            && st.counters == map[start.run := 1] && st.lost == map[]
            && PhaseAt(st, 0) == Storing(call, [1], [event])
            && start.run in st.store.runs && st.store.runs[start.run] == NewRun(start, 0)
  {
    var acts := LossActs(start, call, event);
    hide Exec, Next, NewRun, Fits, Planned, StoreInv.Valid;
    Unfold(Empty(), acts, 0);
    Starts(start);
    Unfold(Empty(), acts, 2);
    Locks(Exec(Empty(), acts, 2), start.run);
    Unfold(Empty(), acts, 4);
    Unfold(Empty(), acts, 6);
    Asks(Exec(Empty(), acts, 4), start, call, event);
  }

  /** A call with one event that the store refuses on the new run loses its number. */
  lemma CallLoses(start: RunStart, call: Call, event: Event)
    requires Plain(start) && RunOf(call) == start.run && ScopeOf(call) == start.scope && CountOf(call) == 1
    requires Planned(call) && Fits(call, [event], [1])
    requires forall s: Store :: start.run in s.runs && s.runs[start.run] == NewRun(start, 0) ==>
               Loses(s, call, [event])
    ensures var acts := LossActs(start, call, event);
            var st := Exec(Empty(), acts, 7);
            && start.run in st.counters && LosingAct(st, acts[7], start.run) && Lost(st, start.run) == 0
            && Lost(Exec(Empty(), acts, 8), start.run) == 1
  {
    var acts := LossActs(start, call, event);
    hide Exec, Next, NewRun, Fits, Planned, Loses, StoreInv.Valid;
    CallReachesStore(start, call, event);
    EmptyValid();
    LostExactly(Empty(), acts, 7, start.run);
  }

  /** Appending to a leased run loses a number. */
  lemma AppendLosesNumber(start: RunStart, event: Event)
    requires Plain(start) && start.lease.Some?
    requires event.run == start.run && event.num == 1 && !event.terminal
    ensures Lost(Exec(Empty(), LossActs(start, AppendCall(start.run, start.scope), event), 8), start.run) == 1
  {
    hide Exec, LossActs, Increases;
    CallLoses(start, AppendCall(start.run, start.scope), event);
  }

  /** Finishing a leased run loses a number. */
  lemma FinishLosesNumber(start: RunStart, finish: RunFinish, event: Event)
    requires Plain(start) && start.lease.Some?
    requires finish.run == start.run && finish.session == start.session && finish.status.IsTerminal()
    requires FinishFits(finish, event, 1)
    ensures Lost(Exec(Empty(), LossActs(start, FinishCall(finish, start.scope, []), event), 8), start.run) == 1
  {
    hide Exec, LossActs, Increases, EntriesOk;
    CallLoses(start, FinishCall(finish, start.scope, []), event);
  }

  /** Why a run that is being started does not count: a run of the same id, stored by another worker
      under another scope, is registered here with its counter at 0 until its start is refused. */
  lemma StartingIsOff(other: RunStart, event: Event, start: RunStart)
    requires Plain(other) && other.lease.None?
    requires event.run == other.run && event.session == other.session && event.num == 1 && !event.terminal
    requires start.run == other.run
    ensures var acts := [Act(0, Elsewhere(StoreHistory.Step(StartOp(other), 0))),
                         Act(0, Elsewhere(StoreHistory.Step(RecordOp(other.run, other.scope, event), 0))),
                         Act(0, Register(start, 1))];
            var st := Exec(Empty(), acts, 3);
            && other.run in st.counters && other.run in st.store.runs && st.store.runs[other.run].status == Running
            && Free(st, other.run) && st.counters[other.run] == 0 && st.store.runs[other.run].events == [event]
  {
    var acts := [Act(0, Elsewhere(StoreHistory.Step(StartOp(other), 0))),
                 Act(0, Elsewhere(StoreHistory.Step(RecordOp(other.run, other.scope, event), 0))),
                 Act(0, Register(start, 1))];
    hide Exec, Next, StartRun, RecordEvent, StoreHistory.Next, NewRun, RunsOk;
    Unfold(Empty(), acts, 0);
    Unfold(Empty(), acts, 2);
    PlainStart(other);
    NothingRegistered(Initial(Empty()), StoreHistory.Step(StartOp(other), 0));
    var first := Next(Initial(Empty()), acts[0]);
    NothingRegistered(first, StoreHistory.Step(RecordOp(other.run, other.scope, event), 0));
    RecordedOnNew(first.store, other, event);
    RegistersAt0(Next(first, acts[1]), start);
  }

  /** Other workers are free to do anything while nothing is registered here. */
  lemma NothingRegistered(st: State, step: StoreHistory.Step)
    requires st.counters == map[]
    ensures Next(st, Act(0, Elsewhere(step))) == st.(store := StoreHistory.Next(st.store, step))
    ensures step.op.StartOp? ==> StoreHistory.Next(st.store, step) == StartRun(st.store, step.op.start, step.now).0
    ensures step.op.RecordOp? ==>
              StoreHistory.Next(st.store, step) == RecordEvent(st.store, step.op.run, step.op.scope, step.op.event).0
  {
    hide StartRun, RecordEvent;
  }

  lemma RegistersAt0(st: State, start: RunStart)
    requires st.tasks == map[] && st.counters == map[]
    ensures var next := Next(st, Act(0, Register(start, 1)));
            next.counters == map[start.run := 0] && next.store == st.store && next.tasks == map[0 := Starting(start)]
  {
    hide L.Next, StoreHistory.Next;
  }

  lemma RecordedOnNew(s: Store, start: RunStart, event: Event)
    requires start.run in s.runs && s.runs[start.run] == NewRun(start, 0) && start.lease.None?
    requires event.run == start.run && event.session == start.session && event.num == 1 && !event.terminal
    ensures var next := RecordEvent(s, start.run, start.scope, event).0;
            start.run in next.runs && next.runs[start.run].status == Running && next.runs[start.run].events == [event]
  {
  }
}
