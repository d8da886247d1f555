/**
 The state machine of the tasks and the methods of the lifecycle agree: a task that has the lock of
 its run and is not interfered with leaves the store and the counters as the method does.
 */
module LifecycleAgreement {
  import opened Types
  import opened StoreSpec
  import opened Registry
  import opened Lifecycle
  import opened LifecycleTasks
  import H = StoreHistory

  function Do(st: State, t: TaskId, action: Action): State {
    Next(st, Act(t, action))
  }

  /** The task takes the same step `n` times. */
  function Times(st: State, t: TaskId, action: Action, n: nat): State {
    if n == 0 then st else Do(Times(st, t, action, n - 1), t, action)
  }

  /** A whole call: the task looks the run up, takes its numbers, builds its events, writes them, and
      gives the numbers back or publishes. A step that is not due changes nothing. */
  function Whole(st: State, t: TaskId, call: Call, events: seq<Event>, now: int): State {
    var taken := Times(Do(st, t, Look(call)), t, Allocate, CountOf(call));
    var written := Do(Do(taken, t, Build(events)), t, Answer(now));
    Do(Times(written, t, GiveBack, CountOf(call) + 1), t, Publish)
  }

  /** The machine's state is that of the process. */
  ghost predicate Mirrors(st: State, p: Process) {
    st.store == p.store && st.counters == CountersOf(p.reg)
  }

  /** The task has done its call, nothing but the run's part of the state has changed, and `lost`
      numbers were lost. */
  ghost predicate DoneAs(st: State, t: TaskId, call: Call, p': Process, end: State, lost: nat) {
    && Mirrors(end, p') && end.tasks == st.tasks[t := Leaving] && end.locks == st.locks
    && (forall r :: Lost(end, r) == Lost(st, r) + if r == RunOf(call) then lost else 0)
  }

  // ---------------------------------------------------------------- the steps, one after the other

  lemma Stay(st: State, t: TaskId, action: Action, n: nat)
    requires Do(st, t, action) == st
    ensures Times(st, t, action, n) == st
  {
    if n > 0 {
      Stay(st, t, action, n - 1);
    }
  }

  /** A task whose numbers are stored, not needed or lost has none to give back. */
  lemma OnlyGivingBackRewinds(st: State, t: TaskId)
    requires !PhaseAt(st, t).GivingBack?
    ensures Do(st, t, GiveBack) == st
  {
  }

  lemma TakesOne(st: State, t: TaskId, call: Call, seqs: seq<int>)
    requires PhaseAt(st, t) == Allocating(call, seqs) && |seqs| < CountOf(call)
    ensures var r := RunOf(call);
            Do(st, t, Allocate)
            == if r in st.counters
               then st.(tasks := st.tasks[t := Allocating(call, seqs + [st.counters[r] + 1])],
                        counters := st.counters[r := st.counters[r] + 1])
               else st.(tasks := st.tasks[t := Leaving])
  {
  }

  /** Taking `n` numbers of a registered run. */
  lemma {:induction false} TakesNumbers(st: State, t: TaskId, call: Call, n: nat)
    requires PhaseAt(st, t) == Allocating(call, []) && t in st.tasks
    requires RunOf(call) in st.counters && n <= CountOf(call)
    ensures Times(st, t, Allocate, n)
            == st.(tasks := st.tasks[t := Allocating(call, Numbers(st.counters[RunOf(call)], n))],
                   counters := st.counters[RunOf(call) := st.counters[RunOf(call)] + n])
  {
    hide Do;
    var r := RunOf(call);
    if n == 0 {
      assert Numbers(st.counters[r], 0) == [];
    } else {
      TakesNumbers(st, t, call, n - 1);
      var seqs := Numbers(st.counters[r], n - 1);
      TakesOne(Times(st, t, Allocate, n - 1), t, call, seqs);
      assert seqs + [st.counters[r] + n] == Numbers(st.counters[r], n);
    }
  }

  /** A run that is not registered gives no number. */
  lemma {:induction false} TakesNone(st: State, t: TaskId, call: Call, n: nat)
    requires PhaseAt(st, t) == Allocating(call, []) && t in st.tasks && RunOf(call) !in st.counters
    requires 0 < n <= CountOf(call)
    ensures Times(st, t, Allocate, n) == st.(tasks := st.tasks[t := Leaving])
  {
    var left := st.(tasks := st.tasks[t := Leaving]);
    if n == 1 {
      assert Times(st, t, Allocate, 0) == st;
    } else {
      TakesNone(st, t, call, n - 1);
      assert Do(left, t, Allocate) == left;
      hide Do;
    }
  }

  lemma RewindsOne(st: State, t: TaskId, call: Call, last: int, n: nat)
    requires PhaseAt(st, t) == GivingBack(call, Numbers(last, n))
    requires n > 0 ==> RunOf(call) in st.counters && st.counters[RunOf(call)] == last + n
    ensures Do(st, t, GiveBack)
            == if n == 0 then st.(tasks := st.tasks[t := Leaving])
               else st.(tasks := st.tasks[t := GivingBack(call, Numbers(last, n - 1))],
                        counters := st.counters[RunOf(call) := last + n - 1])
  {
    if n > 0 {
      assert Numbers(last, n)[..n - 1] == Numbers(last, n - 1);
    }
  }

  /** Giving `n` numbers back, the last one first, and leaving. */
  lemma {:induction false} GivesBack(st: State, t: TaskId, call: Call, last: int, n: nat, k: nat)
    requires PhaseAt(st, t) == GivingBack(call, Numbers(last, n)) && t in st.tasks && k <= n
    requires n > 0 ==> RunOf(call) in st.counters && st.counters[RunOf(call)] == last + n
    ensures Times(st, t, GiveBack, k)
            == st.(tasks := st.tasks[t := GivingBack(call, Numbers(last, n - k))],
                   counters := if n == 0 then st.counters else st.counters[RunOf(call) := last + n - k])
  {
    hide Do;
    if k == 0 {
      assert n > 0 ==> st.counters[RunOf(call) := last + n] == st.counters;
    } else {
      GivesBack(st, t, call, last, n, k - 1);
      RewindsOne(Times(st, t, GiveBack, k - 1), t, call, last, n - k + 1);
    }
  }

  lemma GivesAllBack(st: State, t: TaskId, call: Call, last: int, n: nat)
    requires PhaseAt(st, t) == GivingBack(call, Numbers(last, n)) && t in st.tasks
    requires n > 0 ==> RunOf(call) in st.counters && st.counters[RunOf(call)] == last + n
    ensures Times(st, t, GiveBack, n + 1)
            == st.(tasks := st.tasks[t := Leaving],
                   counters := if n == 0 then st.counters else st.counters[RunOf(call) := last])
  {
    hide Do;
    GivesBack(st, t, call, last, n, n);
    RewindsOne(Times(st, t, GiveBack, n), t, call, last, 0);
  }

  // ---------------------------------------------------------------- a whole call

  /** The counters after `n` numbers of the run were taken. */
  function Counting(counters: map<RunId, int>, r: RunId, n: nat): map<RunId, int> {
    if r in counters then counters[r := counters[r] + n] else counters
  }

  function LastOf(st: State, r: RunId): int {
    if r in st.counters then st.counters[r] else 0
  }

  /** The task is about to begin the call under the lock of its run. */
  ghost predicate Begins(st: State, t: TaskId, call: Call) {
    PhaseAt(st, t).Outside? && HoldsLock(st, t, RunOf(call)) && Planned(call)
  }

  lemma LeavingStays(st: State, t: TaskId, events: seq<Event>, now: int)
    requires PhaseAt(st, t).Leaving?
    ensures Do(st, t, Allocate) == st && Do(st, t, Build(events)) == st && Do(st, t, Answer(now)) == st
    ensures Do(st, t, GiveBack) == st && Do(st, t, Publish) == st
  {
  }

  /** A task that leaves early takes no further step. */
  lemma RestStays(st: State, t: TaskId, events: seq<Event>, now: int, n: nat)
    requires PhaseAt(st, t).Leaving?
    ensures Times(st, t, Allocate, n) == st
    ensures Do(Times(Do(Do(st, t, Build(events)), t, Answer(now)), t, GiveBack, n), t, Publish) == st
  {
    hide Do;
    LeavingStays(st, t, events, now);
    Stay(st, t, Allocate, n);
    Stay(st, t, GiveBack, n);
  }

  lemma Looks(st: State, t: TaskId, call: Call)
    requires Begins(st, t, call)
    ensures Do(st, t, Look(call))
            == st.(tasks := st.tasks[t := if LifecycleTasks.Known(st.store, call) then Allocating(call, []) else Leaving])
  {
  }

  lemma WholeUnknown(st: State, t: TaskId, call: Call, events: seq<Event>, now: int)
    requires Begins(st, t, call) && !LifecycleTasks.Known(st.store, call)
    ensures Whole(st, t, call, events, now) == st.(tasks := st.tasks[t := Leaving])
  {
    hide Do, Times;
    Looks(st, t, call);
    var left := Do(st, t, Look(call));
    RestStays(left, t, events, now, CountOf(call));
    RestStays(left, t, events, now, CountOf(call) + 1);
  }

  lemma WholeUnregistered(st: State, t: TaskId, call: Call, events: seq<Event>, now: int)
    requires Begins(st, t, call) && LifecycleTasks.Known(st.store, call)
    requires RunOf(call) !in st.counters && CountOf(call) > 0
    ensures Whole(st, t, call, events, now) == st.(tasks := st.tasks[t := Leaving])
  {
    hide Do, Times;
    Looks(st, t, call);
    var looked := Do(st, t, Look(call));
    TakesNone(looked, t, call, CountOf(call));
    var left := looked.(tasks := looked.tasks[t := Leaving]);
    RestStays(left, t, events, now, CountOf(call) + 1);
    assert left == st.(tasks := st.tasks[t := Leaving]);
  }

  lemma OnlyStoringAnswers(st: State, t: TaskId, now: int)
    requires !PhaseAt(st, t).Storing?
    ensures Do(st, t, Answer(now)) == st
  {
  }

  lemma BuildsOne(st: State, t: TaskId, call: Call, seqs: seq<int>, events: seq<Event>)
    requires PhaseAt(st, t) == Allocating(call, seqs) && |seqs| == CountOf(call) == |events|
    ensures Do(st, t, Build(events))
            == st.(tasks := st.tasks[t := if Fits(call, events, seqs) then Storing(call, seqs, events)
                                          else GivingBack(call, seqs)])
  {
    hide Fits;
  }

  /** The numbers are taken and the events built. */
  lemma Builds(st: State, t: TaskId, call: Call, events: seq<Event>)
    requires Begins(st, t, call) && LifecycleTasks.Known(st.store, call)
    requires (RunOf(call) in st.counters || CountOf(call) == 0) && |events| == CountOf(call)
    ensures var r, n := RunOf(call), CountOf(call);
            var seqs := Numbers(LastOf(st, r), n);
            Do(Times(Do(st, t, Look(call)), t, Allocate, n), t, Build(events))
            == st.(counters := Counting(st.counters, r, n),
                   tasks := st.tasks[t := if Fits(call, events, seqs) then Storing(call, seqs, events)
                                          else GivingBack(call, seqs)])
  {
    hide Do, Fits, HoldsLock, Planned, LifecycleTasks.Known;
    var r, n := RunOf(call), CountOf(call);
    Looks(st, t, call);
    var looked := Do(st, t, Look(call));
    if n == 0 {
      assert Numbers(LastOf(st, r), 0) == [];
      assert Counting(st.counters, r, 0) == st.counters;
    } else {
      TakesNumbers(looked, t, call, n);
    }
    BuildsOne(Times(looked, t, Allocate, n), t, call, Numbers(LastOf(st, r), n), events);
  }

  lemma WholeMisfit(st: State, t: TaskId, call: Call, events: seq<Event>, now: int)
    requires Begins(st, t, call) && LifecycleTasks.Known(st.store, call)
    requires (RunOf(call) in st.counters || CountOf(call) == 0) && |events| == CountOf(call)
    requires !Fits(call, events, Numbers(LastOf(st, RunOf(call)), CountOf(call)))
    ensures Whole(st, t, call, events, now) == st.(tasks := st.tasks[t := Leaving])
  {
    hide Do, Fits, Times, HoldsLock, Planned, LifecycleTasks.Known;
    var r, n := RunOf(call), CountOf(call);
    Builds(st, t, call, events);
    var built := Do(Times(Do(st, t, Look(call)), t, Allocate, n), t, Build(events));
    assert PhaseAt(built, t) == GivingBack(call, Numbers(LastOf(st, r), n));
    OnlyStoringAnswers(built, t, now);
    BackAndOut(built, t, call, LastOf(st, r), n, events, now);
    assert r in st.counters ==> Counting(st.counters, r, n)[r := st.counters[r]] == st.counters;
  }

  /** What a call leaves behind that reaches the store. */
  function After(st: State, t: TaskId, call: Call, next: Store, verdict: Verdict): State {
    var r, n := RunOf(call), CountOf(call);
    var left := st.(store := next, tasks := st.tasks[t := Leaving]);
    match verdict
    case Kept => left.(counters := Counting(st.counters, r, n))
    case Over => left.(counters := Counting(st.counters, r, n) - {r})
    case Rejected(back) =>
      if back then left else left.(counters := Counting(st.counters, r, n), lost := st.lost[r := Lost(st, r) + n])
  }

  lemma Answers(st: State, t: TaskId, call: Call, seqs: seq<int>, events: seq<Event>, now: int)
    requires PhaseAt(st, t) == Storing(call, seqs, events) && |events| == CountOf(call) == |seqs|
    ensures var (next, verdict) := StoreAnswer(st.store, call, events, now);
            Do(st, t, Answer(now))
            == match verdict
               case Kept => st.(store := next, tasks := st.tasks[t := Publishing(call, false)])
               case Over => st.(store := next, tasks := st.tasks[t := Publishing(call, true)])
               case Rejected(back) =>
                 if back then st.(store := next, tasks := st.tasks[t := GivingBack(call, seqs)])
                 else st.(store := next, tasks := st.tasks[t := Leaving],
                          lost := st.lost[RunOf(call) := Lost(st, RunOf(call)) + |seqs|])
  {
    hide StoreAnswer;
  }

  lemma WholeWritten(st: State, t: TaskId, call: Call, events: seq<Event>, now: int)
    requires Begins(st, t, call) && LifecycleTasks.Known(st.store, call)
    requires (RunOf(call) in st.counters || CountOf(call) == 0) && |events| == CountOf(call)
    requires Fits(call, events, Numbers(LastOf(st, RunOf(call)), CountOf(call)))
    ensures var (next, verdict) := StoreAnswer(st.store, call, events, now);
            Whole(st, t, call, events, now) == After(st, t, call, next, verdict)
  {
    hide Do, Fits, Times, StoreAnswer, HoldsLock, Planned, LifecycleTasks.Known;
    var r, n := RunOf(call), CountOf(call);
    Builds(st, t, call, events);
    var built := Do(Times(Do(st, t, Look(call)), t, Allocate, n), t, Build(events));
    var seqs := Numbers(LastOf(st, r), n);
    Answers(built, t, call, seqs, events, now);
    var (next, verdict) := StoreAnswer(st.store, call, events, now);
    var written := Do(built, t, Answer(now));
    if verdict == Rejected(true) {
      BackAndOut(written, t, call, LastOf(st, r), n, events, now);
      assert Counting(st.counters, r, n)[r := LastOf(st, r)] == st.counters[r := LastOf(st, r)];
      assert r in st.counters ==> st.counters[r := st.counters[r]] == st.counters;
    } else if verdict.Rejected? {
      RestStays(written, t, events, now, n + 1);
      Stay(written, t, GiveBack, n + 1) by { LeavingStays(written, t, events, now); }
      LeavingStays(written, t, events, now);
    } else {
      OnlyGivingBackRewinds(written, t);
      Stay(written, t, GiveBack, n + 1);
      Publishes(written, t, call, verdict == Over);
    }
  }

  lemma BackAndOut(st: State, t: TaskId, call: Call, last: int, n: nat, events: seq<Event>, now: int)
    requires PhaseAt(st, t) == GivingBack(call, Numbers(last, n)) && t in st.tasks
    requires n > 0 ==> RunOf(call) in st.counters && st.counters[RunOf(call)] == last + n
    ensures Do(Times(st, t, GiveBack, n + 1), t, Publish)
            == st.(tasks := st.tasks[t := Leaving],
                   counters := if n == 0 then st.counters else st.counters[RunOf(call) := last])
  {
    hide Do, Times;
    GivesAllBack(st, t, call, last, n);
    LeavingStays(Times(st, t, GiveBack, n + 1), t, events, now);
  }

  lemma Publishes(st: State, t: TaskId, call: Call, over: bool)
    requires PhaseAt(st, t) == Publishing(call, over)
    ensures Do(st, t, Publish)
            == st.(tasks := st.tasks[t := Leaving], counters := if over then st.counters - {RunOf(call)} else st.counters)
  {
  }

  // ---------------------------------------------------------------- agreement with the methods

  lemma CountersAdvanced(reg: map<RunId, ActiveRun>, reg': map<RunId, ActiveRun>, r: RunId, n: nat)
    requires SameCounters(Advanced(reg, r, n), reg')
    ensures CountersOf(reg') == Counting(CountersOf(reg), r, n)
  {
  }

  lemma CountersRemoved(reg: map<RunId, ActiveRun>, reg': map<RunId, ActiveRun>, r: RunId, n: nat)
    requires OthersSame(reg, reg', r) && r !in reg'
    ensures CountersOf(reg') == Counting(CountersOf(reg), r, n) - {r}
  {
  }

  lemma NoOthers(s: Store)
    ensures H.Exec(s, [], 0) == s
  {
  }

  lemma SameCountersSelf(reg: map<RunId, ActiveRun>)
    ensures SameCounters(reg, reg)
  {
  }

  lemma MirrorsLast(st: State, p: Process, call: Call)
    requires Mirrors(st, p)
    ensures var r := RunOf(call);
            LastOf(st, r) == CounterOf(p.reg, r) && (r in st.counters <==> r in p.reg) && st.store == p.store
            && (LifecycleTasks.Known(st.store, call) <==> KnownRun(p.store, r, ScopeOf(call)))
  {
  }

  lemma StoppedDone(st: State, t: TaskId, call: Call, p: Process)
    requires Mirrors(st, p)
    ensures DoneAs(st, t, call, p, st.(tasks := st.tasks[t := Leaving]), 0)
  {
    hide Mirrors;
    assert Mirrors(st.(tasks := st.tasks[t := Leaving]), p) by { SameMirror(st, t, p); }
  }

  lemma SameMirror(st: State, t: TaskId, p: Process)
    requires Mirrors(st, p)
    ensures Mirrors(st.(tasks := st.tasks[t := Leaving]), p)
  {
  }

  lemma WrittenDone(st: State, t: TaskId, call: Call, p: Process, p': Process, verdict: Verdict)
    requires Mirrors(st, p)
    requires var r, n := RunOf(call), CountOf(call);
             CountersOf(p'.reg)
             == match verdict
                case Kept => Counting(CountersOf(p.reg), r, n)
                case Over => Counting(CountersOf(p.reg), r, n) - {r}
                case Rejected(back) => if back then CountersOf(p.reg) else Counting(CountersOf(p.reg), r, n)
    ensures DoneAs(st, t, call, p', After(st, t, call, p'.store, verdict),
                   if verdict == Rejected(false) then CountOf(call) else 0)
  {
    hide Counting, CountersOf;
  }

  /** Appending an event: the steps of a task come to the method's outcome. */
  lemma AppendAgrees(st: State, t: TaskId, p: Process, run: RunId, scope: Scope, build: int -> Event, now: int,
                     p': Process, r: Result<Option<Event>>)
    requires Mirrors(st, p) && Begins(st, t, AppendCall(run, scope))
    requires AppendOutcome(p, [], run, scope, build, p', r)
    ensures DoneAs(st, t, AppendCall(run, scope), p',
                   Whole(st, t, AppendCall(run, scope), [build(CounterOf(p.reg, run) + 1)], now),
                   if r.Err? && NumberLost(p.reg, p'.reg, run) then 1 else 0)
  {
    hide Whole, Begins, Keeps, KeepsAhead, OthersSame, AppendWritten, RefusesEvent, AppendLoses, H.Exec, RecordEvent;
    hide Mirrors, DoneAs, After, CountersOf, LastOf, KnownRun, LifecycleTasks.Known, NumberLost, Counting;
    var call, n := AppendCall(run, scope), CounterOf(p.reg, run) + 1;
    var events := [build(n)];
    MirrorsLast(st, p, call);
    StoppedDone(st, t, call, p);
    NothingLost(p.reg, run);
    assert Numbers(LastOf(st, run), 1) == [n];
    if !LifecycleTasks.Known(st.store, call) {
      WholeUnknown(st, t, call, events, now);
    } else if run !in p.reg {
      WholeUnregistered(st, t, call, events, now);
    } else if !Fits(call, events, [n]) {
      WholeMisfit(st, t, call, events, now);
    } else {
      WholeWritten(st, t, call, events, now);
      AppendCounters(p, run, scope, build(n), p', r);
      WrittenDone(st, t, call, p, p', StoreAnswer(st.store, call, events, now).1);
    }
  }

  /** The counters after an event to append reached the store. */
  lemma AppendCounters(p: Process, run: RunId, scope: Scope, event: Event, p': Process, r: Result<Option<Event>>)
    requires run in p.reg && event.run == run && AppendWritten(p, [], scope, event, p', r)
    ensures (p'.store, r) == Appended(p.store, run, scope, event)
    ensures CountersOf(p'.reg) == (if r.Ok? && r.value.None? then Counting(CountersOf(p.reg), run, 1) - {run}
                                   else Counting(CountersOf(p.reg), run, 1))
    ensures r.Err? ==> NumberLost(p.reg, p'.reg, run)
  {
    hide Keeps, KeepsAhead, Heard, RefusesEvent, Appended, H.Exec;
    NoOthers(p.store);
    SameCountersSelf(Advanced(p.reg, run, 1));
    if r.Ok? && r.value.None? {
      CountersRemoved(p.reg, p'.reg, run, 1);
    } else {
      CountersAdvanced(p.reg, p'.reg, run, 1);
    }
  }

  /** Finishing a run. */
  lemma FinishAgrees(st: State, t: TaskId, p: Process, finish: RunFinish, scope: Scope, entries: seq<EntryWrite>,
                     build: int -> Event, now: int, p': Process, r: Result<FinishResult>)
    requires Mirrors(st, p) && Begins(st, t, FinishCall(finish, scope, entries))
    requires FinishOutcome(p, [], finish, scope, entries, build, p', r)
    ensures DoneAs(st, t, FinishCall(finish, scope, entries), p',
                   Whole(st, t, FinishCall(finish, scope, entries), [build(CounterOf(p.reg, finish.run) + 1)], now),
                   if r.Err? && NumberLost(p.reg, p'.reg, finish.run) then 1 else 0)
  {
    hide Whole, Begins, Keeps, KeepsAhead, OthersSame, FinishWritten, RefusesFinish, FinishLoses, H.Exec, FinishRun;
    hide Mirrors, DoneAs, After, CountersOf, LastOf, KnownRun, LifecycleTasks.Known, NumberLost, Counting;
    var call, n := FinishCall(finish, scope, entries), CounterOf(p.reg, finish.run) + 1;
    var events := [build(n)];
    assert finish.status.IsTerminal() by { BeginsPlanned(st, t, call); }
    MirrorsLast(st, p, call);
    StoppedDone(st, t, call, p);
    NothingLost(p.reg, finish.run);
    assert Numbers(LastOf(st, finish.run), 1) == [n];
    if !LifecycleTasks.Known(st.store, call) {
      WholeUnknown(st, t, call, events, now);
    } else if finish.run !in p.reg {
      WholeUnregistered(st, t, call, events, now);
    } else if !Fits(call, events, [n]) {
      WholeMisfit(st, t, call, events, now);
    } else {
      WholeWritten(st, t, call, events, now);
      FinishCounters(p, FinishRecord(finish.run, finish.session, scope, finish.status, finish.reason, build(n), entries),
                     p', r);
      WrittenDone(st, t, call, p, p', StoreAnswer(st.store, call, events, now).1);
    }
  }

  lemma BeginsPlanned(st: State, t: TaskId, call: Call)
    requires Begins(st, t, call)
    ensures Planned(call)
  {
  }

  lemma FinishCounters(p: Process, f: FinishRecord, p': Process, r: Result<FinishResult>)
    requires f.run in p.reg && FinishWritten(p, [], f, p', r)
    ensures (p'.store, r) == FinishRun(p.store, f)
    ensures CountersOf(p'.reg) == (if r.Ok? then Counting(CountersOf(p.reg), f.run, 1) - {f.run}
                                   else Counting(CountersOf(p.reg), f.run, 1))
    ensures r.Err? ==> NumberLost(p.reg, p'.reg, f.run)
  {
    hide Keeps, KeepsAhead, Heard, RefusesFinish, FinishRun, H.Exec;
    NoOthers(p.store);
    SameCountersSelf(Advanced(p.reg, f.run, 1));
    if r.Ok? {
      CountersRemoved(p.reg, p'.reg, f.run, 1);
    } else {
      CountersAdvanced(p.reg, p'.reg, f.run, 1);
    }
  }

  /** A commit; it never loses a number. */
  lemma CommitAgrees(st: State, t: TaskId, p: Process, run: RunId, session: SessionId, scope: Scope, plan: CommitPlan,
                     build: (nat, int) -> Event, now: int, p': Process, r: Result<CommitResult>)
    requires Mirrors(st, p) && Begins(st, t, CommitCall(run, session, scope, plan))
    requires CommitOutcome(p, [], run, session, scope, plan, build, now, p', r)
    ensures DoneAs(st, t, CommitCall(run, session, scope, plan), p',
                   Whole(st, t, CommitCall(run, session, scope, plan),
                         BuiltEvents(build, CounterOf(p.reg, run), plan.eventCount), now), 0)
  {
    hide Whole, Begins, Keeps, Records, Heard, H.Exec, CommitRun, EventsFit, CommitWritten, OthersSame;
    hide Mirrors, DoneAs, After, CountersOf, LastOf, KnownRun, LifecycleTasks.Known, Counting;
    var call := CommitCall(run, session, scope, plan);
    var events := BuiltEvents(build, CounterOf(p.reg, run), plan.eventCount);
    MirrorsLast(st, p, call);
    StoppedDone(st, t, call, p);
    if !LifecycleTasks.Known(st.store, call) {
      WholeUnknown(st, t, call, events, now);
    } else if run !in p.reg && plan.eventCount > 0 {
      WholeUnregistered(st, t, call, events, now);
    } else if !Fits(call, events, Numbers(LastOf(st, run), plan.eventCount)) {
      WholeMisfit(st, t, call, events, now);
    } else {
      WholeWritten(st, t, call, events, now);
      CommitCounters(p, BuiltCommit(run, session, scope, plan, build, CounterOf(p.reg, run)), now, p', r);
      WrittenDone(st, t, call, p, p', StoreAnswer(st.store, call, events, now).1);
    }
  }

  lemma CommitCounters(p: Process, c: Commit, now: int, p': Process, r: Result<CommitResult>)
    requires CommitWritten(p, [], c, now, p', r)
    ensures (p'.store, r) == CommitRun(p.store, c, now)
    ensures r.Err? ==> p'.reg == p.reg
    ensures r.Ok? ==>
              CountersOf(p'.reg) == (if r.value.Recorded? then Counting(CountersOf(p.reg), c.run, |c.events|)
                                     else Counting(CountersOf(p.reg), c.run, |c.events|) - {c.run})
  {
    hide Keeps, Heard, CommitRun, H.Exec;
    NoOthers(p.store);
    if r.Ok? && r.value.Recorded? {
      CountersAdvanced(p.reg, p'.reg, c.run, |c.events|);
    } else if r.Ok? {
      CountersRemoved(p.reg, p'.reg, c.run, |c.events|);
    }
  }
}
