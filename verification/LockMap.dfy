/**
 The map of per-run event locks as a state machine over the steps of any number of tasks.

 A lock is created when a task asks for one and the map has none; it is taken out of the map
 again by a task that finds nobody else holding a reference to it. What has to be shown is that
 this garbage collection never lets two tasks into the critical section of one run.
 */
module LockMap {
  import opened Types

  /** A lock is one allocation: the run it was made for and a serial number. */
  datatype Lock = Lock(run: RunId, serial: nat)

  /** Where a task is. `Has`: it cloned the lock and waits for it. `Holding`: it is in the
      critical section. `Released`: the guard is gone, the reference is not. `Checked`: it holds
      the map and has compared the reference count. `Gone`: it is done with the map. */
  datatype Task =
    | Idle
    | Has(lock: Lock)
    | Holding(lock: Lock)
    | Released(lock: Lock)
    | Checked(lock: Lock, remove: bool)
    | Gone(lock: Lock)

  type TaskId = nat

  datatype State = State(tasks: map<TaskId, Task>, locks: map<RunId, Lock>, mapHolder: Option<TaskId>, serial: nat)

  datatype Action =
    | Take(run: RunId)
    | Enter
    | Leave
    | Check
    | Remove
    | Drop

  datatype Step = Step(task: TaskId, action: Action)

  function TaskAt(s: State, t: TaskId): Task {
    if t in s.tasks then s.tasks[t] else Idle
  }

  predicate Refers(task: Task, lock: Lock) {
    !task.Idle? && task.lock == lock
  }

  function Holders(tasks: map<TaskId, Task>, lock: Lock): set<TaskId> {
    set t | t in tasks && Refers(tasks[t], lock)
  }

  /** Arc::strong_count: the reference of the map and those of the tasks. */
  function StrongCount(s: State, lock: Lock): nat {
    |Holders(s.tasks, lock)| + if lock.run in s.locks && s.locks[lock.run] == lock then 1 else 0
  }

  predicate Locked(s: State, lock: Lock) {
    exists t :: t in s.tasks && s.tasks[t] == Holding(lock)
  }

  function Moved(s: State, t: TaskId, task: Task): State {
    s.(tasks := s.tasks[t := task])
  }

  /** One step of one task; a step that is not enabled changes nothing. */
  function Next(s: State, step: Step): State {
    var t := step.task;
    var task := TaskAt(s, t);
    match step.action
    case Take(run) =>
      if !task.Idle? || s.mapHolder.Some? then s
      else if run in s.locks then Moved(s, t, Has(s.locks[run]))
      else
        var lock := Lock(run, s.serial);
        Moved(s, t, Has(lock)).(locks := s.locks[run := lock], serial := s.serial + 1)
    case Enter => if task.Has? && !Locked(s, task.lock) then Moved(s, t, Holding(task.lock)) else s
    case Leave => if task.Holding? then Moved(s, t, Released(task.lock)) else s
    case Check =>
      if !task.Released? || s.mapHolder.Some? then s
      else
        var run := task.lock.run;
        var remove := run in s.locks && s.locks[run] == task.lock && StrongCount(s, task.lock) <= 2;
        Moved(s, t, Checked(task.lock, remove)).(mapHolder := Some(t))
    case Remove =>
      if !task.Checked? then s
      else
        Moved(s, t, Gone(task.lock)).(locks := if task.remove then s.locks - {task.lock.run} else s.locks,
                                      mapHolder := None)
    case Drop =>
      if task.Has? || task.Released? || task.Gone? then Moved(s, t, Idle) else s
  }

  function Start(): State {
    State(map[], map[], None, 0)
  }

  function Exec(steps: seq<Step>, n: nat): State
    requires n <= |steps|
  {
    if n == 0 then Start() else Next(Exec(steps, n - 1), steps[n - 1])
  }

  // ---------------------------------------------------------------- invariant

  ghost predicate Mapped(s: State, lock: Lock) {
    lock.run in s.locks && s.locks[lock.run] == lock
  }

  ghost predicate Sole(s: State, t: TaskId, lock: Lock) {
    forall u :: u in s.tasks && Refers(s.tasks[u], lock) ==> u == t
  }

  ghost predicate Inv(s: State) {
    // locks are filed under their own run and were made already
    && (forall r :: r in s.locks ==> s.locks[r].run == r && s.locks[r].serial < s.serial)
    && (forall t :: t in s.tasks && !s.tasks[t].Idle? ==> s.tasks[t].lock.serial < s.serial)
    // whoever waits for a lock or holds it refers to the lock of the map
    && (forall t :: t in s.tasks && (s.tasks[t].Has? || s.tasks[t].Holding?) ==> Mapped(s, s.tasks[t].lock))
    // a lock is held once
    && (forall t, u :: t in s.tasks && u in s.tasks && s.tasks[t].Holding? && s.tasks[u] == s.tasks[t] ==> t == u)
    // the map is held by the task that checks, and a lock it will remove is its own alone
    && (forall t :: t in s.tasks && s.tasks[t].Checked? ==> s.mapHolder == Some(t))
    && (forall t :: t in s.tasks && s.tasks[t].Checked? && s.tasks[t].remove ==>
          Mapped(s, s.tasks[t].lock) && Sole(s, t, s.tasks[t].lock))
  }

  /** A count of at most two leaves room for the map and for the task that counts. */
  lemma CountedAlone(s: State, t: TaskId, lock: Lock)
    requires t in s.tasks && Refers(s.tasks[t], lock) && Mapped(s, lock)
    ensures StrongCount(s, lock) <= 2 <==> Sole(s, t, lock)
  {
    var holders := Holders(s.tasks, lock);
    assert t in holders;
    if Sole(s, t, lock) {
      assert holders == {t};
    } else {
      var u :| u in s.tasks && Refers(s.tasks[u], lock) && u != t;
      assert {t, u} <= holders;
      assert |holders| >= |{t, u}| by { SubsetSize({t, u}, holders); }
    }
  }

  lemma {:induction false} SubsetSize<T>(a: set<T>, b: set<T>)
    requires a <= b
    ensures |a| <= |b|
  {
    if a != {} {
      var x :| x in a;
      SubsetSize(a - {x}, b - {x});
    }
  }

  lemma CheckKeeps(s: State, t: TaskId)
    requires Inv(s) && t in s.tasks && s.tasks[t].Released? && s.mapHolder.None?
    ensures Inv(Next(s, Step(t, Check)))
  {
    var lock := s.tasks[t].lock;
    if Mapped(s, lock) {
      CountedAlone(s, t, lock);
    }
    hide StrongCount;
  }

  lemma RemoveKeeps(s: State, t: TaskId)
    requires Inv(s) && t in s.tasks && s.tasks[t].Checked?
    ensures Inv(Next(s, Step(t, Remove)))
  {
    var lock := s.tasks[t].lock;
    var next := Next(s, Step(t, Remove));
    forall u | u in next.tasks && (next.tasks[u].Has? || next.tasks[u].Holding?)
      ensures Mapped(next, next.tasks[u].lock)
    {
      assert u != t && Mapped(s, s.tasks[u].lock);
      assert s.tasks[t].remove ==> !Refers(s.tasks[u], lock);
    }
  }

  lemma TakeKeeps(s: State, t: TaskId, run: RunId)
    requires Inv(s) && TaskAt(s, t).Idle?
    ensures Inv(Next(s, Step(t, Take(run))))
  {
    hide StrongCount;
  }

  lemma EnterKeeps(s: State, t: TaskId)
    requires Inv(s) && TaskAt(s, t).Has? && !Locked(s, TaskAt(s, t).lock)
    ensures Inv(Next(s, Step(t, Enter)))
  {
    hide StrongCount;
  }

  lemma LeaveKeeps(s: State, t: TaskId, task: Task)
    requires Inv(s) && t in s.tasks && !s.tasks[t].Checked?
    requires task.Idle? || (task.Released? && Refers(s.tasks[t], task.lock))
    ensures Inv(Moved(s, t, task))
  {
  }

  lemma NextKeeps(s: State, step: Step)
    requires Inv(s)
    ensures Inv(Next(s, step))
  {
    var t := step.task;
    var task := TaskAt(s, t);
    hide Inv, StrongCount, Locked;
    match step.action
    case Take(run) => if task.Idle? { TakeKeeps(s, t, run); }
    case Enter => if task.Has? && !Locked(s, task.lock) { EnterKeeps(s, t); }
    case Leave => if task.Holding? { LeaveKeeps(s, t, Released(task.lock)); }
    case Check => if task.Released? && s.mapHolder.None? { CheckKeeps(s, t); }
    case Remove => if task.Checked? { RemoveKeeps(s, t); }
    case Drop => if task.Has? || task.Released? || task.Gone? { LeaveKeeps(s, t, Idle); }
  }

  lemma {:induction false} ExecKeeps(steps: seq<Step>, n: nat)
    requires n <= |steps|
    ensures Inv(Exec(steps, n))
  {
    if n > 0 {
      ExecKeeps(steps, n - 1);
      NextKeeps(Exec(steps, n - 1), steps[n - 1]);
    }
  }

  // ---------------------------------------------------------------- results

  /** In every interleaving at most one task is in the critical section of a run. */
  lemma MutualExclusion(steps: seq<Step>, n: nat, t: TaskId, u: TaskId)
    requires n <= |steps|
    requires TaskAt(Exec(steps, n), t).Holding? && TaskAt(Exec(steps, n), u).Holding?
    requires TaskAt(Exec(steps, n), t).lock.run == TaskAt(Exec(steps, n), u).lock.run
    ensures t == u
  {
    ExecKeeps(steps, n);
    var s := Exec(steps, n);
    assert Mapped(s, s.tasks[t].lock) && Mapped(s, s.tasks[u].lock);
  }

  /** A lock leaves the map only by a task that has left it, while no other task refers to it:
      the lock of a later generation is never removed in its place. */
  lemma OnlyTheLastRemoves(steps: seq<Step>, n: nat, r: RunId)
    requires n < |steps| && r in Exec(steps, n).locks
    ensures var s := Exec(steps, n);
            var next := Exec(steps, n + 1);
            var t := steps[n].task;
            (r in next.locks && next.locks[r] == s.locks[r])
            || (steps[n].action.Remove? && TaskAt(s, t) == Checked(s.locks[r], true) && Sole(s, t, s.locks[r]))
  {
    ExecKeeps(steps, n);
  }

  /** And the last one does remove it: a check that finds no other reference to the mapped lock
      is followed by its removal, and one that finds another reference is not. */
  lemma LastOneRemoves(steps: seq<Step>, n: nat, t: TaskId)
    requires n <= |steps|
    requires TaskAt(Exec(steps, n), t).Released? && Exec(steps, n).mapHolder.None?
    ensures var s := Exec(steps, n);
            var lock := TaskAt(s, t).lock;
            var after := Next(Next(s, Step(t, Check)), Step(t, Remove));
            if Mapped(s, lock) && Sole(s, t, lock) then lock.run !in after.locks else after.locks == s.locks
  {
    ExecKeeps(steps, n);
    var s := Exec(steps, n);
    var lock := TaskAt(s, t).lock;
    if Mapped(s, lock) {
      CountedAlone(s, t, lock);
    }
    hide StrongCount;
  }

  // ---------------------------------------------------------------- nobody is stuck

  /** Who holds the map has checked a reference count. */
  lemma {:induction false} HolderChecks(steps: seq<Step>, n: nat)
    requires n <= |steps|
    ensures var s := Exec(steps, n);
            s.mapHolder.Some? ==> TaskAt(s, s.mapHolder.value).Checked?
  {
    if n > 0 {
      HolderChecks(steps, n - 1);
      ExecKeeps(steps, n - 1);
    }
  }

  /** The task moves to `task` by its step. */
  predicate Moves(s: State, t: TaskId, action: Action, task: Task) {
    TaskAt(Next(s, Step(t, action)), t) == task
  }

  /** In every reachable state a task's next step is possible, or some other task that it waits for can
      go on: the one in its critical section can leave it, the one that holds the map can let go. */
  lemma NobodyIsStuck(steps: seq<Step>, n: nat, t: TaskId, run: RunId)
    requires n <= |steps|
    ensures var s := Exec(steps, n);
            var free := s.mapHolder.None?;
            && (!free ==>
                  var u := s.mapHolder.value;
                  TaskAt(s, u).Checked? && Moves(s, u, Remove, Gone(TaskAt(s, u).lock))
                  && Next(s, Step(u, Remove)).mapHolder.None?)
            && match TaskAt(s, t)
               case Idle => free ==> TaskAt(Next(s, Step(t, Take(run))), t).Has?
                                     && TaskAt(Next(s, Step(t, Take(run))), t).lock.run == run
               case Has(lock) => Moves(s, t, Enter, Holding(lock))
                                 || exists u :: TaskAt(s, u) == Holding(lock) && Moves(s, u, Leave, Released(lock))
               case Holding(lock) => Moves(s, t, Leave, Released(lock))
               case Released(lock) => free ==> TaskAt(Next(s, Step(t, Check)), t).Checked?
               case Checked(lock, _) => Moves(s, t, Remove, Gone(lock))
               case Gone(_) => Moves(s, t, Drop, Idle)
  {
    hide Exec, StrongCount;
    HolderChecks(steps, n);
    ExecKeeps(steps, n);
    var s := Exec(steps, n);
    var task := TaskAt(s, t);
    if task.Has? && Locked(s, task.lock) {
      var u :| u in s.tasks && s.tasks[u] == Holding(task.lock);
      assert TaskAt(s, u) == Holding(task.lock) && Moves(s, u, Leave, Released(task.lock));
    }
  }
}
