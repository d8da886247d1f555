/**
 Cancelling a run while it registers or unregisters itself, for one run id.

 A cancel first puts a mark, then looks for the control of the active run and sets its flag. A
 run looks for the mark, publishes its control, looks for the mark again, and once more when it
 begins; when it is over it takes its control back and clears the mark. Every one of these steps
 holds its own lock, so they interleave freely.
 */
module Cancellation {
  import opened Types

  type TaskId = nat

  /** A run task: it looked for the mark, published its control, is registered, has taken its
      control back (or found another one in its place), is gone. */
  datatype RunPhase = Checked | Inserted | Registered | Removed(own: bool) | Gone

  /** A cancelling task: it put the mark, it found a control or none, it is done. */
  datatype CancelPhase = Marked | Found(control: Option<TaskId>) | Through(control: Option<TaskId>)

  /** `active` is the published control, named after its task; `flags` are the cancelled ones. */
  datatype State = State(marked: bool, active: Option<TaskId>, flags: set<TaskId>, runs: map<TaskId, RunPhase>,
                         cancels: map<TaskId, CancelPhase>)

  datatype Action =
    | Check(run: TaskId)
    | Insert(run: TaskId)
    | Recheck(run: TaskId)
    | Begin(run: TaskId)
    | TakeBack(run: TaskId)
    | ClearMark(run: TaskId)
    | Mark(cancel: TaskId)
    | Find(cancel: TaskId)
    | Flag(cancel: TaskId)

  predicate At(s: State, run: TaskId, phase: RunPhase) {
    run in s.runs && s.runs[run] == phase
  }

  predicate CancelAt(s: State, cancel: TaskId, phase: CancelPhase) {
    cancel in s.cancels && s.cancels[cancel] == phase
  }

  function Next(s: State, action: Action): State {
    match action
    case Check(g) =>
      if g in s.runs then s
      else s.(runs := s.runs[g := Checked], flags := if s.marked then s.flags + {g} else s.flags)
    case Insert(g) => if At(s, g, Checked) then s.(runs := s.runs[g := Inserted], active := Some(g)) else s
    case Recheck(g) =>
      if At(s, g, Inserted)
      then s.(runs := s.runs[g := Registered], flags := if s.marked then s.flags + {g} else s.flags) else s
    case Begin(g) => if At(s, g, Registered) && s.marked then s.(flags := s.flags + {g}) else s
    case TakeBack(g) =>
      if At(s, g, Registered)
      then s.(runs := s.runs[g := Removed(s.active == Some(g))],
              active := if s.active == Some(g) then None else s.active) else s
    case ClearMark(g) =>
      if At(s, g, Removed(true)) then s.(runs := s.runs[g := Gone], marked := false)
      else if At(s, g, Removed(false)) then s.(runs := s.runs[g := Gone])
      else s
    case Mark(c) => if c in s.cancels then s else s.(marked := true, cancels := s.cancels[c := Marked])
    case Find(c) => if CancelAt(s, c, Marked) then s.(cancels := s.cancels[c := Found(s.active)]) else s
    case Flag(c) =>
      if c in s.cancels && s.cancels[c].Found?
      then s.(cancels := s.cancels[c := Through(s.cancels[c].control)],
              flags := if s.cancels[c].control.Some? then s.flags + {s.cancels[c].control.value} else s.flags)
      else s
  }

  function Start(): State {
    State(false, None, {}, map[], map[])
  }

  function Exec(actions: seq<Action>, n: nat): State
    requires n <= |actions|
  {
    if n == 0 then Start() else Next(Exec(actions, n - 1), actions[n - 1])
  }

  /** Every task before has gone when a task begins to register. */
  ghost predicate OneAtATime(actions: seq<Action>) {
    forall i, g :: 0 <= i < |actions| && actions[i] == Check(g) ==> AllGone(Exec(actions, i))
  }

  ghost predicate AllGone(s: State) {
    forall g :: g in s.runs ==> s.runs[g].Gone?
  }

  // ---------------------------------------------------------------- invariant

  ghost predicate Inv(s: State) {
    // at most one task is under way, and the published control is its own
    && (forall g, h :: g in s.runs && h in s.runs && !s.runs[g].Gone? && !s.runs[h].Gone? ==> g == h)
    && (forall g :: g in s.runs && (s.runs[g].Inserted? || s.runs[g].Registered?) ==> s.active == Some(g))
    && (s.active.Some? ==> At(s, s.active.value, Inserted) || At(s, s.active.value, Registered))
    && (forall g :: g in s.runs && s.runs[g].Removed? ==> s.runs[g].own)
  }

  lemma NextKeeps(s: State, action: Action)
    requires Inv(s) && (action.Check? ==> AllGone(s))
    ensures Inv(Next(s, action))
  {
  }

  lemma {:induction false} ExecKeeps(actions: seq<Action>, n: nat)
    requires n <= |actions| && OneAtATime(actions)
    ensures Inv(Exec(actions, n))
  {
    if n > 0 {
      ExecKeeps(actions, n - 1);
      var last := actions[n - 1];
      assert last.Check? ==> last == Check(last.run);
      NextKeeps(Exec(actions, n - 1), last);
    }
  }

  // ---------------------------------------------------------------- what happened in a history

  /** The cancel puts its mark. */
  ghost predicate Puts(actions: seq<Action>, i: nat, c: TaskId) {
    i < |actions| && actions[i] == Mark(c) && c !in Exec(actions, i).cancels
  }

  /** The mark is cleared. */
  ghost predicate Clears(actions: seq<Action>, i: nat) {
    i < |actions| && actions[i].ClearMark? && At(Exec(actions, i), actions[i].run, Removed(true))
  }

  /** The run looks for the mark again: after publishing its control, or when it begins. */
  ghost predicate LooksAgain(actions: seq<Action>, i: nat, g: TaskId) {
    i < |actions| && Look(Exec(actions, i), actions[i], g)
  }

  predicate Look(s: State, action: Action, g: TaskId) {
    (action == Recheck(g) && At(s, g, Inserted)) || (action == Begin(g) && At(s, g, Registered))
  }

  ghost predicate Stands(actions: seq<Action>, i: nat, n: nat) {
    forall k :: i < k < n ==> !Clears(actions, k)
  }

  /** The cancel's mark still stood at a later look of the run. */
  ghost predicate Seen(actions: seq<Action>, n: nat, c: TaskId, g: TaskId) {
    exists i: nat, j: nat :: i < j < n && Puts(actions, i, c) && LooksAgain(actions, j, g) && Stands(actions, i, j)
  }

  /** The cancel reaches the run: by its mark, or because it found the control. */
  ghost predicate Reaches(actions: seq<Action>, n: nat, c: TaskId, g: TaskId)
    requires n <= |actions|
  {
    Seen(actions, n, c, g) || CancelAt(Exec(actions, n), c, Through(Some(g)))
  }

  /** At step `i` every other task that has started by step `n` had gone. */
  ghost predicate OthersGone(actions: seq<Action>, i: nat, n: nat, g: TaskId)
    requires i <= |actions| && n <= |actions|
  {
    forall h :: h in Exec(actions, n).runs && h != g ==> At(Exec(actions, i), h, Gone)
  }

  lemma MarkStep(s: State, action: Action)
    ensures Next(s, action).marked
            <==> (action.Mark? && action.cancel !in s.cancels)
                 || (s.marked && !(action.ClearMark? && At(s, action.run, Removed(true))))
  {
  }

  /** The mark is there exactly when some cancel put it and nobody cleared it since. */
  lemma {:induction false} MarkedExactly(actions: seq<Action>, n: nat)
    requires n <= |actions|
    ensures Exec(actions, n).marked <==> exists i: nat, c :: i < n && Puts(actions, i, c) && Stands(actions, i, n)
  {
    hide Next;
    if n > 0 {
      MarkedExactly(actions, n - 1);
      var s, last := Exec(actions, n - 1), actions[n - 1];
      MarkStep(s, last);
      hide Exec;
      if i: nat, c :| i < n && Puts(actions, i, c) && Stands(actions, i, n) {
        if i < n - 1 {
          assert !Clears(actions, n - 1);
          assert Stands(actions, i, n - 1);
        }
      }
      if last.Mark? && last.cancel !in s.cancels {
        assert Puts(actions, n - 1, last.cancel) && Stands(actions, n - 1, n);
      } else if s.marked && !Clears(actions, n - 1) {
        var i: nat, c :| i < n - 1 && Puts(actions, i, c) && Stands(actions, i, n - 1);
        assert Stands(actions, i, n);
      }
    } else {
      assert !Start().marked;
    }
  }

  // ---------------------------------------------------------------- why a run is flagged

  ghost predicate Controlled(s: State, g: TaskId) {
    exists c :: CancelAt(s, c, Through(Some(g)))
  }

  ghost predicate LookedAtMark(actions: seq<Action>, n: nat, g: TaskId) {
    exists j: nat :: j < n && LooksAgain(actions, j, g) && Exec(actions, j).marked
  }

  /** Only a task that has started is found or flagged, and a flag goes with its cause. */
  ghost predicate FlagInv(s: State, g: TaskId, looked: bool) {
    && ((exists c :: CancelAt(s, c, Found(Some(g)))) ==> g in s.runs)
    && (g in s.flags ==> g in s.runs)
    && (Controlled(s, g) || looked ==> g in s.flags)
    && (At(s, g, Checked) || At(s, g, Inserted) ==> g in s.flags ==> s.marked || Controlled(s, g))
    && (At(s, g, Registered) && g in s.flags ==> looked || Controlled(s, g))
  }

  lemma FlagStep(s: State, action: Action, g: TaskId, looked: bool)
    requires Inv(s) && (action.Check? ==> AllGone(s)) && FlagInv(s, g, looked)
    ensures FlagInv(Next(s, action), g, looked || (Look(s, action, g) && s.marked))
  {
    var next := Next(s, action);
    if Controlled(s, g) {
      var c :| CancelAt(s, c, Through(Some(g)));
      assert CancelAt(next, c, Through(Some(g)));
    }
    if action.Flag? && CancelAt(s, action.cancel, Found(Some(g))) {
      assert CancelAt(next, action.cancel, Through(Some(g)));
    }
    forall c | CancelAt(next, c, Through(Some(g))) ensures g in next.flags {
      assert CancelAt(s, c, Through(Some(g))) || CancelAt(s, c, Found(Some(g)));
    }
    forall c | CancelAt(next, c, Found(Some(g))) ensures g in next.runs {
      assert CancelAt(s, c, Found(Some(g))) || s.active == Some(g);
    }
  }

  lemma {:induction false} FlagOrigin(actions: seq<Action>, n: nat, g: TaskId)
    requires n <= |actions| && OneAtATime(actions)
    ensures FlagInv(Exec(actions, n), g, LookedAtMark(actions, n, g))
  {
    hide FlagInv, Next;
    if n == 0 {
      FlagStart(g);
    } else {
      FlagOrigin(actions, n - 1, g);
      ExecKeeps(actions, n - 1);
      var s, last := Exec(actions, n - 1), actions[n - 1];
      assert last.Check? ==> last == Check(last.run);
      FlagStep(s, last, g, LookedAtMark(actions, n - 1, g));
      assert LookedAtMark(actions, n, g)
             == (LookedAtMark(actions, n - 1, g) || (LooksAgain(actions, n - 1, g) && s.marked));
    }
  }

  lemma FlagStart(g: TaskId)
    ensures FlagInv(Start(), g, false)
  {
  }

  /** Why a run is cancelled: under every interleaving with one registration at a time, the control
      of a registered run is set exactly when some cancel reached it. */
  lemma FlaggedExactly(actions: seq<Action>, n: nat, g: TaskId)
    requires n <= |actions| && OneAtATime(actions) && At(Exec(actions, n), g, Registered)
    ensures g in Exec(actions, n).flags <==> exists c :: Reaches(actions, n, c, g)
  {
    FlagOrigin(actions, n, g);
    hide Exec, Inv, OneAtATime, Stands, LooksAgain, Puts;
    if c :| Reaches(actions, n, c, g) {
      if Seen(actions, n, c, g) {
        var i: nat, j: nat :| i < j < n && Puts(actions, i, c) && LooksAgain(actions, j, g) && Stands(actions, i, j);
        MarkedExactly(actions, j);
      }
    }
    if LookedAtMark(actions, n, g) {
      var j: nat :| j < n && LooksAgain(actions, j, g) && Exec(actions, j).marked;
      MarkedExactly(actions, j);
      var i: nat, c :| i < j && Puts(actions, i, c) && Stands(actions, i, j);
      assert Seen(actions, n, c, g);
      assert Reaches(actions, n, c, g);
    } else if Controlled(Exec(actions, n), g) {
      var c :| CancelAt(Exec(actions, n), c, Through(Some(g)));
      assert Reaches(actions, n, c, g);
    }
  }

  // ---------------------------------------------------------------- which cancels reach a run

  /** The task has taken its control back. */
  predicate Left(s: State, g: TaskId) {
    g in s.runs && (s.runs[g].Removed? || s.runs[g].Gone?)
  }

  lemma MovesOnOnce(s: State, action: Action, g: TaskId)
    ensures g in s.runs ==> g in Next(s, action).runs
    ensures Left(s, g) ==> Left(Next(s, action), g)
    ensures At(s, g, Gone) ==> At(Next(s, action), g, Gone)
    ensures At(s, g, Registered) ==> At(Next(s, action), g, Registered) || Left(Next(s, action), g)
  {
  }

  /** Tasks only move on. */
  lemma {:induction false} MovesOn(actions: seq<Action>, m: nat, n: nat, g: TaskId)
    requires m <= n <= |actions|
    ensures g in Exec(actions, m).runs ==> g in Exec(actions, n).runs
    ensures Left(Exec(actions, m), g) ==> Left(Exec(actions, n), g)
    ensures At(Exec(actions, m), g, Gone) ==> At(Exec(actions, n), g, Gone)
    ensures At(Exec(actions, m), g, Registered) ==> At(Exec(actions, n), g, Registered) || Left(Exec(actions, n), g)
    decreases n
  {
    hide Next, Left, At;
    if m < n {
      MovesOn(actions, m, n - 1, g);
      MovesOnOnce(Exec(actions, n - 1), actions[n - 1], g);
    }
  }

  /** A task that has gone since then cleared the mark. */
  lemma {:induction false} GoneByClearing(actions: seq<Action>, i: nat, n: nat, h: TaskId)
    requires i <= n <= |actions| && OneAtATime(actions)
    requires !At(Exec(actions, i), h, Gone) && At(Exec(actions, n), h, Gone)
    ensures exists k: nat :: i <= k < n && Clears(actions, k)
    decreases n
  {
    hide OneAtATime;
    assert i < n;
    if At(Exec(actions, n - 1), h, Gone) {
      GoneByClearing(actions, i, n - 1, h);
    } else {
      ExecKeeps(actions, n - 1);
      assert actions[n - 1] == ClearMark(h);
      assert Clears(actions, n - 1);
    }
  }

  /** A registered run has looked for the mark again, and stayed registered since. */
  lemma {:induction false} HasLooked(actions: seq<Action>, n: nat, g: TaskId) returns (j: nat)
    requires n <= |actions| && At(Exec(actions, n), g, Registered)
    ensures j < n && LooksAgain(actions, j, g)
    ensures forall k: nat :: j < k <= n ==> At(Exec(actions, k), g, Registered)
  {
    assert n > 0;
    if At(Exec(actions, n - 1), g, Registered) {
      j := HasLooked(actions, n - 1, g);
    } else {
      j := n - 1;
    }
  }

  /** The mark was not cleared exactly when all others had gone as it was put. */
  lemma StandsExactly(actions: seq<Action>, i: nat, n: nat, c: TaskId, g: TaskId)
    requires i < n <= |actions| && OneAtATime(actions) && Puts(actions, i, c)
    requires At(Exec(actions, n), g, Registered)
    ensures Stands(actions, i, n) <==> OthersGone(actions, i, n, g)
  {
    ExecKeeps(actions, n);
    hide Exec, OneAtATime;
    if Stands(actions, i, n) {
      forall h | h in Exec(actions, n).runs && h != g ensures At(Exec(actions, i), h, Gone) {
        if !At(Exec(actions, i), h, Gone) {
          GoneByClearing(actions, i, n, h);
        }
      }
    }
    if OthersGone(actions, i, n, g) {
      forall k: nat | i < k < n ensures !Clears(actions, k) {
        if Clears(actions, k) {
          var h := actions[k].run;
          MovesOn(actions, i, k, h);
          MovesOn(actions, k, n, h);
        }
      }
    }
  }

  /** A cancel that starts while the run is registered finds its control. */
  lemma {:induction false} FindsRegistered(actions: seq<Action>, i: nat, n: nat, c: TaskId, g: TaskId)
    requires i < n <= |actions| && OneAtATime(actions) && Puts(actions, i, c)
    requires forall k: nat :: i <= k <= n ==> At(Exec(actions, k), g, Registered)
    ensures CancelAt(Exec(actions, n), c, Marked) || CancelAt(Exec(actions, n), c, Found(Some(g)))
            || CancelAt(Exec(actions, n), c, Through(Some(g)))
    decreases n
  {
    hide OneAtATime;
    if i < n - 1 {
      FindsRegistered(actions, i, n - 1, c, g);
      ExecKeeps(actions, n - 1);
      FindStep(Exec(actions, n - 1), actions[n - 1], c, g);
      hide Next, Inv;
    }
  }

  lemma FindStep(s: State, action: Action, c: TaskId, g: TaskId)
    requires Inv(s) && At(s, g, Registered)
    requires CancelAt(s, c, Marked) || CancelAt(s, c, Found(Some(g))) || CancelAt(s, c, Through(Some(g)))
    ensures var next := Next(s, action);
            CancelAt(next, c, Marked) || CancelAt(next, c, Found(Some(g))) || CancelAt(next, c, Through(Some(g)))
  {
  }

  lemma CancelStaysOnce(s: State, action: Action, c: TaskId)
    requires c in s.cancels
    ensures c in Next(s, action).cancels
  {
  }

  lemma {:induction false} CancelStays(actions: seq<Action>, i: nat, n: nat, c: TaskId)
    requires i < n <= |actions| && Puts(actions, i, c)
    ensures c in Exec(actions, n).cancels
    decreases n
  {
    if i < n - 1 {
      hide Next;
      CancelStays(actions, i, n - 1, c);
      CancelStaysOnce(Exec(actions, n - 1), actions[n - 1], c);
    }
  }

  /** Which cancels reach a run. A cancel that is through, with its mark put at step `i`, reached
      the registered run exactly when every other task of the run id had gone as it put its mark,
      or it found the run's own control. */
  lemma ReachesExactly(actions: seq<Action>, i: nat, n: nat, c: TaskId, g: TaskId)
    requires i < n <= |actions| && OneAtATime(actions) && Puts(actions, i, c)
    requires At(Exec(actions, n), g, Registered)
    requires c in Exec(actions, n).cancels && Exec(actions, n).cancels[c].Through?
    ensures Reaches(actions, n, c, g)
            <==> OthersGone(actions, i, n, g) || CancelAt(Exec(actions, n), c, Through(Some(g)))
  {
    StandsExactly(actions, i, n, c, g);
    var j := HasLooked(actions, n, g);
    hide Exec, OneAtATime, OthersGone;
    if Stands(actions, i, n) {
      if i < j {
        assert Stands(actions, i, j);
        assert Seen(actions, n, c, g);
      } else {
        assert j != i;
        FindsRegistered(actions, i, n, c, g);
      }
    }
    if Seen(actions, n, c, g) {
      SeenStands(actions, i, n, c, g);
    }
  }

  lemma SeenStands(actions: seq<Action>, i: nat, n: nat, c: TaskId, g: TaskId)
    requires i < n <= |actions| && OneAtATime(actions) && Puts(actions, i, c)
    requires At(Exec(actions, n), g, Registered) && Seen(actions, n, c, g)
    ensures Stands(actions, i, n)
  {
    hide Exec, OneAtATime;
    var i': nat, j: nat :| i' < j < n && Puts(actions, i', c) && LooksAgain(actions, j, g) && Stands(actions, i', j);
    if i < i' {
      CancelStays(actions, i, i', c);
    } else if i' < i {
      CancelStays(actions, i', i, c);
    }
    forall k: nat | j < k < n ensures !Clears(actions, k) {
      LookedAgain(actions, j, g);
      MovesOn(actions, j + 1, k, g);
      MovesOn(actions, k, n, g);
      ExecKeeps(actions, k);
    }
  }

  lemma LookedAgain(actions: seq<Action>, j: nat, g: TaskId)
    requires LooksAgain(actions, j, g)
    ensures At(Exec(actions, j + 1), g, Registered)
  {
  }

  /** No cancellation is lost when the cancel starts after every earlier task has gone: once it is
      through and the run is registered, under every interleaving, the control of the run is set. */
  lemma NoLostCancellation(actions: seq<Action>, i: nat, n: nat, c: TaskId, g: TaskId)
    requires i < n <= |actions| && OneAtATime(actions) && Puts(actions, i, c) && OthersGone(actions, i, n, g)
    requires At(Exec(actions, n), g, Registered)
    requires c in Exec(actions, n).cancels && Exec(actions, n).cancels[c].Through?
    ensures g in Exec(actions, n).flags
  {
    hide Exec, OneAtATime, OthersGone, Reaches;
    ReachesExactly(actions, i, n, c, g);
    FlaggedExactly(actions, n, g);
  }

  /** Without a cancel no control is set and no mark is put. */
  lemma {:induction false} FlagNeedsCancel(actions: seq<Action>, n: nat)
    requires n <= |actions|
    ensures Exec(actions, n).cancels == map[] ==> Exec(actions, n).flags == {} && !Exec(actions, n).marked
  {
    if n > 0 {
      FlagNeedsCancel(actions, n - 1);
      var s, last := Exec(actions, n - 1), actions[n - 1];
      assert Next(s, last).cancels == map[] ==> s.cancels == map[] by {
        if s.cancels != map[] {
          var c :| c in s.cancels;
          assert c in Next(s, last).cancels;
        }
      }
    }
  }

  /** A task takes back only its own control: whatever the interleaving, also of several tasks, a
      published control goes away only by its own task, or by another one that publishes its own. */
  lemma StaleTaskTakesNothing(actions: seq<Action>, n: nat, g: TaskId)
    requires n < |actions| && Exec(actions, n).active == Some(g)
    ensures Exec(actions, n + 1).active == Some(g) || actions[n] == TakeBack(g)
            || (actions[n].Insert? && Exec(actions, n + 1).active == Some(actions[n].run))
  {
  }

  // ---------------------------------------------------------------- when a cancel is lost

  lemma Unfold(actions: seq<Action>, n: nat)
    requires n < |actions|
    ensures Exec(actions, 0) == Start()
    ensures Exec(actions, n + 1) == Next(Exec(actions, n), actions[n])
    ensures n + 2 <= |actions| ==>
              Exec(actions, n + 2) == Next(Next(Exec(actions, n), actions[n]), actions[n + 1])
    ensures n + 3 <= |actions| ==>
              Exec(actions, n + 3) == Next(Next(Next(Exec(actions, n), actions[n]), actions[n + 1]), actions[n + 2])
  {
    hide Next;
  }

  /** A first run that registers, and one that has taken its control back. */
  lemma FirstRegisters()
    ensures Next(Next(Next(Start(), Check(0)), Insert(0)), Recheck(0))
            == State(false, Some(0), {}, map[0 := Registered], map[])
    ensures Next(State(false, Some(0), {}, map[0 := Registered], map[]), TakeBack(0))
            == State(false, None, {}, map[0 := Removed(true)], map[])
  {
    assert Next(Next(Start(), Check(0)), Insert(0)) == State(false, Some(0), {}, map[0 := Inserted], map[]);
  }

  function LateMark(): seq<Action> {
    [Check(0), Insert(0), Recheck(0), TakeBack(0), Mark(7), ClearMark(0), Check(1), Find(7), Flag(7), Insert(1),
     Recheck(1)]
  }

  /** A cancel can be lost although runs register one after the other: it puts its mark when the
      run before has taken its control back, that run clears the mark, and the cancel finds no
      control. In the end the cancel is through and run 1 is registered, with no mark and no flag. */
  lemma LostAfterClearing()
    ensures OneAtATime(LateMark()) && Puts(LateMark(), 4, 7)
    ensures Exec(LateMark(), 11)
            == State(false, Some(1), {}, map[0 := Gone, 1 := Registered], map[7 := Through(None)])
  {
    hide Exec, Next;
    LateMarkFirst();
    var actions := LateMark();
    Unfold(actions, 6);
    Unfold(actions, 9);
    CancelFindsNothing();
    assert actions[6] == Check(1) && actions[0] == Check(0);
  }

  lemma LateMarkFirst()
    ensures Exec(LateMark(), 0) == Start() && 7 !in Exec(LateMark(), 4).cancels
    ensures Exec(LateMark(), 6) == State(false, None, {}, map[0 := Gone], map[7 := Marked])
  {
    hide Exec, Next;
    var actions := LateMark();
    Unfold(actions, 0);
    FirstRegisters();
    Unfold(actions, 3);
    LateMarkIsCleared();
  }

  lemma LateMarkIsCleared()
    ensures Next(Next(State(false, None, {}, map[0 := Removed(true)], map[]), Mark(7)), ClearMark(0))
            == State(false, None, {}, map[0 := Gone], map[7 := Marked])
  {
  }

  lemma CancelFindsNothing()
    ensures var s := State(false, None, {}, map[0 := Gone], map[7 := Marked]);
            var through := Next(Next(Next(s, Check(1)), Find(7)), Flag(7));
            Next(Next(through, Insert(1)), Recheck(1))
            == State(false, Some(1), {}, map[0 := Gone, 1 := Registered], map[7 := Through(None)])
  {
    var s := State(false, None, {}, map[0 := Gone], map[7 := Marked]);
    assert Next(Next(Next(s, Check(1)), Find(7)), Flag(7))
           == State(false, None, {}, map[0 := Gone, 1 := Checked], map[7 := Through(None)]);
  }

  function Overlapping(): seq<Action> {
    [Check(0), Insert(0), Recheck(0), Check(1), Insert(1), Recheck(1), TakeBack(1), ClearMark(1), Mark(7), Find(7),
     Flag(7)]
  }

  /** Without one registration at a time even a cancel that starts when every other task has gone
      can be lost: run 0 is registered and unflagged, its control was replaced by that of run 1. */
  lemma LostWhenOverlapping()
    ensures Puts(Overlapping(), 8, 7) && OthersGone(Overlapping(), 8, 11, 0)
    ensures Exec(Overlapping(), 11)
            == State(true, None, {}, map[0 := Registered, 1 := Gone], map[7 := Through(None)])
  {
    var actions := Overlapping();
    hide Exec, Next;
    Unfold(actions, 0);
    FirstRegisters();
    Unfold(actions, 3);
    Unfold(actions, 6);
    SecondReplacesFirst();
    Unfold(actions, 8);
    CancelFindsReplaced();
  }

  lemma SecondReplacesFirst()
    ensures var s := State(false, Some(0), {}, map[0 := Registered], map[]);
            var both := Next(Next(Next(s, Check(1)), Insert(1)), Recheck(1));
            Next(Next(both, TakeBack(1)), ClearMark(1))
            == State(false, None, {}, map[0 := Registered, 1 := Gone], map[])
  {
    var s := State(false, Some(0), {}, map[0 := Registered], map[]);
    assert Next(Next(Next(s, Check(1)), Insert(1)), Recheck(1))
           == State(false, Some(1), {}, map[0 := Registered, 1 := Registered], map[]);
  }

  lemma CancelFindsReplaced()
    ensures var s := State(false, None, {}, map[0 := Registered, 1 := Gone], map[]);
            Next(Next(Next(s, Mark(7)), Find(7)), Flag(7))
            == State(true, None, {}, map[0 := Registered, 1 := Gone], map[7 := Through(None)])
  {
  }

  // ---------------------------------------------------------------- in every interleaving

  /** The step sets the control of run `g`: the run looks while the mark stands, or a cancel that found
      its control sets it. */
  predicate Sets(s: State, action: Action, g: TaskId) {
    match action
    case Check(run) => run == g && g !in s.runs && s.marked
    case Recheck(run) => run == g && At(s, g, Inserted) && s.marked
    case Begin(run) => run == g && At(s, g, Registered) && s.marked
    case Flag(cancel) => CancelAt(s, cancel, Found(Some(g)))
    case _ => false
  }

  lemma FlagsStep(s: State, action: Action, g: TaskId)
    ensures g in Next(s, action).flags <==> g in s.flags || Sets(s, action, g)
  {
  }

  /** However runs and cancels overlap: a control is set if and only if its run looked while a mark stood,
      or a cancel that had found it set it. */
  lemma {:induction false} SetExactly(actions: seq<Action>, n: nat, g: TaskId)
    requires n <= |actions|
    ensures g in Exec(actions, n).flags <==> exists i :: 0 <= i < n && Sets(Exec(actions, i), actions[i], g)
  {
    hide Next, Sets;
    if n > 0 {
      SetExactly(actions, n - 1, g);
      FlagsStep(Exec(actions, n - 1), actions[n - 1], g);
    }
  }
}
