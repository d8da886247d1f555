/**
 Reaping in two transactions: the first selects the stale runs, the second finishes those that
 are still stale. Any operations of other workers may come between the two.
 */
module SqlReap {
  import opened Types
  import opened StoreSpec
  import opened StoreInv
  import opened StoreHistory

  /** A selected run and the terminal event built for it. */
  datatype Pick = Pick(lookup: RunLookup, event: Event)

  /** The second transaction over the first `n` picks: a run that is no longer stale is passed
      over, and one that is stale under another number makes the transaction fail. */
  function ReapPicks(s: Store, picks: seq<Pick>, now: int, n: nat): Result<Store>
    requires n <= |picks|
  {
    if n == 0 then Ok(s)
    else
      var before := ReapPicks(s, picks, now, n - 1);
      if before.Err? then before
      else
        var r := picks[n - 1].lookup.run;
        var event := picks[n - 1].event;
        if r !in before.value.runs || !Stale(before.value.runs[r], now) then before
        else if event.num != LastNum(before.value.runs[r].events) + 1 then Err(InvalidRunEvent)
        else Ok(Reap(before.value, r, event, now))
  }

  // ---------------------------------------------------------------- the first transaction

  /** A selected row: a stale run and the number after its last event. */
  ghost predicate RowPicked(s: Store, row: (RunLookup, int), now: int) {
    && row.0.run in s.runs && Stale(s.runs[row.0.run], now)
    && row.0 == Lookup(s.runs[row.0.run]) && row.1 == LastNum(s.runs[row.0.run].events) + 1
  }

  function Expiry(s: Store, r: RunId): int {
    if r in s.runs && s.runs[r].lease.Some? then s.runs[r].lease.value.until else 0
  }

  /** The rows are distinct stale runs, the oldest leases first; `rest` is what was not chosen. */
  ghost predicate Selecting(s: Store, rows: seq<(RunLookup, int)>, rest: set<RunId>, limit: nat, now: int) {
    && |rows| <= limit
    && (forall r :: r in rest ==> r in s.runs && Stale(s.runs[r], now))
    && (forall i :: 0 <= i < |rows| ==> RowPicked(s, rows[i], now) && rows[i].0.run !in rest)
    && (forall i, j :: 0 <= i < j < |rows| ==>
          rows[i].0.run != rows[j].0.run && Expiry(s, rows[i].0.run) <= Expiry(s, rows[j].0.run))
    && (forall r :: r in s.runs && Stale(s.runs[r], now) && r !in rest ==>
          exists i :: 0 <= i < |rows| && rows[i].0.run == r)
    && (forall i, r :: 0 <= i < |rows| && r in rest ==> Expiry(s, rows[i].0.run) <= Expiry(s, r))
  }

  /** Up to `limit` stale runs were selected, the oldest leases first, and none was left out for
      nothing. */
  ghost predicate Selected(s: Store, rows: seq<(RunLookup, int)>, limit: nat, now: int) {
    exists rest :: Selecting(s, rows, rest, limit, now) && (rest == {} || |rows| == limit)
  }

  lemma SelectStep(s: Store, rows: seq<(RunLookup, int)>, rest: set<RunId>, limit: nat, now: int,
                   row: (RunLookup, int))
    requires Selecting(s, rows, rest, limit, now) && |rows| < limit
    requires row.0.run in rest && RowPicked(s, row, now)
    requires forall q :: q in rest ==> Expiry(s, row.0.run) <= Expiry(s, q)
    ensures Selecting(s, rows + [row], rest - {row.0.run}, limit, now)
  {
    hide RowPicked, Stale, Expiry;
    var next := rows + [row];
    forall r | r in s.runs && Stale(s.runs[r], now) && r !in rest - {row.0.run}
      ensures exists i :: 0 <= i < |next| && next[i].0.run == r
    {
      if r == row.0.run {
        assert next[|rows|].0.run == r;
      } else {
        var i :| 0 <= i < |rows| && rows[i].0.run == r;
        assert next[i].0.run == r;
      }
    }
  }

  /** The picks made from the selected rows, or the first misfit. */
  ghost predicate Built(rows: seq<(RunLookup, int)>, build: (RunLookup, int) -> Event, r: Result<seq<Pick>>) {
    if r.Ok? then
      && |r.value| == |rows|
      && forall i :: 0 <= i < |rows| ==>
           r.value[i] == Pick(rows[i].0, build(rows[i].0, rows[i].1)) && Fits(rows[i], r.value[i].event)
    else exists i :: 0 <= i < |rows| && !Fits(rows[i], build(rows[i].0, rows[i].1))
  }

  predicate Fits(row: (RunLookup, int), event: Event) {
    EventFor(event, row.0.run, row.0.session) && event.num == row.1 && event.terminal
  }

  method BuildPicks(rows: seq<(RunLookup, int)>, build: (RunLookup, int) -> Event) returns (r: Result<seq<Pick>>)
    ensures Built(rows, build, r)
  {
    var picks: seq<Pick> := [];
    for i := 0 to |rows|
      invariant Built(rows[..i], build, Ok(picks))
    {
      var event := build(rows[i].0, rows[i].1);
      if !Fits(rows[i], event) {
        return Err(InvalidRunEvent);
      }
      picks := picks + [Pick(rows[i].0, event)];
    }
    assert rows[..|rows|] == rows;
    return Ok(picks);
  }

  /** What the first transaction selects and the caller builds are picks as TwoPhaseReap needs. */
  lemma SelectedPicked(s: Store, rows: seq<(RunLookup, int)>, limit: nat, now: int,
                       build: (RunLookup, int) -> Event, picks: seq<Pick>)
    requires RunsOk(s.runs) && Selected(s, rows, limit, now) && Built(rows, build, Ok(picks))
    ensures Picked(s, picks, now) && Targeted(s, picks)
  {
    hide LogOk;
    forall i | 0 <= i < |picks| ensures PickOk(s, picks[i], now) {
      assert RowPicked(s, rows[i], now) && Fits(rows[i], picks[i].event);
    }
    forall i, j | 0 <= i < j < |picks| ensures picks[i].lookup.run != picks[j].lookup.run {
      assert rows[i].0.run != rows[j].0.run;
    }
  }

  // ---------------------------------------------------------------- the second transaction

  /** The lookups that the second transaction reports. */
  function ReapReports(s: Store, picks: seq<Pick>, now: int, n: nat): seq<RunLookup>
    requires n <= |picks|
  {
    if n == 0 then []
    else
      var reports := ReapReports(s, picks, now, n - 1);
      var before := ReapPicks(s, picks, now, n - 1);
      var lookup := picks[n - 1].lookup;
      if before.Err? || lookup.run !in before.value.runs || !Stale(before.value.runs[lookup.run], now) then reports
      else reports + [lookup.(status := Errored, finishReason := Some(LeaseExpired), owner := None)]
  }

  lemma ReapNone(s: Store, picks: seq<Pick>, now: int)
    ensures ReapPicks(s, picks, now, 0) == Ok(s) && ReapReports(s, picks, now, 0) == []
  {
  }

  /** What the pick after the first `i` does. */
  lemma ReapUnfold(s: Store, picks: seq<Pick>, now: int, i: nat)
    requires i < |picks| && ReapPicks(s, picks, now, i).Ok?
    ensures var before := ReapPicks(s, picks, now, i).value;
            var lookup := picks[i].lookup;
            if lookup.run !in before.runs || !Stale(before.runs[lookup.run], now) then
              ReapPicks(s, picks, now, i + 1) == Ok(before)
              && ReapReports(s, picks, now, i + 1) == ReapReports(s, picks, now, i)
            else if picks[i].event.num != LastNum(before.runs[lookup.run].events) + 1 then
              ReapPicks(s, picks, now, i + 1).Err?
            else
              && ReapPicks(s, picks, now, i + 1) == Ok(Reap(before, lookup.run, picks[i].event, now))
              && ReapReports(s, picks, now, i + 1)
                 == ReapReports(s, picks, now, i)
                    + [lookup.(status := Errored, finishReason := Some(LeaseExpired), owner := None)]
  {
    hide Reap, Stale;
  }

  /** Every pick's event is a terminal event of its run. */
  ghost predicate Targeted(s: Store, picks: seq<Pick>) {
    forall i :: 0 <= i < |picks| && picks[i].lookup.run in s.runs ==>
      picks[i].event.terminal
      && EventFor(picks[i].event, picks[i].lookup.run, s.runs[picks[i].lookup.run].start.session)
  }

  lemma {:induction false} ReapFails(s: Store, picks: seq<Pick>, now: int, n: nat, m: nat)
    requires n <= m <= |picks| && ReapPicks(s, picks, now, n).Err?
    ensures ReapPicks(s, picks, now, m).Err?
    decreases m
  {
    if n < m {
      ReapFails(s, picks, now, n, m - 1);
    }
  }

  /** The runs keep their starts through the second transaction. */
  lemma {:induction false} ReapKeepsStarts(s: Store, picks: seq<Pick>, now: int, n: nat)
    requires n <= |picks| && ReapPicks(s, picks, now, n).Ok?
    ensures ReapPicks(s, picks, now, n).value.runs.Keys == s.runs.Keys
    ensures forall r :: r in s.runs ==> ReapPicks(s, picks, now, n).value.runs[r].start == s.runs[r].start
  {
    if n > 0 {
      ReapKeepsStarts(s, picks, now, n - 1);
    }
  }

  /** What the first transaction and the check of the built events leave: distinct runs that were
      stale, each with its next terminal event. */
  ghost predicate Picked(s: Store, picks: seq<Pick>, now: int) {
    && (forall i, j :: 0 <= i < j < |picks| ==> picks[i].lookup.run != picks[j].lookup.run)
    && forall i :: 0 <= i < |picks| ==> PickOk(s, picks[i], now)
  }

  ghost predicate PickOk(s: Store, pick: Pick, now: int) {
    && pick.lookup.run in s.runs && pick.lookup == Lookup(s.runs[pick.lookup.run])
    && Stale(s.runs[pick.lookup.run], now) && ReapEventOk(s.runs[pick.lookup.run], pick.event)
  }

  // ---------------------------------------------------------------- between the transactions

  /** A run whose lease had expired: it is terminal, or it gave its lease back, or nothing was
      appended to its log. */
  ghost predicate StillStale(a: Run, b: Run) {
    b.status.IsTerminal() || b.lease.None? || (b.lease == a.lease && b.events == a.events)
  }

  lemma StaleCommit(s: Store, c: Commit, now: int, r: RunId)
    requires r in s.runs && Stale(s.runs[r], now)
    ensures r in CommitRun(s, c, now).0.runs && StillStale(s.runs[r], CommitRun(s, c, now).0.runs[r])
  {
    if c.run == r {
      ExpiredRejects(s, c, now);
    }
    hide PlanCommit, CommittedRun, CommitReply, ApplyEntries, ApplyEffects, ApplyItems;
  }

  lemma StaleStart(s: Store, run: RunStart, now: int, r: RunId)
    requires r in s.runs
    ensures r in StartRun(s, run, now).0.runs && StartRun(s, run, now).0.runs[r] == s.runs[r]
  {
    hide Busy, EntriesOk, ApplyEntries, Idempotent, Lookup, NewRun, ThreadHeld;
  }

  lemma StaleFinish(s: Store, f: FinishRecord, r: RunId)
    requires r in s.runs && s.runs[r].lease.Some?
    ensures r in FinishRun(s, f).0.runs && FinishRun(s, f).0.runs[r] == s.runs[r]
  {
    hide EntriesOk, Increases, ApplyEntries, FinishedRun;
  }

  lemma StaleRecord(s: Store, run: RunId, scope: Scope, event: Event, r: RunId)
    requires r in s.runs && s.runs[r].lease.Some?
    ensures r in RecordEvent(s, run, scope, event).0.runs && RecordEvent(s, run, scope, event).0.runs[r] == s.runs[r]
  {
    hide Increases;
  }

  lemma StaleLease(s: Store, step: Step, r: RunId)
    requires r in s.runs && Stale(s.runs[r], step.now)
    requires step.op.RenewOp? || step.op.ReleaseOp? || step.op.ReapOp? || step.op.CancelOp?
    ensures r in Next(s, step).runs && StillStale(s.runs[r], Next(s, step).runs[r])
  {
    hide StartRun, CommitRun, FinishRun, RecordEvent, ReserveEffect, StartEffect, ReapEventOk;
  }

  /** While an expired lease is there, no operation appends to the run but one that ends it. */
  lemma StaleStep(s: Store, step: Step, r: RunId)
    requires r in s.runs && Stale(s.runs[r], step.now)
    ensures r in Next(s, step).runs && StillStale(s.runs[r], Next(s, step).runs[r])
  {
    hide StartRun, CommitRun, FinishRun, RecordEvent, MarkCancelled, Renew, Release, Reap, CheckOpRun;
    match step.op
    case CommitOp(c) => StaleCommit(s, c, step.now, r);
    case StartOp(run) => StaleStart(s, run, step.now, r);
    case FinishOp(f) => StaleFinish(s, f, r);
    case RecordOp(run, scope, event) => StaleRecord(s, run, scope, event, r);
    case ReserveOp(_, _, _, _, _, _) =>
    case StartEffectOp(_, _, _, _) =>
    case _ => StaleLease(s, step, r);
  }

  lemma ExpiredRejects(s: Store, c: Commit, now: int)
    requires c.run in s.runs && Stale(s.runs[c.run], now)
    ensures PlanCommit(s, c, now) != Accept
  {
    hide CommitShapeOk, Increases, EntriesOk, ItemsOk, CheckEffects, CheckThread;
  }

  /** From a point where the lease has expired, over any steps with a monotone clock. */
  lemma {:induction false} StaleStaysPut(s: Store, steps: seq<Step>, i: nat, j: nat, r: RunId, now: int)
    requires Valid(s) && i <= j <= |steps| && r in Exec(s, steps, i).runs && Stale(Exec(s, steps, i).runs[r], now)
    requires forall k :: i <= k < j ==> now <= steps[k].now
    ensures r in Exec(s, steps, j).runs && StillStale(Exec(s, steps, i).runs[r], Exec(s, steps, j).runs[r])
    decreases j
  {
    hide Valid, Next;
    if i < j {
      StaleStaysPut(s, steps, i, j - 1, r, now);
      ExecValid(s, steps, j - 1);
      var last := Exec(s, steps, j - 1);
      NextAdvances(last, steps[j - 1]);
      if !last.runs[r].status.IsTerminal() && last.runs[r].lease.Some? {
        StaleStep(last, steps[j - 1], r);
      }
    }
  }

  // ---------------------------------------------------------------- the second transaction

  /** In the store of the second transaction every pick that is still stale still fits. */
  ghost predicate PicksFit(s: Store, picks: seq<Pick>, now: int) {
    && (forall i, j :: 0 <= i < j < |picks| ==> picks[i].lookup.run != picks[j].lookup.run)
    && forall i :: 0 <= i < |picks| ==>
         var r := picks[i].lookup.run;
         r in s.runs && (Stale(s.runs[r], now) ==> ReapEventOk(s.runs[r], picks[i].event))
  }

  /** Whether and how the run at `r` is reaped by the first `n` picks. */
  ghost predicate ReapedBy(s: Store, next: Store, picks: seq<Pick>, now: int, n: nat)
    requires n <= |picks|
  {
    && next.runs.Keys == s.runs.Keys
    && (forall r :: r in s.runs ==> next.runs[r] == s.runs[r] || Stale(s.runs[r], now))
    && (forall i :: 0 <= i < n && picks[i].lookup.run in s.runs && Stale(s.runs[picks[i].lookup.run], now) ==>
          next.runs[picks[i].lookup.run] == ReapedRun(s.runs[picks[i].lookup.run], picks[i].event))
    && (forall r :: r in s.runs && (forall i :: 0 <= i < n ==> picks[i].lookup.run != r) ==>
          next.runs[r] == s.runs[r])
  }

  lemma {:induction false} PicksReaped(s: Store, picks: seq<Pick>, now: int, n: nat)
    requires Valid(s) && n <= |picks| && PicksFit(s, picks, now)
    ensures ReapPicks(s, picks, now, n).Ok? && Valid(ReapPicks(s, picks, now, n).value)
    ensures ReapedBy(s, ReapPicks(s, picks, now, n).value, picks, now, n)
  {
    hide Valid, Stale, ReapEventOk, Reap, ReapedRun;
    if n > 0 {
      PicksReaped(s, picks, now, n - 1);
      var before := ReapPicks(s, picks, now, n - 1).value;
      var r := picks[n - 1].lookup.run;
      assert before.runs[r] == s.runs[r];
      if Stale(before.runs[r], now) {
        ReapKeeps(before, r, picks[n - 1].event, now);
        ReapOne(before, r, picks[n - 1].event, now);
      }
    }
  }

  lemma ReapOne(s: Store, r: RunId, event: Event, now: int)
    requires r in s.runs && Stale(s.runs[r], now) && ReapEventOk(s.runs[r], event)
    ensures event.num == LastNum(s.runs[r].events) + 1
    ensures Reap(s, r, event, now).runs == s.runs[r := ReapedRun(s.runs[r], event)]
  {
  }

  /** Reaping in two phases is safe under every interleaving. The picks are made at time `first`
      in the store after `i` steps; the second transaction runs at time `second` in the store
      after `j` steps, and the clock does not go back. It does not fail; it finishes exactly the
      picked runs whose lease is still there and expired, each with its next event, and changes
      no other run; and the invariants hold afterwards. */
  lemma TwoPhaseReap(s: Store, steps: seq<Step>, i: nat, j: nat, picks: seq<Pick>, first: int, second: int)
    requires Valid(s) && i <= j <= |steps| && first <= second
    requires forall k :: i <= k < j ==> first <= steps[k].now <= second
    requires Picked(Exec(s, steps, i), picks, first)
    ensures ReapPicks(Exec(s, steps, j), picks, second, |picks|).Ok?
    ensures Valid(ReapPicks(Exec(s, steps, j), picks, second, |picks|).value)
    ensures ReapedBy(Exec(s, steps, j), ReapPicks(Exec(s, steps, j), picks, second, |picks|).value, picks, second,
                     |picks|)
  {
    var a, b := Exec(s, steps, i), Exec(s, steps, j);
    hide Valid, Next, Exec;
    ExecValid(s, steps, j);
    forall k | 0 <= k < |picks|
      ensures var r := picks[k].lookup.run;
              r in b.runs && (Stale(b.runs[r], second) ==> ReapEventOk(b.runs[r], picks[k].event))
    {
      var r := picks[k].lookup.run;
      assert PickOk(a, picks[k], first);
      StaleStaysPut(s, steps, i, j, r, first);
      ExecEvolves(s, steps, i, j, r);
    }
    PicksReaped(b, picks, second, |picks|);
  }
}
