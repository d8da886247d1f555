/**
 Live subscriptions to one run as a state machine: the tasks that store and publish its events,
 the reaper that may end it, and one subscriber that reads the store and a channel.

 The subscriber registers its channel before it reads the store, so an event can reach it twice,
 or only through the store, or only through the channel. It must hand out each one once.
 */
module Subscription {
  import opened Types
  import M = MemoryStore

  const REPLAY_LIMIT: nat := 1024

  /** Where the subscriber is: it looked the run up, it got its channel, it read the store. */
  datatype Phase =
    | Looking
    | Subscribing
    | Listing(live: bool)
    | Tailing
    | Refused
    | Inactive
    | Ended

  /** `published` counts the events of the log that were sent; `upto` is how far the task that
      is publishing goes; `queue` is what the subscriber's channel holds. */
  datatype State = State(log: seq<Event>, running: bool, registered: bool, busy: bool, published: nat, upto: nat,
                         phase: Phase, cursor: int, delivered: seq<Event>, queue: seq<Event>)

  datatype Action =
    | Store(batch: seq<Event>)  // a commit is stored; its events are still to be published
    | Publish                   // one of them is sent to the channels
    | Done                      // the commit is over; after a terminal event the run is unregistered
    | Reap(event: Event)        // another worker ends the run; its event is not published
    | Answer                    // a later finish finds the run over and publishes the stored event
    | Unregister                // a later commit finds the run over
    | Look
    | Subscribe
    | List
    | Receive
    | Close
    | Retry

  predicate Increasing(log: seq<Event>) {
    && (forall i :: 0 <= i < |log| ==> log[i].num > 0)
    && forall i, j :: 0 <= i < j < |log| ==> log[i].num < log[j].num
  }

  predicate Storable(s: State, batch: seq<Event>) {
    && |batch| > 0 && Increasing(s.log + batch)
    && forall i :: 0 <= i < |batch| && batch[i].terminal ==> i == |batch| - 1
  }

  predicate TerminalPublished(s: State) {
    !s.running && s.published == |s.log|
  }

  /** The channel is there and the registry holds its sender. */
  predicate Attached(s: State) {
    s.phase == Listing(true) || s.phase == Tailing
  }

  function Send(s: State): State
    requires s.published < |s.log|
  {
    s.(published := s.published + 1, queue := if Attached(s) then s.queue + [s.log[s.published]] else s.queue)
  }

  /** What the store answers: one page of the events after the cursor. */
  function Page(s: State): seq<Event> {
    var all := M.After(s.log, s.cursor);
    if |all| > REPLAY_LIMIT then all[..REPLAY_LIMIT] else all
  }

  function More(s: State): bool {
    |M.After(s.log, s.cursor)| > REPLAY_LIMIT
  }

  function Max(a: int, b: int): int {
    if a < b then b else a
  }

  /** The subscriber reads a page. With more to come it drops its channel and starts again. */
  function ListPage(s: State, live: bool): State {
    var page := Page(s);
    var read := s.(delivered := s.delivered + page,
                   cursor := if |page| > 0 then Max(page[|page| - 1].num, s.cursor) else s.cursor);
    if More(s) then read.(phase := Looking, queue := [])
    else if live then read.(phase := Tailing)
    else read.(phase := Inactive, queue := [])
  }

  /** One event from the channel: it is passed over if the store already had it. */
  function Take(s: State): State
    requires |s.queue| > 0
  {
    var event := s.queue[0];
    var rest := s.(queue := s.queue[1..]);
    if event.num <= s.cursor then rest
    else rest.(delivered := s.delivered + [event], cursor := event.num)
  }

  function Next(s: State, action: Action): State {
    match action
    case Store(batch) =>
      if s.running && s.registered && !s.busy && Storable(s, batch) then
        s.(log := s.log + batch, upto := |s.log| + |batch|, busy := true,
           running := !batch[|batch| - 1].terminal)
      else s
    case Publish => if s.busy && s.published < s.upto && s.upto <= |s.log| then Send(s) else s
    case Done =>
      if s.busy && s.published == s.upto then s.(busy := false, registered := s.running || s.upto < |s.log|) else s
    case Reap(event) =>
      if s.running && event.terminal && Increasing(s.log + [event]) then s.(log := s.log + [event], running := false)
      else s
    case Answer =>
      if !s.running && s.registered && !s.busy && s.published < |s.log| then Send(s).(upto := s.published + 1) else s
    case Unregister => if !s.running && !s.busy then s.(registered := false) else s
    case Look =>
      if s.phase.Looking? then s.(phase := if s.running then Subscribing else Listing(false)) else s
    case Subscribe =>
      if !s.phase.Subscribing? then s
      else if s.registered && !TerminalPublished(s) then s.(phase := Listing(true), queue := [])
      else s.(phase := Refused)
    case List => if s.phase.Listing? then ListPage(s, s.phase.live) else s
    case Receive => if s.phase.Tailing? && |s.queue| > 0 then Take(s) else s
    case Close =>
      if s.phase.Tailing? && |s.queue| == 0 && !s.registered then s.(phase := Ended) else s
    case Retry => if s.phase.Refused? then s.(phase := Looking) else s
  }

  function Start(cursor: int): State {
    State([], true, true, false, 0, 0, Looking, cursor, [], [])
  }

  function Exec(cursor: int, actions: seq<Action>, n: nat): State
    requires n <= |actions|
  {
    if n == 0 then Start(cursor) else Next(Exec(cursor, actions, n - 1), actions[n - 1])
  }

  // ---------------------------------------------------------------- cutting the log at a number

  /** How many events of the log have a number up to `x`. */
  function Cut(log: seq<Event>, x: int): (r: nat)
    ensures r <= |log|
  {
    if |log| == 0 then 0 else if log[|log| - 1].num <= x then |log| else Cut(log[..|log| - 1], x)
  }

  lemma {:induction false} CutIs(log: seq<Event>, x: int, i: nat)
    requires Increasing(log) && i < |log|
    ensures log[i].num <= x <==> i < Cut(log, x)
  {
    if log[|log| - 1].num > x && i < |log| - 1 {
      CutIs(log[..|log| - 1], x, i);
    }
  }

  lemma CutAll(log: seq<Event>, x: int)
    requires Increasing(log)
    ensures forall i :: 0 <= i < |log| ==> (log[i].num <= x <==> i < Cut(log, x))
  {
    forall i | 0 <= i < |log| ensures log[i].num <= x <==> i < Cut(log, x) {
      CutIs(log, x, i);
    }
  }

  lemma {:induction false} CutUnique(log: seq<Event>, x: int, n: nat)
    requires Increasing(log) && n <= |log|
    requires (n > 0 ==> log[n - 1].num <= x) && (n < |log| ==> log[n].num > x)
    ensures Cut(log, x) == n
  {
    if n < |log| {
      assert log[|log| - 1].num > x;
      CutUnique(log[..|log| - 1], x, n);
    }
  }

  lemma {:induction false} AfterIsDrop(log: seq<Event>, x: int)
    requires Increasing(log)
    ensures M.After(log, x) == log[Cut(log, x)..]
  {
    if |log| > 0 {
      hide Increasing;
      var front, last := log[..|log| - 1], log[|log| - 1];
      FrontIncreasing(log);
      AfterIsDrop(front, x);
      if last.num <= x {
        FrontIsCut(log, x);
        assert front[|front|..] == log[|log|..] == [];
      } else {
        DropFront(log, Cut(front, x));
      }
    }
  }

  lemma DropFront(log: seq<Event>, c: nat)
    requires |log| > 0 && c < |log|
    ensures log[c..] == log[..|log| - 1][c..] + [log[|log| - 1]]
  {
  }

  lemma SliceKept(log: seq<Event>, batch: seq<Event>, a: nat, b: nat)
    requires a <= b <= |log|
    ensures (log + batch)[a..b] == log[a..b]
  {
  }

  lemma FrontIncreasing(log: seq<Event>)
    requires Increasing(log) && |log| > 0
    ensures Increasing(log[..|log| - 1])
  {
  }

  lemma FrontIsCut(log: seq<Event>, x: int)
    requires Increasing(log) && |log| > 0 && log[|log| - 1].num <= x
    ensures Cut(log[..|log| - 1], x) == |log| - 1
  {
  }

  // ---------------------------------------------------------------- invariant

  /** The log and the progress of publishing. */
  ghost predicate LogInv(s: State) {
    && Increasing(s.log)
    && s.published <= s.upto <= |s.log| && (!s.busy ==> s.published == s.upto)
    && (s.running ==> s.upto == |s.log| && s.registered)
    && (!s.running ==> |s.log| > 0 && s.upto >= |s.log| - 1)
    && (s.busy ==> s.registered)
  }

  /** The channel holds the latest published events, from the one at `Mark` on. */
  ghost predicate QueueInv(s: State) {
    Attached(s) ==> |s.queue| <= s.published <= |s.log| && s.queue == s.log[s.published - |s.queue|..s.published]
  }

  function Mark(s: State): int { s.published - |s.queue| }

  /** What was handed out is exactly the part of the log from the start up to the cursor. */
  ghost predicate Exact(log: seq<Event>, start: int, cursor: int, delivered: seq<Event>) {
    && start <= cursor && Cut(log, start) <= Cut(log, cursor)
    && delivered == log[Cut(log, start)..Cut(log, cursor)]
    && (cursor == start || HasNumber(log, cursor))
  }

  ghost predicate HasNumber(log: seq<Event>, n: int) {
    exists i :: 0 <= i < |log| && log[i].num == n
  }

  ghost predicate PhaseInv(s: State) {
    && (s.phase == Tailing ==> Mark(s) <= Cut(s.log, s.cursor))
    && (s.phase == Ended ==> !s.registered && s.published <= Cut(s.log, s.cursor))
    && (s.phase == Listing(false) ==> !s.running)
    && (s.phase == Inactive ==> !s.running && Cut(s.log, s.cursor) == |s.log|)
  }

  ghost predicate Inv(s: State, start: int) {
    LogInv(s) && QueueInv(s) && Exact(s.log, start, s.cursor, s.delivered) && PhaseInv(s)
  }

  lemma CutGrows(log: seq<Event>, batch: seq<Event>, x: int)
    requires Increasing(log + batch)
    ensures Increasing(log)
    ensures Cut(log, x) <= Cut(log + batch, x)
    ensures (exists i :: 0 <= i < |log| && x <= log[i].num) ==> Cut(log + batch, x) == Cut(log, x)
  {
    var all := log + batch;
    assert forall i :: 0 <= i < |log| ==> all[i] == log[i];
    CutAll(all, x);
    CutAll(log, x);
    var n := Cut(log, x);
    hide Cut;
    if n > 0 {
      assert all[n - 1].num <= x;
    }
    if i :| 0 <= i < |log| && x <= log[i].num {
      if n < |all| {
        assert all[i].num < all[n].num || n <= i;
      }
      CutUnique(all, x, n);
    }
  }

  /** Events stored later have higher numbers, so they do not change what was handed out. */
  lemma AppendKeepsExact(log: seq<Event>, batch: seq<Event>, start: int, cursor: int, delivered: seq<Event>)
    requires Exact(log, start, cursor, delivered) && Increasing(log + batch)
    ensures Exact(log + batch, start, cursor, delivered)
    ensures Cut(log, cursor) <= Cut(log + batch, cursor)
  {
    hide Cut, Increasing;
    var all := log + batch;
    CutGrows(log, batch, cursor);
    CutGrows(log, batch, start);
    if cursor != start {
      var i :| 0 <= i < |log| && log[i].num == cursor;
      assert all[i].num == cursor;
    } else {
      assert delivered == [];
    }
  }

  /** The log grows at the end; what is attached to it stays where it is. */
  lemma AppendKeeps(s: State, batch: seq<Event>, start: int)
    requires Inv(s, start) && s.running && Increasing(s.log + batch)
    ensures var next := s.(log := s.log + batch);
            QueueInv(next) && PhaseInv(next) && Exact(next.log, start, next.cursor, next.delivered)
  {
    hide Exact, Increasing, Cut;
    AppendKeepsExact(s.log, batch, start, s.cursor, s.delivered);
    if Attached(s) {
      SliceKept(s.log, batch, s.published - |s.queue|, s.published);
    }
  }

  lemma StoreKeeps(s: State, batch: seq<Event>, start: int)
    requires Inv(s, start) && s.running && s.registered && !s.busy && Storable(s, batch)
    ensures Inv(Next(s, Store(batch)), start)
  {
    hide Exact, Increasing, Cut;
    AppendKeeps(s, batch, start);
  }

  lemma ReapKeeps(s: State, event: Event, start: int)
    requires Inv(s, start) && s.running && event.terminal && Increasing(s.log + [event])
    ensures Inv(Next(s, Reap(event)), start)
  {
    hide Exact, Increasing, Cut;
    AppendKeeps(s, [event], start);
  }

  lemma SendKeeps(s: State)
    requires QueueInv(s) && PhaseInv(s) && s.published < |s.log| && (s.busy || !s.running) && s.registered
    ensures QueueInv(Send(s)) && PhaseInv(Send(s))
  {
    hide Cut;
  }

  /** After handing out the next events of the log the cursor is the number of the last one. */
  lemma NextPart(log: seq<Event>, start: int, cursor: int, delivered: seq<Event>, part: seq<Event>)
    requires Increasing(log) && Exact(log, start, cursor, delivered)
    requires Cut(log, cursor) + |part| <= |log| && part == log[Cut(log, cursor)..Cut(log, cursor) + |part|]
    ensures var next := if |part| > 0 then part[|part| - 1].num else cursor;
            Cut(log, next) == Cut(log, cursor) + |part| && next >= cursor
            && Exact(log, start, next, delivered + part)
  {
    var n := Cut(log, cursor);
    CutAll(log, cursor);
    if |part| > 0 {
      var next := part[|part| - 1].num;
      assert log[n + |part| - 1].num == next;
      CutUnique(log, next, n + |part|);
      hide Cut;
      assert log[Cut(log, start)..n] + part == log[Cut(log, start)..n + |part|];
    } else {
      assert delivered + part == delivered;
    }
  }

  /** Reading a page hands out the next part of the log, all of it if there is no further page. */
  lemma PageIsPart(s: State)
    requires Increasing(s.log)
    ensures var n := Cut(s.log, s.cursor);
            && n + |Page(s)| <= |s.log| && Page(s) == s.log[n..n + |Page(s)|]
            && (!More(s) ==> n + |Page(s)| == |s.log|)
  {
    AfterIsDrop(s.log, s.cursor);
  }

  lemma ListKeepsExact(s: State, start: int)
    requires Inv(s, start) && s.phase.Listing?
    ensures var next := ListPage(s, s.phase.live);
            && Exact(next.log, start, next.cursor, next.delivered)
            && Cut(s.log, s.cursor) <= Cut(next.log, next.cursor)
            && (!More(s) ==> Cut(next.log, next.cursor) == |s.log|)
  {
    hide Increasing, Cut, Page, More, Exact, PhaseInv, QueueInv;
    PageIsPart(s);
    NextPart(s.log, start, s.cursor, s.delivered, Page(s));
  }

  lemma ListKeepsPhase(s: State, start: int)
    requires Inv(s, start) && s.phase.Listing?
    ensures PhaseInv(ListPage(s, s.phase.live))
  {
    hide Cut, Page, More, Exact, Max, QueueInv, Increasing;
    ListKeepsExact(s, start);
  }

  lemma ListKeeps(s: State, start: int)
    requires Inv(s, start) && s.phase.Listing?
    ensures Inv(ListPage(s, s.phase.live), start)
  {
    hide Increasing, Cut, Page, More, Exact, Max, PhaseInv;
    ListKeepsExact(s, start);
    ListKeepsPhase(s, start);
  }

  /** The event at the head of the channel is the one at `Mark`. */
  lemma HeadIsMark(s: State)
    requires LogInv(s) && QueueInv(s) && s.phase.Tailing? && |s.queue| > 0
    ensures 0 <= Mark(s) < s.published <= |s.log| && s.queue[0] == s.log[Mark(s)]
    ensures s.queue[1..] == s.log[Mark(s) + 1..s.published]
  {
    hide Increasing;
  }

  lemma TakeKeeps(s: State, start: int)
    requires Inv(s, start) && s.phase.Tailing? && |s.queue| > 0
    ensures Inv(Take(s), start)
  {
    hide Cut, Exact;
    var mark := Mark(s);
    HeadIsMark(s);
    CutIs(s.log, s.cursor, mark);
    if s.queue[0].num > s.cursor {
      NextPart(s.log, start, s.cursor, s.delivered, [s.log[mark]]);
    }
    hide Increasing;
  }

  /** Steps that leave the log, the channel and what was handed out alone. */
  lemma QuietKeeps(s: State, action: Action, start: int)
    requires Inv(s, start)
    requires action.Done? || action.Unregister? || action.Look? || action.Subscribe? || action.Close? || action.Retry?
    ensures Inv(Next(s, action), start)
  {
    hide Increasing, Cut, Exact, Storable, Send, Take, ListPage;
  }

  lemma NextKeeps(s: State, action: Action, start: int)
    requires Inv(s, start)
    ensures Inv(Next(s, action), start)
  {
    hide Inv, Increasing, Cut, Exact, Storable, Send, Take, ListPage;
    match action
    case Store(batch) =>
      if s.running && s.registered && !s.busy && Storable(s, batch) {
        StoreKeeps(s, batch, start);
      }
    case Publish =>
      if s.busy && s.published < s.upto && s.upto <= |s.log| {
        SendKeepsInv(s, start);
      }
    case Reap(event) =>
      if s.running && event.terminal && Increasing(s.log + [event]) {
        ReapKeeps(s, event, start);
      }
    case Answer =>
      if !s.running && s.registered && !s.busy && s.published < |s.log| {
        AnswerKeeps(s, start);
      }
    case List =>
      if s.phase.Listing? {
        ListKeeps(s, start);
      }
    case Receive =>
      if s.phase.Tailing? && |s.queue| > 0 {
        TakeKeeps(s, start);
      }
    case _ => QuietKeeps(s, action, start);
  }

  lemma SendKeepsInv(s: State, start: int)
    requires Inv(s, start) && s.busy && s.published < s.upto && s.upto <= |s.log|
    ensures Inv(Send(s), start)
  {
    SendKeeps(s);
    hide Increasing, Cut, Exact, QueueInv, PhaseInv;
  }

  lemma AnswerKeeps(s: State, start: int)
    requires Inv(s, start) && !s.running && s.registered && !s.busy && s.published < |s.log|
    ensures Inv(Send(s).(upto := s.published + 1), start)
  {
    SendKeeps(s);
    hide Increasing, Cut, Exact;
  }

  lemma {:induction false} ExecKeeps(start: int, actions: seq<Action>, n: nat)
    requires n <= |actions|
    ensures Inv(Exec(start, actions, n), start)
  {
    if n == 0 {
      assert Start(start).log == [];
    } else {
      ExecKeeps(start, actions, n - 1);
      NextKeeps(Exec(start, actions, n - 1), actions[n - 1], start);
    }
  }

  // ---------------------------------------------------------------- results

  lemma ExactIsPrefix(log: seq<Event>, start: int, cursor: int, delivered: seq<Event>)
    requires Increasing(log) && Exact(log, start, cursor, delivered)
    ensures delivered <= M.After(log, start)
  {
    AfterIsDrop(log, start);
    hide Increasing, Cut, HasNumber, M.After;
  }

  lemma ExactMembers(log: seq<Event>, start: int, cursor: int, delivered: seq<Event>, i: nat)
    requires Increasing(log) && Exact(log, start, cursor, delivered) && i < |log|
    ensures start < log[i].num <= cursor <==> Cut(log, start) <= i < Cut(log, cursor)
    ensures start < log[i].num <= cursor ==> log[i] in delivered
  {
    hide Cut, HasNumber;
    CutIs(log, start, i);
    CutIs(log, cursor, i);
    if Cut(log, start) <= i < Cut(log, cursor) {
      assert delivered[i - Cut(log, start)] == log[i];
    }
  }

  /** At any moment, under every interleaving, the subscriber has handed out a prefix of the
      events after its starting cursor: in order, none twice and none left out. */
  lemma DeliveredIsPrefix(start: int, actions: seq<Action>, n: nat)
    requires n <= |actions|
    ensures Exec(start, actions, n).delivered <= M.After(Exec(start, actions, n).log, start)
  {
    hide Exec, Increasing, Exact, M.After;
    ExecKeeps(start, actions, n);
    var s := Exec(start, actions, n);
    ExactIsPrefix(s.log, start, s.cursor, s.delivered);
  }

  /** And that prefix reaches exactly up to the cursor. */
  lemma DeliveredUpToCursor(start: int, actions: seq<Action>, n: nat, e: Event)
    requires n <= |actions| && e in Exec(start, actions, n).log
    ensures var s := Exec(start, actions, n); start < e.num <= s.cursor <==> e in s.delivered
  {
    hide Exec, Increasing, M.After, Cut;
    ExecKeeps(start, actions, n);
    var s := Exec(start, actions, n);
    var i :| 0 <= i < |s.log| && s.log[i] == e;
    ExactMembers(s.log, start, s.cursor, s.delivered, i);
    if e in s.delivered {
      var k :| 0 <= k < |s.delivered| && s.delivered[k] == e;
      ExactMembers(s.log, start, s.cursor, s.delivered, Cut(s.log, start) + k);
    }
  }

  /** A subscriber that found the run over has handed out everything. */
  lemma InactiveIsComplete(start: int, actions: seq<Action>, n: nat)
    requires n <= |actions| && Exec(start, actions, n).phase == Inactive
    ensures Exec(start, actions, n).delivered == M.After(Exec(start, actions, n).log, start)
  {
    hide Exec, Cut, Increasing, M.After;
    ExecKeeps(start, actions, n);
    AfterIsDrop(Exec(start, actions, n).log, start);
  }

  /** A tail that came to its end has handed out everything, or everything but an unpublished
      terminal event. */
  lemma EndedIsComplete(start: int, actions: seq<Action>, n: nat)
    requires n <= |actions| && Exec(start, actions, n).phase == Ended
    ensures var s := Exec(start, actions, n);
            || s.delivered == M.After(s.log, start)
            || (s.published == |s.log| - 1 && s.delivered == M.After(s.log[..|s.log| - 1], start))
  {
    hide Exec, Cut, Increasing, M.After, HasNumber;
    ExecKeeps(start, actions, n);
    var s := Exec(start, actions, n);
    AfterIsDrop(s.log, start);
    if Cut(s.log, s.cursor) < |s.log| {
      AfterFront(s.log, start);
    }
  }

  // ---------------------------------------------------------------- when a tail misses the end

  /** The reaper ends the run. */
  predicate Reaps(s: State, action: Action) {
    action.Reap? && s.running && action.event.terminal && Increasing(s.log + [action.event])
  }

  /** A later finish publishes the event of the reaper. */
  predicate Answers(s: State, action: Action) {
    action.Answer? && !s.running && s.registered && !s.busy && s.published < |s.log|
  }

  /** The subscriber reads the store when the run is over. */
  predicate ReadsEnd(s: State, action: Action) {
    action.List? && s.phase.Listing? && !s.running
  }

  ghost predicate Reaped(start: int, actions: seq<Action>, n: nat)
    requires n <= |actions|
  {
    exists i: nat :: i < n && Reaps(Exec(start, actions, i), actions[i])
  }

  ghost predicate Answered(start: int, actions: seq<Action>, n: nat)
    requires n <= |actions|
  {
    exists i: nat :: i < n && Answers(Exec(start, actions, i), actions[i])
  }

  ghost predicate EndRead(start: int, actions: seq<Action>, n: nat)
    requires n <= |actions|
  {
    exists i: nat :: i < n && ReadsEnd(Exec(start, actions, i), actions[i])
  }

  /** Only the reaper's event can be left unpublished, and the cursor comes to the end of the log of
      a run that is over in one of three ways. */
  ghost predicate EndInv(s: State, start: int, reaped: bool, answered: bool, read: bool) {
    && (s.running ==> !reaped && !read) && (answered ==> reaped)
    && s.upto == (if reaped && !answered then |s.log| - 1 else |s.log|)
    && (AtEnd(s, s.cursor) ==> AtEnd(s, start) || s.published == |s.log| || read)
    && (read && (s.phase == Tailing || s.phase == Ended) ==> AtEnd(s, s.cursor))
  }

  /** The run is over and the log has nothing after the number. */
  predicate AtEnd(s: State, x: int) {
    !s.running && |s.log| > 0 && s.log[|s.log| - 1].num <= x
  }

  lemma EndTake(s: State, start: int, reaped: bool, answered: bool, read: bool)
    requires Inv(s, start) && EndInv(s, start, reaped, answered, read) && s.phase.Tailing? && |s.queue| > 0
    ensures EndInv(Take(s), start, reaped, answered, read)
  {
    hide Exact, Cut, PhaseInv;
    HeadIsMark(s);
    hide QueueInv;
  }

  lemma EndList(s: State, start: int, reaped: bool, answered: bool, read: bool)
    requires Inv(s, start) && EndInv(s, start, reaped, answered, read) && s.phase.Listing?
    ensures EndInv(ListPage(s, s.phase.live), start, reaped, answered, read || !s.running)
  {
    var next := ListPage(s, s.phase.live);
    hide Exact, Increasing, Page, More, Max, PhaseInv, QueueInv;
    ListKeepsExact(s, start);
    if !s.running && !More(s) {
      CutIs(s.log, next.cursor, |s.log| - 1);
    }
    hide Cut;
  }

  /** Events stored later are after the cursor, unless it started there. */
  lemma EndGrow(s: State, batch: seq<Event>, start: int)
    requires Inv(s, start) && |batch| > 0 && Increasing(s.log + batch)
    ensures batch[|batch| - 1].num <= s.cursor ==> s.cursor == start
  {
    hide Cut, PhaseInv, QueueInv, LogInv;
    if s.cursor != start {
      var i :| 0 <= i < |s.log| && s.log[i].num == s.cursor;
      assert (s.log + batch)[i].num < (s.log + batch)[|s.log| + |batch| - 1].num;
    }
  }

  lemma EndStore(s: State, action: Action, start: int, reaped: bool, answered: bool, read: bool)
    requires Inv(s, start) && EndInv(s, start, reaped, answered, read) && (action.Store? || action.Reap?)
    ensures EndInv(Next(s, action), start, reaped || Reaps(s, action), answered, read)
  {
    hide Exact, Increasing, Cut, PhaseInv, QueueInv, ListPage, Take, Send;
    if action.Store? {
      if s.running && s.registered && !s.busy && Storable(s, action.batch) {
        EndGrow(s, action.batch, start);
      }
    } else if Reaps(s, action) {
      EndGrow(s, [action.event], start);
    }
  }

  lemma EndQuiet(s: State, action: Action, start: int, reaped: bool, answered: bool, read: bool)
    requires Inv(s, start) && EndInv(s, start, reaped, answered, read)
    requires !action.Store? && !action.Reap? && !action.List? && !action.Receive?
    ensures EndInv(Next(s, action), start, reaped, answered || Answers(s, action), read)
  {
    hide Exact, Increasing, Cut, PhaseInv, QueueInv, ListPage, Take, Storable;
  }

  lemma EndStep(s: State, action: Action, start: int, reaped: bool, answered: bool, read: bool)
    requires Inv(s, start) && EndInv(s, start, reaped, answered, read)
    ensures EndInv(Next(s, action), start, reaped || Reaps(s, action), answered || Answers(s, action),
                   read || ReadsEnd(s, action))
  {
    hide Inv, EndInv, Increasing, ListPage, Take, Storable, Send;
    if action.Store? || action.Reap? {
      EndStore(s, action, start, reaped, answered, read);
    } else if action.List? {
      if s.phase.Listing? {
        EndList(s, start, reaped, answered, read);
      }
    } else if action.Receive? {
      if s.phase.Tailing? && |s.queue| > 0 {
        EndTake(s, start, reaped, answered, read);
      }
    } else {
      EndQuiet(s, action, start, reaped, answered, read);
    }
  }

  lemma {:induction false} EndKnown(start: int, actions: seq<Action>, n: nat)
    requires n <= |actions|
    ensures EndInv(Exec(start, actions, n), start, Reaped(start, actions, n), Answered(start, actions, n),
                   EndRead(start, actions, n))
  {
    hide EndInv, Next, Reaps, Answers, ReadsEnd;
    if n == 0 {
      EndStart(start);
    } else {
      EndKnown(start, actions, n - 1);
      ExecKeeps(start, actions, n - 1);
      var s, last := Exec(start, actions, n - 1), actions[n - 1];
      hide Inv;
      EndStep(s, last, start, Reaped(start, actions, n - 1), Answered(start, actions, n - 1),
              EndRead(start, actions, n - 1));
      assert Reaped(start, actions, n) == (Reaped(start, actions, n - 1) || Reaps(s, last));
      assert Answered(start, actions, n) == (Answered(start, actions, n - 1) || Answers(s, last));
      assert EndRead(start, actions, n) == (EndRead(start, actions, n - 1) || ReadsEnd(s, last));
    }
  }

  lemma EndStart(start: int)
    ensures EndInv(Start(start), start, false, false, false)
  {
  }

  /** What a tail at its end has handed out, exactly: everything, if and only if the run was not
      ended by a reaper, or a later finish published the reaper's event before the run was
      unregistered, or the subscriber read the store after the run was over, or it started after
      that event anyway. Otherwise it misses that one event. */
  lemma EndedExactly(start: int, actions: seq<Action>, n: nat)
    requires n <= |actions| && Exec(start, actions, n).phase == Ended
    ensures var s := Exec(start, actions, n);
            s.delivered == M.After(s.log, start)
            <==> !Reaped(start, actions, n) || Answered(start, actions, n) || EndRead(start, actions, n)
                 || AtEnd(s, start)
    ensures var s := Exec(start, actions, n);
            s.delivered == M.After(s.log, start)
            || (s.published == |s.log| - 1 && s.delivered == M.After(s.log[..|s.log| - 1], start))
  {
    EndedIsComplete(start, actions, n);
    hide Exec, Increasing, M.After, HasNumber, QueueInv, Reaped, Answered, EndRead;
    ExecKeeps(start, actions, n);
    EndKnown(start, actions, n);
    var s := Exec(start, actions, n);
    AfterIsDrop(s.log, start);
    CutIs(s.log, s.cursor, |s.log| - 1);
    assert s.delivered == M.After(s.log, start) <==> AtEnd(s, s.cursor);
  }

  /** A tail that misses the end: the reaper ends the run after the subscriber read the store, and the
      run is unregistered before its event is published. */
  lemma ReapedUnseen(e: Event)
    requires e.terminal && e.num == 1
    ensures var s := Exec(0, [Look, Subscribe, List, Reap(e), Unregister, Close], 6);
            s.phase == Ended && s.log == [e] && s.delivered == [] && M.After(s.log, 0) == [e]
  {
    var actions := [Look, Subscribe, List, Reap(e), Unregister, Close];
    var open := Start(0).(phase := Listing(true));
    assert Exec(0, actions, 0) == Start(0);
    assert Exec(0, actions, 1) == Start(0).(phase := Subscribing);
    assert Exec(0, actions, 2) == open;
    assert Exec(0, actions, 3) == open.(phase := Tailing);
    assert Exec(0, actions, 4) == open.(phase := Tailing, log := [e], running := false);
    assert Exec(0, actions, 5) == open.(phase := Tailing, log := [e], running := false, registered := false);
    assert Exec(0, actions, 6) == open.(phase := Ended, log := [e], running := false, registered := false);
    assert M.After([e], 0) == [e];
  }

  /** And one that does not, although the event was never published: it read the store after that. */
  lemma ReapedButRead(e: Event)
    requires e.terminal && e.num == 1
    ensures var s := Exec(0, [Look, Subscribe, Reap(e), List, Unregister, Close], 6);
            s.phase == Ended && s.published < |s.log| && s.delivered == M.After(s.log, 0) == [e]
  {
    var actions := [Look, Subscribe, Reap(e), List, Unregister, Close];
    var over := Start(0).(phase := Listing(true), log := [e], running := false);
    hide Exec, ListPage, M.After;
    Unfold(0, actions, 0);
    Unfold(0, actions, 3);
    assert Next(Next(Start(0), Look), Subscribe) == Start(0).(phase := Listing(true));
    assert Exec(0, actions, 3) == over;
    ReadsOne(over, e);
    assert Exec(0, actions, 6) == over.(phase := Ended, delivered := [e], cursor := 1, registered := false);
  }

  lemma Unfold(start: int, actions: seq<Action>, n: nat)
    requires n + 3 <= |actions|
    ensures Exec(start, actions, 0) == Start(start)
    ensures Exec(start, actions, n + 3)
            == Next(Next(Next(Exec(start, actions, n), actions[n]), actions[n + 1]), actions[n + 2])
  {
    hide Next;
    assert Exec(start, actions, n + 1) == Next(Exec(start, actions, n), actions[n]);
  }

  lemma ReadsOne(s: State, e: Event)
    requires s.log == [e] && e.num == 1 && s.cursor == 0 && s.delivered == []
    ensures M.After(s.log, 0) == [e]
    ensures ListPage(s, true) == s.(phase := Tailing, delivered := [e], cursor := 1)
  {
    assert M.After([e], 0) == [e];
  }

  lemma AfterFront(log: seq<Event>, x: int)
    requires Increasing(log) && |log| > 0 && Cut(log, x) < |log|
    ensures M.After(log[..|log| - 1], x) == log[Cut(log, x)..|log| - 1]
  {
    var front := log[..|log| - 1];
    CutAll(log, x);
    AfterIsDrop(front, x);
    CutUnique(front, x, Cut(log, x));
    hide Cut;
    assert front[Cut(log, x)..] == log[Cut(log, x)..|log| - 1];
  }

  /** A tail that has emptied its channel is level with the publishers. */
  lemma DrainedIsLevel(start: int, actions: seq<Action>, n: nat, i: nat)
    requires n <= |actions| && Exec(start, actions, n).phase == Tailing && |Exec(start, actions, n).queue| == 0
    requires i < Exec(start, actions, n).published
    ensures i < |Exec(start, actions, n).log|
    ensures var e := Exec(start, actions, n).log[i]; e.num > start ==> e in Exec(start, actions, n).delivered
  {
    hide Exec, Cut, Increasing;
    ExecKeeps(start, actions, n);
    var s := Exec(start, actions, n);
    ExactMembers(s.log, start, s.cursor, s.delivered, i);
    CutIs(s.log, s.cursor, i);
  }

  // ---------------------------------------------------------------- a subscriber gets through

  /** The subscriber takes everything out of its channel, and ends its tail if the run has left. */
  function Drain(s: State): State
    requires s.phase.Tailing?
    decreases |s.queue|
  {
    if |s.queue| == 0 then Next(s, Close) else Drain(Next(s, Receive))
  }

  lemma {:induction false} DrainKeeps(s: State, start: int)
    requires Inv(s, start) && s.phase.Tailing?
    ensures var t := Drain(s);
            && Inv(t, start) && t.log == s.log && t.published == s.published && t.queue == []
            && t.phase == if s.registered then Tailing else Ended
    decreases |s.queue|
  {
    if |s.queue| == 0 {
      QuietKeeps(s, Close, start);
    } else {
      TakeKeeps(s, start);
      hide Inv;
      DrainKeeps(Next(s, Receive), start);
    }
  }

  /** From any reachable state a tail that goes on reading hands out every published event after its
      start, and ends if the run is no longer registered. */
  lemma DrainHandsOut(start: int, actions: seq<Action>, n: nat, i: nat)
    requires n <= |actions| && Exec(start, actions, n).phase.Tailing? && i < Exec(start, actions, n).published
    ensures var s := Exec(start, actions, n);
            var t := Drain(s);
            && t.phase == (if s.registered then Tailing else Ended)
            && i < |s.log| && (s.log[i].num > start ==> s.log[i] in t.delivered)
  {
    hide Exec, Cut, Increasing, Drain, HasNumber;
    ExecKeeps(start, actions, n);
    var s := Exec(start, actions, n);
    DrainKeeps(s, start);
    ExactMembers(s.log, start, Drain(s).cursor, Drain(s).delivered, i);
    CutIs(s.log, Drain(s).cursor, i);
  }

  /** One page of a run that is over: there is more and the subscriber is further on, or it is done. */
  lemma ReadsOn(s: State, start: int)
    requires Inv(s, start) && s.phase.Looking? && !s.running
    ensures var t := Next(Next(s, Look), List);
            && Inv(t, start) && t.log == s.log && !t.running && (t.phase.Looking? || t.phase.Inactive?)
            && (t.phase.Looking? ==> Cut(s.log, s.cursor) < Cut(t.log, t.cursor))
  {
    hide Cut, Increasing, HasNumber, Exact, Page, More;
    QuietKeeps(s, Look, start);
    var looked := Next(s, Look);
    ListKeeps(looked, start);
    PageIsPart(looked);
    NextPart(looked.log, start, looked.cursor, looked.delivered, Page(looked));
    assert More(looked) ==> |Page(looked)| > 0 by { MorePages(looked); }
  }

  lemma MorePages(s: State)
    ensures More(s) ==> |Page(s)| == REPLAY_LIMIT
  {
  }

  /** The subscriber reads page after page of a run that is over. */
  ghost function CatchUp(s: State, start: int): State
    requires Inv(s, start) && s.phase.Looking? && !s.running
    decreases |s.log| - Cut(s.log, s.cursor)
  {
    ReadsOn(s, start);
    var t := Next(Next(s, Look), List);
    if t.phase.Looking? then CatchUp(t, start) else t
  }

  lemma {:induction false} CatchesUp(s: State, start: int)
    requires Inv(s, start) && s.phase.Looking? && !s.running
    ensures var t := CatchUp(s, start);
            t.phase.Inactive? && t.log == s.log && t.delivered == M.After(s.log, start)
    decreases |s.log| - Cut(s.log, s.cursor)
  {
    hide Next;
    ReadsOn(s, start);
    var t := Next(Next(s, Look), List);
    if t.phase.Looking? {
      CatchesUp(t, start);
    } else {
      AfterIsDrop(t.log, start);
    }
    hide Cut, M.After;
  }

  /** The receiving end of a subscription. */
  class RunTail {
    var queue: seq<Event>
    var cursor: int

    constructor (queue: seq<Event>, cursor: int)
      ensures this.queue == queue && this.cursor == cursor
    {
      this.queue := queue;
      this.cursor := cursor;
    }

    /** Hands out the first event after the cursor and passes over those before it. */
    method NextEvent() returns (r: Option<Event>)
      requires Increasing(queue)
      modifies this
      ensures Increasing(queue)
      ensures M.After(old(queue), old(cursor)) == if r.None? then [] else [r.value] + M.After(queue, cursor)
      ensures cursor == if r.None? then old(cursor) else r.value.num
      ensures r.None? ==> queue == []
    {
      while |queue| > 0
        invariant Increasing(queue) && cursor == old(cursor)
        invariant M.After(queue, cursor) == M.After(old(queue), cursor)
      {
        var event := queue[0];
        ghost var before := queue;
        queue := queue[1..];
        RestIncreasing(before);
        if event.num <= cursor {
          FirstPassedOver(before, cursor);
          continue;
        }
        FirstHandedOut(before, cursor);
        cursor := event.num;
        return Some(event);
      }
      return None;
    }
  }

  lemma FirstPassedOver(queue: seq<Event>, x: int)
    requires |queue| > 0 && Increasing(queue) && queue[0].num <= x
    ensures M.After(queue, x) == M.After(queue[1..], x)
  {
    hide Cut, Increasing, M.After;
    RestIncreasing(queue);
    CutOfRest(queue, x);
    AfterIsDrop(queue, x);
    AfterIsDrop(queue[1..], x);
  }

  lemma FirstHandedOut(queue: seq<Event>, x: int)
    requires |queue| > 0 && Increasing(queue) && queue[0].num > x
    ensures M.After(queue, x) == [queue[0]] + M.After(queue[1..], queue[0].num)
  {
    hide Cut, Increasing, M.After;
    RestIncreasing(queue);
    CutOfRest(queue, x);
    AfterIsDrop(queue, x);
    AfterIsDrop(queue[1..], queue[0].num);
  }

  lemma RestIncreasing(queue: seq<Event>)
    requires |queue| > 0 && Increasing(queue)
    ensures Increasing(queue[1..])
  {
    var rest := queue[1..];
    assert forall i :: 0 <= i < |rest| ==> rest[i] == queue[i + 1];
  }

  lemma CutOfRest(queue: seq<Event>, x: int)
    requires |queue| > 0 && Increasing(queue) && Increasing(queue[1..])
    ensures if queue[0].num <= x then Cut(queue, x) == Cut(queue[1..], x) + 1
            else Cut(queue, x) == 0 && Cut(queue[1..], queue[0].num) == 0
  {
    CutAll(queue, x);
    if queue[0].num <= x {
      CutUnique(queue[1..], x, Cut(queue, x) - 1);
    } else {
      CutUnique(queue, x, 0);
      CutUnique(queue[1..], queue[0].num, 0);
    }
  }
}
