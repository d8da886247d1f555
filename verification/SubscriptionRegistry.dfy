/**
 The log of module Subscription is the log of a run in the store, and its channel is a channel of the
 registry: what the store, the registry and the lifecycle do are the steps of that state machine.
 */
module SubscriptionRegistry {
  import opened Types
  import opened Registry
  import opened Lifecycle
  import opened Subscription
  import Spec = StoreSpec
  import StoreInv
  import R = StoreResults

  /** Channel `c` belongs to the subscriber, which has received `taken` of its events so far. */
  ghost predicate Shows(s: State, runs: map<RunId, ActiveRun>, channels: seq<Channel>, r: RunId, c: nat, taken: nat) {
    && c < |channels| && channels[c].open && taken <= |channels[c].queue|
    && (s.registered <==> r in runs)
    && (r in runs ==> (runs[r].terminalPublished <==> TerminalPublished(s)))
    && (r in runs ==> (c in runs[r].senders <==> Attached(s)))
    && (Attached(s) ==> s.queue == channels[c].queue[taken..])
  }

  // ---------------------------------------------------------------- the terminal event is the last

  /** The terminal event of the log is its last one, and the run is over with it. */
  ghost predicate EndsOnce(s: State) {
    forall i :: 0 <= i < |s.log| ==> (s.log[i].terminal <==> !s.running && i == |s.log| - 1)
  }

  lemma EndsOnceKept(s: State, action: Action)
    requires EndsOnce(s)
    ensures EndsOnce(Next(s, action))
  {
    hide Increasing, ListPage, Take, Send;
    var next := Next(s, action);
    match action
    case Store(batch) =>
      if next != s {
        forall i | 0 <= i < |next.log| ensures next.log[i].terminal <==> !next.running && i == |next.log| - 1 {
          assert i < |s.log| || next.log[i] == batch[i - |s.log|];
        }
      }
    case List => SameLogRead(s);
    case Receive => SameLogTaken(s);
    case _ => SameLogSent(s);
  }

  lemma SameLogRead(s: State)
    ensures ListPage(s, true).log == s.log == ListPage(s, false).log
    ensures ListPage(s, true).running == s.running == ListPage(s, false).running
  {
    hide Page, More;
  }

  lemma SameLogTaken(s: State)
    ensures |s.queue| > 0 ==> Take(s).log == s.log && Take(s).running == s.running
  {
  }

  lemma SameLogSent(s: State)
    ensures s.published < |s.log| ==> Send(s).log == s.log && Send(s).running == s.running
  {
  }

  lemma {:induction false} ReachesEndOnce(start: int, actions: seq<Action>, n: nat)
    requires n <= |actions|
    ensures EndsOnce(Exec(start, actions, n))
  {
    hide Next, EndsOnce;
    if n > 0 {
      ReachesEndOnce(start, actions, n - 1);
      EndsOnceKept(Exec(start, actions, n - 1), actions[n - 1]);
    } else {
      NoEndAtFirst(start);
    }
  }

  lemma NoEndAtFirst(start: int)
    ensures EndsOnce(Start(start))
  {
  }

  // ---------------------------------------------------------------- publishing

  /** Publishing the next event of the log to the channels is the step Send. */
  lemma PublishIsSend(s: State, runs: map<RunId, ActiveRun>, channels: seq<Channel>, r: RunId, c: nat, taken: nat)
    requires Shows(s, runs, channels, r, c, taken) && SendersOk(runs, channels) && EndsOnce(s)
    requires r in runs && !runs[r].terminalPublished && s.published < |s.log|
    ensures var e := s.log[s.published];
            var senders := runs[r].senders;
            Shows(Send(s), runs[r := runs[r].(senders := StillOpen(channels, runs[r]), terminalPublished := e.terminal)],
                  Deliver(channels, senders, e, |senders|), r, c, taken)
  {
    var e, senders := s.log[s.published], runs[r].senders;
    DeliveredOnce(channels, senders, e, |senders|, c);
    assert senders[..|senders|] == senders;
    hide Deliver, Live;
    assert Attached(Send(s)) == Attached(s);
    assert TerminalPublished(Send(s)) <==> e.terminal;
    assert c in StillOpen(channels, runs[r]) <==> c in senders;
  }

  function SendAll(s: State, n: nat): State
    requires s.published + n <= |s.log|
    ensures SendAll(s, n).published == s.published + n && SendAll(s, n).log == s.log
  {
    if n == 0 then s else Send(SendAll(s, n - 1))
  }

  lemma {:induction false} SendAllQueue(s: State, n: nat)
    requires s.published + n <= |s.log|
    ensures SendAll(s, n)
            == s.(published := s.published + n,
                  queue := if Attached(s) then s.queue + s.log[s.published..s.published + n] else s.queue)
  {
    if n == 0 {
      assert s.queue + s.log[s.published..s.published] == s.queue;
    } else {
      SendAllQueue(s, n - 1);
      assert s.log[s.published..s.published + n]
             == s.log[s.published..s.published + n - 1] + [s.log[s.published + n - 1]];
    }
  }

  /** Publishing a whole batch, as a commit does, is that many steps Send: the subscriber's channel
      gets just these events, in order. */
  lemma PublishAllIsSendAll(s: State, runs: map<RunId, ActiveRun>, channels: seq<Channel>, after: seq<Channel>,
                            r: RunId, c: nat, taken: nat, n: nat)
    requires Shows(s, runs, channels, r, c, taken) && r in runs && Attached(s) && s.published + n <= |s.log|
    requires Published(channels, after, runs[r].senders, s.log[s.published..s.published + n])
    ensures SendAll(s, n).queue == after[c].queue[taken..]
  {
    SendAllQueue(s, n);
  }

  // ---------------------------------------------------------------- the other ends

  /** A new channel of the registry is what the step Subscribe opens, and it is refused alike. */
  lemma SubscribeOpens(s: State, runs: map<RunId, ActiveRun>, channels: seq<Channel>, r: RunId)
    requires s.phase.Subscribing? && (s.registered <==> r in runs) && SendersOk(runs, channels)
    requires r in runs ==> (runs[r].terminalPublished <==> TerminalPublished(s))
    ensures var next, c := Next(s, Subscribe), |channels|;
            if r in runs && !runs[r].terminalPublished
            then Shows(next, runs[r := runs[r].(senders := runs[r].senders + [c])], channels + [Channel(true, [])], r, c, 0)
            else next.phase == Phase.Refused
  {
  }

  /** Receiving moves the channel's head on, and unregistering leaves what was sent. */
  lemma ReceiveAndRemove(s: State, runs: map<RunId, ActiveRun>, channels: seq<Channel>, r: RunId, c: nat, taken: nat)
    requires Shows(s, runs, channels, r, c, taken)
    ensures s.phase.Tailing? && |s.queue| > 0 ==>
              s.queue[0] == channels[c].queue[taken] && Shows(Next(s, Receive), runs, channels, r, c, taken + 1)
    ensures Shows(s.(registered := false), runs - {r}, channels, r, c, taken)
  {
  }

  // ---------------------------------------------------------------- the store

  /** The log is that of the stored run. */
  ghost predicate Stored(s: State, store: Spec.Store, r: RunId) {
    r in store.runs && s.log == store.runs[r].events && (s.running <==> store.runs[r].status == Running)
  }

  /** A commit that the store accepts for a registered run is the step Store, with its events still to
      be published. */
  lemma CommitIsStore(s: State, store: Spec.Store, c: Commit, now: int)
    requires StoreInv.Valid(store) && Stored(s, store, c.run) && s.registered && !s.busy
    requires R.Acceptable(store, c, now) && c.events != []
    ensures var next := Next(s, Action.Store(c.events));
            && Stored(next, Spec.CommitRun(store, c, now).0, c.run)
            && next.busy && next.published == s.published && next.upto == |next.log|
  {
    hide Spec.CommitRun, R.Reportable, Spec.ItemsOk, Spec.EntriesOk, R.EffectsUpdated;
    R.CommitStores(store, c, now);
    AcceptedStorable(s, store, c, now);
    hide R.Acceptable, StoreInv.Valid, Storable, Increasing;
    assert c.finish.Some? <==> c.events[|c.events| - 1].terminal by { AcceptedEnd(store, c, now); }
    StatusAfter(store, c, now);
  }

  lemma AcceptedStorable(s: State, store: Spec.Store, c: Commit, now: int)
    requires StoreInv.Valid(store) && Stored(s, store, c.run) && R.Acceptable(store, c, now) && c.events != []
    ensures Storable(s, c.events) && s.running
  {
    hide R.Reportable, Spec.ItemsOk, Spec.EntriesOk;
    var run := store.runs[c.run];
    assert StoreInv.LogOk(run);
    StoreInv.LogExtends(run, c.events);
    hide StoreInv.Valid;
  }

  lemma AcceptedEnd(store: Spec.Store, c: Commit, now: int)
    requires R.Acceptable(store, c, now) && c.events != []
    ensures c.finish.Some? <==> c.events[|c.events| - 1].terminal
  {
    hide R.Reportable, Spec.ItemsOk, Spec.EntriesOk, Spec.Increases;
  }

  lemma StatusAfter(store: Spec.Store, c: Commit, now: int)
    requires StoreInv.Valid(store) && R.Acceptable(store, c, now)
    ensures var next := Spec.CommitRun(store, c, now).0;
            && c.run in store.runs && c.run in next.runs
            && next.runs[c.run].events == store.runs[c.run].events + c.events
            && (next.runs[c.run].status == Running <==> c.finish.None?)
  {
    hide Spec.CommitRun, StoreInv.Valid, R.Reportable, Spec.ItemsOk, Spec.EntriesOk, R.EffectsUpdated, Spec.Increases;
    hide R.ItemsStored, R.EntriesStored;
    R.CommitStores(store, c, now);
  }

  /** Reaping the stored run is the step Reap; nothing is published. */
  lemma ReapIsStep(s: State, store: Spec.Store, r: RunId, event: Event, now: int)
    requires StoreInv.Valid(store) && Stored(s, store, r)
    requires Spec.Stale(store.runs[r], now) && Spec.ReapEventOk(store.runs[r], event)
    ensures var next := Next(s, Action.Reap(event));
            Stored(next, Spec.Reap(store, r, event, now), r) && next.published == s.published && next.queue == s.queue
  {
    assert StoreInv.LogOk(store.runs[r]);
    hide StoreInv.Valid;
  }
}
