/**
 The registry of the runs that this process executes: their sequence counters and the channels
 of their live subscribers.
 */
module Registry {
  import opened Types

  /** One end of a channel: the receiver may have been dropped; `queue` is what was sent to it. */
  datatype Channel = Channel(open: bool, queue: seq<Event>)

  /** `senders` are indices of channels. */
  datatype ActiveRun = ActiveRun(token: Value, cancelled: bool, currentSeq: int, terminalPublished: bool,
                                 senders: seq<nat>)

  /** The channels after the event went to the first `n` senders that are still open. */
  function Deliver(channels: seq<Channel>, senders: seq<nat>, event: Event, n: nat): (r: seq<Channel>)
    requires n <= |senders| && forall i :: 0 <= i < |senders| ==> senders[i] < |channels|
    ensures |r| == |channels|
    ensures forall c :: 0 <= c < |channels| ==> r[c].open == channels[c].open
  {
    if n == 0 then channels
    else
      var before := Deliver(channels, senders, event, n - 1);
      var c := senders[n - 1];
      if before[c].open then before[c := before[c].(queue := before[c].queue + [event])] else before
  }

  /** The senders among the first `n` whose receiver is still there. */
  function Live(channels: seq<Channel>, senders: seq<nat>, n: nat): (r: seq<nat>)
    requires n <= |senders| && forall i :: 0 <= i < |senders| ==> senders[i] < |channels|
    ensures forall c :: c in r <==> c in senders[..n] && channels[c].open
  {
    if n == 0 then []
    else
      assert senders[..n] == senders[..n - 1] + [senders[n - 1]];
      var before := Live(channels, senders, n - 1);
      if channels[senders[n - 1]].open then before + [senders[n - 1]] else before
  }

  function StillOpen(channels: seq<Channel>, run: ActiveRun): seq<nat>
    requires forall i :: 0 <= i < |run.senders| ==> run.senders[i] < |channels|
  {
    Live(channels, run.senders, |run.senders|)
  }

  /** Every open subscriber gets the event once; no other channel is touched. */
  lemma {:induction false} DeliveredOnce(channels: seq<Channel>, senders: seq<nat>, event: Event, n: nat, c: nat)
    requires n <= |senders| && c < |channels| && forall i :: 0 <= i < |senders| ==> senders[i] < |channels|
    requires Distinct(senders)
    ensures Deliver(channels, senders, event, n)[c].queue
            == if c in senders[..n] && channels[c].open then channels[c].queue + [event] else channels[c].queue
  {
    if n > 0 {
      DeliveredOnce(channels, senders, event, n - 1, c);
      assert senders[..n] == senders[..n - 1] + [senders[n - 1]];
    }
  }

  ghost predicate SendersOk(runs: map<RunId, ActiveRun>, channels: seq<Channel>) {
    && (forall r, i :: r in runs && 0 <= i < |runs[r].senders| ==> runs[r].senders[i] < |channels|)
    && (forall r :: r in runs ==> Distinct(runs[r].senders))
  }

  class RunRegistry {
    var runs: map<RunId, ActiveRun>
    var channels: seq<Channel>

    ghost predicate Valid()
      reads this
    {
      SendersOk(runs, channels)
    }

    constructor ()
      ensures Valid() && runs == map[] && channels == []
    {
      runs, channels := map[], [];
    }

    /** Registers the run, with a channel of its own if its starter listens. */
    method TryInsert(run: RunId, token: Value, listen: bool, maxInFlight: nat) returns (r: Outcome)
      requires Valid()
      modifies this
      ensures Valid()
      ensures r == if run in old(runs) then Fail(RunAlreadyActive)
                   else if |old(runs)| >= maxInFlight then Fail(CapacityExceeded) else Pass
      ensures r.Fail? ==> runs == old(runs) && channels == old(channels)
      ensures r.Pass? ==>
                && channels == old(channels) + (if listen then [Channel(true, [])] else [])
                && runs == old(runs)[run := ActiveRun(token, false, 0, false,
                                                      if listen then [|old(channels)|] else [])]
                && |runs| <= maxInFlight
    {
      if run in runs {
        return Fail(RunAlreadyActive);
      }
      if |runs| >= maxInFlight {
        return Fail(CapacityExceeded);
      }
      var senders: seq<nat> := [];
      if listen {
        senders := [|channels|];
        channels := channels + [Channel(true, [])];
      }
      assert runs.Keys + {run} == runs[run := ActiveRun(token, false, 0, false, senders)].Keys;
      runs := runs[run := ActiveRun(token, false, 0, false, senders)];
      return Pass;
    }

    method Remove(run: RunId)
      requires Valid()
      modifies this`runs
      ensures Valid()
      ensures runs == old(runs) - {run}
    {
      runs := runs - {run};
    }

    method NextSeq(run: RunId) returns (n: Option<int>)
      requires Valid()
      modifies this`runs
      ensures Valid()
      ensures n == if run in old(runs) then Some(old(runs)[run].currentSeq + 1) else None
      ensures runs == Advanced(old(runs), run, 1)
    {
      if run !in runs {
        return None;
      }
      runs := runs[run := runs[run].(currentSeq := runs[run].currentSeq + 1)];
      return Some(runs[run].currentSeq);
    }

    /** Gives a number back, but only if it is the last one that was handed out. */
    method RewindSeq(run: RunId, n: int) returns (done: bool)
      requires Valid()
      modifies this`runs
      ensures Valid()
      ensures done <==> run in old(runs) && old(runs)[run].currentSeq == n
      ensures runs == if done then Advanced(old(runs), run, -1) else old(runs)
    {
      if run !in runs || runs[run].currentSeq != n {
        return false;
      }
      runs := runs[run := runs[run].(currentSeq := runs[run].currentSeq - 1)];
      return true;
    }

    /** Opens a channel that gets everything published from now on. */
    method Subscribe(run: RunId) returns (receiver: Option<nat>)
      requires Valid()
      modifies this
      ensures Valid()
      ensures receiver.Some? <==> run in old(runs) && !old(runs)[run].terminalPublished
      ensures receiver.None? ==> runs == old(runs) && channels == old(channels)
      ensures receiver.Some? ==>
                && receiver.value == |old(channels)| && channels == old(channels) + [Channel(true, [])]
                && runs == old(runs)[run := old(runs)[run].(senders := old(runs)[run].senders + [receiver.value])]
    {
      if run !in runs || runs[run].terminalPublished {
        return None;
      }
      var c := |channels|;
      channels := channels + [Channel(true, [])];
      runs := runs[run := runs[run].(senders := runs[run].senders + [c])];
      return Some(c);
    }

    method RequestCancel(run: RunId) returns (found: bool)
      requires Valid()
      modifies this`runs
      ensures Valid() && (found <==> run in old(runs))
      ensures runs == if found then old(runs)[run := old(runs)[run].(cancelled := true)] else old(runs)
    {
      if run !in runs {
        return false;
      }
      runs := runs[run := runs[run].(cancelled := true)];
      return true;
    }

    /** Sends the event to every subscriber and forgets those that have gone. */
    method Send(run: RunId, event: Event)
      requires Valid() && run in runs
      modifies this
      ensures Valid()
      ensures channels == Deliver(old(channels), old(runs)[run].senders, event, |old(runs)[run].senders|)
      ensures runs == old(runs)[run := old(runs)[run].(senders := StillOpen(old(channels), old(runs)[run]))]
    {
      var senders := runs[run].senders;
      var live: seq<nat> := [];
      for i := 0 to |senders|
        invariant |channels| == |old(channels)| && runs == old(runs)
        invariant channels == Deliver(old(channels), senders, event, i)
        invariant live == Live(old(channels), senders, i)
      {
        var c := senders[i];
        if channels[c].open {
          channels := channels[c := channels[c].(queue := channels[c].queue + [event])];
          live := live + [c];
        }
      }
      LiveDistinct(old(channels), senders, |senders|);
      assert forall i :: 0 <= i < |live| ==> live[i] in live;
      runs := runs[run := runs[run].(senders := live)];
    }

    method Publish(run: RunId, event: Event)
      requires Valid()
      modifies this
      ensures Valid()
      ensures if run in old(runs) && !old(runs)[run].terminalPublished
              then channels == Deliver(old(channels), old(runs)[run].senders, event, |old(runs)[run].senders|)
                   && runs == old(runs)[run := old(runs)[run].(senders := StillOpen(old(channels), old(runs)[run]))]
              else channels == old(channels) && runs == old(runs)
    {
      if run in runs && !runs[run].terminalPublished {
        Send(run, event);
      }
    }

    /** Publishes the terminal event, once. */
    method PublishTerminal(run: RunId, event: Event) returns (published: bool)
      requires Valid()
      modifies this
      ensures Valid()
      ensures published <==> run in old(runs) && !old(runs)[run].terminalPublished
      ensures if published
              then channels == Deliver(old(channels), old(runs)[run].senders, event, |old(runs)[run].senders|)
                   && runs == old(runs)[run := old(runs)[run].(senders := StillOpen(old(channels), old(runs)[run]),
                                                               terminalPublished := true)]
              else channels == old(channels) && runs == old(runs)
    {
      if run !in runs || runs[run].terminalPublished {
        return false;
      }
      runs := runs[run := runs[run].(terminalPublished := true)];
      Send(run, event);
      return true;
    }
  }

  /** The run's counter moved by `n`, if the run is registered. */
  function Advanced(runs: map<RunId, ActiveRun>, run: RunId, n: int): map<RunId, ActiveRun> {
    if run in runs then runs[run := runs[run].(currentSeq := runs[run].currentSeq + n)] else runs
  }

  ghost predicate Distinct(senders: seq<nat>) {
    forall i, j :: 0 <= i < j < |senders| ==> senders[i] != senders[j]
  }

  lemma {:induction false} LiveDistinct(channels: seq<Channel>, senders: seq<nat>, n: nat)
    requires n <= |senders| && forall i :: 0 <= i < |senders| ==> senders[i] < |channels|
    requires Distinct(senders)
    ensures Distinct(Live(channels, senders, n))
    ensures forall c :: c in Live(channels, senders, n) ==> c < |channels|
  {
    if n > 0 {
      LiveDistinct(channels, senders, n - 1);
      var before, live := Live(channels, senders, n - 1), Live(channels, senders, n);
      assert senders[n - 1] !in senders[..n - 1];
      assert senders[n - 1] !in before;
      assert live == before || live == before + [senders[n - 1]];
      forall i, j | 0 <= i < j < |live| ensures live[i] != live[j] {
        assert live[i] == before[i];
        if j < |before| {
          assert live[j] == before[j];
        }
      }
    }
  }
}
