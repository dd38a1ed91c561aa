/**
 * The SNI connection agent: per domain a set of subscriptions, each with a channel of capacity one,
 * and a queue of connections that wait for a subscriber. In reuse mode the oldest subscription gets
 * every connection; otherwise a connection waits for a subscription of its own.
 */
module SniAgents {
  import opened Common

  type Domain = string

  /** Connections are numbered in dispatch order; `at` is the instant of queueing. */
  datatype Queued = Queued(at: nat, conn: nat)

  datatype SubState = SubState(queue: seq<Queued>, subscriptions: set<nat>)

  /** `channels` holds the buffered connections of every subscription, by id. */
  datatype Agent = Agent(
    subscribers: map<Domain, SubState>,
    channels: map<nat, seq<nat>>,
    reuse: bool,
    timeout: nat,
    nextSub: nat)

  datatype Error = ListenerRefused | NoSubscribers | NoSubscription | BufferFull

  const CHANNEL_CAPACITY := 1

  ghost function Buffered(g: Agent, id: nat): seq<nat> {
    if id in g.channels then g.channels[id] else []
  }

  /** `try_send` on the channel of a subscription. */
  ghost function Sent(g: Agent, id: nat, conn: nat): Option<Agent> {
    if |Buffered(g, id)| < CHANNEL_CAPACITY then Some(g.(channels := g.channels[id := Buffered(g, id) + [conn]]))
    else None
  }

  /** A new subscription takes the connection at the head of the queue, if there is one. */
  ghost function Subscribed(g: Agent, d: Domain, accepted: bool): (Agent, Result<nat, Error>) {
    if !accepted then (g, Err(ListenerRefused))
    else
      var id := g.nextSub;
      var sub := if d in g.subscribers then g.subscribers[d] else SubState([], {});
      var given := if sub.queue != [] then [sub.queue[0].conn] else [];
      var queue := if sub.queue != [] then sub.queue[1..] else [];
      (g.(subscribers := g.subscribers[d := SubState(queue, sub.subscriptions + {id})],
          channels := g.channels[id := given],
          nextSub := id + 1),
       Ok(id))
  }

  ghost function Dispatched(g: Agent, d: Domain, conn: nat, now: nat): (Agent, Result<Option<nat>, Error>) {
    if d !in g.subscribers then (g, Err(NoSubscribers))
    else
      var sub := g.subscribers[d];
      if g.reuse && sub.subscriptions != {} then
        match Sent(g, MinOf(sub.subscriptions), conn)
        case Some(g') => (g', Ok(Some(MinOf(sub.subscriptions))))
        case None => (g, Err(BufferFull))
      else
        (g.(subscribers := g.subscribers[d := sub.(queue := sub.queue + [Queued(now, conn)])]), Ok(None))
  }

  ghost function Unsubscribed(g: Agent, d: Domain): (Agent, Result<(), Error>) {
    if d in g.subscribers then (g.(subscribers := g.subscribers - {d}), Ok(())) else (g, Err(NoSubscribers))
  }

  ghost function SubRemoved(g: Agent, d: Domain, id: nat): (Agent, Result<(), Error>) {
    if d !in g.subscribers then (g, Err(NoSubscribers))
    else
      var sub := g.subscribers[d];
      if id !in sub.subscriptions then (g, Err(NoSubscription))
      else if sub.subscriptions == {id} then Unsubscribed(g, d)
      else (g.(subscribers := g.subscribers[d := sub.(subscriptions := sub.subscriptions - {id})]), Ok(()))
  }

  /** `Instant::elapsed`, which saturates. */
  function Elapsed(at: nat, reading: nat): nat {
    if reading >= at then reading - at else 0
  }

  /** The scan reads the clock once per entry. */
  ghost function Retained(queue: seq<Queued>, clock: seq<nat>, timeout: nat): seq<Queued>
    requires |clock| == |queue|
  {
    if queue == [] then []
    else
      var n := |queue| - 1;
      Retained(queue[..n], clock[..n], timeout)
      + (if Elapsed(queue[n].at, clock[n]) < timeout then [queue[n]] else [])
  }

  ghost function TimedOut(g: Agent, d: Domain, clock: seq<nat>): Agent
    requires d in g.subscribers ==> |clock| == |g.subscribers[d].queue|
  {
    if d !in g.subscribers then g
    else
      var sub := g.subscribers[d];
      g.(subscribers := g.subscribers[d := sub.(queue := Retained(sub.queue, clock, g.timeout))])
  }

  // What a timeout scan keeps

  ghost predicate SortedByTime(queue: seq<Queued>) {
    forall i, j :: 0 <= i < j < |queue| ==> queue[i].at <= queue[j].at
  }

  /** `sub` consists of the entries of `queue` at the increasing positions `picks`. */
  ghost predicate Picks(picks: seq<nat>, sub: seq<Queued>, queue: seq<Queued>) {
    && |picks| == |sub|
    && (forall i :: 0 <= i < |sub| ==> picks[i] < |queue| && sub[i] == queue[picks[i]])
    && (forall i, j :: 0 <= i < j < |picks| ==> picks[i] < picks[j])
  }

  ghost predicate Subsequence(sub: seq<Queued>, queue: seq<Queued>) {
    exists picks :: Picks(picks, sub, queue)
  }

  ghost predicate TooOld(queue: seq<Queued>, clock: seq<nat>, timeout: nat, i: nat)
    requires |clock| == |queue| && i < |queue|
  {
    Elapsed(queue[i].at, clock[i]) >= timeout
  }

  /** The positions of the entries that a scan keeps. */
  ghost function KeptAt(queue: seq<Queued>, clock: seq<nat>, timeout: nat): seq<nat>
    requires |clock| == |queue|
  {
    if queue == [] then []
    else
      var n := |queue| - 1;
      KeptAt(queue[..n], clock[..n], timeout) + (if TooOld(queue, clock, timeout, n) then [] else [n])
  }

  lemma PicksLonger(picks: seq<nat>, sub: seq<Queued>, queue: seq<Queued>, n: nat)
    requires n < |queue| && Picks(picks, sub, queue[..n])
    ensures Picks(picks, sub, queue)
    ensures Picks(picks + [n], sub + [queue[n]], queue)
  {
    assert forall i :: 0 <= i < |sub| ==> picks[i] < n && sub[i] == queue[..n][picks[i]] == queue[picks[i]];
  }

  lemma {:induction false} KeptAtPicks(queue: seq<Queued>, clock: seq<nat>, timeout: nat)
    requires |clock| == |queue|
    ensures Picks(KeptAt(queue, clock, timeout), Retained(queue, clock, timeout), queue)
  {
    if queue != [] {
      var n := |queue| - 1;
      KeptAtPicks(queue[..n], clock[..n], timeout);
      PicksLonger(KeptAt(queue[..n], clock[..n], timeout), Retained(queue[..n], clock[..n], timeout), queue, n);
      hide Picks;
    }
  }

  lemma {:induction false} KeptAtIff(queue: seq<Queued>, clock: seq<nat>, timeout: nat, i: nat)
    requires |clock| == |queue|
    ensures i in KeptAt(queue, clock, timeout) <==> i < |queue| && !TooOld(queue, clock, timeout, i)
  {
    if queue != [] {
      KeptAtIff(queue[..|queue| - 1], clock[..|queue| - 1], timeout, i);
    }
  }

  /** A scan keeps exactly the entries that are not too old when it comes to them, in order. */
  lemma TimeoutRemovesTooOld(queue: seq<Queued>, clock: seq<nat>, timeout: nat)
    requires |clock| == |queue|
    ensures Picks(KeptAt(queue, clock, timeout), Retained(queue, clock, timeout), queue)
    ensures forall i: nat :: i in KeptAt(queue, clock, timeout) <==> i < |queue| && !TooOld(queue, clock, timeout, i)
  {
    KeptAtPicks(queue, clock, timeout);
    forall i: nat
      ensures i in KeptAt(queue, clock, timeout) <==> i < |queue| && !TooOld(queue, clock, timeout, i)
    {
      KeptAtIff(queue, clock, timeout, i);
    }
    hide KeptAt, Retained, Picks, TooOld;
  }

  /** The entries that are too old are the first `k`. */
  ghost predicate TooOldAreFirst(queue: seq<Queued>, clock: seq<nat>, timeout: nat, k: nat)
    requires |clock| == |queue|
  {
    k <= |queue| && forall i: nat :: i < |queue| ==> (TooOld(queue, clock, timeout, i) <==> i < k)
  }

  ghost predicate RemovesPrefix(queue: seq<Queued>, clock: seq<nat>, timeout: nat)
    requires |clock| == |queue|
  {
    exists k: nat :: TooOldAreFirst(queue, clock, timeout, k)
  }

  /** When the entries that are too old are the first `k`, what is left is the rest of the queue. */
  lemma {:induction false} RetainedIsRest(queue: seq<Queued>, clock: seq<nat>, timeout: nat, k: nat)
    requires |clock| == |queue| && TooOldAreFirst(queue, clock, timeout, k)
    ensures Retained(queue, clock, timeout) == queue[k..]
  {
    if queue != [] {
      var n := |queue| - 1;
      assert TooOld(queue, clock, timeout, n) <==> n < k;
      forall i: nat | i < n
        ensures TooOld(queue[..n], clock[..n], timeout, i) <==> i < k
      {
        assert TooOld(queue, clock, timeout, i) <==> i < k;
      }
      if k <= n {
        RetainedIsRest(queue[..n], clock[..n], timeout, k);
        assert queue[k..] == queue[..n][k..] + [queue[n]];
      } else {
        RetainedIsRest(queue[..n], clock[..n], timeout, n);
      }
    }
  }

  /** Entries do not get older along the queue, as the scan measures them. */
  ghost predicate AgesFall(queue: seq<Queued>, clock: seq<nat>)
    requires |clock| == |queue|
  {
    forall i, j :: 0 <= i < j < |queue| ==> Elapsed(queue[i].at, clock[i]) >= Elapsed(queue[j].at, clock[j])
  }

  lemma {:induction false} FallingAgesGivePrefix(queue: seq<Queued>, clock: seq<nat>, timeout: nat)
    requires |clock| == |queue| && AgesFall(queue, clock)
    ensures RemovesPrefix(queue, clock, timeout)
  {
    if queue == [] {
      assert TooOldAreFirst(queue, clock, timeout, 0);
    } else {
      var n := |queue| - 1;
      FallingAgesGivePrefix(queue[..n], clock[..n], timeout);
      var k: nat :| TooOldAreFirst(queue[..n], clock[..n], timeout, k);
      forall i: nat | i < n
        ensures TooOld(queue, clock, timeout, i) <==> i < k
      {
        assert TooOld(queue[..n], clock[..n], timeout, i) <==> i < k;
      }
      assert TooOldAreFirst(queue, clock, timeout, if TooOld(queue, clock, timeout, n) then n + 1 else k);
    }
  }

  /** A scan removes a prefix whatever the timeout if and only if measured ages never rise along the queue. */
  lemma PrefixForEveryTimeoutIff(queue: seq<Queued>, clock: seq<nat>)
    requires |clock| == |queue|
    ensures (forall timeout: nat :: RemovesPrefix(queue, clock, timeout)) <==> AgesFall(queue, clock)
  {
    if AgesFall(queue, clock) {
      forall timeout: nat
        ensures RemovesPrefix(queue, clock, timeout)
      {
        FallingAgesGivePrefix(queue, clock, timeout);
      }
    } else {
      var i: nat, j: nat :| i < j < |queue| && Elapsed(queue[i].at, clock[i]) < Elapsed(queue[j].at, clock[j]);
      var timeout := Elapsed(queue[j].at, clock[j]);
      assert TooOld(queue, clock, timeout, j) && !TooOld(queue, clock, timeout, i);
      assert !RemovesPrefix(queue, clock, timeout);
    }
  }

  /** With one reading for the whole scan, a queue in time order loses a prefix. */
  lemma OneReadingRemovesPrefix(queue: seq<Queued>, clock: seq<nat>, timeout: nat)
    requires |clock| == |queue| && SortedByTime(queue)
    requires forall i, j :: 0 <= i < j < |clock| ==> clock[i] == clock[j]
    ensures RemovesPrefix(queue, clock, timeout)
  {
    FallingAgesGivePrefix(queue, clock, timeout);
  }

  class AgentState {
    const reuse: bool
    const timeout: nat
    var subscribers: map<Domain, SubState>
    var channels: map<nat, seq<nat>>
    var nextSub: nat

    ghost function Model(): Agent
      reads this
    {
      Agent(subscribers, channels, reuse, timeout, nextSub)
    }

    constructor (reuse: bool, timeout: nat)
      ensures Model() == Agent(map[], map[], reuse, timeout, 0)
    {
      this.reuse, this.timeout := reuse, timeout;
      subscribers, channels, nextSub := map[], map[], 0;
    }

    method Send(id: nat, conn: nat) returns (ok: bool)
      modifies this`channels
      ensures ok <==> Sent(old(Model()), id, conn).Some?
      ensures Model() == if ok then Sent(old(Model()), id, conn).value else old(Model())
    {
      var buffer := if id in channels then channels[id] else [];
      ok := |buffer| < CHANNEL_CAPACITY;
      if ok {
        channels := channels[id := buffer + [conn]];
      }
    }

    /** `accepted` is the listener's answer to the key. */
    method Subscribe(d: Domain, accepted: bool) returns (res: Result<nat, Error>)
      modifies this
      ensures (Model(), res) == Subscribed(old(Model()), d, accepted)
    {
      if !accepted {
        return Err(ListenerRefused);
      }
      var id := nextSub;
      nextSub := nextSub + 1;
      channels := channels[id := []];
      if d in subscribers {
        var sub := subscribers[d];
        if sub.queue != [] {
          var sent := Send(id, sub.queue[0].conn);
          assert [] + [sub.queue[0].conn] == [sub.queue[0].conn];
          assert channels == old(channels)[id := [sub.queue[0].conn]];
          sub := sub.(queue := sub.queue[1..]);
        }
        subscribers := subscribers[d := sub.(subscriptions := sub.subscriptions + {id})];
      } else {
        assert {} + {id} == {id};
        subscribers := subscribers[d := SubState([], {id})];
      }
      res := Ok(id);
    }

    method DispatchConnection(d: Domain, conn: nat, now: nat) returns (res: Result<Option<nat>, Error>)
      modifies this
      ensures (Model(), res) == Dispatched(old(Model()), d, conn, now)
    {
      if d !in subscribers {
        return Err(NoSubscribers);
      }
      var sub := subscribers[d];
      if reuse && sub.subscriptions != {} {
        ghost var first := MinOf(sub.subscriptions);
        var id :| id in sub.subscriptions && forall x :: x in sub.subscriptions ==> id <= x;
        var sent := Send(id, conn);
        return if sent then Ok(Some(id)) else Err(BufferFull);
      }
      subscribers := subscribers[d := sub.(queue := sub.queue + [Queued(now, conn)])];
      res := Ok(None);
    }

    method Unsubscribe(d: Domain) returns (res: Result<(), Error>)
      modifies this`subscribers
      ensures (Model(), res) == Unsubscribed(old(Model()), d)
    {
      if d !in subscribers {
        return Err(NoSubscribers);
      }
      subscribers := subscribers - {d};
      res := Ok(());
    }

    method RemoveSub(d: Domain, id: nat) returns (res: Result<(), Error>)
      modifies this`subscribers
      ensures (Model(), res) == SubRemoved(old(Model()), d, id)
    {
      if d !in subscribers {
        return Err(NoSubscribers);
      }
      var sub := subscribers[d];
      if id !in sub.subscriptions {
        return Err(NoSubscription);
      }
      sub := sub.(subscriptions := sub.subscriptions - {id});
      if sub.subscriptions == {} {
        assert subscribers[d].subscriptions == {id};
        res := Unsubscribe(d);
      } else {
        subscribers := subscribers[d := sub];
        res := Ok(());
      }
    }

    /** `clock` is what the clock shows as the scan comes to each entry. */
    method ClearTimeoutConnections(d: Domain, clock: seq<nat>)
      requires d in subscribers ==> |clock| == |subscribers[d].queue|
      modifies this`subscribers
      ensures Model() == TimedOut(old(Model()), d, clock)
    {
      if d !in subscribers {
        return;
      }
      var sub, kept, i := subscribers[d], [], 0;
      while i < |sub.queue|
        invariant 0 <= i <= |sub.queue|
        invariant kept == Retained(sub.queue[..i], clock[..i], timeout)
      {
        assert sub.queue[..i + 1][..i] == sub.queue[..i] && clock[..i + 1][..i] == clock[..i];
        if Elapsed(sub.queue[i].at, clock[i]) < timeout {
          kept := kept + [sub.queue[i]];
        }
        i := i + 1;
      }
      assert sub.queue[..i] == sub.queue && clock[..i] == clock;
      subscribers := subscribers[d := sub.(queue := kept)];
    }
  }
}
