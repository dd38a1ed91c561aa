/**
 * What it means to be handed a connection: it is in the subscription's channel until the subscriber
 * takes it out, and connections are taken out in the order they were handed over.
 */
module SniDelivery {
  import opened Common
  import opened SniAgents
  import opened SniAgentRuns

  /** The connections handed to one subscription, in order. */
  ghost function HandedConns(handed: seq<Handed>, id: nat): seq<nat> {
    if handed == [] then []
    else
      var n := |handed| - 1;
      HandedConns(handed[..n], id) + (if handed[n].sub == id then [handed[n].conn] else [])
  }

  /** What was handed to a subscription is what it received and then what waits in its channel. */
  ghost predicate Arrives(s: World, id: nat) {
    HandedConns(s.handed, id) == ReceivedBy(s, id) + Buffered(s.agent, id)
  }

  ghost predicate DeliveryOk(s: World) {
    && (forall id: nat :: Arrives(s, id))
    && (forall id :: id in s.agent.channels || id in s.received ==> id < s.agent.nextSub)
  }

  lemma HandedConnsSnoc(handed: seq<Handed>, h: Handed, id: nat)
    ensures HandedConns(handed + [h], id) == HandedConns(handed, id) + (if h.sub == id then [h.conn] else [])
  {
    assert (handed + [h])[..|handed|] == handed;
  }

  lemma SubscribeDelivers(s: World, d: Domain, accepted: bool, id: nat)
    requires DeliveryOk(s)
    ensures Arrives(AfterSubscribe(s, d, accepted), id)
  {
    assert Arrives(s, id);
    var queue := QueueOf(s.agent, d);
    if accepted && queue != [] {
      HandedConnsSnoc(s.handed, Handed(queue[0].conn, s.agent.nextSub, d), id);
    }
    hide HandedConns;
  }

  lemma SentIsBuffered(g: Agent, id: nat, conn: nat, other: nat)
    requires Sent(g, id, conn).Some?
    ensures Buffered(Sent(g, id, conn).value, other) == Buffered(g, other) + (if other == id then [conn] else [])
  {}

  /** A dispatch hands its connection to one subscription and buffers it there, or does neither. */
  lemma DispatchBuffers(s: World, d: Domain, id: nat) returns (sub: Option<nat>)
    ensures var s' := AfterDispatch(s, d);
            && s'.received == s.received
            && s'.handed == s.handed + (if sub.Some? then [Handed(s.nextConn, sub.value, d)] else [])
            && Buffered(s'.agent, id) == Buffered(s.agent, id) + (if sub == Some(id) then [s.nextConn] else [])
  {
    hide Sent, Buffered, MinOf;
    sub := None;
    if d in s.agent.subscribers && s.agent.reuse && s.agent.subscribers[d].subscriptions != {} {
      var first := MinOf(s.agent.subscribers[d].subscriptions);
      if Sent(s.agent, first, s.nextConn).Some? {
        SentIsBuffered(s.agent, first, s.nextConn, id);
        sub := Some(first);
      }
    } else {
      SameBuffered(s.agent, AfterDispatch(s, d).agent, id);
    }
  }

  lemma SameBuffered(g: Agent, g': Agent, id: nat)
    requires g'.channels == g.channels
    ensures Buffered(g', id) == Buffered(g, id)
  {}

  lemma DispatchDelivers(s: World, d: Domain, id: nat)
    requires DeliveryOk(s)
    ensures Arrives(AfterDispatch(s, d), id)
  {
    assert Arrives(s, id);
    var sub := DispatchBuffers(s, d, id);
    hide Buffered, AfterDispatch, DeliveryOk;
    if sub.Some? {
      HandedConnsSnoc(s.handed, Handed(s.nextConn, sub.value, d), id);
    }
    hide HandedConns;
  }

  lemma ReceiveDelivers(s: World, id: nat, other: nat)
    requires DeliveryOk(s) && Enabled(s, Receive(id))
    ensures Arrives(AfterReceive(s, id), other)
  {
    assert Arrives(s, other);
    if other == id {
      var buffer := Buffered(s.agent, id);
      assert ReceivedBy(s, id) + buffer == ReceivedBy(s, id) + [buffer[0]] + buffer[1..];
    }
    hide HandedConns;
  }

  ghost predicate SameChannels(s: World, s': World) {
    s'.agent.channels == s.agent.channels && s'.agent.nextSub == s.agent.nextSub && s'.handed == s.handed && s'.received == s.received
  }

  lemma OtherStepKeepsChannels(s: World, step: Step)
    requires Enabled(s, step) && !step.Subscribe? && !step.Dispatch? && !step.Receive?
    ensures SameChannels(s, Apply(s, step))
  {
    hide Conns, Retained, ClockOk;
    match step {
      case Unsubscribe(_) => case DropSubscription(_) => case ClearTimeouts(_, _) => case Tick(_) =>
    }
  }

  lemma StepKeepsFresh(s: World, step: Step)
    requires DeliveryOk(s) && Enabled(s, step)
    requires forall d, id :: d in s.agent.subscribers && id in s.agent.subscribers[d].subscriptions ==> id < s.agent.nextSub
    ensures var s' := Apply(s, step);
            forall id :: id in s'.agent.channels || id in s'.received ==> id < s'.agent.nextSub
  {
    hide HandedConns, Conns, Retained, Arrives, MinOf;
    match step {
      case Subscribe(_, _) =>
      case Dispatch(d) =>
      case Receive(id) => assert id in s.agent.channels;
      case _ => OtherStepKeepsChannels(s, step);
    }
  }

  lemma ListedAreOld(s: World)
    requires SubsOk(s)
    ensures forall d, id :: d in s.agent.subscribers && id in s.agent.subscribers[d].subscriptions ==> id < s.agent.nextSub
  {
    forall d, id | d in s.agent.subscribers && id in s.agent.subscribers[d].subscriptions
      ensures id < s.agent.nextSub
    {
      assert id in s.home;
    }
  }

  lemma StepDelivers(s: World, step: Step)
    requires DeliveryOk(s) && SubsOk(s) && Enabled(s, step)
    ensures DeliveryOk(Apply(s, step))
  {
    ListedAreOld(s);
    StepKeepsFresh(s, step);
    forall id: nat
      ensures Arrives(Apply(s, step), id)
    {
      assert Arrives(s, id);
      match step {
        case Subscribe(d, accepted) => SubscribeDelivers(s, d, accepted, id);
        case Dispatch(d) => DispatchDelivers(s, d, id);
        case Receive(sub) => ReceiveDelivers(s, sub, id);
        case _ => OtherStepKeepsChannels(s, step);
      }
      hide AfterSubscribe, AfterDispatch, AfterReceive, HandedConns;
    }
    hide Apply, Arrives, SubsOk;
  }

  lemma {:induction false} RunDelivers(s: World, steps: seq<Step>)
    requires DeliveryOk(s) && Inv(s) && IsRun(s, steps)
    ensures DeliveryOk(Exec(s, steps))
    decreases |steps|
  {
    if steps != [] {
      StepKeepsInv(s, steps[0]);
      StepDelivers(s, steps[0]);
      hide Inv, DeliveryOk, Apply, Enabled;
      RunDelivers(Apply(s, steps[0]), steps[1..]);
    }
  }

  lemma {:induction false} HandedConnsIff(handed: seq<Handed>, conn: nat, id: nat)
    ensures conn in HandedConns(handed, id) <==> HandedTo(handed, conn, id)
  {
    if handed != [] {
      var n := |handed| - 1;
      HandedConnsIff(handed[..n], conn, id);
      assert handed == handed[..n] + [handed[n]];
      HandedToSnoc(handed[..n], handed[n], conn, id);
      if HandedTo(handed, conn, id) {
        var k :| 0 <= k < |handed| && handed[k].conn == conn && handed[k].sub == id;
        assert k < n ==> handed[..n][k] == handed[k];
      }
    }
  }

  /**
   * In every run, the connections handed to a living subscription are, in order, those it has received
   * and then those in its channel; so each of them was received or waits there.
   */
  lemma HandedIsDelivered(s: World, reuse: bool, timeout: nat, id: nat)
    requires Reachable(s, reuse, timeout) && id in s.alive
    ensures HandedConns(s.handed, id) == ReceivedBy(s, id) + Buffered(s.agent, id)
    ensures forall conn :: HandedTo(s.handed, conn, id) <==> conn in ReceivedBy(s, id) || conn in Buffered(s.agent, id)
  {
    var init := Init(reuse, timeout);
    var steps :| IsRun(init, steps) && Exec(init, steps) == s;
    assert DeliveryOk(init);
    RunDelivers(init, steps);
    assert Arrives(s, id);
    forall conn
      ensures conn in HandedConns(s.handed, id) <==> HandedTo(s.handed, conn, id)
    {
      HandedConnsIff(s.handed, conn, id);
    }
    hide HandedConns, HandedTo, Exec, IsRun, Reachable;
  }

  // What each operation does with a connection

  ghost predicate IsOldest(id: nat, subscriptions: set<nat>) {
    id in subscriptions && forall x :: x in subscriptions ==> id <= x
  }

  lemma ChannelIsEmptyOrFull(s: World, id: nat)
    requires ChannelsOk(s)
    ensures |Buffered(s.agent, id)| < CHANNEL_CAPACITY <==> Buffered(s.agent, id) == []
  {
    hide HandedTo;
  }

  /**
   * In every reachable state a dispatch fails with `NoSubscribers` exactly when the domain has no entry. In
   * reuse mode the oldest subscription gets the connection exactly when its channel is empty, and the
   * dispatch fails with `BufferFull` otherwise. In exclusive mode the connection joins the end of the queue.
   * What is not taken is given up.
   */
  lemma DispatchOutcome(s: World, reuse: bool, timeout: nat, d: Domain)
    requires Reachable(s, reuse, timeout)
    ensures var s', res, conn := AfterDispatch(s, d), Dispatched(s.agent, d, s.nextConn, s.now).1, s.nextConn;
            && (res == Err(NoSubscribers) <==> d !in s.agent.subscribers)
            && (res.Err? ==> s'.agent == s.agent && s'.handed == s.handed && conn in s'.dropped)
            && (d in s.agent.subscribers && !reuse ==>
                  && res == Ok(None) && s'.handed == s.handed && s'.dropped == s.dropped
                  && QueueOf(s'.agent, d) == QueueOf(s.agent, d) + [Queued(s.now, conn)])
            && (d in s.agent.subscribers && reuse ==> forall id: nat :: IsOldest(id, s.agent.subscribers[d].subscriptions) ==>
                  if Buffered(s.agent, id) == [] then
                    && res == Ok(Some(id)) && Buffered(s'.agent, id) == [conn]
                    && s'.handed == s.handed + [Handed(conn, id, d)] && s'.dropped == s.dropped
                  else res == Err(BufferFull))
            && (d in s.agent.subscribers && reuse ==> exists id: nat :: IsOldest(id, s.agent.subscribers[d].subscriptions))
  {
    ReachableInv(s, reuse, timeout);
    hide OnceOk, QueuesOk, HandedOk, AllPlaced, ModeOk, Reachable;
    if d in s.agent.subscribers && reuse {
      var first := MinOf(s.agent.subscribers[d].subscriptions);
      assert IsOldest(first, s.agent.subscribers[d].subscriptions);
      ChannelIsEmptyOrFull(s, first);
    }
    hide SubsOk, ChannelsOk, MinOf;
  }

  /** An accepted subscription is listed under a new id, and has the oldest waiting connection in its channel. */
  lemma SubscribeOutcome(s: World, reuse: bool, timeout: nat, d: Domain, accepted: bool)
    requires Reachable(s, reuse, timeout)
    ensures var s', id := AfterSubscribe(s, d, accepted), s.agent.nextSub;
            && (!accepted ==> s' == s && Subscribed(s.agent, d, accepted).1 == Err(ListenerRefused))
            && (accepted ==>
                  var before := QueueOf(s.agent, d);
                  && Subscribed(s.agent, d, accepted).1 == Ok(id) && id in s'.alive && d in s'.agent.subscribers
                  && id !in SubscriptionsOf(s.agent, d)
                  && SubscriptionsOf(s'.agent, d) == SubscriptionsOf(s.agent, d) + {id}
                  && Buffered(s'.agent, id) == (if before == [] then [] else [before[0].conn])
                  && QueueOf(s'.agent, d) == (if before == [] then [] else before[1..]))
  {
    ReachableInv(s, reuse, timeout);
    hide QueuesOk, AllPlaced, ModeOk, HandedOk, OnceOk, Reachable;
  }

  ghost function SubscriptionsOf(g: Agent, d: Domain): set<nat> {
    if d in g.subscribers then g.subscribers[d].subscriptions else {}
  }

  /**
   * A dropped subscription that is still listed is taken off the list, and with the last one goes the domain;
   * one whose domain was unsubscribed or subscribed anew meanwhile changes nothing, and the error says which.
   */
  lemma DropOutcome(g: Agent, d: Domain, id: nat)
    ensures var (g', res) := SubRemoved(g, d, id);
            && (res == Err(NoSubscribers) <==> d !in g.subscribers)
            && (res == Err(NoSubscription) <==> d in g.subscribers && id !in SubscriptionsOf(g, d))
            && (res.Ok? <==> id in SubscriptionsOf(g, d))
            && (res.Err? ==> g' == g)
            && SubscriptionsOf(g', d) == SubscriptionsOf(g, d) - {id}
            && (d in g'.subscribers <==> d in g.subscribers && SubscriptionsOf(g, d) != {id})
            && (d in g'.subscribers ==> g'.subscribers[d].queue == g.subscribers[d].queue)
            && g'.subscribers - {d} == g.subscribers - {d} && g'.channels == g.channels
  {
    if d in g.subscribers && SubscriptionsOf(g, d) != {id} && id in SubscriptionsOf(g, d) {
      var rest := SubscriptionsOf(g, d) - {id};
      assert (g.subscribers[d := g.subscribers[d].(subscriptions := rest)]) - {d} == g.subscribers - {d};
    }
  }

  /** After an unsubscribe the domain has no entry, and no other domain has changed. */
  lemma UnsubscribeOutcome(s: World, d: Domain)
    ensures var s' := Apply(s, Unsubscribe(d));
            && d !in s'.agent.subscribers && s'.agent.subscribers == s.agent.subscribers - {d}
            && (Unsubscribed(s.agent, d).1.Ok? <==> d in s.agent.subscribers)
  {
    hide Conns;
  }
}
