/**
 * Every run of the SNI agent: where each connection ends up, what each subscription is handed, and
 * what dropping a subscription can remove.
 */
module SniAgentRuns {
  import opened Common
  import opened SniAgents

  /** Connection `conn`, dispatched for `domain`, was sent to subscription `sub`. */
  datatype Handed = Handed(conn: nat, sub: nat, domain: Domain)

  /**
   * `alive` are the `Subscription` objects that still exist and `home` the domain each was created
   * for. `handed` lists the connections sent to subscriptions in the order they were sent,
   * `dropped` those given up, `origin` the domain each connection was dispatched for. `received`
   * are the connections that each subscriber took out of its channel.
   */
  datatype World = World(
    agent: Agent,
    now: nat,
    nextConn: nat,
    alive: set<nat>,
    home: map<nat, Domain>,
    handed: seq<Handed>,
    dropped: set<nat>,
    origin: map<nat, Domain>,
    received: map<nat, seq<nat>>)

  datatype Step =
    | Subscribe(domain: Domain, accepted: bool)
    | Dispatch(domain: Domain)
    | Unsubscribe(domain: Domain)
    | DropSubscription(id: nat)
    | Receive(id: nat)
    | ClearTimeouts(domain: Domain, clock: seq<nat>)
    | Tick(delay: nat)

  ghost function Init(reuse: bool, timeout: nat): World {
    World(Agent(map[], map[], reuse, timeout, 0), 0, 0, {}, map[], [], {}, map[], map[])
  }

  ghost predicate Enabled(s: World, step: Step) {
    match step
    case DropSubscription(id) => id in s.alive && id in s.home
    case Receive(id) => id in s.alive && Buffered(s.agent, id) != []
    case ClearTimeouts(d, clock) => ClockOk(s, d, clock)
    case _ => true
  }

  /** What a scan of the domain's queue can read: one instant per entry, none before now or the one before. */
  ghost predicate ClockOk(s: World, d: Domain, clock: seq<nat>) {
    && |clock| == |QueueOf(s.agent, d)|
    && (forall i :: 0 <= i < |clock| ==> s.now <= clock[i])
    && (forall i, j :: 0 <= i < j < |clock| ==> clock[i] <= clock[j])
  }

  ghost function Conns(queue: seq<Queued>): set<nat> {
    set i | 0 <= i < |queue| :: queue[i].conn
  }

  ghost function QueueOf(g: Agent, d: Domain): seq<Queued> {
    if d in g.subscribers then g.subscribers[d].queue else []
  }

  ghost function AfterSubscribe(s: World, d: Domain, accepted: bool): World {
    var (g, res) := Subscribed(s.agent, d, accepted);
    match res
    case Err(_) => s
    case Ok(id) =>
      var queue := QueueOf(s.agent, d);
      s.(agent := g, alive := s.alive + {id}, home := s.home[id := d],
         handed := if queue == [] then s.handed else s.handed + [Handed(queue[0].conn, id, d)])
  }

  ghost function AfterDispatch(s: World, d: Domain): World {
    var conn := s.nextConn;
    var (g, res) := Dispatched(s.agent, d, conn, s.now);
    var s1 := s.(agent := g, nextConn := conn + 1, origin := s.origin[conn := d]);
    match res
    case Err(_) => s1.(dropped := s.dropped + {conn})
    case Ok(Some(id)) => s1.(handed := s.handed + [Handed(conn, id, d)])
    case Ok(None) => s1
  }

  /** Removing a domain's entry gives up whatever was queued there. */
  ghost function AfterDrop(s: World, id: nat): World
    requires Enabled(s, DropSubscription(id))
  {
    var d := s.home[id];
    var g := SubRemoved(s.agent, d, id).0;
    s.(agent := g, alive := s.alive - {id},
       dropped := if d in g.subscribers then s.dropped else s.dropped + Conns(QueueOf(s.agent, d)))
  }

  ghost function AfterClear(s: World, d: Domain, clock: seq<nat>): World
    requires ClockOk(s, d, clock)
  {
    var g := TimedOut(s.agent, d, clock);
    s.(agent := g,
       now := if clock == [] then s.now else clock[|clock| - 1],
       dropped := s.dropped + (Conns(QueueOf(s.agent, d)) - Conns(QueueOf(g, d))))
  }

  ghost function ReceivedBy(s: World, id: nat): seq<nat> {
    if id in s.received then s.received[id] else []
  }

  ghost function AfterReceive(s: World, id: nat): World
    requires Enabled(s, Receive(id))
  {
    var buffer := Buffered(s.agent, id);
    s.(agent := s.agent.(channels := s.agent.channels[id := buffer[1..]]),
       received := s.received[id := ReceivedBy(s, id) + [buffer[0]]])
  }

  ghost function Apply(s: World, step: Step): World
    requires Enabled(s, step)
  {
    match step
    case Subscribe(d, accepted) => AfterSubscribe(s, d, accepted)
    case Dispatch(d) => AfterDispatch(s, d)
    case Unsubscribe(d) =>
      s.(agent := Unsubscribed(s.agent, d).0, dropped := s.dropped + Conns(QueueOf(s.agent, d)))
    case DropSubscription(id) => AfterDrop(s, id)
    case Receive(id) => AfterReceive(s, id)
    case ClearTimeouts(d, clock) => AfterClear(s, d, clock)
    case Tick(delay) => s.(now := s.now + delay)
  }

  ghost predicate IsRun(s: World, steps: seq<Step>)
    decreases |steps|
  {
    steps == [] || (Enabled(s, steps[0]) && IsRun(Apply(s, steps[0]), steps[1..]))
  }

  ghost function Exec(s: World, steps: seq<Step>): World
    requires IsRun(s, steps)
    decreases |steps|
  {
    if steps == [] then s else Exec(Apply(s, steps[0]), steps[1..])
  }

  ghost predicate Reachable(s: World, reuse: bool, timeout: nat) {
    exists steps :: IsRun(Init(reuse, timeout), steps) && Exec(Init(reuse, timeout), steps) == s
  }

  // Subscriptions

  /** Every entry has a subscription, and all of its subscriptions have a live receiver. */
  ghost predicate SubsOk(s: World) {
    && (forall d :: d in s.agent.subscribers ==> s.agent.subscribers[d].subscriptions != {})
    && (forall d, id :: d in s.agent.subscribers && id in s.agent.subscribers[d].subscriptions ==>
          id in s.alive && id in s.home && s.home[id] == d)
    && (forall id :: id in s.home ==> id < s.agent.nextSub)
    && (forall id :: id in s.alive ==> id in s.home)
  }

  ghost predicate ModeOk(s: World) {
    s.agent.reuse ==> forall d :: d in s.agent.subscribers ==> s.agent.subscribers[d].queue == []
  }

  /** In exclusive mode no subscription is handed two connections. */
  ghost predicate OnceOk(s: World) {
    && (forall k :: 0 <= k < |s.handed| ==> s.handed[k].sub in s.home && s.home[s.handed[k].sub] == s.handed[k].domain)
    && (!s.agent.reuse ==> forall j, k :: 0 <= j < k < |s.handed| ==> s.handed[j].sub != s.handed[k].sub)
  }

  // Connections

  ghost predicate Increasing(queue: seq<Queued>) {
    forall i, j :: 0 <= i < j < |queue| ==> queue[i].conn < queue[j].conn
  }

  ghost predicate WasHanded(handed: seq<Handed>, conn: nat) {
    exists k :: 0 <= k < |handed| && handed[k].conn == conn
  }

  /** Queued connections are in dispatch and time order, later than all handed out, and nowhere else. */
  ghost predicate QueueOk(s: World, d: Domain, queue: seq<Queued>) {
    && Increasing(queue)
    && SortedByTime(queue)
    && (forall i :: 0 <= i < |queue| ==>
          && queue[i].at <= s.now
          && queue[i].conn < s.nextConn && queue[i].conn in s.origin && s.origin[queue[i].conn] == d
          && queue[i].conn !in s.dropped)
    && (forall i, k :: 0 <= i < |queue| && 0 <= k < |s.handed| && s.handed[k].domain == d ==> s.handed[k].conn < queue[i].conn)
  }

  ghost predicate QueuesOk(s: World) {
    forall d :: d in s.agent.subscribers ==> QueueOk(s, d, s.agent.subscribers[d].queue)
  }

  /** Per domain, connections are handed out in dispatch order, and never given up as well. */
  ghost predicate HandedOk(s: World) {
    && (forall k :: 0 <= k < |s.handed| ==>
          && s.handed[k].conn < s.nextConn && s.handed[k].conn in s.origin
          && s.origin[s.handed[k].conn] == s.handed[k].domain && s.handed[k].conn !in s.dropped)
    && (forall j, k :: 0 <= j < k < |s.handed| && s.handed[j].domain == s.handed[k].domain ==> s.handed[j].conn < s.handed[k].conn)
  }

  ghost predicate Placed(s: World, conn: nat) {
    && conn in s.origin
    && (conn in s.dropped || WasHanded(s.handed, conn) || conn in Conns(QueueOf(s.agent, s.origin[conn])))
  }

  /** No connection disappears. */
  ghost predicate AllPlaced(s: World) {
    && (forall c: nat :: c < s.nextConn ==> Placed(s, c))
    && (forall c :: c in s.dropped ==> c < s.nextConn)
    && (forall c :: c in s.origin ==> c < s.nextConn)
  }

  ghost predicate HandedTo(handed: seq<Handed>, conn: nat, sub: nat) {
    exists k :: 0 <= k < |handed| && handed[k].conn == conn && handed[k].sub == sub
  }

  /** A channel buffers at most one connection, and one that was handed to its own subscription. */
  ghost predicate ChannelsOk(s: World) {
    forall id :: id in s.agent.channels ==>
      && |s.agent.channels[id]| <= CHANNEL_CAPACITY
      && forall i :: 0 <= i < |s.agent.channels[id]| ==> HandedTo(s.handed, s.agent.channels[id][i], id)
  }

  ghost predicate Inv(s: World) {
    SubsOk(s) && ModeOk(s) && OnceOk(s) && QueuesOk(s) && HandedOk(s) && AllPlaced(s) && ChannelsOk(s)
  }

  lemma HandedToSnoc(handed: seq<Handed>, h: Handed, conn: nat, sub: nat)
    ensures HandedTo(handed, conn, sub) ==> HandedTo(handed + [h], conn, sub)
    ensures HandedTo(handed + [h], h.conn, h.sub)
  {
    if HandedTo(handed, conn, sub) {
      var k :| 0 <= k < |handed| && handed[k].conn == conn && handed[k].sub == sub;
      assert (handed + [h])[k] == handed[k];
    }
    assert (handed + [h])[|handed|] == h;
  }

  lemma SubscribeKeepsChannels(s: World, d: Domain, accepted: bool)
    requires ChannelsOk(s)
    ensures ChannelsOk(AfterSubscribe(s, d, accepted))
  {
    var queue, id := QueueOf(s.agent, d), s.agent.nextSub;
    if queue != [] {
      forall c, i
        ensures HandedTo(s.handed, c, i) ==> HandedTo(s.handed + [Handed(queue[0].conn, id, d)], c, i)
        ensures HandedTo(s.handed + [Handed(queue[0].conn, id, d)], queue[0].conn, id)
      {
        HandedToSnoc(s.handed, Handed(queue[0].conn, id, d), c, i);
      }
    }
    hide HandedTo;
  }

  lemma DispatchKeepsChannels(s: World, d: Domain)
    requires ChannelsOk(s)
    ensures ChannelsOk(AfterDispatch(s, d))
  {
    hide HandedTo;
    if d in s.agent.subscribers && s.agent.reuse && s.agent.subscribers[d].subscriptions != {} {
      var h := Handed(s.nextConn, MinOf(s.agent.subscribers[d].subscriptions), d);
      forall c, i
        ensures HandedTo(s.handed, c, i) ==> HandedTo(s.handed + [h], c, i)
        ensures HandedTo(s.handed + [h], h.conn, h.sub)
      {
        HandedToSnoc(s.handed, h, c, i);
      }
    }
  }

  // Subscribe

  lemma SubscribeKeepsMode(s: World, d: Domain, accepted: bool)
    requires ModeOk(s)
    ensures ModeOk(AfterSubscribe(s, d, accepted))
  {}

  lemma SubscribeKeepsOnce(s: World, d: Domain, accepted: bool)
    requires SubsOk(s) && OnceOk(s)
    ensures OnceOk(AfterSubscribe(s, d, accepted))
  {
    assert s.agent.nextSub !in s.home;
    hide SubsOk;
  }

  lemma SubscribeKeepsSubs(s: World, d: Domain, accepted: bool)
    requires SubsOk(s) && ModeOk(s) && OnceOk(s)
    ensures SubsOk(AfterSubscribe(s, d, accepted)) && ModeOk(AfterSubscribe(s, d, accepted))
    ensures OnceOk(AfterSubscribe(s, d, accepted))
  {
    SubscribeKeepsMode(s, d, accepted);
    SubscribeKeepsOnce(s, d, accepted);
    hide ModeOk, OnceOk;
  }

  /** Whatever is left of a queue is in order as before. */
  lemma SubsequenceInOrder(sub: seq<Queued>, queue: seq<Queued>)
    requires Subsequence(sub, queue)
    ensures forall x :: x in sub ==> x in queue
    ensures Increasing(queue) ==> Increasing(sub)
    ensures SortedByTime(queue) ==> SortedByTime(sub)
  {
    var picks :| Picks(picks, sub, queue);
    forall i, j | 0 <= i < j < |sub|
      ensures Increasing(queue) ==> sub[i].conn < sub[j].conn
      ensures SortedByTime(queue) ==> sub[i].at <= sub[j].at
    {
      assert picks[i] < picks[j] && sub[i] == queue[picks[i]] && sub[j] == queue[picks[j]];
    }
  }

  lemma SubsequenceKeepsQueue(s: World, s': World, d: Domain, queue: seq<Queued>, sub: seq<Queued>)
    requires QueueOk(s, d, queue) && Subsequence(sub, queue)
    requires s'.now >= s.now && s'.nextConn == s.nextConn && s'.origin == s.origin
    requires forall x :: x in sub ==> x.conn !in s'.dropped
    requires forall x, k :: x in sub && 0 <= k < |s'.handed| && s'.handed[k].domain == d ==> s'.handed[k].conn < x.conn
    ensures QueueOk(s', d, sub)
  {
    SubsequenceInOrder(sub, queue);
    hide Subsequence, Increasing, SortedByTime;
    forall i | 0 <= i < |sub|
      ensures sub[i] in sub && sub[i] in queue
    {}
  }

  lemma TailIsSubsequence(queue: seq<Queued>)
    requires queue != []
    ensures Subsequence(queue[1..], queue)
  {
    assert Picks(seq(|queue| - 1, i => i + 1), queue[1..], queue);
  }

  lemma WholeIsSubsequence(queue: seq<Queued>)
    ensures Subsequence(queue, queue)
  {
    assert Picks(seq(|queue|, i => i), queue, queue);
  }

  lemma QueueMember(s: World, d: Domain, queue: seq<Queued>, x: Queued)
    requires QueueOk(s, d, queue) && x in queue
    ensures x.conn in s.origin && s.origin[x.conn] == d && x.conn !in s.dropped
    ensures forall k :: 0 <= k < |s.handed| && s.handed[k].domain == d ==> s.handed[k].conn < x.conn
    ensures queue != [] && x in queue[1..] ==> queue[0].conn < x.conn
  {
    var i :| 0 <= i < |queue| && queue[i] == x;
    if queue != [] && x in queue[1..] {
      var j :| 0 <= j < |queue[1..]| && queue[1..][j] == x;
      assert queue[j + 1] == x;
    }
  }

  /** The head of a queue is handed out. */
  lemma HeadHandedKeepsQueue(s: World, s': World, d: Domain, queue: seq<Queued>, id: nat)
    requires QueueOk(s, d, queue) && queue != []
    requires s'.now == s.now && s'.nextConn == s.nextConn && s'.origin == s.origin && s'.dropped == s.dropped
    requires s'.handed == s.handed + [Handed(queue[0].conn, id, d)]
    ensures QueueOk(s', d, queue[1..])
  {
    TailIsSubsequence(queue);
    hide QueueOk, Subsequence;
    forall x | x in queue[1..]
      ensures x.conn !in s'.dropped
      ensures forall k :: 0 <= k < |s'.handed| && s'.handed[k].domain == d ==> s'.handed[k].conn < x.conn
    {
      QueueMember(s, d, queue, x);
    }
    SubsequenceKeepsQueue(s, s', d, queue, queue[1..]);
  }

  lemma SubscribeKeepsQueue(s: World, d: Domain, accepted: bool, e: Domain)
    requires QueuesOk(s) && e in AfterSubscribe(s, d, accepted).agent.subscribers
    ensures QueueOk(AfterSubscribe(s, d, accepted), e, AfterSubscribe(s, d, accepted).agent.subscribers[e].queue)
  {
    var s', queue := AfterSubscribe(s, d, accepted), QueueOf(s.agent, e);
    assert QueueOk(s, e, queue);
    if accepted && e == d && queue != [] {
      assert s'.agent.subscribers[e].queue == queue[1..];
      hide QueueOk, QueuesOk;
      HeadHandedKeepsQueue(s, s', d, queue, s.agent.nextSub);
    } else {
      assert s'.agent.subscribers[e].queue == queue;
      hide QueuesOk, Increasing, SortedByTime;
    }
  }

  lemma SubscribeKeepsHanded(s: World, d: Domain, accepted: bool)
    requires QueuesOk(s) && HandedOk(s)
    ensures HandedOk(AfterSubscribe(s, d, accepted))
  {
    if d in s.agent.subscribers {
      assert QueueOk(s, d, s.agent.subscribers[d].queue);
    }
    hide QueuesOk, Increasing, SortedByTime;
  }

  lemma SubscribeKeepsQueues(s: World, d: Domain, accepted: bool)
    requires QueuesOk(s) && HandedOk(s)
    ensures QueuesOk(AfterSubscribe(s, d, accepted)) && HandedOk(AfterSubscribe(s, d, accepted))
  {
    SubscribeKeepsHanded(s, d, accepted);
    forall e | e in AfterSubscribe(s, d, accepted).agent.subscribers
      ensures QueueOk(AfterSubscribe(s, d, accepted), e, AfterSubscribe(s, d, accepted).agent.subscribers[e].queue)
    {
      SubscribeKeepsQueue(s, d, accepted, e);
    }
    hide AfterSubscribe, QueueOk, HandedOk;
  }

  lemma HandedSnoc(handed: seq<Handed>, h: Handed, conn: nat)
    ensures WasHanded(handed + [h], conn) <==> WasHanded(handed, conn) || conn == h.conn
  {
    if WasHanded(handed, conn) {
      var k :| 0 <= k < |handed| && handed[k].conn == conn;
      assert (handed + [h])[k] == handed[k];
    }
    assert (handed + [h])[|handed|] == h;
  }

  lemma ConnsSplit(queue: seq<Queued>)
    requires queue != []
    ensures Conns(queue) == {queue[0].conn} + Conns(queue[1..])
  {
    forall c | c in Conns(queue)
      ensures c in {queue[0].conn} + Conns(queue[1..])
    {
      var i :| 0 <= i < |queue| && queue[i].conn == c;
      assert i > 0 ==> queue[1..][i - 1].conn == c;
    }
  }

  lemma SubscribeKeepsPlaces(s: World, d: Domain, accepted: bool)
    requires AllPlaced(s)
    ensures AllPlaced(AfterSubscribe(s, d, accepted))
  {
    var s', queue := AfterSubscribe(s, d, accepted), QueueOf(s.agent, d);
    if queue != [] {
      ConnsSplit(queue);
    }
    forall c: nat | c < s'.nextConn
      ensures Placed(s', c)
    {
      assert Placed(s, c);
      if queue != [] {
        HandedSnoc(s.handed, Handed(queue[0].conn, s.agent.nextSub, d), c);
      }
    }
  }

  // Dispatch

  lemma DispatchKeepsSubs(s: World, d: Domain)
    requires SubsOk(s) && ModeOk(s) && OnceOk(s)
    ensures SubsOk(AfterDispatch(s, d)) && ModeOk(AfterDispatch(s, d)) && OnceOk(AfterDispatch(s, d))
  {}

  lemma DispatchKeepsHanded(s: World, d: Domain)
    requires HandedOk(s) && AllPlaced(s)
    ensures HandedOk(AfterDispatch(s, d))
  {
    hide Placed, MinOf;
  }

  /** The bookkeeping of one dispatch for `d`: a new connection that is dropped, handed out, or neither. */
  ghost predicate Records(s: World, s': World, d: Domain) {
    && s'.now == s.now && s'.nextConn == s.nextConn + 1 && s'.origin == s.origin[s.nextConn := d]
    && (s'.dropped == s.dropped || s'.dropped == s.dropped + {s.nextConn})
    && (s'.handed == s.handed || exists id :: s'.handed == s.handed + [Handed(s.nextConn, id, d)])
  }

  lemma RecordsKeepsQueue(s: World, s': World, d: Domain, e: Domain, queue: seq<Queued>)
    requires QueueOk(s, e, queue) && Records(s, s', d)
    requires s'.handed != s.handed ==> e != d || queue == []
    ensures QueueOk(s', e, queue)
  {}

  lemma AppendKeepsQueue(s: World, s': World, d: Domain, queue: seq<Queued>)
    requires QueueOk(s, d, queue) && HandedOk(s) && AllPlaced(s)
    requires Records(s, s', d) && s'.handed == s.handed && s'.dropped == s.dropped
    ensures QueueOk(s', d, queue + [Queued(s.now, s.nextConn)])
  {
    RecordsKeepsQueue(s, s', d, d, queue);
    hide Placed;
  }

  lemma DispatchRecords(s: World, d: Domain)
    ensures Records(s, AfterDispatch(s, d), d)
  {
    hide MinOf;
  }

  lemma DispatchKeepsQueue(s: World, d: Domain, e: Domain)
    requires QueuesOk(s) && HandedOk(s) && ModeOk(s) && AllPlaced(s)
    requires e in AfterDispatch(s, d).agent.subscribers
    ensures QueueOk(AfterDispatch(s, d), e, AfterDispatch(s, d).agent.subscribers[e].queue)
  {
    assert QueueOk(s, e, s.agent.subscribers[e].queue);
    DispatchRecords(s, d);
    hide MinOf, QueuesOk, QueueOk, Records, HandedOk, AllPlaced;
    var s', queue := AfterDispatch(s, d), s.agent.subscribers[e].queue;
    if e == d && !(s.agent.reuse && s.agent.subscribers[d].subscriptions != {}) {
      AppendKeepsQueue(s, s', d, queue);
    } else {
      RecordsKeepsQueue(s, s', d, e, queue);
    }
  }

  lemma DispatchKeepsQueues(s: World, d: Domain)
    requires QueuesOk(s) && HandedOk(s) && ModeOk(s) && AllPlaced(s)
    ensures QueuesOk(AfterDispatch(s, d)) && HandedOk(AfterDispatch(s, d))
  {
    DispatchKeepsHanded(s, d);
    forall e | e in AfterDispatch(s, d).agent.subscribers
      ensures QueueOk(AfterDispatch(s, d), e, AfterDispatch(s, d).agent.subscribers[e].queue)
    {
      DispatchKeepsQueue(s, d, e);
    }
    hide AfterDispatch, QueueOk, HandedOk;
  }

  lemma ConnsSnoc(queue: seq<Queued>, q: Queued)
    ensures Conns(queue + [q]) == Conns(queue) + {q.conn}
  {
    forall c | c in Conns(queue) + {q.conn}
      ensures c in Conns(queue + [q])
    {
      if c == q.conn {
        assert (queue + [q])[|queue|].conn == c;
      } else {
        var i :| 0 <= i < |queue| && queue[i].conn == c;
        assert (queue + [q])[i].conn == c;
      }
    }
  }

  lemma DispatchKeepsPlaces(s: World, d: Domain)
    requires AllPlaced(s)
    ensures AllPlaced(AfterDispatch(s, d))
  {
    var s', conn := AfterDispatch(s, d), s.nextConn;
    ConnsSnoc(QueueOf(s.agent, d), Queued(s.now, conn));
    forall c: nat | c < s'.nextConn
      ensures Placed(s', c)
    {
      assert c < conn ==> Placed(s, c);
      if |s'.handed| > |s.handed| {
        HandedSnoc(s.handed, s'.handed[|s.handed|], c);
      }
    }
  }

  // Giving up queued connections

  /**
   * The domain's entry goes away, or its queue shrinks to a subsequence; what was queued and no longer
   * is has been dropped.
   */
  ghost predicate GivesUp(s: World, s': World, d: Domain) {
    && s'.now >= s.now && s'.nextConn == s.nextConn && s'.handed == s.handed && s'.origin == s.origin && s'.home == s.home
    && s'.agent.reuse == s.agent.reuse && s'.agent.nextSub == s.agent.nextSub
    && s'.agent.subscribers.Keys <= s.agent.subscribers.Keys
    && (forall e :: e in s.agent.subscribers && e != d ==> e in s'.agent.subscribers && s'.agent.subscribers[e] == s.agent.subscribers[e])
    && s'.dropped == s.dropped + (Conns(QueueOf(s.agent, d)) - Conns(QueueOf(s'.agent, d)))
    && Subsequence(QueueOf(s'.agent, d), QueueOf(s.agent, d))
  }

  /** A newly dropped connection came from this domain's queue and is no longer in it. */
  lemma NewlyDropped(s: World, s': World, d: Domain, c: nat)
    requires QueuesOk(s) && HandedOk(s) && GivesUp(s, s', d)
    requires c in s'.dropped && c !in s.dropped
    ensures c in s.origin && s.origin[c] == d && c !in Conns(QueueOf(s'.agent, d))
    ensures forall k :: 0 <= k < |s.handed| ==> s.handed[k].conn != c
  {
    var before := QueueOf(s.agent, d);
    var i :| 0 <= i < |before| && before[i].conn == c;
    assert QueueOk(s, d, before);
  }

  lemma GivesUpLeavesSubsequence(s: World, s': World, d: Domain, e: Domain)
    requires GivesUp(s, s', d) && e in s'.agent.subscribers
    ensures e in s.agent.subscribers && Subsequence(s'.agent.subscribers[e].queue, s.agent.subscribers[e].queue)
  {
    WholeIsSubsequence(s.agent.subscribers[e].queue);
    hide Conns, Subsequence;
  }

  /** What stays queued was not given up, and comes after everything handed out for its domain. */
  lemma StaysQueued(s: World, s': World, d: Domain, e: Domain, x: Queued)
    requires QueuesOk(s) && HandedOk(s) && GivesUp(s, s', d)
    requires e in s'.agent.subscribers && e in s.agent.subscribers
    requires x in s'.agent.subscribers[e].queue && x in s.agent.subscribers[e].queue
    ensures x.conn !in s'.dropped
    ensures forall k :: 0 <= k < |s'.handed| && s'.handed[k].domain == e ==> s'.handed[k].conn < x.conn
  {
    assert QueueOk(s, e, s.agent.subscribers[e].queue);
    QueueMember(s, e, s.agent.subscribers[e].queue, x);
    InConns(s'.agent.subscribers[e].queue, x);
    if x.conn in s'.dropped {
      NewlyDropped(s, s', d, x.conn);
    }
    hide QueueOk, QueuesOk, HandedOk, Subsequence, Conns;
  }

  lemma QueueKept(s: World, s': World, d: Domain, e: Domain)
    requires QueuesOk(s) && HandedOk(s) && GivesUp(s, s', d)
    requires e in s'.agent.subscribers
    ensures QueueOk(s', e, s'.agent.subscribers[e].queue)
  {
    GivesUpLeavesSubsequence(s, s', d, e);
    var before, queue := s.agent.subscribers[e].queue, s'.agent.subscribers[e].queue;
    assert QueueOk(s, e, before);
    hide QueueOk, QueuesOk, HandedOk, Subsequence, Conns;
    SubsequenceInOrder(queue, before);
    forall x | x in queue
      ensures x.conn !in s'.dropped
      ensures forall k :: 0 <= k < |s'.handed| && s'.handed[k].domain == e ==> s'.handed[k].conn < x.conn
    {
      StaysQueued(s, s', d, e, x);
    }
    hide Increasing, SortedByTime;
    SubsequenceKeepsQueue(s, s', e, before, queue);
  }

  lemma InConns(queue: seq<Queued>, x: Queued)
    requires x in queue
    ensures x.conn in Conns(queue)
  {}

  lemma GivesUpKeepsHanded(s: World, s': World, d: Domain)
    requires QueuesOk(s) && HandedOk(s) && GivesUp(s, s', d)
    ensures HandedOk(s')
  {
    forall k | 0 <= k < |s.handed|
      ensures s.handed[k].conn !in s'.dropped
    {
      if s.handed[k].conn in s'.dropped {
        NewlyDropped(s, s', d, s.handed[k].conn);
      }
    }
    hide Conns, Subsequence, QueuesOk;
  }

  lemma GivesUpKeepsQueues(s: World, s': World, d: Domain)
    requires QueuesOk(s) && HandedOk(s) && GivesUp(s, s', d)
    ensures QueuesOk(s') && HandedOk(s')
  {
    forall e | e in s'.agent.subscribers
      ensures QueueOk(s', e, s'.agent.subscribers[e].queue)
    {
      QueueKept(s, s', d, e);
    }
    GivesUpKeepsHanded(s, s', d);
    hide GivesUp, HandedOk, QueueOk;
  }

  lemma GivesUpKeepsPlaces(s: World, s': World, d: Domain)
    requires AllPlaced(s) && QueuesOk(s) && GivesUp(s, s', d)
    ensures AllPlaced(s')
  {
    forall c | c in Conns(QueueOf(s.agent, d))
      ensures c < s.nextConn
    {
      var i :| 0 <= i < |QueueOf(s.agent, d)| && QueueOf(s.agent, d)[i].conn == c;
    }
    forall c: nat | c < s'.nextConn
      ensures Placed(s', c)
    {
      assert Placed(s, c);
    }
  }

  lemma UnsubscribeGivesUp(s: World, d: Domain)
    ensures GivesUp(s, Apply(s, Unsubscribe(d)), d)
  {
    assert Conns([]) == {};
    hide Conns, GivesUp;
    GivesUpAllOrNothing(s, Apply(s, Unsubscribe(d)), d);
  }

  lemma SubRemovedElsewhere(g: Agent, d: Domain, id: nat)
    ensures var g' := SubRemoved(g, d, id).0;
            && g'.reuse == g.reuse && g'.nextSub == g.nextSub
            && g'.subscribers.Keys <= g.subscribers.Keys
            && (forall e :: e in g.subscribers && e != d ==> e in g'.subscribers && g'.subscribers[e] == g.subscribers[e])
            && (d in g'.subscribers ==> g'.subscribers[d].queue == g.subscribers[d].queue)
  {}

  /** Either the queue is kept, or all of it is given up. */
  lemma GivesUpAllOrNothing(s: World, s': World, d: Domain)
    requires s' == s.(agent := s'.agent, alive := s'.alive, dropped := s'.dropped)
    requires s'.agent.reuse == s.agent.reuse && s'.agent.nextSub == s.agent.nextSub
    requires s'.agent.subscribers.Keys <= s.agent.subscribers.Keys
    requires forall e :: e in s.agent.subscribers && e != d ==> e in s'.agent.subscribers && s'.agent.subscribers[e] == s.agent.subscribers[e]
    requires if d in s'.agent.subscribers then s'.dropped == s.dropped && QueueOf(s'.agent, d) == QueueOf(s.agent, d)
             else s'.dropped == s.dropped + Conns(QueueOf(s.agent, d))
    ensures GivesUp(s, s', d)
  {
    var before, queue := QueueOf(s.agent, d), QueueOf(s'.agent, d);
    assert Conns([]) == {};
    WholeIsSubsequence(before);
    assert Picks([], [], before);
    assert Subsequence(queue, before);
    hide Conns, Subsequence;
    if d in s'.agent.subscribers {
      assert Conns(before) - Conns(queue) == {};
    } else {
      assert Conns(before) - Conns(queue) == Conns(before);
    }
  }

  lemma DropGivesUp(s: World, id: nat)
    requires Enabled(s, DropSubscription(id))
    ensures GivesUp(s, AfterDrop(s, id), s.home[id])
  {
    SubRemovedElsewhere(s.agent, s.home[id], id);
    hide SubRemoved, Conns, GivesUp;
    GivesUpAllOrNothing(s, AfterDrop(s, id), s.home[id]);
  }

  lemma ClearLeavesSubsequence(s: World, d: Domain, clock: seq<nat>)
    requires ClockOk(s, d, clock)
    ensures Subsequence(QueueOf(TimedOut(s.agent, d, clock), d), QueueOf(s.agent, d))
  {
    if d in s.agent.subscribers {
      TimeoutRemovesTooOld(s.agent.subscribers[d].queue, clock, s.agent.timeout);
    } else {
      WholeIsSubsequence([]);
    }
    hide Picks, Retained, KeptAt;
  }

  lemma ClearAdvances(s: World, d: Domain, clock: seq<nat>)
    requires ClockOk(s, d, clock)
    ensures AfterClear(s, d, clock).now >= s.now
  {
    assert clock != [] ==> s.now <= clock[|clock| - 1];
  }

  lemma ClearGivesUp(s: World, d: Domain, clock: seq<nat>)
    requires ClockOk(s, d, clock)
    ensures GivesUp(s, AfterClear(s, d, clock), d)
  {
    ClearLeavesSubsequence(s, d, clock);
    ClearAdvances(s, d, clock);
    hide Conns, Subsequence, Retained;
  }

  /** Removing whole entries, or one subscription of several, keeps the rest as it was. */
  lemma UnsubscribeKeepsSubs(s: World, d: Domain)
    requires SubsOk(s) && ModeOk(s) && OnceOk(s)
    ensures var s' := Apply(s, Unsubscribe(d)); SubsOk(s') && ModeOk(s') && OnceOk(s')
  {}

  lemma DropKeepsSubs(s: World, id: nat)
    requires SubsOk(s) && ModeOk(s) && OnceOk(s) && Enabled(s, DropSubscription(id))
    ensures var s' := AfterDrop(s, id); SubsOk(s') && ModeOk(s') && OnceOk(s')
  {
    var d := s.home[id];
    if d in s.agent.subscribers {
      var subs := s.agent.subscribers[d].subscriptions;
      assert subs == {id} || subs - {id} != {} || id !in subs;
    }
  }

  lemma ClearKeepsSubs(s: World, d: Domain, clock: seq<nat>)
    requires SubsOk(s) && ModeOk(s) && OnceOk(s) && ClockOk(s, d, clock)
    ensures var s' := AfterClear(s, d, clock); SubsOk(s') && ModeOk(s') && OnceOk(s')
  {}

  // Runs

  lemma OtherStepKeepsInv(s: World, step: Step)
    requires Inv(s) && Enabled(s, step) && (step.Receive? || step.Tick?)
    ensures Inv(Apply(s, step))
  {
    var s' := Apply(s, step);
    forall c: nat | c < s'.nextConn
      ensures Placed(s', c)
    {
      assert Placed(s, c);
    }
    forall d | d in s'.agent.subscribers
      ensures QueueOk(s', d, s'.agent.subscribers[d].queue)
    {
      assert QueueOk(s, d, s.agent.subscribers[d].queue);
    }
  }

  lemma StepKeepsInv(s: World, step: Step)
    requires Inv(s) && Enabled(s, step)
    ensures Inv(Apply(s, step))
  {
    hide SubsOk, ModeOk, OnceOk, QueuesOk, HandedOk, AllPlaced, GivesUp;
    match step {
      case Subscribe(d, accepted) =>
        SubscribeKeepsSubs(s, d, accepted);
        SubscribeKeepsQueues(s, d, accepted);
        SubscribeKeepsPlaces(s, d, accepted);
        SubscribeKeepsChannels(s, d, accepted);
      case Dispatch(d) =>
        DispatchKeepsSubs(s, d);
        DispatchKeepsQueues(s, d);
        DispatchKeepsPlaces(s, d);
        DispatchKeepsChannels(s, d);
      case Unsubscribe(d) =>
        UnsubscribeKeepsSubs(s, d);
        UnsubscribeGivesUp(s, d);
        GivesUpKeepsQueues(s, Apply(s, step), d);
        GivesUpKeepsPlaces(s, Apply(s, step), d);
      case DropSubscription(id) =>
        DropKeepsSubs(s, id);
        DropGivesUp(s, id);
        GivesUpKeepsQueues(s, Apply(s, step), s.home[id]);
        GivesUpKeepsPlaces(s, Apply(s, step), s.home[id]);
      case ClearTimeouts(d, clock) =>
        ClearKeepsSubs(s, d, clock);
        ClearGivesUp(s, d, clock);
        GivesUpKeepsQueues(s, Apply(s, step), d);
        GivesUpKeepsPlaces(s, Apply(s, step), d);
      case Receive(_) => OtherStepKeepsInv(s, step);
      case Tick(_) => OtherStepKeepsInv(s, step);
    }
  }

  lemma StepKeepsMode(s: World, step: Step)
    requires Enabled(s, step)
    ensures Apply(s, step).agent.reuse == s.agent.reuse
  {
    hide MinOf, Retained;
  }

  lemma {:induction false} RunKeepsInv(s: World, steps: seq<Step>)
    requires Inv(s) && IsRun(s, steps)
    ensures Inv(Exec(s, steps)) && Exec(s, steps).agent.reuse == s.agent.reuse
    decreases |steps|
  {
    hide Inv;
    if steps != [] {
      StepKeepsInv(s, steps[0]);
      StepKeepsMode(s, steps[0]);
      RunKeepsInv(Apply(s, steps[0]), steps[1..]);
    }
  }

  lemma ReachableInv(s: World, reuse: bool, timeout: nat)
    requires Reachable(s, reuse, timeout)
    ensures Inv(s) && s.agent.reuse == reuse
  {
    var steps :| IsRun(Init(reuse, timeout), steps) && Exec(Init(reuse, timeout), steps) == s;
    RunKeepsInv(Init(reuse, timeout), steps);
  }

  /** In every run an entry has a subscription with a live receiver, and in reuse mode nothing waits. */
  lemma EntriesAreServed(s: World, reuse: bool, timeout: nat, d: Domain)
    requires Reachable(s, reuse, timeout) && d in s.agent.subscribers
    ensures s.agent.subscribers[d].subscriptions != {}
    ensures forall id :: id in s.agent.subscribers[d].subscriptions ==> id in s.alive
    ensures reuse ==> s.agent.subscribers[d].queue == []
  {
    ReachableInv(s, reuse, timeout);
    hide QueuesOk, HandedOk, AllPlaced, OnceOk;
  }

  /** In every exclusive run a subscription is handed at most one connection. */
  lemma ExclusiveHandsOutOnce(s: World, timeout: nat, j: nat, k: nat)
    requires Reachable(s, false, timeout) && j < k < |s.handed|
    ensures s.handed[j].sub != s.handed[k].sub
  {
    ReachableInv(s, false, timeout);
    hide SubsOk, QueuesOk, HandedOk, AllPlaced, ModeOk;
  }

  /** In every run each dispatched connection is in exactly one place: queued, handed to one subscription, or dropped. */
  lemma ExactlyOnePlace(s: World, reuse: bool, timeout: nat, conn: nat)
    requires Reachable(s, reuse, timeout) && conn < s.nextConn
    ensures conn in s.origin
    ensures var queued := conn in Conns(QueueOf(s.agent, s.origin[conn]));
            var handed := WasHanded(s.handed, conn);
            var dropped := conn in s.dropped;
            && (queued || handed || dropped)
            && !(queued && handed) && !(queued && dropped) && !(handed && dropped)
    ensures forall d :: d != s.origin[conn] ==> conn !in Conns(QueueOf(s.agent, d))
    ensures forall j, k :: 0 <= j < k < |s.handed| ==> s.handed[j].conn != s.handed[k].conn
  {
    ReachableInv(s, reuse, timeout);
    assert Placed(s, conn);
    hide SubsOk, ModeOk, OnceOk, AllPlaced;
    forall d | conn in Conns(QueueOf(s.agent, d))
      ensures d == s.origin[conn] && conn !in s.dropped && !WasHanded(s.handed, conn)
    {
      assert QueueOk(s, d, s.agent.subscribers[d].queue);
      var i :| 0 <= i < |QueueOf(s.agent, d)| && QueueOf(s.agent, d)[i].conn == conn;
    }
  }

  /** In every run a subscriber receives a connection that was handed to it, for its own domain. */
  lemma ReceivesItsOwn(s: World, reuse: bool, timeout: nat, id: nat)
    requires Reachable(s, reuse, timeout) && Enabled(s, Receive(id))
    ensures var conn := Buffered(s.agent, id)[0];
            && HandedTo(s.handed, conn, id)
            && conn in s.origin && id in s.home && s.origin[conn] == s.home[id]
  {
    ReachableInv(s, reuse, timeout);
    var conn := Buffered(s.agent, id)[0];
    assert HandedTo(s.handed, conn, id);
    var k :| 0 <= k < |s.handed| && s.handed[k].conn == conn && s.handed[k].sub == id;
    hide SubsOk, ModeOk, QueuesOk, AllPlaced, ChannelsOk;
  }

  /** In every run, per domain, connections are handed out in the order they were dispatched. */
  lemma HandedInDispatchOrder(s: World, reuse: bool, timeout: nat, j: nat, k: nat)
    requires Reachable(s, reuse, timeout) && j < k < |s.handed| && s.handed[j].domain == s.handed[k].domain
    ensures s.handed[j].conn < s.handed[k].conn
    ensures s.handed[j].conn in s.origin && s.handed[j].sub in s.home && s.origin[s.handed[j].conn] == s.home[s.handed[j].sub]
  {
    ReachableInv(s, reuse, timeout);
    hide SubsOk, QueuesOk, AllPlaced, ModeOk;
  }

  /** No clock reading is before the queueing, so ages are plain differences. */
  lemma TooOldIff(s: World, d: Domain, clock: seq<nat>)
    requires d in s.agent.subscribers && ClockOk(s, d, clock) && QueueOk(s, d, s.agent.subscribers[d].queue)
    ensures var queue := s.agent.subscribers[d].queue;
            forall i: nat :: i < |queue| ==> (TooOld(queue, clock, s.agent.timeout, i) <==> clock[i] >= queue[i].at + s.agent.timeout)
  {
    var queue := s.agent.subscribers[d].queue;
    forall i: nat | i < |queue|
      ensures TooOld(queue, clock, s.agent.timeout, i) <==> clock[i] >= queue[i].at + s.agent.timeout
    {
      assert queue[i].at <= s.now <= clock[i];
    }
  }

  /**
   * In every run a timeout removes exactly the connections that are too old when the scan comes to them,
   * and keeps the rest in order. It removes a prefix for every timeout if and only if measured ages do
   * not rise along the queue, which is so whenever the clock stands still during the scan.
   */
  lemma TimeoutScan(s: World, reuse: bool, timeout: nat, d: Domain, clock: seq<nat>)
    requires Reachable(s, reuse, timeout) && d in s.agent.subscribers && ClockOk(s, d, clock)
    ensures var queue := s.agent.subscribers[d].queue;
            && Picks(KeptAt(queue, clock, s.agent.timeout), QueueOf(AfterClear(s, d, clock).agent, d), queue)
            && (forall i: nat :: i in KeptAt(queue, clock, s.agent.timeout) <==> i < |queue| && clock[i] < queue[i].at + s.agent.timeout)
            && (forall k: nat :: TooOldAreFirst(queue, clock, s.agent.timeout, k) ==> QueueOf(AfterClear(s, d, clock).agent, d) == queue[k..])
            && ((forall t: nat :: RemovesPrefix(queue, clock, t)) <==> AgesFall(queue, clock))
            && ((forall i, j :: 0 <= i < j < |clock| ==> clock[i] == clock[j]) ==> AgesFall(queue, clock))
  {
    ReachableInv(s, reuse, timeout);
    var queue := s.agent.subscribers[d].queue;
    assert QueueOk(s, d, queue);
    hide SubsOk, QueuesOk, AllPlaced, ModeOk, HandedOk, OnceOk;
    TimeoutRemovesTooOld(queue, clock, s.agent.timeout);
    PrefixForEveryTimeoutIff(queue, clock);
    forall k: nat | TooOldAreFirst(queue, clock, s.agent.timeout, k)
      ensures Retained(queue, clock, s.agent.timeout) == queue[k..]
    {
      RetainedIsRest(queue, clock, s.agent.timeout, k);
    }
    TooOldIff(s, d, clock);
    hide TooOldAreFirst, KeptAt, Retained, Picks, TooOld, RemovesPrefix, QueueOk;
  }

  lemma {:induction false} RunExtends(s: World, steps: seq<Step>, step: Step)
    requires IsRun(s, steps) && Enabled(Exec(s, steps), step)
    ensures IsRun(s, steps + [step]) && Exec(s, steps + [step]) == Apply(Exec(s, steps), step)
    decreases |steps|
  {
    hide Apply, Enabled;
    if steps == [] {
      assert [step][1..] == [];
    } else {
      RunExtends(Apply(s, steps[0]), steps[1..], step);
      assert (steps + [step])[1..] == steps[1..] + [step];
    }
  }

  lemma ReachableStep(s: World, reuse: bool, timeout: nat, step: Step)
    requires Reachable(s, reuse, timeout) && Enabled(s, step)
    ensures Reachable(Apply(s, step), reuse, timeout)
  {
    var steps :| IsRun(Init(reuse, timeout), steps) && Exec(Init(reuse, timeout), steps) == s;
    RunExtends(Init(reuse, timeout), steps, step);
  }

  /** One exclusive subscription and two connections that came at once. */
  lemma TwoQueued() returns (s: World)
    ensures Reachable(s, false, 5) && "a" in s.agent.subscribers && s.now == 0 && s.agent.timeout == 5
    ensures s.agent.subscribers["a"].queue == [Queued(0, 0), Queued(0, 1)]
  {
    var s0 := Init(false, 5);
    assert IsRun(s0, []) && Exec(s0, []) == s0;
    assert Reachable(s0, false, 5);
    hide Reachable;
    var s1 := Apply(s0, Subscribe("a", true));
    ReachableStep(s0, false, 5, Subscribe("a", true));
    var s2 := Apply(s1, Dispatch("a"));
    ReachableStep(s1, false, 5, Dispatch("a"));
    assert s2.agent.subscribers["a"].queue == [Queued(0, 0)];
    s := Apply(s2, Dispatch("a"));
    ReachableStep(s2, false, 5, Dispatch("a"));
  }

  /** A clock that advances between two entries makes the scan keep the first and drop the second. */
  lemma AdvancingClockSkips()
    ensures exists s ::
              && Reachable(s, false, 5) && "a" in s.agent.subscribers && ClockOk(s, "a", [4, 5])
              && QueueOf(s.agent, "a") == [Queued(0, 0), Queued(0, 1)]
              && QueueOf(AfterClear(s, "a", [4, 5]).agent, "a") == [Queued(0, 0)]
              && !RemovesPrefix(QueueOf(s.agent, "a"), [4, 5], 5)
  {
    var s := TwoQueued();
    var clock := [4, 5];
    ScanOfTwo(s.agent.subscribers["a"].queue, clock);
    assert ClockOk(s, "a", clock);
    hide Reachable, Retained, RemovesPrefix, Conns;
    assert QueueOf(AfterClear(s, "a", clock).agent, "a") == [Queued(0, 0)];
  }

  lemma ScanOfTwo(queue: seq<Queued>, clock: seq<nat>)
    requires queue == [Queued(0, 0), Queued(0, 1)] && clock == [4, 5]
    ensures Retained(queue, clock, 5) == [Queued(0, 0)]
    ensures !RemovesPrefix(queue, clock, 5)
  {
    assert queue[..1] == [Queued(0, 0)] && clock[..1] == [4];
    assert queue[..1][..0] == [] && clock[..1][..0] == [];
    assert Retained(queue[..1], clock[..1], 5) == [Queued(0, 0)];
    assert !TooOld(queue, clock, 5, 0) && TooOld(queue, clock, 5, 1);
  }

  /** In every run a new subscription has an id that no subscription ever had. */
  lemma NewSubscriptionIsNew(s: World, reuse: bool, timeout: nat, d: Domain, accepted: bool)
    requires Reachable(s, reuse, timeout) && Subscribed(s.agent, d, accepted).1.Ok?
    ensures Subscribed(s.agent, d, accepted).1.value !in s.home && Subscribed(s.agent, d, accepted).1.value !in s.alive
  {
    ReachableInv(s, reuse, timeout);
    hide ModeOk, OnceOk, QueuesOk, HandedOk, AllPlaced, ChannelsOk, Reachable;
  }

  /** Dropping a subscription that its domain's entry no longer lists changes neither the agent nor what is given up. */
  lemma StaleDropChangesNothing(s: World, id: nat)
    requires Enabled(s, DropSubscription(id))
    requires s.home[id] in s.agent.subscribers ==> id !in s.agent.subscribers[s.home[id]].subscriptions
    ensures AfterDrop(s, id).agent == s.agent && AfterDrop(s, id).dropped == s.dropped
  {
    assert Conns([]) == {};
  }

  /** Dropping a subscription never removes another one, whatever became of its domain meanwhile. */
  lemma DropRemovesOnlyItself(s: World, reuse: bool, timeout: nat, id: nat, d: Domain, other: nat)
    requires Reachable(s, reuse, timeout) && Enabled(s, DropSubscription(id))
    requires d in s.agent.subscribers && other in s.agent.subscribers[d].subscriptions && other != id
    ensures d in AfterDrop(s, id).agent.subscribers
    ensures other in AfterDrop(s, id).agent.subscribers[d].subscriptions
    ensures AfterDrop(s, id).agent.subscribers[d].queue == s.agent.subscribers[d].queue
  {}
}
