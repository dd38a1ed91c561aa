/**
 * Runs of a host and its guest around the resource table: requests are numbered as they come, the guest
 * receives messages, answers through table entries, closes and opens entries.
 */
module HostRequestRuns {
  import opened Common
  import opened HostRequests

  /** `replies` lists the requests that were answered, in order; `gone` are those whose requesters gave up. */
  datatype World = World(h: Host, next: nat, replies: seq<nat>, gone: set<nat>)

  datatype Step =
    | Query
    | Http
    | Create(query: bool)
    | Receive(query: bool)
    | Answer(id: nat)
    | Close(id: nat)
    | Open(tag: nat)
    | GiveUp(request: nat)

  ghost function Channel(h: Host, query: bool): Option<HostRequests.Channel> {
    if query then h.query else h.http
  }

  ghost function Queue(h: Host, query: bool): seq<Message> {
    if Channel(h, query).Some? then Channel(h, query).value.queue else []
  }

  ghost predicate Enabled(w: World, step: Step) {
    match step
    case Receive(query) => Queue(w.h, query) != []
    case GiveUp(request) => request < w.next
    case _ => true
  }

  ghost function Received(h: Host, query: bool): Host
    requires Queue(h, query) != []
  {
    var c := Channel(h, query).value;
    var c' := Some(c.(queue := c.queue[1..]));
    if query then h.(query := c') else h.(http := c')
  }

  ghost function Opened(h: Host, tag: nat): Host {
    match Pushed(h.slots, Other(tag))
    case None => h
    case Some((_, slots)) => h.(slots := slots)
  }

  ghost function Apply(w: World, step: Step): World
    requires Enabled(w, step)
  {
    match step
    case Query => w.(h := QueryPushed(w.h, w.next).0, next := w.next + 1)
    case Http => w.(h := HttpPushed(w.h, w.next).0, next := w.next + 1)
    case Create(query) => w.(h := ChannelCreated(w.h, query).0)
    case Receive(query) => w.(h := Received(w.h, query))
    case Answer(id) =>
      var (h, r) := Replied(w.h, id, w.gone);
      w.(h := h, replies := if r.Ok? then w.replies + [r.value] else w.replies)
    case Close(id) => w.(h := Closed(w.h, id))
    case Open(tag) => w.(h := Opened(w.h, tag))
    case GiveUp(request) => w.(gone := w.gone + {request})
  }

  const INIT: World := World(Host([], None, None), 0, [], {})

  ghost predicate IsRun(w: World, run: seq<Step>)
    decreases run
  {
    run == [] || (Enabled(w, run[0]) && IsRun(Apply(w, run[0]), run[1..]))
  }

  ghost function Exec(w: World, run: seq<Step>): World
    requires IsRun(w, run)
    decreases run
  {
    if run == [] then w else Exec(Apply(w, run[0]), run[1..])
  }

  // Which entries a message names

  ghost predicate Names(m: Message, id: nat) {
    m.reply == id || m.stream == Some(id)
  }

  ghost predicate Named(h: Host, id: nat) {
    exists query, k :: 0 <= k < |Queue(h, query)| && Names(Queue(h, query)[k], id)
  }

  ghost predicate NamedReply(h: Host, id: nat) {
    exists query, k :: 0 <= k < |Queue(h, query)| && Queue(h, query)[k].reply == id
  }

  /** A guest that does not answer through or close what a message it has not received yet names. */
  ghost predicate Polite(w: World, step: Step) {
    match step
    case Answer(id) => !NamedReply(w.h, id)
    case Close(id) => !Named(w.h, id)
    case _ => true
  }

  ghost predicate PoliteRun(w: World, run: seq<Step>)
    requires IsRun(w, run)
    decreases run
  {
    run == [] || (Polite(w, run[0]) && PoliteRun(Apply(w, run[0]), run[1..]))
  }

  // What every step does to the live entries

  datatype Change =
    | Same
    | Removed(id: nat)
    | Added(id: nat, res: Resource)
    | AddedTwo(id: nat, res: Resource, other: nat, otherRes: Resource)
    | Disarmed(id: nat, request: nat)

  ghost function Changed(m: map<nat, Resource>, c: Change): map<nat, Resource> {
    match c
    case Same => m
    case Removed(id) => m - {id}
    case Added(id, res) => m[id := res]
    case AddedTwo(id, res, other, otherRes) => m[id := res][other := otherRes]
    case Disarmed(id, request) => m[id := Reply(request, false)]
  }

  /** New entries take free ids, and a new reply sender belongs to the request that is being made. */
  ghost predicate ChangeOk(m: map<nat, Resource>, c: Change, step: Step, next: nat) {
    match c
    case Same => true
    case Removed(id) => step == Close(id)
    case Added(id, res) =>
      && id !in m
      && if step.Query? then res == Reply(next, true)
         else (step.Create? || step.Open?) && !res.Reply? && !res.BodyStream?
    case AddedTwo(id, res, other, otherRes) =>
      id !in m && other !in m && id != other && step.Http? && res == Reply(next, true) && otherRes == BodyStream(next)
    case Disarmed(id, request) => step == Answer(id) && id in m && m[id] == Reply(request, true)
  }

  lemma StepChange(w: World, step: Step) returns (c: Change)
    requires |w.h.slots| <= RESOURCE_ID_MAX && Enabled(w, step)
    ensures |Apply(w, step).h.slots| <= RESOURCE_ID_MAX
    ensures ChangeOk(Live(w.h.slots), c, step, w.next)
    ensures Live(Apply(w, step).h.slots) == Changed(Live(w.h.slots), c)
    ensures Apply(w, step).replies == if c.Disarmed? && c.request !in w.gone then w.replies + [c.request] else w.replies
  {
    c := Same;
    match step {
      case Query => c := QueryChange(w.h, w.next);
      case Http => c := HttpChange(w.h, w.next);
      case Create(query) => c := PushChange(w.h.slots, if query then QueryRx else HttpRx, w.h, ChannelCreated(w.h, query).0);
      case Receive(_) =>
      case Answer(id) =>
        if id in Live(w.h.slots) && Live(w.h.slots)[id].Reply? && Live(w.h.slots)[id].armed {
          c := Disarmed(id, Live(w.h.slots)[id].request);
        }
      case Close(id) =>
        TakeRemoves(w.h.slots, id);
        c := Removed(id);
      case Open(tag) => c := PushChange(w.h.slots, Other(tag), w.h, Opened(w.h, tag));
      case GiveUp(_) =>
    }
  }

  lemma QueryChange(h: Host, next: nat) returns (c: Change)
    requires |h.slots| <= RESOURCE_ID_MAX
    ensures var h' := QueryPushed(h, next).0;
      && |h'.slots| <= RESOURCE_ID_MAX
      && ChangeOk(Live(h.slots), c, Query, next)
      && Live(h'.slots) == Changed(Live(h.slots), c)
      && !c.Disarmed?
  {
    c := Same;
    QueryPushIsTransactional(h, next);
    var (h', r) := QueryPushed(h, next);
    hide QueryPushed, Live;
    if r.Ok? && h.query.Some? {
      var reply: nat :| QueryQueued(h, h', next, reply);
      c := Added(reply, Reply(next, true));
    }
  }

  lemma HttpChange(h: Host, next: nat) returns (c: Change)
    requires |h.slots| <= RESOURCE_ID_MAX
    ensures var h' := HttpPushed(h, next).0;
      && |h'.slots| <= RESOURCE_ID_MAX
      && ChangeOk(Live(h.slots), c, Http, next)
      && Live(h'.slots) == Changed(Live(h.slots), c)
      && !c.Disarmed?
  {
    c := Same;
    HttpPushIsTransactional(h, next);
    var (h', r) := HttpPushed(h, next);
    hide HttpPushed, Live;
    if r.Ok? && h.http.Some? {
      var reply: nat, stream: nat :| HttpQueued(h, h', next, reply, stream);
      c := AddedTwo(reply, Reply(next, true), stream, BodyStream(next));
    }
  }

  lemma PushChange(slots: Slots, res: Resource, h: Host, h': Host) returns (c: Change)
    requires |slots| <= RESOURCE_ID_MAX && slots == h.slots
    requires h'.slots == slots || (Pushed(slots, res).Some? && h'.slots == Pushed(slots, res).value.1)
    ensures |h'.slots| <= RESOURCE_ID_MAX
    ensures c == Same || (c.Added? && c.res == res && c.id !in Live(slots))
    ensures Live(h'.slots) == Changed(Live(slots), c)
  {
    PushTakesLeastFree(slots, res);
    if h'.slots == slots {
      c := Same;
    } else {
      c := Added(Pushed(slots, res).value.0, res);
    }
  }

  // A request is answered at most once

  ghost predicate Numbered(m: map<nat, Resource>, next: nat) {
    forall i :: i in m && (m[i].Reply? || m[i].BodyStream?) ==> m[i].request < next
  }

  ghost predicate OneSender(m: map<nat, Resource>) {
    forall i, j :: i in m && j in m && m[i].Reply? && m[j].Reply? && m[i].request == m[j].request ==> i == j
  }

  ghost predicate Unanswered(m: map<nat, Resource>, replies: seq<nat>) {
    forall i :: i in m && m[i].Reply? && m[i].armed ==> m[i].request !in replies
  }

  ghost predicate AnswerInv(w: World) {
    && |w.h.slots| <= RESOURCE_ID_MAX
    && Numbered(Live(w.h.slots), w.next)
    && OneSender(Live(w.h.slots))
    && Unanswered(Live(w.h.slots), w.replies)
    && (forall r :: r in w.replies ==> r < w.next)
    && Distinct(w.replies)
  }

  lemma ChangeKeepsTable(m: map<nat, Resource>, c: Change, step: Step, next: nat)
    requires ChangeOk(m, c, step, next) && Numbered(m, next) && OneSender(m)
    ensures Numbered(Changed(m, c), next + 1) && OneSender(Changed(m, c))
    ensures !step.Query? && !step.Http? ==> Numbered(Changed(m, c), next)
  {
    match c {
      case Same =>
      case Removed(_) =>
      case Added(_, _) =>
      case AddedTwo(_, _, _, _) =>
      case Disarmed(_, _) =>
    }
  }

  lemma ChangeKeepsReplies(m: map<nat, Resource>, c: Change, step: Step, next: nat, replies: seq<nat>, gone: set<nat>)
    requires ChangeOk(m, c, step, next) && Numbered(m, next) && OneSender(m) && Unanswered(m, replies)
    requires Distinct(replies) && forall r :: r in replies ==> r < next
    ensures var replies' := if c.Disarmed? && c.request !in gone then replies + [c.request] else replies;
      && Unanswered(Changed(m, c), replies')
      && Distinct(replies')
      && (forall r :: r in replies' ==> r < next)
  {
    match c {
      case Same =>
      case Removed(_) =>
      case Added(_, _) =>
      case AddedTwo(_, _, _, _) =>
      case Disarmed(_, _) =>
    }
  }

  lemma StepKeepsAnswerInv(w: World, step: Step)
    requires AnswerInv(w) && Enabled(w, step)
    ensures AnswerInv(Apply(w, step))
  {
    var c := StepChange(w, step);
    var m := Live(w.h.slots);
    ChangeKeepsTable(m, c, step, w.next);
    ChangeKeepsReplies(m, c, step, w.next, w.replies, w.gone);
    assert Apply(w, step).next == if step.Query? || step.Http? then w.next + 1 else w.next;
    hide Apply, Live, Changed, ChangeOk, Unanswered, OneSender;
  }

  lemma {:induction false} RunKeepsAnswerInv(w: World, run: seq<Step>)
    requires AnswerInv(w) && IsRun(w, run)
    ensures AnswerInv(Exec(w, run))
    decreases run
  {
    if run != [] {
      StepKeepsAnswerInv(w, run[0]);
      hide Apply, AnswerInv, Enabled;
      RunKeepsAnswerInv(Apply(w, run[0]), run[1..]);
    }
  }

  /** Whatever host and guest do, no request is answered twice, and only requests that were made are answered. */
  lemma AnsweredAtMostOnce(run: seq<Step>)
    requires IsRun(INIT, run)
    ensures Distinct(Exec(INIT, run).replies)
    ensures forall r :: r in Exec(INIT, run).replies ==> r < Exec(INIT, run).next
    ensures Unanswered(Live(Exec(INIT, run).h.slots), Exec(INIT, run).replies)
  {
    RunKeepsAnswerInv(INIT, run);
    hide Exec, IsRun;
  }

  /** A request whose requester gave up unanswered stays unanswered. */
  lemma {:induction false} GoneStaysUnanswered(w: World, run: seq<Step>, request: nat)
    requires |w.h.slots| <= RESOURCE_ID_MAX && IsRun(w, run)
    requires request in w.gone && request !in w.replies
    ensures request !in Exec(w, run).replies
    decreases run
  {
    if run != [] {
      var c := StepChange(w, run[0]);
      assert request in Apply(w, run[0]).gone;
      hide Apply, Enabled;
      GoneStaysUnanswered(Apply(w, run[0]), run[1..], request);
    }
  }

  // A queued message can be answered

  /** The entries a message names are there, and they are those of its own request. */
  ghost predicate Answerable(m: map<nat, Resource>, x: Message) {
    && x.reply in m && m[x.reply] == Reply(x.request, true)
    && (x.stream.Some? ==> x.stream.value in m && m[x.stream.value] == BodyStream(x.request))
  }

  ghost predicate QueuesOk(h: Host) {
    forall query, x :: x in Queue(h, query) ==> Answerable(Live(h.slots), x)
  }

  /** A step queues at most one message, and that message can be answered. */
  lemma StepQueues(w: World, step: Step, query: bool, x: Message)
    requires |w.h.slots| <= RESOURCE_ID_MAX && Enabled(w, step)
    requires x in Queue(Apply(w, step).h, query)
    ensures x in Queue(w.h, query) || Answerable(Live(Apply(w, step).h.slots), x)
  {
    match step {
      case Query =>
        QueryPushIsTransactional(w.h, w.next);
        hide QueryPushed, Live;
      case Http =>
        HttpPushIsTransactional(w.h, w.next);
        hide HttpPushed, Live;
      case Create(_) =>
      case Receive(q) => assert q == query ==> x in Queue(w.h, query)[1..];
      case Answer(_) =>
      case Close(_) =>
      case Open(_) =>
      case GiveUp(_) =>
    }
  }

  lemma ChangeKeepsAnswerable(w: World, step: Step, c: Change, query: bool, x: Message)
    requires Polite(w, step) && ChangeOk(Live(w.h.slots), c, step, w.next)
    requires x in Queue(w.h, query) && Answerable(Live(w.h.slots), x)
    ensures Answerable(Changed(Live(w.h.slots), c), x)
  {
    var k :| 0 <= k < |Queue(w.h, query)| && Queue(w.h, query)[k] == x;
    hide Live, Queue;
    if step.Close? {
      assert !Names(Queue(w.h, query)[k], step.id);
    } else if step.Answer? {
      assert Queue(w.h, query)[k].reply != step.id;
    }
  }

  lemma StepKeepsQueues(w: World, step: Step)
    requires |w.h.slots| <= RESOURCE_ID_MAX && QueuesOk(w.h) && Enabled(w, step) && Polite(w, step)
    ensures QueuesOk(Apply(w, step).h)
    ensures |Apply(w, step).h.slots| <= RESOURCE_ID_MAX
  {
    var c := StepChange(w, step);
    var h' := Apply(w, step).h;
    forall query, x | x in Queue(h', query)
      ensures Answerable(Live(h'.slots), x)
    {
      StepQueues(w, step, query, x);
      if x in Queue(w.h, query) {
        ChangeKeepsAnswerable(w, step, c, query, x);
      }
    }
    hide Apply, Live, Queue, Answerable, Changed, ChangeOk, Polite;
  }

  /** From such a state, a step keeps every message answerable exactly when it is polite. */
  lemma PoliteIff(w: World, step: Step)
    requires |w.h.slots| <= RESOURCE_ID_MAX && QueuesOk(w.h) && Enabled(w, step)
    ensures QueuesOk(Apply(w, step).h) <==> Polite(w, step)
  {
    if Polite(w, step) {
      StepKeepsQueues(w, step);
    } else {
      var query, k :| 0 <= k < |Queue(w.h, query)|
        && (if step.Answer? then Queue(w.h, query)[k].reply == step.id else Names(Queue(w.h, query)[k], step.id));
      var x := Queue(w.h, query)[k];
      assert Answerable(Live(w.h.slots), x);
      assert Queue(Apply(w, step).h, query)[k] == x;
      assert !Answerable(Live(Apply(w, step).h.slots), x);
    }
  }

  lemma {:induction false} RunKeepsQueues(w: World, run: seq<Step>)
    requires |w.h.slots| <= RESOURCE_ID_MAX && QueuesOk(w.h)
    requires IsRun(w, run) && PoliteRun(w, run)
    ensures QueuesOk(Exec(w, run).h)
    decreases run
  {
    if run != [] {
      StepKeepsQueues(w, run[0]);
      hide Apply, QueuesOk, Enabled, Polite;
      RunKeepsQueues(Apply(w, run[0]), run[1..]);
    }
  }

  /**
   * With a polite guest, every message that waits in a channel names live entries of its own request, and
   * an answer through it reaches that request if and only if its requester has not given up.
   */
  lemma MessagesReachTheirRequest(run: seq<Step>, query: bool, x: Message)
    requires IsRun(INIT, run) && PoliteRun(INIT, run)
    requires x in Queue(Exec(INIT, run).h, query)
    ensures Answerable(Live(Exec(INIT, run).h.slots), x)
    ensures var w := Exec(INIT, run);
      Replied(w.h, x.reply, w.gone).1 == if x.request in w.gone then Err(IoError) else Ok(x.request)
  {
    RunKeepsQueues(INIT, run);
    hide Exec, IsRun, PoliteRun;
  }

  /** Two messages of different requests never name the same entry. */
  lemma MessagesNameDistinctEntries(run: seq<Step>, q1: bool, q2: bool, x: Message, y: Message, id: nat)
    requires IsRun(INIT, run) && PoliteRun(INIT, run)
    requires x in Queue(Exec(INIT, run).h, q1) && y in Queue(Exec(INIT, run).h, q2)
    requires x.request != y.request && Names(x, id)
    ensures !Names(y, id)
  {
    MessagesReachTheirRequest(run, q1, x);
    MessagesReachTheirRequest(run, q2, y);
    hide Exec, IsRun, PoliteRun, Live, Replied;
  }

  /** A guest that closes an entry it was not told of yet can leave a message that cannot be answered. */
  lemma ImpoliteGuestLosesReply()
    ensures var run := [Create(true), Query, Close(1)];
      && IsRun(INIT, run)
      && Queue(Exec(INIT, run).h, true) == [Message(0, 1, None)]
      && 1 !in Live(Exec(INIT, run).h.slots)
  {
    var w1 := Apply(INIT, Create(true));
    assert w1 == World(Host([Some(QueryRx)], Some(HostRequests.Channel([], true)), None), 0, [], {});
    var w2 := Apply(w1, Query);
    assert Pushed(w1.h.slots, Reply(0, true)) == Some((1, w1.h.slots + [Some(Reply(0, true))]));
    assert w2.h.slots == [Some(QueryRx), Some(Reply(0, true))];
    assert Queue(w2.h, true) == [Message(0, 1, None)];
    var w3 := Apply(w2, Close(1));
    assert [Create(true), Query, Close(1)][1..] == [Query, Close(1)];
    assert [Query, Close(1)][1..] == [Close(1)];
    assert [Close(1)][1..] == [];
    assert IsRun(w3, []) && IsRun(w2, [Close(1)]) && IsRun(w1, [Query, Close(1)]);
    assert Exec(w2, [Close(1)]) == w3 && Exec(w1, [Query, Close(1)]) == w3;
  }

  // The channels are bounded

  lemma StepKeepsBound(w: World, step: Step, query: bool)
    requires Enabled(w, step)
    requires |Queue(w.h, query)| <= CHANNEL_CAPACITY
    ensures |Queue(Apply(w, step).h, query)| <= CHANNEL_CAPACITY
  {
    hide Pushed, Live, Taken;
    match step {
      case Query => case Http => case Create(_) => case Receive(_) =>
      case Answer(_) => case Close(_) => case Open(_) => case GiveUp(_) =>
    }
  }

  lemma {:induction false} RunKeepsBounds(w: World, run: seq<Step>, query: bool)
    requires IsRun(w, run)
    requires |Queue(w.h, query)| <= CHANNEL_CAPACITY
    ensures |Queue(Exec(w, run).h, query)| <= CHANNEL_CAPACITY
    decreases run
  {
    if run != [] {
      StepKeepsBound(w, run[0], query);
      hide Apply, Enabled, Queue;
      RunKeepsBounds(Apply(w, run[0]), run[1..], query);
    }
  }
}
