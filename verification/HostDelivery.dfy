/**
 * What becomes of the requests pushed to a guest: when one is queued, and in which order the guest gets
 * those that are. A channel takes requests for as long as the entry of its receiver is live.
 */
module HostDelivery {
  import opened Common
  import opened HostRequests
  import opened HostRequestRuns

  ghost function Receiver(query: bool): Resource {
    if query then QueryRx else HttpRx
  }

  ghost predicate Listening(h: Host, query: bool) {
    exists id :: id in Live(h.slots) && Live(h.slots)[id] == Receiver(query)
  }

  ghost predicate Created(h: Host, query: bool) {
    (if query then h.query else h.http).Some?
  }

  ghost predicate OneReceiver(m: map<nat, Resource>, query: bool) {
    forall i, j :: i in m && j in m && m[i] == m[j] == Receiver(query) ==> i == j
  }

  /** The channel is open exactly while its one receiver is live, and a closed channel holds nothing. */
  ghost predicate ReceiverOk(h: Host, query: bool) {
    && |h.slots| <= RESOURCE_ID_MAX
    && OneReceiver(Live(h.slots), query)
    && (Listening(h, query) <==> Created(h, query) && HostRequestRuns.Channel(h, query).value.open)
    && (!Listening(h, query) ==> Queue(h, query) == [])
  }

  /** The receiver entries a step leaves. */
  lemma StepOnReceiver(w: World, step: Step, query: bool, i: nat)
    requires |w.h.slots| <= RESOURCE_ID_MAX && Enabled(w, step)
    ensures var m, m' := Live(w.h.slots), Live(Apply(w, step).h.slots);
      (i in m' && m'[i] == Receiver(query)) <==>
        || (i in m && m[i] == Receiver(query) && step != Close(i))
        || (step == Create(query) && ChannelCreated(w.h, query).1 == Ok(i))
  {
    match step {
      case Create(q) =>
        PushTakesLeastFree(w.h.slots, Receiver(q));
        hide Pushed, Live;
      case Open(tag) =>
        PushTakesLeastFree(w.h.slots, Other(tag));
        hide Pushed, Live;
      case Close(id) =>
        TakeRemoves(w.h.slots, id);
        hide Taken, Live;
      case _ =>
        hide Apply, Live;
        OtherStepOnReceiver(w, step, query, i);
    }
  }

  lemma ChangeOnReceiver(m: map<nat, Resource>, c: Change, step: Step, next: nat, query: bool, i: nat)
    requires ChangeOk(m, c, step, next) && !step.Create? && !step.Open? && !step.Close?
    ensures var m' := Changed(m, c);
      (i in m' && m'[i] == Receiver(query)) <==> (i in m && m[i] == Receiver(query))
  {
  }

  lemma OtherStepOnReceiver(w: World, step: Step, query: bool, i: nat)
    requires |w.h.slots| <= RESOURCE_ID_MAX && Enabled(w, step)
    requires !step.Create? && !step.Open? && !step.Close?
    ensures var m, m' := Live(w.h.slots), Live(Apply(w, step).h.slots);
      (i in m' && m'[i] == Receiver(query)) <==> (i in m && m[i] == Receiver(query))
  {
    var c := StepChange(w, step);
    hide Apply, Live, Enabled, Changed, ChangeOk;
    ChangeOnReceiver(Live(w.h.slots), c, step, w.next, query, i);
  }

  lemma StepKeepsBoundedTable(w: World, step: Step)
    requires |w.h.slots| <= RESOURCE_ID_MAX && Enabled(w, step)
    ensures |Apply(w, step).h.slots| <= RESOURCE_ID_MAX
  {
    var c := StepChange(w, step);
  }

  /** What a step does to a channel, when it is not the creation of that channel. */
  lemma StepOnChannel(w: World, step: Step, query: bool)
    requires Enabled(w, step) && step != Create(query)
    ensures var h' := Apply(w, step).h;
      && Created(h', query) == Created(w.h, query)
      && (Created(w.h, query) ==>
        HostRequestRuns.Channel(h', query).value.open
        == (HostRequestRuns.Channel(w.h, query).value.open && !ClosesReceiver(w, step, query)))
      && (ClosesReceiver(w, step, query) ==> Queue(h', query) == [])
      && (Created(w.h, query) && !HostRequestRuns.Channel(w.h, query).value.open && Queue(w.h, query) == [] ==>
        Queue(h', query) == [])
  {
    hide Pushed, Taken, Live;
    match step {
      case Query => case Http => case Create(_) => case Receive(_) =>
      case Answer(_) => case Close(_) => case Open(_) => case GiveUp(_) =>
    }
  }

  ghost predicate ClosesReceiver(w: World, step: Step, query: bool) {
    step.Close? && step.id in Live(w.h.slots) && Live(w.h.slots)[step.id] == Receiver(query)
  }

  /** A channel can be created if and only if it never was and an id is free; it then listens and is empty. */
  lemma CreateOutcome(h: Host, query: bool)
    requires |h.slots| <= RESOURCE_ID_MAX
    ensures var (h', r) := ChannelCreated(h, query);
      && (r == Err(AlreadyExists) <==> Created(h, query))
      && (r == Err(ResourceLimited) <==>
        !Created(h, query) && forall i: nat :: i < RESOURCE_ID_MAX ==> i in Live(h.slots))
      && (r.Err? ==> h' == h && r.error in {AlreadyExists, ResourceLimited})
      && (r.Ok? ==>
        && r.value !in Live(h.slots) && Live(h'.slots) == Live(h.slots)[r.value := Receiver(query)]
        && HostRequestRuns.Channel(h', query) == Some(HostRequests.Channel([], true))
        && HostRequestRuns.Channel(h', !query) == HostRequestRuns.Channel(h, !query))
  {
    PushTakesLeastFree(h.slots, Receiver(query));
    hide Pushed, Live;
  }

  /**
   * An answer reaches the request whose armed sender the entry holds, unless its requester gave up, and
   * disarms the sender either way; through any other entry it fails and changes nothing.
   */
  lemma AnswerOutcome(h: Host, id: nat, gone: set<nat>)
    ensures var (h', r) := Replied(h, id, gone);
      var m := Live(h.slots);
      && (r == Err(NotFound) <==> id !in m)
      && (r == Err(UnsupportedOperation) <==> id in m && !m[id].Reply?)
      && (r == Err(IoError) <==> id in m && m[id].Reply? && (!m[id].armed || m[id].request in gone))
      && (forall request: nat :: r == Ok(request) <==> id in m && m[id] == Reply(request, true) && request !in gone)
      && (if id in m && m[id].Reply? && m[id].armed then Live(h'.slots) == m[id := m[id].(armed := false)] else h' == h)
      && SameChannels(h, h')
  {
  }

  lemma StepKeepsReceiver(w: World, step: Step, query: bool)
    requires Enabled(w, step) && ReceiverOk(w.h, query)
    ensures ReceiverOk(Apply(w, step).h, query)
  {
    var h, h' := w.h, Apply(w, step).h;
    StepKeepsBoundedTable(w, step);
    forall i: nat {
      StepOnReceiver(w, step, query, i);
    }
    if step == Create(query) {
      CreateOutcome(h, query);
      if ChannelCreated(h, query).1.Ok? {
        var id := ChannelCreated(h, query).1.value;
        assert id in Live(h'.slots) && Live(h'.slots)[id] == Receiver(query);
      }
      hide ChannelCreated, Live;
    } else {
      StepOnChannel(w, step, query);
      hide Apply, Live, Queue, Created;
      if Listening(h, query) && !ClosesReceiver(w, step, query) {
        var id :| id in Live(h.slots) && Live(h.slots)[id] == Receiver(query);
        assert id in Live(h'.slots) && Live(h'.slots)[id] == Receiver(query);
      }
    }
  }

  lemma {:induction false} RunKeepsReceiver(w: World, run: seq<Step>, query: bool)
    requires IsRun(w, run) && ReceiverOk(w.h, query)
    ensures ReceiverOk(Exec(w, run).h, query)
    decreases run
  {
    if run != [] {
      StepKeepsReceiver(w, run[0], query);
      hide Apply, Enabled, ReceiverOk;
      RunKeepsReceiver(Apply(w, run[0]), run[1..], query);
    }
  }

  /** In every run, a query is queued, refused or dropped by what the guest still listens to and what is free. */
  lemma QueryOutcome(run: seq<Step>)
    requires IsRun(INIT, run)
    ensures var w := Exec(INIT, run);
      var (h', r) := QueryPushed(w.h, w.next);
      var free := exists i: nat :: i < RESOURCE_ID_MAX && i !in Live(w.h.slots);
      var room := Listening(w.h, true) && |Queue(w.h, true)| < 20;
      && (!Created(w.h, true) ==> r == Ok(()) && h' == w.h)
      && (Created(w.h, true) ==>
        && (r == Ok(()) <==> free && room)
        && (r == Err(ResourceLimited) <==> !free)
        && (r == Err(SendFailed) <==> free && !room)
        && Requests(Queue(h', true)) == Requests(Queue(w.h, true)) + (if free && room then [w.next] else []))
  {
    RunKeepsReceiver(INIT, run, true);
    var w := Exec(INIT, run);
    QueryPushIsTransactional(w.h, w.next);
    PushTakesLeastFree(w.h.slots, Reply(w.next, true));
    hide Exec, IsRun, Pushed, Live, Listening;
  }

  lemma HttpOutcome(run: seq<Step>)
    requires IsRun(INIT, run)
    ensures var w := Exec(INIT, run);
      var (h', r) := HttpPushed(w.h, w.next);
      var free := exists i: nat, j: nat :: i < j < RESOURCE_ID_MAX && i !in Live(w.h.slots) && j !in Live(w.h.slots);
      var room := Listening(w.h, false) && |Queue(w.h, false)| < 20;
      && (!Created(w.h, false) ==> r == Ok(()) && h' == w.h)
      && (Created(w.h, false) ==>
        && (r == Ok(()) <==> free && room)
        && (r == Err(ResourceLimited) <==> !free)
        && (r == Err(SendFailed) <==> free && !room)
        && Requests(Queue(h', false)) == Requests(Queue(w.h, false)) + (if free && room then [w.next] else []))
  {
    RunKeepsReceiver(INIT, run, false);
    var w := Exec(INIT, run);
    HttpPushIsTransactional(w.h, w.next);
    HttpFails(w.h, w.next);
    hide Exec, IsRun, Pushed, HttpPushed, Live, Listening;
  }

  /** A failed push says why. */
  lemma HttpFails(h: Host, request: nat)
    requires |h.slots| <= RESOURCE_ID_MAX
    ensures var r := HttpPushed(h, request).1;
      && (r.Err? ==> r.error in {ResourceLimited, SendFailed})
      && (r == Err(SendFailed) ==>
        && !(h.http.value.open && |h.http.value.queue| < 20)
        && exists i: nat, j: nat :: i < j < RESOURCE_ID_MAX && i !in Live(h.slots) && j !in Live(h.slots))
      && (r == Err(ResourceLimited) ==>
        !exists i: nat, j: nat :: i < j < RESOURCE_ID_MAX && i !in Live(h.slots) && j !in Live(h.slots))
  {
    PushTakesLeastFree(h.slots, Reply(request, true));
    var p := Pushed(h.slots, Reply(request, true));
    if p.Some? {
      var (reply, slots) := p.value;
      PushTakesLeastFree(slots, BodyStream(request));
      if Pushed(slots, BodyStream(request)).None? {
        forall i: nat | i < RESOURCE_ID_MAX && i !in Live(h.slots)
          ensures i == reply
        {
          assert i in Live(slots);
        }
      }
    }
    hide Pushed, Taken, Live;
  }

  // The order of delivery

  ghost function Requests(q: seq<Message>): seq<nat> {
    seq(|q|, i requires 0 <= i < |q| => q[i].request)
  }

  /** The request a step queues, and the one it delivers. */
  ghost function Queued(w: World, step: Step, query: bool): seq<nat> {
    if step == (if query then Query else Http) && Created(w.h, query)
       && (if query then QueryPushed(w.h, w.next).1 else HttpPushed(w.h, w.next).1).Ok?
    then [w.next] else []
  }

  ghost function Delivered(w: World, step: Step, query: bool): seq<nat>
    requires Enabled(w, step)
  {
    if step == Receive(query) then [Queue(w.h, query)[0].request] else []
  }

  ghost function AllQueued(w: World, run: seq<Step>, query: bool): seq<nat>
    requires IsRun(w, run)
    decreases run
  {
    if run == [] then [] else Queued(w, run[0], query) + AllQueued(Apply(w, run[0]), run[1..], query)
  }

  ghost function AllDelivered(w: World, run: seq<Step>, query: bool): seq<nat>
    requires IsRun(w, run)
    decreases run
  {
    if run == [] then [] else Delivered(w, run[0], query) + AllDelivered(Apply(w, run[0]), run[1..], query)
  }

  lemma SentRequests(c: HostRequests.Channel, m: Message)
    ensures Requests(Sent(c, m).queue) == Requests(c.queue) + [m.request]
  {
  }

  lemma PushInOrder(w: World, step: Step, query: bool)
    requires step.Query? || step.Http?
    ensures Requests(Queue(w.h, query)) + Queued(w, step, query) == Requests(Queue(Apply(w, step).h, query))
  {
    forall m | HostRequestRuns.Channel(w.h, query).Some? {
      SentRequests(HostRequestRuns.Channel(w.h, query).value, m);
    }
    hide Pushed, Taken, Live, Requests, Sent;
  }

  lemma OtherStepKeepsQueue(w: World, step: Step, query: bool)
    requires Enabled(w, step) && ReceiverOk(w.h, query) && !ClosesReceiver(w, step, query)
    requires !step.Query? && !step.Http? && step != Receive(query)
    ensures Queue(Apply(w, step).h, query) == Queue(w.h, query)
  {
    hide Pushed, Taken, Live, OneReceiver;
    match step {
      case Create(_) => case Receive(_) =>
      case Answer(_) => case Close(_) => case Open(_) => case GiveUp(_) =>
    }
  }

  lemma StepInOrder(w: World, step: Step, query: bool)
    requires Enabled(w, step) && ReceiverOk(w.h, query) && !ClosesReceiver(w, step, query)
    ensures Requests(Queue(w.h, query)) + Queued(w, step, query)
         == Delivered(w, step, query) + Requests(Queue(Apply(w, step).h, query))
  {
    if step.Query? || step.Http? {
      PushInOrder(w, step, query);
      hide Apply;
    } else if step == Receive(query) {
      assert Queue(Apply(w, step).h, query) == Queue(w.h, query)[1..];
      hide Apply;
    } else {
      OtherStepKeepsQueue(w, step, query);
      hide Apply;
    }
  }

  /** A guest that stops listening never listens again: nothing more is queued or delivered. */
  lemma {:induction false} HungUpForGood(w: World, run: seq<Step>, query: bool)
    requires IsRun(w, run) && ReceiverOk(w.h, query) && Created(w.h, query) && !Listening(w.h, query)
    ensures Created(Exec(w, run).h, query) && !Listening(Exec(w, run).h, query)
    ensures AllQueued(w, run, query) == [] && AllDelivered(w, run, query) == []
    decreases run
  {
    if run != [] {
      var w1 := Apply(w, run[0]);
      StepKeepsReceiver(w, run[0], query);
      if run[0] == Create(query) {
        CreateOutcome(w.h, query);
      } else {
        StepOnChannel(w, run[0], query);
      }
      assert Created(w1.h, query) && !HostRequestRuns.Channel(w1.h, query).value.open;
      assert Queued(w, run[0], query) == [];
      hide Apply, Listening, Queue, Queued;
      HungUpForGood(w1, run[1..], query);
    }
  }

  /** What the channel holds and what is queued later, against what is delivered and what is left. */
  ghost predicate InOrder(held: seq<nat>, queued: seq<nat>, delivered: seq<nat>, left: seq<nat>, listening: bool) {
    delivered <= held + queued && (listening ==> held + queued == delivered + left)
  }

  lemma InOrderExtends(held: seq<nat>, a: seq<nat>, d: seq<nat>, held1: seq<nat>,
                       queued: seq<nat>, delivered: seq<nat>, left: seq<nat>, listening: bool)
    requires held + a == d + held1 && InOrder(held1, queued, delivered, left, listening)
    ensures InOrder(held, a + queued, d + delivered, left, listening)
  {
    assert held + (a + queued) == (held + a) + queued == d + (held1 + queued);
    assert d + (delivered + left) == (d + delivered) + left;
  }

  lemma ClosedInOrder(w: World, run: seq<Step>, query: bool)
    requires IsRun(w, run) && run != [] && ReceiverOk(w.h, query) && ClosesReceiver(w, run[0], query)
    ensures AllQueued(w, run, query) == [] && AllDelivered(w, run, query) == []
    ensures Created(Exec(w, run).h, query) && !Listening(Exec(w, run).h, query)
  {
    var w1 := Apply(w, run[0]);
    StepKeepsReceiver(w, run[0], query);
    StepOnChannel(w, run[0], query);
    assert Listening(w.h, query);
    hide Apply, Listening, Queue, Live;
    HungUpForGood(w1, run[1..], query);
  }

  lemma {:induction false} RunInOrder(w: World, run: seq<Step>, query: bool)
    requires IsRun(w, run) && ReceiverOk(w.h, query)
    ensures var w' := Exec(w, run);
      InOrder(Requests(Queue(w.h, query)), AllQueued(w, run, query), AllDelivered(w, run, query),
              Requests(Queue(w'.h, query)), Listening(w'.h, query) || !Created(w'.h, query))
    decreases run
  {
    if run != [] {
      var w1 := Apply(w, run[0]);
      if ClosesReceiver(w, run[0], query) {
        hide Apply, Enabled, ReceiverOk, ClosesReceiver, Listening, Created, Requests;
        ClosedInOrder(w, run, query);
      } else {
        StepKeepsReceiver(w, run[0], query);
        StepInOrder(w, run[0], query);
        hide Apply, Enabled, ReceiverOk, Queue, Queued, Delivered, Requests, Listening, Created, InOrder;
        RunInOrder(w1, run[1..], query);
        var w' := Exec(w1, run[1..]);
        InOrderExtends(Requests(Queue(w.h, query)), Queued(w, run[0], query), Delivered(w, run[0], query),
                       Requests(Queue(w1.h, query)), AllQueued(w1, run[1..], query), AllDelivered(w1, run[1..], query),
                       Requests(Queue(w'.h, query)), Listening(w'.h, query) || !Created(w'.h, query));
      }
    }
  }

  /**
   * In every run the guest gets requests in the order in which they were queued, each once; while it
   * listens, those it did not get yet are waiting, and no other.
   */
  lemma DeliveredInOrder(run: seq<Step>, query: bool)
    requires IsRun(INIT, run)
    ensures AllDelivered(INIT, run, query) <= AllQueued(INIT, run, query)
    ensures Listening(Exec(INIT, run).h, query) ==>
      AllQueued(INIT, run, query) == AllDelivered(INIT, run, query) + Requests(Queue(Exec(INIT, run).h, query))
  {
    RunInOrder(INIT, run, query);
    assert Requests(Queue(INIT.h, query)) == [];
  }
}
