/**
 * The message half of a wake-up from end to end: a wake message stays pending until the guest handles
 * it, and then the guest task of the waker it was sent for is ready.
 */
module WakerDelivery {
  import opened Common
  import opened TaskSets
  import opened GuestTables
  import opened WakerProtocol
  import opened WakerIdentity
  import opened WakerProgress

  /** The message is on its way, and its slot holds the waker it was sent for. */
  ghost predicate OnItsWay(s: State, m: Msg, w: Waker) {
    m in Pending(s) && Lookup(s.table, IdOf(m)) == Some(w)
  }

  lemma InternLeavesWaker(t: WakerTable, w: Waker, id: nat, other: Waker)
    requires TableOk(t) && Interned(t, w).Some? && Lookup(t, id) == Some(other)
    ensures Lookup(Interned(t, w).value.0, id) == Some(other)
  {
    InternTakesFreeSlot(t, w);
    assert id in LiveIds(t.slots);
    hide Interned, AllLive;
  }

  lemma DropLeavesWaker(t: WakerTable, dropped: nat, id: nat, w: Waker)
    requires Lookup(t, id) == Some(w) && id != dropped
    ensures Lookup(Dropped(t, dropped), id) == Some(w)
  {}

  /** The next message is not a drop of the waker that a later message is for. */
  lemma NoDropAhead(s: State, m: Msg)
    requires IdInv(s) && m in Pending(s) && Pending(s) != [] && Pending(s)[0] != m && !IsWake(Pending(s)[0])
    ensures IdOf(Pending(s)[0]) != IdOf(m)
  {
    var p := Pending(s);
    var k :| 0 <= k < |p| && p[k] == m;
    assert SlotHas(s.table, IdOf(p[0]), p[0].gen) && SlotHas(s.table, IdOf(m), m.gen);
    assert p[0].gen != p[k].gen;
  }

  lemma PendingTail(s: State)
    requires PollEnabled(s, HandleMessage)
    ensures Pending(s) == [s.phase.inbox[0]] + Pending(PollApply(s, HandleMessage))
  {}

  lemma HandledIsReady(s: State, w: Waker)
    requires PollEnabled(s, HandleMessage) && IsWake(s.phase.inbox[0])
    requires Lookup(s.table, IdOf(s.phase.inbox[0])) == Some(w)
    ensures w.task in PollApply(s, HandleMessage).ready
  {
    PushKeepsMembers(s.ready, w.task, w.task);
    hide Pushed, Lookup;
  }

  lemma HandleLeavesWaker(t: WakerTable, ready: seq<int>, first: Msg, id: nat, w: Waker)
    requires Lookup(t, id) == Some(w) && (IsWake(first) || IdOf(first) != id)
    ensures Lookup(HandledCode(t, ready, first.code).0, id) == Some(w)
  {
    if !IsWake(first) {
      DropLeavesWaker(t, IdOf(first), id, w);
    }
    hide Dropped, Pushed;
  }

  lemma HandleDelivers(s: State, m: Msg, w: Waker)
    requires IdInv(s) && PollEnabled(s, HandleMessage) && IsWake(m) && OnItsWay(s, m, w)
    ensures var s' := PollApply(s, HandleMessage); OnItsWay(s', m, w) || w.task in s'.ready
  {
    var first := s.phase.inbox[0];
    PendingTail(s);
    if first == m {
      HandledIsReady(s, w);
    } else {
      if !IsWake(first) {
        NoDropAhead(s, m);
      }
      HandleLeavesWaker(s.table, s.ready, first, IdOf(m), w);
    }
    hide HandledCode, IdInv, Lookup, Pending;
  }

  lemma PollDelivers(s: State, p: PollStep, m: Msg, w: Waker)
    requires PollEnabled(s, p) && !p.HandleMessage? && OnItsWay(s, m, w)
    ensures OnItsWay(PollApply(s, p), m, w)
  {
    hide Started, TaskLive, Pushed, Lookup;
    match p {
      case Drain => assert Pending(PollApply(s, Drain)) == Pending(s);
      case BeginPoll => case NextReadyTask => case EndTask(_) =>
      case StartSpawned => case EndSpawned => case CheckTasks => case CheckWakers =>
    }
  }

  lemma TaskDelivers(s: State, t: TaskStep, m: Msg, w: Waker)
    requires IdInv(s) && TaskEnabled(s, t) && OnItsWay(s, m, w)
    ensures OnItsWay(TaskApply(s, t), m, w)
  {
    if t.Intern? {
      InternLeavesWaker(s.table, Waker(s.nextGen, t.target), IdOf(m), w);
    }
    hide Interned, Lookup, Pushed, CoreInv;
  }

  lemma HostDelivers(s: State, h: HostStep, m: Msg, w: Waker)
    requires HostEnabled(s, h) && OnItsWay(s, m, w)
    ensures OnItsWay(HostApply(s, h), m, w)
  {
    hide Pushed, BeingWoken, Lookup;
    assert Pending(s) <= Pending(HostApply(s, h));
  }

  lemma StepDelivers(s: State, step: Step, m: Msg, w: Waker)
    requires IdInv(s) && Enabled(s, step) && IsWake(m) && OnItsWay(s, m, w)
    ensures OnItsWay(Apply(s, step), m, w) || w.task in Apply(s, step).ready
  {
    hide IdInv, OnItsWay, PollApply, TaskApply, HostApply;
    match step {
      case Poll(p) =>
        if p.HandleMessage? {
          HandleDelivers(s, m, w);
        } else {
          PollDelivers(s, p, m, w);
        }
      case Task(t) => TaskDelivers(s, t, m, w);
      case Host(h) => HostDelivers(s, h, m, w);
    }
  }

  lemma {:induction false} MessageDelivers(s: State, steps: seq<Step>, m: Msg, w: Waker)
    requires IdInv(s) && IsRun(s, steps) && IsWake(m) && OnItsWay(s, m, w)
    ensures OnItsWay(Exec(s, steps), m, w) || w.task in Elems(Exec(s, steps).ready) + PoppedIds(s, steps)
    decreases |steps|
  {
    if steps != [] {
      var s' := Apply(s, steps[0]);
      StepDelivers(s, steps[0], m, w);
      StepKeepsIdInv(s, steps[0]);
      hide IdInv, OnItsWay, Apply, Enabled;
      if OnItsWay(s', m, w) {
        MessageDelivers(s', steps[1..], m, w);
      } else {
        assert w.task in Elems(s'.ready);
        ReadyUntilPopped(s', steps[1..]);
      }
    }
  }

  /**
   * From the moment a host thread has pushed a wake message, in every continuation the message is still
   * pending, or the guest task of the waker interned for its handle is in the ready queue or was popped.
   */
  lemma WakeMessageIsNotLost(s: State, call: nat, steps: seq<Step>)
    requires Reachable(s) && Enabled(s, Host(WakePushMessage(call)))
    requires IsRun(Apply(s, Host(WakePushMessage(call))), steps)
    ensures var s1, gen := Apply(s, Host(WakePushMessage(call))), s.wakes[call].gen;
            var m := Msg(s.handles[gen].id, gen);
            var w := Lookup(s.table, s.handles[gen].id);
            && w.Some? && w.value.gen == gen
            && (m in Pending(Exec(s1, steps)) || w.value.task in Elems(Exec(s1, steps).ready) + PoppedIds(s1, steps))
  {
    ReachableIdInv(s);
    var step := Host(WakePushMessage(call));
    var s1, gen := Apply(s, step), s.wakes[call].gen;
    var m := Msg(s.handles[gen].id, gen);
    assert SlotHas(s.table, s.handles[gen].id, gen);
    var w := Lookup(s.table, s.handles[gen].id).value;
    assert m in s1.messages && m in Pending(s1);
    StepKeepsIdInv(s, step);
    hide IdInv, Apply, Reachable;
    MessageDelivers(s1, steps, m, w);
  }
}
