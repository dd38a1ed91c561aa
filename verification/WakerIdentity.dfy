/**
 * Waker identity over every run of the protocol: a drained message always reaches the waker that
 * was interned for the host handle that sent it, and no id is reused while a handle or an
 * undrained message for it exists.
 */
module WakerIdentity {
  import opened Common
  import opened TaskSets
  import opened GuestTables
  import opened WakerProtocol

  /** Messages sent and not yet handled, oldest first. */
  ghost function Pending(s: State): seq<Msg> {
    (if s.phase.Draining? then s.phase.inbox else []) + s.messages
  }

  /** Slot `id` holds the waker of generation `gen`. */
  ghost predicate SlotHas(t: WakerTable, id: nat, gen: nat) {
    id < |t.slots| && t.slots[id].Some? && t.slots[id].value.gen == gen
  }

  ghost predicate DropPending(pending: seq<Msg>, gen: nat) {
    exists k :: 0 <= k < |pending| && pending[k].gen == gen && !IsWake(pending[k])
  }

  ghost predicate GensDistinct(t: WakerTable, nextGen: nat) {
    && (forall i :: i in LiveIds(t.slots) ==> t.slots[i].value.gen < nextGen)
    && (forall i, j :: i in LiveIds(t.slots) && j in LiveIds(t.slots) && t.slots[i].value.gen == t.slots[j].value.gen ==> i == j)
  }

  /** Every undrained message finds its own waker, and nothing follows a drop of the same waker. */
  ghost predicate MessagesOk(t: WakerTable, pending: seq<Msg>, handles: map<nat, Handle>) {
    && (forall k :: 0 <= k < |pending| ==> SlotHas(t, IdOf(pending[k]), pending[k].gen))
    && (forall j, k :: 0 <= j < k < |pending| && !IsWake(pending[j]) ==> pending[j].gen != pending[k].gen)
    && (forall k :: 0 <= k < |pending| && !IsWake(pending[k]) ==> pending[k].gen !in handles)
  }

  ghost predicate HandlesOk(t: WakerTable, handles: map<nat, Handle>) {
    forall g :: g in handles ==> handles[g].refs >= 1 && SlotHas(t, handles[g].id, g)
  }

  ghost predicate UnpassedOk(t: WakerTable, pending: seq<Msg>, handles: map<nat, Handle>, unpassed: map<nat, nat>) {
    forall id :: id in unpassed ==>
      && SlotHas(t, id, unpassed[id])
      && unpassed[id] !in handles
      && forall k :: 0 <= k < |pending| ==> pending[k].gen != unpassed[id]
  }

  /** No slot leaks: each live waker is about to be passed, held by the host, or about to be dropped. */
  ghost predicate Accounted(t: WakerTable, pending: seq<Msg>, handles: map<nat, Handle>, unpassed: map<nat, nat>) {
    forall i :: i in LiveIds(t.slots) ==>
      i in unpassed || t.slots[i].value.gen in handles || DropPending(pending, t.slots[i].value.gen)
  }

  ghost predicate CoreInv(t: WakerTable, pending: seq<Msg>, handles: map<nat, Handle>, unpassed: map<nat, nat>, nextGen: nat) {
    && TableOk(t)
    && GensDistinct(t, nextGen)
    && MessagesOk(t, pending, handles)
    && HandlesOk(t, handles)
    && UnpassedOk(t, pending, handles, unpassed)
    && Accounted(t, pending, handles, unpassed)
  }

  ghost predicate IdInv(s: State) {
    && CoreInv(s.table, Pending(s), s.handles, s.unpassed, s.nextGen)
    && (forall c :: c in s.wakes ==> s.wakes[c].gen in s.handles)
    && |s.table.slots| == s.peak
  }

  lemma AllLiveCount(slots: seq<Option<Waker>>)
    ensures |LiveIds(slots)| <= |slots|
    ensures AllLive(slots) ==> |LiveIds(slots)| == |slots|
  {
    var ids: seq<nat> := seq(|slots|, i => i);
    DistinctCardinality(ids);
    forall i | i in LiveIds(slots)
      ensures i in Elems(ids)
    {
      assert ids[i] == i;
    }
    SubsetCardinality(LiveIds(slots), Elems(ids));
    if AllLive(slots) {
      assert LiveIds(slots) == Elems(ids);
    }
  }

  /** Slots that were live keep their wakers, and the new generation is new. */
  lemma InternKeepsSlots(t: WakerTable, w: Waker, i: nat, g: nat)
    requires TableOk(t) && GensDistinct(t, w.gen)
    requires Interned(t, w).Some?
    requires SlotHas(t, i, g)
    ensures SlotHas(Interned(t, w).value.0, i, g)
    ensures i != Interned(t, w).value.1 && g < w.gen
  {
    InternTakesFreeSlot(t, w);
    assert i in LiveIds(t.slots);
  }

  lemma InternGensDistinct(t: WakerTable, w: Waker)
    requires TableOk(t) && GensDistinct(t, w.gen)
    requires Interned(t, w).Some?
    ensures GensDistinct(Interned(t, w).value.0, w.gen + 1)
  {
    InternTakesFreeSlot(t, w);
    var (t', id) := Interned(t, w).value;
    forall i | i in LiveIds(t'.slots) && i != id
      ensures i in LiveIds(t.slots) && t'.slots[i] == t.slots[i]
    {}
  }

  /** Every waker but the one of generation `except` is where it was. */
  ghost predicate KeepsSlots(t: WakerTable, t': WakerTable, except: Option<nat>) {
    forall g: nat, i: nat :: SlotHas(t, i, g) && except != Some(g) ==> SlotHas(t', i, g)
  }

  lemma MessagesMove(t: WakerTable, t': WakerTable, except: Option<nat>, pending: seq<Msg>, handles: map<nat, Handle>)
    requires MessagesOk(t, pending, handles) && KeepsSlots(t, t', except)
    requires forall k :: 0 <= k < |pending| ==> except != Some(pending[k].gen)
    ensures MessagesOk(t', pending, handles)
  {
    hide SlotHas;
  }

  lemma HandlesMove(t: WakerTable, t': WakerTable, except: Option<nat>, handles: map<nat, Handle>)
    requires HandlesOk(t, handles) && KeepsSlots(t, t', except)
    requires forall g :: g in handles ==> except != Some(g)
    ensures HandlesOk(t', handles)
  {
    hide SlotHas;
  }

  lemma UnpassedMove(t: WakerTable, t': WakerTable, except: Option<nat>, pending: seq<Msg>, handles: map<nat, Handle>, unpassed: map<nat, nat>)
    requires UnpassedOk(t, pending, handles, unpassed) && KeepsSlots(t, t', except)
    requires forall id :: id in unpassed ==> except != Some(unpassed[id])
    ensures UnpassedOk(t', pending, handles, unpassed)
  {
    hide SlotHas;
  }

  lemma InternKeepsAllSlots(t: WakerTable, w: Waker)
    requires TableOk(t) && GensDistinct(t, w.gen)
    requires Interned(t, w).Some?
    ensures var (t', id) := Interned(t, w).value;
            && KeepsSlots(t, t', None) && SlotHas(t', id, w.gen)
            && (forall g: nat, i: nat :: SlotHas(t, i, g) ==> i != id && g < w.gen)
  {
    InternTakesFreeSlot(t, w);
    hide Interned, GensDistinct, AllLive;
    forall g: nat, i: nat | SlotHas(t, i, g)
      ensures SlotHas(Interned(t, w).value.0, i, g) && i != Interned(t, w).value.1 && g < w.gen
    {
      InternKeepsSlots(t, w, i, g);
    }
  }

  /** What messages, handles and unpassed ids refer to is still there, and none of them is the new waker. */
  lemma InternKeepsReferences(t: WakerTable, pending: seq<Msg>, handles: map<nat, Handle>, unpassed: map<nat, nat>, w: Waker)
    requires CoreInv(t, pending, handles, unpassed, w.gen)
    requires Interned(t, w).Some?
    ensures var (t', id) := Interned(t, w).value;
            && MessagesOk(t', pending, handles) && HandlesOk(t', handles)
            && UnpassedOk(t', pending, handles, unpassed[id := w.gen])
  {
    InternKeepsAllSlots(t, w);
    var (t', id) := Interned(t, w).value;
    MessagesMove(t, t', None, pending, handles);
    HandlesMove(t, t', None, handles);
    UnpassedMove(t, t', None, pending, handles, unpassed);
    InternIsUnheard(t, pending, handles, unpassed, w);
    hide GensDistinct, Interned, AllLive, TableOk, Accounted, MessagesOk, HandlesOk, KeepsSlots, SlotHas;
  }

  /** Nobody has heard of the next generation. */
  lemma InternIsUnheard(t: WakerTable, pending: seq<Msg>, handles: map<nat, Handle>, unpassed: map<nat, nat>, w: Waker)
    requires MessagesOk(t, pending, handles) && HandlesOk(t, handles)
    requires forall g: nat, i: nat :: SlotHas(t, i, g) ==> g < w.gen
    ensures w.gen !in handles && forall k :: 0 <= k < |pending| ==> pending[k].gen != w.gen
  {
    assert w.gen in handles ==> SlotHas(t, handles[w.gen].id, w.gen);
    forall k | 0 <= k < |pending|
      ensures pending[k].gen != w.gen
    {
      assert SlotHas(t, IdOf(pending[k]), pending[k].gen);
    }
    hide SlotHas;
  }

  lemma InternAccounted(t: WakerTable, pending: seq<Msg>, handles: map<nat, Handle>, unpassed: map<nat, nat>, w: Waker)
    requires TableOk(t) && Accounted(t, pending, handles, unpassed)
    requires Interned(t, w).Some?
    ensures var (t', id) := Interned(t, w).value; Accounted(t', pending, handles, unpassed[id := w.gen])
  {
    InternTakesFreeSlot(t, w);
    var (t', id) := Interned(t, w).value;
    forall i | i in LiveIds(t'.slots) && i != id
      ensures i in LiveIds(t.slots) && t'.slots[i] == t.slots[i]
    {}
    hide Interned, AllLive, TableOk;
  }

  lemma InternCore(t: WakerTable, pending: seq<Msg>, handles: map<nat, Handle>, unpassed: map<nat, nat>, w: Waker)
    requires CoreInv(t, pending, handles, unpassed, w.gen)
    requires Interned(t, w).Some?
    ensures var (t', id) := Interned(t, w).value;
            CoreInv(t', pending, handles, unpassed[id := w.gen], w.gen + 1)
  {
    InternKeepsReferences(t, pending, handles, unpassed, w);
    hide GensDistinct, Interned, AllLive, MessagesOk, HandlesOk, UnpassedOk, Accounted;
    InternTakesFreeSlot(t, w);
    InternGensDistinct(t, w);
    InternAccounted(t, pending, handles, unpassed, w);
  }

  lemma FromIdCore(t: WakerTable, pending: seq<Msg>, handles: map<nat, Handle>, unpassed: map<nat, nat>, nextGen: nat, id: nat, task: int)
    requires CoreInv(t, pending, handles, unpassed, nextGen)
    requires id in unpassed
    ensures CoreInv(t, pending, handles[unpassed[id] := Handle(id, task, 1)], unpassed - {id}, nextGen)
  {
    forall i | i in unpassed && i != id
      ensures unpassed[i] != unpassed[id]
    {
      assert SlotHas(t, i, unpassed[i]) && SlotHas(t, id, unpassed[id]);
    }
  }

  lemma RefsCore(t: WakerTable, pending: seq<Msg>, handles: map<nat, Handle>, unpassed: map<nat, nat>, nextGen: nat, gen: nat, refs: nat)
    requires CoreInv(t, pending, handles, unpassed, nextGen)
    requires gen in handles && refs >= 1
    ensures CoreInv(t, pending, handles[gen := handles[gen].(refs := refs)], unpassed, nextGen)
  {}

  lemma AppendKeepsDrops(pending: seq<Msg>, m: Msg, g: nat)
    requires DropPending(pending, g) || (!IsWake(m) && g == m.gen)
    ensures DropPending(pending + [m], g)
  {
    if DropPending(pending, g) {
      var k :| 0 <= k < |pending| && pending[k].gen == g && !IsWake(pending[k]);
      assert (pending + [m])[k] == pending[k];
    } else {
      assert (pending + [m])[|pending|] == m;
    }
  }

  /** A live handle wakes its waker. */
  lemma WakeCore(t: WakerTable, pending: seq<Msg>, handles: map<nat, Handle>, unpassed: map<nat, nat>, nextGen: nat, gen: nat)
    requires CoreInv(t, pending, handles, unpassed, nextGen)
    requires gen in handles
    ensures CoreInv(t, pending + [Msg(handles[gen].id, gen)], handles, unpassed, nextGen)
  {
    var m := Msg(handles[gen].id, gen);
    forall i | i in LiveIds(t.slots) && DropPending(pending, t.slots[i].value.gen)
      ensures DropPending(pending + [m], t.slots[i].value.gen)
    {
      AppendKeepsDrops(pending, m, t.slots[i].value.gen);
    }
  }

  /** The last clone of a handle goes away and announces it. */
  lemma DropCore(t: WakerTable, pending: seq<Msg>, handles: map<nat, Handle>, unpassed: map<nat, nat>, nextGen: nat, gen: nat)
    requires CoreInv(t, pending, handles, unpassed, nextGen)
    requires gen in handles
    ensures CoreInv(t, pending + [Msg(-1 - handles[gen].id, gen)], handles - {gen}, unpassed, nextGen)
  {
    var m := Msg(-1 - handles[gen].id, gen);
    forall i | i in LiveIds(t.slots) && (DropPending(pending, t.slots[i].value.gen) || t.slots[i].value.gen == gen)
      ensures DropPending(pending + [m], t.slots[i].value.gen)
    {
      AppendKeepsDrops(pending, m, t.slots[i].value.gen);
    }
  }

  lemma TailKeepsDrops(pending: seq<Msg>, g: nat)
    requires DropPending(pending, g)
    requires IsWake(pending[0]) || pending[0].gen != g
    ensures DropPending(pending[1..], g)
  {
    var k :| 0 <= k < |pending| && pending[k].gen == g && !IsWake(pending[k]);
    assert pending[1..][k - 1] == pending[k];
  }

  lemma DropKeepsSlots(t: WakerTable, id: nat, gen: nat, i: nat, g: nat)
    requires TableOk(t)
    requires SlotHas(t, id, gen) && SlotHas(t, i, g) && g != gen
    ensures SlotHas(Dropped(t, id), i, g)
  {}

  lemma DroppedGens(t: WakerTable, id: nat, nextGen: nat)
    requires TableOk(t) && GensDistinct(t, nextGen) && id in LiveIds(t.slots)
    ensures TableOk(Dropped(t, id)) && GensDistinct(Dropped(t, id), nextGen)
    ensures forall i :: i in LiveIds(Dropped(t, id).slots) ==>
              i != id && i in LiveIds(t.slots) && Dropped(t, id).slots[i] == t.slots[i]
  {
    DropKeepsTableIff(t, id);
  }

  /** The guest handles the oldest undrained message; it names its sender's waker. */
  lemma HandleWakeCore(t: WakerTable, pending: seq<Msg>, handles: map<nat, Handle>, unpassed: map<nat, nat>, nextGen: nat)
    requires CoreInv(t, pending, handles, unpassed, nextGen)
    requires pending != [] && IsWake(pending[0])
    ensures CoreInv(t, pending[1..], handles, unpassed, nextGen)
  {
    forall i | i in LiveIds(t.slots) && DropPending(pending, t.slots[i].value.gen)
      ensures DropPending(pending[1..], t.slots[i].value.gen)
    {
      TailKeepsDrops(pending, t.slots[i].value.gen);
    }
  }

  /** Behind a drop, nothing refers to the dropped waker any more. */
  lemma DropIsLast(t: WakerTable, pending: seq<Msg>, handles: map<nat, Handle>, unpassed: map<nat, nat>)
    requires MessagesOk(t, pending, handles) && UnpassedOk(t, pending, handles, unpassed)
    requires pending != [] && !IsWake(pending[0])
    ensures MessagesOk(t, pending[1..], handles) && UnpassedOk(t, pending[1..], handles, unpassed)
    ensures pending[0].gen !in handles
    ensures forall k :: 0 <= k < |pending[1..]| ==> pending[1..][k].gen != pending[0].gen
    ensures forall id :: id in unpassed ==> unpassed[id] != pending[0].gen
  {
    hide SlotHas;
  }

  lemma HandleDropReferences(t: WakerTable, pending: seq<Msg>, handles: map<nat, Handle>, unpassed: map<nat, nat>)
    requires TableOk(t) && MessagesOk(t, pending, handles) && HandlesOk(t, handles) && UnpassedOk(t, pending, handles, unpassed)
    requires pending != [] && !IsWake(pending[0])
    ensures var t' := Dropped(t, IdOf(pending[0]));
            && MessagesOk(t', pending[1..], handles) && HandlesOk(t', handles)
            && UnpassedOk(t', pending[1..], handles, unpassed)
  {
    var m, id := pending[0], IdOf(pending[0]);
    var t' := Dropped(t, id);
    assert SlotHas(t, id, m.gen);
    forall g: nat, i: nat | SlotHas(t, i, g) && g != m.gen
      ensures SlotHas(t', i, g)
    {
      DropKeepsSlots(t, id, m.gen, i, g);
    }
    assert KeepsSlots(t, t', Some(m.gen));
    DropIsLast(t, pending, handles, unpassed);
    hide Dropped, KeepsSlots, MessagesOk, HandlesOk, UnpassedOk, TableOk, SlotHas;
    MessagesMove(t, t', Some(m.gen), pending[1..], handles);
    HandlesMove(t, t', Some(m.gen), handles);
    UnpassedMove(t, t', Some(m.gen), pending[1..], handles, unpassed);
  }

  lemma HandleDropAccounted(t: WakerTable, pending: seq<Msg>, handles: map<nat, Handle>, unpassed: map<nat, nat>, nextGen: nat)
    requires TableOk(t) && GensDistinct(t, nextGen) && Accounted(t, pending, handles, unpassed)
    requires pending != [] && !IsWake(pending[0]) && SlotHas(t, IdOf(pending[0]), pending[0].gen)
    ensures Accounted(Dropped(t, IdOf(pending[0])), pending[1..], handles, unpassed)
  {
    var m, id := pending[0], IdOf(pending[0]);
    assert id in LiveIds(t.slots);
    DroppedGens(t, id, nextGen);
    var t' := Dropped(t, id);
    forall i | i in LiveIds(t'.slots) && DropPending(pending, t.slots[i].value.gen)
      ensures DropPending(pending[1..], t.slots[i].value.gen)
    {
      assert t.slots[i].value.gen != m.gen;
      TailKeepsDrops(pending, t.slots[i].value.gen);
    }
    hide Dropped, TableOk, DropPending;
  }

  lemma HandleDropCore(t: WakerTable, pending: seq<Msg>, handles: map<nat, Handle>, unpassed: map<nat, nat>, nextGen: nat)
    requires CoreInv(t, pending, handles, unpassed, nextGen)
    requires pending != [] && !IsWake(pending[0])
    ensures CoreInv(Dropped(t, IdOf(pending[0])), pending[1..], handles, unpassed, nextGen)
  {
    assert SlotHas(t, IdOf(pending[0]), pending[0].gen) && IdOf(pending[0]) in LiveIds(t.slots);
    hide Dropped, MessagesOk, HandlesOk, UnpassedOk, Accounted, TableOk, GensDistinct;
    DroppedGens(t, IdOf(pending[0]), nextGen);
    HandleDropReferences(t, pending, handles, unpassed);
    HandleDropAccounted(t, pending, handles, unpassed, nextGen);
  }

  lemma InitIdInv()
    ensures IdInv(Init())
  {}

  lemma InternKeeps(s: State, target: int)
    requires IdInv(s) && TaskEnabled(s, Intern(target))
    ensures IdInv(TaskApply(s, Intern(target)))
  {
    var w := Waker(s.nextGen, target);
    InternCore(s.table, Pending(s), s.handles, s.unpassed, w);
    InternTakesFreeSlot(s.table, w);
    AllLiveCount(s.table.slots);
    AllLiveCount(Interned(s.table, w).value.0.slots);
  }

  lemma HandleMessageKeeps(s: State)
    requires IdInv(s) && PollEnabled(s, HandleMessage)
    ensures IdInv(PollApply(s, HandleMessage))
  {
    hide CoreInv;
    assert Pending(s)[0] == s.phase.inbox[0];
    assert Pending(PollApply(s, HandleMessage)) == Pending(s)[1..];
    if IsWake(Pending(s)[0]) {
      HandleWakeCore(s.table, Pending(s), s.handles, s.unpassed, s.nextGen);
    } else {
      HandleDropCore(s.table, Pending(s), s.handles, s.unpassed, s.nextGen);
    }
  }

  lemma CloneKeeps(s: State, gen: nat)
    requires IdInv(s) && HostEnabled(s, CloneHandle(gen))
    ensures IdInv(HostApply(s, CloneHandle(gen)))
  {
    hide CoreInv;
    RefsCore(s.table, Pending(s), s.handles, s.unpassed, s.nextGen, gen, s.handles[gen].refs + 1);
  }

  lemma DropKeeps(s: State, gen: nat)
    requires IdInv(s) && HostEnabled(s, DropHandle(gen))
    ensures IdInv(HostApply(s, DropHandle(gen)))
  {
    hide CoreInv;
    if s.handles[gen].refs >= 2 {
      RefsCore(s.table, Pending(s), s.handles, s.unpassed, s.nextGen, gen, s.handles[gen].refs - 1);
    } else {
      DropCore(s.table, Pending(s), s.handles, s.unpassed, s.nextGen, gen);
      assert Pending(HostApply(s, DropHandle(gen))) == Pending(s) + [Msg(-1 - s.handles[gen].id, gen)];
    }
  }

  lemma WakeMessageKeeps(s: State, call: nat)
    requires IdInv(s) && HostEnabled(s, WakePushMessage(call))
    ensures IdInv(HostApply(s, WakePushMessage(call)))
  {
    hide CoreInv;
    var gen := s.wakes[call].gen;
    WakeCore(s.table, Pending(s), s.handles, s.unpassed, s.nextGen, gen);
    assert Pending(HostApply(s, WakePushMessage(call))) == Pending(s) + [Msg(s.handles[gen].id, gen)];
  }

  /** Steps that leave the table, the handles and the undrained messages alone. */
  ghost predicate KeepsCore(s: State, s': State) {
    && s'.table == s.table && s'.handles == s.handles && s'.unpassed == s.unpassed
    && s'.nextGen == s.nextGen && s'.peak == s.peak && Pending(s') == Pending(s)
    && (forall c :: c in s'.wakes ==> s'.wakes[c].gen in s.handles)
  }

  lemma DrainKeepsCore(s: State)
    requires forall c :: c in s.wakes ==> s.wakes[c].gen in s.handles
    requires PollEnabled(s, Drain)
    ensures KeepsCore(s, PollApply(s, Drain))
  {
    assert Pending(PollApply(s, Drain)) == Pending(s);
  }

  lemma PollStepKeepsCore(s: State, step: PollStep)
    requires forall c :: c in s.wakes ==> s.wakes[c].gen in s.handles
    requires PollEnabled(s, step) && !step.HandleMessage?
    ensures KeepsCore(s, PollApply(s, step))
  {
    hide Started, TaskLive, Pushed;
    match step {
      case Drain => DrainKeepsCore(s);
      case BeginPoll => case NextReadyTask => case EndTask(_) =>
      case StartSpawned => case EndSpawned => case CheckTasks => case CheckWakers =>
    }
  }

  lemma HostStepKeepsCore(s: State, step: HostStep)
    requires forall c :: c in s.wakes ==> s.wakes[c].gen in s.handles
    requires HostEnabled(s, step)
    requires !step.CloneHandle? && !step.DropHandle? && !step.WakePushMessage?
    ensures KeepsCore(s, HostApply(s, step))
  {
    hide Pushed;
    assert Pending(HostApply(s, step)) == Pending(s);
    match step {
      case BeginWake(_, _) => case WakePushTask(_) => case WakeSignal(_) =>
    }
  }

  lemma StepKeepsIdInv(s: State, step: Step)
    requires IdInv(s) && Enabled(s, step)
    ensures IdInv(Apply(s, step))
  {
    hide CoreInv;
    match step {
      case Poll(HandleMessage) => HandleMessageKeeps(s);
      case Task(Intern(target)) => InternKeeps(s, target);
      case Task(FromId(id)) =>
        FromIdCore(s.table, Pending(s), s.handles, s.unpassed, s.nextGen, id, s.phase.task);
      case Poll(p) => PollStepKeepsCore(s, p);
      case Task(_) => assert KeepsCore(s, Apply(s, step));
      case Host(CloneHandle(gen)) => CloneKeeps(s, gen);
      case Host(DropHandle(gen)) => DropKeeps(s, gen);
      case Host(WakePushMessage(call)) => WakeMessageKeeps(s, call);
      case Host(h) => HostStepKeepsCore(s, h);
    }
  }

  lemma {:induction false} RunKeepsIdInv(s: State, steps: seq<Step>)
    requires IdInv(s) && IsRun(s, steps)
    ensures IdInv(Exec(s, steps))
    decreases |steps|
  {
    if steps != [] {
      StepKeepsIdInv(s, steps[0]);
      RunKeepsIdInv(Apply(s, steps[0]), steps[1..]);
    }
  }

  lemma ReachableIdInv(s: State)
    requires Reachable(s)
    ensures IdInv(s)
  {
    var steps :| IsRun(Init(), steps) && Exec(Init(), steps) == s;
    InitIdInv();
    RunKeepsIdInv(Init(), steps);
  }

  /** The next message the guest handles names the live waker that its sender was created for. */
  lemma DrainedMessageReachesItsWaker(s: State)
    requires Reachable(s) && PollEnabled(s, HandleMessage)
    ensures var m := s.phase.inbox[0];
            && Lookup(s.table, IdOf(m)).Some?
            && Lookup(s.table, IdOf(m)).value.gen == m.gen
  {
    ReachableIdInv(s);
    assert Pending(s)[0] == s.phase.inbox[0];
  }

  /** An id is interned only when no handle, no message and no earlier interning of it is outstanding. */
  lemma InternedIdIsUnreferenced(s: State, target: int)
    requires Reachable(s) && TaskEnabled(s, Intern(target))
    ensures var (_, id) := Interned(s.table, Waker(s.nextGen, target)).value;
            && (forall g :: g in s.handles ==> s.handles[g].id != id)
            && (forall k :: 0 <= k < |Pending(s)| ==> IdOf(Pending(s)[k]) != id)
            && id !in s.unpassed
  {
    ReachableIdInv(s);
    InternTakesFreeSlot(s.table, Waker(s.nextGen, target));
    assert forall i, g :: SlotHas(s.table, i, g) ==> i in LiveIds(s.table.slots);
  }

  /** Per id, the undrained messages are wakes of one waker followed by at most one drop. */
  lemma PendingIsWakesThenOneDrop(s: State, j: nat, k: nat)
    requires Reachable(s)
    requires j < k < |Pending(s)| && IdOf(Pending(s)[j]) == IdOf(Pending(s)[k])
    ensures IsWake(Pending(s)[j])
    ensures Pending(s)[j].gen == Pending(s)[k].gen
  {
    ReachableIdInv(s);
    assert SlotHas(s.table, IdOf(Pending(s)[j]), Pending(s)[j].gen);
    assert SlotHas(s.table, IdOf(Pending(s)[k]), Pending(s)[k].gen);
  }

  /** The table is exactly as long as the largest number of wakers ever live at once, and leaks none. */
  lemma TableLengthIsPeak(s: State)
    requires Reachable(s)
    ensures |s.table.slots| == s.peak
    ensures TableOk(s.table)
    ensures Accounted(s.table, Pending(s), s.handles, s.unpassed)
  {
    ReachableIdInv(s);
  }
}
