/**
 * Whom a wake-up is for, from the moment the waker is interned and passed to an ocall: the host half marks
 * whichever guest task made the ocall, the guest half whichever one the waker was interned for.
 */
module WakerHandles {
  import opened Common
  import opened TaskSets
  import opened GuestTables
  import opened WakerProtocol
  import opened WakerIdentity
  import opened WakerProgress
  import opened WakerDelivery
  import opened WakerTasks

  lemma {:induction false} ReachableRun(s: State, steps: seq<Step>)
    requires Reachable(s) && IsRun(s, steps)
    ensures Reachable(Exec(s, steps))
    decreases |steps|
  {
    if steps != [] {
      ReachableStep(s, steps[0]);
      hide Reachable, Apply, Enabled;
      ReachableRun(Apply(s, steps[0]), steps[1..]);
    }
  }

  // The host half

  /** Generation `gen` has been passed; if its handle still exists it belongs to `task`. */
  ghost predicate PassedBy(s: State, gen: nat, task: int) {
    && gen < s.nextGen
    && (forall id :: id in s.unpassed ==> s.unpassed[id] != gen)
    && (gen in s.handles ==> s.handles[gen].task == task)
  }

  lemma PollKeepsPasser(s: State, p: PollStep, gen: nat, task: int)
    requires PassedBy(s, gen, task) && PollEnabled(s, p)
    ensures PassedBy(PollApply(s, p), gen, task)
  {
    hide Started, Lookup, Dropped, TaskLive, Pushed;
    match p {
      case BeginPoll => case Drain => case HandleMessage => case NextReadyTask => case EndTask(_) =>
      case StartSpawned => case EndSpawned => case CheckTasks => case CheckWakers =>
    }
  }

  lemma StepKeepsPasser(s: State, step: Step, gen: nat, task: int)
    requires PassedBy(s, gen, task) && Enabled(s, step)
    ensures PassedBy(Apply(s, step), gen, task)
  {
    match step {
      case Poll(p) =>
        PollKeepsPasser(s, p, gen, task);
      case Task(t) =>
        hide Interned, Pushed;
        match t {
          case Intern(_) => case FromId(_) => case MarkReady(_) => case Spawn =>
        }
      case Host(h) =>
        hide Pushed, BeingWoken;
        match h {
          case CloneHandle(_) => case DropHandle(_) => case BeginWake(_, _) =>
          case WakePushTask(_) => case WakePushMessage(_) => case WakeSignal(_) =>
        }
    }
  }

  lemma {:induction false} RunKeepsPasser(s: State, steps: seq<Step>, gen: nat, task: int)
    requires PassedBy(s, gen, task) && IsRun(s, steps)
    ensures PassedBy(Exec(s, steps), gen, task)
    decreases |steps|
  {
    if steps != [] {
      StepKeepsPasser(s, steps[0], gen, task);
      hide PassedBy, Apply, Enabled;
      RunKeepsPasser(Apply(s, steps[0]), steps[1..], gen, task);
    }
  }

  /** Passing an id makes the running task the owner of the new handle. */
  lemma PassedByRunning(s: State, id: nat)
    requires IdInv(s) && TaskEnabled(s, FromId(id))
    ensures var s', gen := TaskApply(s, FromId(id)), s.unpassed[id];
            gen in s'.handles && PassedBy(s', gen, s.phase.task)
  {
    var gen := s.unpassed[id];
    assert SlotHas(s.table, id, gen);
    forall i | i in s.unpassed && s.unpassed[i] == gen
      ensures i == id
    {
      assert SlotHas(s.table, i, gen);
    }
  }

  /**
   * If a waker id is passed to an ocall while task t runs, then after any later push of the host half of a
   * wake of that handle, t is in the ready queue or was popped since.
   */
  lemma HostWakeMarksCaller(s: State, id: nat, between: seq<Step>, call: nat, steps: seq<Step>)
    requires Reachable(s) && Enabled(s, Task(FromId(id)))
    requires var s1 := Apply(s, Task(FromId(id)));
             && IsRun(s1, between)
             && var s2 := Exec(s1, between);
                && Enabled(s2, Host(WakePushTask(call))) && s2.wakes[call].gen == s.unpassed[id]
                && IsRun(Apply(s2, Host(WakePushTask(call))), steps)
    ensures var s3 := Apply(Exec(Apply(s, Task(FromId(id))), between), Host(WakePushTask(call)));
            s.phase.task in Elems(Exec(s3, steps).ready) + PoppedIds(s3, steps)
  {
    var s1, gen, task := Apply(s, Task(FromId(id))), s.unpassed[id], s.phase.task;
    ReachableIdInv(s);
    PassedByRunning(s, id);
    hide IdInv, Reachable;
    RunKeepsPasser(s1, between, gen, task);
    var s2 := Exec(s1, between);
    assert WokenTask(s2, Host(WakePushTask(call))) == Some(task as int);
    hide Apply, PassedBy, WokenTask, Exec, IsRun, PoppedIds;
    WakeIsNotLost(s2, Host(WakePushTask(call)), steps);
  }

  // The guest half

  /** Wherever the waker of generation `gen` is, it was interned for `target`. */
  ghost predicate InternedFor(s: State, gen: nat, target: int) {
    && gen < s.nextGen
    && forall i: nat :: SlotHas(s.table, i, gen) ==> s.table.slots[i].value.task == target
  }

  lemma InternKeepsTarget(t: WakerTable, w: Waker, gen: nat, target: int)
    requires TableOk(t) && Interned(t, w).Some? && gen != w.gen
    requires forall i: nat :: SlotHas(t, i, gen) ==> t.slots[i].value.task == target
    ensures forall i: nat :: SlotHas(Interned(t, w).value.0, i, gen) ==> Interned(t, w).value.0.slots[i].value.task == target
  {
    InternTakesFreeSlot(t, w);
    var (t', id) := Interned(t, w).value;
    hide Interned, AllLive;
    forall i: nat | SlotHas(t', i, gen)
      ensures t'.slots[i].value.task == target
    {
      assert i != id;
      assert i in LiveIds(t'.slots);
      assert i in LiveIds(t.slots);
      assert SlotHas(t, i, gen);
    }
  }

  lemma HandleKeepsTarget(t: WakerTable, ready: seq<int>, code: int, gen: nat, target: int)
    requires forall i: nat :: SlotHas(t, i, gen) ==> t.slots[i].value.task == target
    ensures var t' := HandledCode(t, ready, code).0;
            forall i: nat :: SlotHas(t', i, gen) ==> t'.slots[i].value.task == target
  {
    var t' := HandledCode(t, ready, code).0;
    hide Pushed, Lookup;
    forall i: nat | SlotHas(t', i, gen)
      ensures t'.slots[i].value.task == target
    {
      assert SlotHas(t, i, gen);
    }
  }

  lemma StepKeepsTarget(s: State, step: Step, gen: nat, target: int)
    requires IdInv(s) && InternedFor(s, gen, target) && Enabled(s, step)
    ensures InternedFor(Apply(s, step), gen, target)
  {
    if step.Task? && step.t.Intern? {
      InternKeepsTarget(s.table, Waker(s.nextGen, step.t.target), gen, target);
    } else if step == Poll(HandleMessage) {
      HandleKeepsTarget(s.table, s.ready, s.phase.inbox[0].code, gen, target);
    } else {
      OtherStepKeepsTable(s, step);
    }
    hide IdInv, SlotHas, Interned, HandledCode, Started, TaskLive, Pushed, BeingWoken;
  }

  lemma OtherStepKeepsTable(s: State, step: Step)
    requires Enabled(s, step) && !(step.Task? && step.t.Intern?) && step != Poll(HandleMessage)
    ensures Apply(s, step).table == s.table && Apply(s, step).nextGen == s.nextGen
  {
    hide Interned, Started, Lookup, Dropped, TaskLive, Pushed, BeingWoken;
    match step {
      case Poll(p) =>
        match p {
          case BeginPoll => case Drain => case NextReadyTask => case EndTask(_) =>
          case StartSpawned => case EndSpawned => case CheckTasks => case CheckWakers =>
        }
      case Task(_) =>
      case Host(_) =>
    }
  }

  lemma {:induction false} RunKeepsTarget(s: State, steps: seq<Step>, gen: nat, target: int)
    requires IdInv(s) && InternedFor(s, gen, target) && IsRun(s, steps)
    ensures InternedFor(Exec(s, steps), gen, target)
    decreases |steps|
  {
    if steps != [] {
      StepKeepsTarget(s, steps[0], gen, target);
      StepKeepsIdInv(s, steps[0]);
      hide IdInv, InternedFor, Apply, Enabled;
      RunKeepsTarget(Apply(s, steps[0]), steps[1..], gen, target);
    }
  }

  lemma InternMakesTarget(s: State, target: int)
    requires IdInv(s) && TaskEnabled(s, Intern(target))
    ensures InternedFor(TaskApply(s, Intern(target)), s.nextGen, target)
  {
    var w := Waker(s.nextGen, target);
    InternTakesFreeSlot(s.table, w);
    var (t', id) := Interned(s.table, w).value;
    forall i: nat | SlotHas(t', i, s.nextGen)
      ensures t'.slots[i].value.task == target
    {
      assert i in LiveIds(t'.slots);
      assert i in LiveIds(s.table.slots) ==> SlotHas(s.table, i, s.nextGen);
    }
    hide Interned, AllLive;
  }

  lemma MessageMarksTarget(s: State, gen: nat, target: int, call: nat, steps: seq<Step>)
    requires Reachable(s) && InternedFor(s, gen, target)
    requires Enabled(s, Host(WakePushMessage(call))) && s.wakes[call].gen == gen
    requires IsRun(Apply(s, Host(WakePushMessage(call))), steps)
    ensures var s1 := Apply(s, Host(WakePushMessage(call)));
            || Msg(s.handles[gen].id, gen) in Pending(Exec(s1, steps))
            || target in Elems(Exec(s1, steps).ready) + PoppedIds(s1, steps)
  {
    WakeMessageIsNotLost(s, call, steps);
    assert SlotHas(s.table, s.handles[gen].id, gen);
    hide Reachable, Apply, Exec, IsRun, PoppedIds, Pending;
  }

  /**
   * If a waker is interned for a task, then after any later push of the message half of a wake of its handle,
   * the message is pending, or that task is in the ready queue or was popped since.
   */
  lemma GuestWakeMarksTarget(s: State, target: int, between: seq<Step>, call: nat, steps: seq<Step>)
    requires Reachable(s) && Enabled(s, Task(Intern(target)))
    requires var s1 := Apply(s, Task(Intern(target)));
             && IsRun(s1, between)
             && var s2 := Exec(s1, between);
                && Enabled(s2, Host(WakePushMessage(call))) && s2.wakes[call].gen == s.nextGen
                && IsRun(Apply(s2, Host(WakePushMessage(call))), steps)
    ensures var s2 := Exec(Apply(s, Task(Intern(target))), between);
            var s3 := Apply(s2, Host(WakePushMessage(call)));
            || Msg(s2.handles[s.nextGen].id, s.nextGen) in Pending(Exec(s3, steps))
            || target in Elems(Exec(s3, steps).ready) + PoppedIds(s3, steps)
  {
    var s1, gen := Apply(s, Task(Intern(target))), s.nextGen;
    ReachableIdInv(s);
    InternMakesTarget(s, target);
    ReachableStep(s, Task(Intern(target)));
    StepKeepsIdInv(s, Task(Intern(target)));
    hide IdInv, Reachable, Apply;
    ReachableRun(s1, between);
    RunKeepsTarget(s1, between, gen, target);
    var s2 := Exec(s1, between);
    hide InternedFor, Enabled, Exec, IsRun, PoppedIds, Pending;
    MessageMarksTarget(s2, gen, target, call, steps);
  }

  // Handles

  /** How many clones of the handle exist. */
  ghost function Refs(s: State, gen: nat): nat {
    if gen in s.handles then s.handles[gen].refs else 0
  }

  ghost function Clones(steps: seq<Step>, gen: nat): nat {
    if steps == [] then 0 else (if steps[0] == Host(CloneHandle(gen)) then 1 else 0) + Clones(steps[1..], gen)
  }

  ghost function Drops(steps: seq<Step>, gen: nat): nat {
    if steps == [] then 0 else (if steps[0] == Host(DropHandle(gen)) then 1 else 0) + Drops(steps[1..], gen)
  }

  lemma HostCountsRefs(s: State, h: HostStep, gen: nat)
    requires HostEnabled(s, h) && forall g :: g in s.handles ==> s.handles[g].refs >= 1
    ensures Refs(HostApply(s, h), gen) == Refs(s, gen)
            + (if h == CloneHandle(gen) then 1 else 0) - (if h == DropHandle(gen) then 1 else 0)
  {
    hide Pushed, BeingWoken;
    match h {
      case CloneHandle(_) => case DropHandle(_) => case BeginWake(_, _) =>
      case WakePushTask(_) => case WakePushMessage(_) => case WakeSignal(_) =>
    }
  }

  lemma GuestKeepsRefs(s: State, step: Step, gen: nat)
    requires Enabled(s, step) && !step.Host? && forall id :: id in s.unpassed ==> s.unpassed[id] != gen
    ensures Refs(Apply(s, step), gen) == Refs(s, gen)
  {
    hide Interned, Started, Lookup, Dropped, TaskLive, Pushed;
    match step {
      case Poll(p) =>
        match p {
          case BeginPoll => case Drain => case HandleMessage => case NextReadyTask => case EndTask(_) =>
          case StartSpawned => case EndSpawned => case CheckTasks => case CheckWakers =>
        }
      case Task(_) =>
    }
  }

  /**
   * In every run, a handle exists for as long as it has been cloned at least as often as it has been dropped
   * since it was passed.
   */
  lemma {:induction false} HandleLivesWhileReferenced(s: State, steps: seq<Step>, gen: nat, task: int)
    requires IdInv(s) && PassedBy(s, gen, task) && IsRun(s, steps)
    ensures Refs(Exec(s, steps), gen) + Drops(steps, gen) == Refs(s, gen) + Clones(steps, gen)
    ensures gen in Exec(s, steps).handles <==> Drops(steps, gen) < Refs(s, gen) + Clones(steps, gen)
    decreases |steps|
  {
    if steps == [] {
      assert gen in s.handles ==> s.handles[gen].refs >= 1;
    } else {
      if steps[0].Host? {
        assert forall g :: g in s.handles ==> s.handles[g].refs >= 1;
        HostCountsRefs(s, steps[0].h, gen);
      } else {
        GuestKeepsRefs(s, steps[0], gen);
      }
      StepKeepsPasser(s, steps[0], gen, task);
      StepKeepsIdInv(s, steps[0]);
      hide IdInv, PassedBy, Apply, Enabled, Refs;
      HandleLivesWhileReferenced(Apply(s, steps[0]), steps[1..], gen, task);
    }
  }

  /** Every handle can be woken at any moment: both halves are pushed and the executor is signalled, whatever the guest is doing. */
  lemma WakeCompletes(s: State, call: nat, gen: nat)
    requires gen in s.handles && call !in s.wakes
    ensures HostEnabled(s, BeginWake(call, gen))
    ensures var s1 := HostApply(s, BeginWake(call, gen));
            && HostEnabled(s1, WakePushTask(call))
            && var s2 := HostApply(s1, WakePushTask(call));
               && HostEnabled(s2, WakePushMessage(call))
               && var s3 := HostApply(s2, WakePushMessage(call));
                  && HostEnabled(s3, WakeSignal(call))
                  && var s4 := HostApply(s3, WakeSignal(call));
                     && s4.signalled && s4.wakes == s.wakes && s4.handles == s.handles
                     && s.handles[gen].task in s4.ready && Msg(s.handles[gen].id, gen) in s4.messages
  {
    PushKeepsMembers(s.ready, s.handles[gen].task, s.handles[gen].task);
    hide Pushed;
  }

  /** A handle that no thread is waking can be dropped once per clone; the last drop, and only that, tells the guest. */
  lemma {:induction false} DropsRelease(s: State, gen: nat)
    requires gen in s.handles && s.handles[gen].refs >= 1
    requires forall c :: c in s.wakes ==> s.wakes[c].gen != gen
    ensures var h, steps := s.handles[gen], seq(s.handles[gen].refs, _ => Host(DropHandle(gen)));
            && IsRun(s, steps)
            && Exec(s, steps) == s.(handles := s.handles - {gen}, messages := s.messages + [Msg(-1 - h.id, gen)])
    decreases s.handles[gen].refs
  {
    var h := s.handles[gen];
    var steps := seq(h.refs, _ => Host(DropHandle(gen)));
    assert Enabled(s, steps[0]);
    var s1 := Apply(s, steps[0]);
    if h.refs >= 2 {
      DropsRelease(s1, gen);
      assert steps[1..] == seq(h.refs - 1, _ => Host(DropHandle(gen)));
      assert s1.handles - {gen} == s.handles - {gen};
    } else {
      assert steps[1..] == [];
    }
  }
}
