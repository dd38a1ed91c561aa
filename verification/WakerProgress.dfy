/**
 * Progress of the protocol over every run: work never waits without a signal to the executor,
 * ready tasks are polled in FIFO order one per poll, and spawned futures are queued by the end of
 * the poll that spawned them.
 */
module WakerProgress {
  import opened Common
  import opened TaskSets
  import opened GuestTables
  import opened WakerProtocol

  ghost predicate HasWake(messages: seq<Msg>) {
    exists k :: 0 <= k < |messages| && IsWake(messages[k])
  }

  /** The executor will poll again: it has been signalled, or a host thread is on its way to do so. */
  ghost predicate Attended(s: State) {
    s.signalled || s.wakes != map[]
  }

  ghost predicate SignalInv(s: State) {
    && (s.phase.Idle? && (s.ready != [] || HasWake(s.messages)) ==> Attended(s))
    && (s.phase.CheckingWakers? && s.ready != [] ==> Attended(s))
  }

  lemma AppendWake(messages: seq<Msg>, m: Msg)
    ensures HasWake(messages + [m]) <==> HasWake(messages) || IsWake(m)
  {
    if HasWake(messages) {
      var k :| 0 <= k < |messages| && IsWake(messages[k]);
      assert (messages + [m])[k] == messages[k];
    }
    assert (messages + [m])[|messages|] == m;
  }

  lemma PollKeepsSignalInv(s: State, step: PollStep)
    requires SignalInv(s) && PollEnabled(s, step)
    ensures SignalInv(PollApply(s, step))
  {
    hide Started, Lookup, Dropped, TaskLive, Pushed;
    match step {
      case BeginPoll => case Drain => case HandleMessage => case NextReadyTask => case EndTask(_) =>
      case StartSpawned => case EndSpawned => case CheckTasks => case CheckWakers =>
    }
  }

  lemma HostKeepsSignalInv(s: State, step: HostStep)
    requires SignalInv(s) && HostEnabled(s, step)
    ensures SignalInv(HostApply(s, step))
  {
    hide Pushed, BeingWoken;
    match step {
      case DropHandle(gen) => AppendWake(s.messages, Msg(-1 - s.handles[gen].id, gen));
      case BeginWake(call, gen) => assert call in HostApply(s, step).wakes;
      case WakePushTask(call) => assert call in HostApply(s, step).wakes;
      case WakePushMessage(call) => assert call in HostApply(s, step).wakes;
      case _ =>
    }
  }

  lemma {:induction false} RunKeepsSignalInv(s: State, steps: seq<Step>)
    requires SignalInv(s) && IsRun(s, steps)
    ensures SignalInv(Exec(s, steps))
    decreases |steps|
  {
    if steps != [] {
      match steps[0] {
        case Poll(p) => PollKeepsSignalInv(s, p);
        case Task(_) =>
        case Host(h) => HostKeepsSignalInv(s, h);
      }
      RunKeepsSignalInv(Apply(s, steps[0]), steps[1..]);
    }
  }

  /** Between polls, a ready task or an undelivered wake never waits for an unsignalled executor. */
  lemma NoStall(s: State)
    requires Reachable(s) && s.phase.Idle?
    requires s.ready != [] || HasWake(s.messages)
    ensures Attended(s)
  {
    var steps :| IsRun(Init(), steps) && Exec(Init(), steps) == s;
    RunKeepsSignalInv(Init(), steps);
  }

  // FIFO order

  ghost predicate IsPop(step: Step) {
    step == Poll(NextReadyTask)
  }

  ghost predicate IsBegin(step: Step) {
    step == Poll(BeginPoll)
  }

  ghost function Pops(steps: seq<Step>): nat {
    if steps == [] then 0 else (if IsPop(steps[0]) then 1 else 0) + Pops(steps[1..])
  }

  ghost function Polls(steps: seq<Step>): nat {
    if steps == [] then 0 else (if IsBegin(steps[0]) then 1 else 0) + Polls(steps[1..])
  }

  /** The id that the n-th `next_ready_task` of the run returns. */
  ghost function NthPop(s: State, steps: seq<Step>, n: nat): Option<int>
    requires IsRun(s, steps)
    decreases |steps|
  {
    if steps == [] then None
    else if IsPop(steps[0]) && n == 0 then
      if s.ready == [] then None else Some(s.ready[0])
    else
      NthPop(Apply(s, steps[0]), steps[1..], if IsPop(steps[0]) then n - 1 else n)
  }

  lemma PollKeepsQueue(s: State, step: PollStep)
    requires PollEnabled(s, step)
    ensures if step.NextReadyTask? && s.ready != [] then PollApply(s, step).ready == s.ready[1..]
            else s.ready <= PollApply(s, step).ready
  {
    hide Started, Lookup, Dropped, TaskLive;
    match step {
      case HandleMessage =>
        var w := Lookup(s.table, IdOf(s.phase.inbox[0]));
        if w.Some? { PushRefinesSet(s.ready, w.value.task); }
      case StartSpawned => PushRefinesSet(s.ready, Started(s.tasks, s.spawning[0]).value.1);
      case BeginPoll => case Drain => case NextReadyTask => case EndTask(_) =>
      case EndSpawned => case CheckTasks => case CheckWakers =>
    }
  }

  /** Nothing but `next_ready_task` takes from the front, and it takes one. */
  lemma StepKeepsQueue(s: State, step: Step)
    requires Enabled(s, step)
    ensures if IsPop(step) && s.ready != [] then Apply(s, step).ready == s.ready[1..]
            else s.ready <= Apply(s, step).ready
  {
    hide Interned, Pushed, BeingWoken, PollApply;
    match step {
      case Poll(p) => PollKeepsQueue(s, p);
      case Task(MarkReady(target)) => PushRefinesSet(s.ready, target);
      case Host(WakePushTask(call)) => PushRefinesSet(s.ready, s.handles[s.wakes[call].gen].task);
      case Task(_) =>
      case Host(_) =>
    }
  }

  /** Whatever is pushed meanwhile, an entry moves up one place per pop. */
  lemma {:induction false} MovesUp(s: State, steps: seq<Step>, p: nat)
    requires IsRun(s, steps) && p < |s.ready| && Pops(steps) <= p
    ensures p - Pops(steps) < |Exec(s, steps).ready| && Exec(s, steps).ready[p - Pops(steps)] == s.ready[p]
    decreases |steps|
  {
    if steps != [] {
      StepKeepsQueue(s, steps[0]);
      var s' := Apply(s, steps[0]);
      var q := if IsPop(steps[0]) then p - 1 else p;
      assert s'.ready[q] == s.ready[p];
      MovesUp(s', steps[1..], q);
    }
  }

  lemma {:induction false} FifoOrder(s: State, steps: seq<Step>, p: nat)
    requires IsRun(s, steps) && p < |s.ready|
    ensures Pops(steps) <= p ==>
              p - Pops(steps) < |Exec(s, steps).ready| && Exec(s, steps).ready[p - Pops(steps)] == s.ready[p]
    ensures Pops(steps) > p ==> NthPop(s, steps, p) == Some(s.ready[p])
    decreases |steps|
  {
    if Pops(steps) <= p {
      MovesUp(s, steps, p);
    } else if !(IsPop(steps[0]) && p == 0) {
      StepKeepsQueue(s, steps[0]);
      var s' := Apply(s, steps[0]);
      var q := if IsPop(steps[0]) then p - 1 else p;
      assert s'.ready[q] == s.ready[p];
      FifoOrder(s', steps[1..], q);
    }
  }

  /** Polls that have begun and not yet asked for their task. */
  ghost function Owed(s: State): nat {
    if s.phase.Entering? || s.phase.Draining? then 1 else 0
  }

  /** Each poll asks for exactly one task. */
  lemma {:induction false} OnePopPerPoll(s: State, steps: seq<Step>)
    requires IsRun(s, steps)
    ensures Pops(steps) + Owed(Exec(s, steps)) == Polls(steps) + Owed(s)
    decreases |steps|
  {
    if steps != [] {
      OwedStep(s, steps[0]);
      OnePopPerPoll(Apply(s, steps[0]), steps[1..]);
    }
  }

  lemma OwedPollStep(s: State, p: PollStep)
    requires PollEnabled(s, p)
    ensures Owed(PollApply(s, p)) ==
            Owed(s) + (if p.BeginPoll? then 1 else 0) - (if p.NextReadyTask? then 1 else 0)
  {
    hide Started, Lookup, Dropped, TaskLive, Pushed;
    match p {
      case BeginPoll => case Drain => case HandleMessage => case NextReadyTask => case EndTask(_) =>
      case StartSpawned => case EndSpawned => case CheckTasks => case CheckWakers =>
    }
  }

  lemma OwedStep(s: State, step: Step)
    requires Enabled(s, step)
    ensures Owed(Apply(s, step)) ==
            Owed(s) + (if IsBegin(step) then 1 else 0) - (if IsPop(step) then 1 else 0)
  {
    hide Interned, TaskLive, Pushed, BeingWoken, PollApply;
    match step {
      case Poll(p) => OwedPollStep(s, p);
      case Task(_) =>
      case Host(_) =>
    }
  }

  lemma {:induction false} RunExtends(s: State, steps: seq<Step>, step: Step)
    requires IsRun(s, steps) && Enabled(Exec(s, steps), step)
    ensures IsRun(s, steps + [step]) && Exec(s, steps + [step]) == Apply(Exec(s, steps), step)
    decreases |steps|
  {
    hide Apply, Enabled;
    if steps == [] {
      assert [step][1..] == [];
    } else {
      RunExtends(Apply(s, steps[0]), steps[1..], step);
      assert (steps + [step])[1..] == steps[1..] + [step];
    }
  }

  /** Every prefix of a run is a run, and the next step is enabled where it ends. */
  lemma {:induction false} RunPrefix(s: State, steps: seq<Step>, k: nat)
    requires IsRun(s, steps) && k < |steps|
    ensures IsRun(s, steps[..k]) && Enabled(Exec(s, steps[..k]), steps[k])
    decreases |steps|
  {
    hide Apply, Enabled;
    if k > 0 {
      RunPrefix(Apply(s, steps[0]), steps[1..], k - 1);
      assert steps[..k][1..] == steps[1..][..k - 1];
    }
  }

  /** Where pop number p of a run happens, and what is then at the front. */
  lemma {:induction false} PopsAt(s: State, steps: seq<Step>, p: nat) returns (k: nat)
    requires IsRun(s, steps) && p < |s.ready| && Pops(steps) > p
    ensures k < |steps| && IsPop(steps[k]) && Pops(steps[..k]) == p && IsRun(s, steps[..k])
    ensures Exec(s, steps[..k]).ready != [] && Exec(s, steps[..k]).ready[0] == s.ready[p]
    decreases |steps|
  {
    if IsPop(steps[0]) && p == 0 {
      k := 0;
    } else {
      StepKeepsQueue(s, steps[0]);
      var s' := Apply(s, steps[0]);
      var q := if IsPop(steps[0]) then p - 1 else p;
      assert s'.ready[q] == s.ready[p];
      hide Apply, Enabled;
      k := PopsAt(s', steps[1..], q);
      k := k + 1;
      assert steps[..k][1..] == steps[1..][..k - 1] && steps[..k][0] == steps[0];
    }
  }

  /** The (p+1)-th pop of the run comes after the steps before `k`, and the state after it is inside the poll of `id` if `id` is live. */
  ghost predicate PollsAt(s: State, steps: seq<Step>, k: nat, p: nat, id: int) {
    && k < |steps| && IsPop(steps[k]) && Pops(steps[..k]) == p
    && IsRun(s, steps[..k]) && IsRun(s, steps[..k + 1])
    && Exec(s, steps[..k + 1]).phase ==
       if TaskLive(Exec(s, steps[..k]).tasks, id) then Running(id) else CheckingTasks
  }

  /**
   * A task at position p between polls is taken by the (p+1)-th poll from there, whatever is pushed
   * meanwhile, and if it is live then, that poll runs it.
   */
  lemma PolledByItsTurn(s: State, steps: seq<Step>, p: nat)
    requires IsRun(s, steps) && s.phase.Idle? && p < |s.ready|
    requires Polls(steps) > p && Owed(Exec(s, steps)) == 0
    ensures NthPop(s, steps, p) == Some(s.ready[p])
    ensures exists k: nat :: PollsAt(s, steps, k, p, s.ready[p])
  {
    OnePopPerPoll(s, steps);
    FifoOrder(s, steps, p);
    PopIsPolled(s, steps, p);
  }

  /** A popped task is polled next if it is live. */
  lemma PopRuns(s: State)
    requires PollEnabled(s, NextReadyTask) && s.ready != []
    ensures Apply(s, Poll(NextReadyTask)).phase == if TaskLive(s.tasks, s.ready[0]) then Running(s.ready[0]) else CheckingTasks
  {}

  /** In every run, what pop number p returns is polled next if it is live. */
  lemma PopIsPolled(s: State, steps: seq<Step>, p: nat)
    requires IsRun(s, steps) && p < |s.ready| && Pops(steps) > p
    ensures exists k: nat :: PollsAt(s, steps, k, p, s.ready[p])
  {
    hide Exec, IsRun, Apply, Pops, TaskLive, PollEnabled;
    var k := PopsAt(s, steps, p);
    RunPrefix(s, steps, k);
    RunExtends(s, steps[..k], steps[k]);
    assert steps[..k] + [steps[k]] == steps[..k + 1];
    PopRuns(Exec(s, steps[..k]));
    assert PollsAt(s, steps, k, p, s.ready[p]);
  }

  // No wake-up is lost

  ghost function PoppedIds(s: State, steps: seq<Step>): set<int>
    requires IsRun(s, steps)
    decreases |steps|
  {
    if steps == [] then {}
    else (if IsPop(steps[0]) && s.ready != [] then {s.ready[0]} else {}) + PoppedIds(Apply(s, steps[0]), steps[1..])
  }

  /** A ready task stays ready until it is popped. */
  lemma {:induction false} ReadyUntilPopped(s: State, steps: seq<Step>)
    requires IsRun(s, steps)
    ensures Elems(s.ready) <= Elems(Exec(s, steps).ready) + PoppedIds(s, steps)
    decreases |steps|
  {
    if steps != [] {
      var s' := Apply(s, steps[0]);
      StepKeepsQueue(s, steps[0]);
      ReadyUntilPopped(s', steps[1..]);
      if IsPop(steps[0]) && s.ready != [] {
        PopRefinesSet(s.ready);
      } else {
        assert Elems(s.ready) <= Elems(s'.ready) by {
          assert forall i :: 0 <= i < |s.ready| ==> s'.ready[i] == s.ready[i];
        }
      }
    }
  }

  /** What a step marks ready: the host's or the guest's half of a wake-up, or a guest's own wake. */
  ghost function WokenTask(s: State, step: Step): Option<int>
    requires Enabled(s, step)
  {
    match step
    case Host(WakePushTask(call)) => Some(s.handles[s.wakes[call].gen].task)
    case Poll(HandleMessage) =>
      var w := Lookup(s.table, IdOf(s.phase.inbox[0]));
      if IsWake(s.phase.inbox[0]) && w.Some? then Some(w.value.task) else None
    case Task(MarkReady(target)) => Some(target)
    case _ => None
  }

  /** A woken task is still queued later on, unless it has been popped since. */
  lemma WakeIsNotLost(s: State, step: Step, steps: seq<Step>)
    requires Enabled(s, step) && IsRun(Apply(s, step), steps)
    requires WokenTask(s, step).Some?
    ensures WokenTask(s, step).value in Elems(Exec(Apply(s, step), steps).ready) + PoppedIds(Apply(s, step), steps)
  {
    var id := WokenTask(s, step).value;
    PushRefinesSet(s.ready, id);
    assert id in Elems(Apply(s, step).ready);
    ReadyUntilPopped(Apply(s, step), steps);
  }

  // Spawned futures

  ghost predicate NewTasksReady(s: State) {
    forall f :: f in s.newTasks ==>
      && 0 < s.newTasks[f] < |s.tasks|
      && s.tasks[s.newTasks[f]] == Some(f)
      && s.newTasks[f] in s.ready
  }

  ghost predicate SpawnInv(s: State) {
    && s.tasks != []
    && (s.phase.Exited? <==> s.tasks[0].None?)
    && (s.phase.Running? ==> TaskLive(s.tasks, s.phase.task))
    && (s.phase.Running? || s.phase.StartingSpawned? || s.phase.Exited? || s.spawning == [])
    && (s.phase.Entering? || s.phase.Draining? || s.phase.Running? ==> s.newTasks == map[])
    && (!s.phase.Exited? ==> NewTasksReady(s))
  }

  lemma PushKeepsMembers(q: seq<int>, id: int, x: int)
    requires x in q || x == id
    ensures x in Pushed(q, id)
  {
    PushRefinesSet(q, id);
    assert x in Elems(q) + {id};
  }

  lemma StartKeepsSpawnInv(s: State)
    requires SpawnInv(s) && PollEnabled(s, StartSpawned)
    ensures SpawnInv(PollApply(s, StartSpawned))
  {
    hide Started, Pushed;
    StartTakesFreeSlot(s.tasks, s.spawning[0]);
    var (tasks, id) := Started(s.tasks, s.spawning[0]).value;
    var s' := PollApply(s, StartSpawned);
    forall f | f in s'.newTasks
      ensures 0 < s'.newTasks[f] < |s'.tasks| && s'.tasks[s'.newTasks[f]] == Some(f) && s'.newTasks[f] in s'.ready
    {
      PushKeepsMembers(s.ready, id, s'.newTasks[f]);
    }
  }

  lemma HandleKeepsSpawnInv(s: State)
    requires SpawnInv(s) && PollEnabled(s, HandleMessage)
    ensures SpawnInv(PollApply(s, HandleMessage))
  {
    hide Lookup, Dropped;
  }

  lemma EndTaskKeepsSpawnInv(s: State, step: PollStep)
    requires SpawnInv(s) && PollEnabled(s, step) && (step.EndTask? || step.NextReadyTask?)
    ensures SpawnInv(PollApply(s, step))
  {
    if step.EndTask? {
    } else {
    }
  }

  lemma PollKeepsSpawnInv(s: State, step: PollStep)
    requires SpawnInv(s) && PollEnabled(s, step)
    ensures SpawnInv(PollApply(s, step))
  {
    hide Started, Lookup, Dropped, Pushed;
    match step {
      case StartSpawned => StartKeepsSpawnInv(s);
      case HandleMessage => HandleKeepsSpawnInv(s);
      case NextReadyTask => EndTaskKeepsSpawnInv(s, step);
      case EndTask(_) => EndTaskKeepsSpawnInv(s, step);
      case BeginPoll => case Drain => case EndSpawned => case CheckTasks => case CheckWakers =>
    }
  }

  lemma HostKeepsSpawnInv(s: State, step: HostStep)
    requires SpawnInv(s) && HostEnabled(s, step)
    ensures SpawnInv(HostApply(s, step))
  {
    hide Pushed, BeingWoken;
    if step.WakePushTask? && !s.phase.Exited? {
      forall f | f in s.newTasks
        ensures s.newTasks[f] in HostApply(s, step).ready
      {
        PushKeepsMembers(s.ready, s.handles[s.wakes[step.call].gen].task, s.newTasks[f]);
      }
    }
  }

  lemma {:induction false} RunKeepsSpawnInv(s: State, steps: seq<Step>)
    requires SpawnInv(s) && IsRun(s, steps)
    ensures SpawnInv(Exec(s, steps))
    decreases |steps|
  {
    if steps != [] {
      match steps[0] {
        case Poll(p) => PollKeepsSpawnInv(s, p);
        case Task(_) =>
        case Host(h) => HostKeepsSpawnInv(s, h);
      }
      RunKeepsSpawnInv(Apply(s, steps[0]), steps[1..]);
    }
  }

  ghost predicate NoNewPoll(steps: seq<Step>) {
    forall k :: 0 <= k < |steps| ==> !IsBegin(steps[k])
  }

  lemma {:induction false} SpawnedAreStarted(s: State, steps: seq<Step>)
    requires IsRun(s, steps) && NoNewPoll(steps)
    ensures Elems(s.spawning) + s.newTasks.Keys <= Elems(Exec(s, steps).spawning) + Exec(s, steps).newTasks.Keys
    decreases |steps|
  {
    if steps != [] {
      SpawnedStep(s, steps[0]);
      SpawnedAreStarted(Apply(s, steps[0]), steps[1..]);
    }
  }

  lemma SpawnedPollStep(s: State, p: PollStep)
    requires PollEnabled(s, p) && !p.BeginPoll?
    ensures Elems(s.spawning) + s.newTasks.Keys <= Elems(PollApply(s, p).spawning) + PollApply(s, p).newTasks.Keys
  {
    hide Started, Lookup, Dropped, TaskLive, Pushed;
    match p {
      case Drain => case HandleMessage => case NextReadyTask => case EndTask(_) =>
      case StartSpawned => assert s.spawning == [s.spawning[0]] + s.spawning[1..];
      case EndSpawned => case CheckTasks => case CheckWakers =>
    }
  }

  lemma SpawnedStep(s: State, step: Step)
    requires Enabled(s, step) && !IsBegin(step)
    ensures Elems(s.spawning) + s.newTasks.Keys <= Elems(Apply(s, step).spawning) + Apply(s, step).newTasks.Keys
  {
    hide Interned, TaskLive, Pushed, BeingWoken, PollApply;
    match step {
      case Poll(p) => SpawnedPollStep(s, p);
      case Task(_) =>
      case Host(_) =>
    }
  }

  /** A future spawned during a poll holds its own task slot, and is queued, when that poll is over. */
  lemma SpawnedIsReadyAfterPoll(s: State, steps: seq<Step>, future: nat)
    requires Reachable(s) && future in s.spawning
    requires IsRun(s, steps) && NoNewPoll(steps) && Exec(s, steps).phase.Idle?
    ensures var e := Exec(s, steps);
            && future in e.newTasks
            && 0 < e.newTasks[future] < |e.tasks|
            && e.tasks[e.newTasks[future]] == Some(future)
            && e.newTasks[future] in e.ready
  {
    var before :| IsRun(Init(), before) && Exec(Init(), before) == s;
    RunKeepsSpawnInv(Init(), before);
    RunKeepsSpawnInv(s, steps);
    SpawnedAreStarted(s, steps);
    assert future in Elems(s.spawning);
  }
}
