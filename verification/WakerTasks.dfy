/**
 * The life of a guest task: spawned during a poll, started at its end, polled when its turn comes, and
 * gone for good once it has finished. The guest exits exactly when its main task has.
 */
module WakerTasks {
  import opened Common
  import opened TaskSets
  import opened GuestTables
  import opened WakerProtocol
  import opened WakerProgress

  lemma ReachableStep(s: State, step: Step)
    requires Reachable(s) && Enabled(s, step)
    ensures Reachable(Apply(s, step))
  {
    hide Apply, Enabled;
    var steps :| IsRun(Init(), steps) && Exec(Init(), steps) == s;
    RunExtends(Init(), steps, step);
  }

  lemma ReachableSpawnInv(s: State)
    requires Reachable(s)
    ensures SpawnInv(s)
  {
    var steps :| IsRun(Init(), steps) && Exec(Init(), steps) == s;
    RunKeepsSpawnInv(Init(), steps);
  }

  /** A spawned future holds its own task slot, and is queued, when the poll that spawned it is over. */
  lemma SpawnIsReadyAfterPoll(s: State, steps: seq<Step>)
    requires Reachable(s) && Enabled(s, Task(Spawn))
    requires var s1 := Apply(s, Task(Spawn)); IsRun(s1, steps) && NoNewPoll(steps) && Exec(s1, steps).phase.Idle?
    ensures var e, future := Exec(Apply(s, Task(Spawn)), steps), s.nextFuture;
            && future in e.newTasks
            && 0 < e.newTasks[future] < |e.tasks|
            && e.tasks[e.newTasks[future]] == Some(future)
            && e.newTasks[future] in e.ready
  {
    var s1 := Apply(s, Task(Spawn));
    ReachableStep(s, Task(Spawn));
    assert s1.spawning[|s.spawning|] == s.nextFuture;
    hide Apply, Enabled, Reachable, Exec, IsRun;
    SpawnedIsReadyAfterPoll(s1, steps, s.nextFuture);
  }

  /** The guest has exited exactly when its main task is gone. */
  lemma ExitedIffMainIsGone(s: State)
    requires Reachable(s)
    ensures s.tasks != [] && (s.phase.Exited? <==> s.tasks[0].None?)
  {
    ReachableSpawnInv(s);
    hide Reachable;
  }

  /** The end of a poll empties the slot of the polled task exactly if it finished, and exits exactly if that was the main task. */
  lemma EndOutcome(s: State, done: bool)
    requires Reachable(s) && PollEnabled(s, EndTask(done))
    ensures var s', t := PollApply(s, EndTask(done)), s.phase.task;
            && |s'.tasks| == |s.tasks|
            && (TaskLive(s'.tasks, t) <==> !done)
            && (forall i :: 0 <= i < |s.tasks| && i != t ==> s'.tasks[i] == s.tasks[i])
            && (s'.phase.Exited? <==> done && t == 0)
            && (!s'.phase.Exited? ==> s'.phase.StartingSpawned?)
  {
    ReachableSpawnInv(s);
    hide Reachable;
  }

  // A finished future never comes back

  /** The future is in no task slot and not waiting to be started, and its number will not be given again. */
  ghost predicate Gone(s: State, future: nat) {
    && future < s.nextFuture && future !in s.spawning
    && forall i :: 0 <= i < |s.tasks| ==> s.tasks[i] != Some(future)
  }

  /** Every future is in one place. */
  ghost predicate FuturesOk(s: State) {
    && (forall i :: 0 <= i < |s.tasks| && s.tasks[i].Some? ==> s.tasks[i].value < s.nextFuture && s.tasks[i].value !in s.spawning)
    && (forall i, j :: 0 <= i < j < |s.tasks| && s.tasks[i].Some? ==> s.tasks[i] != s.tasks[j])
    && (forall k :: 0 <= k < |s.spawning| ==> s.spawning[k] < s.nextFuture)
    && Distinct(s.spawning)
  }

  ghost predicate SameTasks(s: State, s': State) {
    s'.tasks == s.tasks && s'.spawning == s.spawning && s'.nextFuture == s.nextFuture
  }

  lemma OtherStepKeepsTasks(s: State, step: Step)
    requires Enabled(s, step) && step != Task(Spawn) && step != Poll(StartSpawned)
    requires !(step.Poll? && step.p.EndTask?)
    ensures SameTasks(s, Apply(s, step))
  {
    hide Interned, Started, Lookup, Dropped, TaskLive, Pushed, BeingWoken;
    match step {
      case Poll(p) =>
        match p {
          case BeginPoll => case Drain => case HandleMessage => case NextReadyTask =>
          case EndSpawned => case CheckTasks => case CheckWakers =>
        }
      case Task(t) =>
        match t {
          case Intern(_) => case FromId(_) => case MarkReady(_) =>
        }
      case Host(_) =>
    }
  }

  lemma StartedTasks(s: State)
    requires s.tasks != [] && PollEnabled(s, StartSpawned)
    ensures var s' := PollApply(s, StartSpawned);
            && |s.tasks| <= |s'.tasks| && s'.spawning == s.spawning[1..] && s'.nextFuture == s.nextFuture
            && exists id: nat :: id < |s'.tasks| && s'.tasks[id] == Some(s.spawning[0])
                 && (id < |s.tasks| ==> s.tasks[id].None?)
                 && (forall i :: 0 <= i < |s'.tasks| && i != id ==> i < |s.tasks| && s'.tasks[i] == s.tasks[i])
  {
    StartTakesFreeSlot(s.tasks, s.spawning[0]);
    StartedLength(s.tasks, s.spawning[0]);
    hide Pushed, Started;
  }

  lemma StartedLength(tasks: seq<Option<nat>>, future: nat)
    requires Started(tasks, future).Some?
    ensures var (tasks', id) := Started(tasks, future).value;
            0 <= id && (|tasks'| == |tasks| || (id == |tasks| && |tasks'| == |tasks| + 1))
  {}

  lemma SpawnKeepsFutures(s: State)
    requires FuturesOk(s) && TaskEnabled(s, Spawn)
    ensures FuturesOk(TaskApply(s, Spawn))
  {}

  lemma StartKeepsFutures(s: State)
    requires FuturesOk(s) && s.tasks != [] && PollEnabled(s, StartSpawned)
    ensures FuturesOk(PollApply(s, StartSpawned))
  {
    StartedTasks(s);
    var s' := PollApply(s, StartSpawned);
    var id: nat :| id < |s'.tasks| && s'.tasks[id] == Some(s.spawning[0])
                && (id < |s.tasks| ==> s.tasks[id].None?)
                && (forall i :: 0 <= i < |s'.tasks| && i != id ==> i < |s.tasks| && s'.tasks[i] == s.tasks[i]);
    hide PollApply;
    assert s.spawning == [s.spawning[0]] + s.spawning[1..];
  }

  lemma StepKeepsFutures(s: State, step: Step)
    requires FuturesOk(s) && s.tasks != [] && Enabled(s, step)
    ensures FuturesOk(Apply(s, step)) && Apply(s, step).tasks != []
  {
    if step == Task(Spawn) {
      SpawnKeepsFutures(s);
    } else if step == Poll(StartSpawned) {
      StartedTasks(s);
      StartKeepsFutures(s);
    } else if step.Poll? && step.p.EndTask? {
    } else {
      OtherStepKeepsTasks(s, step);
      hide Apply;
    }
  }

  lemma {:induction false} RunKeepsFutures(s: State, steps: seq<Step>)
    requires FuturesOk(s) && s.tasks != [] && IsRun(s, steps)
    ensures FuturesOk(Exec(s, steps))
    decreases |steps|
  {
    if steps != [] {
      StepKeepsFutures(s, steps[0]);
      hide FuturesOk, Apply, Enabled;
      RunKeepsFutures(Apply(s, steps[0]), steps[1..]);
    }
  }

  lemma StepKeepsGone(s: State, step: Step, future: nat)
    requires Gone(s, future) && s.tasks != [] && Enabled(s, step)
    ensures Gone(Apply(s, step), future) && Apply(s, step).tasks != []
  {
    if step == Task(Spawn) {
    } else if step == Poll(StartSpawned) {
      StartedTasks(s);
      hide PollApply;
      assert s.spawning == [s.spawning[0]] + s.spawning[1..];
    } else if step.Poll? && step.p.EndTask? {
    } else {
      OtherStepKeepsTasks(s, step);
      hide Apply;
    }
  }

  lemma {:induction false} RunKeepsGone(s: State, steps: seq<Step>, future: nat)
    requires Gone(s, future) && s.tasks != [] && IsRun(s, steps)
    ensures Gone(Exec(s, steps), future)
    decreases |steps|
  {
    if steps != [] {
      StepKeepsGone(s, steps[0], future);
      hide Gone, Apply, Enabled;
      RunKeepsGone(Apply(s, steps[0]), steps[1..], future);
    }
  }

  /** In every run, a future that has finished is never in a task slot again. */
  lemma FinishedNeverRunsAgain(s: State, steps: seq<Step>)
    requires Reachable(s) && PollEnabled(s, EndTask(true)) && s.tasks[s.phase.task].Some?
    requires IsRun(PollApply(s, EndTask(true)), steps)
    ensures Gone(Exec(PollApply(s, EndTask(true)), steps), s.tasks[s.phase.task].value)
  {
    var before :| IsRun(Init(), before) && Exec(Init(), before) == s;
    RunKeepsFutures(Init(), before);
    var s1, future := PollApply(s, EndTask(true)), s.tasks[s.phase.task].value;
    assert Gone(s1, future);
    hide Gone, FuturesOk;
    RunKeepsGone(s1, steps, future);
  }
}
