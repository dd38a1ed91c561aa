/**
 * Whole polls: every poll can be carried to its end, the first one runs the main task, and the executor is
 * asked for another only when something is left to do.
 */
module WakerPolls {
  import opened Common
  import opened TaskSets
  import opened GuestTables
  import opened WakerProtocol
  import opened WakerProgress
  import opened WakerTasks

  /** The first thing a guest does is to run its main task. */
  lemma FirstPollRunsMain()
    ensures var steps := [Poll(BeginPoll), Poll(Drain), Poll(NextReadyTask)];
            Init().signalled && IsRun(Init(), steps) && Exec(Init(), steps).phase == Running(0)
  {
    var s1 := Apply(Init(), Poll(BeginPoll));
    var s2 := Apply(s1, Poll(Drain));
    assert [Poll(BeginPoll), Poll(Drain), Poll(NextReadyTask)][1..] == [Poll(Drain), Poll(NextReadyTask)];
    assert [Poll(Drain), Poll(NextReadyTask)][1..] == [Poll(NextReadyTask)];
    RunExtends(s2, [], Poll(NextReadyTask));
    assert IsRun(s1, [Poll(Drain), Poll(NextReadyTask)]);
  }

  // A poll comes to an end

  /** How many steps of the poll are left at most. */
  ghost function StepsLeft(s: State): nat {
    match s.phase
    case Idle => 0
    case Entering => |s.messages| + |s.spawning| + 6
    case Draining(inbox) => |inbox| + |s.spawning| + 5
    case Running(_) => |s.spawning| + 4
    case StartingSpawned => |s.spawning| + 3
    case CheckingTasks => 2
    case CheckingWakers => 1
    case Exited => 0
  }

  /** There is a task slot for every future that waits for one. */
  ghost predicate HasRoom(s: State) {
    |s.tasks| + |s.spawning| <= MAX_N_TASKS
  }

  ghost predicate IsPollEnd(s: State) {
    s.phase.Idle? || s.phase.Exited?
  }

  /** The next step of the poll; a task that runs returns with `done`. */
  ghost function NextStep(s: State, done: bool): PollStep {
    match s.phase
    case Entering => Drain
    case Draining(inbox) => if inbox == [] then NextReadyTask else HandleMessage
    case Running(_) => EndTask(done)
    case StartingSpawned => if s.spawning == [] then EndSpawned else StartSpawned
    case CheckingTasks => CheckTasks
    case CheckingWakers => CheckWakers
    case _ => BeginPoll
  }

  lemma NextStepIsEnabled(s: State, done: bool)
    requires SpawnInv(s) && HasRoom(s) && !s.phase.Exited?
    ensures PollEnabled(s, NextStep(s, done))
  {
    if s.phase.StartingSpawned? && s.spawning != [] {
      StartTakesFreeSlot(s.tasks, s.spawning[0]);
    }
    hide Started;
  }

  lemma NextStepGoesOn(s: State, done: bool)
    requires SpawnInv(s) && HasRoom(s) && !IsPollEnd(s) && PollEnabled(s, NextStep(s, done))
    ensures var s' := PollApply(s, NextStep(s, done));
            HasRoom(s') && StepsLeft(s') < StepsLeft(s)
  {
    if s.phase.StartingSpawned? && s.spawning != [] {
      StartedLength(s.tasks, s.spawning[0]);
    }
    hide Started, Pushed, TaskLive, HandledCode, NewTasksReady;
  }

  /**
   * A poll never blocks and never goes on for ever: from every state inside one, its own steps lead to its
   * end within as many steps as there are messages and new futures, and six more. No step of the host is needed.
   */
  lemma {:induction false} PollFinishes(s: State, done: bool) returns (steps: seq<Step>)
    requires SpawnInv(s) && HasRoom(s)
    ensures IsRun(s, steps) && |steps| <= StepsLeft(s) && IsPollEnd(Exec(s, steps))
    ensures forall k :: 0 <= k < |steps| ==> steps[k].Poll? && !IsBegin(steps[k])
    decreases StepsLeft(s)
  {
    if IsPollEnd(s) {
      steps := [];
    } else {
      var p := NextStep(s, done);
      NextStepIsEnabled(s, done);
      NextStepGoesOn(s, done);
      PollKeepsSpawnInv(s, p);
      hide PollApply, SpawnInv, HasRoom, StepsLeft, IsPollEnd, PollEnabled;
      var rest := PollFinishes(PollApply(s, p), done);
      steps := [Poll(p)] + rest;
      assert steps[1..] == rest;
    }
  }

  /** In every reachable state the guest has exited, or a poll can begin, or the running one can finish. */
  lemma PollAlwaysFinishes(s: State, done: bool) returns (steps: seq<Step>)
    requires Reachable(s) && HasRoom(s)
    ensures IsRun(s, steps) && |steps| <= StepsLeft(s)
    ensures var e := Exec(s, steps); e.phase.Exited? || Enabled(e, Poll(BeginPoll))
    ensures forall k :: 0 <= k < |steps| ==> steps[k].Poll? && !IsBegin(steps[k])
  {
    ReachableSpawnInv(s);
    hide Reachable, SpawnInv, HasRoom, StepsLeft;
    steps := PollFinishes(s, done);
  }

  // Signals are for work

  ghost predicate IsSignal(step: Step) {
    step.Host? && step.h.WakeSignal?
  }

  /** Inside a poll nothing is signalled yet; after it, a signal stands for work that is there. */
  ghost predicate OnlyForWork(s: State) {
    && (!s.phase.Idle? && !s.phase.Exited? ==> !s.signalled)
    && (s.phase.Idle? && s.signalled ==> s.ready != [] || s.messages != [])
  }

  lemma StepKeepsOnlyForWork(s: State, step: Step)
    requires OnlyForWork(s) && Enabled(s, step) && !IsBegin(step) && !IsSignal(step)
    ensures OnlyForWork(Apply(s, step))
  {
    hide Interned, Started, Lookup, Dropped, TaskLive, BeingWoken;
    match step {
      case Poll(p) =>
        match p {
          case Drain => case HandleMessage => case NextReadyTask => case EndTask(_) =>
          case StartSpawned => case EndSpawned => case CheckTasks => case CheckWakers =>
        }
      case Task(_) =>
      case Host(h) =>
        match h {
          case CloneHandle(_) => case DropHandle(_) => case BeginWake(_, _) =>
          case WakePushTask(_) => case WakePushMessage(_) =>
        }
    }
  }

  lemma {:induction false} RunKeepsOnlyForWork(s: State, steps: seq<Step>)
    requires OnlyForWork(s) && IsRun(s, steps) && NoNewPoll(steps)
    requires forall k :: 0 <= k < |steps| ==> !IsSignal(steps[k])
    ensures OnlyForWork(Exec(s, steps))
    decreases |steps|
  {
    if steps != [] {
      StepKeepsOnlyForWork(s, steps[0]);
      hide OnlyForWork, Apply, Enabled;
      RunKeepsOnlyForWork(Apply(s, steps[0]), steps[1..]);
    }
  }

  /**
   * A poll uses up the signal it answers: unless a wake signals meanwhile, the executor is asked for another
   * poll only when a task is ready or a message is waiting.
   */
  lemma NoPollForNothing(s: State, steps: seq<Step>)
    requires Enabled(s, Poll(BeginPoll))
    requires var s1 := Apply(s, Poll(BeginPoll)); IsRun(s1, steps) && NoNewPoll(steps) && Exec(s1, steps).phase.Idle?
    requires forall k :: 0 <= k < |steps| ==> !IsSignal(steps[k])
    ensures var e := Exec(Apply(s, Poll(BeginPoll)), steps);
            e.signalled ==> e.ready != [] || e.messages != []
  {
    RunKeepsOnlyForWork(Apply(s, Poll(BeginPoll)), steps);
  }
}
