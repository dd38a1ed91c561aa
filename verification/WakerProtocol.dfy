/**
 * The wake-up protocol between one guest instance and the host, as a step system. The guest
 * polls one task per `wapo_poll`; host threads wake and drop the handles they were given, at any
 * moment in between. Each lock region and each guest action is one step, so every interleaving of
 * the two sides is a run.
 */
module WakerProtocol {
  import opened Common
  import opened TaskSets
  import opened GuestTables

  /**
   * A message of the `awake_wakers` queue. The guest sees `code` only: an id to wake, or
   * `-1 - id` for an id to drop. `gen` records which host handle sent it.
   */
  datatype Msg = Msg(code: int, gen: nat)

  ghost predicate IsWake(m: Msg) {
    m.code >= 0
  }

  ghost function IdOf(m: Msg): nat {
    if m.code >= 0 then m.code else -1 - m.code
  }

  /** A host `GuestWaker`: `refs` clones of it exist; `task` is the guest task that made the ocall. */
  datatype Handle = Handle(id: nat, task: int, refs: nat)

  /** How far a host thread got inside `WakerData::wake_by_ref`. */
  datatype WakeStage = WakeCalled | TaskPushed | MessagePushed

  datatype WakeCall = WakeCall(gen: nat, stage: WakeStage)

  datatype Phase =
    | Idle                            // between polls
    | Entering                        // `wapo_poll` entered, messages not drained yet
    | Draining(inbox: seq<Msg>)       // looping over the drained messages
    | Running(task: nat)              // inside the poll of one task
    | StartingSpawned                 // `start_spawned_tasks`
    | CheckingTasks                   // `has_more_ready_tasks`, first half
    | CheckingWakers                  // `has_more_ready_tasks`, second half
    | Exited

  /**
   * `handles` are the live host handles by generation, `unpassed` the interned ids that no ocall
   * has received yet, `wakes` the host threads inside a wake. `peak` is the largest number of
   * wakers that were ever live at once, `newTasks` the tasks started during the current poll.
   */
  datatype State = State(
    table: WakerTable,
    tasks: seq<Option<nat>>,
    spawning: seq<nat>,
    ready: seq<int>,
    messages: seq<Msg>,
    phase: Phase,
    signalled: bool,
    handles: map<nat, Handle>,
    unpassed: map<nat, nat>,
    wakes: map<nat, WakeCall>,
    nextGen: nat,
    nextFuture: nat,
    peak: nat,
    newTasks: map<nat, nat>)

  ghost function Init(): State {
    State(WakerTable([], []), [Some(0)], [], [0], [], Idle, true, map[], map[], map[], 0, 1, 0, map[])
  }

  /** The fixed frame of a poll: `WasmRun::poll` on the host around `wapo_poll` in the guest. */
  datatype PollStep =
    | BeginPoll
    | Drain
    | HandleMessage
    | NextReadyTask
    | EndTask(done: bool)
    | StartSpawned
    | EndSpawned
    | CheckTasks
    | CheckWakers

  /** What the code of the running task does. */
  datatype TaskStep =
    | Intern(target: int)
    | FromId(id: nat)
    | MarkReady(target: int)
    | Spawn

  /** What host threads do with the handles they hold. */
  datatype HostStep =
    | CloneHandle(gen: nat)
    | DropHandle(gen: nat)
    | BeginWake(call: nat, gen: nat)
    | WakePushTask(call: nat)
    | WakePushMessage(call: nat)
    | WakeSignal(call: nat)

  datatype Step = Poll(p: PollStep) | Task(t: TaskStep) | Host(h: HostStep)

  ghost predicate BeingWoken(s: State, gen: nat) {
    exists c :: c in s.wakes && s.wakes[c].gen == gen
  }

  ghost predicate AtStage(s: State, call: nat, stage: WakeStage) {
    call in s.wakes && s.wakes[call].stage == stage && s.wakes[call].gen in s.handles
  }

  ghost predicate PollEnabled(s: State, step: PollStep) {
    match step
    case BeginPoll => s.phase.Idle?
    case Drain => s.phase.Entering?
    case HandleMessage => s.phase.Draining? && s.phase.inbox != []
    case NextReadyTask => s.phase.Draining? && s.phase.inbox == []
    case EndTask(_) => s.phase.Running? && s.phase.task < |s.tasks|
    case StartSpawned => s.phase.StartingSpawned? && s.spawning != [] && Started(s.tasks, s.spawning[0]).Some?
    case EndSpawned => s.phase.StartingSpawned? && s.spawning == []
    case CheckTasks => s.phase.CheckingTasks?
    case CheckWakers => s.phase.CheckingWakers?
  }

  ghost predicate TaskEnabled(s: State, step: TaskStep) {
    && s.phase.Running?
    && match step
       case Intern(target) => Interned(s.table, Waker(s.nextGen, target)).Some?
       case FromId(id) => id in s.unpassed
       case MarkReady(_) => true
       case Spawn => true
  }

  ghost predicate HostEnabled(s: State, step: HostStep) {
    match step
    case CloneHandle(gen) => gen in s.handles
    case DropHandle(gen) => gen in s.handles && s.handles[gen].refs >= 1 && (s.handles[gen].refs >= 2 || !BeingWoken(s, gen))
    case BeginWake(call, gen) => call !in s.wakes && gen in s.handles
    case WakePushTask(call) => AtStage(s, call, WakeCalled)
    case WakePushMessage(call) => AtStage(s, call, TaskPushed)
    case WakeSignal(call) => AtStage(s, call, MessagePushed)
  }

  ghost predicate Enabled(s: State, step: Step) {
    match step
    case Poll(p) => PollEnabled(s, p)
    case Task(t) => TaskEnabled(s, t)
    case Host(h) => HostEnabled(s, h)
  }

  /** One round of the loop over the drained messages. */
  ghost function HandleOne(s: State, m: Msg, rest: seq<Msg>): State {
    var (table, ready) := HandledCode(s.table, s.ready, m.code);
    s.(phase := Draining(rest), table := table, ready := ready)
  }

  ghost function PopOne(s: State): State {
    if s.ready == [] then
      s.(phase := CheckingTasks)
    else
      s.(ready := s.ready[1..],
         phase := if TaskLive(s.tasks, s.ready[0]) then Running(s.ready[0]) else CheckingTasks)
  }

  ghost function InternOne(s: State, target: int): State
    requires TaskEnabled(s, Intern(target))
  {
    var (table, id) := Interned(s.table, Waker(s.nextGen, target)).value;
    s.(table := table,
       unpassed := s.unpassed[id := s.nextGen],
       nextGen := s.nextGen + 1,
       peak := Max(s.peak, |LiveIds(table.slots)|))
  }

  ghost function EndOne(s: State, done: bool): State
    requires PollEnabled(s, EndTask(done))
  {
    var tasks := if done then s.tasks[s.phase.task := None] else s.tasks;
    s.(tasks := tasks, phase := if tasks[0].None? then Exited else StartingSpawned)
  }

  ghost function StartOne(s: State): State
    requires PollEnabled(s, StartSpawned)
  {
    var (tasks, id) := Started(s.tasks, s.spawning[0]).value;
    s.(tasks := tasks, spawning := s.spawning[1..], ready := Pushed(s.ready, id),
       newTasks := s.newTasks[s.spawning[0] := id])
  }

  ghost function DropOne(s: State, gen: nat): State
    requires HostEnabled(s, DropHandle(gen))
  {
    var h := s.handles[gen];
    if h.refs >= 2 then
      s.(handles := s.handles[gen := h.(refs := h.refs - 1)])
    else
      s.(handles := s.handles - {gen}, messages := s.messages + [Msg(-1 - h.id, gen)])
  }

  ghost function PollApply(s: State, step: PollStep): State
    requires PollEnabled(s, step)
  {
    match step
    case BeginPoll => s.(phase := Entering, signalled := false, newTasks := map[])
    case Drain => s.(phase := Draining(s.messages), messages := [])
    case HandleMessage => HandleOne(s, s.phase.inbox[0], s.phase.inbox[1..])
    case NextReadyTask => PopOne(s)
    case EndTask(done) => EndOne(s, done)
    case StartSpawned => StartOne(s)
    case EndSpawned => s.(phase := CheckingTasks)
    case CheckTasks =>
      if s.ready != [] then s.(phase := Idle, signalled := true) else s.(phase := CheckingWakers)
    case CheckWakers =>
      if s.messages != [] then s.(phase := Idle, signalled := true) else s.(phase := Idle)
  }

  ghost function TaskApply(s: State, step: TaskStep): State
    requires TaskEnabled(s, step)
  {
    match step
    case Intern(target) => InternOne(s, target)
    case FromId(id) =>
      s.(handles := s.handles[s.unpassed[id] := Handle(id, s.phase.task, 1)], unpassed := s.unpassed - {id})
    case MarkReady(target) => s.(ready := Pushed(s.ready, target))
    case Spawn => s.(spawning := s.spawning + [s.nextFuture], nextFuture := s.nextFuture + 1)
  }

  ghost function HostApply(s: State, step: HostStep): State
    requires HostEnabled(s, step)
  {
    match step
    case CloneHandle(gen) => s.(handles := s.handles[gen := s.handles[gen].(refs := s.handles[gen].refs + 1)])
    case DropHandle(gen) => DropOne(s, gen)
    case BeginWake(call, gen) => s.(wakes := s.wakes[call := WakeCall(gen, WakeCalled)])
    case WakePushTask(call) =>
      var w := s.wakes[call];
      s.(ready := Pushed(s.ready, s.handles[w.gen].task), wakes := s.wakes[call := w.(stage := TaskPushed)])
    case WakePushMessage(call) =>
      var w := s.wakes[call];
      s.(messages := s.messages + [Msg(s.handles[w.gen].id, w.gen)], wakes := s.wakes[call := w.(stage := MessagePushed)])
    case WakeSignal(call) => s.(signalled := true, wakes := s.wakes - {call})
  }

  ghost function Apply(s: State, step: Step): State
    requires Enabled(s, step)
  {
    match step
    case Poll(p) => PollApply(s, p)
    case Task(t) => TaskApply(s, t)
    case Host(h) => HostApply(s, h)
  }

  /** `steps` is a run from `s`, and `Exec` is where it ends. */
  ghost predicate IsRun(s: State, steps: seq<Step>)
    decreases |steps|
  {
    steps == [] || (Enabled(s, steps[0]) && IsRun(Apply(s, steps[0]), steps[1..]))
  }

  ghost function Exec(s: State, steps: seq<Step>): State
    requires IsRun(s, steps)
    decreases |steps|
  {
    if steps == [] then s else Exec(Apply(s, steps[0]), steps[1..])
  }

  ghost predicate Reachable(s: State) {
    exists steps :: IsRun(Init(), steps) && Exec(Init(), steps) == s
  }
}
